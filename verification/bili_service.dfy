/**
  The command-line helper that talks to the Bilibili API library: the
  credential file it keeps between runs, the mapping from a QR login event
  to the JSON reply, and the dispatch on the command-line arguments. The
  library calls themselves (fetching video, bangumi, user and dynamic data,
  generating a QR code, checking its state) are inputs.
*/
module BiliService {
  import opened Wrappers

  // ------------------------------------------------------------ the credential file

  /** The three cookie values the library's credential carries; a field may be `None`. */
  datatype Credential = Credential(sessdata: Option<string>, biliJct: Option<string>, buvid3: Option<string>)

  /**
    The credential file as the program finds it: absent, holding a JSON
    object (its string-or-null members), or present but not a readable
    JSON object, which raises an error the loader does not catch.
  */
  datatype CredentialFile = Missing | Object(members: map<string, Option<string>>) | Unreadable(error: string)

  /** `dict.get`: the member's value, `None` when the member is absent. */
  function Get(members: map<string, Option<string>>, key: string): Option<string>
  {
    if key in members then members[key] else None
  }

  /** The object `save_credential` writes. */
  function Dumped(c: Credential): (r: map<string, Option<string>>)
    ensures r.Keys == {"SESSDATA", "BILI_JCT", "BUVID3"}
  {
    map["SESSDATA" := c.sessdata, "BILI_JCT" := c.biliJct, "BUVID3" := c.buvid3]
  }

  /**
    `load_credential`: no credential when the file is missing; the three
    members when it holds an object; any other failure propagates.
  */
  function Loaded(file: CredentialFile): (r: Result<Option<Credential>>)
    ensures file.Missing? <==> r == Success(None)
    ensures file.Unreadable? <==> r.Failure?
    ensures file.Object? ==> r == Success(Some(Credential(Get(file.members, "SESSDATA"), Get(file.members, "BILI_JCT"), Get(file.members, "BUVID3"))))
  {
    match file
    case Missing => Success(None)
    case Object(members) => Success(Some(Credential(Get(members, "SESSDATA"), Get(members, "BILI_JCT"), Get(members, "BUVID3"))))
    case Unreadable(error) => Failure(error)
  }

  /** Loading what was saved gives back the same credential, `None` fields included. */
  lemma LoadAfterSave(c: Credential)
    ensures Loaded(Object(Dumped(c))) == Success(Some(c))
  {
    var m := Dumped(c);
    assert Get(m, "SESSDATA") == c.sessdata;
    assert Get(m, "BILI_JCT") == c.biliJct;
    assert Get(m, "BUVID3") == c.buvid3;
  }

  /** Members other than the three are ignored by the loader. */
  lemma LoadIgnoresOtherMembers(members: map<string, Option<string>>, key: string, value: Option<string>)
    requires key !in {"SESSDATA", "BILI_JCT", "BUVID3"}
    ensures Loaded(Object(members[key := value])) == Loaded(Object(members))
  {
    var m := members[key := value];
    assert Get(m, "SESSDATA") == Get(members, "SESSDATA");
    assert Get(m, "BILI_JCT") == Get(members, "BILI_JCT");
    assert Get(m, "BUVID3") == Get(members, "BUVID3");
  }

  // ------------------------------------------------------------ poll_login

  /** The events the library's QR login reports; `Other` is any further one. */
  datatype LoginEvent = Done | Scan | Conf | Timeout | Other

  /** What the state check gave: an event, or an exception with its text. */
  datatype Checked = Event(event: LoginEvent) | Raised(message: string)

  /** The JSON object printed for a call: its `status`, optional `code`, and `message`. */
  datatype Reply = Reply(status: string, code: Option<int>, message: string)

  const LoggedInMessage: string := "登录成功"
  const WaitingForScan: string := "等待扫码"
  const WaitingForConfirm: string := "已扫码，请在手机上确认"
  const Expired: string := "二维码已过期"
  const UnknownState: string := "未知状态"

  /**
    The reply for a checked state when saving the credential, if it comes
    to that, fails with `saveError`.
  */
  function PollReply(checked: Checked, saveError: Option<string>): (r: Reply)
    ensures r.status in {"success", "pending", "error"}
    ensures r.status == "pending" <==> checked in {Event(Scan), Event(Conf)}
    ensures r.status == "success" <==> checked == Event(Done) && saveError.None?
    ensures r.code.Some? <==> checked in {Event(Scan), Event(Conf), Event(Timeout)}
    ensures checked == Event(Scan) ==> r == Reply("pending", Some(86101), WaitingForScan)
    ensures checked == Event(Conf) ==> r == Reply("pending", Some(86090), WaitingForConfirm)
    ensures checked == Event(Timeout) ==> r == Reply("error", Some(86038), Expired)
    ensures checked == Event(Other) ==> r == Reply("error", None, UnknownState)
    ensures checked.Raised? ==> r == Reply("error", None, checked.message)
    ensures checked == Event(Done) && saveError.Some? ==> r == Reply("error", None, saveError.value)
  {
    match checked
    case Raised(message) => Reply("error", None, message)
    case Event(event) =>
      match event
      case Done =>
        if saveError.Some? then Reply("error", None, saveError.value)
        else Reply("success", None, LoggedInMessage)
      case Scan => Reply("pending", Some(86101), WaitingForScan)
      case Conf => Reply("pending", Some(86090), WaitingForConfirm)
      case Timeout => Reply("error", Some(86038), Expired)
      case Other => Reply("error", None, UnknownState)
  }

  /**
    The credential file kept between runs of the helper. A write that fails
    leaves the file as it was.
  */
  class CredentialStore {
    var file: CredentialFile

    constructor (onDisk: CredentialFile)
      ensures file == onDisk
    {
      file := onDisk;
    }

    /** `load_credential`. */
    method Load() returns (r: Result<Option<Credential>>)
      ensures r == Loaded(file)
    {
      match file {
        case Missing => r := Success(None);
        case Object(members) =>
          r := Success(Some(Credential(Get(members, "SESSDATA"), Get(members, "BILI_JCT"), Get(members, "BUVID3"))));
        case Unreadable(error) => r := Failure(error);
      }
    }

    /** `save_credential`; `writeError` is the failure of the write, if it fails. */
    method Save(c: Credential, writeError: Option<string>) returns (r: Result<()>)
      modifies this
      ensures writeError.None? ==> r == Success(()) && file == Object(Dumped(c))
      ensures writeError.Some? ==> r == Failure(writeError.value) && file == old(file)
    {
      if writeError.Some? {
        return Failure(writeError.value);
      }
      file := Object(Dumped(c));
      return Success(());
    }

    /**
      `poll_login`: `checked` is what `check_state` gave and `credential`
      what the library hands over after a completed login. Only a completed
      login writes the file.
    */
    method PollLogin(checked: Checked, credential: Credential, writeError: Option<string>) returns (r: Reply)
      modifies this
      ensures r == PollReply(checked, writeError)
      ensures checked == Event(Done) && writeError.None? ==> file == Object(Dumped(credential))
      ensures !(checked == Event(Done) && writeError.None?) ==> file == old(file)
    {
      if checked == Event(Done) {
        var saved := Save(credential, writeError);
        if saved.Failure? {
          return Reply("error", None, saved.error);
        }
        return Reply("success", None, LoggedInMessage);
      }
      match checked {
        case Raised(message) => r := Reply("error", None, message);
        case Event(event) =>
          if event == Scan {
            r := Reply("pending", Some(86101), WaitingForScan);
          } else if event == Conf {
            r := Reply("pending", Some(86090), WaitingForConfirm);
          } else if event == Timeout {
            r := Reply("error", Some(86038), Expired);
          } else {
            r := Reply("error", None, UnknownState);
          }
      }
    }
  }

  /** After a successful login the next load hands back that login's credential. */
  lemma LoginThenLoad(checked: Checked, credential: Credential, writeError: Option<string>, file: CredentialFile)
    requires PollReply(checked, writeError).status == "success"
    ensures var after := if checked == Event(Done) && writeError.None? then Object(Dumped(credential)) else file;
            Loaded(after) == Success(Some(credential))
  {
    LoadAfterSave(credential);
  }

  // ------------------------------------------------------------ main

  /** A command with its argument, ready to run. */
  datatype Command =
    | Video(bvid: string)
    | Bangumi(seasonId: string)
    | LoginUrl
    | LoginCheck(key: string)
    | UserDynamic(uid: string)
    | UserLive(uid: string)
    | DynamicDetail(dynamicId: string)

  /**
    What `main` does with its arguments: print an error reply, run a
    command, or stop on the `IndexError` of a command whose argument is
    missing.
  */
  datatype Dispatch = Answer(reply: Reply) | Run(command: Command) | MissingArgument(name: string)

  const NoCommand: string := "No command provided"
  const UnknownCommand: string := "Unknown command"

  /** The command names that take an argument. */
  predicate TakesArgument(name: string)
  {
    name in {"video", "bangumi", "login_check", "user_dynamic", "user_live", "dynamic_detail"}
  }

  function WithArgument(name: string, arg: string): (r: Command)
    requires TakesArgument(name)
    ensures r != LoginUrl
  {
    if name == "video" then Video(arg)
    else if name == "bangumi" then Bangumi(arg)
    else if name == "login_check" then LoginCheck(arg)
    else if name == "user_dynamic" then UserDynamic(arg)
    else if name == "user_live" then UserLive(arg)
    else DynamicDetail(arg)
  }

  /** `main` on `sys.argv`, whose first element is the script's own name. */
  function DispatchArgs(argv: seq<string>): (r: Dispatch)
    ensures |argv| < 2 <==> r == Answer(Reply("error", None, NoCommand))
    ensures r.Answer? ==> r.reply.status == "error"
    ensures |argv| >= 2 && !TakesArgument(argv[1]) && argv[1] != "login_url" ==> r == Answer(Reply("error", None, UnknownCommand))
    ensures |argv| >= 2 && argv[1] == "login_url" ==> r == Run(LoginUrl)
    ensures r.MissingArgument? <==> |argv| == 2 && TakesArgument(argv[1])
  {
    if |argv| < 2 then Answer(Reply("error", None, NoCommand))
    else
      var name := argv[1];
      if name == "login_url" then Run(LoginUrl)
      else if TakesArgument(name) then
        if |argv| < 3 then MissingArgument(name) else Run(WithArgument(name, argv[2]))
      else Answer(Reply("error", None, UnknownCommand))
  }

  /** Each named command runs on the argument right after its name; later arguments are ignored. */
  lemma DispatchUsesSecondArgument(argv: seq<string>)
    requires |argv| >= 3 && TakesArgument(argv[1])
    ensures DispatchArgs(argv) == Run(WithArgument(argv[1], argv[2]))
    ensures forall extra :: DispatchArgs(argv + extra) == DispatchArgs(argv)
  {
    forall extra: seq<string>
      ensures DispatchArgs(argv + extra) == DispatchArgs(argv)
    {
      assert (argv + extra)[1] == argv[1] && (argv + extra)[2] == argv[2];
    }
  }

  /** Distinct commands never collide: the command run names its own argument back. */
  lemma WithArgumentInjective(a: string, b: string, x: string, y: string)
    requires TakesArgument(a) && TakesArgument(b)
    ensures WithArgument(a, x) == WithArgument(b, y) <==> a == b && x == y
  {
  }
}
