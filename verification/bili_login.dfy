/**
  The QR-code login: fetching a QR key, polling its scan status on a timer,
  folding the `Set-Cookie` headers of the successful poll into one cookie
  string, and writing that string into the configuration source text. The
  HTTP answers are inputs; the timer is a sequence of ticks.
*/
module BiliLogin {
  import opened Wrappers
  import opened Text
  import opened Js
  import opened Seqs

  // ------------------------------------------------------------ cookies

  /** One entry of the cookie object: a key and its value, `None` for `undefined`. */
  type Entry = (string, Option<string>)

  /** The part of a `Set-Cookie` header before the first `;`. */
  function PairOf(header: string): string
  {
    Split(header, ';')[0]
  }

  /** The key: the trimmed text before the first `=` of the pair. */
  function KeyOf(header: string): string
  {
    Trim(Split(PairOf(header), '=')[0])
  }

  /** The value: the text between the first and second `=`, `undefined` when there is no `=`. */
  function ValueOf(header: string): Option<string>
  {
    var parts := Split(PairOf(header), '=');
    if |parts| >= 2 then Some(parts[1]) else None
  }

  function Keys(m: seq<Entry>): (r: seq<string>)
    ensures |r| == |m| && forall i :: 0 <= i < |m| ==> r[i] == m[i].0
  {
    if m == [] then [] else Keys(m[..|m| - 1]) + [m[|m| - 1].0]
  }

  /**
    `obj[k] = v` on a plain object: an existing key keeps its place and takes
    the new value; a new key goes last.
  */
  function Put(m: seq<Entry>, k: string, v: Option<string>): (r: seq<Entry>)
    ensures k in Keys(m) ==> |r| == |m|
    ensures k !in Keys(m) ==> r == m + [(k, v)]
    ensures forall x :: x in Keys(r) <==> x in Keys(m) || x == k
  {
    if k in Keys(m) then
      var i := FirstIndex(Keys(m), k);
      var r := m[i := (k, v)];
      assert forall x :: x in Keys(r) <==> x in Keys(m) || x == k by {
        forall x | x in Keys(m) ensures x in Keys(r) {
          var j :| 0 <= j < |m| && m[j].0 == x;
          assert r[j].0 == x;
        }
      }
      r
    else
      assert Keys(m + [(k, v)]) == Keys(m) + [k];
      m + [(k, v)]
  }

  /** The cookie object after the `forEach` over the headers. */
  function Entries(headers: seq<string>): seq<Entry>
  {
    if headers == [] then []
    else Put(Entries(headers[..|headers| - 1]), KeyOf(headers[|headers| - 1]), ValueOf(headers[|headers| - 1]))
  }

  /** The value under `k`, if the key is present. */
  function Lookup(m: seq<Entry>, k: string): Option<Option<string>>
  {
    if k in Keys(m) then Some(m[FirstIndex(Keys(m), k)].1) else None
  }

  /** The value of the last header whose key is `k`, if any. */
  function LastValue(headers: seq<string>, k: string): Option<Option<string>>
  {
    if headers == [] then None
    else if KeyOf(headers[|headers| - 1]) == k then Some(ValueOf(headers[|headers| - 1]))
    else LastValue(headers[..|headers| - 1], k)
  }

  lemma PutKeepsUnique(m: seq<Entry>, k: string, v: Option<string>)
    requires NoDup(Keys(m))
    ensures NoDup(Keys(Put(m, k, v)))
  {
    var r := Put(m, k, v);
    if k in Keys(m) {
      assert Keys(r) == Keys(m)[FirstIndex(Keys(m), k) := k];
    } else {
      assert Keys(r) == Keys(m) + [k];
    }
  }

  lemma PutLookup(m: seq<Entry>, k: string, v: Option<string>, x: string)
    requires NoDup(Keys(m))
    ensures Lookup(Put(m, k, v), x) == if x == k then Some(v) else Lookup(m, x)
  {
    PutKeepsUnique(m, k, v);
    var r := Put(m, k, v);
    if x in Keys(r) {
      var j := FirstIndex(Keys(r), x);
      if x == k {
        if k in Keys(m) {
          assert j == FirstIndex(Keys(m), k);
        } else {
          assert Keys(r)[|m|] == k;
          assert j == |m|;
        }
      } else {
        assert x in Keys(m);
        var i := FirstIndex(Keys(m), x);
        assert Keys(r)[i] == x;
        assert j == i;
      }
    }
  }

  /** The object never holds a key twice. */
  lemma {:induction false} EntriesUnique(headers: seq<string>)
    ensures NoDup(Keys(Entries(headers)))
  {
    if headers != [] {
      var front := headers[..|headers| - 1];
      EntriesUnique(front);
      PutKeepsUnique(Entries(front), KeyOf(headers[|headers| - 1]), ValueOf(headers[|headers| - 1]));
    }
  }

  /**
    Each key holds the value of the last header that named it: a later
    duplicate overwrites an earlier one, and only keys of some header appear.
  */
  lemma {:induction false} LastHeaderWins(headers: seq<string>, k: string)
    ensures Lookup(Entries(headers), k) == LastValue(headers, k)
  {
    if headers != [] {
      var front := headers[..|headers| - 1];
      var h := headers[|headers| - 1];
      LastHeaderWins(front, k);
      EntriesUnique(front);
      PutLookup(Entries(front), KeyOf(h), ValueOf(h), k);
    }
  }

  /** `` `${key}=${value}` `` for every entry, in order, joined by `; `. */
  function Render(m: seq<Entry>): (r: string)
    ensures m == [] ==> r == ""
  {
    Join(seq(|m|, i requires 0 <= i < |m| => m[i].0 + "=" + Shown(m[i].1)), "; ")
  }

  lemma EntriesStep(headers: seq<string>, i: nat)
    requires i < |headers|
    ensures Entries(headers[..i + 1]) == Put(Entries(headers[..i]), KeyOf(headers[i]), ValueOf(headers[i]))
  {
    assert headers[..i + 1][..i] == headers[..i];
  }

  /** The `forEach` over the headers, filling the cookie object. */
  method CollectEntries(headers: seq<string>) returns (obj: seq<Entry>)
    ensures obj == Entries(headers)
  {
    obj := [];
    var i := 0;
    while i < |headers|
      invariant 0 <= i <= |headers|
      invariant obj == Entries(headers[..i])
    {
      var k := KeyOf(headers[i]);
      var v := ValueOf(headers[i]);
      EntriesStep(headers, i);
      assert Entries(headers[..i + 1]) == Put(obj, k, v);
      obj := Put(obj, k, v);
      i := i + 1;
    }
    assert headers[..i] == headers;
  }

  /** `extractCookies`: the headers are `set-cookie`, or `[]` when the response has none. */
  method ExtractCookies(setCookie: Option<seq<string>>) returns (cookie: string)
    ensures cookie == Render(Entries(setCookie.GetOr([])))
    ensures setCookie.GetOr([]) == [] ==> cookie == ""
  {
    var obj := CollectEntries(setCookie.GetOr([]));
    cookie := Render(obj);
  }

  // ------------------------------------------------------------ polling

  /** How long the QR key is polled: sixty ticks, three seconds apart. */
  const MaxAttempts: nat := 60

  const ExpiredByCounter: string := "二维码已过期，请重新获取"
  const ExpiredByServer: string := "二维码已过期"

  /** What one poll request gives: an error (network or malformed body), or a status code and the cookie headers. */
  datatype PollAnswer = RequestFailed | Answer(code: int, setCookie: Option<seq<string>>)

  /** Where the login promise stands. */
  datatype Status = Pending | LoggedIn(cookie: string) | Rejected(message: string)

  /** The tick counter and the promise; the interval stays set exactly while the promise is pending. */
  datatype Poll = Poll(attempts: nat, status: Status)

  /**
    What happens to a running poll: the interval fires (a callback starts
    and, within the limit, sends its request), or the reply to one of the
    requests already sent arrives. Requests have no timeout, so ticks go on
    firing while replies are outstanding, and replies arrive in any order.
  */
  datatype Event = Fired | Replied(answer: PollAnswer)

  /** An answer that leaves the promise pending. */
  predicate KeepsPolling(a: PollAnswer)
  {
    !(a.Answer? && a.code in {0, 86038})
  }

  /**
    A callback up to its `await`: count the tick, and past the limit clear
    the interval and reject. A cleared interval no longer fires.
  */
  function Fire(p: Poll): (r: Poll)
    ensures p.status != Pending ==> r == p
    ensures p.status == Pending ==> r.attempts == p.attempts + 1 && (r.status == Pending <==> r.attempts <= MaxAttempts)
    ensures p.status == Pending && r.attempts > MaxAttempts ==> r.status == Rejected(ExpiredByCounter)
  {
    if p.status != Pending then p
    else if p.attempts + 1 > MaxAttempts then Poll(p.attempts + 1, Rejected(ExpiredByCounter))
    else Poll(p.attempts + 1, Pending)
  }

  /**
    A callback after its `await`: code 0 resolves with the cookies, 86038
    rejects, anything else and a failed request keep polling. A promise
    that has already settled ignores a later `resolve` or `reject`.
  */
  function Reply(p: Poll, answer: PollAnswer): (r: Poll)
    ensures r.attempts == p.attempts
    ensures p.status != Pending || KeepsPolling(answer) ==> r == p
    ensures p.status == Pending && answer.Answer? && answer.code == 0 ==>
              r.status == LoggedIn(Render(Entries(answer.setCookie.GetOr([]))))
    ensures p.status == Pending && answer.Answer? && answer.code == 86038 ==>
              r.status == Rejected(ExpiredByServer)
  {
    if p.status != Pending then p
    else match answer
      case RequestFailed => p
      case Answer(code, setCookie) =>
        if code == 0 then Poll(p.attempts, LoggedIn(Render(Entries(setCookie.GetOr([])))))
        else if code == 86038 then Poll(p.attempts, Rejected(ExpiredByServer))
        else p
  }

  function Step(p: Poll, e: Event): Poll
  {
    match e
    case Fired => Fire(p)
    case Replied(answer) => Reply(p, answer)
  }

  /** A schedule of events applied in order; nothing changes once the promise has settled. */
  function Run(p: Poll, events: seq<Event>): Poll
    decreases |events|
  {
    if events == [] || p.status != Pending then p
    else Run(Step(p, events[0]), events[1..])
  }

  /** How many times the interval fires in a schedule. */
  function Fires(events: seq<Event>): (n: nat)
    ensures n <= |events|
    decreases |events|
  {
    if events == [] then 0 else (if events[0].Fired? then 1 else 0) + Fires(events[1..])
  }

  /** Every reply in the schedule keeps polling. */
  predicate AllKeepPolling(events: seq<Event>)
  {
    forall i :: 0 <= i < |events| && events[i].Replied? ==> KeepsPolling(events[i].answer)
  }

  /** Dropping the first event of a schedule. */
  lemma Behind(events: seq<Event>, n: nat)
    requires 0 < n <= |events|
    ensures Fires(events[..n]) == (if events[0].Fired? then 1 else 0) + Fires(events[1..][..n - 1])
    ensures AllKeepPolling(events[..n]) <==> (events[0].Replied? ==> KeepsPolling(events[0].answer)) && AllKeepPolling(events[1..][..n - 1])
  {
    assert events[..n][1..] == events[1..][..n - 1];
    assert forall i :: 1 <= i < n ==> events[..n][i] == events[1..][..n - 1][i - 1];
  }

  /**
    However ticks and replies interleave, the login is still pending exactly
    when the interval fired at most sixty times in all and every reply kept
    polling; the counter then holds the number of ticks.
  */
  lemma {:induction false} PendingIff(p: Poll, events: seq<Event>)
    requires p.status == Pending && p.attempts <= MaxAttempts
    ensures Run(p, events).status == Pending <==> p.attempts + Fires(events) <= MaxAttempts && AllKeepPolling(events)
    ensures Run(p, events).status == Pending ==> Run(p, events).attempts == p.attempts + Fires(events)
    decreases |events|
  {
    if events != [] {
      Behind(events, |events|);
      assert events[..|events|] == events;
      var q := Step(p, events[0]);
      if q.status == Pending {
        PendingIff(q, events[1..]);
        assert events[1..][..|events| - 1] == events[1..];
      } else {
        assert Run(p, events) == q;
      }
    }
  }

  /** However the server answers and whenever its replies arrive, the promise settles by the sixty-first tick. */
  lemma SettlesWithin61(events: seq<Event>)
    requires Fires(events) > MaxAttempts
    ensures Run(Poll(0, Pending), events).status != Pending
  {
    PendingIff(Poll(0, Pending), events);
  }

  /**
    A code 0 reply resolves the login with its cookies when, at the moment
    it arrives, the interval has fired at most sixty times and no earlier
    reply settled the promise.
  */
  lemma {:induction false} SuccessGivesCookies(p: Poll, events: seq<Event>, n: nat)
    requires p.status == Pending
    requires n < |events| && p.attempts + Fires(events[..n]) <= MaxAttempts && AllKeepPolling(events[..n])
    requires events[n].Replied? && events[n].answer.Answer? && events[n].answer.code == 0
    ensures Run(p, events).status == LoggedIn(Render(Entries(events[n].answer.setCookie.GetOr([]))))
    decreases n
  {
    var q := Step(p, events[0]);
    assert Run(p, events) == Run(q, events[1..]);
    if n > 0 {
      Behind(events, n);
      assert q.status == Pending && q.attempts + Fires(events[1..][..n - 1]) <= MaxAttempts;
      SuccessGivesCookies(q, events[1..], n - 1);
    }
  }

  /**
    The converse: when the interval has fired more than sixty times before
    a reply arrives and no earlier reply settled the promise, the counter
    has already rejected it, and that reply, a code 0 among them, is ignored.
  */
  lemma {:induction false} ExpiryBeatsLateReply(p: Poll, events: seq<Event>, n: nat)
    requires p.status == Pending && p.attempts <= MaxAttempts
    requires n <= |events| && p.attempts + Fires(events[..n]) > MaxAttempts && AllKeepPolling(events[..n])
    ensures Run(p, events).status == Rejected(ExpiredByCounter)
    decreases n
  {
    if n > 0 {
      Behind(events, n);
      var q := Step(p, events[0]);
      if q.status == Pending {
        ExpiryBeatsLateReply(q, events[1..], n - 1);
      } else {
        assert Run(p, events) == q;
      }
    }
  }

  /** The schedule in which every reply arrives before the next tick. */
  function InOrder(answers: seq<PollAnswer>): (events: seq<Event>)
    ensures |events| == 2 * |answers|
    ensures forall i :: 0 <= i < |answers| ==> events[2 * i] == Fired && events[2 * i + 1] == Replied(answers[i])
  {
    if answers == [] then [] else [Fired, Replied(answers[0])] + InOrder(answers[1..])
  }

  /** In that schedule the interval fires once per answer. */
  lemma {:induction false} InOrderFires(answers: seq<PollAnswer>)
    ensures Fires(InOrder(answers)) == |answers|
  {
    if answers != [] {
      InOrderFires(answers[1..]);
      var e := InOrder(answers);
      assert e[1..][1..] == InOrder(answers[1..]);
    }
  }

  /**
    The case a sequential reading misses: fifty-nine 'not scanned' replies,
    then the sixtieth request is slow and its code 0 reply arrives after the
    sixty-first tick. The login is rejected by the counter, not resolved.
  */
  lemma LateSuccessIgnored(setCookie: Option<seq<string>>)
    ensures var events := InOrder(seq(59, _ => Answer(86101, None))) + [Fired, Fired, Replied(Answer(0, setCookie))];
            Run(Poll(0, Pending), events).status == Rejected(ExpiredByCounter)
  {
    var early := InOrder(seq(59, _ => Answer(86101, None)));
    var events := early + [Fired, Fired, Replied(Answer(0, setCookie))];
    InOrderFires(seq(59, _ => Answer(86101, None)));
    FiresAppend(early, [Fired, Fired]);
    assert events[..|early| + 2] == early + [Fired, Fired];
    assert Fires([Fired, Fired]) == 2;
    InOrderKeepsPolling(seq(59, _ => Answer(86101, None)));
    assert AllKeepPolling(early + [Fired, Fired]) by {
      forall i | 0 <= i < |early| + 2 && (early + [Fired, Fired])[i].Replied?
        ensures KeepsPolling((early + [Fired, Fired])[i].answer)
      {
        assert (early + [Fired, Fired])[i] == early[i];
      }
    }
    ExpiryBeatsLateReply(Poll(0, Pending), events, |early| + 2);
  }

  /** A schedule of answers that all keep polling keeps polling throughout. */
  lemma {:induction false} InOrderKeepsPolling(answers: seq<PollAnswer>)
    requires forall i :: 0 <= i < |answers| ==> KeepsPolling(answers[i])
    ensures AllKeepPolling(InOrder(answers))
  {
    if answers != [] {
      InOrderKeepsPolling(answers[1..]);
      var e := InOrder(answers);
      assert e == [Fired, Replied(answers[0])] + InOrder(answers[1..]);
      forall i | 0 <= i < |e| && e[i].Replied?
        ensures KeepsPolling(e[i].answer)
      {
        if i >= 2 {
          assert e[i] == InOrder(answers[1..])[i - 2];
        }
      }
    }
  }

  lemma {:induction false} FiresAppend(a: seq<Event>, b: seq<Event>)
    ensures Fires(a + b) == Fires(a) + Fires(b)
    decreases |a|
  {
    if a != [] {
      assert (a + b)[1..] == a[1..] + b;
      FiresAppend(a[1..], b);
    } else {
      assert a + b == b;
    }
  }

  // ------------------------------------------------------------ the login object

  /** What the QR generation endpoint answered. */
  datatype QrAnswer = QrAnswer(code: int, message: Option<string>, url: string, qrcodeKey: string)

  datatype QrCode = QrCode(url: string, qrcodeKey: string)

  class Login {
    var qrcodeKey: Option<string>
    var poll: Poll

    constructor ()
      ensures qrcodeKey == None && poll == Poll(0, Pending)
    {
      qrcodeKey := None;
      poll := Poll(0, Pending);
    }

    /** `getQRCode`: a non-zero code throws with the server's message; otherwise the key is kept. */
    method GetQRCode(answer: QrAnswer) returns (r: Result<QrCode>)
      modifies this
      ensures answer.code != 0 ==> r == Failure("获取二维码失败: " + Shown(answer.message)) && qrcodeKey == old(qrcodeKey)
      ensures answer.code == 0 ==> r == Success(QrCode(answer.url, answer.qrcodeKey)) && qrcodeKey == Some(answer.qrcodeKey)
      ensures poll == old(poll)
    {
      if answer.code != 0 {
        return Failure("获取二维码失败: " + Shown(answer.message));
      }
      qrcodeKey := Some(answer.qrcodeKey);
      return Success(QrCode(answer.url, answer.qrcodeKey));
    }

    /** `pollScanStatus` starts a fresh counter. */
    method StartPolling()
      modifies this
      ensures poll == Poll(0, Pending) && qrcodeKey == old(qrcodeKey)
    {
      poll := Poll(0, Pending);
    }

    /** A firing of the interval: the callback's work up to its `await`. */
    method OnInterval()
      modifies this
      ensures poll == Fire(old(poll)) && qrcodeKey == old(qrcodeKey)
    {
      if poll.status != Pending {
        return;
      }
      var attempts := poll.attempts + 1;
      if attempts > MaxAttempts {
        poll := Poll(attempts, Rejected(ExpiredByCounter));
      } else {
        poll := Poll(attempts, Pending);
      }
    }

    /** The rest of a callback, once its request's reply has arrived. */
    method OnReply(answer: PollAnswer)
      modifies this
      ensures poll == Reply(old(poll), answer) && qrcodeKey == old(qrcodeKey)
    {
      match answer {
        case RequestFailed =>
        case Answer(code, setCookie) =>
          if code == 0 {
            var cookie := ExtractCookies(setCookie);
            if poll.status == Pending {
              poll := Poll(poll.attempts, LoggedIn(cookie));
            }
          } else if code == 86038 {
            if poll.status == Pending {
              poll := Poll(poll.attempts, Rejected(ExpiredByServer));
            }
          }
      }
    }
  }

  // ------------------------------------------------------------ saving the cookie

  /** What `.` refuses to match: the ECMAScript line terminators. */
  predicate IsLineTerminator(c: char)
  {
    c == '\n' || c == '\r' || c == '\U{2028}' || c == '\U{2029}'
  }

  predicate IsQuote(c: char)
  {
    c == '\'' || c == '"'
  }

  /** Where a greedy `\s*` starting at `i` stops. */
  function SkipSpaces(t: string, i: nat): (j: nat)
    requires i <= |t|
    ensures i <= j <= |t|
    decreases |t| - i
  {
    if i < |t| && IsJsSpace(t[i]) then SkipSpaces(t, i + 1) else i
  }

  /**
    The lazy `.*?` followed by `['"]`, starting at `k`: the end just past the
    first quote, unless a line terminator or the end of the text comes first.
  */
  function CloseQuote(t: string, k: nat): (r: Option<nat>)
    requires k <= |t|
    ensures r.Some? ==> k < r.value <= |t| && IsQuote(t[r.value - 1])
    decreases |t| - k
  {
    if k == |t| then None
    else if IsQuote(t[k]) then Some(k + 1)
    else if IsLineTerminator(t[k]) then None
    else CloseQuote(t, k + 1)
  }

  /** `/cookie:\s*['"].*?['"]/` tried at `p`: the end of the match, if there is one. */
  function CookieAt(t: string, p: nat): (r: Option<nat>)
    requires p <= |t|
    ensures r.Some? ==> p + 9 <= r.value <= |t| && t[p..p + 7] == "cookie:"
  {
    if p + 7 <= |t| && t[p..p + 7] == "cookie:" then
      var j := SkipSpaces(t, p + 7);
      if j < |t| && IsQuote(t[j]) then CloseQuote(t, j + 1) else None
    else None
  }

  /** `/bilibili:\s*{/` tried at `p`. */
  function BlockAt(t: string, p: nat): (r: Option<nat>)
    requires p <= |t|
    ensures r.Some? ==> p + 10 <= r.value <= |t| && t[p..p + 9] == "bilibili:" && t[r.value - 1] == '{'
  {
    if p + 9 <= |t| && t[p..p + 9] == "bilibili:" then
      var j := SkipSpaces(t, p + 9);
      if j < |t| && t[j] == '{' then Some(j + 1) else None
    else None
  }

  /** The leftmost cookie match at or after `p`, as (start, end). */
  function FirstCookie(t: string, p: nat): (r: Option<(nat, nat)>)
    requires p <= |t|
    ensures r.Some? ==> p <= r.value.0 <= |t| && CookieAt(t, r.value.0) == Some(r.value.1)
    decreases |t| - p
  {
    match CookieAt(t, p)
    case Some(e) => Some((p, e))
    case None => if p == |t| then None else FirstCookie(t, p + 1)
  }

  /** The leftmost `bilibili:` block opening at or after `p`. */
  function FirstBlock(t: string, p: nat): (r: Option<(nat, nat)>)
    requires p <= |t|
    ensures r.Some? ==> p <= r.value.0 <= |t| && BlockAt(t, r.value.0) == Some(r.value.1)
    decreases |t| - p
  {
    match BlockAt(t, p)
    case Some(e) => Some((p, e))
    case None => if p == |t| then None else FirstBlock(t, p + 1)
  }

  /**
    The replacement string of `String.prototype.replace` with its `$`
    patterns expanded: `$$`, `$&`, `` $` `` and `$'`; the regexes have no
    groups, so every other `$` stays as it is.
  */
  function Expand(rep: string, matched: string, before: string, after: string): string
  {
    if rep == [] then ""
    else if rep[0] == '$' && |rep| >= 2 && rep[1] in "$&`'" then
      (if rep[1] == '$' then "$" else if rep[1] == '&' then matched else if rep[1] == '`' then before else after)
      + Expand(rep[2..], matched, before, after)
    else [rep[0]] + Expand(rep[1..], matched, before, after)
  }

  /** A replacement without `$` is inserted literally. */
  lemma {:induction false} ExpandPlain(rep: string, matched: string, before: string, after: string)
    requires '$' !in rep
    ensures Expand(rep, matched, before, after) == rep
  {
    if rep != [] {
      assert rep[1..] + [] == rep[1..];
      assert '$' !in rep[1..] by {
        forall i | 0 <= i < |rep[1..]| ensures rep[1..][i] != '$' {
          assert rep[1..][i] == rep[i + 1];
        }
      }
      ExpandPlain(rep[1..], matched, before, after);
    }
  }

  /** `replace` with a non-global regex whose first match is `t[s..e]`. */
  function ReplaceAt(t: string, s: nat, e: nat, rep: string): string
    requires s <= e <= |t|
  {
    t[..s] + Expand(rep, t[s..e], t[..s], t[e..]) + t[e..]
  }

  function CookieField(cookie: string): string
  {
    "cookie: '" + cookie + "'"
  }

  function CookieBlock(cookie: string): string
  {
    "bilibili: {\n    cookie: '" + cookie + "',"
  }

  /**
    The rewritten configuration text: the first cookie field is replaced;
    without one, a field is added at the opening of the first `bilibili`
    block; without either the text is written back unchanged.
  */
  function WithCookie(t: string, cookie: string): string
  {
    match FirstCookie(t, 0)
    case Some((s, e)) => ReplaceAt(t, s, e, CookieField(cookie))
    case None =>
      match FirstBlock(t, 0)
      case Some((s, e)) => ReplaceAt(t, s, e, CookieBlock(cookie))
      case None => t
  }

  /** What the file holds after the call, and whether the call reports success. */
  datatype Saved = Saved(ok: bool, file: Option<string>)

  /**
    `saveCookieToConfig`: `source` is the file's text, `None` when it cannot
    be read; `writable` says whether the write succeeds. Either failure is
    caught and reported as `false`, leaving the file as it was.
  */
  function SaveCookie(source: Option<string>, cookie: string, writable: bool): (r: Saved)
    ensures r.ok <==> source.Some? && writable
    ensures r.ok ==> r.file == Some(WithCookie(source.value, cookie))
    ensures !r.ok ==> r.file == source
  {
    if source.None? || !writable then Saved(false, source)
    else Saved(true, Some(WithCookie(source.value, cookie)))
  }

  /** A cookie that can sit between single quotes on one line and contains no `$` pattern. */
  predicate Clean(cookie: string)
  {
    forall i :: 0 <= i < |cookie| ==> !IsQuote(cookie[i]) && !IsLineTerminator(cookie[i]) && cookie[i] != '$'
  }

  lemma CleanFieldsArePlain(cookie: string)
    requires Clean(cookie)
    ensures '$' !in CookieField(cookie) && '$' !in CookieBlock(cookie)
  {
  }

  /** An existing cookie field is overwritten in place, quotes and all. */
  lemma SaveReplacesField(t: string, cookie: string, s: nat, e: nat)
    requires Clean(cookie) && FirstCookie(t, 0) == Some((s, e))
    ensures WithCookie(t, cookie) == t[..s] + CookieField(cookie) + t[e..]
  {
    CleanFieldsArePlain(cookie);
    ExpandPlain(CookieField(cookie), t[s..e], t[..s], t[e..]);
  }

  /** Without a cookie field, one is added right after the opening of the `bilibili` block. */
  lemma SaveInsertsField(t: string, cookie: string, s: nat, e: nat)
    requires Clean(cookie) && FirstCookie(t, 0).None? && FirstBlock(t, 0) == Some((s, e))
    ensures WithCookie(t, cookie) == t[..s] + CookieBlock(cookie) + t[e..]
  {
    CleanFieldsArePlain(cookie);
    ExpandPlain(CookieBlock(cookie), t[s..e], t[..s], t[e..]);
  }

  // ------------------------------------------------------------ a second save

  /** Characters that neither close the lazy scan nor stop it do not change its outcome. */
  lemma {:induction false} CloseQuoteSkips(t: string, k: nat, m: nat)
    requires k <= m <= |t|
    requires forall i :: k <= i < m ==> !IsQuote(t[i]) && !IsLineTerminator(t[i])
    ensures CloseQuote(t, k) == CloseQuote(t, m)
    decreases m - k
  {
    if k < m {
      CloseQuoteSkips(t, k + 1, m);
    }
  }

  /** The text written by an insertion, around the block opening at `s..e`. */
  function Inserted(t: string, s: nat, e: nat, cookie: string): string
    requires s <= e <= |t|
  {
    t[..s] + CookieBlock(cookie) + t[e..]
  }

  /** A scan that fails in the old text before the block also fails in the new one, on the inserted line break at the latest. */
  lemma {:induction false} ScanStopsAtInsertion(t: string, s: nat, e: nat, cookie: string, k: nat)
    requires s <= e <= |t| && k <= s
    requires CloseQuote(t, k).None?
    ensures CloseQuote(Inserted(t, s, e, cookie), k).None?
    decreases s - k
  {
    var u := Inserted(t, s, e, cookie);
    if k < s {
      assert u[k] == t[k];
      if !IsQuote(t[k]) && !IsLineTerminator(t[k]) {
        ScanStopsAtInsertion(t, s, e, cookie, k + 1);
      }
    } else {
      assert u[s..s + 12] == "bilibili: {\n";
      assert forall i :: s <= i < s + 11 ==> u[i] == u[s..s + 12][i - s];
      CloseQuoteSkips(u, s, s + 11);
      assert u[s + 11] == '\n';
    }
  }

  /** Before the block, the spaces run the same way in both texts: both stop on a `b` at the latest. */
  lemma {:induction false} SpacesBeforeInsertion(t: string, s: nat, e: nat, cookie: string, i: nat)
    requires s <= e <= |t| && i <= s && BlockAt(t, s).Some?
    ensures SkipSpaces(Inserted(t, s, e, cookie), i) == SkipSpaces(t, i) <= s
    decreases s - i
  {
    var u := Inserted(t, s, e, cookie);
    if i < s {
      assert u[i] == t[i];
      SpacesBeforeInsertion(t, s, e, cookie, i + 1);
    } else {
      assert t[s..s + 9][0] == 'b';
      assert u[s] == 'b';
    }
  }

  lemma KeyHasNoB(u: string, p: nat)
    requires p + 7 <= |u| && u[p..p + 7] == "cookie:"
    ensures forall i :: p <= i < p + 7 ==> u[i] != 'b'
  {
    forall i | p <= i < p + 7
      ensures u[i] != 'b'
    {
      assert u[i] == u[p..p + 7][i - p];
    }
  }

  /** No cookie match starts before the inserted field when the old text had none. */
  lemma NoFieldBeforeInsertion(t: string, s: nat, e: nat, cookie: string, p: nat)
    requires s <= e <= |t| && BlockAt(t, s).Some?
    requires p <= s && CookieAt(t, p).None?
    ensures CookieAt(Inserted(t, s, e, cookie), p).None?
  {
    var u := Inserted(t, s, e, cookie);
    if p + 7 <= |u| && u[p..p + 7] == "cookie:" {
      KeyBeforeBlock(t, s, e, cookie, p);
      ScanBeforeBlock(t, s, e, cookie, p);
    }
  }

  /** A `cookie:` key in the new text before the block lies wholly in the old text. */
  lemma KeyBeforeBlock(t: string, s: nat, e: nat, cookie: string, p: nat)
    requires s <= e <= |t| && BlockAt(t, s).Some? && p <= s
    requires p + 7 <= |Inserted(t, s, e, cookie)| && Inserted(t, s, e, cookie)[p..p + 7] == "cookie:"
    ensures p + 7 <= s && t[p..p + 7] == "cookie:"
  {
    var u := Inserted(t, s, e, cookie);
    InsertedHead(t, s, e, cookie);
    assert u[s] == u[s..s + 16][0];
    KeyHasNoB(u, p);
    assert t[p..p + 7] == u[p..p + 7];
  }

  /** After a key before the block, the new text's quote scan fails as the old one did. */
  lemma ScanBeforeBlock(t: string, s: nat, e: nat, cookie: string, p: nat)
    requires s <= e <= |t| && BlockAt(t, s).Some?
    requires p + 7 <= s && t[p..p + 7] == "cookie:" && CookieAt(t, p).None?
    ensures CookieAt(Inserted(t, s, e, cookie), p).None?
  {
    var u := Inserted(t, s, e, cookie);
    InsertedHead(t, s, e, cookie);
    assert u[s] == u[s..s + 16][0];
    assert u[p..p + 7] == t[p..p + 7];
    SpacesBeforeInsertion(t, s, e, cookie, p + 7);
    var j := SkipSpaces(t, p + 7);
    if j < s {
      assert u[j] == t[j];
      if IsQuote(t[j]) {
        ScanStopsAtInsertion(t, s, e, cookie, j + 1);
      }
    }
  }

  /** Inside the inserted `bilibili: {` and indentation no match can start. */
  lemma NoFieldInIndent(t: string, s: nat, e: nat, cookie: string, p: nat)
    requires s <= e <= |t| && s < p < s + 16
    ensures CookieAt(Inserted(t, s, e, cookie), p).None?
  {
    var u := Inserted(t, s, e, cookie);
    InsertedHead(t, s, e, cookie);
    assert u[p] == u[s..s + 16][p - s];
    if p + 7 <= |u| {
      assert u[p..p + 7][0] != 'c';
    }
  }

  lemma InsertedHead(t: string, s: nat, e: nat, cookie: string)
    requires s <= e <= |t|
    ensures |Inserted(t, s, e, cookie)| >= s + 16 && Inserted(t, s, e, cookie)[s..s + 16] == "bilibili: {\n    "
  {
    var u := Inserted(t, s, e, cookie);
    var head := "bilibili: {\n    ";
    var rest := CookieField(cookie) + "," + t[e..];
    assert u == t[..s] + (head + rest);
    assert |t[..s]| == s && |head| == 16;
    assert (t[..s] + (head + rest))[s..s + 16] == head;
  }

  /** The inserted field is itself a match, ending past the closing quote. */
  lemma InsertedFieldMatches(t: string, s: nat, e: nat, cookie: string)
    requires s <= e <= |t| && Clean(cookie)
    ensures CookieAt(Inserted(t, s, e, cookie), s + 16) == Some(s + 26 + |cookie|)
  {
    var u := Inserted(t, s, e, cookie);
    var q := s + 25;
    assert u[s + 16..q] == "cookie: '";
    assert u[s + 16..s + 23] == "cookie:";
    assert u[s + 23] == ' ' && u[s + 24] == '\'';
    assert SkipSpaces(u, s + 23) == s + 24;
    assert forall i :: q <= i < q + |cookie| ==> u[i] == cookie[i - q];
    CloseQuoteSkips(u, q, q + |cookie|);
    assert u[q + |cookie|] == '\'';
  }

  /** The search passes over positions where nothing matches. */
  lemma {:induction false} FirstCookieSkips(t: string, p: nat, m: nat)
    requires p <= m <= |t|
    requires forall q :: p <= q < m ==> CookieAt(t, q).None?
    ensures FirstCookie(t, p) == FirstCookie(t, m)
    decreases m - p
  {
    if p < m {
      FirstCookieSkips(t, p + 1, m);
    }
  }

  lemma {:induction false} FirstCookieNone(t: string, p: nat, q: nat)
    requires p <= q <= |t| && FirstCookie(t, p).None?
    ensures CookieAt(t, q).None?
    decreases q - p
  {
    if p < q {
      FirstCookieNone(t, p + 1, q);
    }
  }

  /** In the text an insertion wrote, the leftmost cookie match is the inserted field. */
  lemma InsertedFieldIsFirst(t: string, s: nat, e: nat, cookie: string)
    requires Clean(cookie) && FirstCookie(t, 0).None? && FirstBlock(t, 0) == Some((s, e))
    ensures FirstCookie(Inserted(t, s, e, cookie), 0) == Some((s + 16, s + 26 + |cookie|))
  {
    var u := Inserted(t, s, e, cookie);
    forall p | 0 <= p < s + 16
      ensures CookieAt(u, p).None?
    {
      if p <= s {
        FirstCookieNone(t, 0, p);
        NoFieldBeforeInsertion(t, s, e, cookie, p);
      } else {
        NoFieldInIndent(t, s, e, cookie, p);
      }
    }
    FirstCookieSkips(u, 0, s + 16);
    InsertedFieldMatches(t, s, e, cookie);
  }

  /** Overwriting the inserted field gives the text a direct insertion would have given. */
  lemma OverwriteInserted(t: string, s: nat, e: nat, first: string, second: string)
    requires s <= e <= |t|
    ensures var u := Inserted(t, s, e, first);
            var end := s + 26 + |first|;
            end <= |u| && u[..s + 16] + CookieField(second) + u[end..] == Inserted(t, s, e, second)
  {
    var u := Inserted(t, s, e, first);
    var end := s + 26 + |first|;
    assert u[..s + 16] == t[..s] + "bilibili: {\n    ";
    assert u[end..] == "," + t[e..];
  }

  lemma ReplaceInserted(t: string, s: nat, e: nat, first: string, second: string)
    requires s <= e <= |t| && Clean(second)
    requires FirstCookie(Inserted(t, s, e, first), 0) == Some((s + 16, s + 26 + |first|))
    ensures WithCookie(Inserted(t, s, e, first), second) == Inserted(t, s, e, second)
  {
    SaveReplacesField(Inserted(t, s, e, first), second, s + 16, s + 26 + |first|);
    OverwriteInserted(t, s, e, first, second);
  }

  /**
    Once a save has added the cookie field to the `bilibili` block, the next
    save finds that very field and overwrites it: saving `first` and then
    `second` leaves the file as saving `second` alone would have.
  */
  lemma SecondSaveOverwritesInsertion(t: string, first: string, second: string)
    requires Clean(first) && Clean(second)
    requires FirstCookie(t, 0).None? && FirstBlock(t, 0).Some?
    ensures WithCookie(WithCookie(t, first), second) == WithCookie(t, second)
  {
    var s := FirstBlock(t, 0).value.0;
    var e := FirstBlock(t, 0).value.1;
    SaveInsertsField(t, first, s, e);
    SaveInsertsField(t, second, s, e);
    InsertedFieldIsFirst(t, s, e, first);
    ReplaceInserted(t, s, e, first, second);
  }
}
