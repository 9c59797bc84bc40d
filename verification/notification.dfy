/**
  The shared message sending service: text cleaning, the rewrite of a
  message chain before it is sent, and the sends over the bot's socket.
*/
module Notification {
  import opened Wrappers
  import opened Text
  import opened Js

  // ------------------------------------------------------------ cleanText

  /** Zero-width space, non-joiner, joiner, and the byte order mark. */
  predicate ZeroWidth(c: char) { '\U{200B}' <= c <= '\U{200D}' || c == '\U{FEFF}' }

  /** C0 control characters other than tab, line feed and carriage return. */
  predicate Control(c: char) { c <= '\U{0008}' || '\U{000B}' <= c <= '\U{000C}' || '\U{000E}' <= c <= '\U{001F}' }

  /** The replacement character. */
  predicate Replacement(c: char) { c == '\U{FFFD}' }

  /** Every character `cleanText` removes. */
  predicate Stripped(c: char) { ZeroWidth(c) || Control(c) || Replacement(c) }

  /** One `.replace(/[…]/g, '')` pass: the characters of a class deleted. */
  function RemoveWhere(s: string, p: char -> bool): (r: string)
    ensures |r| <= |s|
    ensures forall i :: 0 <= i < |r| ==> !p(r[i])
  {
    if s == [] then ""
    else if p(s[0]) then RemoveWhere(s[1..], p)
    else [s[0]] + RemoveWhere(s[1..], p)
  }

  /** `cleanText` on a string: the three passes in the order written. */
  function CleanText(s: string): (r: string)
    ensures |r| <= |s|
    ensures forall i :: 0 <= i < |r| ==> !Stripped(r[i])
  {
    var r := RemoveWhere(RemoveWhere(RemoveWhere(s, ZeroWidth), Control), Replacement);
    CleanTextIsFilter(s);
    r
  }

  lemma {:induction false} RemoveWhereAppend(a: string, b: string, p: char -> bool)
    ensures RemoveWhere(a + b, p) == RemoveWhere(a, p) + RemoveWhere(b, p)
  {
    if a == [] {
      assert a + b == b;
    } else {
      assert (a + b)[0] == a[0] && (a + b)[1..] == a[1..] + b;
      RemoveWhereAppend(a[1..], b, p);
    }
  }

  /** A pass over text without its class changes nothing. */
  lemma {:induction false} RemoveWhereNone(s: string, p: char -> bool)
    requires forall i :: 0 <= i < |s| ==> !p(s[i])
    ensures RemoveWhere(s, p) == s
  {
    if s != [] {
      RemoveWhereNone(s[1..], p);
    }
  }

  /** Two passes are one pass over the union of their classes. */
  lemma {:induction false} RemoveWhereTwice(s: string, p: char -> bool, q: char -> bool, pq: char -> bool)
    requires forall c :: pq(c) == (p(c) || q(c))
    ensures RemoveWhere(RemoveWhere(s, p), q) == RemoveWhere(s, pq)
  {
    if s != [] {
      RemoveWhereTwice(s[1..], p, q, pq);
      if !p(s[0]) {
        assert RemoveWhere(s, p) == [s[0]] + RemoveWhere(s[1..], p);
        var t := RemoveWhere(s, p);
        assert t[0] == s[0] && t[1..] == RemoveWhere(s[1..], p);
      }
    }
  }

  /** The three passes delete exactly the stripped characters, in one filter. */
  lemma CleanTextIsFilter(s: string)
    ensures RemoveWhere(RemoveWhere(RemoveWhere(s, ZeroWidth), Control), Replacement) == RemoveWhere(s, Stripped)
  {
    var zc := (c: char) => ZeroWidth(c) || Control(c);
    RemoveWhereTwice(s, ZeroWidth, Control, zc);
    RemoveWhereTwice(s, zc, Replacement, Stripped);
  }

  /** Cleaning is idempotent. */
  lemma CleanTextIdempotent(s: string)
    ensures CleanText(CleanText(s)) == CleanText(s)
  {
    var r := CleanText(s);
    CleanTextIsFilter(r);
    RemoveWhereNone(r, Stripped);
  }

  /** Cleaning works character by character, so it keeps everything else in order. */
  lemma CleanTextAppend(a: string, b: string)
    ensures CleanText(a + b) == CleanText(a) + CleanText(b)
  {
    CleanTextIsFilter(a + b);
    CleanTextIsFilter(a);
    CleanTextIsFilter(b);
    RemoveWhereAppend(a, b, Stripped);
  }

  /** A character is kept exactly when it is not stripped. */
  lemma CleanTextChar(c: char)
    ensures CleanText([c]) == if Stripped(c) then "" else [c]
  {
    CleanTextIsFilter([c]);
    assert [c][1..] == "";
  }

  /** `cleanText(v)`: strings are cleaned, anything else is returned as it is. */
  function CleanValue(v: Value): (r: Value)
    ensures !v.Str? ==> r == v
    ensures v.Str? ==> r == Str(CleanText(v.s))
  {
    if v.Str? then Str(CleanText(v.s)) else v
  }

  // ------------------------------------------------------------ message chains

  /** One element of a message chain. */
  datatype Segment =
    | TextSeg(text: Value)
    | ImageSeg(file: Option<string>)
    | OtherSeg(kind: string, data: map<string, Value>)

  /** A message: a chain of segments, or a single non-array value. */
  datatype Message = Chain(items: seq<Segment>) | Plain(value: Value)

  /** An element is an image or a text element only through its own constructor. */
  predicate WellFormedSegment(item: Segment)
  {
    item.OtherSeg? ==> item.kind != "image" && item.kind != "text"
  }

  /**
    The encodings these datatypes are meant for: an array is always a
    `Chain` (never a `Plain` list), and its elements are well formed.
  */
  predicate WellFormedMessage(m: Message)
  {
    match m
    case Chain(items) => forall i :: 0 <= i < |items| ==> WellFormedSegment(items[i])
    case Plain(v) => !v.List?
  }

  const Base64Prefix: string := "base64://"

  /** An image whose file is inline base64 data. */
  predicate IsBase64Image(item: Segment)
  {
    item.ImageSeg? && Present(item.file) && StartsWith(item.file.value, Base64Prefix)
  }

  /**
    One element of `processMessageChain`. `save` writes the image data to a
    temporary file and gives the path NapCat reads it from (`None` when the
    write throws, which aborts the whole chain).
  */
  function ProcessItem(item: Segment, useBase64Send: bool, save: string -> Option<string>): (r: Option<Segment>)
    ensures IsBase64Image(item) && !useBase64Send ==>
              r == (var path := save(item.file.value[|Base64Prefix|..]);
                    if path.Some? then Some(ImageSeg(Some("file://" + path.value))) else None)
    ensures IsBase64Image(item) && useBase64Send ==> r == Some(item)
    ensures item.TextSeg? && Truthy(item.text) ==> r == Some(TextSeg(CleanValue(item.text)))
    ensures !IsBase64Image(item) && !(item.TextSeg? && Truthy(item.text)) ==> r == Some(item)
  {
    if IsBase64Image(item) then
      if useBase64Send then Some(item)
      else
        match save(item.file.value[|Base64Prefix|..])
        case Some(path) => Some(ImageSeg(Some("file://" + path)))
        case None => None
    else if item.TextSeg? && Truthy(item.text) then Some(TextSeg(CleanValue(item.text)))
    else Some(item)
  }

  /** `message.map(...)`: element by element, aborted by the first failing image write. */
  function ProcessAll(items: seq<Segment>, useBase64Send: bool, save: string -> Option<string>): (r: Option<seq<Segment>>)
    ensures r.None? <==> exists i :: 0 <= i < |items| && ProcessItem(items[i], useBase64Send, save).None?
    ensures r.Some? ==> |r.value| == |items|
                        && forall i :: 0 <= i < |items| ==> Some(r.value[i]) == ProcessItem(items[i], useBase64Send, save)
  {
    if items == [] then Some([])
    else
      match ProcessItem(items[0], useBase64Send, save)
      case None => None
      case Some(first) =>
        match ProcessAll(items[1..], useBase64Send, save)
        case None =>
          assert forall i :: 0 <= i < |items| - 1 ==> items[1..][i] == items[i + 1];
          None
        case Some(rest) =>
          assert forall i :: 0 <= i < |items| - 1 ==> items[1..][i] == items[i + 1];
          Some([first] + rest)
  }

  /** `processMessageChain(message)`; `None` when it throws. */
  function ProcessChain(message: Message, useBase64Send: bool, save: string -> Option<string>): (r: Option<seq<Segment>>)
    ensures message.Plain? ==> r == Some([TextSeg(CleanValue(message.value))])
    ensures message.Chain? ==> r == ProcessAll(message.items, useBase64Send, save)
  {
    match message
    case Chain(items) => ProcessAll(items, useBase64Send, save)
    case Plain(v) => Some([TextSeg(CleanValue(v))])
  }

  /** Processing a well-formed message gives a well-formed chain of the same length, or of one text element. */
  lemma ProcessChainWellFormed(message: Message, useBase64Send: bool, save: string -> Option<string>)
    requires WellFormedMessage(message)
    ensures var r := ProcessChain(message, useBase64Send, save);
            r.Some? ==> WellFormedMessage(Chain(r.value))
                        && |r.value| == (if message.Chain? then |message.items| else 1)
  {
  }

  /** A rewritten image points at a file, never at inline data. */
  lemma ProcessItemNoBase64(item: Segment, save: string -> Option<string>)
    requires ProcessItem(item, false, save).Some?
    ensures !IsBase64Image(ProcessItem(item, false, save).value)
  {
    if IsBase64Image(item) {
      var f := ProcessItem(item, false, save).value.file.value;
      assert f[0] == 'f' && Base64Prefix[0] == 'b';
    }
  }

  /** Unless base64 sending is on, no inline image is left in a processed chain. */
  lemma NoBase64Left(message: Message, save: string -> Option<string>)
    requires ProcessChain(message, false, save).Some?
    ensures forall seg :: seg in ProcessChain(message, false, save).value ==> !IsBase64Image(seg)
  {
    var r := ProcessChain(message, false, save).value;
    forall seg | seg in r ensures !IsBase64Image(seg) {
      var i :| 0 <= i < |r| && r[i] == seg;
      if message.Chain? {
        ProcessItemNoBase64(message.items[i], save);
      }
    }
  }

  /** With base64 sending on, nothing can fail and images pass through unchanged. */
  lemma Base64SendKeepsImages(items: seq<Segment>, save: string -> Option<string>)
    ensures ProcessAll(items, true, save).Some?
    ensures forall i :: 0 <= i < |items| && items[i].ImageSeg? ==> ProcessAll(items, true, save).value[i] == items[i]
  {
  }

  // ------------------------------------------------------------ sending

  /** `send_group_msg` with its group and chain. */
  datatype Payload = Payload(groupId: Value, chain: seq<Segment>)

  const FallbackText: string := "消息发送失败，请查看日志"

  /**
    The bot's WebSocket: what it has accepted so far. While `failing`, `send`
    throws and nothing is accepted.
  */
  class Socket {
    var outbox: seq<Payload>
    var failing: bool

    constructor (failing: bool)
      ensures this.outbox == [] && this.failing == failing
    {
      outbox := [];
      this.failing := failing;
    }

    method Send(p: Payload) returns (ok: bool)
      modifies this`outbox
      ensures ok == !failing
      ensures outbox == if ok then old(outbox) + [p] else old(outbox)
    {
      ok := !failing;
      if ok {
        outbox := outbox + [p];
      }
    }
  }

  /** What one `sendGroupMessage` call adds to a socket's outbox. */
  function Delivered(g: Value, message: Message, useBase64Send: bool, save: string -> Option<string>,
                     failing: bool, enableFallback: bool): (r: seq<Payload>)
    ensures failing ==> r == []
    ensures !failing && ProcessChain(message, useBase64Send, save).Some? ==>
              r == [Payload(g, ProcessChain(message, useBase64Send, save).value)]
    ensures !failing && ProcessChain(message, useBase64Send, save).None? ==>
              r == (if enableFallback then [Payload(g, [TextSeg(Str(FallbackText))])] else [])
  {
    if failing then []
    else
      match ProcessChain(message, useBase64Send, save)
      case Some(chain) => [Payload(g, chain)]
      case None => if enableFallback then [Payload(g, [TextSeg(Str(FallbackText))])] else []
  }

  /** The fallback notice goes out only for a chain that failed, and only when enabled. */
  lemma FallbackOnlyOnFailure(g: Value, message: Message, useBase64Send: bool, save: string -> Option<string>,
                              failing: bool, enableFallback: bool)
    requires ProcessChain(message, useBase64Send, save).Some? ==>
               ProcessChain(message, useBase64Send, save).value != [TextSeg(Str(FallbackText))]
    ensures Payload(g, [TextSeg(Str(FallbackText))]) in Delivered(g, message, useBase64Send, save, failing, enableFallback)
            <==> !failing && enableFallback && ProcessChain(message, useBase64Send, save).None?
  {
  }

  /** `sendGroupMessage(ws, groupId, message, prefix, enableFallback)`. */
  method SendGroupMessage(ws: Socket?, g: Value, message: Message, useBase64Send: bool,
                          save: string -> Option<string>, enableFallback: bool)
    modifies ws
    ensures ws != null ==> ws.failing == old(ws.failing)
    ensures ws != null ==>
              ws.outbox == old(ws.outbox) + Delivered(g, message, useBase64Send, save, ws.failing, enableFallback)
  {
    if ws == null {
      return;
    }
    var chain := ProcessChain(message, useBase64Send, save);
    var sent := false;
    if chain.Some? {
      sent := ws.Send(Payload(g, chain.value));
    }
    if !sent && enableFallback {
      var _ := ws.Send(Payload(g, [TextSeg(Str(FallbackText))]));
    }
  }

  /** The sends of `notifyGroups` to the groups `gids`, in order, fallback disabled. */
  function Broadcast(gids: seq<Value>, message: Message, useBase64Send: bool,
                     save: string -> Option<string>, failing: bool): seq<Payload>
  {
    if gids == [] then []
    else Broadcast(gids[..|gids| - 1], message, useBase64Send, save, failing)
         + Delivered(gids[|gids| - 1], message, useBase64Send, save, failing, false)
  }

  /** A chain that can be processed goes to every group once, in the order given. */
  lemma {:induction false} BroadcastEachGroup(gids: seq<Value>, message: Message, useBase64Send: bool,
                                               save: string -> Option<string>)
    requires ProcessChain(message, useBase64Send, save).Some?
    ensures var chain := ProcessChain(message, useBase64Send, save).value;
            Broadcast(gids, message, useBase64Send, save, false) == seq(|gids|, i requires 0 <= i < |gids| => Payload(gids[i], chain))
  {
    if gids != [] {
      BroadcastEachGroup(gids[..|gids| - 1], message, useBase64Send, save);
    }
  }

  /** With the fallback disabled, a chain that fails sends nothing at all. */
  lemma {:induction false} BroadcastFailedSilent(gids: seq<Value>, message: Message, useBase64Send: bool,
                                                  save: string -> Option<string>, failing: bool)
    requires ProcessChain(message, useBase64Send, save).None? || failing
    ensures Broadcast(gids, message, useBase64Send, save, failing) == []
  {
    if gids != [] {
      BroadcastFailedSilent(gids[..|gids| - 1], message, useBase64Send, save, failing);
    }
  }

  /** `notifyGroups(ws, groupIds, message)`. */
  method NotifyGroups(ws: Socket?, groupIds: Value, message: Message, useBase64Send: bool,
                      save: string -> Option<string>)
    modifies ws
    ensures ws != null ==> ws.failing == old(ws.failing)
    ensures ws != null && !(groupIds.List? && |groupIds.items| > 0) ==> ws.outbox == old(ws.outbox)
    ensures ws != null && groupIds.List? ==>
              ws.outbox == old(ws.outbox) + Broadcast(groupIds.items, message, useBase64Send, save, ws.failing)
  {
    if ws == null {
      return;
    }
    if !groupIds.List? || |groupIds.items| == 0 {
      return;
    }
    var gids := groupIds.items;
    var i := 0;
    while i < |gids|
      invariant 0 <= i <= |gids|
      invariant ws.failing == old(ws.failing)
      invariant ws.outbox == old(ws.outbox) + Broadcast(gids[..i], message, useBase64Send, save, ws.failing)
    {
      SendGroupMessage(ws, gids[i], message, useBase64Send, save, false);
      assert gids[..i + 1][..i] == gids[..i];
      i := i + 1;
    }
    assert gids[..i] == gids;
  }
}
