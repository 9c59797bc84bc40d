/**
  `parseRichText`: a post's rich-text nodes rendered to HTML, or its raw text
  escaped when there are no nodes.
*/
module RichText {
  import opened Wrappers
  import opened Text
  import opened Js
  import opened Formatters
  import opened BiliData

  /** The escaping of plain text: the entity chain, then every line feed becomes `<br>`. */
  function EscapeText(s: string): string
  {
    ReplaceAll(EscapeChain(s), '\n', "<br>")
  }

  /** Reference definition: each character escaped on its own, a line feed as `<br>`. */
  function EscapeTextChar(c: char): string
  {
    if c == '\n' then "<br>" else EscapeChar(c)
  }

  function EscapeTextEach(s: string): string
  {
    if s == [] then "" else EscapeTextChar(s[0]) + EscapeTextEach(s[1..])
  }

  lemma {:induction false} EscapeTextIsEach(s: string)
    ensures EscapeText(s) == EscapeTextEach(s)
  {
    EscapeChainIsEach(s);
    EscapeEachBr(s);
  }

  lemma {:induction false} EscapeEachBr(s: string)
    ensures ReplaceAll(EscapeEach(s), '\n', "<br>") == EscapeTextEach(s)
  {
    if s != [] {
      ReplaceAllAppend(EscapeChar(s[0]), EscapeEach(s[1..]), '\n', "<br>");
      EscapeEachBr(s[1..]);
      if s[0] == '\n' {
        ReplaceAllOne('\n', '\n', "<br>");
      } else {
        ReplaceAllAbsent(EscapeChar(s[0]), '\n', "<br>");
      }
    }
  }

  /** Characters that may not appear raw in escaped text. */
  predicate Raw(c: char) { c == '<' || c == '>' || c == '"' || c == '\'' || c == '\n' }

  /**
    Escaped text: a sequence of `<br>` tokens and characters that are not
    markup, quotes or line feeds.
  */
  predicate BrText(t: string)
    decreases |t|
  {
    t == []
    || (StartsWith(t, "<br>") && BrText(t[4..]))
    || (!Raw(t[0]) && BrText(t[1..]))
  }

  lemma {:induction false} BrTextPlain(x: string, rest: string)
    requires forall i :: 0 <= i < |x| ==> !Raw(x[i])
    requires BrText(rest)
    ensures BrText(x + rest)
  {
    if x != [] {
      BrTextPlain(x[1..], rest);
      var t := x + rest;
      assert t[0] == x[0];
      assert !Raw(x[0]);
      assert t[1..] == x[1..] + rest;
      assert BrText(t[1..]);
    } else {
      assert x + rest == rest;
    }
  }

  lemma BrTextStep(c: char, rest: string)
    requires BrText(rest)
    ensures BrText(EscapeTextChar(c) + rest)
  {
    var t := EscapeTextChar(c) + rest;
    if c == '\n' {
      assert t[..4] == "<br>" && t[4..] == rest;
    } else {
      BrTextPlain(EscapeChar(c), rest);
    }
  }

  lemma {:induction false} EscapeTextEachBrText(s: string)
    ensures BrText(EscapeTextEach(s))
  {
    if s != [] {
      EscapeTextEachBrText(s[1..]);
      BrTextStep(s[0], EscapeTextEach(s[1..]));
    }
  }

  /**
    Escaped text holds no raw line feed, quote or angle bracket: every `<`
    and `>` belongs to an inserted `<br>`.
  */
  lemma EscapeTextSafe(s: string)
    ensures BrText(EscapeText(s))
  {
    EscapeTextIsEach(s);
    EscapeTextEachBrText(s);
  }

  /** Turns every `<br>` back into a line feed. */
  function UnBreak(t: string): string
    decreases |t|
  {
    if t == [] then ""
    else if StartsWith(t, "<br>") then "\n" + UnBreak(t[4..])
    else [t[0]] + UnBreak(t[1..])
  }

  lemma {:induction false} UnBreakPlain(x: string, rest: string)
    requires forall i :: 0 <= i < |x| ==> x[i] != '<'
    ensures UnBreak(x + rest) == x + UnBreak(rest)
  {
    if x != [] {
      var tail := x[1..] + rest;
      assert x + rest == [x[0]] + tail;
      UnBreakCons(x[0], tail);
      UnBreakPlain(x[1..], rest);
      assert [x[0]] + (x[1..] + UnBreak(rest)) == x + UnBreak(rest);
    } else {
      assert x + rest == rest;
    }
  }

  lemma UnBreakCons(c: char, u: string)
    requires c != '<'
    ensures UnBreak([c] + u) == [c] + UnBreak(u)
  {
    var t := [c] + u;
    assert t[1..] == u;
    assert !StartsWith(t, "<br>") by {
      if |t| >= 4 { assert t[..4][0] == c; }
    }
  }

  lemma {:induction false} UnBreakEach(s: string)
    ensures UnBreak(EscapeTextEach(s)) == EscapeEach(s)
  {
    if s != [] {
      UnBreakEach(s[1..]);
      var rest := EscapeTextEach(s[1..]);
      if s[0] == '\n' {
        var t := "<br>" + rest;
        assert t[..4] == "<br>" && t[4..] == rest;
      } else {
        UnBreakPlain(EscapeChar(s[0]), rest);
      }
    }
  }

  /** Turning `<br>` back into line feeds and decoding the entities recovers the text. */
  lemma EscapeTextRoundTrip(s: string)
    ensures UnescapeHtml(UnBreak(EscapeText(s))) == s
  {
    EscapeTextIsEach(s);
    UnBreakEach(s);
    UnescapeEach(s);
  }

  /** The opening tag of a node kind rendered as a span, if it is one. */
  function SpanOpen(kind: string): Option<string>
  {
    if kind == "RICH_TEXT_NODE_TYPE_AT" then Some("<span class=\"at-user\">")
    else if kind == "RICH_TEXT_NODE_TYPE_TOPIC" then Some("<span class=\"topic-tag\">")
    else if kind == "RICH_TEXT_NODE_TYPE_VOTE" then Some("<span class=\"vote-inline\">")
    else if kind == "RICH_TEXT_NODE_TYPE_URL" || kind == "RICH_TEXT_NODE_TYPE_BV" then
      Some("<span style=\"color: var(--color-secondary); text-decoration: none; cursor: pointer;\">")
    else None
  }

  /** The HTML of one node. */
  function NodeHtml(n: RichNode): (r: string)
    ensures n.kind == "RICH_TEXT_NODE_TYPE_EMOJI" && !Present(n.emojiIcon) ==> r == n.text
    ensures n.kind == "RICH_TEXT_NODE_TYPE_EMOJI" && Present(n.emojiIcon) ==>
              r == "<img class=\"emoji\" src=\"" + n.emojiIcon.value + "\" alt=\"" + n.text + "\" />"
    ensures n.kind != "RICH_TEXT_NODE_TYPE_EMOJI" && SpanOpen(n.kind).Some? ==>
              r == SpanOpen(n.kind).value + n.text + "</span>"
    ensures n.kind != "RICH_TEXT_NODE_TYPE_EMOJI" && SpanOpen(n.kind).None? ==>
              BrText(r) && UnescapeHtml(UnBreak(r)) == n.text
  {
    if n.kind == "RICH_TEXT_NODE_TYPE_EMOJI" then
      if Present(n.emojiIcon) then "<img class=\"emoji\" src=\"" + n.emojiIcon.value + "\" alt=\"" + n.text + "\" />"
      else n.text
    else if SpanOpen(n.kind).Some? then SpanOpen(n.kind).value + n.text + "</span>"
    else
      EscapeTextSafe(n.text);
      EscapeTextRoundTrip(n.text);
      EscapeText(n.text)
  }

  /** The nodes' HTML in order, joined without separator. */
  function NodesHtml(nodes: seq<RichNode>): string
  {
    if nodes == [] then "" else NodeHtml(nodes[0]) + NodesHtml(nodes[1..])
  }

  /** `parseRichText(nodes, rawText)`. */
  function ParseRichText(nodes: Option<seq<RichNode>>, rawText: Option<string>): (r: string)
    ensures nodes.Some? && |nodes.value| > 0 ==> r == NodesHtml(nodes.value)
    ensures nodes.None? || nodes.value == [] ==>
              BrText(r) && UnescapeHtml(UnBreak(r)) == rawText.GetOr("")
  {
    if nodes.Some? && |nodes.value| > 0 then NodesHtml(nodes.value)
    else
      EscapeTextSafe(rawText.GetOr(""));
      EscapeTextRoundTrip(rawText.GetOr(""));
      EscapeText(rawText.GetOr(""))
  }

  /** The node rendering is compositional: splitting the node list splits the HTML. */
  lemma {:induction false} NodesHtmlAppend(a: seq<RichNode>, b: seq<RichNode>)
    ensures NodesHtml(a + b) == NodesHtml(a) + NodesHtml(b)
  {
    if a != [] {
      assert (a + b)[1..] == a[1..] + b;
      NodesHtmlAppend(a[1..], b);
    } else {
      assert a + b == b;
    }
  }
}
