/**
  The card formatters: HTML escaping, the "h:mm:ss" duration text, the
  万/亿 number abbreviation and the `#rrggbb` colour test.
*/
module Formatters {
  import opened Wrappers
  import opened Text
  import opened Js

  // ------------------------------------------------------------ escapeHtml

  /** The entity written for one character; other characters stand for themselves. */
  function EscapeChar(c: char): string
  {
    if c == '&' then "&amp;"
    else if c == '<' then "&lt;"
    else if c == '>' then "&gt;"
    else if c == '"' then "&quot;"
    else if c == '\'' then "&#039;"
    else [c]
  }

  /** Reference definition: every character escaped on its own. */
  function EscapeEach(s: string): string
  {
    if s == [] then "" else EscapeChar(s[0]) + EscapeEach(s[1..])
  }

  /** The chain of global replacements, ampersand first. */
  function EscapeChain(s: string): string
  {
    ReplaceAll(ReplaceAll(ReplaceAll(ReplaceAll(ReplaceAll(
      s, '&', "&amp;"), '<', "&lt;"), '>', "&gt;"), '"', "&quot;"), '\'', "&#039;")
  }

  /** `escapeHtml`: '' for a missing or empty value, otherwise the replacement chain. */
  function EscapeHtml(o: Option<string>): (r: string)
    ensures !Present(o) ==> r == ""
    ensures Present(o) ==> r == EscapeEach(o.value)
  {
    if !Present(o) then ""
    else
      EscapeChainIsEach(o.value);
      EscapeChain(o.value)
  }

  lemma ReplaceAllOne(x: char, c: char, rep: string)
    ensures ReplaceAll([x], c, rep) == if x == c then rep else [x]
  {
    assert [x][1..] == [];
  }

  /** The last four replacements leave a text without those four characters alone. */
  lemma ChainKeeps(t: string)
    requires Free(t, '<') && Free(t, '>') && Free(t, '"') && Free(t, '\'')
    ensures ReplaceAll(ReplaceAll(ReplaceAll(ReplaceAll(t, '<', "&lt;"), '>', "&gt;"), '"', "&quot;"), '\'', "&#039;") == t
  {
    ReplaceAllAbsent(t, '<', "&lt;");
    LastThreeKeep(t);
  }

  lemma LastThreeKeep(t: string)
    requires Free(t, '>') && Free(t, '"') && Free(t, '\'')
    ensures ReplaceAll(ReplaceAll(ReplaceAll(t, '>', "&gt;"), '"', "&quot;"), '\'', "&#039;") == t
  {
    ReplaceAllAbsent(t, '>', "&gt;");
    LastTwoKeep(t);
  }

  lemma LastTwoKeep(t: string)
    requires Free(t, '"') && Free(t, '\'')
    ensures ReplaceAll(ReplaceAll(t, '"', "&quot;"), '\'', "&#039;") == t
  {
    ReplaceAllAbsent(t, '"', "&quot;");
    ReplaceAllAbsent(t, '\'', "&#039;");
  }

  lemma EscapeChainAmp()
    ensures EscapeChain("&") == "&amp;"
  {
    ReplaceAllOne('&', '&', "&amp;");
    ChainKeeps("&amp;");
  }

  lemma EscapeChainLt()
    ensures EscapeChain("<") == "&lt;"
  {
    ReplaceAllOne('<', '&', "&amp;");
    ReplaceAllOne('<', '<', "&lt;");
    LastThreeKeep("&lt;");
  }

  lemma EscapeChainGt()
    ensures EscapeChain(">") == "&gt;"
  {
    ReplaceAllOne('>', '&', "&amp;");
    ReplaceAllOne('>', '<', "&lt;");
    ReplaceAllOne('>', '>', "&gt;");
    LastTwoKeep("&gt;");
  }

  lemma EscapeChainQuot()
    ensures EscapeChain("\"") == "&quot;"
  {
    ReplaceAllOne('"', '&', "&amp;");
    ReplaceAllOne('"', '<', "&lt;");
    ReplaceAllOne('"', '>', "&gt;");
    ReplaceAllOne('"', '"', "&quot;");
    ReplaceAllAbsent("&quot;", '\'', "&#039;");
  }

  lemma EscapeChainApos()
    ensures EscapeChain("'") == "&#039;"
  {
    ReplaceAllOne('\'', '&', "&amp;");
    ReplaceAllOne('\'', '<', "&lt;");
    ReplaceAllOne('\'', '>', "&gt;");
    ReplaceAllOne('\'', '"', "&quot;");
    ReplaceAllOne('\'', '\'', "&#039;");
  }

  lemma EscapeChainPlain(c: char)
    requires !Special(c)
    ensures EscapeChain([c]) == [c]
  {
    ReplaceAllOne(c, '&', "&amp;");
    ReplaceAllOne(c, '<', "&lt;");
    ReplaceAllOne(c, '>', "&gt;");
    ReplaceAllOne(c, '"', "&quot;");
    ReplaceAllOne(c, '\'', "&#039;");
  }

  lemma EscapeChainChar(c: char)
    ensures EscapeChain([c]) == EscapeChar(c)
  {
    if c == '&' {
      EscapeChainAmp();
    } else if c == '<' {
      EscapeChainLt();
    } else if c == '>' {
      EscapeChainGt();
    } else if c == '"' {
      EscapeChainQuot();
    } else if c == '\'' {
      EscapeChainApos();
    } else {
      EscapeChainPlain(c);
    }
  }

  lemma EscapeChainAppend(a: string, b: string)
    ensures EscapeChain(a + b) == EscapeChain(a) + EscapeChain(b)
  {
    var a1, b1 := ReplaceAll(a, '&', "&amp;"), ReplaceAll(b, '&', "&amp;");
    ReplaceAllAppend(a, b, '&', "&amp;");
    var a2, b2 := ReplaceAll(a1, '<', "&lt;"), ReplaceAll(b1, '<', "&lt;");
    ReplaceAllAppend(a1, b1, '<', "&lt;");
    var a3, b3 := ReplaceAll(a2, '>', "&gt;"), ReplaceAll(b2, '>', "&gt;");
    ReplaceAllAppend(a2, b2, '>', "&gt;");
    var a4, b4 := ReplaceAll(a3, '"', "&quot;"), ReplaceAll(b3, '"', "&quot;");
    ReplaceAllAppend(a3, b3, '"', "&quot;");
    ReplaceAllAppend(a4, b4, '\'', "&#039;");
  }

  /** Replacing `&` first makes the chain escape each character independently. */
  lemma {:induction false} EscapeChainIsEach(s: string)
    ensures EscapeChain(s) == EscapeEach(s)
  {
    if s != [] {
      assert s == [s[0]] + s[1..];
      EscapeChainAppend([s[0]], s[1..]);
      EscapeChainChar(s[0]);
      EscapeChainIsEach(s[1..]);
    }
  }

  /** No character that starts or quotes markup. */
  predicate MarkupFree(s: string)
  {
    forall i :: 0 <= i < |s| ==> s[i] != '<' && s[i] != '>' && s[i] != '"' && s[i] != '\''
  }

  /** The characters `escapeHtml` rewrites. */
  predicate Special(c: char) { c == '&' || c == '<' || c == '>' || c == '"' || c == '\'' }

  lemma {:induction false} EscapeEachMarkupFree(s: string)
    ensures MarkupFree(EscapeEach(s))
  {
    if s != [] {
      EscapeEachMarkupFree(s[1..]);
      var h, t := EscapeChar(s[0]), EscapeEach(s[1..]);
      assert MarkupFree(h);
      assert forall i :: |h| <= i < |h + t| ==> (h + t)[i] == t[i - |h|];
    }
  }

  /** The escaped text contains none of `<`, `>`, `"` and `'`. */
  lemma EscapeHtmlMarkupFree(o: Option<string>)
    ensures MarkupFree(EscapeHtml(o))
  {
    if Present(o) {
      EscapeEachMarkupFree(o.value);
    }
  }

  /** A string without special characters is returned unchanged. */
  lemma {:induction false} EscapeHtmlIdentity(s: string)
    requires forall i :: 0 <= i < |s| ==> !Special(s[i])
    ensures EscapeHtml(Some(s)) == s
  {
    if s != [] {
      EscapeEachIdentity(s);
    }
  }

  lemma {:induction false} EscapeEachIdentity(s: string)
    requires forall i :: 0 <= i < |s| ==> !Special(s[i])
    ensures EscapeEach(s) == s
  {
    if s != [] {
      EscapeEachIdentity(s[1..]);
      assert [s[0]] + s[1..] == s;
    }
  }

  /** Decoding the five entities (the inverse of escaping). */
  function UnescapeHtml(t: string): string
    decreases |t|
  {
    if t == [] then ""
    else if StartsWith(t, "&amp;") then "&" + UnescapeHtml(t[5..])
    else if StartsWith(t, "&lt;") then "<" + UnescapeHtml(t[4..])
    else if StartsWith(t, "&gt;") then ">" + UnescapeHtml(t[4..])
    else if StartsWith(t, "&quot;") then "\"" + UnescapeHtml(t[6..])
    else if StartsWith(t, "&#039;") then "'" + UnescapeHtml(t[6..])
    else [t[0]] + UnescapeHtml(t[1..])
  }

  lemma UnescapeAmp(rest: string)
    ensures UnescapeHtml("&amp;" + rest) == "&" + UnescapeHtml(rest)
  {
    var t := "&amp;" + rest;
    assert t[..5] == "&amp;" && t[5..] == rest;
  }

  lemma UnescapeLt(rest: string)
    ensures UnescapeHtml("&lt;" + rest) == "<" + UnescapeHtml(rest)
  {
    var t := "&lt;" + rest;
    assert !StartsWith(t, "&amp;") by {
      if |t| >= 5 { assert t[..5][1] == 'l'; }
    }
    assert t[..4] == "&lt;" && t[4..] == rest;
  }

  lemma UnescapeGt(rest: string)
    ensures UnescapeHtml("&gt;" + rest) == ">" + UnescapeHtml(rest)
  {
    var t := "&gt;" + rest;
    assert !StartsWith(t, "&amp;") by {
      if |t| >= 5 { assert t[..5][1] == 'g'; }
    }
    assert !StartsWith(t, "&lt;") by {
      assert t[..4][1] == 'g';
    }
    assert t[..4] == "&gt;" && t[4..] == rest;
  }

  lemma UnescapeQuot(rest: string)
    ensures UnescapeHtml("&quot;" + rest) == "\"" + UnescapeHtml(rest)
  {
    var t := "&quot;" + rest;
    assert !StartsWith(t, "&amp;") by {
      assert t[..5][1] == 'q';
    }
    assert !StartsWith(t, "&lt;") && !StartsWith(t, "&gt;") by {
      assert t[..4][1] == 'q';
    }
    assert t[..6] == "&quot;" && t[6..] == rest;
  }

  lemma UnescapeApos(rest: string)
    ensures UnescapeHtml("&#039;" + rest) == "'" + UnescapeHtml(rest)
  {
    var t := "&#039;" + rest;
    assert !StartsWith(t, "&amp;") by {
      assert t[..5][1] == '#';
    }
    assert !StartsWith(t, "&lt;") && !StartsWith(t, "&gt;") by {
      assert t[..4][1] == '#';
    }
    assert !StartsWith(t, "&quot;") by {
      assert t[..6][1] == '#';
    }
    assert t[..6] == "&#039;" && t[6..] == rest;
  }

  lemma UnescapePlain(c: char, rest: string)
    requires c != '&'
    ensures UnescapeHtml([c] + rest) == [c] + UnescapeHtml(rest)
  {
    var t := [c] + rest;
    assert t[0] == c && t[1..] == rest;
    assert !StartsWith(t, "&amp;") && !StartsWith(t, "&lt;") && !StartsWith(t, "&gt;")
        && !StartsWith(t, "&quot;") && !StartsWith(t, "&#039;");
  }

  /** Decoding undoes the escape of one character. */
  lemma UnescapeStep(c: char, rest: string)
    ensures UnescapeHtml(EscapeChar(c) + rest) == [c] + UnescapeHtml(rest)
  {
    if c == '&' {
      UnescapeAmp(rest);
    } else if c == '<' {
      UnescapeLt(rest);
    } else if c == '>' {
      UnescapeGt(rest);
    } else if c == '"' {
      UnescapeQuot(rest);
    } else if c == '\'' {
      UnescapeApos(rest);
    } else {
      UnescapePlain(c, rest);
    }
  }

  lemma {:induction false} UnescapeEach(s: string)
    ensures UnescapeHtml(EscapeEach(s)) == s
  {
    if s != [] {
      UnescapeStep(s[0], EscapeEach(s[1..]));
      UnescapeEach(s[1..]);
      assert [s[0]] + s[1..] == s;
    }
  }

  /** Decoding the five entities recovers the escaped input. */
  lemma EscapeHtmlRoundTrip(s: string)
    ensures UnescapeHtml(EscapeHtml(Some(s))) == s
  {
    if s != [] {
      UnescapeEach(s);
    }
  }

  // ------------------------------------------------------------ formatDuration

  /** JavaScript's `a % b` for a positive divisor: the sign follows the dividend. */
  function JsRem(a: int, b: int): (r: int)
    requires b > 0
    ensures a >= 0 ==> 0 <= r < b && r == a % b
    ensures a < 0 ==> -b < r <= 0
  {
    if a >= 0 then a % b else -((-a) % b)
  }

  /** The hours, minutes and seconds `formatDuration` shows. */
  datatype Clock = Clock(h: int, m: int, s: int)

  function DurationParts(seconds: int): Clock
  {
    Clock(seconds / 3600, JsRem(seconds, 3600) / 60, JsRem(seconds, 60))
  }

  /** The components of a non-negative duration recompose it, minutes and seconds below 60. */
  lemma DurationPartsExact(seconds: int)
    requires seconds >= 0
    ensures var c := DurationParts(seconds);
      c.h >= 0 && 0 <= c.m < 60 && 0 <= c.s < 60 && c.h * 3600 + c.m * 60 + c.s == seconds
  {
    var c := DurationParts(seconds);
    var r := seconds % 3600;
    assert seconds == c.h * 3600 + r;
    assert r == (r / 60) * 60 + r % 60;
    SameRemainder(seconds, c.h * 60, r);
  }

  /** Adding whole minutes does not change the seconds. */
  lemma SameRemainder(n: int, k: int, r: int)
    requires n == k * 60 + r && 0 <= r
    ensures n % 60 == r % 60
  {
    var q := r / 60;
    assert r == q * 60 + r % 60;
    assert n == (k + q) * 60 + r % 60;
  }

  /** `formatDuration`: '' when falsy, else "h:mm:ss" with hours or "m:ss" without. */
  function FormatDuration(o: Option<int>): (r: string)
    ensures o.None? || o.value == 0 ==> r == ""
  {
    if o.None? || o.value == 0 then "" else ClockText(DurationParts(o.value))
  }

  /** "h:mm:ss" when there are hours, "m:ss" otherwise. */
  function ClockText(c: Clock): string
  {
    if c.h > 0 then IntToString(c.h) + ":" + PadStart2(IntToString(c.m)) + ":" + PadStart2(IntToString(c.s))
    else IntToString(c.m) + ":" + PadStart2(IntToString(c.s))
  }

  /**
    The number a list of clock fields denotes, most significant first
    (base 60); `None` when a field is empty or not all digits.
  */
  function ParseClock(parts: seq<string>): Option<nat>
  {
    if parts == [] then Some(0)
    else
      var last := parts[|parts| - 1];
      match ParseClock(parts[..|parts| - 1])
      case None => None
      case Some(v) => if last != "" && AllDigits(last) then Some(v * 60 + DecimalValue(last)) else None
  }

  /** Reads "h:mm:ss" or "m:ss" back into seconds. */
  function ParseDuration(t: string): Option<nat>
  {
    ParseClock(Split(t, ':'))
  }

  lemma PaddedValue(n: nat)
    requires n < 100
    ensures var p := PadStart2(NatToString(n));
      |p| == 2 && AllDigits(p) && Free(p, ':') && DecimalValue(p) == n
  {
    var d := NatToString(n);
    var p := PadStart2(d);
    DecimalRoundTrip(n);
    if n < 10 {
      assert p == ['0', d[0]];
      assert p[..1] == "0";
      assert DecimalValue(p[..1]) == 0 by {
        assert p[..1][..0] == [];
      }
      assert d[..0] == [];
    }
  }

  lemma ParseClockTwo(a: string, b: string)
    requires a != "" && b != "" && AllDigits(a) && AllDigits(b)
    ensures ParseClock([a, b]) == Some(DecimalValue(a) * 60 + DecimalValue(b))
  {
    assert [a][..0] == [];
    assert ParseClock([a]) == Some(DecimalValue(a));
    assert [a, b][..1] == [a];
  }

  lemma ParseClockThree(a: string, b: string, c: string)
    requires a != "" && b != "" && c != "" && AllDigits(a) && AllDigits(b) && AllDigits(c)
    ensures ParseClock([a, b, c]) == Some((DecimalValue(a) * 60 + DecimalValue(b)) * 60 + DecimalValue(c))
  {
    ParseClockTwo(a, b);
    assert [a, b, c][..2] == [a, b];
  }

  lemma SplitClock3(hh: string, mm: string, ss: string)
    requires Free(hh, ':') && Free(mm, ':') && Free(ss, ':')
    ensures Split(hh + ":" + mm + ":" + ss, ':') == [hh, mm, ss]
  {
    assert hh + ":" + mm + ":" + ss == hh + [':'] + (mm + [':'] + ss);
    SplitCons(hh, ':', mm + [':'] + ss);
    SplitCons(mm, ':', ss);
    SplitFree(ss, ':');
  }

  lemma SplitClock2(mm: string, ss: string)
    requires Free(mm, ':') && Free(ss, ':')
    ensures Split(mm + ":" + ss, ':') == [mm, ss]
  {
    assert mm + ":" + ss == mm + [':'] + ss;
    SplitCons(mm, ':', ss);
    SplitFree(ss, ':');
  }

  lemma DigitsFree(s: string)
    requires AllDigits(s)
    ensures Free(s, ':')
  {
  }

  /** Reading the text back gives the duration: the format loses nothing. */
  lemma FormatDurationRoundTrip(seconds: int)
    requires seconds > 0
    ensures ParseDuration(FormatDuration(Some(seconds))) == Some(seconds)
  {
    DurationPartsExact(seconds);
    ClockRoundTrip(DurationParts(seconds));
  }

  /** A clock with minutes and seconds below 60 reads back as its number of seconds. */
  lemma ClockRoundTrip(c: Clock)
    requires c.h >= 0 && 0 <= c.m < 60 && 0 <= c.s < 60
    ensures ParseDuration(ClockText(c)) == Some(c.h * 3600 + c.m * 60 + c.s)
  {
    LongClockRoundTrip(c);
    ShortClockRoundTrip(c);
  }

  lemma LongClockRoundTrip(c: Clock)
    requires 0 <= c.m < 60 && 0 <= c.s < 60
    ensures c.h > 0 ==> ParseDuration(ClockText(c)) == Some(c.h * 3600 + c.m * 60 + c.s)
  {
    if c.h > 0 {
      LongClockText(c);
      LongText(c.h, c.m, c.s);
    }
  }

  lemma ShortClockRoundTrip(c: Clock)
    requires 0 <= c.m < 60 && 0 <= c.s < 60
    ensures c.h == 0 ==> ParseDuration(ClockText(c)) == Some(c.m * 60 + c.s)
  {
    if c.h == 0 {
      ShortClockText(c);
      ShortText(c.m, c.s);
    }
  }

  lemma LongText(h: nat, m: nat, s: nat)
    requires h > 0 && m < 60 && s < 60
    ensures ParseDuration(NatToString(h) + ":" + PadStart2(NatToString(m)) + ":" + PadStart2(NatToString(s))) == Some(h * 3600 + m * 60 + s)
  {
    PaddedValue(m);
    PaddedValue(s);
    DecimalRoundTrip(h);
    ParseThreeFields(NatToString(h), PadStart2(NatToString(m)), PadStart2(NatToString(s)), h, m, s);
  }

  lemma ShortText(m: nat, s: nat)
    requires s < 60
    ensures ParseDuration(NatToString(m) + ":" + PadStart2(NatToString(s))) == Some(m * 60 + s)
  {
    PaddedValue(s);
    DecimalRoundTrip(m);
    ParseTwoFields(NatToString(m), PadStart2(NatToString(s)), m, s);
  }

  lemma LongClockText(c: Clock)
    requires c.h > 0 && c.m >= 0 && c.s >= 0
    ensures ParseDuration(ClockText(c)) == ParseDuration(NatToString(c.h) + ":" + PadStart2(NatToString(c.m)) + ":" + PadStart2(NatToString(c.s)))
  {
  }

  lemma ShortClockText(c: Clock)
    requires c.h == 0 && c.m >= 0 && c.s >= 0
    ensures ParseDuration(ClockText(c)) == ParseDuration(NatToString(c.m) + ":" + PadStart2(NatToString(c.s)))
  {
  }

  lemma ParseThreeFields(hh: string, mm: string, ss: string, h: nat, m: nat, s: nat)
    requires hh != "" && mm != "" && ss != "" && AllDigits(hh) && AllDigits(mm) && AllDigits(ss)
    requires DecimalValue(hh) == h && DecimalValue(mm) == m && DecimalValue(ss) == s
    ensures ParseDuration(hh + ":" + mm + ":" + ss) == Some(h * 3600 + m * 60 + s)
  {
    DigitsFree(hh);
    DigitsFree(mm);
    DigitsFree(ss);
    SplitClock3(hh, mm, ss);
    ParseClockThree(hh, mm, ss);
  }

  lemma ParseTwoFields(mm: string, ss: string, m: nat, s: nat)
    requires mm != "" && ss != "" && AllDigits(mm) && AllDigits(ss)
    requires DecimalValue(mm) == m && DecimalValue(ss) == s
    ensures ParseDuration(mm + ":" + ss) == Some(m * 60 + s)
  {
    DigitsFree(mm);
    DigitsFree(ss);
    SplitClock2(mm, ss);
    ParseClockTwo(mm, ss);
  }

  // ------------------------------------------------------------ formatNumber

  /** `n * scale / unit` rounded half up. */
  function Scaled(n: nat, unit: nat, scale: nat): (q: nat)
    requires unit > 0
    ensures 2 * q * unit <= 2 * n * scale + unit < 2 * q * unit + 2 * unit
  {
    (2 * n * scale + unit) / (2 * unit)
  }

  /** `toFixed(1)` text of the value `q / 10`. */
  function Fixed1(q: nat): string
  {
    NatToString(q / 10) + "." + NatToString(q % 10)
  }

  /** `toFixed(2)` text of the value `q / 100`. */
  function Fixed2(q: nat): string
  {
    NatToString(q / 100) + "." + PadStart2(NatToString(q % 100))
  }

  const WAN: string := "万"
  const YI: string := "亿"

  /** The number text for a value that compares as the integer `n`. */
  function NumberText(x: Scalar, n: int): string
  {
    if n >= 100000000 then Fixed2(Scaled(n, 100000000, 100)) + YI
    else if n >= 10000 then Fixed1(Scaled(n, 10000, 10)) + WAN
    else ScalarText(x)
  }

  /** `formatNumber`: '0' when falsy, 亿 from 10^8, 万 from 10^4, else the value as text. */
  function FormatNumber(o: Option<Scalar>): (r: string)
    ensures !ScalarTruthy(o) ==> r == "0"
    ensures |r| >= 1
  {
    if !ScalarTruthy(o) then "0"
    else
      match ScalarToNumber(o.value)
      case None => ScalarText(o.value)
      case Some(n) => NumberText(o.value, n)
  }

  /** For a number the unit follows its magnitude; below 10^4 it is the plain decimal. */
  lemma FormatNumberUnits(n: int)
    ensures var r := FormatNumber(Some(IntVal(n)));
      |r| >= 1
      && (n == 0 ==> r == "0")
      && (n != 0 && n < 10000 ==> r == IntToString(n))
      && (r[|r| - 1] == YI[0] <==> n >= 100000000)
      && (r[|r| - 1] == WAN[0] <==> 10000 <= n < 100000000)
  {
    var r := FormatNumber(Some(IntVal(n)));
    if n != 0 && n < 10000 {
      var d := if n < 0 then NatToString(-n) else NatToString(n);
      assert r[|r| - 1] == d[|d| - 1];
      assert IsDigit(d[|d| - 1]);
    }
  }

  // ------------------------------------------------------------ isHex

  predicate IsHexDigit(c: char)
  {
    '0' <= c <= '9' || 'a' <= c <= 'f' || 'A' <= c <= 'F'
  }

  /** `isHex`: a string matching `^#[0-9a-fA-F]{6}$`. */
  predicate IsHex(o: Option<string>)
  {
    o.Some? && |o.value| == 7 && o.value[0] == '#'
    && forall i :: 1 <= i < 7 ==> IsHexDigit(o.value[i])
  }

  /** Hex validity does not depend on letter case. */
  lemma IsHexLower(s: string)
    ensures IsHex(Some(s)) <==> IsHex(Some(Lower(s)))
  {
    if IsHex(Some(Lower(s))) {
      forall i | 1 <= i < 7 ensures IsHexDigit(s[i]) {
        assert IsHexDigit(AsciiLower(s[i]));
      }
    }
  }
}
