/**
  Recognising bilibili links in chat text. Each link kind has a pattern of
  one shape: an optional `http://` or `https://`, for some kinds an optional
  `www.`, one of a few host-and-path literals, then a captured id made of a
  literal lead and a run of word or digit characters. Matching is
  case-insensitive and finds the leftmost match, as `String.prototype.match`
  does with these expressions. Also the BV-to-AV number conversion and the
  URL lookup in a mini-app share card.
*/
module UrlParser {
  import opened Wrappers
  import opened Text
  import opened Js

  // ------------------------------------------------------------ patterns

  datatype CharClass = Word | Digits

  /** `\w` and `\d` (without the `u` flag, `\w` is ASCII only). */
  predicate InClass(c: char, cls: CharClass)
  {
    match cls
    case Word => 'a' <= c <= 'z' || 'A' <= c <= 'Z' || '0' <= c <= '9' || c == '_'
    case Digits => '0' <= c <= '9'
  }

  /** One alternative of the captured group: a literal lead, then one or more characters of a class. */
  datatype Alt = Alt(lead: string, cls: CharClass)

  /**
    A link pattern. Literals are written in lower case and compared with the
    text lower-cased (the `i` flag). The optional parts never need to be
    given back: no host literal starts with `h` or `w`, so the greedy choice
    is the only one that can succeed.
  */
  datatype Pattern = Pattern(www: bool, hosts: seq<string>, alts: seq<Alt>)

  /** The pattern table, in declaration order. */
  datatype Kind = Video | Dynamic | Article | Bangumi | Live | ShortLink

  const Table: seq<Kind> := [Video, Dynamic, Article, Bangumi, Live, ShortLink]

  function PatternOf(k: Kind): Pattern
  {
    match k
    case Video => Pattern(true, ["bilibili.com/video/"], [Alt("bv", Word), Alt("av", Digits)])
    case Dynamic => Pattern(false, ["t.bilibili.com/", "m.bilibili.com/"], [Alt("", Digits)])
    case Article => Pattern(true, ["bilibili.com/read/cv"], [Alt("", Digits)])
    case Bangumi => Pattern(true, ["bilibili.com/bangumi/play/"], [Alt("ss", Digits), Alt("ep", Digits)])
    case Live => Pattern(false, ["live.bilibili.com/"], [Alt("", Digits)])
    case ShortLink => Pattern(false, ["b23.tv/"], [Alt("", Word)])
  }

  /** The key of a kind in the pattern table. */
  function KindName(k: Kind): string
  {
    match k
    case Video => "video"
    case Dynamic => "dynamic"
    case Article => "article"
    case Bangumi => "bangumi"
    case Live => "live"
    case ShortLink => "shortLink"
  }

  /** The lower-case literal `lit` occurs at `i`, ignoring ASCII case. */
  predicate LitAt(text: string, i: nat, lit: string)
  {
    i + |lit| <= |text| && forall k :: 0 <= k < |lit| ==> AsciiLower(text[i + k]) == lit[k]
  }

  /** The length of the longest run of `cls` characters starting at `j`. */
  function Run(text: string, j: nat, cls: CharClass): (r: nat)
    ensures j + r <= |text| || (j > |text| && r == 0)
    ensures forall k :: j <= k < j + r ==> InClass(text[k], cls)
    ensures j + r < |text| ==> !InClass(text[j + r], cls)
    decreases |text| - j
  {
    if j < |text| && InClass(text[j], cls) then 1 + Run(text, j + 1, cls) else 0
  }

  function SchemeLen(text: string, i: nat): nat
  {
    if LitAt(text, i, "https://") then 8 else if LitAt(text, i, "http://") then 7 else 0
  }

  function WwwLen(text: string, i: nat, www: bool): nat
  {
    if www && LitAt(text, i, "www.") then 4 else 0
  }

  /** The length of the first host literal present at `i`. */
  function HostLen(text: string, i: nat, hosts: seq<string>): (r: Option<nat>)
  {
    if hosts == [] then None
    else if LitAt(text, i, hosts[0]) then Some(|hosts[0]|)
    else HostLen(text, i, hosts[1..])
  }

  /** Where the captured group ends, for the first alternative that matches at `c`. */
  function CaptureEnd(text: string, c: nat, alts: seq<Alt>): (r: Option<nat>)
    ensures r.Some? ==> c < r.value <= |text|
  {
    if alts == [] then None
    else
      var a := alts[0];
      if LitAt(text, c, a.lead) && Run(text, c + |a.lead|, a.cls) >= 1
      then Some(c + |a.lead| + Run(text, c + |a.lead|, a.cls))
      else CaptureEnd(text, c, alts[1..])
  }

  /** A match: where it starts, and where its captured group starts and ends (the match ends with it). */
  datatype Span = Span(start: nat, capStart: nat, capEnd: nat)

  /** The match of `p` starting exactly at `i`, if any. */
  function MatchAt(text: string, i: nat, p: Pattern): (r: Option<Span>)
    ensures r.Some? ==> r.value.start == i <= r.value.capStart < r.value.capEnd <= |text|
  {
    var s := i + SchemeLen(text, i);
    var w := s + WwwLen(text, s, p.www);
    match HostLen(text, w, p.hosts)
    case None => None
    case Some(h) =>
      match CaptureEnd(text, w + h, p.alts)
      case None => None
      case Some(e) => Some(Span(i, w + h, e))
  }

  /** The leftmost match of `p` starting at or after `from`. */
  function FirstMatch(text: string, p: Pattern, from: nat): (r: Option<Span>)
    requires from <= |text|
    ensures r.Some? ==> from <= r.value.start <= r.value.capStart < r.value.capEnd <= |text|
    decreases |text| - from
  {
    var here := MatchAt(text, from, p);
    if here.Some? then here
    else if from == |text| then None
    else FirstMatch(text, p, from + 1)
  }

  /**
    The match found is a match of the pattern, and no position before it
    (from `from` on) starts one; when nothing is found, no position does.
  */
  lemma {:induction false} FirstMatchIsLeftmost(text: string, p: Pattern, from: nat)
    requires from <= |text|
    ensures FirstMatch(text, p, from).Some? ==> MatchAt(text, FirstMatch(text, p, from).value.start, p) == FirstMatch(text, p, from)
    ensures FirstMatch(text, p, from).Some? ==> forall j :: from <= j < FirstMatch(text, p, from).value.start ==> MatchAt(text, j, p).None?
    ensures FirstMatch(text, p, from).None? ==> forall j :: from <= j <= |text| ==> MatchAt(text, j, p).None?
    decreases |text| - from
  {
    if MatchAt(text, from, p).None? && from < |text| {
      FirstMatchIsLeftmost(text, p, from + 1);
    }
  }

  /** `text.match(pattern)`: the leftmost match anywhere in the text. */
  function Match(text: string, k: Kind): Option<Span>
  {
    FirstMatch(text, PatternOf(k), 0)
  }

  // ------------------------------------------------------------ extraction

  /** What `extractBiliUrl` reports: the kind, the captured id and the matched text. */
  datatype Link = Link(kind: string, id: string, url: string)

  /** The report for a match of kind `k`; live links are reported as videos. */
  function LinkOf(text: string, k: Kind, s: Span): Link
    requires s.start <= s.capStart <= s.capEnd <= |text|
  {
    Link(if k == Live then "video" else KindName(k), text[s.capStart..s.capEnd], text[s.start..s.capEnd])
  }

  /** The table from position `i` on, then the after-loop short-link check. */
  function ExtractFrom(text: string, i: nat): Option<Link>
    requires i <= |Table|
    decreases |Table| - i
  {
    if i == |Table| then
      match Match(text, ShortLink)
      case Some(s) => Some(Link("short", text[s.capStart..s.capEnd], text[s.start..s.capEnd]))
      case None => None
    else
      match Match(text, Table[i])
      case Some(s) => Some(LinkOf(text, Table[i], s))
      case None => ExtractFrom(text, i + 1)
  }

  /** `extractBiliUrl`. */
  function Extract(text: string): Option<Link>
  {
    ExtractFrom(text, 0)
  }

  /** No pattern of the table at or after position `i` matches. */
  predicate NoneFrom(text: string, i: nat)
  {
    forall n :: i <= n < |Table| ==> Match(text, Table[n]).None?
  }

  /**
    The table is tried in order and the first kind that matches anywhere
    wins, whatever the positions of the matches in the text.
  */
  lemma FirstKindWins(text: string, n: nat)
    requires n < |Table| && Match(text, Table[n]).Some?
    requires forall m :: 0 <= m < n ==> Match(text, Table[m]).None?
    ensures Extract(text) == Some(LinkOf(text, Table[n], Match(text, Table[n]).value))
  {
    FirstKindWinsFrom(text, 0, n);
  }

  lemma {:induction false} FirstKindWinsFrom(text: string, i: nat, n: nat)
    requires i <= n < |Table| && Match(text, Table[n]).Some?
    requires forall m :: i <= m < n ==> Match(text, Table[m]).None?
    ensures ExtractFrom(text, i) == Some(LinkOf(text, Table[n], Match(text, Table[n]).value))
    decreases n - i
  {
    if i < n {
      assert Match(text, Table[i]).None?;
      FirstKindWinsFrom(text, i + 1, n);
    }
  }

  /** The kinds `extractBiliUrl` can report: never `live` (reported as `video`) and never `short`. */
  predicate Reported(kind: string)
  {
    kind in ["video", "dynamic", "article", "bangumi", "shortLink"]
  }

  /**
    Every report names a table kind other than `live`: in particular the
    short-link branch after the loop never fires, because `shortLink` is
    itself the last entry of the table.
  */
  lemma ExtractKinds(text: string)
    ensures Extract(text).Some? ==> Reported(Extract(text).value.kind)
    ensures Extract(text).Some? ==> Extract(text).value.kind != "live" && Extract(text).value.kind != "short"
  {
    ExtractKindsFrom(text, 0);
  }

  lemma {:induction false} ExtractKindsFrom(text: string, i: nat)
    requires i < |Table|
    ensures ExtractFrom(text, i).Some? ==> Reported(ExtractFrom(text, i).value.kind)
    decreases |Table| - i
  {
    if i < |Table| - 1 {
      ExtractKindsFrom(text, i + 1);
    } else {
      assert Table[i] == ShortLink;
      if Match(text, ShortLink).None? {
        assert ExtractFrom(text, i + 1) == None;
      }
    }
  }

  /** After the whole table failed, the short-link check fails as well. */
  lemma ShortAfterTable(text: string)
    requires Match(text, Table[|Table| - 1]).None?
    ensures Match(text, ShortLink).None? && ExtractFrom(text, |Table|) == None
  {
    assert Table[|Table| - 1] == ShortLink;
  }

  /** One step of the table loop. */
  lemma ExtractStep(text: string, i: nat)
    requires i < |Table|
    ensures Match(text, Table[i]).None? ==> ExtractFrom(text, i) == ExtractFrom(text, i + 1)
    ensures Match(text, Table[i]).Some? ==>
              ExtractFrom(text, i) == Some(LinkOf(text, Table[i], Match(text, Table[i]).value))
  {
  }

  /** Nothing is reported exactly when no pattern of the table matches. */
  lemma ExtractNone(text: string)
    ensures Extract(text).None? <==> NoneFrom(text, 0)
  {
    ExtractNoneFrom(text, 0);
  }

  lemma {:induction false} ExtractNoneFrom(text: string, i: nat)
    requires i < |Table|
    ensures ExtractFrom(text, i).None? <==> NoneFrom(text, i)
    decreases |Table| - i
  {
    var m := Match(text, Table[i]);
    assert NoneFrom(text, i) <==> m.None? && NoneFrom(text, i + 1);
    if i < |Table| - 1 {
      ExtractNoneFrom(text, i + 1);
    } else if m.None? {
      assert Table[i] == ShortLink;
    }
  }

  /** `extractBiliUrl`: try the table in order and report the first kind that matches. */
  method ExtractBiliUrl(text: string) returns (r: Option<Link>)
    ensures r == Extract(text)
  {
    for i := 0 to |Table|
      invariant ExtractFrom(text, i) == Extract(text)
      invariant 0 < i ==> Match(text, Table[i - 1]).None?
    {
      var kind := Table[i];
      var found := Match(text, kind);
      ExtractStep(text, i);
      if found.Some? {
        return Some(LinkOf(text, kind, found.value));
      }
    }
    r := ShortLinkCheck(text);
  }

  /**
    The check after the table loop. `shortLink` is the table's last entry
    and has just failed, so this check cannot match.
  */
  method ShortLinkCheck(text: string) returns (r: Option<Link>)
    requires Match(text, Table[|Table| - 1]).None?
    ensures r == None && r == ExtractFrom(text, |Table|)
  {
    ShortAfterTable(text);
    var shortMatch := Match(text, ShortLink);
    if shortMatch.Some? {
      assert false;
    }
    return None;
  }

  /** `hasBiliContent`: whether some pattern of the table matches. */
  method HasBiliContent(text: string) returns (r: bool)
    ensures r <==> !NoneFrom(text, 0)
    ensures r <==> Extract(text).Some?
  {
    ExtractNone(text);
    for i := 0 to |Table|
      invariant ExtractFrom(text, i) == Extract(text)
      invariant 0 < i ==> Match(text, Table[i - 1]).None?
    {
      ExtractStep(text, i);
      if Match(text, Table[i]).Some? {
        return true;
      }
    }
    ShortAfterTable(text);
    return false;
  }

  // ------------------------------------------------------------ mini-app cards

  /**
    `extractBiliUrlFromMiniApp`: the URL is the first truthy of
    `meta.detail_1.qqdocurl`, `meta.news.jumpUrl` and `prompt`. Only a string
    containing `bilibili.com` is parsed; any other value either fails the
    check or throws inside the `try`, and both give `null`.
  */
  function FromMiniApp(qqdocurl: Option<Value>, jumpUrl: Option<Value>, prompt: Option<Value>): (r: Option<Link>)
    ensures r.Some? ==> exists u :: Chosen(qqdocurl, jumpUrl, prompt) == Some(Str(u))
                                   && Contains(u, "bilibili.com") && r == Extract(u)
    ensures var c := Chosen(qqdocurl, jumpUrl, prompt);
            c.Some? && c.value.Str? && Contains(c.value.s, "bilibili.com") ==> r == Extract(c.value.s)
    ensures var c := Chosen(qqdocurl, jumpUrl, prompt);
            !(c.Some? && c.value.Str? && Contains(c.value.s, "bilibili.com")) ==> r == None
  {
    match Chosen(qqdocurl, jumpUrl, prompt)
    case Some(Str(u)) => if Contains(u, "bilibili.com") then Extract(u) else None
    case _ => None
  }

  /** `a || b || c` over the three optional fields; `None` when even the last is absent or falsy. */
  function Chosen(a: Option<Value>, b: Option<Value>, c: Option<Value>): (r: Option<Value>)
    ensures r.Some? ==> Truthy(r.value)
    ensures a.Some? && Truthy(a.value) ==> r == a
    ensures !(a.Some? && Truthy(a.value)) && b.Some? && Truthy(b.value) ==> r == b
    ensures !(a.Some? && Truthy(a.value)) && !(b.Some? && Truthy(b.value)) ==>
              r == (if c.Some? && Truthy(c.value) then c else None)
  {
    if a.Some? && Truthy(a.value) then a
    else if b.Some? && Truthy(b.value) then b
    else if c.Some? && Truthy(c.value) then c
    else None
  }

  /** A truthy `qqdocurl` decides alone: the other fields are not consulted. */
  lemma MiniAppPrefersDocUrl(qqdocurl: Value, j1: Option<Value>, p1: Option<Value>, j2: Option<Value>, p2: Option<Value>)
    requires Truthy(qqdocurl)
    ensures FromMiniApp(Some(qqdocurl), j1, p1) == FromMiniApp(Some(qqdocurl), j2, p2)
  {
  }

  /** A URL without `bilibili.com` is never parsed, even when it holds a short link. */
  lemma MiniAppNeedsHost(u: string, j: Option<Value>, p: Option<Value>)
    requires u != "" && !Contains(u, "bilibili.com")
    ensures FromMiniApp(Some(Str(u)), j, p) == None
  {
  }

  // ------------------------------------------------------------ BV to AV

  /** The base-58 alphabet of BV ids. */
  const Alphabet: string := "FcwAPNKTMug3GV5Lj7EJnHpWsx4tb8haYeviqBz6rkCy12mUSDQX9RdoZf"
  const XorCode: int := 23442827791579
  /** `2^51 - 1`: `& MASK_CODE` keeps the low 51 bits. */
  const MaskCode: int := 2251799813685247

  /** `table.indexOf(c)`: the position of `c` in the alphabet, or -1. */
  function AlphabetIndex(c: char): (r: int)
    ensures -1 <= r < |Alphabet|
    ensures r >= 0 ==> Alphabet[r] == c
  {
    SearchFrom(Alphabet, c, 0)
  }

  /** The first position at or after `k` where `c` occurs in `s`, or -1. */
  function SearchFrom(s: string, c: char, k: nat): (r: int)
    requires k <= |s|
    ensures -1 <= r < |s|
    ensures r >= 0 ==> k <= r && s[r] == c && forall j :: k <= j < r ==> s[j] != c
    ensures r == -1 <==> forall j :: k <= j < |s| ==> s[j] != c
    decreases |s| - k
  {
    if k == |s| then -1
    else if s[k] == c then k
    else SearchFrom(s, c, k + 1)
  }

  /**
    The `i`-th digit after the two-character prefix; past the end of the id
    `bvid[i]` is `undefined`, which is not in the alphabet either.
  */
  function Digit(bvid: string, i: nat): (r: int)
    ensures -1 <= r < 58
  {
    if 2 + i < |bvid| then AlphabetIndex(bvid[2 + i]) else -1
  }

  /** The six digits the loop reads. */
  function BvDigits(bvid: string): (r: seq<int>)
    ensures |r| == 6 && forall i :: 0 <= i < 6 ==> r[i] == Digit(bvid, i)
  {
    seq(6, i requires 0 <= i < 6 => Digit(bvid, i))
  }

  /** Digits folded base 58, most significant first. */
  function Fold(ds: seq<int>): int
  {
    if ds == [] then 0 else Fold(ds[..|ds| - 1]) * 58 + ds[|ds| - 1]
  }

  /** `2^n`. */
  function Pow2(n: nat): nat
  {
    if n == 0 then 1 else 2 * Pow2(n - 1)
  }

  /** Bitwise XOR of non-negative numbers, bit by bit from the lowest. */
  function Xor(a: nat, b: nat): nat
    decreases a + b
  {
    if a == 0 && b == 0 then 0
    else 2 * Xor(a / 2, b / 2) + (if a % 2 == b % 2 then 0 else 1)
  }

  /** XOR with the same key twice gives back the number. */
  lemma {:induction false} XorTwice(a: nat, k: nat)
    ensures Xor(Xor(a, k), k) == a
    decreases a + k
  {
    if !(a == 0 && k == 0) {
      var x := Xor(a, k);
      XorTwice(a / 2, k / 2);
      assert x / 2 == Xor(a / 2, k / 2) && x % 2 == (if a % 2 == k % 2 then 0 else 1);
    }
  }

  /** XOR of two numbers below `2^n` is below `2^n`. */
  lemma {:induction false} XorBound(a: nat, b: nat, n: nat)
    requires a < Pow2(n) && b < Pow2(n)
    ensures Xor(a, b) < Pow2(n)
    decreases a + b
  {
    if !(a == 0 && b == 0) {
      if n == 0 {
        assert false;
      }
      XorBound(a / 2, b / 2, n - 1);
    }
  }

  /**
    `bv2av`: fold six digits, keep the low 51 bits (BigInt `&` treats a
    negative accumulator as two's complement, which leaves the non-negative
    remainder) and XOR with the constant.
  */
  function Bv2avOf(bvid: string): nat
  {
    Xor(Fold(BvDigits(bvid)) % (MaskCode + 1), XorCode)
  }

  /** The loop of `bv2av`. */
  method Bv2av(bvid: string) returns (av: nat)
    ensures av == Bv2avOf(bvid)
    ensures av <= MaskCode
  {
    var tmp := 0;
    for i := 0 to 6
      invariant tmp == Fold(BvDigits(bvid)[..i])
    {
      assert BvDigits(bvid)[..i + 1][..i] == BvDigits(bvid)[..i];
      tmp := tmp * 58 + Digit(bvid, i);
    }
    assert BvDigits(bvid)[..6] == BvDigits(bvid);
    MaskBound(tmp % (MaskCode + 1));
    av := Xor(tmp % (MaskCode + 1), XorCode);
  }

  lemma MaskIsPow2()
    ensures MaskCode + 1 == Pow2(51)
  {
    assert Pow2(10) == 1024;
    assert Pow2(20) == 1048576;
    assert Pow2(30) == 1073741824;
    assert Pow2(40) == 1099511627776;
    assert Pow2(51) == 2251799813685248;
  }

  /** Any masked value XOR the constant stays within the mask. */
  lemma MaskBound(t: nat)
    requires t <= MaskCode
    ensures Xor(t, XorCode) <= MaskCode
  {
    MaskIsPow2();
    XorBound(t, XorCode, 51);
  }

  predicate Base58Digits(ds: seq<int>)
  {
    forall i :: 0 <= i < |ds| ==> 0 <= ds[i] < 58
  }

  /** All six id characters are in the alphabet. */
  predicate WellFormedBv(bvid: string)
  {
    |bvid| >= 8 && forall i :: 2 <= i < 8 ==> AlphabetIndex(bvid[i]) >= 0
  }

  function Pow58(n: nat): nat
  {
    if n == 0 then 1 else 58 * Pow58(n - 1)
  }

  lemma {:induction false} FoldRange(ds: seq<int>)
    requires Base58Digits(ds)
    ensures 0 <= Fold(ds) < Pow58(|ds|)
  {
    if ds != [] {
      var p := ds[..|ds| - 1];
      FoldRange(p);
      var f := Fold(p);
      assert f * 58 + ds[|ds| - 1] < (f + 1) * 58;
      assert (f + 1) * 58 <= Pow58(|p|) * 58;
    }
  }

  lemma WellFormedDigits(bvid: string)
    requires WellFormedBv(bvid)
    ensures Base58Digits(BvDigits(bvid))
  {
    forall i | 0 <= i < 6 ensures 0 <= BvDigits(bvid)[i] {
      assert AlphabetIndex(bvid[2 + i]) >= 0;
    }
  }

  /**
    For a well-formed id the accumulator is below `58^6`, itself below the
    mask, so `& MASK_CODE` changes nothing and the result is the folded
    number XOR the constant.
  */
  lemma MaskIsIdentity(bvid: string)
    requires WellFormedBv(bvid)
    ensures 0 <= Fold(BvDigits(bvid)) < Pow58(6) <= MaskCode
    ensures Bv2avOf(bvid) == Xor(Fold(BvDigits(bvid)), XorCode)
  {
    WellFormedDigits(bvid);
    FoldRange(BvDigits(bvid));
    Pow58Six();
    var f := Fold(BvDigits(bvid));
    assert f % (MaskCode + 1) == f;
  }

  lemma Pow58Six()
    ensures Pow58(6) == 38068692544
  {
    assert Pow58(2) == 3364;
    assert Pow58(4) == 11316496;
  }

  /** Base 58 with digits below 58 has one representation. */
  lemma Base58Unique(x: int, d: int, y: int, e: int)
    requires 0 <= x && 0 <= y && 0 <= d < 58 && 0 <= e < 58
    requires x * 58 + d == y * 58 + e
    ensures x == y && d == e
  {
    assert (x - y) * 58 == e - d;
  }

  lemma {:induction false} FoldInjective(ds: seq<int>, es: seq<int>)
    requires |ds| == |es| && Base58Digits(ds) && Base58Digits(es)
    requires Fold(ds) == Fold(es)
    ensures ds == es
  {
    if ds != [] {
      var p, q := ds[..|ds| - 1], es[..|es| - 1];
      FoldRange(p);
      FoldRange(q);
      Base58Unique(Fold(p), ds[|ds| - 1], Fold(q), es[|es| - 1]);
      FoldInjective(p, q);
      assert ds == p + [ds[|ds| - 1]] && es == q + [es[|es| - 1]];
    }
  }

  /** Well-formed ids with the same AV number have the same six id characters. */
  lemma Bv2avInjective(a: string, b: string)
    requires WellFormedBv(a) && WellFormedBv(b)
    requires Bv2avOf(a) == Bv2avOf(b)
    ensures a[2..8] == b[2..8]
  {
    MaskIsIdentity(a);
    MaskIsIdentity(b);
    XorTwice(Fold(BvDigits(a)), XorCode);
    XorTwice(Fold(BvDigits(b)), XorCode);
    WellFormedDigits(a);
    WellFormedDigits(b);
    FoldInjective(BvDigits(a), BvDigits(b));
    forall i | 2 <= i < 8 ensures a[i] == b[i] {
      assert BvDigits(a)[i - 2] == BvDigits(b)[i - 2];
      assert Alphabet[AlphabetIndex(a[i])] == a[i];
    }
  }
}
