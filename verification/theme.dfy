/**
  Card theming: the night-mode window, the viewport and type tables, and the
  colour scheme (gradient colour list, percent stops, badge colours, hex
  brightness adjustment and `rgba()` conversion).
*/
module Theme {
  import opened Wrappers
  import opened Text
  import opened Js
  import opened Formatters
  import opened BiliData
  import opened Arith

  // ------------------------------------------------------------ isNightMode

  /** A group's `nightMode` setting: `mode` is 'on', 'off' or anything else for timed. */
  datatype NightMode = NightMode(mode: Option<string>, startTime: Option<string>, endTime: Option<string>)

  /** `"H:M".split(':').map(Number)` folded to minutes of the day; `None` is `NaN`. */
  function ClockMinutes(t: string): Option<int>
  {
    var parts := Split(t, ':');
    var h := StringToNumber(parts[0]);
    var m := if |parts| >= 2 then StringToNumber(parts[1]) else None;
    if h.Some? && m.Some? then Some(h.value * 60 + m.value) else None
  }

  /** `a >= b` and `a < b` where `None` is `NaN` (every comparison with it is false). */
  predicate AtLeast(a: int, b: Option<int>) { b.Some? && a >= b.value }
  predicate Below(a: int, b: Option<int>) { b.Some? && a < b.value }

  /** The timed-mode test for the current minute of the day. */
  predicate InWindow(cur: int, start: Option<int>, end: Option<int>)
  {
    if start.Some? && Below(start.value, end) then AtLeast(cur, start) && Below(cur, end)
    else AtLeast(cur, start) || Below(cur, end)
  }

  /**
    `isNightMode`, with the current Asia/Shanghai minute of the day `cur` as a
    parameter. `None` means the call throws: a timed setting without a start
    or end time.
  */
  function IsNightMode(nm: Option<NightMode>, cur: int): (r: Option<bool>)
    ensures nm.None? ==> r == Some(false)
    ensures nm.Some? && nm.value.mode == Some("on") ==> r == Some(true)
    ensures nm.Some? && nm.value.mode == Some("off") ==> r == Some(false)
    ensures nm.Some? && nm.value.mode != Some("on") && nm.value.mode != Some("off") ==>
              (r.None? <==> nm.value.startTime.None? || nm.value.endTime.None?)
  {
    if nm.None? then Some(false)
    else if nm.value.mode == Some("on") then Some(true)
    else if nm.value.mode == Some("off") then Some(false)
    else if nm.value.startTime.None? || nm.value.endTime.None? then None
    else Some(InWindow(cur, ClockMinutes(nm.value.startTime.value), ClockMinutes(nm.value.endTime.value)))
  }

  /** "HH:MM" for an hour and minute below 100. */
  function ClockText(h: nat, m: nat): string
    requires h < 100 && m < 100
  {
    PadStart2(NatToString(h)) + ":" + PadStart2(NatToString(m))
  }

  lemma DigitsNumber(s: string)
    requires AllDigits(s) && s != ""
    ensures StringToNumber(s) == Some(DecimalValue(s))
  {
    TrimNoSpace(s);
  }

  /** Reading "HH:MM" gives the minute of the day. */
  lemma ClockTextMinutes(h: nat, m: nat)
    requires h < 100 && m < 100
    ensures ClockMinutes(ClockText(h, m)) == Some(h * 60 + m)
  {
    PaddedValue(h);
    PaddedValue(m);
    ClockFields(PadStart2(NatToString(h)), PadStart2(NatToString(m)), h, m);
  }

  /** Two digit fields around a colon read as hours and minutes. */
  lemma ClockFields(hh: string, mm: string, h: nat, m: nat)
    requires hh != "" && AllDigits(hh) && DecimalValue(hh) == h
    requires mm != "" && AllDigits(mm) && DecimalValue(mm) == m
    ensures ClockMinutes(hh + ":" + mm) == Some(h * 60 + m)
  {
    DigitsFree(hh);
    DigitsFree(mm);
    SplitClock2(hh, mm);
    DigitsNumber(hh);
    DigitsNumber(mm);
    MinutesOfFields(hh + ":" + mm, hh, mm);
  }

  lemma MinutesOfFields(t: string, hh: string, mm: string)
    requires Split(t, ':') == [hh, mm]
    requires StringToNumber(hh).Some? && StringToNumber(mm).Some?
    ensures ClockMinutes(t) == Some(StringToNumber(hh).value * 60 + StringToNumber(mm).value)
  {
  }

  /**
    Timed mode with well-formed times: a window with start before end is
    [start, end); otherwise it crosses midnight, and equal times mean always.
  */
  lemma TimedNightMode(mode: Option<string>, sh: nat, sm: nat, eh: nat, em: nat, cur: int)
    requires mode != Some("on") && mode != Some("off")
    requires sh < 100 && sm < 100 && eh < 100 && em < 100
    ensures var s, e := sh * 60 + sm, eh * 60 + em;
      IsNightMode(Some(NightMode(mode, Some(ClockText(sh, sm)), Some(ClockText(eh, em)))), cur)
      == Some(if s < e then s <= cur < e else cur >= s || cur < e)
  {
    ClockTextMinutes(sh, sm);
    ClockTextMinutes(eh, em);
  }

  /**
    The two windows between the same distinct times partition the day:
    swapping start and end gives the complement, and equal times cover all.
  */
  lemma NightWindowComplement(cur: int, s: int, e: int)
    ensures s == e ==> InWindow(cur, Some(s), Some(e))
    ensures s != e ==> InWindow(cur, Some(s), Some(e)) == !InWindow(cur, Some(e), Some(s))
  {
  }

  // ------------------------------------------------------------ calculateViewport

  /** The page viewport; the scale factor 1.1 is kept in tenths. */
  datatype Viewport = Viewport(width: int, height: int, scaleTenths: int, minWidth: int)

  /** The modules `calculateViewport` reads: the item's, else the envelope's, else none. */
  function ViewportModules(data: Option<Post>): Modules
  {
    if data.Some? && data.value.item.Some? && data.value.item.value.modules.Some? then data.value.item.value.modules.value
    else if data.Some? && data.value.modules.Some? then data.value.modules.value
    else NoModules
  }

  predicate NonEmptyList<T>(o: Option<seq<T>>) { o.Some? && |o.value| > 0 }

  /** A dynamic card is wide when it has pictures, a video or live card, or a repost. */
  predicate DynamicWide(data: Option<Post>)
  {
    var major := GetMajor(GetDynamic(ViewportModules(data)));
    var hasImages := (major.draw.Some? && NonEmptyList(major.draw.value.items))
                     || (major.opus.Some? && NonEmptyList(major.opus.value.pics));
    var hasVideo := major.archive.Some? || major.liveRcmd.Some?;
    var hasOrig := data.Some? && ((data.value.item.Some? && data.value.item.value.orig.Some?) || data.value.orig.Some?);
    hasImages || hasVideo || hasOrig
  }

  /** `calculateViewport` for a card type and its `data.data`. */
  function CalculateViewport(kind: string, data: Option<Post>): (v: Viewport)
    ensures v.height == 1200 && v.minWidth == 400 && v.scaleTenths == 11
    ensures v.minWidth <= v.width <= 1200
    ensures kind == "dynamic" ==> v.width == (if DynamicWide(data) then 1100 else 800)
    ensures kind == "video" || kind == "live" ==> v.width == 1000
    ensures kind == "bangumi" ==> v.width == 950
    ensures kind == "article" ==> v.width == 1080
    ensures kind == "user" ==> v.width == 900
    ensures kind !in {"dynamic", "video", "live", "bangumi", "article", "user"} ==> v.width == 1200
  {
    var width :=
      if kind == "dynamic" then (if DynamicWide(data) then 1100 else 800)
      else if kind == "video" || kind == "live" then 1000
      else if kind == "bangumi" then 950
      else if kind == "article" then 1080
      else if kind == "user" then 900
      else 1200;
    Viewport(width, 1200, 11, 400)
  }

  // ------------------------------------------------------------ getTypeConfig

  datatype TypeConfig = TypeConfig(caption: string, color: string, icon: string)

  /** The type table with its default entry. */
  function BaseTypeConfig(kind: string): TypeConfig
  {
    if kind == "video" then TypeConfig("视频", "#FB7299", "▶️")
    else if kind == "bangumi" then TypeConfig("番剧", "#00A1D6", "🎬")
    else if kind == "article" then TypeConfig("专栏", "#FAA023", "📰")
    else if kind == "live" then TypeConfig("直播", "#FF6699", "📡")
    else if kind == "dynamic" then TypeConfig("动态", "#00B5E5", "📱")
    else if kind == "user" then TypeConfig("用户", "#FB7299", "👤")
    else TypeConfig("Bilibili", "#FB7299", "")
  }

  /** The season types that override the bangumi entry. */
  function SeasonTypeConfig(st: int): Option<TypeConfig>
  {
    if st == 2 then Some(TypeConfig("电影", "#FE5050", "🎬"))
    else if st == 3 then Some(TypeConfig("纪录片", "#00B5E5", "📽️"))
    else if st == 4 then Some(TypeConfig("国创", "#00B5E5", "🇨🇳"))
    else if st == 5 then Some(TypeConfig("电视剧", "#FE5050", "📺"))
    else if st == 7 then Some(TypeConfig("综艺", "#FE5050", "🎤"))
    else None
  }

  /**
    `getTypeConfig`; `seasonType` is `data.data.season_type` (`None` when
    `data.data` or the field is missing).
  */
  function GetTypeConfig(kind: string, seasonType: Option<int>): (t: TypeConfig)
    ensures IsHex(Some(t.color))
    ensures (kind != "bangumi" || seasonType.None? || SeasonTypeConfig(seasonType.value).None?)
              ==> t == BaseTypeConfig(kind)
    ensures (kind == "bangumi" && seasonType.Some? && SeasonTypeConfig(seasonType.value).Some?)
              ==> t == SeasonTypeConfig(seasonType.value).value
    ensures kind !in {"video", "bangumi", "article", "live", "dynamic", "user"} ==> t.caption == "Bilibili"
  {
    if kind == "bangumi" && seasonType.Some? && SeasonTypeConfig(seasonType.value).Some?
    then SeasonTypeConfig(seasonType.value).value
    else BaseTypeConfig(kind)
  }

  // ------------------------------------------------------------ hex channels

  function HexValue(c: char): (v: nat)
    requires IsHexDigit(c)
    ensures v < 16
  {
    if '0' <= c <= '9' then c as int - '0' as int
    else if 'a' <= c <= 'f' then c as int - 'a' as int + 10
    else c as int - 'A' as int + 10
  }

  /** The lower-case hex digit of a value below 16 (`toString(16)`). */
  function HexDigit(d: nat): (c: char)
    requires d < 16
    ensures IsHexDigit(c) && AsciiLower(c) == c && HexValue(c) == d
  {
    if d < 10 then (d + '0' as int) as char else (d - 10 + 'a' as int) as char
  }

  lemma HexDigitValue(c: char)
    requires IsHexDigit(c)
    ensures HexDigit(HexValue(c)) == AsciiLower(c)
  {
  }

  /** `parseInt(hex.substring(k, k + 2), 16)` after the leading '#' is removed. */
  function Channel(hex: string, k: nat): (v: nat)
    requires IsHex(Some(hex)) && k <= 4
    ensures v < 256
  {
    16 * HexValue(hex[k + 1]) + HexValue(hex[k + 2])
  }

  /** Two lower-case hex digits (`toString(16).padStart(2, '0')`). */
  function HexByte(v: nat): (s: string)
    requires v < 256
    ensures |s| == 2 && IsHexDigit(s[0]) && IsHexDigit(s[1])
    ensures 16 * HexValue(s[0]) + HexValue(s[1]) == v
  {
    [HexDigit(v / 16), HexDigit(v % 16)]
  }

  /**
    One channel of `adjustBrightness`: `v + v * p / 100` clamped to [0, 255]
    and rounded half up.
  */
  function Scale(v: nat, p: int): (c: nat)
    ensures c <= 255
    ensures v * (100 + p) <= 0 ==> c == 0
    ensures v * (100 + p) >= 25500 ==> c == 255
    ensures 0 <= v * (100 + p) <= 25500 ==> 100 * c - 50 <= v * (100 + p) < 100 * c + 50
  {
    var n := v * (100 + p);
    if n <= 0 then 0 else if n >= 25500 then 255 else (n + 50) / 100
  }

  /** `adjustBrightness` of a valid `#rrggbb` colour by `p` percent. */
  function AdjustBrightness(hex: string, p: int): (r: string)
    requires IsHex(Some(hex))
    ensures IsHex(Some(r)) && Lower(r) == r
    ensures forall k :: k in {0, 2, 4} ==> Channel(r, k) == Scale(Channel(hex, k), p)
  {
    var r := "#" + HexByte(Scale(Channel(hex, 0), p)) + HexByte(Scale(Channel(hex, 2), p))
                 + HexByte(Scale(Channel(hex, 4), p));
    assert forall i :: 0 <= i < 7 ==> AsciiLower(r[i]) == r[i];
    r
  }

  lemma HexByteOfChannel(hex: string, k: nat)
    requires IsHex(Some(hex)) && k <= 4
    ensures HexByte(Channel(hex, k)) == [AsciiLower(hex[k + 1]), AsciiLower(hex[k + 2])]
  {
    var a, b := HexValue(hex[k + 1]), HexValue(hex[k + 2]);
    assert (16 * a + b) / 16 == a && (16 * a + b) % 16 == b;
    HexDigitValue(hex[k + 1]);
    HexDigitValue(hex[k + 2]);
  }

  lemma ScaleZero(v: nat)
    requires v < 256
    ensures Scale(v, 0) == v
  {
  }

  /** Adjusting by 0% only lower-cases the colour. */
  lemma AdjustBrightnessZero(hex: string)
    requires IsHex(Some(hex))
    ensures AdjustBrightness(hex, 0) == Lower(hex)
  {
    ScaleZero(Channel(hex, 0));
    ScaleZero(Channel(hex, 2));
    ScaleZero(Channel(hex, 4));
    LowerIsBytes(hex);
  }

  /** A valid colour, lower-cased, is '#' and the two-digit spellings of its channels. */
  lemma LowerIsBytes(hex: string)
    requires IsHex(Some(hex))
    ensures Lower(hex) == "#" + HexByte(Channel(hex, 0)) + HexByte(Channel(hex, 2)) + HexByte(Channel(hex, 4))
  {
    HexByteOfChannel(hex, 0);
    HexByteOfChannel(hex, 2);
    HexByteOfChannel(hex, 4);
    var l := Lower(hex);
    assert l == [l[0], l[1], l[2], l[3], l[4], l[5], l[6]];
  }

  /** Darkening never raises a channel; lightening never lowers one. */
  lemma ScaleMonotone(v: nat, p: int)
    requires v < 256
    ensures p <= 0 ==> Scale(v, p) <= v
    ensures p >= 0 ==> Scale(v, p) >= v
  {
    var n := v * (100 + p);
    if p <= 0 {
      assert n <= 100 * v;
    } else {
      assert n >= 100 * v;
    }
  }

  /** Darkening never raises any channel of the colour; lightening never lowers one. */
  lemma AdjustBrightnessDirection(hex: string, p: int)
    requires IsHex(Some(hex))
    ensures p <= 0 ==> forall k :: k in {0, 2, 4} ==> Channel(AdjustBrightness(hex, p), k) <= Channel(hex, k)
    ensures p >= 0 ==> forall k :: k in {0, 2, 4} ==> Channel(AdjustBrightness(hex, p), k) >= Channel(hex, k)
  {
    ScaleMonotone(Channel(hex, 0), p);
    ScaleMonotone(Channel(hex, 2), p);
    ScaleMonotone(Channel(hex, 4), p);
  }

  /** `hexToRgba` of a valid colour; `alpha` is the number's text ("0.4" for 0.40). */
  function HexToRgba(hex: string, alpha: string): string
    requires IsHex(Some(hex))
  {
    "rgba(" + IntToString(Channel(hex, 0)) + ", " + IntToString(Channel(hex, 2)) + ", "
      + IntToString(Channel(hex, 4)) + ", " + alpha + ")"
  }

  lemma ChannelLower(hex: string, k: nat)
    requires IsHex(Some(hex)) && k <= 4
    ensures IsHex(Some(Lower(hex))) && Channel(Lower(hex), k) == Channel(hex, k)
  {
    IsHexLower(hex);
  }

  /** The conversion reads hex digits in either case: lower-casing changes nothing. */
  lemma HexToRgbaCaseInsensitive(hex: string, alpha: string)
    requires IsHex(Some(hex))
    ensures IsHex(Some(Lower(hex))) && HexToRgba(Lower(hex), alpha) == HexToRgba(hex, alpha)
  {
    ChannelLower(hex, 0);
    ChannelLower(hex, 2);
    ChannelLower(hex, 4);
  }

  // ------------------------------------------------------------ calculateColors

  /** `data.data.focus`: accent colours computed upstream. */
  datatype Focus = Focus(cover: Option<string>, avatar: Option<string>)

  /** `data.data` as `calculateColors` reads it: its focus colours, or the same object as a dynamic post. */
  datatype CardData = CardData(focus: Option<Focus>, post: Post)

  const EmptyPost := Post(None, None, None, None, None, None)

  /** The fan colour of a dynamic card: the summary's, else the decoration card's fan colour. */
  function FanColor(info: AuthorInfo, author: ModuleAuthor): Option<string>
  {
    if Present(info.fanColor) then info.fanColor
    else if author.decorationCard.Some? && author.decorationCard.value.fan.Some?
            && Present(author.decorationCard.value.fan.value.color)
    then author.decorationCard.value.fan.value.color
    else None
  }

  /** The colours offered to `addColor`, in call order, for a card type. */
  function FocusCandidates(kind: string, data: Option<CardData>): (cands: seq<Option<string>>)
    ensures |cands| <= 3
  {
    var f := if data.Some? then data.value.focus.GetOr(Focus(None, None)) else Focus(None, None);
    if data.Some? && kind in {"video", "article", "live"} then [f.cover, f.avatar]
    else if data.Some? && kind == "bangumi" then [f.cover]
    else if data.Some? && kind == "user" then [f.avatar]
    else if kind == "dynamic" then
      var item := if data.None? then EmptyPost
                  else if data.value.post.item.Some? then data.value.post.item.value
                  else data.value.post;
      var author := GetAuthor(item.modules.GetOr(NoModules));
      var info := if item.author.Some? then item.author.value
                  else if data.Some? && data.value.post.author.Some? then data.value.post.author.value
                  else NoAuthorInfo;
      [FanColor(info, author), info.cardFocusColor, info.avatarFocusColor]
    else []
  }

  /** The lower-case spellings of a colour list (the `seen` set). */
  function LowerSet(cs: seq<string>): set<string>
  {
    set i | 0 <= i < |cs| :: Lower(cs[i])
  }

  predicate AllHex(cs: seq<string>) { forall i :: 0 <= i < |cs| ==> IsHex(Some(cs[i])) }

  predicate DistinctLower(cs: seq<string>)
  {
    forall i, j :: 0 <= i < j < |cs| ==> Lower(cs[i]) != Lower(cs[j])
  }

  /** One `addColor` call: a valid hex colour not yet seen in any case is appended. */
  function Added(cs: seq<string>, c: Option<string>): seq<string>
  {
    if IsHex(c) && Lower(c.value) !in LowerSet(cs) then cs + [c.value] else cs
  }

  /** `addColor` applied to each candidate in turn, starting from the empty list. */
  function CollectAll(cands: seq<Option<string>>): seq<string>
  {
    if cands == [] then [] else Added(CollectAll(cands[..|cands| - 1]), cands[|cands| - 1])
  }

  lemma LowerSetAppend(cs: seq<string>, c: string)
    ensures LowerSet(cs + [c]) == LowerSet(cs) + {Lower(c)}
  {
    var l := cs + [c];
    assert forall i :: 0 <= i < |cs| ==> l[i] == cs[i];
    assert l[|cs|] == c;
  }

  /** The collected list holds valid colours whose lower-case spellings are all different. */
  lemma {:induction false} CollectAllValid(cands: seq<Option<string>>)
    ensures AllHex(CollectAll(cands)) && DistinctLower(CollectAll(cands))
    ensures |CollectAll(cands)| <= |cands|
  {
    if cands != [] {
      var prev := CollectAll(cands[..|cands| - 1]);
      CollectAllValid(cands[..|cands| - 1]);
      var c := cands[|cands| - 1];
      if IsHex(c) && Lower(c.value) !in LowerSet(prev) {
        var cur := prev + [c.value];
        forall i, j | 0 <= i < j < |cur| ensures Lower(cur[i]) != Lower(cur[j]) {
          if j == |prev| {
            assert Lower(cur[i]) in LowerSet(prev);
          }
        }
      }
    }
  }

  /** Two candidates that are the same valid colour up to letter case. */
  predicate SameHex(a: Option<string>, b: Option<string>)
  {
    IsHex(a) && IsHex(b) && Lower(a.value) == Lower(b.value)
  }

  /** Whether candidate `j` is a valid colour whose spelling no earlier valid candidate shares. */
  predicate FirstSpelling(cands: seq<Option<string>>, j: nat)
    requires j < |cands|
  {
    IsHex(cands[j]) && forall k :: 0 <= k < j ==> !SameHex(cands[k], cands[j])
  }

  /** Reference definition: the valid candidates seen for the first time, in input order. */
  function FirstSpellings(cands: seq<Option<string>>): seq<string>
  {
    if cands == [] then []
    else FirstSpellings(cands[..|cands| - 1])
         + (if FirstSpelling(cands, |cands| - 1) then [cands[|cands| - 1].value] else [])
  }

  /** What the `seen` set holds after the candidates: the spellings of every valid one. */
  lemma {:induction false} CollectAllSeen(cands: seq<Option<string>>)
    ensures forall x :: x in LowerSet(CollectAll(cands)) <==>
              exists k :: 0 <= k < |cands| && IsHex(cands[k]) && Lower(cands[k].value) == x
  {
    if cands != [] {
      var init := cands[..|cands| - 1];
      CollectAllSeen(init);
      var prev := CollectAll(init);
      var c := cands[|cands| - 1];
      assert forall k :: 0 <= k < |init| ==> init[k] == cands[k];
      if IsHex(c) && Lower(c.value) !in LowerSet(prev) {
        LowerSetAppend(prev, c.value);
      }
    }
  }

  /**
    `addColor` keeps exactly the first spelling of each valid colour, in the
    order the candidates come: the list equals the reference definition.
  */
  lemma {:induction false} CollectAllFirstSpellings(cands: seq<Option<string>>)
    ensures CollectAll(cands) == FirstSpellings(cands)
  {
    if cands != [] {
      var init := cands[..|cands| - 1];
      var j := |cands| - 1;
      CollectAllFirstSpellings(init);
      CollectAllSeen(init);
      var c := cands[j];
      assert forall k :: 0 <= k < j ==> init[k] == cands[k];
      if IsHex(c) {
        if Lower(c.value) in LowerSet(CollectAll(init)) {
          var k :| 0 <= k < |init| && IsHex(init[k]) && Lower(init[k].value) == Lower(c.value);
          assert SameHex(cands[k], cands[j]);
          assert !FirstSpelling(cands, j);
        } else {
          assert forall k :: 0 <= k < j ==> !SameHex(cands[k], cands[j]);
        }
      }
    }
  }

  /**
    The gradient colour list: the collected focus colours, padded to three
    with the type colour, a 10% darker and a 12% lighter first colour (each
    through `addColor`, so a duplicate is skipped).
  */
  function GradientColors(cands: seq<Option<string>>, typeColor: string): seq<string>
    requires IsHex(Some(typeColor))
  {
    CollectAllValid(cands);
    var a := CollectAll(cands);
    var b := if |a| == 0 then Added(a, Some(typeColor)) else a;
    assert AllHex(b);
    var c := if |b| == 1 then Added(b, Some(AdjustBrightness(b[0], -10))) else b;
    assert AllHex(c);
    if |c| == 2 then Added(c, Some(AdjustBrightness(c[0], 12))) else c
  }

  lemma AddedValid(cs: seq<string>, c: Option<string>)
    requires AllHex(cs) && DistinctLower(cs)
    ensures AllHex(Added(cs, c)) && DistinctLower(Added(cs, c))
    ensures |cs| <= |Added(cs, c)| <= |cs| + 1
    ensures |cs| > 0 ==> Added(cs, c)[0] == cs[0]
  {
    if IsHex(c) && Lower(c.value) !in LowerSet(cs) {
      var cur := cs + [c.value];
      forall i, j | 0 <= i < j < |cur| ensures Lower(cur[i]) != Lower(cur[j]) {
        if j == |cs| {
          assert Lower(cur[i]) in LowerSet(cs);
        }
      }
    }
  }

  /**
    The gradient list is never empty, holds only valid colours distinct up to
    case, starts with the first collected colour (or the type colour), and is
    the collected list itself once that has three or more colours.
  */
  lemma GradientColorsShape(cands: seq<Option<string>>, typeColor: string)
    requires IsHex(Some(typeColor))
    ensures var g := GradientColors(cands, typeColor);
      1 <= |g| && AllHex(g) && DistinctLower(g)
      && g[0] == (if CollectAll(cands) == [] then typeColor else CollectAll(cands)[0])
      && (|CollectAll(cands)| >= 3 ==> g == CollectAll(cands))
      && (|CollectAll(cands)| < 3 ==> |g| <= 3)
  {
    CollectAllValid(cands);
    var a := CollectAll(cands);
    var b := if |a| == 0 then Added(a, Some(typeColor)) else a;
    AddedValid(a, Some(typeColor));
    if |a| == 0 {
      assert LowerSet(a) == {};
      assert b == [typeColor];
    }
    var c := if |b| == 1 then Added(b, Some(AdjustBrightness(b[0], -10))) else b;
    if |b| == 1 {
      AddedValid(b, Some(AdjustBrightness(b[0], -10)));
    }
    if |c| == 2 {
      AddedValid(c, Some(AdjustBrightness(c[0], 12)));
    }
  }

  /** The colour list being built, with its `seen` set of lower-case spellings. */
  class ColorList {
    var colors: seq<string>
    var seen: set<string>

    ghost predicate Valid()
      reads this
    {
      seen == LowerSet(colors) && AllHex(colors)
    }

    constructor ()
      ensures Valid() && colors == []
    {
      colors := [];
      seen := {};
    }

    /** `addColor`. */
    method AddColor(c: Option<string>)
      requires Valid()
      modifies this
      ensures Valid() && colors == Added(old(colors), c)
    {
      if IsHex(c) && Lower(c.value) !in seen {
        LowerSetAppend(colors, c.value);
        seen := seen + {Lower(c.value)};
        colors := colors + [c.value];
      }
    }
  }

  /** The stop of colour `i` out of `n`: `Math.round(i * 100 / (n - 1))`, or 100 alone. */
  function StopPercent(i: nat, n: nat): (p: int)
    ensures n > 1 ==> 2 * (n - 1) * p <= 200 * i + (n - 1) < 2 * (n - 1) * p + 2 * (n - 1)
    ensures n <= 1 ==> p == 100
  {
    if n > 1 then (200 * i + (n - 1)) / (2 * (n - 1)) else 100
  }

  /** The stops run from 0 to 100 without going down. */
  lemma StopsShape(n: nat)
    requires n > 1
    ensures StopPercent(0, n) == 0 && StopPercent(n - 1, n) == 100
    ensures forall i, j :: 0 <= i <= j < n ==> 0 <= StopPercent(i, n) <= StopPercent(j, n) <= 100
  {
    var d := n - 1;
    DivUnique(d, 2 * d, 0);
    DivUnique(200 * d + d, 2 * d, 100);
    forall i, j | 0 <= i <= j < n ensures StopPercent(i, n) <= StopPercent(j, n)
    {
      var pi, pj := StopPercent(i, n), StopPercent(j, n);
      if pj < pi {
        MulMonotone(2 * d, pj, pi);
      }
    }
    forall i | 0 <= i < n ensures 0 <= StopPercent(i, n) <= 100
    {
      var p := StopPercent(i, n);
      if p < 0 { MulMonotone(2 * d, p, 0); }
      if p > 100 { MulMonotone(2 * d, 100, p); }
    }
  }

  /** `${c} ${pct}%` for every colour, joined into the CSS gradient. */
  function GradientMix(colors: seq<string>): string
  {
    var stops := seq(|colors|, i requires 0 <= i < |colors| =>
                       colors[i] + " " + IntToString(StopPercent(i, |colors|)) + "%");
    GradientOpen + Join(stops, ", ") + ")"
  }

  const NightBadgeBg: string := "#23272D"
  const GradientOpen: string := "linear-gradient(135deg, "
  const NightShadow: string := "0 4px 12px rgba(0, 0, 0, 0.4)"
  const DayShadowOpen: string := "0 8px 24px "
  const DayShadowClose: string := ", var(--shadow-sm)"
  const NightBorder: string := "1px solid rgba(255, 255, 255, 0.1)"

  /**
    The gradient list of `calculateColors`: the candidates go through
    `addColor` one by one, then the list is padded to three colours.
  */
  method CollectGradient(cands: seq<Option<string>>, typeColor: string) returns (colors: seq<string>)
    requires IsHex(Some(typeColor))
    ensures colors == GradientColors(cands, typeColor)
  {
    var list := new ColorList();
    for i := 0 to |cands|
      invariant list.Valid() && list.colors == CollectAll(cands[..i])
    {
      assert cands[..i + 1][..i] == cands[..i];
      list.AddColor(cands[i]);
    }
    assert cands[..|cands|] == cands;
    if |list.colors| == 0 {
      list.AddColor(Some(typeColor));
    }
    if |list.colors| == 1 {
      list.AddColor(Some(AdjustBrightness(list.colors[0], -10)));
    }
    if |list.colors| == 2 {
      list.AddColor(Some(AdjustBrightness(list.colors[0], 12)));
    }
    colors := list.colors;
  }

  /** The colour fields of a card. */
  datatype ColorScheme = ColorScheme(badgeColor: string, themeClass: string, gradientMix: string,
                                     badgeBg: string, badgeTextColor: string, badgeShadow: string,
                                     badgeBorder: string, current: TypeConfig)

  /**
    `calculateColors`: the focus colours go through `addColor` one by one,
    the list is padded, and the badge colours follow day or night.
  */
  method CalculateColors(kind: string, data: Option<CardData>, current: TypeConfig, isNight: bool)
    returns (scheme: ColorScheme)
    requires IsHex(Some(current.color))
    ensures scheme.gradientMix == GradientMix(GradientColors(FocusCandidates(kind, data), current.color))
    ensures scheme.badgeColor == if isNight then AdjustBrightness(current.color, -25) else current.color
    ensures scheme.themeClass == if isNight then "theme-dark" else "theme-light"
    ensures scheme.badgeBg == if isNight then NightBadgeBg
              else GradientOpen + current.color + ", " + AdjustBrightness(current.color, -10) + ")"
    ensures scheme.badgeTextColor == if isNight then scheme.badgeColor else "#fff"
    ensures scheme.badgeShadow == if isNight then NightShadow
              else DayShadowOpen + HexToRgba(current.color, "0.4") + DayShadowClose
    ensures scheme.badgeBorder == if isNight then NightBorder else "none"
    ensures scheme.current == current
  {
    var badgeColor := if isNight then AdjustBrightness(current.color, -25) else current.color;
    var themeClass := if isNight then "theme-dark" else "theme-light";
    var colors := CollectGradient(FocusCandidates(kind, data), current.color);
    var gradientMix := GradientMix(colors);
    var badgeBg := if isNight then NightBadgeBg
                   else GradientOpen + badgeColor + ", " + AdjustBrightness(badgeColor, -10) + ")";
    var badgeTextColor := if isNight then badgeColor else "#fff";
    var badgeShadow := if isNight then NightShadow
                       else DayShadowOpen + HexToRgba(current.color, "0.4") + DayShadowClose;
    var badgeBorder := if isNight then NightBorder else "none";
    scheme := ColorScheme(badgeColor, themeClass, gradientMix, badgeBg, badgeTextColor, badgeShadow,
                          badgeBorder, current);
  }
}
