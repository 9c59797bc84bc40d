/**
  `renderBangumiContent`: a season's cover, escaped title, status line,
  counters and escaped description.
*/
module BangumiCard {
  import opened Wrappers
  import opened Text
  import opened Js
  import opened Formatters
  import opened BiliData
  import opened Media

  /** Movies and documentaries: by season type, by style tag or by the type text. */
  predicate IsMovieOrDoc(s: Season)
  {
    var styles := if s.styles.Some? then s.styles.value else [];
    var typeDesc := Or(s.typeDesc, "");
    s.seasonType == Some(2) || s.seasonType == Some(3)
    || "电影" in styles || "纪录片" in styles
    || Contains(typeDesc, "电影") || Contains(typeDesc, "纪录")
  }

  /** `.replace(/,\s*\/g, ' ')`: each comma and the white space after it become one space. */
  function CollapseCommas(s: string): (r: string)
    decreases |s|
  {
    if s == [] then ""
    else if s[0] == ',' then " " + CollapseCommas(TrimStart(s[1..]))
    else [s[0]] + CollapseCommas(s[1..])
  }

  /** No comma survives. */
  lemma {:induction false} CollapseCommasFree(s: string)
    ensures Free(CollapseCommas(s), ',')
    decreases |s|
  {
    if s != [] {
      if s[0] == ',' {
        CollapseCommasFree(TrimStart(s[1..]));
      } else {
        CollapseCommasFree(s[1..]);
      }
    }
  }

  /** Text without commas is left as it is. */
  lemma {:induction false} CollapseCommasIdentity(s: string)
    requires Free(s, ',')
    ensures CollapseCommas(s) == s
  {
    if s != [] {
      CollapseCommasIdentity(s[1..]);
    }
  }

  /** Each comma, with the white space after it, becomes exactly one space. */
  lemma {:induction false} CollapseCommasStep(a: string, gap: string, b: string)
    requires Free(a, ',')
    requires forall i :: 0 <= i < |gap| ==> IsJsSpace(gap[i])
    requires b == [] || !IsJsSpace(b[0])
    ensures CollapseCommas(a + "," + gap + b) == a + " " + CollapseCommas(b)
    decreases |a|
  {
    var s := a + "," + gap + b;
    if a == [] {
      assert s == "," + (gap + b);
      assert s[0] == ',' && s[1..] == gap + b;
      TrimStartSpaces(gap, b);
      assert CollapseCommas(s) == " " + CollapseCommas(b);
      assert a + " " + CollapseCommas(b) == " " + CollapseCommas(b);
    } else {
      assert s[0] == a[0] && a[0] != ',';
      assert s[1..] == a[1..] + "," + gap + b;
      CollapseCommasStep(a[1..], gap, b);
      assert CollapseCommas(s) == [a[0]] + (a[1..] + " " + CollapseCommas(b));
      assert [a[0]] + (a[1..] + " " + CollapseCommas(b)) == a + " " + CollapseCommas(b);
    }
  }

  lemma {:induction false} TrimStartSpaces(gap: string, b: string)
    requires forall i :: 0 <= i < |gap| ==> IsJsSpace(gap[i])
    requires b == [] || !IsJsSpace(b[0])
    ensures TrimStart(gap + b) == b
  {
    if gap != [] {
      assert (gap + b)[1..] == gap[1..] + b;
      TrimStartSpaces(gap[1..], b);
    } else {
      assert gap + b == b;
    }
  }

  /** Area names joined by '/', then style tags joined by '/', one space between when both exist. */
  function MetaSuffix(s: Season): (r: string)
    ensures var a := AreaText(s);
            var t := StylesText(s);
            (a != "" && t != "" ==> r == Trim(a + " " + t))
            && (a == "" ==> r == Trim(t))
            && (t == "" ==> r == Trim(a))
  {
    var a := AreaText(s);
    var t := StylesText(s);
    if t == "" then Trim(a) else if a == "" then Trim(t) else Trim(a + " " + t)
  }

  /** `areas.map(a => a.name).join('/')`; a missing name joins as the empty string. */
  function AreaText(s: Season): string
  {
    var areas := if s.areas.Some? then s.areas.value else [];
    Join(seq(|areas|, i requires 0 <= i < |areas| => areas[i].GetOr("")), "/")
  }

  function StylesText(s: Season): string
  {
    Join(if s.styles.Some? then s.styles.value else [], "/")
  }

  function ReleaseDate(s: Season): string
  {
    if s.publish.Some? then Or(s.publish.value.releaseDateShow, "未知") else "未知"
  }

  predicate IsFinished(s: Season)
  {
    s.publish.Some? && s.publish.value.isFinish == Some(1)
  }

  function NewEpOf(s: Season): NewEp { s.newEp.GetOr(NewEp(None, None, None, None)) }

  /** The episode counter: `更新至第N集` only when the episode title starts with a number. */
  function EpUpdateText(s: Season): (r: string)
    ensures var title := FirstString([NewEpOf(s).title, NewEpOf(s).indexShow], "");
            (r != "" <==> ParseInt(title).Some?)
            && (ParseInt(title).Some? ==> r == "更新至第" + IntToString(ParseInt(title).value) + "集")
  {
    var title := FirstString([NewEpOf(s).title, NewEpOf(s).indexShow], "");
    if title != "" && ParseInt(title).Some? then "更新至第" + IntToString(ParseInt(title).value) + "集" else ""
  }

  /** `info.publish?.pub_time || ''`. */
  function PubTime(s: Season): string
  {
    if s.publish.Some? then Or(s.publish.value.pubTime, "") else ""
  }

  /** `days[date.getDay()]`. */
  const Weekdays: seq<string> := ["日", "一", "二", "三", "四", "五", "六"]

  /** What reading `.substring` of `undefined` throws. */
  const TypeError: string := "TypeError"

  /**
    The weekly schedule of an ongoing season. `weekday` is what `getDay()`
    gives for the publish time with its first space turned into a 'T', and
    `None` when the host's date parser rejects it; parsing and the time zone
    belong to the host. The time is the piece after the first space, cut to
    five UTF-16 units: a publish time that the parser accepts but that has
    no space has no such piece, and the `substring` call throws.
  */
  function Schedule(s: Season, weekday: Option<nat>): (r: Result<string>)
    requires weekday.Some? ==> weekday.value < |Weekdays|
    ensures PubTime(s) == "" || weekday.None? ==> r == Success("")
    ensures PubTime(s) != "" && weekday.Some? ==> (r.Failure? <==> Free(PubTime(s), ' '))
    ensures r.Failure? ==> r.error == TypeError
    ensures r.Success? && r.value != "" ==>
              weekday.Some? && |Split(PubTime(s), ' ')| >= 2
              && r.value == "每周" + Weekdays[weekday.value] + " " + Utf16Prefix(Split(PubTime(s), ' ')[1], 5) + "更新"
  {
    var pubTime := PubTime(s);
    SplitSingle(pubTime, ' ');
    if pubTime == "" || weekday.None? then Success("")
    else
      var parts := Split(pubTime, ' ');
      if |parts| < 2 then Failure(TypeError)
      else Success("每周" + Weekdays[weekday.value] + " " + Utf16Prefix(parts[1], 5) + "更新")
  }

  /** A publish time 'date time' shows the first five units of its time. */
  lemma ScheduleTime(s: Season, weekday: nat, date: string, time: string)
    requires weekday < |Weekdays| && Free(date, ' ') && Free(time, ' ')
    requires PubTime(s) == date + " " + time
    ensures Schedule(s, Some(weekday)) == Success("每周" + Weekdays[weekday] + " " + Utf16Prefix(time, 5) + "更新")
  {
    SplitCons(date, ' ', time);
    SplitFree(time, ' ');
    assert date + " " + time == date + [' '] + time;
  }

  /**
    The status line. A finished season shows its release date, and a
    series its comma-collapsed episode description; an ongoing one first
    works out its schedule, which can throw even for a movie, and then
    shows '连载中', the episode counter and the schedule.
  */
  function StatusText(s: Season, weekday: Option<nat>): (r: Result<string>)
    requires weekday.Some? ==> weekday.value < |Weekdays|
    ensures IsFinished(s) ==> r.Success?
    ensures !IsFinished(s) ==> (r.Failure? <==> Schedule(s, weekday).Failure?) && (r.Failure? ==> r == Schedule(s, weekday))
    ensures r.Success? && IsMovieOrDoc(s) ==> r.value == ReleaseDate(s) + "开播"
    ensures r.Success? && !IsMovieOrDoc(s) && IsFinished(s) ==>
              r.value == ReleaseDate(s) + "开播 " + CollapseCommas(Or(NewEpOf(s).desc, ""))
    ensures r.Success? && !IsMovieOrDoc(s) && !IsFinished(s) ==>
              var schedule := Schedule(s, weekday).value;
              r.value == ReleaseDate(s) + "开播 连载中"
                         + (if EpUpdateText(s) != "" then " " + EpUpdateText(s) else "")
                         + (if schedule != "" then " " + schedule else "")
  {
    if IsFinished(s) then
      if IsMovieOrDoc(s) then Success(ReleaseDate(s) + "开播")
      else Success(ReleaseDate(s) + "开播 " + CollapseCommas(Or(NewEpOf(s).desc, "")))
    else
      match Schedule(s, weekday)
      case Failure(e) => Failure(e)
      case Success(schedule) =>
        if IsMovieOrDoc(s) then Success(ReleaseDate(s) + "开播")
        else
          Success(ReleaseDate(s) + "开播 连载中"
                  + (if EpUpdateText(s) != "" then " " + EpUpdateText(s) else "")
                  + (if schedule != "" then " " + schedule else ""))
  }

  /** `info.rating?.score || 'N/A'`: a missing or zero score shows 'N/A'. */
  function RatingText(s: Season): (r: string)
    ensures ScalarTruthy(s.ratingScore) ==> r == ScalarText(s.ratingScore.value)
    ensures !ScalarTruthy(s.ratingScore) ==> r == "N/A"
  {
    if ScalarTruthy(s.ratingScore) then ScalarText(s.ratingScore.value) else "N/A"
  }

  /** The icon markup comes from a module this model does not include. */
  const HeartIcon: string := "<i class=\"icon-heart\"></i>"
  const StarIcon: string := "<i class=\"icon-star\"></i>"

  /** `renderBangumiContent`; `info` is `data.data`. It throws exactly when the status line does. */
  function RenderBangumiContent(info: Season, weekday: Option<nat>): (r: Result<string>)
    requires weekday.Some? ==> weekday.value < |Weekdays|
    ensures r.Failure? <==> StatusText(info, weekday).Failure?
  {
    match StatusText(info, weekday)
    case Failure(e) => Failure(e)
    case Success(status) =>
      var meta := MetaSuffix(info);
      var stat := info.stat.GetOr(BangumiStat(None, None, None));
      Success(
        "<div class=\"cover-container\"><img class=\"cover bangumi\" src=\"" + Shown(info.cover) + "\" /></div>"
        + "<div class=\"content\"><div class=\"title\">" + EscapeHtml(info.title) + "</div>"
        + "<div class=\"status-line\"><span class=\"status-prefix\">" + status + "</span>"
        + (if meta != "" then "<span class=\"status-meta\">" + meta + "</span>" else "") + "</div>"
        + "<div class=\"stats\"><span class=\"stat-item\">" + ViewIcon + " " + FormatNumber(stat.views)
        + "</span><span class=\"stat-item\">" + HeartIcon + " " + FormatNumber(stat.follow)
        + "</span><span class=\"stat-item\">" + CommentIcon + " " + FormatNumber(stat.danmakus)
        + "</span><span class=\"stat-item\">" + StarIcon + " " + RatingText(info) + "分</span></div>"
        + "<div class=\"text-content\">" + EscapeHtml(Some(Or(info.desc, ""))) + "</div></div>")
  }

  /** An episode title that starts with a number gives that number as the counter. */
  lemma EpisodeCounter(s: Season, n: nat, rest: string)
    requires NewEpOf(s).title == Some(NatToString(n) + rest)
    requires rest == [] || !IsDigit(rest[0])
    ensures EpUpdateText(s) == "更新至第" + NatToString(n) + "集"
  {
    ParseIntNat(n, rest);
    FirstStringUnfold([NewEpOf(s).title, NewEpOf(s).indexShow], "");
  }
}
