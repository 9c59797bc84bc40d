/**
  `renderMediaHtml`: the pictures of a post, or else its video or live card.
*/
module Media {
  import opened Wrappers
  import opened Text
  import opened Js
  import opened Formatters
  import opened BiliData

  /**
    The card under a post without pictures: an attached video (the archive
    object itself) or a live recommendation built by the post renderer.
  */
  datatype VideoCard =
    | ArchiveCard(archive: Archive)
    | LiveCard(cover: Option<string>, title: Option<string>, liveBadge: string, area: string, watched: string)

  function SingleImage(src: string, isOrig: bool): string
  {
    var style := if isOrig then "width: 100%; height: auto; object-fit: contain; max-height: 1000px; margin-top: 10px;"
                 else "width: 100%; height: auto; margin-top: 20px;";
    var cls := if isOrig then "single-image" else "dynamic-image";
    "<img class=\"" + cls + "\" src=\"" + src + "\" style=\"" + style + "\">"
  }

  function GridImage(src: string, isOrig: bool): string
  {
    "<img src=\"" + src + "\" style=\"width: 100%; height: 100%; object-fit: cover; aspect-ratio: 1/1; "
    + (if !isOrig then "margin-top: 10px;" else "") + "\">"
  }

  /** One grid `<img>` per URL, in order. */
  function GridImages(images: seq<string>, isOrig: bool): string
  {
    if images == [] then "" else GridImage(images[0], isOrig) + GridImages(images[1..], isOrig)
  }

  lemma {:induction false} GridImagesAppend(a: seq<string>, b: seq<string>, isOrig: bool)
    ensures GridImages(a + b, isOrig) == GridImages(a, isOrig) + GridImages(b, isOrig)
  {
    if a == [] {
      assert a + b == b;
    } else {
      assert (a + b)[1..] == a[1..] + b;
      GridImagesAppend(a[1..], b, isOrig);
    }
  }

  /** The two numbers under a video: raw for a post, through `formatNumber` for a repost. */
  datatype ArchiveStats = ArchiveStats(play: string, danmaku: string)

  function ScalarOrEmpty(o: Option<Scalar>): (r: string)
    ensures r != "" <==> ScalarTruthy(o)
  {
    if ScalarTruthy(o) then ScalarText(o.value) else ""
  }

  /** `videoCard.stat?.x` reads a missing field when there is no stat object. */
  function StatOf(a: Archive): ArchiveStat { a.stat.GetOr(ArchiveStat(None, None, None)) }

  function StatsOf(a: Archive, isOrig: bool): (r: ArchiveStats)
    ensures isOrig ==> r.play != "" && r.danmaku != ""
    ensures isOrig ==> r.play == FormatNumber(if ScalarTruthy(StatOf(a).play) then StatOf(a).play else StatOf(a).view)
                       && r.danmaku == FormatNumber(StatOf(a).danmaku)
    ensures !isOrig ==> r.play == ScalarOrEmpty(StatOf(a).play) && r.danmaku == ScalarOrEmpty(StatOf(a).danmaku)
    ensures !isOrig ==> (r.play != "" <==> a.stat.Some? && ScalarTruthy(a.stat.value.play))
    ensures !isOrig ==> (r.danmaku != "" <==> a.stat.Some? && ScalarTruthy(a.stat.value.danmaku))
  {
    var stat := StatOf(a);
    if isOrig then
      ArchiveStats(FormatNumber(if ScalarTruthy(stat.play) then stat.play else stat.view), FormatNumber(stat.danmaku))
    else
      ArchiveStats(ScalarOrEmpty(stat.play), ScalarOrEmpty(stat.danmaku))
  }

  const CoverStyle: string := "width: 100%; aspect-ratio:16/9; object-fit: cover; max-height: 800px;"

  /** The duration badge, shown only when the video has a duration text. */
  function DurationBadge(a: Archive): (r: string)
    ensures r == "" <==> !Present(a.durationText)
  {
    if Present(a.durationText) then "<span class=\"duration-badge\">" + a.durationText.value + "</span>" else ""
  }

  /** The stats row: shown only when one of the two numbers is non-empty. */
  function StatsRow(st: ArchiveStats): (r: string)
    ensures r == "" <==> st.play == "" && st.danmaku == ""
  {
    if st.play != "" || st.danmaku != "" then
      "<div class=\"stat-inline-container\">"
      + (if st.play != "" then "<span class=\"stat-inline\">" + ViewIcon + " " + st.play + "</span>" else "")
      + (if st.danmaku != "" then "<span class=\"stat-inline\">" + CommentIcon + " " + st.danmaku + "</span>" else "")
      + "</div>"
    else ""
  }

  /** The icon markup comes from a module this model does not include. */
  const ViewIcon: string := "<i class=\"icon-view\"></i>"
  const CommentIcon: string := "<i class=\"icon-comment\"></i>"

  function ArchiveHtml(a: Archive, isOrig: bool): string
  {
    "<div class=\"video-card-inline\"><div class=\"cover-container\"><img src=\"" + Shown(a.cover)
    + "\" style=\"" + CoverStyle + "\">" + DurationBadge(a)
    + "</div><div class=\"video-card-content\"><div class=\"video-card-title\">" + Shown(a.title) + "</div>"
    + StatsRow(StatsOf(a, isOrig)) + "</div></div>"
  }

  function LiveHtml(cover: Option<string>, title: Option<string>, liveBadge: string, area: string, watched: string): string
  {
    "<div style=\"margin-top:20px; border:1px solid #eee; border-radius:8px; overflow:hidden;\">"
    + "<div class=\"cover-container\"><img src=\"" + Shown(cover) + "\" style=\"" + CoverStyle + "\">"
    + (if liveBadge != "" then "<div style=\"position:absolute; top:10px; right:10px;\">" + liveBadge + "</div>" else "")
    + "</div><div style=\"padding:15px; background:#f9f9f9;\">"
    + "<div style=\"font-weight:bold; font-size:18px; margin-bottom:8px;\">" + Shown(title) + "</div>"
    + "<div style=\"color:#666; font-size:14px; display:flex; gap:15px;\"><span>" + area + "</span><span>"
    + watched + "</span></div></div></div>"
  }

  /** More than one picture: a grid with one `<img>` per URL. */
  function GridHtml(images: seq<string>, isOrig: bool): string
  {
    "<div class=\"images-grid\" " + (if isOrig then "style=\"margin-top:10px;\"" else "") + ">"
    + GridImages(images, isOrig) + "</div>"
  }

  /** The card, or nothing without one. */
  function CardHtml(card: Option<VideoCard>, isOrig: bool): string
  {
    match card
    case None => ""
    case Some(ArchiveCard(a)) => ArchiveHtml(a, isOrig)
    case Some(LiveCard(cover, title, badge, area, watched)) => LiveHtml(cover, title, badge, area, watched)
  }

  /** `renderMediaHtml(images, videoCard, isOrig)`. */
  function RenderMediaHtml(images: seq<string>, card: Option<VideoCard>, isOrig: bool): (r: string)
    ensures |images| == 1 ==> r == SingleImage(images[0], isOrig)
    ensures |images| > 1 ==> r == GridHtml(images, isOrig)
    ensures images == [] ==> r == CardHtml(card, isOrig)
    ensures images == [] && card.None? ==> r == ""
  {
    if |images| == 1 then SingleImage(images[0], isOrig)
    else if |images| > 1 then GridHtml(images, isOrig)
    else CardHtml(card, isOrig)
  }

  /** Pictures take precedence over any card. */
  lemma ImagesBeforeCard(images: seq<string>, c1: Option<VideoCard>, c2: Option<VideoCard>, isOrig: bool)
    requires images != []
    ensures RenderMediaHtml(images, c1, isOrig) == RenderMediaHtml(images, c2, isOrig)
  {
  }

  /** A repost's video always shows its stats row; a post's only when it has a number. */
  lemma StatsRowShown(a: Archive, isOrig: bool)
    ensures StatsRow(StatsOf(a, isOrig)) != "" <==>
              isOrig || (a.stat.Some? && (ScalarTruthy(a.stat.value.play) || ScalarTruthy(a.stat.value.danmaku)))
  {
  }
}
