/**
  `renderUserContent`: a user's avatar, name, badges, counters and, when
  the payload carries one, the latest post.
*/
module UserCard {
  import opened Wrappers
  import opened Text
  import opened Js
  import opened Formatters
  import opened BiliData
  import opened Media

  const NoFace: string := "https://i0.hdslb.com/bfs/face/member/noface.jpg"

  /** The VIP label: its own text, else '大会员' for an active VIP, else nothing. */
  function VipLabel(info: UserInfo): (r: string)
    ensures info.vip.Some? && Present(info.vip.value.labelText) ==> r == info.vip.value.labelText.value
    ensures !(info.vip.Some? && Present(info.vip.value.labelText)) ==>
              (r == "大会员" <==> info.vip.Some? && info.vip.value.status == Some(1))
    ensures !(info.vip.Some? && Present(info.vip.value.labelText)) && !(info.vip.Some? && info.vip.value.status == Some(1)) ==>
              r == ""
  {
    if info.vip.Some? && Present(info.vip.value.labelText) then info.vip.value.labelText.value
    else if info.vip.Some? && info.vip.value.status == Some(1) then "大会员"
    else ""
  }

  /** A follower or following count: 0 when there is no relation object. */
  function RelationCount(info: UserInfo, follower: bool): (r: Option<Scalar>)
    ensures info.relation.None? ==> r == Some(IntVal(0))
    ensures info.relation.Some? ==>
              r == (if follower then info.relation.value.follower else info.relation.value.following)
  {
    match info.relation
    case None => Some(IntVal(0))
    case Some(rel) => if follower then rel.follower else rel.following
  }

  // ------------------------------------------------------------ the latest post

  /** What the latest-post section shows. */
  datatype Recent = Recent(text: Option<string>, images: seq<string>, video: Option<Archive>)

  /** The joined text of rich-text nodes (`nodes.map(n => n.text).join('')`). */
  function NodesText(nodes: seq<RichNode>): string
  {
    if nodes == [] then "" else nodes[0].text + NodesText(nodes[1..])
  }

  /** The opus summary of a post, when its major part has one. */
  function SummaryOf(d: ModuleDynamic): Option<Desc>
  {
    if d.major.Some? && d.major.value.opus.Some? then d.major.value.opus.value.summary else None
  }

  /** The text before any video fallback: desc text, else the opus summary or its nodes. */
  function RecentText(d: Option<ModuleDynamic>): (r: Option<string>)
    ensures d.Some? && d.value.desc.Some? && Present(d.value.desc.value.text) ==> r == d.value.desc.value.text
    ensures d.None? ==> r == Some("")
    ensures d.Some? && !(d.value.desc.Some? && Present(d.value.desc.value.text)) && SummaryOf(d.value).Some? ==>
              (Present(SummaryOf(d.value).value.text) ==> r == SummaryOf(d.value).value.text)
              && (!Present(SummaryOf(d.value).value.text) ==>
                    r == Some(NodesText(SummaryOf(d.value).value.nodes.GetOr([]))))
    ensures d.Some? && !(d.value.desc.Some? && Present(d.value.desc.value.text)) && SummaryOf(d.value).None? ==>
              r == (if d.value.desc.Some? then d.value.desc.value.text else Some(""))
  {
    var first := if d.Some? && d.value.desc.Some? then d.value.desc.value.text else Some("");
    if !Present(first) && d.Some? && d.value.major.Some? then
      var opus := d.value.major.value.opus;
      if opus.Some? && opus.value.summary.Some? then
        var summary := opus.value.summary.value;
        Some(if Present(summary.text) then summary.text.value
             else NodesText(if summary.nodes.Some? then summary.nodes.value else []))
      else first
    else first
  }

  /** The latest post's text and media, in the draw → opus → archive order. */
  function RecentOf(dyn: Post): (r: Recent)
    ensures var d := if dyn.modules.Some? then dyn.modules.value.dynamic else None;
            var major := if d.Some? then d.value.major else None;
            (major.Some? && major.value.draw.Some? && major.value.draw.value.items.Some? ==>
               r.images == major.value.draw.value.items.value && r.video.None?)
            && (r.video.Some? ==> r.images == [] && major.Some? && r.video == major.value.archive)
            && (r.video.Some? && !Present(RecentText(d)) ==> r.text == r.video.value.desc)
            && (r.video.None? ==> r.text == RecentText(d))
  {
    var d := if dyn.modules.Some? then dyn.modules.value.dynamic else None;
    var text := RecentText(d);
    var major := if d.Some? then d.value.major else None;
    if major.None? then Recent(text, [], None)
    else
      var m := major.value;
      if m.draw.Some? && m.draw.value.items.Some? then Recent(text, m.draw.value.items.value, None)
      else if m.opus.Some? && m.opus.value.pics.Some? then Recent(text, m.opus.value.pics.value, None)
      else if m.archive.Some? then
        Recent(if Present(text) then text else m.archive.value.desc, [], m.archive)
      else Recent(text, [], None)
  }

  /** `images.slice(0, 3)`. */
  function Thumbnails(images: seq<string>): (r: seq<string>)
    ensures |r| <= 3 && |r| <= |images| && r == images[..|r|]
    ensures |r| == if |images| < 3 then |images| else 3
  {
    if |images| <= 3 then images else images[..3]
  }

  function ThumbsHtml(images: seq<string>): string
  {
    if images == [] then ""
    else "<img src=\"" + images[0] + "\" style=\"height: 180px; width: 180px; object-fit: cover; border-radius: 8px;\">"
         + ThumbsHtml(images[1..])
  }

  function RecentMediaHtml(r: Recent): string
  {
    if |r.images| > 0 then
      "<div style=\"display: flex; gap: 12px; margin-top: 20px; overflow: hidden; height: 180px;\">"
      + ThumbsHtml(Thumbnails(r.images)) + "</div>"
    else if r.video.Some? then
      "<div style=\"margin-top: 20px; display: flex; gap: 16px; background: var(--color-soft-bg); border-radius: 12px; padding: 12px; align-items: center;\">"
      + "<img src=\"" + Shown(r.video.value.cover) + "\" style=\"height: 90px; width: 144px; object-fit: cover; border-radius: 8px;\">"
      + "<div style=\"flex: 1; font-size: 20px; color: var(--color-text); overflow: hidden; text-overflow: ellipsis; display: -webkit-box; -webkit-line-clamp: 2; -webkit-box-orient: vertical; line-height: 1.4;\">"
      + Shown(r.video.value.title) + "</div></div>"
    else ""
  }

  /** The latest-post section: present only with a post; its text is escaped. */
  function RecentSection(dyn: Option<Post>): (r: string)
    ensures dyn.None? ==> r == ""
  {
    match dyn
    case None => ""
    case Some(p) =>
      var r := RecentOf(p);
      RecentHtml(EscapeHtml(r.text), RecentMediaHtml(r))
  }

  function RecentHtml(escapedText: string, media: string): string
  {
    "<div style=\"margin-top: 35px; border-top: 1px solid var(--color-border); padding-top: 25px; text-align: left;\">"
    + "<div style=\"font-size: 20px; color: var(--color-subtext); margin-bottom: 12px; font-weight: bold;\">最近动态</div>"
    + "<div style=\"font-size: 24px; color: var(--color-text); line-height: 1.6; overflow: hidden; text-overflow: ellipsis; display: -webkit-box; -webkit-line-clamp: 4; -webkit-box-orient: vertical;\">"
    + escapedText + "</div>" + media + "</div>"
  }

  /** The latest post's text is escaped: it holds no markup character. */
  lemma RecentTextEscaped(dyn: Post)
    ensures MarkupFree(EscapeHtml(RecentOf(dyn).text))
  {
    EscapeHtmlMarkupFree(RecentOf(dyn).text);
  }

  // ------------------------------------------------------------ the card

  /** The medal's name and level text: empty name without a medal. */
  function MedalOf(info: UserInfo): (string, string)
  {
    match info.medal
    case None => ("", "0")
    case Some(m) => (if m.medalName.Some? then m.medalName.value else "",
                     if m.level.Some? then IntToString(m.level.value) else "undefined")
  }

  /** The UID line, present only when asked for. */
  function UidLine(info: UserInfo, showId: bool): (r: string)
    ensures r == "" <==> !showId
  {
    if showId then UidOpen + Shown(info.uid) + "</div>" else ""
  }

  const UidOpen: string :=
    "<div style=\"text-align: center; font-size: 16px; color: var(--color-subtext); margin-top: 4px; font-family: monospace;\">UID: "

  function CountCell(value: string, caption: string): string
  {
    "<div style=\"text-align: center;\"><div style=\"font-size: 24px; font-weight: bold; color: var(--color-text); margin-bottom: 4px;\">"
    + value + "</div><div style=\"font-size: 16px; color: var(--color-subtext);\">" + caption + "</div></div>"
  }

  /** `renderUserContent(data, show_id)`; `info` is `data.data`. */
  function RenderUserContent(info: UserInfo, showId: bool): string
  {
    var face := Or(info.face, NoFace);
    var name := Or(info.name, "Unknown");
    var sign := Or(info.sign, "");
    var pendant := Or(info.pendantImage, "");
    var level := OrZero(info.level);
    var vip := VipLabel(info);
    var (medalName, medalLevel) := MedalOf(info);
    "<div class=\"content\"><div class=\"header\" style=\"display: flex; flex-direction: column; align-items: center; text-align: center; margin-bottom: 10px;\">"
    + "<div class=\"avatar-wrapper\" style=\"width: 150px; height: 150px; margin-bottom: 20px; box-sizing: content-box; "
    + (if pendant != "" then "padding-top: 85px;" else "") + "\">"
    + "<img class=\"avatar " + (if pendant != "" then "" else "no-frame") + "\" src=\"" + face
    + "\" style=\"width: 150px; height: 150px; border-width: 4px;\">"
    + (if pendant != "" then "<img class=\"avatar-frame\" src=\"" + pendant + "\" style=\"width: 160%; height: 160%;\">" else "")
    + "</div><div class=\"user-info\" style=\"width: 100%;\">"
    + "<div class=\"user-name\" style=\"font-size: 36px; font-weight: bold; color: var(--color-text); display: flex; align-items: center; justify-content: center; gap: 12px; flex-wrap: wrap;\">"
    + name + " <span class=\"user-level lv" + IntToString(level) + "\">Lv" + IntToString(level) + "</span>"
    + (if vip != "" then "<span style=\"font-size: 16px; background: var(--color-primary); color: white; padding: 4px 8px; border-radius: 4px; vertical-align: middle;\">" + vip + "</span>" else "")
    + "</div>" + UidLine(info, showId)
    + (if medalName != "" then
         "<div style=\"margin-top: 12px; display: flex; align-items: center; justify-content: center;\"><div style=\"display: inline-flex; border: 1px solid var(--color-subtext); border-radius: 4px; overflow: hidden;\">"
         + "<span style=\"background: var(--color-subtext); color: var(--color-card-bg); padding: 2px 6px; font-size: 16px; font-weight: bold;\">" + medalName
         + "</span><span style=\"background: var(--color-card-bg); color: var(--color-subtext); padding: 2px 6px; font-size: 16px;\">" + medalLevel + "</span></div></div>"
       else "")
    + (if sign != "" then "<div class=\"text-content\" style=\"text-align: center; margin-top: 16px; color: var(--color-subtext); font-size: 18px; line-height: 1.5; padding: 0 20px;\">\"" + sign + "\"</div>" else "")
    + "</div></div>"
    + "<div class=\"stats\" style=\"display: flex; justify-content: center; gap: 40px; margin: 30px auto 0 auto; padding: 20px 40px; background: var(--color-soft-bg); border-radius: 12px; width: fit-content;\">"
    + CountCell(FormatNumber(RelationCount(info, true)), "粉丝")
    + CountCell(FormatNumber(RelationCount(info, false)), "关注")
    + CountCell(FormatNumber(info.likes), "获赞")
    + CountCell(FormatNumber(info.archiveView), "播放")
    + "</div>" + RecentSection(info.dynamic) + "</div>"
  }

  /** Without a relation object both counters read 0. */
  lemma NoRelationZero(info: UserInfo)
    requires info.relation.None?
    ensures FormatNumber(RelationCount(info, true)) == "0" && FormatNumber(RelationCount(info, false)) == "0"
  {
  }
}
