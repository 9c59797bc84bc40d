/**
  `renderDynamicContent` and `renderOrigContent`: a post's header, text,
  vote, reposted post, media and counters. The field choices are made by the
  view functions below; the HTML is a template over them.
*/
module DynamicCard {
  import opened Wrappers
  import opened Text
  import opened Js
  import opened Formatters
  import opened BiliData
  import opened RichText
  import opened VoteCard
  import opened Media

  const NoFace: string := "https://i0.hdslb.com/bfs/face/member/noface.jpg"

  /**
    `formatPubTime(ts)`: empty for a missing or zero timestamp; otherwise a
    text relative to the current clock, which is an input here.
  */
  function PubTime(ts: Option<int>, clockText: int -> string): (r: string)
    ensures !NonZero(ts) ==> r == ""
  {
    if NonZero(ts) then clockText(ts.value) else ""
  }

  // ------------------------------------------------------------ text and media

  /** The text source of a post before rich-text rendering. */
  datatype Body = Body(text: string, title: string, nodes: Option<seq<RichNode>>)

  /** Text priority: `desc`, else the opus summary; the title only from the opus. */
  function BodyOf(d: ModuleDynamic): (b: Body)
    ensures d.desc.Some? ==> b == Body(Or(d.desc.value.text, ""), "", d.desc.value.nodes)
    ensures d.desc.None? && OpusOf(d).Some? ==>
              b.title == Or(OpusOf(d).value.title, "")
              && (OpusOf(d).value.summary.Some? ==>
                    b.text == Or(OpusOf(d).value.summary.value.text, "") && b.nodes == OpusOf(d).value.summary.value.nodes)
              && (OpusOf(d).value.summary.None? ==> b.text == "" && b.nodes.None?)
    ensures d.desc.None? && OpusOf(d).None? ==> b == Body("", "", None)
    ensures d.desc.Some? ==> b.title == ""
  {
    if d.desc.Some? then Body(Or(d.desc.value.text, ""), "", d.desc.value.nodes)
    else if OpusOf(d).Some? then
      var opus := OpusOf(d).value;
      var title := Or(opus.title, "");
      if opus.summary.Some? then Body(Or(opus.summary.value.text, ""), title, opus.summary.value.nodes)
      else Body("", title, None)
    else Body("", "", None)
  }

  /** The pictures, or else the card, that a post shows. */
  datatype Attached = Attached(images: seq<string>, card: Option<VideoCard>)

  function DrawItems(d: ModuleDynamic): Option<seq<string>>
  {
    var m := GetMajor(d);
    if m.draw.Some? then m.draw.value.items else None
  }

  function OpusPics(d: ModuleDynamic): Option<seq<string>>
  {
    if OpusOf(d).Some? then OpusOf(d).value.pics else None
  }

  /** The badge of a live recommendation. */
  function LiveBadge(info: LivePlayInfo): (r: string)
    ensures info.liveStatus == Some(1) ==> r == "<span class=\"live-badge-status live-on\">LIVE</span>"
    ensures info.liveStatus != Some(1) ==> r == "<span class=\"live-badge-status live-off\">OFFLINE</span>"
  {
    if info.liveStatus == Some(1) then "<span class=\"live-badge-status live-on\">LIVE</span>"
    else "<span class=\"live-badge-status live-off\">OFFLINE</span>"
  }

  /** The card built from a live recommendation. */
  function LiveCardOf(info: LivePlayInfo): (c: VideoCard)
    ensures c.LiveCard? && c.liveBadge != ""
  {
    LiveCard(info.cover, info.title, LiveBadge(info),
             Shown(info.parentAreaName) + " · " + Shown(info.areaName), Or(info.watchedText, ""))
  }

  /**
    Media priority: draw items, then opus pictures, then the attached video,
    then the live recommendation (passed only for a post that has one).
  */
  function AttachedOf(d: ModuleDynamic, live: Option<LivePlayInfo>): (a: Attached)
    ensures DrawItems(d).Some? ==> a == Attached(DrawItems(d).value, None)
    ensures DrawItems(d).None? && OpusPics(d).Some? ==> a == Attached(OpusPics(d).value, None)
    ensures DrawItems(d).None? && OpusPics(d).None? && GetMajor(d).archive.Some? ==>
              a == Attached([], Some(ArchiveCard(GetMajor(d).archive.value)))
    ensures DrawItems(d).None? && OpusPics(d).None? && GetMajor(d).archive.None? ==>
              a.images == [] && (a.card.Some? <==> live.Some?)
              && (live.Some? ==> a.card == Some(LiveCardOf(live.value)))
  {
    if DrawItems(d).Some? then Attached(DrawItems(d).value, None)
    else if OpusPics(d).Some? then Attached(OpusPics(d).value, None)
    else if GetMajor(d).archive.Some? then Attached([], Some(ArchiveCard(GetMajor(d).archive.value)))
    else if live.Some? then Attached([], Some(LiveCardOf(live.value)))
    else Attached([], None)
  }

  /** The rendered text, replaced by the video's `desc` (maybe missing) when it is empty. */
  function FinalText(html: string, a: Attached): (r: Option<string>)
    ensures html != "" ==> r == Some(html)
    ensures html == "" && a.card.Some? && a.card.value.ArchiveCard? ==> r == a.card.value.archive.desc
    ensures html == "" && !(a.card.Some? && a.card.value.ArchiveCard?) ==> r == Some("")
  {
    if html == "" && a.card.Some? && a.card.value.ArchiveCard? then a.card.value.archive.desc else Some(html)
  }

  /** What the text, title and media of a post come to (shared by posts and reposts). */
  datatype Content = Content(title: string, text: Option<string>, attached: Attached)

  function ContentOf(d: ModuleDynamic, live: Option<LivePlayInfo>): (c: Content)
    ensures c.title == BodyOf(d).title
    ensures c.attached == AttachedOf(d, live)
    ensures c.text == FinalText(ParseRichText(BodyOf(d).nodes, Some(BodyOf(d).text)), AttachedOf(d, live))
  {
    var b := BodyOf(d);
    var a := AttachedOf(d, live);
    Content(b.title, FinalText(ParseRichText(b.nodes, Some(b.text)), a), a)
  }

  // ------------------------------------------------------------ the repost

  /** `renderOrigContent(origItemRaw)`. */
  function RenderOrigContent(raw: Post): string
  {
    var oitem := if raw.item.Some? then raw.item.value else raw;
    var omodules := oitem.modules.GetOr(NoModules);
    var author := GetAuthor(omodules);
    var c := ContentOf(GetDynamic(omodules), None);
    var text := if c.text.Some? then c.text.value else "";
    "<div class=\"orig-card\"><div class=\"orig-header\"><img class=\"orig-author-avatar\" src=\""
    + Or(author.face, NoFace) + "\"><span class=\"orig-author-name\">" + Or(author.name, "Unknown")
    + "</span></div><div class=\"orig-content\">"
    + (if c.title != "" then "<div class=\"orig-title\">" + c.title + "</div>" else "")
    + (if text != "" then "<div class=\"orig-text truncated\">" + text + "</div>" else "")
    + RenderVoteCard(GetVoteFromModules(Some(omodules)))
    + RenderMediaHtml(c.attached.images, c.attached.card, true)
    + "</div></div>"
  }

  // ------------------------------------------------------------ the post

  /** The author strip of a post. */
  datatype Header = Header(name: string, face: string, pubTime: string, level: int,
                           pendantUrl: string, cardUrl: string, serial: Option<string>, fanColor: string)

  function HeaderOf(data: Post, item: Post, modules: Modules, clockText: int -> string): (h: Header)
    ensures var ma := GetAuthor(modules);
            var info := if item.author.Some? then item.author.value else data.author.GetOr(NoAuthorInfo);
            var card := ma.decorationCard.GetOr(NoCard);
            var fan := card.fan.GetOr(NoFan);
            h.name == Or(ma.name, "Unknown") && h.face == Or(ma.face, NoFace)
            && h.pubTime == FirstString([Some(PubTime(data.pubTs, clockText)), Some(PubTime(ma.pubTs, clockText)), ma.pubTime], "")
            && h.level == OrZero(info.level)
            && h.pendantUrl == FirstString([info.pendantUrl, ma.pendantImage], "")
            && h.cardUrl == FirstString([info.cardUrl, card.cardUrl], "")
            && h.fanColor == FirstString([info.fanColor, fan.color], "#555")
            && (Present(fan.numDesc) ==> h.serial == fan.numDesc)
            && (!Present(fan.numDesc) && Present(info.cardNumber) ==> h.serial == info.cardNumber)
            && (!Present(fan.numDesc) && !Present(info.cardNumber) ==> h.serial.None?)
  {
    var ma := GetAuthor(modules);
    var info := if item.author.Some? then item.author.value else data.author.GetOr(NoAuthorInfo);
    var card := ma.decorationCard.GetOr(NoCard);
    var fan := card.fan.GetOr(NoFan);
    Header(Or(ma.name, "Unknown"), Or(ma.face, NoFace),
           FirstString([Some(PubTime(data.pubTs, clockText)), Some(PubTime(ma.pubTs, clockText)), ma.pubTime], ""),
           OrZero(info.level),
           FirstString([info.pendantUrl, ma.pendantImage], ""),
           FirstString([info.cardUrl, card.cardUrl], ""),
           if Present(fan.numDesc) then fan.numDesc else if Present(info.cardNumber) then info.cardNumber else None,
           FirstString([info.fanColor, fan.color], "#555"))
  }

  /** The avatar frame, present only with a pendant. */
  function FrameHtml(h: Header): (r: string)
    ensures r == "" <==> h.pendantUrl == ""
  {
    if h.pendantUrl != "" then "<img class=\"avatar-frame\" src=\"" + h.pendantUrl + "\" />" else ""
  }

  /** The level badge, present only for a non-zero level. */
  function LevelHtml(h: Header): (r: string)
    ensures r == "" <==> h.level == 0
  {
    if h.level != 0 then
      "<span class=\"user-level lv" + IntToString(h.level) + "\">Lv" + IntToString(h.level) + "</span>"
    else ""
  }

  /** The serial number badge. */
  function SerialHtml(h: Header): (r: string)
    ensures r == "" <==> !Present(h.serial)
  {
    if Present(h.serial) then
      "<span class=\"serial-badge\" style=\"color: " + h.fanColor + ";\">No." + h.serial.value + "</span>"
    else ""
  }

  /** The decoration card, holding the serial badge; nothing without a card URL. */
  function DecorationHtml(h: Header): (r: string)
    ensures h.cardUrl == "" ==> r == ""
    ensures h.cardUrl != "" ==>
              r == "<div class=\"decoration-card-wrapper\"><img class=\"decoration-card\" src=\"" + h.cardUrl
                   + "\" />" + SerialHtml(h) + "</div>"
  {
    if h.cardUrl != "" then
      "<div class=\"decoration-card-wrapper\"><img class=\"decoration-card\" src=\"" + h.cardUrl + "\" />"
      + SerialHtml(h) + "</div>"
    else ""
  }

  function HeaderHtml(h: Header): string
  {
    "<div class=\"header\"><div class=\"header-left\"><div class=\"avatar-wrapper\"><img class=\"avatar "
    + (if h.pendantUrl != "" then "no-border" else "no-frame") + "\" src=\"" + h.face
    + "\" onerror=\"this.src='" + NoFace + "'\">" + FrameHtml(h)
    + "</div><div class=\"user-info\"><span class=\"user-name\">" + h.name + " " + LevelHtml(h)
    + "</span><span class=\"pub-time\">" + h.pubTime + "</span></div></div>"
    + "<div class=\"header-right\" style=\"display:flex; align-items:center; gap:12px;\">" + DecorationHtml(h)
    + "</div></div>"
  }

  /** The live recommendation of a post of that type whose `content` is set. */
  function LiveInfoOf(item: Post, d: ModuleDynamic): (r: Option<LivePlayInfo>)
    ensures r.Some? ==> item.kind == Some("DYNAMIC_TYPE_LIVE_RCMD")
  {
    var m := GetMajor(d);
    if item.kind == Some("DYNAMIC_TYPE_LIVE_RCMD") && m.liveRcmd.Some? && Present(m.liveRcmd.value.content) then
      m.liveRcmd.value.playInfo
    else None
  }

  /** The icon markup comes from a module this model does not include. */
  const ShareIcon: string := "<i class=\"icon-share\"></i>"
  const LikeIcon: string := "<i class=\"icon-like\"></i>"

  function ActionBar(stat: ModuleStat): string
  {
    "<div class=\"action-bar\"><div class=\"action-item\">" + ShareIcon + " " + FormatNumber(stat.forward)
    + "</div><div class=\"action-item\">" + CommentIcon + " " + FormatNumber(stat.comment)
    + "</div><div class=\"action-item\">" + LikeIcon + " " + FormatNumber(stat.like) + "</div></div>"
  }

  /**
    The post itself: `data.data.item` when present, else `data.data`. A
    wrapped item without `modules` makes the code fail (`None`).
  */
  function ItemOf(data: Post): Post
  {
    if data.item.Some? then data.item.value else data
  }

  function ModulesOf(data: Post): Option<Modules>
  {
    if data.item.Some? then data.item.value.modules else Some(data.modules.GetOr(NoModules))
  }

  /** The repost section, only when the post has an `orig`. */
  function OrigSection(item: Post): string
  {
    if item.orig.Some? then RenderOrigContent(item.orig.value) else ""
  }

  /** The card of a post whose modules are `modules`. */
  function PostHtml(data: Post, modules: Modules, clockText: int -> string): string
  {
    var item := ItemOf(data);
    var d := GetDynamic(modules);
    var h := HeaderOf(data, item, modules, clockText);
    var c := ContentOf(d, LiveInfoOf(item, d));
    ContentOpen + HeaderHtml(h)
    + (if c.title != "" then TitleOpen + c.title + DivClose else "")
    + TextOpen + Shown(c.text) + DivClose
    + RenderVoteCard(GetVoteFromModules(Some(modules)))
    + OrigSection(item)
    + RenderMediaHtml(c.attached.images, c.attached.card, false)
    + ActionBar(modules.stat.GetOr(NoStat)) + DivClose
  }

  const ContentOpen: string := "<div class=\"content\">"
  const TitleOpen: string := "<div class=\"title\">"
  const TextOpen: string := "<div class=\"text-content truncated\">"
  const DivClose: string := "</div>"

  /** `renderDynamicContent(data)`, with `data.data` as `data`. */
  function RenderDynamicContent(data: Post, clockText: int -> string): (r: Option<string>)
    ensures r.None? <==> data.item.Some? && data.item.value.modules.None?
  {
    if data.item.Some? && data.item.value.modules.None? then None
    else Some(PostHtml(data, ModulesOf(data).value, clockText))
  }

  /** Only a post of the live-recommendation type can show a live card. */
  lemma LiveCardOnlyForLiveType(data: Post, modules: Modules)
    requires ItemOf(data).kind != Some("DYNAMIC_TYPE_LIVE_RCMD")
    ensures var d := GetDynamic(modules);
            var a := AttachedOf(d, LiveInfoOf(ItemOf(data), d));
            a.card.Some? ==> a.card.value.ArchiveCard?
  {
  }
}
