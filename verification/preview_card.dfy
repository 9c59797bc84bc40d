/**
  The type badge of a preview card and the choice of the content renderer.
*/
module PreviewCard {
  import opened Wrappers
  import opened Js
  import opened Theme

  /** The badge key of a card: bangumi seasons are refined by their season type. */
  function Subtype(kind: string, hasData: bool, seasonType: Option<int>): (r: string)
    ensures kind != "bangumi" || !hasData ==> r == kind
    ensures kind == "bangumi" && hasData ==>
              r == (if seasonType == Some(2) then "movie"
                    else if seasonType == Some(3) then "doc"
                    else if seasonType == Some(4) then "guochuang"
                    else if seasonType == Some(5) then "tv"
                    else if seasonType == Some(7) then "variety"
                    else kind)
  {
    if kind == "bangumi" && hasData then
      match seasonType
      case Some(2) => "movie"
      case Some(3) => "doc"
      case Some(4) => "guochuang"
      case Some(5) => "tv"
      case Some(7) => "variety"
      case _ => kind
    else kind
  }

  /**
    Whether the badge shows: a group's `labelConfig` entry for the subtype
    decides by its truthiness; otherwise only an explicit `false` for the type
    hides it; a group without `labelConfig` shows none.
  */
  predicate BadgeVisible(labelConfig: Option<map<string, Value>>, kind: string, subtype: string)
  {
    match labelConfig
    case None => false
    case Some(lc) =>
      if subtype in lc then Truthy(lc[subtype])
      else !(kind in lc && lc[kind] == Bool(false))
  }

  /** `renderTypeBadge`: nothing when hidden, else the type's icon and caption. */
  function RenderTypeBadge(kind: string, hasData: bool, seasonType: Option<int>,
                           labelConfig: Option<map<string, Value>>, current: TypeConfig): (r: string)
    ensures !BadgeVisible(labelConfig, kind, Subtype(kind, hasData, seasonType)) ==> r == ""
    ensures BadgeVisible(labelConfig, kind, Subtype(kind, hasData, seasonType)) ==>
              r == "<div class=\"type-badge\"><span>" + current.icon + "</span><span>" + current.caption + "</span></div>"
  {
    if BadgeVisible(labelConfig, kind, Subtype(kind, hasData, seasonType)) then
      "<div class=\"type-badge\"><span>" + current.icon + "</span><span>" + current.caption + "</span></div>"
    else ""
  }

  /** An explicit subtype entry overrides the type's entry in both directions. */
  lemma SubtypeEntryDecides(lc: map<string, Value>, kind: string, subtype: string)
    requires subtype in lc && subtype != kind
    ensures BadgeVisible(Some(lc), kind, subtype) == Truthy(lc[subtype])
    ensures BadgeVisible(Some(lc), kind, subtype) == BadgeVisible(Some(lc[kind := Bool(false)]), kind, subtype)
  {
  }

  /** Without an entry for the subtype, the badge is hidden exactly by `labelConfig[type] === false`. */
  lemma TypeEntryDecides(lc: map<string, Value>, kind: string, subtype: string)
    requires subtype !in lc
    ensures !BadgeVisible(Some(lc), kind, subtype) <==> kind in lc && lc[kind] == Bool(false)
  {
  }

  /** The content renderers of the card kinds. */
  datatype Renderer = VideoRenderer | BangumiRenderer | ArticleRenderer | LiveRenderer
                    | DynamicRenderer | UserRenderer | NoRenderer

  const Kinds: seq<string> := ["video", "bangumi", "article", "live", "dynamic", "user"]

  /** The dispatch of `generatePreviewCard`: one renderer per known kind, none otherwise. */
  function RendererFor(kind: string): (r: Renderer)
    ensures r == NoRenderer <==> kind !in Kinds
  {
    if kind == "video" then VideoRenderer
    else if kind == "bangumi" then BangumiRenderer
    else if kind == "article" then ArticleRenderer
    else if kind == "live" then LiveRenderer
    else if kind == "dynamic" then DynamicRenderer
    else if kind == "user" then UserRenderer
    else NoRenderer
  }

  /** Different kinds never share a renderer. */
  lemma RendererForInjective(a: string, b: string)
    requires a in Kinds && b in Kinds && a != b
    ensures RendererFor(a) != RendererFor(b)
  {
  }
}
