# A Dafny model of the napcat QQ bot's Bilibili core

The bot watches QQ group chats for Bilibili links, answers them with a
rendered preview card, and pushes notices about followed uploaders (new
posts, going live) and followed bangumi (new episodes) to the groups that
subscribed. This project models, in Dafny, the logic at the centre of
that bot and proves properties of it:

- **Preview-card helpers** (`Formatters`, `Theme`): HTML escaping, duration
  and number formatting, hex-colour checks, the night-mode window in minutes
  of the day (including windows that wrap past midnight), viewport and
  type tables, the gradient colour list (hex filter, case-insensitive
  de-duplication, padding, percent stops) and brightness adjustment.
- **Card renderers** (`RichText`, `VoteCard`, `Media`, `DynamicCard`,
  `BangumiCard`, `UserCard`, `PreviewCard`): pure functions over the loosely
  typed JSON the API returns, modelled as datatypes with `Option` fields
  (`BiliData`, `Js`). The contracts state the field-priority chains,
  escaping, vote percentage bounds, the conditional sections and the
  type-to-renderer dispatch; the HTML itself is kept as a template over
  those decisions, with the template's indentation and line breaks
  normalised (HTML does not render them).
- **Message-chain normalisation and sending** (`Notification`): removal of
  invisible and control characters, rewriting of `base64://` images into
  saved files, and the send/fallback logic over a socket object.
- **Subscriptions** (`Subscriptions`): the class holding the user and bangumi
  subscription lists, add/remove, lookup by group, the legacy-format
  migration, and the three state machines that decide when a new post, a
  live start or a new episode is announced.
- **Configuration** (`Config`): the class holding global settings, per-group
  overrides, group admins and the enabled-groups whitelist.
- **Bounded stores** (`CacheManager`, `VectorMemory`): cache eviction,
  oldest first, until the directory is within budget; the per-group memory
  buffer capped at 500 entries and its filter/sort/limit search.
- **Link and login parsing** (`UrlParser`, `BiliLogin`, `BiliService`):
  link-kind detection in table order, BV-to-AV conversion, the mini-app
  card fallback, Set-Cookie folding, the QR-login poll counter, the
  rewrite of the cookie line in `src/config.js`, and the Python helper's credential
  file, login poll replies and command dispatch.

Conventions. JavaScript values that may be absent are `Option`s; JS
truthiness is `Js.Truthy`/`Js.ScalarTruthy`; `parseInt` is `Js.ParseInt`.
Array sorts that the source performs with `Array.prototype.sort` are
modelled as a stable insertion sort (`CacheManager.SortByMtime`,
`VectorMemory.SortByScore`) and proved sorted and a permutation. The
clock, the network, the file system and random names are parameters of
the functions and methods that need them. Mutable objects of the source
(`SubscriptionService`, `BotConfig`, the socket, the cache directory, the
memory store, the login poller, the credential file) are classes whose
methods are proved against the specification functions beside them.

Two observations about the source that the model makes precise:

- In `src/utils/urlParser.js` the short-link check after the pattern loop
  can never fire: the short-link pattern is the last entry of the table, so
  the loop has already reported any short link (with the kind `shortLink`).
  `UrlParser.ShortAfterTable` and `UrlParser.ExtractKinds` prove that the
  kind `short` is never reported.
- The vector memory caches each group's list under the raw group id but
  names the group's file after the id's text (`VectorMemory.FileName`,
  `VectorMemory.MemoryStore.LoadGroupMemory`).

## Model

| member | source | states |
|---|---|---|
| Formatters.EscapeHtml | src/services/imageGenerator/core/formatters.js:11-19 | a missing or empty value gives ''; any other text gives the character-by-character escape `EscapeEach` of it |
| Formatters.EscapeChainIsEach | src/services/imageGenerator/core/formatters.js:13-18 | the five global replacements in the source's order (ampersand first) equal escaping each character on its own, so no entity is escaped twice |
| Formatters.EscapeChainAppend | src/services/imageGenerator/core/formatters.js:13-18 | the replacement chain distributes over concatenation |
| Formatters.EscapeChainChar | src/services/imageGenerator/core/formatters.js:14-18 | on one character the chain yields that character's entity, or the character itself when it is not special |
| Formatters.EscapeHtmlMarkupFree | src/services/imageGenerator/core/formatters.js:11-19 | the escaped text contains none of `<`, `>`, `"` and `'` |
| Formatters.EscapeHtmlIdentity | src/services/imageGenerator/core/formatters.js:13-18 | a text without any of the five special characters comes back unchanged |
| Formatters.UnescapeStep | src/services/imageGenerator/core/formatters.js:14-18 | decoding the entities undoes the escape of any one character |
| Formatters.EscapeHtmlRoundTrip | src/services/imageGenerator/core/formatters.js:11-19 | decoding the five entities recovers the escaped text exactly |
| Formatters.JsRem | src/services/imageGenerator/core/formatters.js:27-28 | JavaScript's `%` by a positive divisor: the mathematical remainder for a non-negative dividend, a value in (-b, 0] for a negative one |
| Formatters.DurationPartsExact | src/services/imageGenerator/core/formatters.js:26-28 | for a non-negative duration the shown hours, minutes and seconds satisfy h·3600 + m·60 + s = seconds with minutes and seconds below 60 |
| Formatters.FormatDuration | src/services/imageGenerator/core/formatters.js:24-25 | a missing or zero duration gives '' |
| Formatters.PaddedValue | src/services/imageGenerator/core/formatters.js:31-33 | `padStart(2, '0')` of a number below 100 is two digits whose decimal value is that number |
| Formatters.ClockRoundTrip | src/services/imageGenerator/core/formatters.js:30-34 | both the "h:mm:ss" and the "m:ss" shape read back as h·3600 + m·60 + s |
| Formatters.FormatDurationRoundTrip | src/services/imageGenerator/core/formatters.js:24-35 | for a positive duration, reading the text back gives the duration: the format loses nothing |
| Formatters.Scaled | src/services/imageGenerator/core/formatters.js:121-124 | the scaled quotient is the value divided by the unit rounded half up |
| Formatters.FormatNumber | src/services/imageGenerator/core/formatters.js:118-127 | a falsy value gives '0', and the text is never empty |
| Formatters.FormatNumberUnits | src/services/imageGenerator/core/formatters.js:118-127 | for a number: 0 gives '0'; below 10^4 the plain decimal; the text ends in 亿 iff the number is at least 10^8 and in 万 iff it lies in [10^4, 10^8) |
| Formatters.IsHexLower | src/services/imageGenerator/core/formatters.js:132-134 | hex validity does not depend on letter case |
| Theme.IsNightMode | src/services/imageGenerator/core/theme.js:8-40 | no setting gives false, mode 'on' true and 'off' false; in timed mode the call fails exactly when the start or the end time is missing |
| Theme.ClockTextMinutes | src/services/imageGenerator/core/theme.js:28-32 | an "HH:MM" time read by split-and-Number is h·60 + m |
| Theme.ClockFields | src/services/imageGenerator/core/theme.js:28-32 | two digit fields around a colon read as hours·60 + minutes |
| Theme.TimedNightMode | src/services/imageGenerator/core/theme.js:25-39 | with well-formed times, night iff start ≤ cur < end when start < end, and iff cur ≥ start or cur < end otherwise |
| Theme.NightWindowComplement | src/services/imageGenerator/core/theme.js:34-39 | equal start and end times mean always night; otherwise swapping start and end gives exactly the complementary window |
| Theme.CalculateViewport | src/services/imageGenerator/core/theme.js:45-78 | height 1200, minimum width 400 and scale 1.1 always; width from the type table, a dynamic card 1100 iff it has pictures, a video or live card, or a repost, else 800; unknown types 1200 |
| Theme.GetTypeConfig | src/services/imageGenerator/core/theme.js:83-109 | the colour is always a valid hex colour; the type table with the 'Bilibili' default, overridden for bangumi by season types 2, 3, 4, 5 and 7 |
| Theme.Channel | src/services/imageGenerator/core/theme.js:214-216 | `parseInt` of a two-digit hex pair is below 256 |
| Theme.HexByte | src/services/imageGenerator/core/theme.js:224-226 | `toString(16).padStart(2, '0')` of a channel is two lower-case hex digits whose value is the channel |
| Theme.HexDigitValue | src/services/imageGenerator/core/theme.js:214-226 | printing a parsed hex digit gives its lower-case spelling |
| Theme.Scale | src/services/imageGenerator/core/theme.js:219-226 | a channel adjusted by p percent is clamped to [0, 255] and lies within half a unit of c + c·p/100 |
| Theme.AdjustBrightness | src/services/imageGenerator/core/theme.js:209-229 | the result is '#' and six lower-case hex digits, and each of its channels is the input channel scaled by the percentage and clamped to 0..255 |
| Theme.AdjustBrightnessDirection | src/services/imageGenerator/core/theme.js:209-229 | a negative percentage never brightens a channel and a positive one never darkens it |
| Theme.HexByteOfChannel | src/services/imageGenerator/core/theme.js:214-226 | reading a channel and writing it back gives its two digits lower-cased |
| Theme.ScaleZero | src/services/imageGenerator/core/theme.js:219-224 | adjusting by 0% keeps every channel |
| Theme.AdjustBrightnessZero | src/services/imageGenerator/core/theme.js:209-229 | adjusting by 0% returns the colour lower-cased |
| Theme.ScaleMonotone | src/services/imageGenerator/core/theme.js:219-221 | darkening never raises a channel and lightening never lowers one |
| Theme.ChannelLower | src/services/imageGenerator/core/theme.js:239-241 | channels are read the same from an upper- or lower-case colour |
| Theme.HexToRgbaCaseInsensitive | src/services/imageGenerator/core/theme.js:234-244 | `hexToRgba` gives the same text for a colour and its lower-case spelling |
| Theme.FocusCandidates | src/services/imageGenerator/core/theme.js:128-164 | at most three colours are offered to `addColor`, in call order per card type |
| Theme.CollectAllValid | src/services/imageGenerator/core/theme.js:119-126 | the collected colours are valid hex colours whose lower-case spellings are pairwise different, no more than the candidates |
| Theme.CollectAllSeen | src/services/imageGenerator/core/theme.js:119-126 | the `seen` set ends up holding exactly the lower-case spellings of the valid candidates |
| Theme.CollectAllFirstSpellings | src/services/imageGenerator/core/theme.js:119-126 | the list equals the reference definition: each valid candidate whose spelling no earlier valid one shares, in input order, with its first spelling |
| Theme.AddedValid | src/services/imageGenerator/core/theme.js:121-126 | one `addColor` keeps the list valid and case-distinct, grows it by at most one, and keeps its first colour |
| Theme.GradientColorsShape | src/services/imageGenerator/core/theme.js:166-174 | the padded list is never empty, stays valid and case-distinct, starts with the first collected colour (or the type colour), and is the collected list itself from three colours up |
| Theme.ColorList.constructor | src/services/imageGenerator/core/theme.js:119-120 | the list and the `seen` set start empty |
| Theme.ColorList.AddColor | src/services/imageGenerator/core/theme.js:121-126 | appends a valid colour whose lower-case spelling is not yet seen, and keeps `seen` the set of spellings of the list |
| Theme.StopPercent | src/services/imageGenerator/core/theme.js:176 | the stop is i·100/(n-1) rounded half up for n > 1, and 100 for a single colour |
| Theme.StopsShape | src/services/imageGenerator/core/theme.js:175-178 | the first stop is 0, the last 100, and they never go down |
| Theme.CollectGradient | src/services/imageGenerator/core/theme.js:119-174 | the list built through `addColor` and padded is the reference gradient list |
| Theme.CalculateColors | src/services/imageGenerator/core/theme.js:114-196 | every field of the scheme: gradient of the padded list, badge colour darkened 25% at night, night or day badge background, text colour, shadow and border, the type passed through |
| RichText.EscapeTextIsEach | src/services/imageGenerator/renderers/components/richtext.js:29-34 | the replacement chain followed by the line-feed replacement equals escaping each character on its own, a line feed becoming `<br>` |
| RichText.EscapeEachBr | src/services/imageGenerator/renderers/components/richtext.js:34 | replacing line feeds after the entity escape is the same as the per-character reference |
| RichText.BrTextStep | src/services/imageGenerator/renderers/components/richtext.js:29-34 | the escape of one character, put before safe text, keeps it safe (no raw line feed, quote or bracket outside a `<br>`) |
| RichText.EscapeTextSafe | src/services/imageGenerator/renderers/components/richtext.js:29-43 | escaped text holds no raw line feed and no `<`, `>`, `"` or `'` outside the inserted `<br>` tags |
| RichText.UnBreakEach | src/services/imageGenerator/renderers/components/richtext.js:34 | turning each `<br>` back into a line feed undoes the last replacement |
| RichText.EscapeTextRoundTrip | src/services/imageGenerator/renderers/components/richtext.js:29-43 | turning `<br>` back into line feeds and decoding the entities recovers the original text |
| RichText.NodeHtml | src/services/imageGenerator/renderers/components/richtext.js:15-35 | an emoji node is an `<img>` with its icon URL when it has one, else its raw text; at, topic, vote, URL and BV nodes wrap the unescaped text in their span; any other node is safe escaped text that decodes back to the node's text |
| RichText.ParseRichText | src/services/imageGenerator/renderers/components/richtext.js:12-44 | a non-empty node list gives the nodes' HTML in order, ignoring the raw text; otherwise the raw text (or '') escaped, safe and decoding back to itself |
| RichText.NodesHtmlAppend | src/services/imageGenerator/renderers/components/richtext.js:14-36 | the node HTML of a concatenation is the concatenation of the node HTML |
| VoteCard.FirstCount | src/services/imageGenerator/renderers/components/vote.js:12 | `a || b || ... || 0` over counts: the first non-zero candidate, and 0 iff all are missing or zero |
| VoteCard.CntAtMostSum | src/services/imageGenerator/renderers/components/vote.js:13 | each item's count is at most the sum of the counts |
| VoteCard.VoteTotal | src/services/imageGenerator/renderers/components/vote.js:12-14 | the total is the larger of the reported participant count and the sum of the item counts |
| VoteCard.Percent | src/services/imageGenerator/renderers/components/vote.js:28 | cnt·100/total rounded half up, 0 when the total is 0, and at most 100 when the count does not exceed the total |
| VoteCard.PercentAtMost100 | src/services/imageGenerator/renderers/components/vote.js:28 | a rounded share of a count no larger than the total is at most 100 |
| VoteCard.ChoiceCnt | src/services/imageGenerator/renderers/components/vote.js:16 | `choice_cnt`, else `choiceCount`, else 2 for a multi-select and 1 otherwise; never below 1 |
| VoteCard.VoteViewOf | src/services/imageGenerator/renderers/components/vote.js:10-41 | title desc, then title, then '投票'; total as above; one view per item with its count; the percent present iff the total is positive and then at most 100; '多选' iff more than one choice; 'with-images' iff some item has an image |
| VoteCard.RenderVoteCard | src/services/imageGenerator/renderers/components/vote.js:8-46 | a missing vote gives ''; a present one a non-empty card drawn from its view |
| VoteCard.NormalizeVote | src/services/imageGenerator/renderers/components/vote.js:53-61 | present iff the input is; keeps the items and the participant count under their first names |
| VoteCard.NormalizeVoteSameCard | src/services/imageGenerator/renderers/components/vote.js:8-61 | normalising a vote does not change the card drawn from it |
| VoteCard.NormalizeVoteIdempotent | src/services/imageGenerator/renderers/components/vote.js:53-61 | normalising twice is normalising once |
| VoteCard.RawVote | src/services/imageGenerator/renderers/components/vote.js:70-80 | the interaction vote (its nested `.vote` when it has one), else the major vote, else the additional vote |
| VoteCard.GetVoteFromModules | src/services/imageGenerator/renderers/components/vote.js:68-82 | missing modules give none; otherwise a vote iff one of the four places holds one, and the result is already normalised |
| Media.GridImagesAppend | src/services/imageGenerator/renderers/components/media.js:21 | the grid holds one `<img>` per URL in input order: splitting the URL list splits the markup |
| Media.ScalarOrEmpty | src/services/imageGenerator/renderers/components/media.js:44-47 | `x || ''` is non-empty iff the value is truthy |
| Media.StatsOf | src/services/imageGenerator/renderers/components/media.js:42-47 | for a repost the play count is `formatNumber` of `play` when truthy, else of `view`, and the danmaku count is `formatNumber` of `danmaku`, never empty; for a post each is the field's own text, non-empty iff the value is truthy |
| Media.DurationBadge | src/services/imageGenerator/renderers/components/media.js:41-53 | the duration badge appears iff the video has a duration text |
| Media.StatsRow | src/services/imageGenerator/renderers/components/media.js:57-62 | the stats row appears iff one of the two numbers is non-empty |
| Media.RenderMediaHtml | src/services/imageGenerator/renderers/components/media.js:11-69 | one picture gives the single `<img>`, several the grid, none the card's HTML, and no pictures and no card '' |
| Media.ImagesBeforeCard | src/services/imageGenerator/renderers/components/media.js:12-23 | with pictures the card makes no difference |
| Media.StatsRowShown | src/services/imageGenerator/renderers/components/media.js:42-62 | a repost's video always shows the stats row; a post's only when play or danmaku is truthy |
| DynamicCard.PubTime | src/services/imageGenerator/core/formatters.js:41-42 | a missing or zero timestamp gives '' (the text for a real one comes from the clock, an input) |
| DynamicCard.BodyOf | src/services/imageGenerator/renderers/dynamic.js:119-128 | `desc` wins over the opus summary; the title comes only from the opus; without either the text is '' and there are no nodes |
| DynamicCard.LiveBadge | src/services/imageGenerator/renderers/dynamic.js:145-148 | the badge is LIVE iff `live_status` is 1, else OFFLINE |
| DynamicCard.LiveCardOf | src/services/imageGenerator/renderers/dynamic.js:150-157 | a live recommendation becomes a live card with a non-empty badge |
| DynamicCard.AttachedOf | src/services/imageGenerator/renderers/dynamic.js:134-158 | draw items, else opus pictures, else the archive card, else the live card (only when there is a live recommendation) |
| DynamicCard.FinalText | src/services/imageGenerator/renderers/dynamic.js:141-143 | a non-empty rendered text is kept; an empty one is replaced by the archive's `desc` (possibly missing) when the card is an archive, and stays '' otherwise |
| DynamicCard.ContentOf | src/services/imageGenerator/renderers/dynamic.js:119-158 | the title, the media and the rich-text rendering of the chosen body, with the archive fallback for empty text |
| DynamicCard.HeaderOf | src/services/imageGenerator/renderers/dynamic.js:83-100 | name 'Unknown' and the noface URL by default; publish time from the envelope, the author timestamp, then `pub_time`; level 0 by default; pendant, card URL and fan colour ('#555') by their fallback chains; serial from `num_desc`, else `card_number` |
| DynamicCard.FrameHtml | src/services/imageGenerator/renderers/dynamic.js:173 | the avatar frame appears iff there is a pendant URL |
| DynamicCard.LevelHtml | src/services/imageGenerator/renderers/dynamic.js:176 | the level badge appears iff the level is non-zero |
| DynamicCard.SerialHtml | src/services/imageGenerator/renderers/dynamic.js:184 | the serial badge appears iff there is a serial |
| DynamicCard.DecorationHtml | src/services/imageGenerator/renderers/dynamic.js:181-186 | nothing without a card URL; with one, the card holding the serial badge |
| DynamicCard.LiveInfoOf | src/services/imageGenerator/renderers/dynamic.js:105-117 | a live recommendation is used only for a post of type `DYNAMIC_TYPE_LIVE_RCMD` |
| DynamicCard.RenderDynamicContent | src/services/imageGenerator/renderers/dynamic.js:72-81 | the call fails exactly when `data.data.item` is present without `modules` |
| DynamicCard.LiveCardOnlyForLiveType | src/services/imageGenerator/renderers/dynamic.js:137-158 | a post of any other type never shows a live card |
| BangumiCard.CollapseCommasFree | src/services/imageGenerator/renderers/bangumi.js:28 | after the episode description's comma replacement no comma is left |
| BangumiCard.CollapseCommasIdentity | src/services/imageGenerator/renderers/bangumi.js:28 | a description without commas passes through unchanged |
| BangumiCard.CollapseCommasStep | src/services/imageGenerator/renderers/bangumi.js:28 | a comma followed by any run of white space becomes exactly one space and the text around it is kept |
| BangumiCard.MetaSuffix | src/services/imageGenerator/renderers/bangumi.js:22-25 | area names and style tags, each group joined by '/', separated by one space only when both are present, trimmed |
| BangumiCard.EpUpdateText | src/services/imageGenerator/renderers/bangumi.js:45-54 | the counter is non-empty exactly when the episode title (or index label) parses as an integer, and then names that integer |
| BangumiCard.EpisodeCounter | src/services/imageGenerator/renderers/bangumi.js:47-51 | a title that starts with the digits of n gives the counter for episode n, whatever text follows the digits |
| BangumiCard.Schedule | src/services/imageGenerator/renderers/bangumi.js:33-43 | no schedule without a publish time or for a date the parser rejects; a TypeError exactly when an accepted publish time has no space; otherwise '每周', the weekday, the piece after the first space cut to five units, and '更新' |
| BangumiCard.ScheduleTime | src/services/imageGenerator/renderers/bangumi.js:33-43 | a publish time 'date time' shows the first five units of its time |
| BangumiCard.StatusText | src/services/imageGenerator/renderers/bangumi.js:16-57 | a finished season never throws; an ongoing one throws exactly when its schedule does, even a movie; otherwise a movie or documentary shows only its release date, a finished series adds its comma-collapsed description, and an ongoing series adds '连载中', then the episode counter and the weekly schedule, each only when non-empty |
| BangumiCard.RatingText | src/services/imageGenerator/renderers/bangumi.js:74 | the score's text when it is truthy; a missing or zero score shows 'N/A' |
| BangumiCard.RenderBangumiContent | src/services/imageGenerator/renderers/bangumi.js:9-79 | the card throws exactly when its status line does |
| UserCard.VipLabel | src/services/imageGenerator/renderers/user.js:19-20 | the VIP label text when present; otherwise '大会员' exactly for an active VIP (status 1); otherwise nothing |
| UserCard.RelationCount | src/services/imageGenerator/renderers/user.js:16-17 | follower and following counts come from the relation object, and are 0 without one |
| UserCard.NoRelationZero | src/services/imageGenerator/renderers/user.js:100-107 | without a relation object both counters are shown as '0' |
| UserCard.RecentText | src/services/imageGenerator/renderers/user.js:31-38 | the post's own description text wins when non-empty; otherwise the opus summary's text when present, else the joined text of its rich-text nodes; without an opus summary, the description text or ''; without a dynamic module the text is '' |
| UserCard.RecentOf | src/services/imageGenerator/renderers/user.js:31-52 | images come from the draw items first; a video card appears only when there are no images, and then its description replaces a missing text |
| UserCard.Thumbnails | src/services/imageGenerator/renderers/user.js:57 | at most the first three images, in order, and exactly min(3, count) of them |
| UserCard.RecentSection | src/services/imageGenerator/renderers/user.js:25-73 | there is no latest-post section without a post |
| UserCard.RecentTextEscaped | src/services/imageGenerator/renderers/user.js:69 | the latest post's text is shown escaped and so carries no markup characters |
| UserCard.UidLine | src/services/imageGenerator/renderers/user.js:88 | the UID line is present exactly when UIDs are to be shown |
| PreviewCard.Subtype | src/services/imageGenerator/generators/previewCard.js:21-29 | a bangumi card with data is refined to movie, doc, guochuang, tv or variety by season types 2, 3, 4, 5, 7; every other card keeps its type |
| PreviewCard.RenderTypeBadge | src/services/imageGenerator/generators/previewCard.js:31-41 | the badge is empty exactly when it is not visible under the group's label configuration; otherwise it shows the type's icon and caption |
| PreviewCard.SubtypeEntryDecides | src/services/imageGenerator/generators/previewCard.js:31-32 | an entry for the subtype decides visibility by its truthiness, whatever the type's own entry says |
| PreviewCard.TypeEntryDecides | src/services/imageGenerator/generators/previewCard.js:33 | without a subtype entry, the badge is hidden exactly when the type's entry is the value false |
| PreviewCard.RendererFor | src/services/imageGenerator/generators/previewCard.js:71-84 | each of video, bangumi, article, live, dynamic and user has a renderer; any other type has none |
| PreviewCard.RendererForInjective | src/services/imageGenerator/generators/previewCard.js:71-84 | no two known types share a renderer |
| Notification.RemoveWhere | src/services/notificationService.js:68-70 | one deleting pass never lengthens the text and leaves none of its class's characters |
| Notification.CleanText | src/services/notificationService.js:67-70 | the cleaned text is no longer than the input and holds no zero-width, C0 control (other than tab, LF and CR) or replacement character |
| Notification.RemoveWhereAppend | src/services/notificationService.js:68-70 | a deleting pass distributes over concatenation |
| Notification.RemoveWhereNone | src/services/notificationService.js:68-70 | a pass over text without its class's characters changes nothing |
| Notification.RemoveWhereTwice | src/services/notificationService.js:67-70 | two chained passes equal one pass over the union of their classes |
| Notification.CleanTextIsFilter | src/services/notificationService.js:67-70 | the three chained replacements delete exactly the stripped characters, as a single filter |
| Notification.CleanTextIdempotent | src/services/notificationService.js:62-76 | cleaning a cleaned text changes nothing |
| Notification.CleanTextAppend | src/services/notificationService.js:67-70 | cleaning works character by character, so it keeps every other character in its order |
| Notification.CleanTextChar | src/services/notificationService.js:67-70 | a single character is dropped exactly when it is stripped, else kept |
| Notification.CleanValue | src/services/notificationService.js:62-63 | a non-string value is returned unchanged; a string is cleaned |
| Notification.ProcessItem | src/services/notificationService.js:94-119 | an inline base64 image becomes a file:// image of the saved path, or stays as it is when base64 sending is on; a text item with truthy text is cleaned; everything else is unchanged; a failing save aborts |
| Notification.ProcessAll | src/services/notificationService.js:94-120 | the chain keeps its length and order, each element processed on its own; it fails exactly when some element's save fails |
| Notification.ProcessChain | src/services/notificationService.js:89-126 | an array is processed element by element; any other message becomes a single cleaned text element |
| Notification.ProcessChainWellFormed | src/services/notificationService.js:89-126 | a well-formed message (arrays only as chains, image and text elements only through their own constructors) gives a well-formed chain, of the same length or of one text element |
| Notification.ProcessItemNoBase64 | src/services/notificationService.js:95-109 | with base64 sending off, a processed element is never an inline base64 image |
| Notification.NoBase64Left | src/services/notificationService.js:92-120 | with base64 sending off, a processed chain holds no inline base64 image |
| Notification.Base64SendKeepsImages | src/services/notificationService.js:96-99 | with base64 sending on, processing cannot fail and images pass through unchanged |
| Notification.Socket.constructor | src/services/notificationService.js:136-179 | a fresh socket has sent nothing |
| Notification.Socket.Send | src/services/notificationService.js:156 | a working socket appends the payload to what it has sent; a failing one throws and sends nothing |
| Notification.Delivered | src/services/notificationService.js:136-179 | what one send puts on the socket: nothing on a failing socket; the processed chain when processing succeeds; otherwise the fixed fallback notice, only when fallback is enabled |
| Notification.FallbackOnlyOnFailure | src/services/notificationService.js:163-177 | the fallback notice goes out exactly when the socket works, fallback is enabled and processing the message failed |
| Notification.SendGroupMessage | src/services/notificationService.js:136-179 | without a socket nothing happens; otherwise the socket's sent messages grow by exactly what Delivered says |
| Notification.BroadcastEachGroup | src/services/notificationService.js:250-253 | a message that processes goes to every group exactly once, in the order of the ids |
| Notification.BroadcastFailedSilent | src/services/notificationService.js:250-253 | with the fallback disabled, a message that fails to process sends nothing to any group |
| Notification.NotifyGroups | src/services/notificationService.js:239-254 | nothing is sent without a socket or with a non-array or empty id list; otherwise the sends are one fallback-free sendGroupMessage per group, in order |
| Subscriptions.Find | src/services/subscriptionService.js:81 | no index exactly when no entry has the key; otherwise an index of an entry with that key |
| Subscriptions.Keys | src/services/subscriptionService.js:128-129 | the keys of the entries, one per entry, in stored order |
| Subscriptions.AddSub | src/services/subscriptionService.js:80-90 | a new key is appended with the group as its only follower and the fresh watch state; a known key gets the group pushed only if it is missing, and every other entry is unchanged |
| Subscriptions.DropKey | src/services/subscriptionService.js:97 | the filter keeps only entries of other keys, each taken from the original list, and never lengthens it |
| Subscriptions.RemoveSub | src/services/subscriptionService.js:92-101 | false and no change for an unknown key; otherwise the group is filtered out of the entry, and the entry is dropped when no group is left |
| Subscriptions.DropKeyUpdated | src/services/subscriptionService.js:95-97 | dropping a key does not depend on what that key's entry held |
| Subscriptions.AddSubRegistry | src/services/subscriptionService.js:80-90 | adding keeps the registry free of duplicate keys and of duplicate groups within an entry |
| Subscriptions.RemoveSubRegistry | src/services/subscriptionService.js:92-101 | removing keeps the registry free of duplicate keys and duplicate groups |
| Subscriptions.DropKeyRegistry | src/services/subscriptionService.js:97 | the key filter keeps the registry property |
| Subscriptions.WithoutNoDup | src/services/subscriptionService.js:95 | filtering a group out of a duplicate-free list keeps it duplicate-free |
| Subscriptions.AddSubIdempotent | src/services/subscriptionService.js:80-90 | adding the same group for the same key twice is the same as adding it once |
| Subscriptions.AddSubFollows | src/services/subscriptionService.js:80-90 | after an add, the group follows the key |
| Subscriptions.AddThenRemove | src/services/subscriptionService.js:80-101 | removing the only group of a newly added key restores the list exactly and reports success |
| Subscriptions.FindAppended | src/services/subscriptionService.js:81-84 | an appended entry with a new key is found at the end |
| Subscriptions.DropKeyAbsentAppend | src/services/subscriptionService.js:84-97 | filtering out a key that was just appended restores the list before the append |
| Subscriptions.RemoveSubUnfollows | src/services/subscriptionService.js:92-101 | in a registry, after a removal the group no longer follows the key |
| Subscriptions.RemoveSubKeepsOthers | src/services/subscriptionService.js:92-101 | a removal does not change which groups follow any other key |
| Subscriptions.DropKeyKeepsOthers | src/services/subscriptionService.js:97 | the key filter keeps every other key's followers |
| Subscriptions.UpdateKeepsOthers | src/services/subscriptionService.js:95 | rewriting one entry's groups keeps every other key's followers |
| Subscriptions.DropKeyKeeps | src/services/subscriptionService.js:97 | every entry of another key survives the filter |
| Subscriptions.Followed | src/services/subscriptionService.js:128-129 | a key is listed exactly when some entry of that key has the group among its followers |
| Subscriptions.FollowedAppend | src/services/subscriptionService.js:128-129 | filtering a concatenation lists the first part's keys and then the second's, so stored order is kept |
| Subscriptions.FollowedOne | src/services/subscriptionService.js:128-129 | a single entry is listed iff its followers include the group |
| Subscriptions.ByGroup | src/services/subscriptionService.js:127-131 | the group's user entries in stored order, followed by its bangumi entries in stored order |
| Subscriptions.ByGroupComplete | src/services/subscriptionService.js:127-131 | a user or bangumi is listed exactly when the group follows it |
| Subscriptions.TypeName | src/services/subscriptionService.js:141-144 | the four known kinds get their Chinese names; any other kind is returned as it is |
| Subscriptions.Carry | src/services/subscriptionService.js:42-48 | a dynamic record with a truthy id or a non-zero time overrides the last post id or time; a live record with a truthy id overrides the live status; everything else is kept |
| Subscriptions.MergeOne | src/services/subscriptionService.js:36-48 | the first record of a uid creates its entry with its groups deduplicated; a later record merges new groups in order into the existing entry and leaves the other entries alone |
| Subscriptions.Uids | src/services/subscriptionService.js:35-36 | the uid of each legacy record, in file order |
| Subscriptions.MigratedKeys | src/services/subscriptionService.js:34-50 | one entry per uid, in order of first appearance in the legacy file |
| Subscriptions.MigratedUnique | src/services/subscriptionService.js:34-50 | migrated entries never share a uid |
| Subscriptions.UnseenUid | src/services/subscriptionService.js:34-50 | a uid that has no migrated entry appears in no record |
| Subscriptions.MigratedGroups | src/services/subscriptionService.js:41 | each entry's groups are those of all its uid's records, deduplicated, in first-appearance order |
| Subscriptions.GroupsOfOldEntry | src/services/subscriptionService.js:40-41 | a record merges its groups into an existing entry as the union in first-appearance order |
| Subscriptions.GroupsOfNewEntry | src/services/subscriptionService.js:37-41 | an entry created by a record holds that record's deduplicated groups |
| Subscriptions.GroupsForAbsent | src/services/subscriptionService.js:35-45 | a uid without records contributes no groups and no post id |
| Subscriptions.MigratedRegistry | src/services/subscriptionService.js:34-50 | the migrated registry has no duplicate key and no duplicate group within an entry |
| Subscriptions.MigratedDynamicId | src/services/subscriptionService.js:42-43 | each entry's last post id is that of its uid's last dynamic record with a truthy id; other uids' records never touch it |
| Subscriptions.MergeGroups | src/services/subscriptionService.js:41 | the loop appends, in order, each group not already present |
| Subscriptions.Migrate | src/services/subscriptionService.js:34-50 | the migration loop over the insertion-ordered map yields exactly the migrated entries |
| Subscriptions.AfterPost | src/services/subscriptionService.js:269-273 | an unforced check records the fetched id and publish time, even for an older post; a forced check records nothing; the live status is untouched |
| Subscriptions.Prefix | src/services/subscriptionService.js:235 | a prefix of the text of at most n UTF-16 units, the whole text when it fits, the first n characters when the text has no astral characters, and maximal: one more character would exceed n units |
| Subscriptions.Summary | src/services/subscriptionService.js:232-235 | the post's text when non-empty, else its opus title, else empty; cut to its first 80 UTF-16 units |
| Subscriptions.PostMessage | src/services/subscriptionService.js:238-253 | with a rendered card, three elements: the headline, the card image and the link; without one, the link text with the failure note |
| Subscriptions.CheckPost | src/services/subscriptionService.js:187-281 | a failed fetch changes nothing; otherwise a notice goes to the subscription's groups exactly when AnnouncePost holds, the watch becomes AfterPost, and the key and groups are kept |
| Subscriptions.FirstPostSilent | src/services/subscriptionService.js:204-263 | the first post seen for a subscription is recorded without any notice |
| Subscriptions.PostNotRepeated | src/services/subscriptionService.js:204-273 | a post that was just recorded is not announced again by the next periodic check |
| Subscriptions.OlderPostIgnored | src/services/subscriptionService.js:209-256 | a post that is not newer than the recorded time is never announced unforced, whatever its id |
| Subscriptions.NewerPostAnnounced | src/services/subscriptionService.js:204-242 | once a first post is recorded, a newer post with a different id is announced to all the subscription's groups |
| Subscriptions.ForcedAnnouncesOnly | src/services/subscriptionService.js:204-269 | a forced check announces any fetched post and records nothing |
| Subscriptions.LookupNotice | src/services/subscriptionService.js:296-325 | an id that is not a subscribed uid is looked up as a post: success sends the card and a link to the asking group only; failure and exceptions send a text naming the id and the reason; the result is true only on success |
| Subscriptions.LiveMessage | src/services/subscriptionService.js:350-363 | with a card, three elements ending in the room link; otherwise the room link alone |
| Subscriptions.CheckLive | src/services/subscriptionService.js:329-369 | a failed fetch changes nothing; otherwise the live status becomes '1' or '0' by the answer, and a notice is sent exactly on the not-live to live edge with a room id |
| Subscriptions.LiveAnnouncedOnce | src/services/subscriptionService.js:340-367 | while the room stays live a start is announced at most once |
| Subscriptions.OfflineRearms | src/services/subscriptionService.js:340-367 | an offline answer re-arms the announcement for the next live start |
| Subscriptions.EpisodeName | src/services/subscriptionService.js:377-399 | the episode is named by its index label, else its title, else its id |
| Subscriptions.EpisodeMessage | src/services/subscriptionService.js:398-405 | with a card, three elements with the card image in the middle; without one, a single text |
| Subscriptions.CheckEpisode | src/services/subscriptionService.js:371-411 | a notice goes out exactly for a truthy episode id different from the recorded one; the id and the update time are then recorded; otherwise nothing changes |
| Subscriptions.CheckEpisodeAsWritten | src/services/subscriptionService.js:379-408 | as the code is written: a new episode is announced and its id recorded, after which the time assignment throws and the stored time is left unchanged |
| Subscriptions.EpisodeTimeLost | src/services/subscriptionService.js:386-408 | a concrete season where the code as written leaves the stored time at 0, while the intended code stores the update time |
| Subscriptions.EpisodeAsWrittenAgrees | src/services/subscriptionService.js:379-407 | both versions announce the same episodes with the same message and record the same episode id |
| Subscriptions.EpisodeNotRepeated | src/services/subscriptionService.js:379-407 | an episode that was just announced is not announced again |
| Subscriptions.SubscriptionService.constructor | src/services/subscriptionService.js:12-21 | the service starts with no user and no bangumi subscriptions |
| Subscriptions.SubscriptionService.LoadSubscriptions | src/services/subscriptionService.js:27-61 | a legacy list is migrated and clears the bangumi subscriptions; the current format takes both lists, empty when missing; an unreadable file changes nothing |
| Subscriptions.SubscriptionService.AddUserSubscription | src/services/subscriptionService.js:80-90 | always true; the user list becomes AddSub of the old one |
| Subscriptions.SubscriptionService.RemoveUserSubscription | src/services/subscriptionService.js:92-101 | the result and the new user list are exactly RemoveSub of the old list |
| Subscriptions.SubscriptionService.AddBangumiSubscription | src/services/subscriptionService.js:104-114 | always true; the bangumi list becomes AddSub of the old one |
| Subscriptions.SubscriptionService.RemoveBangumiSubscription | src/services/subscriptionService.js:116-125 | the result and the new bangumi list are exactly RemoveSub of the old list |
| Subscriptions.SubscriptionService.RemoveSubscription | src/services/subscriptionService.js:134-139 | the dynamic and live kinds remove the user subscription; any other kind returns false and changes nothing |
| Subscriptions.SubscriptionService.GetSubscriptionsByGroup | src/services/subscriptionService.js:127-131 | the result is ByGroup of the current lists (user entries, then bangumi entries, each in stored order); a user or bangumi is listed exactly when the group follows it |
| Subscriptions.SubscriptionService.CheckUserDynamic | src/services/subscriptionService.js:187-281 | the notice and the new entry are those of CheckPost, unforced; no other entry changes |
| Subscriptions.SubscriptionService.CheckSubscriptionNow | src/services/subscriptionService.js:283-327 | a subscribed uid gets a forced check on a copy naming only the asking group, and nothing is recorded; any other id goes to the post lookup |
| Subscriptions.SubscriptionService.CheckUserLive | src/services/subscriptionService.js:329-369 | the notice and the new entry are those of CheckLive; no other entry changes |
| Subscriptions.SubscriptionService.CheckBangumi | src/services/subscriptionService.js:371-411 | the notice and the new entry are those of CheckEpisode; no other entry changes |
| Config.Lookup | src/config.js:88-93 | a truthy group whose override object has the key answers with the override; otherwise the global setting, undefined when there is none |
| Config.SetEntry | src/config.js:96-103 | a falsy group id changes nothing; otherwise the group's entry is created if needed and every other group's entry is kept |
| Config.GetAfterSet | src/config.js:88-103 | after a set on a truthy group, that group reads back the value set |
| Config.SetLeavesOthers | src/config.js:88-103 | a set changes nothing that another group or another key reads |
| Config.AddAdmin | src/config.js:122-134 | a TypeError exactly when the group's `admins` is truthy but not an array and does not already include the id (`push` on a non-array); otherwise true exactly for truthy ids whose user is not yet included, the id text then appended and every other group and field kept; false changes nothing |
| Config.RemoveAdmin | src/config.js:136-148 | a TypeError exactly when `admins` is truthy, not an array, and includes the id (`splice` on a non-array); otherwise true exactly for truthy ids whose user is in the admins list, the first occurrence then spliced out and every other group kept; false changes nothing |
| Config.AddAdminMakesAdmin | src/config.js:110-134 | after an add with truthy ids, the user is an admin of that group |
| Config.AddAdminNoDup | src/config.js:127-129 | adding keeps a duplicate-free admins list duplicate-free |
| Config.RemoveAdminDemotes | src/config.js:106-148 | after a removal from a duplicate-free list the user is no longer an admin of the group, unless they are the root admin |
| Config.AdminOpsKeepWellFormed | src/config.js:110-148 | on a store whose `admins` fields are all arrays or falsy, adding and removing never throw and keep that shape |
| Config.StringAdminsInert | src/config.js:106-134 | a non-empty string `admins` makes nobody a group admin through it: adding returns false when the string contains the id and throws otherwise |
| Config.AddThenRemove | src/config.js:122-148 | adding a new admin and then removing them restores the group's admins list |
| Config.EnableList | src/config.js:156-163 | the group is then enabled; its id text is appended only when it is not already listed |
| Config.EnableIdempotent | src/config.js:156-163 | enabling twice is enabling once |
| Config.DisableEffect | src/config.js:150-170 | a disabled group stays admitted exactly when the whitelist became empty, because an empty whitelist admits every group |
| Config.DisableLeavesOthers | src/config.js:150-170 | unless the whitelist becomes empty, disabling one group does not change whether any other group is admitted |
| Config.LoadSettings | src/config.js:50-82 | the file's showId is kept even when falsy and defaults to true; a truthy nightMode is kept; without a truthy labelConfig every label is shown |
| Config.BotConfig.constructor | src/config.js:9-85 | the settings are those loaded from the file, with the given group overrides, whitelist and root admin |
| Config.BotConfig.GetGroupConfig | src/config.js:88-93 | the value that Lookup gives for the current overrides and settings |
| Config.BotConfig.SetGroupConfig | src/config.js:96-103 | the override store becomes SetEntry of the old one; for a truthy group id the key then reads back as the value set |
| Config.BotConfig.AddGroupAdmin | src/config.js:122-134 | the result and the new store are AddAdmin of the old store, a TypeError leaving the store unchanged; with truthy ids and an array or falsy `admins` the user is then a group admin |
| Config.BotConfig.RemoveGroupAdmin | src/config.js:136-148 | the result and the new store are RemoveAdmin of the old store, a TypeError leaving the store unchanged |
| Config.BotConfig.EnableGroup | src/config.js:156-163 | the whitelist becomes EnableList of the old one, and the group is then enabled |
| Config.BotConfig.DisableGroup | src/config.js:165-170 | the whitelist loses every entry equal to the group's id text and nothing else |
| CacheManager.Stats | src/utils/cacheManager.js:70-81 | the candidates are exactly the '.json' entries whose stat succeeded |
| CacheManager.StatsAppend | src/utils/cacheManager.js:70-81 | the candidates of a concatenated listing are those of the first part followed by those of the second, so listing order is kept |
| CacheManager.StatsOne | src/utils/cacheManager.js:70-81 | a single entry gives its stat record iff it is a '.json' file whose stat succeeded |
| CacheManager.TotalAppend | src/utils/cacheManager.js:76 | the running total of sizes adds up over concatenation |
| CacheManager.Insert | src/utils/cacheManager.js:85 | inserting keeps every file and adds exactly one |
| CacheManager.InsertSorted | src/utils/cacheManager.js:85 | inserting into an mtime-ordered list keeps it ordered |
| CacheManager.SortByMtime | src/utils/cacheManager.js:85 | the sort orders by ascending modification time and is a permutation of its input |
| CacheManager.TotalPermutation | src/utils/cacheManager.js:83-87 | reordering the candidates does not change their total size |
| CacheManager.Evict | src/utils/cacheManager.js:90-100 | at most the given files are unlinked, never one whose unlink fails, and none at all when the size already fits |
| CacheManager.EvictStep | src/utils/cacheManager.js:90-99 | while over budget, the next file is skipped without changing the running size when its unlink fails, and otherwise unlinked with its size subtracted |
| CacheManager.EvictDone | src/utils/cacheManager.js:90-91 | the loop unlinks nothing more once the list is exhausted or the size fits |
| CacheManager.EvictPrefix | src/utils/cacheManager.js:85-100 | without unlink failures the unlinked files are a prefix of the sorted list |
| CacheManager.EvictFits | src/utils/cacheManager.js:87-100 | without unlink failures the size ends within budget, unless every file was unlinked |
| CacheManager.EvictLastNeeded | src/utils/cacheManager.js:90-91 | without unlink failures the last unlinked file was still needed: before it the size was over budget |
| CacheManager.WithinBudgetKeepsAll | src/utils/cacheManager.js:83 | nothing is unlinked while the cache files fit the budget |
| CacheManager.CleanupOnlyCacheFiles | src/utils/cacheManager.js:70-100 | only counted '.json' candidates are unlinked, and never one whose unlink fails |
| CacheManager.SortedPrefixOlder | src/utils/cacheManager.js:85 | every file of a prefix of the sorted list is at least as old as every file after it |
| CacheManager.CleanupEndsWithinBudget | src/utils/cacheManager.js:64-109 | without unlink failures the remaining size fits the budget, and the unlinked files are the oldest ones, a prefix of the mtime order |
| CacheManager.Remaining | src/utils/cacheManager.js:94 | an entry remains exactly when no unlinked file has its name |
| CacheManager.Cache.constructor | src/utils/cacheManager.js:6-10 | the budget is 1 GiB (1024 * 1024 * 1024 bytes) over the given listing |
| CacheManager.Cache.CheckSizeAndCleanup | src/utils/cacheManager.js:64-109 | the unlinked files are Cleanup of the listing, the final running size is the total minus their sizes, and exactly those files leave the directory |
| CacheManager.CollectStats | src/utils/cacheManager.js:67-81 | the first loop yields exactly the candidates and their total size |
| CacheManager.EvictOldest | src/utils/cacheManager.js:87-100 | the second loop unlinks exactly Evict of the sorted list and ends with the total minus the unlinked sizes |
| VectorMemory.FileName | src/services/vectorMemoryService.js:29 | a group's file is named by the group id's text with the '.json' suffix |
| VectorMemory.FromFile | src/services/vectorMemoryService.js:29-47 | a non-empty list is read only from the group's stored file; a missing, blank or unparsable file yields the empty list |
| VectorMemory.Cached | src/services/vectorMemoryService.js:26-48 | a group already loaded answers with its cached list; otherwise the file's list |
| VectorMemory.Appended | src/services/vectorMemoryService.js:125-135 | the new entry is last; the list is the newest entries of the old list plus the entry, at most 500 when it was within capacity, and the plain append while under capacity |
| VectorMemory.AddAllIsWindow | src/services/vectorMemoryService.js:125-135 | adding entries one by one, oldest first, keeps exactly the newest 500 of the whole history |
| VectorMemory.Scored | src/services/vectorMemoryService.js:152-157 | one hit per stored entry, in order, carrying its text, role, time and similarity to the query |
| VectorMemory.Filtered | src/services/vectorMemoryService.js:162 | a hit is kept exactly when it scores above 0.4 and is not the query text itself |
| VectorMemory.InsertDesc | src/services/vectorMemoryService.js:163 | inserting keeps every hit and adds exactly one |
| VectorMemory.InsertDescSorted | src/services/vectorMemoryService.js:163 | inserting into a list ordered by descending score keeps it ordered |
| VectorMemory.SortByScore | src/services/vectorMemoryService.js:163 | highest score first, a permutation of the input |
| VectorMemory.SliceLength | src/services/vectorMemoryService.js:164 | slice(0, limit) keeps min(limit, n) entries for a non-negative limit, and counts from the end for a negative one |
| VectorMemory.Rank | src/services/vectorMemoryService.js:150-164 | an empty memory gives no results |
| VectorMemory.RankSound | src/services/vectorMemoryService.js:152-164 | every result is a stored entry scored against the query, above the threshold and different from the query text |
| VectorMemory.RankOrderedAndBounded | src/services/vectorMemoryService.js:163-164 | results come highest score first and number at most the limit |
| VectorMemory.SortedPrefixHigher | src/services/vectorMemoryService.js:163-164 | each hit of a prefix of the sorted list scores at least as high as every hit after it |
| VectorMemory.RankTop | src/services/vectorMemoryService.js:161-164 | the results are the top-scoring relevant hits: none left out scores higher, and all relevant hits are returned when the limit allows |
| VectorMemory.MemoryStore.constructor | src/services/vectorMemoryService.js:9-13 | the service starts with nothing loaded over the given files |
| VectorMemory.MemoryStore.LoadGroupMemory | src/services/vectorMemoryService.js:26-48 | the cached list, else the file's list, which is then cached; files are not touched |
| VectorMemory.MemoryStore.SaveGroupMemory | src/services/vectorMemoryService.js:51-61 | a loaded group's list is written to its file; a group not loaded writes nothing |
| VectorMemory.MemoryStore.AddMemory | src/services/vectorMemoryService.js:109-141 | a text shorter than 5 UTF-16 units or without an embedding changes nothing; otherwise the group's list becomes Appended of the loaded list and is saved to its file |
| VectorMemory.MemoryStore.Search | src/services/vectorMemoryService.js:144-169 | without a query embedding there are no results and nothing is loaded; otherwise the group is loaded and the results are Rank of its list; files are never written |
| VectorMemory.SaveThenLoad | src/services/vectorMemoryService.js:29-61 | what was saved is read back by a later load, for the same group id or any id with the same text |
| VectorMemory.AddKeepsCapacity | src/services/vectorMemoryService.js:132-135 | a group within capacity stays within it after an add, and the newest entry is last |
| UrlParser.Run | src/utils/urlParser.js:4-10 | the longest run of word or digit characters from a position: all of it in the class, and the next character not |
| UrlParser.CaptureEnd | src/utils/urlParser.js:4-10 | a captured group, when one matches, is non-empty and inside the text |
| UrlParser.MatchAt | src/utils/urlParser.js:4-10 | a match at a position starts there and captures a non-empty group inside the text that ends the match |
| UrlParser.FirstMatch | src/utils/urlParser.js:17 | the match found starts at or after the search start and lies inside the text |
| UrlParser.FirstMatchIsLeftmost | src/utils/urlParser.js:17 | the match found is a match at its start and no earlier position matches; when none is found no position matches |
| UrlParser.FirstKindWins | src/utils/urlParser.js:16-24 | the first kind in table order (video, dynamic, article, bangumi, live, short link) whose pattern matches is the one reported, with its captured id and matched text |
| UrlParser.FirstKindWinsFrom | src/utils/urlParser.js:16-24 | the same, for the rest of the table from any position |
| UrlParser.ExtractKinds | src/utils/urlParser.js:20 | a reported kind is never 'live', which is reported as 'video', and never 'short' |
| UrlParser.ExtractKindsFrom | src/utils/urlParser.js:16-25 | every kind the rest of the table can report is one of the reported kinds |
| UrlParser.ShortAfterTable | src/utils/urlParser.js:27-36 | once the table, whose last entry is the short-link pattern, has failed, the separate short-link check cannot match |
| UrlParser.ExtractStep | src/utils/urlParser.js:16-24 | one loop step: a kind that does not match passes on to the next, one that matches is reported |
| UrlParser.ExtractNone | src/utils/urlParser.js:14-39 | nothing is reported exactly when no pattern of the table matches |
| UrlParser.ExtractNoneFrom | src/utils/urlParser.js:16-38 | the same, for the rest of the table from any position |
| UrlParser.ExtractBiliUrl | src/utils/urlParser.js:14-39 | the loop reports exactly Extract of the text |
| UrlParser.ShortLinkCheck | src/utils/urlParser.js:27-38 | after a failed table, the short-link check reports nothing |
| UrlParser.HasBiliContent | src/utils/urlParser.js:79-86 | true exactly when some pattern matches, which is exactly when a link is extracted |
| UrlParser.FromMiniApp | src/utils/urlParser.js:42-57 | when the first truthy of qqdocurl, jumpUrl and prompt is a string containing 'bilibili.com', the result is the link extracted from it; otherwise there is none |
| UrlParser.Chosen | src/utils/urlParser.js:45-47 | the first truthy of the three fields, in order, and nothing when none is truthy |
| UrlParser.MiniAppPrefersDocUrl | src/utils/urlParser.js:45 | a truthy qqdocurl decides alone; the other fields are not consulted |
| UrlParser.MiniAppNeedsHost | src/utils/urlParser.js:49-53 | a URL without 'bilibili.com' is never parsed, even when it holds a short link |
| UrlParser.AlphabetIndex | src/utils/urlParser.js:72 | the alphabet position of a character, or -1 when it is not in the alphabet |
| UrlParser.SearchFrom | src/utils/urlParser.js:72 | the first position of a character at or after a start, or -1 exactly when it does not occur there |
| UrlParser.Digit | src/utils/urlParser.js:68-72 | each digit read is an alphabet index or -1 |
| UrlParser.BvDigits | src/utils/urlParser.js:71-73 | the loop reads exactly six digits, those of the characters after the 'BV' prefix |
| UrlParser.Bv2av | src/utils/urlParser.js:60-76 | the loop computes Bv2avOf of the id, which never exceeds the 51-bit mask |
| UrlParser.MaskIsPow2 | src/utils/urlParser.js:63 | the mask constant is 2^51 - 1 |
| UrlParser.MaskBound | src/utils/urlParser.js:75 | a masked value XOR the constant stays within the mask |
| UrlParser.FoldRange | src/utils/urlParser.js:71-73 | six base-58 digits fold to a value below 58^6 |
| UrlParser.WellFormedDigits | src/utils/urlParser.js:72 | an id whose six characters are in the alphabet yields base-58 digits |
| UrlParser.MaskIsIdentity | src/utils/urlParser.js:75 | for a well-formed id the mask changes nothing: the result is the folded value XOR the constant |
| UrlParser.FoldInjective | src/utils/urlParser.js:71-73 | different digit sequences of the same length fold to different values |
| UrlParser.Bv2avInjective | src/utils/urlParser.js:60-76 | well-formed ids with the same AV number have the same six id characters |
| BiliLogin.Keys | src/utils/biliLogin.js:126 | the keys of the cookie object, one per entry, in insertion order |
| BiliLogin.Put | src/utils/biliLogin.js:122 | assigning a known key keeps the number of entries; a new key is appended with its value; the key set gains exactly that key |
| BiliLogin.PutKeepsUnique | src/utils/biliLogin.js:122 | assignment never duplicates a key |
| BiliLogin.PutLookup | src/utils/biliLogin.js:122 | after an assignment the key reads the assigned value and every other key reads what it read before |
| BiliLogin.EntriesUnique | src/utils/biliLogin.js:119-123 | the cookie object never holds a key twice |
| BiliLogin.LastHeaderWins | src/utils/biliLogin.js:119-123 | each key holds the value of the last header with that key, and is absent when no header has it |
| BiliLogin.Render | src/utils/biliLogin.js:126-128 | an empty object gives the empty string |
| BiliLogin.EntriesStep | src/utils/biliLogin.js:119-123 | one turn of the forEach assigns one header's key and value |
| BiliLogin.CollectEntries | src/utils/biliLogin.js:117-123 | the forEach loop builds exactly the folded cookie object |
| BiliLogin.ExtractCookies | src/utils/biliLogin.js:115-131 | the result is the rendering of the folded headers, and the empty string when there are none |
| BiliLogin.Fire | src/utils/biliLogin.js:56-63 | while the interval is set, every tick counts, and tick 61 rejects with the counter's expiry message without asking the server; the poll is then still pending exactly when the count is at most 60; a settled poll no longer ticks |
| BiliLogin.Reply | src/utils/biliLogin.js:66-108 | a reply settles only a pending promise: code 0 resolves with the extracted cookies, 86038 rejects with the server's expiry message, any other code or a failed request changes nothing; a late reply to a settled promise is ignored |
| BiliLogin.InOrder | src/utils/biliLogin.js:56-110 | the schedule in which each reply arrives before the next tick: tick, reply, tick, reply, … |
| BiliLogin.InOrderFires | src/utils/biliLogin.js:56-110 | in that schedule the interval fires once per answer |
| BiliLogin.PendingIff | src/utils/biliLogin.js:53-110 | for any interleaving of ticks and replies, the promise is still pending exactly when the interval fired at most 60 times and every reply kept polling; the counter then equals the number of ticks |
| BiliLogin.SettlesWithin61 | src/utils/biliLogin.js:54-63 | however the server answers and however late its replies come, the promise settles by the 61st tick |
| BiliLogin.SuccessGivesCookies | src/utils/biliLogin.js:56-96 | a code 0 reply that arrives while the interval has fired at most 60 times, after replies that all kept polling, resolves the login with exactly that reply's cookies |
| BiliLogin.ExpiryBeatsLateReply | src/utils/biliLogin.js:56-96 | the converse: once the interval has fired more than 60 times before a reply arrives, with no earlier reply settling, the login is rejected by the counter and that reply, even a code 0, is ignored |
| BiliLogin.LateSuccessIgnored | src/utils/biliLogin.js:56-96 | fifty-nine 'not scanned' replies, then a code 0 reply to tick 60 that arrives after tick 61: the login is rejected with the counter's expiry message |
| BiliLogin.Login.constructor | src/utils/biliLogin.js:7-10 | a fresh login has no QR key and a fresh pending counter |
| BiliLogin.Login.GetQRCode | src/utils/biliLogin.js:13-33 | a non-zero code fails with the server's message and keeps the old key; code 0 stores the key and returns the URL and key |
| BiliLogin.Login.StartPolling | src/utils/biliLogin.js:52-53 | polling starts with a zero counter, pending |
| BiliLogin.Login.OnInterval | src/utils/biliLogin.js:56-63 | a firing of the interval moves the poll state by Fire |
| BiliLogin.Login.OnReply | src/utils/biliLogin.js:66-108 | the arrival of a reply moves the poll state by Reply, extracting the cookies of a code 0 reply |
| BiliLogin.SkipSpaces | src/utils/biliLogin.js:140 | the greedy white-space run stays inside the text |
| BiliLogin.CloseQuote | src/utils/biliLogin.js:140 | the lazy scan ends just after a quote inside the text |
| BiliLogin.CookieAt | src/utils/biliLogin.js:140 | a cookie match at a position starts with 'cookie:' and ends inside the text after both quotes |
| BiliLogin.BlockAt | src/utils/biliLogin.js:149 | a block match at a position starts with 'bilibili:' and ends on the opening brace |
| BiliLogin.FirstCookie | src/utils/biliLogin.js:140-141 | the match found is a cookie match at or after the start |
| BiliLogin.FirstBlock | src/utils/biliLogin.js:148-149 | the match found is a block opening at or after the start |
| BiliLogin.ExpandPlain | src/utils/biliLogin.js:142-151 | a replacement without '$' is inserted literally |
| BiliLogin.SaveCookie | src/utils/biliLogin.js:134-164 | success exactly when the file could be read and written; the file then holds the rewritten content, and is unchanged otherwise |
| BiliLogin.CleanFieldsArePlain | src/utils/biliLogin.js:144-150 | the replacement texts for a clean cookie hold no '$' pattern |
| BiliLogin.SaveReplacesField | src/utils/biliLogin.js:140-145 | an existing cookie field is overwritten in place, from the key through the closing quote |
| BiliLogin.SaveInsertsField | src/utils/biliLogin.js:146-151 | without a cookie field, a new one is written right after the opening of the bilibili block |
| BiliLogin.CloseQuoteSkips | src/utils/biliLogin.js:140 | characters that are neither quotes nor line terminators do not change where the lazy scan ends |
| BiliLogin.ScanStopsAtInsertion | src/utils/biliLogin.js:140 | a quote scan that failed before the block also fails in the rewritten text |
| BiliLogin.SpacesBeforeInsertion | src/utils/biliLogin.js:140 | before the block, white-space runs stop at the same place in both texts |
| BiliLogin.NoFieldBeforeInsertion | src/utils/biliLogin.js:140 | no cookie match starts before the inserted field when the old text had none there |
| BiliLogin.KeyBeforeBlock | src/utils/biliLogin.js:140-149 | a 'cookie:' key before the block in the new text lies wholly in the old text |
| BiliLogin.ScanBeforeBlock | src/utils/biliLogin.js:140 | after such a key, the new text's quote scan fails as the old one did |
| BiliLogin.NoFieldInIndent | src/utils/biliLogin.js:150 | no cookie match starts inside the inserted 'bilibili: {' and indentation |
| BiliLogin.InsertedFieldMatches | src/utils/biliLogin.js:140-150 | the inserted field is itself a cookie match, ending at its closing quote |
| BiliLogin.FirstCookieSkips | src/utils/biliLogin.js:140-141 | the leftmost search passes over positions where nothing matches |
| BiliLogin.InsertedFieldIsFirst | src/utils/biliLogin.js:140-151 | in text an insertion wrote, the leftmost cookie match is the inserted field |
| BiliLogin.OverwriteInserted | src/utils/biliLogin.js:142-150 | overwriting the inserted field gives the text a direct insertion of the new cookie would give |
| BiliLogin.ReplaceInserted | src/utils/biliLogin.js:140-150 | a save over text an insertion wrote equals inserting the new cookie directly |
| BiliLogin.SecondSaveOverwritesInsertion | src/utils/biliLogin.js:139-151 | when the first save inserted a field, a second save gives the same file as saving only the second cookie |
| BiliService.Dumped | src/services/bili_service.py:18-24 | the saved object has exactly the three members SESSDATA, BILI_JCT and BUVID3 |
| BiliService.Loaded | src/services/bili_service.py:10-16 | no credential exactly when the file is missing; an error exactly when the file cannot be read as an object; otherwise the three members, absent ones as None |
| BiliService.LoadAfterSave | src/services/bili_service.py:10-24 | loading what was saved gives back the same credential, None fields included |
| BiliService.LoadIgnoresOtherMembers | src/services/bili_service.py:14 | members other than the three are ignored by the loader |
| BiliService.PollReply | src/services/bili_service.py:54-76 | success exactly for a completed login whose save succeeded; pending exactly for scanned and confirming states, with codes 86101 and 86090; 86038 for expiry; an exception's text as the error message; the unknown-state error otherwise |
| BiliService.CredentialStore.constructor | src/services/bili_service.py:8 | the store starts with the file as found on disk |
| BiliService.CredentialStore.Load | src/services/bili_service.py:10-16 | load_credential reads exactly Loaded of the current file |
| BiliService.CredentialStore.Save | src/services/bili_service.py:18-24 | a successful write stores the three members of the credential; a failed write reports the error and leaves the file alone |
| BiliService.CredentialStore.PollLogin | src/services/bili_service.py:54-76 | the reply is PollReply of the checked state; only a completed login whose save succeeds writes the file |
| BiliService.LoginThenLoad | src/services/bili_service.py:10-24 | after a successful login the next load hands back that login's credential |
| BiliService.WithArgument | src/services/bili_service.py:132-164 | a command that takes an argument is never the argument-free login_url |
| BiliService.DispatchArgs | src/services/bili_service.py:125-167 | fewer than two arguments give the 'No command provided' error; login_url runs without an argument; an unknown name gives 'Unknown command'; a known command without its argument stops on the missing argument |
| BiliService.DispatchUsesSecondArgument | src/services/bili_service.py:132-164 | each command runs on the argument right after its name, and later arguments are ignored |
| BiliService.WithArgumentInjective | src/services/bili_service.py:132-164 | different command names or arguments never give the same command |

## Left out

- I/O of every kind is a parameter or left out: reading and writing files, the network, timers, printing and logging. Where a result depends on it, the model takes it as an input (listed below).
- `generateCSS`, `getCustomFonts` (theme.js, formatters.js) and the icon set of the renderers: CSS text and font files, not logic; the icon markup is a placeholder constant, because `icons.js` is not part of this model.
- Formatters.FormatNumber: the unit choice (none, 万, 亿) is exact, but the `toFixed(1)` text is approximated by integer round-half-up on tenths; floating-point formatting is not modelled.
- Formatters.FormatNumber: `Number()` of a string is modelled only for (trimmed) empty text and plain digit strings; a string with a sign, a fraction, an exponent, a hex prefix or `Infinity` is passed through as its text, whereas formatters.js:118-127 compares its numeric value ("12345.6" gives "1.2万" there, "1e5" gives "10.0万").
- VoteCard.Percent: vote.js:28 rounds the double `(cnt / total) * 100` with `Math.round`; the model rounds the exact quotient half up. The two differ where the double product falls just below a .5 boundary (23 of 40 gives 57 in the source and 58 here; 29 of 200 gives 14 and 15); the bounds stated (0 for a zero total, at most 100) hold for both.
- DynamicCard.PubTime: `formatPubTime` reads the clock and the local time zone; the text for a real timestamp is the `clockText` input, and only the empty-timestamp case is stated.
- BangumiCard.Schedule: the weekday that `new Date(...).getDay()` gives for the publish time, or `None` when the date is invalid, is an input; date parsing and the local time zone belong to the host. The time piece is cut with the same UTF-16 rule and surrogate-pair difference as Subscriptions.Prefix.
- DynamicCard.RenderOrigContent, UserCard.RenderUserContent: HTML templates assembled from the view functions that carry the contracts; they have no contract of their own. BangumiCard.RenderBangumiContent states only when it throws; its markup is a template in the same way.
- DynamicCard.AttachedOf: the `live_rcmd` content is a JSON string that `renderDynamicContent` parses (dynamic.js:106-116); the parsed `live_play_info`, or its absence when parsing fails, is an input.
- Text.TrimStart, Text.TrimEnd: only their lengths are stated; they are helpers of `trim()`.
- Subscriptions.Prefix: `slice(0, n)` counts UTF-16 code units and, when unit n falls inside a surrogate pair, keeps the lone high surrogate, which a Dafny string cannot hold; the model stops before that pair, so its text is then one unit shorter.
- Subscriptions.Summary: cut by Subscriptions.Prefix at 80 units, with the same surrogate-pair difference.
- UrlParser.HostLen: no contract of its own; the leftmost-match property is stated by `UrlParser.FirstMatchIsLeftmost`. Regular expressions are hand-written matchers for the six URL patterns, with ASCII case folding only.
- `cleanUrl` (urlParser.js): it relies on the URL API, which is not part of this model.
- Notification.CleanText: the `Buffer.from(cleaned, 'utf8')` check cannot fail on a JavaScript string, so its catch branch is not modelled.
- `saveImageAsFile` (notificationService.js): random file names, directory creation and the size log become the `save` function parameter, which gives the saved path or nothing on failure.
- `sendPrivateMessage` (notificationService.js): the same code as `sendGroupMessage` with the `send_private_msg` action and a user id; it is not modelled separately.
- Subscriptions.SubscriptionService: `start`, `updateCheckInterval`, `checkAll` and `setWs` (timers and the socket hand-over) are left out; `saveSubscriptions` (the file write) is left out; the copies of `notifyGroups`, `saveImageAsFile` and `cleanText` inside the service are not repeated, and the checks return the notices they would send as `Notice` values.
- Subscriptions.CheckPost, Subscriptions.CheckLive, Subscriptions.CheckEpisode: the API replies, the rendered preview image and the clock (`Date` parsing of publication times) are inputs.
- CacheManager: `get`, `set` and `init` are file reads and writes; in `checkSizeAndCleanup` the results of `fs.stat` and failures of `unlink` are inputs.
- VectorMemory: `getEmbedding` (a network call) is an `Option` input; `cosineSimilarity` is the floating-point score function `sim`, a parameter; `Date.now` is the `now` input; the asynchronous file write of `saveGroupMemory` is modelled as an immediate one, and its failure is not.
- BiliLogin: `validateCookie`, `login`, `cancel`, `showQRCode` and the command-line entry are network calls, terminal output and timer control; the HTTP replies of `getQRCode` and of each poll are inputs.
- BiliLogin.SaveCookie: the read and write of `src/config.js` become the `source` and `writable` inputs. The replacement text is expanded as `String.prototype.replace` does (`$$`, `$&`, `` $` ``, `$'`, by `Expand`), so the operation itself holds for any cookie; only the lemmas about the rewritten file assume a cookie without `$`, quotes or line breaks (`Clean`).
- BiliLogin.Put: a JavaScript object lists integer-like keys (such as "123") first, in ascending order, and assigning `__proto__` adds no entry; the model keeps every key in first-assignment order and treats `__proto__` as an ordinary key. Set-Cookie names are cookie names, which in practice are neither.
- BiliLogin.SecondSaveOverwritesInsertion: proved for a first save that inserted the line; a first save that replaced an existing line whose quoted value spans a line break is not claimed.
- BiliService: the library calls `get_video_info`, `get_bangumi_info`, `get_login_url`, `get_user_dynamic`, `get_user_live` and `get_dynamic_detail` are network calls and left out; JSON values other than strings and null in the credential file are left out.
- BiliService.CredentialStore.Save: Python's `open(..., 'w')` truncates the file before a dump that may fail; the model keeps the old file when the write fails.

## Findings

| source | as written | input that shows it | evidently intended | confidence | as-written member | corrected member |
|---|---|---|---|---|---|---|
| src/services/subscriptionService.js:386-408 | `updateEpoch` is declared with `let` inside the `try` block, but `sub.lastEpTime = updateEpoch` runs after that block; the line throws a `ReferenceError` right after `lastEpId` was stored, and the caller's catch swallows it, so `lastEpTime` is never updated | a bangumi subscription whose season reports a new, truthy `new_ep.id` | `lastEpTime` becomes the update time of the new episode together with `lastEpId` | not executed | Subscriptions.CheckEpisodeAsWritten (see Subscriptions.EpisodeTimeLost) | Subscriptions.CheckEpisode |
