/**
  The loosely typed API payloads the card renderers read. Every field of the
  JSON is optional (`None` is a missing key or `null`); a field whose absence
  the code replaces by `{}` or `[]` is read through the `Get…` helpers below.
*/
module BiliData {
  import opened Wrappers
  import opened Js

  /** A rich-text node of a post's text; `emojiIcon` is `node.emoji.icon_url`. */
  datatype RichNode = RichNode(kind: string, text: string, emojiIcon: Option<string>)

  /** `desc` or `opus.summary`: the plain text and its rich-text nodes. */
  datatype Desc = Desc(text: Option<string>, nodes: Option<seq<RichNode>>)

  /** `major.opus`: summary, title and picture URLs. */
  datatype Opus = Opus(summary: Option<Desc>, title: Option<string>, pics: Option<seq<string>>)

  /** `major.draw`: the picture URLs of `items[].src`. */
  datatype Draw = Draw(items: Option<seq<string>>)

  datatype ArchiveStat = ArchiveStat(play: Option<Scalar>, view: Option<Scalar>, danmaku: Option<Scalar>)

  /** `major.archive`: an attached video. */
  datatype Archive = Archive(cover: Option<string>, title: Option<string>, desc: Option<string>,
                             durationText: Option<string>, stat: Option<ArchiveStat>)

  /** `live_play_info` of a live recommendation. */
  datatype LivePlayInfo = LivePlayInfo(liveStatus: Option<int>, cover: Option<string>, title: Option<string>,
                                       parentAreaName: Option<string>, areaName: Option<string>,
                                       watchedText: Option<string>)

  /**
    `major.live_rcmd`: the JSON text `content` and, as an input, what parsing
    it yields (`None` when it does not parse or has no `live_play_info`).
  */
  datatype LiveRcmd = LiveRcmd(content: Option<string>, playInfo: Option<LivePlayInfo>)

  datatype VoteItem = VoteItem(cnt: Option<nat>, desc: Option<string>, name: Option<string>,
                               text: Option<string>, image: Option<string>)

  /** A vote object in any of the shapes the API uses; `inner` is a nested `.vote`. */
  datatype Vote = Vote(desc: Option<string>, title: Option<string>,
                       items: Option<seq<VoteItem>>, options: Option<seq<VoteItem>>,
                       joinNum: Option<nat>, participant: Option<nat>, total: Option<nat>, totalNum: Option<nat>,
                       choiceCnt: Option<nat>, choiceCount: Option<nat>, multiSelect: bool,
                       inner: Option<Vote>)

  datatype Major = Major(draw: Option<Draw>, opus: Option<Opus>, archive: Option<Archive>,
                         liveRcmd: Option<LiveRcmd>, vote: Option<Vote>)

  /** `module_dynamic`; `additionalVote` is `additional.vote`. */
  datatype ModuleDynamic = ModuleDynamic(desc: Option<Desc>, major: Option<Major>, additionalVote: Option<Vote>)

  datatype DecorationFan = DecorationFan(numDesc: Option<string>, color: Option<string>)

  datatype DecorationCard = DecorationCard(cardUrl: Option<string>, fan: Option<DecorationFan>)

  /** `module_author`; `pendantImage` is `pendant.image`. */
  datatype ModuleAuthor = ModuleAuthor(name: Option<string>, face: Option<string>, pubTs: Option<int>,
                                       pubTime: Option<string>, decorationCard: Option<DecorationCard>,
                                       pendantImage: Option<string>)

  /** `module_stat`: the `count` of forwards, comments and likes. */
  datatype ModuleStat = ModuleStat(forward: Option<Scalar>, comment: Option<Scalar>, like: Option<Scalar>)

  datatype ModuleInteraction = ModuleInteraction(vote: Option<Vote>, voteInfo: Option<Vote>)

  datatype Modules = Modules(author: Option<ModuleAuthor>, dynamic: Option<ModuleDynamic>,
                             stat: Option<ModuleStat>, interaction: Option<ModuleInteraction>)

  /** The decoration summary some payloads carry beside the modules (`author`). */
  datatype AuthorInfo = AuthorInfo(level: Option<int>, pendantUrl: Option<string>, cardUrl: Option<string>,
                                   fanColor: Option<string>, cardNumber: Option<string>,
                                   cardFocusColor: Option<string>, avatarFocusColor: Option<string>)

  /**
    A dynamic post: `data.data` itself, or what `.item` wraps, or a reposted
    `orig`. `pubTs` is the post's `pub_ts`.
  */
  datatype Post = Post(item: Option<Post>, kind: Option<string>, modules: Option<Modules>,
                       orig: Option<Post>, author: Option<AuthorInfo>, pubTs: Option<int>)

  // ------------------------------------------------------------ bangumi and user

  datatype Publish = Publish(releaseDateShow: Option<string>, isFinish: Option<int>, pubTime: Option<string>)

  datatype NewEp = NewEp(id: Option<int>, desc: Option<string>, title: Option<string>, indexShow: Option<string>)

  datatype BangumiStat = BangumiStat(views: Option<Scalar>, follow: Option<Scalar>, danmakus: Option<Scalar>)

  /**
    A season; `areas` holds each area's `name`. `ratingScore` is the number
    `rating.score`: a whole number as `IntVal`, a fractional one (such as
    9.7) as `StrVal` of its JavaScript text, which is never empty.
  */
  datatype Season = Season(cover: Option<string>, title: Option<string>, desc: Option<string>,
                           seasonType: Option<int>, typeDesc: Option<string>,
                           styles: Option<seq<string>>, areas: Option<seq<Option<string>>>,
                           publish: Option<Publish>, newEp: Option<NewEp>, stat: Option<BangumiStat>,
                           ratingScore: Option<Scalar>)

  datatype Relation = Relation(follower: Option<Scalar>, following: Option<Scalar>)

  datatype Vip = Vip(status: Option<int>, labelText: Option<string>)

  /** `fans_medal.medal`. */
  datatype Medal = Medal(medalName: Option<string>, level: Option<int>)

  /** A user card; `dynamic` is the latest post. */
  datatype UserInfo = UserInfo(uid: Option<string>, face: Option<string>, name: Option<string>, sign: Option<string>,
                               pendantImage: Option<string>, relation: Option<Relation>, level: Option<int>,
                               vip: Option<Vip>, medal: Option<Medal>, likes: Option<Scalar>,
                               archiveView: Option<Scalar>, dynamic: Option<Post>)

  // ------------------------------------------------------------ `x || {}`

  const NoModules := Modules(None, None, None, None)
  const NoAuthor := ModuleAuthor(None, None, None, None, None, None)
  const NoDynamic := ModuleDynamic(None, None, None)
  const NoMajor := Major(None, None, None, None, None)
  const NoStat := ModuleStat(None, None, None)
  const NoInteraction := ModuleInteraction(None, None)
  const NoAuthorInfo := AuthorInfo(None, None, None, None, None, None, None)
  const NoCard := DecorationCard(None, None)
  const NoFan := DecorationFan(None, None)

  function GetAuthor(m: Modules): ModuleAuthor { m.author.GetOr(NoAuthor) }
  function GetDynamic(m: Modules): ModuleDynamic { m.dynamic.GetOr(NoDynamic) }
  function GetMajor(d: ModuleDynamic): Major { d.major.GetOr(NoMajor) }

  /** The opus of a major, when there is one (`major?.opus`). */
  function OpusOf(d: ModuleDynamic): Option<Opus>
  {
    if d.major.Some? then d.major.value.opus else None
  }
}
