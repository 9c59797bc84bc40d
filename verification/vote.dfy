/**
  The vote component: `renderVoteCard`, `normalizeVote` and
  `getVoteFromModules`. A vote is first read into a `VoteView` (the numbers
  and texts the card shows); the card's HTML is a template over that view.
*/
module VoteCard {
  import opened Wrappers
  import opened Text
  import opened Js
  import opened Arith
  import opened Formatters
  import opened BiliData

  /** `x || 0` for a count. */
  function Count(o: Option<nat>): nat
  {
    if o.Some? then o.value else 0
  }

  /** `c0 || c1 || ... || 0` over counts. */
  function FirstCount(cands: seq<Option<nat>>): (r: nat)
    ensures r != 0 ==> exists k :: 0 <= k < |cands| && cands[k] == Some(r)
    ensures r == 0 <==> forall k :: 0 <= k < |cands| ==> Count(cands[k]) == 0
  {
    if cands == [] then 0
    else if Count(cands[0]) != 0 then cands[0].value
    else
      var r := FirstCount(cands[1..]);
      assert r != 0 ==> exists k :: 1 <= k < |cands| && cands[k] == Some(r) by {
        if r != 0 {
          var k :| 0 <= k < |cands[1..]| && cands[1..][k] == Some(r);
          assert cands[k + 1] == Some(r);
        }
      }
      assert forall k :: 1 <= k < |cands| ==> cands[k] == cands[1..][k - 1];
      r
  }

  /** `items || options || []`: a present array is truthy even when empty. */
  function Items(v: Vote): seq<VoteItem>
  {
    if v.items.Some? then v.items.value else if v.options.Some? then v.options.value else []
  }

  /** The participant count the API reports, under any of its four names. */
  function TotalFromApi(v: Vote): nat
  {
    FirstCount([v.joinNum, v.participant, v.total, v.totalNum])
  }

  /** The sum of the items' counts. */
  function SumCnt(items: seq<VoteItem>): nat
  {
    if items == [] then 0 else Count(items[0].cnt) + SumCnt(items[1..])
  }

  lemma {:induction false} CntAtMostSum(items: seq<VoteItem>, i: nat)
    requires i < |items|
    ensures Count(items[i].cnt) <= SumCnt(items)
  {
    if i > 0 {
      CntAtMostSum(items[1..], i - 1);
    }
  }

  /** The larger of the reported total and the sum of the counts. */
  function VoteTotal(v: Vote): (t: nat)
    ensures t >= TotalFromApi(v) && t >= SumCnt(Items(v))
    ensures t == TotalFromApi(v) || t == SumCnt(Items(v))
  {
    if TotalFromApi(v) >= SumCnt(Items(v)) then TotalFromApi(v) else SumCnt(Items(v))
  }

  /** `Math.round(cnt / total * 100)`, taken as round-half-up of the exact ratio. */
  function Percent(cnt: nat, total: nat): (p: nat)
    ensures total > 0 ==> 2 * total * p <= 200 * cnt + total < 2 * total * p + 2 * total
    ensures total > 0 && cnt <= total ==> p <= 100
    ensures total == 0 ==> p == 0
  {
    if total > 0 then
      var p := (200 * cnt + total) / (2 * total);
      PercentAtMost100(cnt, total, p);
      p
    else 0
  }

  lemma PercentAtMost100(cnt: nat, total: nat, p: int)
    requires total > 0 && 2 * total * p <= 200 * cnt + total
    ensures cnt <= total ==> p <= 100
  {
    if cnt <= total && p > 100 {
      MulMonotone(2 * total, 100, p);
    }
  }

  /** `choice_cnt || choiceCount || (multi_select ? 2 : 1)`: never below 1. */
  function ChoiceCnt(v: Vote): (c: nat)
    ensures c >= 1
    ensures Count(v.choiceCnt) != 0 ==> c == v.choiceCnt.value
    ensures Count(v.choiceCnt) == 0 && Count(v.choiceCount) != 0 ==> c == v.choiceCount.value
    ensures Count(v.choiceCnt) == 0 && Count(v.choiceCount) == 0 ==> (c == 2 <==> v.multiSelect)
  {
    if Count(v.choiceCnt) != 0 then v.choiceCnt.value
    else if Count(v.choiceCount) != 0 then v.choiceCount.value
    else if v.multiSelect then 2 else 1
  }

  /** What one option shows; `percent` is absent when nobody has voted. */
  datatype ItemView = ItemView(caption: string, image: Option<string>, count: nat, percent: Option<nat>)

  /** What the card shows. */
  datatype VoteView = VoteView(title: string, items: seq<ItemView>, total: nat, multi: bool, withImages: bool)

  function ItemViewOf(it: VoteItem, total: nat): ItemView
  {
    ItemView(FirstString([it.desc, it.name, it.text], ""),
             if Present(it.image) then it.image else None,
             Count(it.cnt),
             if total > 0 then Some(Percent(Count(it.cnt), total)) else None)
  }

  predicate HasImage(it: VoteItem) { Present(it.image) }

  /** `renderVoteCard`'s reading of a vote. */
  function VoteViewOf(v: Vote): (r: VoteView)
    ensures r.title == FirstString([v.desc, v.title], "投票") && r.title != ""
    ensures r.total == VoteTotal(v)
    ensures |r.items| == |Items(v)|
    ensures forall i :: 0 <= i < |r.items| ==>
              r.items[i].count == Count(Items(v)[i].cnt)
              && (r.total == 0 <==> r.items[i].percent.None?)
              && (r.items[i].percent.Some? ==> r.items[i].percent.value <= 100)
    ensures r.multi <==> ChoiceCnt(v) > 1
    ensures r.withImages <==> exists i :: 0 <= i < |Items(v)| && HasImage(Items(v)[i])
  {
    var items := Items(v);
    var total := VoteTotal(v);
    var views := seq(|items|, i requires 0 <= i < |items| => ItemViewOf(items[i], total));
    assert forall i :: 0 <= i < |items| ==> Count(items[i].cnt) <= total by {
      forall i | 0 <= i < |items| ensures Count(items[i].cnt) <= total {
        CntAtMostSum(items, i);
      }
    }
    VoteView(FirstString([v.desc, v.title], "投票"), views, total, ChoiceCnt(v) > 1,
             exists i :: 0 <= i < |items| && HasImage(items[i]))
  }

  // ------------------------------------------------------------ the template

  function ItemHtml(it: ItemView): string
  {
    var image := if it.image.Some? then it.image.value else "";
    "<div class=\"vote-item " + (if image != "" then "has-image" else "")
    + "\" style=\"position: relative; overflow: hidden;\">"
    + (if it.percent.Some? then "<div class=\"vote-stat-bar\" style=\"width: " + IntToString(it.percent.value) + "%;\"></div>" else "")
    + (if image != "" then "<div class=\"vote-item-image\"><img src=\"" + image + "\" /></div>" else "")
    + "<div class=\"vote-item-content\" " + (if image != "" then "style=\"flex-direction:column; gap:8px;\"" else "") + ">"
    + "<span class=\"vote-text\">" + it.caption + "</span>"
    + (if it.percent.Some? then "<span class=\"vote-stat-text\">" + IntToString(it.count) + "票 (" + IntToString(it.percent.value) + "%)</span>" else "")
    + "</div></div>"
  }

  function ItemsHtml(items: seq<ItemView>): string
  {
    if items == [] then "" else ItemHtml(items[0]) + ItemsHtml(items[1..])
  }

  function VoteHtml(view: VoteView): string
  {
    "<div class=\"vote-card\"><div class=\"vote-header\">" + VoteIcon + view.title + "</div>"
    + "<div class=\"vote-options " + (if view.withImages then "with-images" else "") + "\">"
    + ItemsHtml(view.items)
    + "</div><div class=\"vote-footer\"><span class=\"vote-type-text\">" + (if view.multi then "多选" else "单选")
    + "</span><span class=\"vote-total-text\">" + FormatNumber(Some(IntVal(view.total))) + "人参与</span></div></div>"
  }

  const VoteIcon: string := "<svg class=\"vote-icon\" viewBox=\"0 0 24 24\"><path d=\"M3 13h2v-2H3v2zm0 4h2v-2H3v2zm0-8h2V7H3v2zm4 4h14v-2H7v2zm0 4h14v-2H7v2zM7 7v2h14V7H7z\"/></svg>"

  /** `renderVoteCard`: nothing for a missing vote, else the card of its view. */
  function RenderVoteCard(v: Option<Vote>): (r: string)
    ensures v.None? ==> r == ""
    ensures v.Some? ==> r == VoteHtml(VoteViewOf(v.value)) && r != ""
  {
    if v.None? then "" else VoteHtml(VoteViewOf(v.value))
  }

  // ------------------------------------------------------------ normalizeVote

  /** `normalizeVote`: the four fields the card needs, under one name each. */
  function NormalizeVote(v: Option<Vote>): (r: Option<Vote>)
    ensures r.Some? <==> v.Some?
    ensures v.Some? ==> Items(r.value) == Items(v.value) && TotalFromApi(r.value) == TotalFromApi(v.value)
                        && ChoiceCnt(r.value) == ChoiceCnt(v.value)
  {
    match v
    case None => None
    case Some(x) =>
      Some(Vote(Some(FirstString([x.desc, x.title], "")), None, Some(Items(x)), None,
                Some(TotalFromApi(x)), None, None, None,
                Some(ChoiceCnt(x)), None, false, None))
  }

  /** Normalising a vote does not change the card drawn from it. */
  lemma NormalizeVoteSameCard(v: Option<Vote>)
    ensures RenderVoteCard(NormalizeVote(v)) == RenderVoteCard(v)
  {
    if v.Some? {
      var x, n := v.value, NormalizeVote(v).value;
      var d := FirstString([x.desc, x.title], "");
      assert n.desc == Some(d) && n.title == None;
      FirstStringUnfold([x.desc, x.title], "");
      FirstStringUnfold([x.title], "");
      FirstStringUnfold([x.desc, x.title], "投票");
      FirstStringUnfold([x.title], "投票");
      FirstStringUnfold([Some(d), None], "投票");
      var none: seq<Option<string>> := [None];
      FirstStringUnfold(none, "投票");
      assert [x.desc, x.title][1..] == [x.title];
      assert [x.title][1..] == [];
      assert [Some(d), None][1..] == [None];
      assert none[1..] == [];
      assert VoteViewOf(n) == VoteViewOf(x);
    }
  }

  /** A normalised vote is a fixed point of `normalizeVote`. */
  lemma NormalizeVoteIdempotent(v: Option<Vote>)
    ensures NormalizeVote(NormalizeVote(v)) == NormalizeVote(v)
  {
    if v.Some? {
      var n := NormalizeVote(v).value;
      var d := FirstString([v.value.desc, v.value.title], "");
      assert FirstString([n.desc, n.title], "") == d;
    }
  }

  // ------------------------------------------------------------ getVoteFromModules

  /** The raw vote object of the modules, before normalisation. */
  function RawVote(m: Modules): (r: Option<Vote>)
    ensures var mi := m.interaction.GetOr(NoInteraction);
      (mi.vote.Some? && mi.vote.value.inner.None? ==> r == mi.vote)
      && (mi.vote.Some? && mi.vote.value.inner.Some? ==> r == mi.vote.value.inner)
      && (mi.vote.None? && mi.voteInfo.None? ==>
            r == (if GetMajor(GetDynamic(m)).vote.Some? then GetMajor(GetDynamic(m)).vote
                  else GetDynamic(m).additionalVote))
  {
    var mi := m.interaction.GetOr(NoInteraction);
    var v0 := if mi.vote.Some? then mi.vote else mi.voteInfo;
    var v1 := if v0.Some? && v0.value.inner.Some? then v0.value.inner else v0;
    var v2 := if v1.None? then GetMajor(GetDynamic(m)).vote else v1;
    if v2.None? then GetDynamic(m).additionalVote else v2
  }

  /**
    `getVoteFromModules`: the interaction vote (unwrapping a nested `.vote`),
    else the major vote, else the additional vote, normalised.
  */
  function GetVoteFromModules(modules: Option<Modules>): (r: Option<Vote>)
    ensures modules.None? ==> r.None?
    ensures modules.Some? ==>
              var mi := modules.value.interaction.GetOr(NoInteraction);
              var d := GetDynamic(modules.value);
              (r.Some? <==> mi.vote.Some? || mi.voteInfo.Some? || GetMajor(d).vote.Some? || d.additionalVote.Some?)
    ensures r.Some? ==> NormalizeVote(r) == r
  {
    if modules.None? then None
    else
      var r := NormalizeVote(RawVote(modules.value));
      NormalizeVoteIdempotent(RawVote(modules.value));
      r
  }
}
