/**
  The subscription registry: user subscriptions keyed by uid and bangumi
  subscriptions keyed by season id, each with the groups that follow it and
  what has been seen so far; the legacy-file migration; and the decisions of
  the periodic checks, with the network answers, the rendered card and the
  clock as inputs.
*/
module Subscriptions {
  import opened Wrappers
  import opened Js
  import opened Seqs
  import opened Notification
  import Text

  /** What a user subscription has seen: the last post and whether the room was live. */
  datatype UserWatch = UserWatch(lastDynamicId: Option<Scalar>, lastDynamicTime: int, lastLiveStatus: Scalar)

  /** What a bangumi subscription has seen: the last episode and its update time. */
  datatype EpisodeWatch = EpisodeWatch(lastEpId: Option<Scalar>, lastEpTime: int)

  /** One subscription: its uid or season id, the groups that follow it, and its watch state. */
  datatype Sub<W> = Sub(key: Scalar, groupIds: seq<Scalar>, watch: W)

  type UserSub = Sub<UserWatch>
  type BangumiSub = Sub<EpisodeWatch>

  /** The state of a new user subscription: no post seen, not live. */
  const NewUserWatch: UserWatch := UserWatch(None, 0, StrVal("0"))

  /** The state of a new bangumi subscription: no episode seen. */
  const NewEpisodeWatch: EpisodeWatch := EpisodeWatch(None, 0)

  /** `subs.find(s => s.key === key)`, as an index. */
  function Find<W>(subs: seq<Sub<W>>, key: Scalar): (r: Option<nat>)
    ensures r.None? <==> forall i :: 0 <= i < |subs| ==> subs[i].key != key
    ensures r.Some? ==> r.value < |subs| && subs[r.value].key == key
                        && forall i :: 0 <= i < r.value ==> subs[i].key != key
  {
    if subs == [] then None
    else if subs[0].key == key then Some(0)
    else
      match Find(subs[1..], key)
      case None => None
      case Some(i) => Some(i + 1)
  }

  /** The keys in stored order. */
  function Keys<W>(subs: seq<Sub<W>>): (r: seq<Scalar>)
    ensures |r| == |subs| && forall i :: 0 <= i < |subs| ==> r[i] == subs[i].key
  {
    seq(|subs|, i requires 0 <= i < |subs| => subs[i].key)
  }

  /** No key twice and no group twice in an entry: what adding and removing keep. */
  predicate Registry<W>(subs: seq<Sub<W>>)
  {
    (forall i, j :: 0 <= i < j < |subs| ==> subs[i].key != subs[j].key)
    && (forall i :: 0 <= i < |subs| ==> NoDup(subs[i].groupIds))
  }

  // ------------------------------------------------------------ add and remove

  /**
    `addUserSubscription` / `addBangumiSubscription`: a new entry for an
    unknown key, else the group is pushed if missing.
  */
  function AddSub<W>(subs: seq<Sub<W>>, key: Scalar, g: Scalar, initial: W): (r: seq<Sub<W>>)
    ensures Find(subs, key).None? ==> r == subs + [Sub(key, [g], initial)]
    ensures Find(subs, key).Some? ==>
              var i := Find(subs, key).value;
              |r| == |subs| && r[i] == subs[i].(groupIds := Push(subs[i].groupIds, g))
              && forall j :: 0 <= j < |subs| && j != i ==> r[j] == subs[j]
  {
    match Find(subs, key)
    case None => subs + [Sub(key, [g], initial)]
    case Some(i) => subs[i := subs[i].(groupIds := Push(subs[i].groupIds, g))]
  }

  /** `subs.filter(s => s.key !== key)`. */
  function DropKey<W>(subs: seq<Sub<W>>, key: Scalar): (r: seq<Sub<W>>)
    ensures |r| <= |subs|
    ensures forall i :: 0 <= i < |r| ==> r[i].key != key && exists j :: 0 <= j < |subs| && subs[j] == r[i]
  {
    if subs == [] then []
    else
      var rest := DropKey(subs[1..], key);
      assert forall j :: 0 <= j < |subs| - 1 ==> subs[1..][j] == subs[j + 1];
      if subs[0].key == key then rest else [subs[0]] + rest
  }

  /**
    `removeUserSubscription` / `removeBangumiSubscription`: false for an
    unknown key; otherwise the group is filtered out of the first entry with
    the key, and when none is left every entry with the key is dropped.
  */
  function RemoveSub<W>(subs: seq<Sub<W>>, key: Scalar, g: Scalar): (r: (bool, seq<Sub<W>>))
    ensures r.0 <==> Find(subs, key).Some?
    ensures !r.0 ==> r.1 == subs
    ensures r.0 ==>
              var i := Find(subs, key).value;
              var left := Without(subs[i].groupIds, g);
              (left == [] ==> r.1 == DropKey(subs, key))
              && (left != [] ==> r.1 == subs[i := subs[i].(groupIds := left)])
  {
    match Find(subs, key)
    case None => (false, subs)
    case Some(i) =>
      var left := Without(subs[i].groupIds, g);
      var updated := subs[i := subs[i].(groupIds := left)];
      if left == [] then
        DropKeyUpdated(subs, i, left, key);
        (true, DropKey(updated, key))
      else (true, updated)
  }

  /** Filtering a key out ignores what the entries with that key held. */
  lemma {:induction false} DropKeyUpdated<W>(subs: seq<Sub<W>>, i: nat, left: seq<Scalar>, key: Scalar)
    requires i < |subs| && subs[i].key == key
    ensures DropKey(subs[i := subs[i].(groupIds := left)], key) == DropKey(subs, key)
  {
    if i > 0 {
      assert subs[i := subs[i].(groupIds := left)][1..] == subs[1..][i - 1 := subs[i].(groupIds := left)];
      DropKeyUpdated(subs[1..], i - 1, left, key);
    }
  }

  /** Adding keeps the registry free of duplicate keys and duplicate groups. */
  lemma AddSubRegistry<W>(subs: seq<Sub<W>>, key: Scalar, g: Scalar, initial: W)
    requires Registry(subs)
    ensures Registry(AddSub(subs, key, g, initial))
  {
    match Find(subs, key)
    case None =>
    case Some(i) =>
      PushNoDup(subs[i].groupIds, g);
  }

  /** Removing keeps the registry free of duplicate keys and duplicate groups. */
  lemma RemoveSubRegistry<W>(subs: seq<Sub<W>>, key: Scalar, g: Scalar)
    requires Registry(subs)
    ensures Registry(RemoveSub(subs, key, g).1)
  {
    match Find(subs, key)
    case None =>
    case Some(i) =>
      var left := Without(subs[i].groupIds, g);
      if left == [] {
        DropKeyRegistry(subs, key);
      } else {
        WithoutNoDup(subs[i].groupIds, g);
      }
  }

  lemma {:induction false} DropKeyRegistry<W>(subs: seq<Sub<W>>, key: Scalar)
    requires Registry(subs)
    ensures Registry(DropKey(subs, key))
  {
    if subs != [] {
      assert Registry(subs[1..]) by {
        assert forall j :: 0 <= j < |subs| - 1 ==> subs[1..][j] == subs[j + 1];
      }
      DropKeyRegistry(subs[1..], key);
      var rest := DropKey(subs[1..], key);
      if subs[0].key != key {
        var r := [subs[0]] + rest;
        forall a, b | 0 <= a < b < |r| ensures r[a].key != r[b].key {
          if a == 0 {
            var j :| 0 <= j < |subs[1..]| && subs[1..][j] == rest[b - 1];
            assert subs[j + 1] == r[b];
          }
        }
      }
    }
  }

  /** A filtered duplicate-free list stays duplicate-free. */
  lemma WithoutNoDup(s: seq<Scalar>, x: Scalar)
    requires NoDup(s)
    ensures NoDup(Without(s, x))
  {
    if s != [] {
      WithoutNoDup(s[1..], x);
      assert s == [s[0]] + s[1..];
      assert s[0] !in s[1..];
      if s[0] != x {
        WithoutFirst(s, x);
      }
    }
  }

  lemma WithoutFirst(s: seq<Scalar>, x: Scalar)
    requires s != [] && s[0] != x
    ensures Without(s, x) == [s[0]] + Without(s[1..], x)
  {
    assert s == [s[0]] + s[1..];
    WithoutAppend([s[0]], s[1..], x);
  }

  /** Adding twice is adding once. */
  lemma AddSubIdempotent<W>(subs: seq<Sub<W>>, key: Scalar, g: Scalar, initial: W)
    ensures AddSub(AddSub(subs, key, g, initial), key, g, initial) == AddSub(subs, key, g, initial)
  {
    var r := AddSub(subs, key, g, initial);
    match Find(subs, key)
    case None =>
      FindAppended(subs, Sub(key, [g], initial));
      assert r[|subs|].groupIds == [g];
    case Some(i) =>
      assert Find(r, key) == Some(i);
  }

  /** After an add the key is followed by the group. */
  lemma AddSubFollows<W>(subs: seq<Sub<W>>, key: Scalar, g: Scalar, initial: W)
    ensures key in Followed(AddSub(subs, key, g, initial), g)
  {
    var r := AddSub(subs, key, g, initial);
    var i := if Find(subs, key).Some? then Find(subs, key).value else |subs|;
    assert r[i].key == key && g in r[i].groupIds;
  }

  /** Removing the only group of a new subscription undoes its addition. */
  lemma AddThenRemove<W>(subs: seq<Sub<W>>, key: Scalar, g: Scalar, initial: W)
    requires key !in Keys(subs)
    ensures RemoveSub(AddSub(subs, key, g, initial), key, g) == (true, subs)
  {
    FindAppended(subs, Sub(key, [g], initial));
    assert Without([g], g) == [];
    DropKeyAbsentAppend(subs, Sub(key, [g], initial));
  }

  /** An appended entry with a new key is found at the end. */
  lemma {:induction false} FindAppended<W>(subs: seq<Sub<W>>, s: Sub<W>)
    requires forall i :: 0 <= i < |subs| ==> subs[i].key != s.key
    ensures Find(subs + [s], s.key) == Some(|subs|)
  {
    if subs != [] {
      assert (subs + [s])[1..] == subs[1..] + [s];
      FindAppended(subs[1..], s);
    }
  }

  lemma {:induction false} DropKeyAbsentAppend<W>(subs: seq<Sub<W>>, s: Sub<W>)
    requires s.key !in Keys(subs)
    ensures DropKey(subs + [s], s.key) == subs
  {
    if subs == [] {
      assert [s][1..] == [];
    } else {
      assert (subs + [s])[1..] == subs[1..] + [s];
      assert Keys(subs) == [subs[0].key] + Keys(subs[1..]);
      DropKeyAbsentAppend(subs[1..], s);
    }
  }

  /** In a registry, a removal leaves the group no longer following the key. */
  lemma RemoveSubUnfollows<W>(subs: seq<Sub<W>>, key: Scalar, g: Scalar)
    requires Registry(subs)
    ensures key !in Followed(RemoveSub(subs, key, g).1, g)
  {
    var r := RemoveSub(subs, key, g).1;
    match Find(subs, key)
    case None =>
    case Some(i) =>
      var left := Without(subs[i].groupIds, g);
      if left != [] {
        forall j | 0 <= j < |r| && r[j].key == key ensures g !in r[j].groupIds {
          assert j == i;
        }
      }
  }

  /** A removal touches no other key's followers. */
  lemma RemoveSubKeepsOthers<W>(subs: seq<Sub<W>>, key: Scalar, g: Scalar, other: Scalar, h: Scalar)
    requires other != key
    ensures other in Followed(RemoveSub(subs, key, g).1, h) <==> other in Followed(subs, h)
  {
    match Find(subs, key)
    case None =>
    case Some(i) =>
      var left := Without(subs[i].groupIds, g);
      if left == [] {
        DropKeyKeepsOthers(subs, key, other, h);
      } else {
        UpdateKeepsOthers(subs, i, left, other, h);
      }
  }

  lemma DropKeyKeepsOthers<W>(subs: seq<Sub<W>>, key: Scalar, other: Scalar, h: Scalar)
    requires other != key
    ensures other in Followed(DropKey(subs, key), h) <==> other in Followed(subs, h)
  {
    var r := DropKey(subs, key);
    if other in Followed(subs, h) {
      var j :| 0 <= j < |subs| && subs[j].key == other && h in subs[j].groupIds;
      DropKeyKeeps(subs, key, j);
    }
    if other in Followed(r, h) {
      var j :| 0 <= j < |r| && r[j].key == other && h in r[j].groupIds;
      var k :| 0 <= k < |subs| && subs[k] == r[j];
    }
  }

  lemma UpdateKeepsOthers<W>(subs: seq<Sub<W>>, i: nat, left: seq<Scalar>, other: Scalar, h: Scalar)
    requires i < |subs| && subs[i].key != other
    ensures other in Followed(subs[i := subs[i].(groupIds := left)], h) <==> other in Followed(subs, h)
  {
    var r := subs[i := subs[i].(groupIds := left)];
    if other in Followed(subs, h) {
      var j :| 0 <= j < |subs| && subs[j].key == other && h in subs[j].groupIds;
      assert r[j] == subs[j];
    }
    if other in Followed(r, h) {
      var j :| 0 <= j < |r| && r[j].key == other && h in r[j].groupIds;
      assert r[j] == subs[j];
    }
  }

  lemma {:induction false} DropKeyKeeps<W>(subs: seq<Sub<W>>, key: Scalar, j: nat)
    requires j < |subs| && subs[j].key != key
    ensures subs[j] in DropKey(subs, key)
  {
    if j > 0 {
      DropKeyKeeps(subs[1..], key, j - 1);
    }
  }

  // ------------------------------------------------------------ listing

  /** The keys of the entries whose groups include `g`, in stored order. */
  function Followed<W>(subs: seq<Sub<W>>, g: Scalar): (r: seq<Scalar>)
    ensures forall k :: k in r <==> exists i :: 0 <= i < |subs| && subs[i].key == k && g in subs[i].groupIds
    ensures |r| <= |subs|
  {
    if subs == [] then []
    else
      var rest := Followed(subs[1..], g);
      assert forall i :: 0 <= i < |subs| - 1 ==> subs[1..][i] == subs[i + 1];
      if g in subs[0].groupIds then [subs[0].key] + rest else rest
  }

  /** The filter keeps stored order: listing two runs of entries lists each in turn. */
  lemma {:induction false} FollowedAppend<W>(a: seq<Sub<W>>, b: seq<Sub<W>>, g: Scalar)
    ensures Followed(a + b, g) == Followed(a, g) + Followed(b, g)
  {
    if a == [] {
      assert a + b == b;
    } else {
      assert (a + b)[1..] == a[1..] + b;
      FollowedAppend(a[1..], b, g);
    }
  }

  /** A single entry is listed, by its key, exactly when it includes the group. */
  lemma FollowedOne<W>(s: Sub<W>, g: Scalar)
    ensures Followed([s], g) == if g in s.groupIds then [s.key] else []
  {
    assert [s][1..] == [];
  }

  /** One entry of `getSubscriptionsByGroup`. */
  datatype Listing = UserEntry(uid: Scalar) | BangumiEntry(seasonId: Scalar)

  /** `getSubscriptionsByGroup(groupId)`: the group's users, then its bangumis. */
  function ByGroup(users: seq<UserSub>, bangumis: seq<BangumiSub>, g: Scalar): (r: seq<Listing>)
    ensures |r| == |Followed(users, g)| + |Followed(bangumis, g)|
    ensures forall i :: 0 <= i < |Followed(users, g)| ==> r[i] == UserEntry(Followed(users, g)[i])
    ensures forall i :: 0 <= i < |Followed(bangumis, g)| ==>
              r[|Followed(users, g)| + i] == BangumiEntry(Followed(bangumis, g)[i])
  {
    var us := Followed(users, g);
    var bs := Followed(bangumis, g);
    seq(|us|, i requires 0 <= i < |us| => UserEntry(us[i])) + seq(|bs|, i requires 0 <= i < |bs| => BangumiEntry(bs[i]))
  }

  /** A user is listed exactly when the group follows it, and likewise a bangumi. */
  lemma ByGroupComplete(users: seq<UserSub>, bangumis: seq<BangumiSub>, g: Scalar, key: Scalar)
    ensures UserEntry(key) in ByGroup(users, bangumis, g) <==> key in Followed(users, g)
    ensures BangumiEntry(key) in ByGroup(users, bangumis, g) <==> key in Followed(bangumis, g)
  {
    ByGroupUser(users, bangumis, g, key);
    ByGroupBangumi(users, bangumis, g, key);
  }

  lemma ByGroupUser(users: seq<UserSub>, bangumis: seq<BangumiSub>, g: Scalar, key: Scalar)
    ensures UserEntry(key) in ByGroup(users, bangumis, g) <==> key in Followed(users, g)
  {
    var r := ByGroup(users, bangumis, g);
    var us := Followed(users, g);
    if UserEntry(key) in r {
      var i :| 0 <= i < |r| && r[i] == UserEntry(key);
    }
    if key in us {
      var i :| 0 <= i < |us| && us[i] == key;
      assert r[i] == UserEntry(key);
    }
  }

  lemma ByGroupBangumi(users: seq<UserSub>, bangumis: seq<BangumiSub>, g: Scalar, key: Scalar)
    ensures BangumiEntry(key) in ByGroup(users, bangumis, g) <==> key in Followed(bangumis, g)
  {
    var r := ByGroup(users, bangumis, g);
    var us := Followed(users, g);
    var bs := Followed(bangumis, g);
    if BangumiEntry(key) in r {
      var i :| 0 <= i < |r| && r[i] == BangumiEntry(key);
      assert r[|us| + (i - |us|)] == BangumiEntry(bs[i - |us|]);
    }
    if key in bs {
      var i :| 0 <= i < |bs| && bs[i] == key;
      assert r[|us| + i] == BangumiEntry(key);
    }
  }

  /** `getTypeName(type)`: the Chinese name of a known kind, else the kind itself. */
  function TypeName(kind: string): (r: string)
    ensures kind == "dynamic" ==> r == "动态"
    ensures kind == "live" ==> r == "直播"
    ensures kind == "user" ==> r == "用户"
    ensures kind == "bangumi" ==> r == "番剧"
    ensures kind !in {"dynamic", "live", "user", "bangumi"} ==> r == kind
  {
    if kind == "dynamic" then "动态"
    else if kind == "live" then "直播"
    else if kind == "user" then "用户"
    else if kind == "bangumi" then "番剧"
    else kind
  }

  // ------------------------------------------------------------ legacy migration

  /** An entry of the legacy file: one per uid and kind. */
  datatype LegacySub = LegacySub(uid: Scalar, kind: string, groupIds: seq<Scalar>, lastId: Option<Scalar>, lastTime: int)

  /** The watch after one legacy record of the same uid. */
  function Carry(w: UserWatch, s: LegacySub): (r: UserWatch)
    ensures r.lastDynamicId == (if s.kind == "dynamic" && ScalarTruthy(s.lastId) then s.lastId else w.lastDynamicId)
    ensures r.lastDynamicTime == (if s.kind == "dynamic" && s.lastTime != 0 then s.lastTime else w.lastDynamicTime)
    ensures r.lastLiveStatus == (if s.kind == "live" && ScalarTruthy(s.lastId) then s.lastId.value else w.lastLiveStatus)
  {
    var w1 :=
      if s.kind == "dynamic" then
        w.(lastDynamicId := if ScalarTruthy(s.lastId) then s.lastId else w.lastDynamicId,
           lastDynamicTime := if s.lastTime != 0 then s.lastTime else w.lastDynamicTime)
      else w;
    if s.kind == "live" && ScalarTruthy(s.lastId) then w1.(lastLiveStatus := s.lastId.value) else w1
  }

  /** One turn of the migration loop over the insertion-ordered map. */
  function MergeOne(acc: seq<UserSub>, s: LegacySub): (r: seq<UserSub>)
    ensures Find(acc, s.uid).None? ==> r == acc + [Sub(s.uid, PushAll([], s.groupIds), Carry(NewUserWatch, s))]
    ensures Find(acc, s.uid).Some? ==>
              var m := Find(acc, s.uid).value;
              |r| == |acc| && r[m] == Sub(s.uid, PushAll(acc[m].groupIds, s.groupIds), Carry(acc[m].watch, s))
              && forall j :: 0 <= j < |acc| && j != m ==> r[j] == acc[j]
  {
    match Find(acc, s.uid)
    case None => acc + [Sub(s.uid, PushAll([], s.groupIds), Carry(NewUserWatch, s))]
    case Some(i) => acc[i := Sub(s.uid, PushAll(acc[i].groupIds, s.groupIds), Carry(acc[i].watch, s))]
  }

  /** The user subscriptions migrated from the records of a legacy file. */
  function Migrated(legacy: seq<LegacySub>): seq<UserSub>
  {
    if legacy == [] then [] else MergeOne(Migrated(legacy[..|legacy| - 1]), legacy[|legacy| - 1])
  }

  /** The uids of the legacy records, in file order. */
  function Uids(legacy: seq<LegacySub>): (r: seq<Scalar>)
    ensures |r| == |legacy| && forall i :: 0 <= i < |legacy| ==> r[i] == legacy[i].uid
  {
    seq(|legacy|, i requires 0 <= i < |legacy| => legacy[i].uid)
  }

  /** The groups of all records of a uid, concatenated in file order. */
  function GroupsFor(legacy: seq<LegacySub>, uid: Scalar): seq<Scalar>
  {
    if legacy == [] then []
    else
      var s := legacy[|legacy| - 1];
      GroupsFor(legacy[..|legacy| - 1], uid) + (if s.uid == uid then s.groupIds else [])
  }

  /** The post id carried for a uid: that of its last dynamic record with a truthy id. */
  function LastDynamicId(legacy: seq<LegacySub>, uid: Scalar): Option<Scalar>
  {
    if legacy == [] then None
    else
      var s := legacy[|legacy| - 1];
      if s.uid == uid && s.kind == "dynamic" && ScalarTruthy(s.lastId) then s.lastId
      else LastDynamicId(legacy[..|legacy| - 1], uid)
  }

  /** One entry per uid, in order of first appearance. */
  lemma {:induction false} MigratedKeys(legacy: seq<LegacySub>)
    ensures Keys(Migrated(legacy)) == PushAll([], Uids(legacy))
  {
    if legacy != [] {
      var front := legacy[..|legacy| - 1];
      var s := legacy[|legacy| - 1];
      MigratedKeys(front);
      var acc := Migrated(front);
      assert Uids(legacy)[..|legacy| - 1] == Uids(front);
      assert Keys(MergeOne(acc, s)) == Push(Keys(acc), s.uid) by {
        match Find(acc, s.uid)
        case None =>
          assert s.uid !in Keys(acc);
          assert Keys(MergeOne(acc, s)) == Keys(acc) + [s.uid];
        case Some(m) =>
          assert s.uid in Keys(acc);
      }
    }
  }

  /** Migrated entries never share a key. */
  lemma MigratedUnique(legacy: seq<LegacySub>)
    ensures forall i, j :: 0 <= i < j < |Migrated(legacy)| ==> Migrated(legacy)[i].key != Migrated(legacy)[j].key
  {
    MigratedKeys(legacy);
    PushAllNoDup([], Uids(legacy));
  }

  /** A uid without an entry has no record. */
  lemma UnseenUid(legacy: seq<LegacySub>, uid: Scalar)
    requires Find(Migrated(legacy), uid).None?
    ensures uid !in Uids(legacy)
  {
    MigratedKeys(legacy);
    assert uid !in Keys(Migrated(legacy));
  }

  /** Each entry's groups are those of its uid's records, first appearance first, without duplicates. */
  lemma {:induction false} MigratedGroups(legacy: seq<LegacySub>, j: nat)
    requires j < |Migrated(legacy)|
    ensures Migrated(legacy)[j].groupIds == PushAll([], GroupsFor(legacy, Migrated(legacy)[j].key))
  {
    var front := legacy[..|legacy| - 1];
    var s := legacy[|legacy| - 1];
    assert legacy == front + [s];
    if j < |Migrated(front)| {
      MigratedGroups(front, j);
      GroupsOfOldEntry(front, s, j);
    } else {
      GroupsOfNewEntry(front, s, j);
    }
  }

  /** An entry that existed before a record keeps the union of its groups. */
  lemma GroupsOfOldEntry(front: seq<LegacySub>, s: LegacySub, j: nat)
    requires j < |Migrated(front)|
    requires Migrated(front)[j].groupIds == PushAll([], GroupsFor(front, Migrated(front)[j].key))
    ensures MergeOne(Migrated(front), s)[j].key == Migrated(front)[j].key
    ensures MergeOne(Migrated(front), s)[j].groupIds == PushAll([], GroupsFor(front + [s], Migrated(front)[j].key))
  {
    var acc := Migrated(front);
    var k := acc[j].key;
    MigratedUnique(front);
    assert (front + [s])[..|front|] == front;
    assert GroupsFor(front + [s], k) == GroupsFor(front, k) + (if s.uid == k then s.groupIds else []);
    if k != s.uid {
      assert GroupsFor(front, k) + [] == GroupsFor(front, k);
    } else {
      assert Find(acc, s.uid) == Some(j);
      PushAllAppend([], GroupsFor(front, s.uid), s.groupIds);
    }
  }

  /** An entry created by a record holds that record's groups. */
  lemma GroupsOfNewEntry(front: seq<LegacySub>, s: LegacySub, j: nat)
    requires |Migrated(front)| <= j < |MergeOne(Migrated(front), s)|
    ensures MergeOne(Migrated(front), s)[j].key == s.uid
    ensures MergeOne(Migrated(front), s)[j].groupIds == PushAll([], GroupsFor(front + [s], s.uid))
  {
    var acc := Migrated(front);
    assert Find(acc, s.uid).None?;
    UnseenUid(front, s.uid);
    GroupsForAbsent(front, s.uid);
    assert (front + [s])[..|front|] == front;
    assert GroupsFor(front + [s], s.uid) == GroupsFor(front, s.uid) + s.groupIds;
    assert [] + s.groupIds == s.groupIds;
  }

  lemma {:induction false} GroupsForAbsent(legacy: seq<LegacySub>, uid: Scalar)
    requires uid !in Uids(legacy)
    ensures GroupsFor(legacy, uid) == [] && LastDynamicId(legacy, uid) == None
  {
    if legacy != [] {
      assert Uids(legacy[..|legacy| - 1]) == Uids(legacy)[..|legacy| - 1];
      GroupsForAbsent(legacy[..|legacy| - 1], uid);
    }
  }

  /** The migrated registry has no duplicate key and no duplicate group. */
  lemma MigratedRegistry(legacy: seq<LegacySub>)
    ensures Registry(Migrated(legacy))
  {
    MigratedUnique(legacy);
    forall j | 0 <= j < |Migrated(legacy)| ensures NoDup(Migrated(legacy)[j].groupIds) {
      MigratedGroups(legacy, j);
      PushAllNoDup([], GroupsFor(legacy, Migrated(legacy)[j].key));
    }
  }

  /** Records of other uids never touch an entry's last seen post: the last truthy id of its own wins. */
  lemma {:induction false} MigratedDynamicId(legacy: seq<LegacySub>, j: nat)
    requires j < |Migrated(legacy)|
    ensures Migrated(legacy)[j].watch.lastDynamicId == LastDynamicId(legacy, Migrated(legacy)[j].key)
  {
    var front := legacy[..|legacy| - 1];
    var s := legacy[|legacy| - 1];
    var acc := Migrated(front);
    MigratedUnique(front);
    match Find(acc, s.uid)
    case None =>
      if j < |acc| {
        MigratedDynamicId(front, j);
      } else {
        UnseenUid(front, s.uid);
        GroupsForAbsent(front, s.uid);
      }
    case Some(m) =>
      MigratedDynamicId(front, j);
      if j != m {
        assert acc[j].key != s.uid;
      }
  }

  // ------------------------------------------------------------ dynamic posts

  /** The fields of the latest post that the check reads. */
  datatype PostData = PostData(
    id: Option<Scalar>,
    pubTs: Option<int>,
    authorName: Option<string>,
    pubTime: Option<string>,
    isForward: bool,
    descText: Option<string>,
    opusTitle: Option<string>)

  /** A message and the groups it goes to. */
  datatype Notice = Notice(groupIds: seq<Scalar>, message: Message)

  /**
    Whether a fetched post is announced: always when forced; otherwise only
    after a first post has been recorded, for a different id, published later.
  */
  predicate AnnouncePost(w: UserWatch, d: PostData, force: bool)
  {
    (ScalarTruthy(w.lastDynamicId) || force)
    && (w.lastDynamicId != d.id || force)
    && (OrZero(d.pubTs) > w.lastDynamicTime || force)
  }

  /** The watch after a fetched post: overwritten unless forced, even by an older post. */
  function AfterPost(w: UserWatch, d: PostData, force: bool): (r: UserWatch)
    ensures r.lastLiveStatus == w.lastLiveStatus
    ensures force ==> r == w
    ensures !force ==> r.lastDynamicId == d.id && r.lastDynamicTime == OrZero(d.pubTs)
  {
    if force then w else w.(lastDynamicId := d.id, lastDynamicTime := OrZero(d.pubTs))
  }

  /** `${x}` of an optional id. */
  function IdShown(x: Option<Scalar>): string
  {
    match x
    case Some(v) => ScalarText(v)
    case None => "undefined"
  }

  /**
    `s.slice(0, n)`, which counts UTF-16 code units: the longest prefix of at
    most `n` units; on text inside the Basic Multilingual Plane, the first
    `n` characters.
  */
  function Prefix(s: string, n: nat): (r: string)
    ensures Text.Utf16Length(r) <= n && |r| <= n && r <= s
    ensures Text.Utf16Length(s) <= n ==> r == s
    ensures Text.Bmp(s) ==> r == if |s| <= n then s else s[..n]
    ensures |r| < |s| ==> Text.Utf16Length(s[..|r| + 1]) > n
  {
    Text.Utf16PrefixBmp(s, n);
    Text.Utf16PrefixMaximal(s, n);
    Text.Utf16Prefix(s, n)
  }

  /** The first 80 UTF-16 units of the post's text, else of its opus title. */
  function Summary(d: PostData): (r: string)
    ensures Text.Utf16Length(r) <= 80
    ensures Present(d.descText) ==> r == Prefix(d.descText.value, 80)
    ensures !Present(d.descText) && Present(d.opusTitle) ==> r == Prefix(d.opusTitle.value, 80)
    ensures !Present(d.descText) && !Present(d.opusTitle) ==> r == ""
  {
    Prefix(if Present(d.descText) then d.descText.value else if Present(d.opusTitle) then d.opusTitle.value else "", 80)
  }

  function PostLink(uid: Scalar, d: PostData): string
  {
    "用户 " + ScalarText(uid) + " 发布了新动态: https://t.bilibili.com/" + IdShown(d.id)
  }

  /**
    The announcement of a post; `image` is the rendered card, `None` when
    rendering threw, which leaves a single text line.
  */
  function PostMessage(uid: Scalar, d: PostData, image: Option<string>): (r: Message)
    ensures image.None? ==> r == Plain(Str(PostLink(uid, d) + " (图片生成失败)"))
    ensures image.Some? ==> r.Chain? && |r.items| == 3
                            && r.items[1] == ImageSeg(Some(Base64Prefix + image.value))
                            && r.items[2] == TextSeg(Str(PostLink(uid, d)))
  {
    match image
    case None => Plain(Str(PostLink(uid, d) + " (图片生成失败)"))
    case Some(img) =>
      var author := if Present(d.authorName) then d.authorName.value else ScalarText(uid);
      var kind := if d.isForward then "转发" else "动态";
      Chain([TextSeg(Str("[" + kind + "] " + author + " · " + Or(d.pubTime, "") + "\n" + Summary(d))),
             ImageSeg(Some(Base64Prefix + img)),
             TextSeg(Str(PostLink(uid, d)))])
  }

  /**
    `checkUserDynamic(sub, force)`: `fetched` is the API's latest post (`None`
    when the request failed); the notice and the entry afterwards.
  */
  function CheckPost(sub: UserSub, fetched: Option<PostData>, image: Option<string>, force: bool): (r: (Option<Notice>, UserSub))
    ensures fetched.None? ==> r == (None, sub)
    ensures r.1.key == sub.key && r.1.groupIds == sub.groupIds
    ensures fetched.Some? ==> r.1.watch == AfterPost(sub.watch, fetched.value, force)
    ensures r.0.Some? <==> fetched.Some? && AnnouncePost(sub.watch, fetched.value, force)
    ensures r.0.Some? ==> r.0.value == Notice(sub.groupIds, PostMessage(sub.key, fetched.value, image))
  {
    match fetched
    case None => (None, sub)
    case Some(d) =>
      var notice := if AnnouncePost(sub.watch, d, force) then Some(Notice(sub.groupIds, PostMessage(sub.key, d, image))) else None;
      (notice, sub.(watch := AfterPost(sub.watch, d, force)))
  }

  /** The very first post seen is recorded silently. */
  lemma FirstPostSilent(sub: UserSub, d: PostData, image: Option<string>)
    requires !ScalarTruthy(sub.watch.lastDynamicId)
    ensures CheckPost(sub, Some(d), image, false).0.None?
    ensures CheckPost(sub, Some(d), image, false).1.watch.lastDynamicId == d.id
  {
  }

  /** A post is announced at most once by the periodic check. */
  lemma PostNotRepeated(sub: UserSub, d: PostData, image: Option<string>)
    ensures var after := CheckPost(sub, Some(d), image, false).1;
            CheckPost(after, Some(d), image, false).0.None?
  {
  }

  /** A post not newer than the recorded one is never announced unforced, whatever its id. */
  lemma OlderPostIgnored(sub: UserSub, d: PostData, image: Option<string>)
    requires OrZero(d.pubTs) <= sub.watch.lastDynamicTime
    ensures CheckPost(sub, Some(d), image, false).0.None?
  {
  }

  /** A newer post with another id is announced once a first post has been recorded. */
  lemma NewerPostAnnounced(sub: UserSub, d: PostData, image: Option<string>)
    requires ScalarTruthy(sub.watch.lastDynamicId) && sub.watch.lastDynamicId != d.id
    requires OrZero(d.pubTs) > sub.watch.lastDynamicTime
    ensures CheckPost(sub, Some(d), image, false).0 == Some(Notice(sub.groupIds, PostMessage(sub.key, d, image)))
  {
  }

  /** A forced check always announces a fetched post and records nothing. */
  lemma ForcedAnnouncesOnly(sub: UserSub, d: PostData, image: Option<string>)
    ensures CheckPost(sub, Some(d), image, true) == (Some(Notice(sub.groupIds, PostMessage(sub.key, d, image))), sub)
  {
  }

  /** How the fallback lookup of a post by id went. */
  datatype LookupResult =
    | Found(image: string)
    | NotFound(message: Option<string>)
    | LookupThrew(error: string)

  /**
    `checkSubscriptionNow(uid, groupId)` for an id that is not a subscribed
    uid: the post with that id is sent to the group, or the reason it is not.
  */
  function LookupNotice(id: Scalar, g: Scalar, lookup: LookupResult): (r: (bool, Notice))
    ensures r.0 <==> lookup.Found?
    ensures r.1.groupIds == [g]
    ensures lookup.Found? ==>
              r.1.message == Chain([ImageSeg(Some(Base64Prefix + lookup.image)),
                                    TextSeg(Str("动态详情: https://t.bilibili.com/" + ScalarText(id)))])
    ensures lookup.NotFound? ==> r.1.message == Plain(Str("获取动态 " + ScalarText(id) + " 失败: " + Or(lookup.message, "未知错误")))
    ensures lookup.LookupThrew? ==> r.1.message == Plain(Str("获取动态 " + ScalarText(id) + " 时出现错误: " + lookup.error))
  {
    match lookup
    case Found(img) =>
      (true, Notice([g], Chain([ImageSeg(Some(Base64Prefix + img)), TextSeg(Str("动态详情: https://t.bilibili.com/" + ScalarText(id)))])))
    case NotFound(m) => (false, Notice([g], Plain(Str("获取动态 " + ScalarText(id) + " 失败: " + Or(m, "未知错误")))))
    case LookupThrew(m) => (false, Notice([g], Plain(Str("获取动态 " + ScalarText(id) + " 时出现错误: " + m))))
  }

  // ------------------------------------------------------------ live status

  /** The fields of the live answer that the check reads. */
  datatype LiveData = LiveData(liveStatus: Option<int>, roomId: Option<Scalar>, uname: Option<string>)

  /** Announced only on the not-live to live edge, and only with a room. */
  predicate AnnounceLive(w: UserWatch, d: LiveData)
  {
    d.liveStatus == Some(1) && w.lastLiveStatus != StrVal("1") && ScalarTruthy(d.roomId)
  }

  function LiveLink(uid: Scalar, d: LiveData): string
  {
    "用户 " + ScalarText(uid) + " 开始直播了: https://live.bilibili.com/" + IdShown(d.roomId)
  }

  /** The announcement of a live start; `image` is `None` when the room card failed. */
  function LiveMessage(uid: Scalar, d: LiveData, image: Option<string>): (r: Message)
    ensures image.None? ==> r == Plain(Str(LiveLink(uid, d)))
    ensures image.Some? ==> r.Chain? && |r.items| == 3 && r.items[2] == TextSeg(Str(LiveLink(uid, d)))
  {
    match image
    case None => Plain(Str(LiveLink(uid, d)))
    case Some(img) =>
      Chain([TextSeg(Str("[直播] " + (if Present(d.uname) then d.uname.value else ScalarText(uid)) + " 开播")),
             ImageSeg(Some(Base64Prefix + img)),
             TextSeg(Str(LiveLink(uid, d)))])
  }

  /** `checkUserLive(sub)`: the notice and the entry afterwards. */
  function CheckLive(sub: UserSub, fetched: Option<LiveData>, image: Option<string>): (r: (Option<Notice>, UserSub))
    ensures fetched.None? ==> r == (None, sub)
    ensures r.1.key == sub.key && r.1.groupIds == sub.groupIds
    ensures fetched.Some? ==>
              r.1.watch == sub.watch.(lastLiveStatus := if fetched.value.liveStatus == Some(1) then StrVal("1") else StrVal("0"))
    ensures r.0.Some? <==> fetched.Some? && AnnounceLive(sub.watch, fetched.value)
    ensures r.0.Some? ==> r.0.value == Notice(sub.groupIds, LiveMessage(sub.key, fetched.value, image))
  {
    match fetched
    case None => (None, sub)
    case Some(d) =>
      var notice := if AnnounceLive(sub.watch, d) then Some(Notice(sub.groupIds, LiveMessage(sub.key, d, image))) else None;
      (notice, sub.(watch := sub.watch.(lastLiveStatus := if d.liveStatus == Some(1) then StrVal("1") else StrVal("0"))))
  }

  /** While the room stays live, a start is announced once. */
  lemma LiveAnnouncedOnce(sub: UserSub, d: LiveData, e: LiveData, image: Option<string>)
    requires d.liveStatus == Some(1)
    ensures CheckLive(CheckLive(sub, Some(d), image).1, Some(e), image).0.None?
  {
  }

  /** Going offline re-arms the announcement for the next start. */
  lemma OfflineRearms(sub: UserSub, off: LiveData, on: LiveData, image: Option<string>)
    requires off.liveStatus != Some(1)
    requires on.liveStatus == Some(1) && ScalarTruthy(on.roomId)
    ensures CheckLive(CheckLive(sub, Some(off), image).1, Some(on), image).0.Some?
  {
  }

  // ------------------------------------------------------------ bangumi episodes

  /** The fields of the season answer that the check reads. */
  datatype SeasonData = SeasonData(title: Option<string>, epId: Option<Scalar>, indexShow: Option<string>, epTitle: Option<string>)

  /** A new episode: a truthy id different from the one recorded. */
  predicate AnnounceEpisode(w: EpisodeWatch, d: SeasonData)
  {
    ScalarTruthy(d.epId) && w.lastEpId != d.epId
  }

  /** `index_show || title || epId`: how the episode is named in the notice. */
  function EpisodeName(d: SeasonData): (r: string)
    ensures Present(d.indexShow) ==> r == d.indexShow.value
    ensures !Present(d.indexShow) && Present(d.epTitle) ==> r == d.epTitle.value
    ensures !Present(d.indexShow) && !Present(d.epTitle) ==> r == IdShown(d.epId)
  {
    if Present(d.indexShow) then d.indexShow.value
    else if Present(d.epTitle) then d.epTitle.value
    else IdShown(d.epId)
  }

  /**
    The announcement of an episode. `timeText` is the update time as the code
    formats it from the episode's publish time or the clock; `image` is `None`
    when rendering threw.
  */
  function EpisodeMessage(seasonId: Scalar, d: SeasonData, image: Option<string>, timeText: string): (r: Message)
    ensures image.None? ==> r.Plain?
    ensures image.Some? ==> r.Chain? && |r.items| == 3 && r.items[1] == ImageSeg(Some(Base64Prefix + image.value))
  {
    var head := "[番剧更新] " + Shown(d.title) + " 更新至 " + EpisodeName(d);
    var epUrl := "https://www.bilibili.com/bangumi/play/ep" + IdShown(d.epId);
    var seasonUrl := "https://www.bilibili.com/bangumi/play/ss" + ScalarText(seasonId);
    match image
    case None => Plain(Str(head + "\n观看入口：" + epUrl + "\n番剧主页：" + seasonUrl))
    case Some(img) =>
      Chain([TextSeg(Str(head + "\n更新时间：" + timeText)),
             ImageSeg(Some(Base64Prefix + img)),
             TextSeg(Str("观看入口：" + epUrl + "\n番剧主页：" + seasonUrl))])
  }

  /**
    `checkBangumi(sub)` as evidently intended: a new episode is announced and
    both its id and its update time (`epoch`) are recorded.
  */
  function CheckEpisode(sub: BangumiSub, fetched: Option<SeasonData>, image: Option<string>, timeText: string, epoch: int): (r: (Option<Notice>, BangumiSub))
    ensures r.1.key == sub.key && r.1.groupIds == sub.groupIds
    ensures r.0.Some? <==> fetched.Some? && AnnounceEpisode(sub.watch, fetched.value)
    ensures r.0.Some? ==> fetched.Some? && r.0.value == Notice(sub.groupIds, EpisodeMessage(sub.key, fetched.value, image, timeText))
    ensures r.0.Some? ==> fetched.Some? && r.1.watch == EpisodeWatch(fetched.value.epId, epoch)
    ensures r.0.None? ==> r.1 == sub
  {
    match fetched
    case Some(d) =>
      if AnnounceEpisode(sub.watch, d) then
        (Some(Notice(sub.groupIds, EpisodeMessage(sub.key, d, image, timeText))), sub.(watch := EpisodeWatch(d.epId, epoch)))
      else (None, sub)
    case None => (None, sub)
  }

  /**
    `checkBangumi(sub)` as written: the update time is held in a `let` of the
    `try` block, so the assignment after the block throws a ReferenceError
    once the episode id has been recorded, and the time is never stored. The
    last component says whether the call throws.
  */
  function CheckEpisodeAsWritten(sub: BangumiSub, fetched: Option<SeasonData>, image: Option<string>, timeText: string): (r: (Option<Notice>, BangumiSub, bool))
    ensures r.2 <==> r.0.Some?
    ensures r.0.Some? <==> fetched.Some? && AnnounceEpisode(sub.watch, fetched.value)
    ensures r.0.Some? ==> fetched.Some? && r.1 == sub.(watch := sub.watch.(lastEpId := fetched.value.epId))
    ensures r.0.None? ==> r.1 == sub
  {
    match fetched
    case Some(d) =>
      if AnnounceEpisode(sub.watch, d) then
        (Some(Notice(sub.groupIds, EpisodeMessage(sub.key, d, image, timeText))), sub.(watch := sub.watch.(lastEpId := d.epId)), true)
      else (None, sub, false)
    case None => (None, sub, false)
  }

  /** As written, a new episode throws and leaves the stored update time at 0; as intended it is recorded. */
  lemma EpisodeTimeLost()
    ensures var sub := Sub(IntVal(1), [IntVal(7)], NewEpisodeWatch);
            var d := SeasonData(Some("t"), Some(IntVal(5)), Some("5"), None);
            var written := CheckEpisodeAsWritten(sub, Some(d), None, "");
            written.2 && written.1.watch.lastEpTime == 0
            && CheckEpisode(sub, Some(d), None, "", 1700000000000).1.watch.lastEpTime == 1700000000000
  {
  }

  /** Both versions announce the same episodes with the same message and record the same id. */
  lemma EpisodeAsWrittenAgrees(sub: BangumiSub, fetched: Option<SeasonData>, image: Option<string>, timeText: string, epoch: int)
    ensures CheckEpisodeAsWritten(sub, fetched, image, timeText).0 == CheckEpisode(sub, fetched, image, timeText, epoch).0
    ensures CheckEpisodeAsWritten(sub, fetched, image, timeText).1.watch.lastEpId
            == CheckEpisode(sub, fetched, image, timeText, epoch).1.watch.lastEpId
  {
  }

  /** An announced episode is not announced again. */
  lemma EpisodeNotRepeated(sub: BangumiSub, d: SeasonData, image: Option<string>, timeText: string, epoch: int)
    ensures var after := CheckEpisode(sub, Some(d), image, timeText, epoch).1;
            CheckEpisode(after, Some(d), image, timeText, epoch).0.None?
  {
  }

  // ------------------------------------------------------------ the service

  /** The subscriptions file as read: absent or unreadable, legacy, or current. */
  datatype SubsFile =
    | Unreadable
    | Legacy(records: seq<LegacySub>)
    | Current(userSubs: Option<seq<UserSub>>, bangumiSubs: Option<seq<BangumiSub>>)

  /** `forEach(g => { if (!gs.includes(g)) gs.push(g); })`. */
  method MergeGroups(gs: seq<Scalar>, more: seq<Scalar>) returns (r: seq<Scalar>)
    ensures r == PushAll(gs, more)
  {
    r := gs;
    var j := 0;
    while j < |more|
      invariant 0 <= j <= |more|
      invariant r == PushAll(gs, more[..j])
    {
      if more[j] !in r {
        r := r + [more[j]];
      }
      assert more[..j + 1][..j] == more[..j];
      j := j + 1;
    }
    assert more[..j] == more;
  }

  /** The migration loop: one merge per legacy record, into an insertion-ordered map. */
  method Migrate(records: seq<LegacySub>) returns (subs: seq<UserSub>)
    ensures subs == Migrated(records)
  {
    subs := [];
    var i := 0;
    while i < |records|
      invariant 0 <= i <= |records|
      invariant subs == Migrated(records[..i])
    {
      var s := records[i];
      var found := Find(subs, s.uid);
      var entry := if found.Some? then subs[found.value] else Sub(s.uid, [], NewUserWatch);
      var groups := MergeGroups(entry.groupIds, s.groupIds);
      var merged := Sub(s.uid, groups, Carry(entry.watch, s));
      subs := if found.Some? then subs[found.value := merged] else subs + [merged];
      assert records[..i + 1][..i] == records[..i];
      i := i + 1;
    }
    assert records[..i] == records;
  }

  /** The subscription service; `saveSubscriptions` after each change writes a file and is left out. */
  class SubscriptionService {
    var userSubs: seq<UserSub>
    var bangumiSubs: seq<BangumiSub>

    constructor ()
      ensures userSubs == [] && bangumiSubs == []
    {
      userSubs := [];
      bangumiSubs := [];
    }

    /** `loadSubscriptions`: a legacy list is migrated; a failed read changes nothing. */
    method LoadSubscriptions(file: SubsFile)
      modifies this
      ensures file.Unreadable? ==> userSubs == old(userSubs) && bangumiSubs == old(bangumiSubs)
      ensures file.Legacy? ==> userSubs == Migrated(file.records) && bangumiSubs == []
      ensures file.Current? ==> userSubs == file.userSubs.GetOr([]) && bangumiSubs == file.bangumiSubs.GetOr([])
    {
      match file
      case Unreadable =>
      case Legacy(records) =>
        userSubs := Migrate(records);
        bangumiSubs := [];
      case Current(us, bs) =>
        userSubs := us.GetOr([]);
        bangumiSubs := bs.GetOr([]);
    }

    method AddUserSubscription(uid: Scalar, g: Scalar) returns (ok: bool)
      modifies this`userSubs
      ensures ok
      ensures userSubs == AddSub(old(userSubs), uid, g, NewUserWatch)
    {
      userSubs := AddSub(userSubs, uid, g, NewUserWatch);
      ok := true;
    }

    method RemoveUserSubscription(uid: Scalar, g: Scalar) returns (ok: bool)
      modifies this`userSubs
      ensures (ok, userSubs) == RemoveSub(old(userSubs), uid, g)
    {
      var found := Find(userSubs, uid);
      if found.None? {
        return false;
      }
      var i := found.value;
      var left := Without(userSubs[i].groupIds, g);
      userSubs := userSubs[i := userSubs[i].(groupIds := left)];
      if left == [] {
        DropKeyUpdated(old(userSubs), i, left, uid);
        userSubs := DropKey(userSubs, uid);
      }
      return true;
    }

    method AddBangumiSubscription(seasonId: Scalar, g: Scalar) returns (ok: bool)
      modifies this`bangumiSubs
      ensures ok
      ensures bangumiSubs == AddSub(old(bangumiSubs), seasonId, g, NewEpisodeWatch)
    {
      bangumiSubs := AddSub(bangumiSubs, seasonId, g, NewEpisodeWatch);
      ok := true;
    }

    method RemoveBangumiSubscription(seasonId: Scalar, g: Scalar) returns (ok: bool)
      modifies this`bangumiSubs
      ensures (ok, bangumiSubs) == RemoveSub(old(bangumiSubs), seasonId, g)
    {
      var r := RemoveSub(bangumiSubs, seasonId, g);
      ok, bangumiSubs := r.0, r.1;
    }

    /** The legacy `removeSubscription(uid, groupId, type)`: only the two user kinds remove. */
    method RemoveSubscription(uid: Scalar, g: Scalar, kind: string) returns (ok: bool)
      modifies this`userSubs
      ensures kind == "dynamic" || kind == "live" ==> (ok, userSubs) == RemoveSub(old(userSubs), uid, g)
      ensures !(kind == "dynamic" || kind == "live") ==> !ok && userSubs == old(userSubs)
    {
      if kind == "dynamic" || kind == "live" {
        ok := RemoveUserSubscription(uid, g);
      } else {
        ok := false;
      }
    }

    function GetSubscriptionsByGroup(g: Scalar): (r: seq<Listing>)
      reads this
      ensures r == ByGroup(userSubs, bangumiSubs, g)
      ensures forall k :: UserEntry(k) in r <==> k in Followed(userSubs, g)
      ensures forall k :: BangumiEntry(k) in r <==> k in Followed(bangumiSubs, g)
    {
      var r := ByGroup(userSubs, bangumiSubs, g);
      assert forall k :: (UserEntry(k) in r <==> k in Followed(userSubs, g))
                         && (BangumiEntry(k) in r <==> k in Followed(bangumiSubs, g)) by {
        forall k ensures (UserEntry(k) in r <==> k in Followed(userSubs, g))
                         && (BangumiEntry(k) in r <==> k in Followed(bangumiSubs, g)) {
          ByGroupComplete(userSubs, bangumiSubs, g, k);
        }
      }
      r
    }

    /** The periodic post check of the `i`-th user subscription. */
    method CheckUserDynamic(i: nat, fetched: Option<PostData>, image: Option<string>) returns (notice: Option<Notice>)
      requires i < |userSubs|
      modifies this`userSubs
      ensures notice == CheckPost(old(userSubs[i]), fetched, image, false).0
      ensures userSubs == old(userSubs)[i := CheckPost(old(userSubs[i]), fetched, image, false).1]
    {
      var r := CheckPost(userSubs[i], fetched, image, false);
      notice := r.0;
      userSubs := userSubs[i := r.1];
    }

    /**
      `checkSubscriptionNow(id, groupId)`: a subscribed uid gets a forced check
      on a copy that only names the group, and nothing is recorded; any other
      id is looked up as a post id.
    */
    method CheckSubscriptionNow(id: Scalar, g: Scalar, fetched: Option<PostData>, image: Option<string>,
                                lookup: LookupResult) returns (ok: bool, notice: Option<Notice>)
      ensures id in Keys(userSubs) ==> ok && (fetched.None? <==> notice.None?)
      ensures id in Keys(userSubs) && fetched.Some? ==> notice == Some(Notice([g], PostMessage(id, fetched.value, image)))
      ensures id !in Keys(userSubs) ==>
                ok == LookupNotice(id, g, lookup).0 && notice == Some(LookupNotice(id, g, lookup).1)
    {
      var found := Find(userSubs, id);
      if found.Some? {
        var temp := userSubs[found.value].(groupIds := [g]);
        notice := CheckPost(temp, fetched, image, true).0;
        ok := true;
      } else {
        assert id !in Keys(userSubs);
        var r := LookupNotice(id, g, lookup);
        ok, notice := r.0, Some(r.1);
      }
    }

    /** The periodic live check of the `i`-th user subscription. */
    method CheckUserLive(i: nat, fetched: Option<LiveData>, image: Option<string>) returns (notice: Option<Notice>)
      requires i < |userSubs|
      modifies this`userSubs
      ensures notice == CheckLive(old(userSubs[i]), fetched, image).0
      ensures userSubs == old(userSubs)[i := CheckLive(old(userSubs[i]), fetched, image).1]
    {
      var r := CheckLive(userSubs[i], fetched, image);
      notice := r.0;
      userSubs := userSubs[i := r.1];
    }

    /** The periodic episode check of the `i`-th bangumi subscription. */
    method CheckBangumi(i: nat, fetched: Option<SeasonData>, image: Option<string>, timeText: string, epoch: int)
      returns (notice: Option<Notice>)
      requires i < |bangumiSubs|
      modifies this`bangumiSubs
      ensures notice == CheckEpisode(old(bangumiSubs[i]), fetched, image, timeText, epoch).0
      ensures bangumiSubs == old(bangumiSubs)[i := CheckEpisode(old(bangumiSubs[i]), fetched, image, timeText, epoch).1]
    {
      var r := CheckEpisode(bangumiSubs[i], fetched, image, timeText, epoch);
      notice := r.0;
      bangumiSubs := bangumiSubs[i := r.1];
    }
  }
}
