/**
  The bot's configuration object: the settings read from the configuration
  file, per-group overrides of them, the group administrators and the group
  whitelist.  Group and user ids arrive as numbers or strings; every store
  keys them by their string form.
*/
module Config {
  import opened Wrappers
  import opened Text
  import opened Js
  import opened Seqs

  /** `id.toString()` of a QQ user or group id. */
  function IdText(id: Scalar): string { ScalarText(id) }

  /** `!!id`. */
  predicate IdTruthy(id: Scalar) { ScalarTruthy(Some(id)) }

  /** A group's override object, `groupConfigs[groupId]`. */
  type GroupEntry = map<string, Value>

  /** The entry of a group, or a fresh `{}` when it has none. */
  function EntryOf(groups: map<string, GroupEntry>, key: string): GroupEntry
  {
    if key in groups then groups[key] else map[]
  }

  /**
    An `admins` field that is truthy but not an array: a string, say, from a
    hand-edited file or a `setGroupConfig` call. `includes` and `indexOf`
    then search its text, `push` and `splice` do not exist, and a number,
    boolean or object has none of the four, so the admin operations throw.
  */
  predicate OddAdmins(entry: GroupEntry)
  {
    "admins" in entry && Truthy(entry["admins"]) && !entry["admins"].List?
  }

  /** Every group's `admins` field is an array or falsy. */
  predicate WellFormed(groups: map<string, GroupEntry>)
  {
    forall key :: key in groups ==> !OddAdmins(groups[key])
  }

  /** `admins.includes(id)` on a truthy array or string `admins` field. */
  predicate AdminsInclude(entry: GroupEntry, id: string)
  {
    "admins" in entry && Truthy(entry["admins"])
    && ((entry["admins"].List? && Str(id) in entry["admins"].items)
        || (entry["admins"].Str? && Contains(entry["admins"].s, id)))
  }

  /** The message of the exception a missing array method raises. */
  const TypeError: string := "TypeError"

  /** The admins array of an entry; a missing or falsy one reads as `[]`. */
  function AdminList(entry: GroupEntry): seq<Value>
  {
    if "admins" in entry && entry["admins"].List? then entry["admins"].items else []
  }

  // ------------------------------------------------------------ group overrides

  /** `getGroupConfig(groupId, key)`; `None` is `undefined`. */
  function Lookup(groups: map<string, GroupEntry>, settings: map<string, Value>, g: Scalar, key: string): (r: Option<Value>)
    ensures IdTruthy(g) && IdText(g) in groups && key in groups[IdText(g)] ==> r == Some(groups[IdText(g)][key])
    ensures !(IdTruthy(g) && IdText(g) in groups && key in groups[IdText(g)]) ==>
              (r.Some? <==> key in settings) && (key in settings ==> r == Some(settings[key]))
  {
    if IdTruthy(g) && IdText(g) in groups && key in groups[IdText(g)] then Some(groups[IdText(g)][key])
    else if key in settings then Some(settings[key])
    else None
  }

  /** `setGroupConfig(groupId, key, value)` on the override store. */
  function SetEntry(groups: map<string, GroupEntry>, g: Scalar, key: string, v: Value): (r: map<string, GroupEntry>)
    ensures !IdTruthy(g) ==> r == groups
    ensures IdTruthy(g) ==> r.Keys == groups.Keys + {IdText(g)}
    ensures forall k :: k in groups && k != IdText(g) ==> k in r && r[k] == groups[k]
  {
    if !IdTruthy(g) then groups
    else groups[IdText(g) := EntryOf(groups, IdText(g))[key := v]]
  }

  /** After a set on a truthy group, the group reads back the value set. */
  lemma GetAfterSet(groups: map<string, GroupEntry>, settings: map<string, Value>, g: Scalar, key: string, v: Value)
    requires IdTruthy(g)
    ensures Lookup(SetEntry(groups, g, key, v), settings, g, key) == Some(v)
  {
  }

  /** A set changes what no other group, and no other key, reads. */
  lemma SetLeavesOthers(groups: map<string, GroupEntry>, settings: map<string, Value>,
                        g: Scalar, key: string, v: Value, h: Scalar, other: string)
    requires IdText(h) != IdText(g) || other != key
    ensures Lookup(SetEntry(groups, g, key, v), settings, h, other) == Lookup(groups, settings, h, other)
  {
    var r := SetEntry(groups, g, key, v);
    if IdTruthy(g) && IdText(h) == IdText(g) {
      assert r[IdText(g)] == EntryOf(groups, IdText(g))[key := v];
      assert other in r[IdText(h)] <==> other in EntryOf(groups, IdText(g));
    }
  }

  // ------------------------------------------------------------ administrators

  /** `isRootAdmin(userId)`: the configured admin QQ, compared as text. */
  predicate IsRoot(adminQQ: Option<string>, u: Scalar)
  {
    adminQQ.Some? && adminQQ.value != "" && IdText(u) == adminQQ.value
  }

  /** `isGroupAdmin(groupId, userId)`. */
  predicate IsAdmin(groups: map<string, GroupEntry>, adminQQ: Option<string>, g: Scalar, u: Scalar)
  {
    if IsRoot(adminQQ, u) then true
    else if !IdTruthy(g) then false
    else IdText(g) in groups && "admins" in groups[IdText(g)] && groups[IdText(g)]["admins"].List?
         && Str(IdText(u)) in groups[IdText(g)]["admins"].items
  }

  /**
    `addGroupAdmin(groupId, userId)`: whether it changed anything and the new
    override store, or the exception it throws.
  */
  function AddAdmin(groups: map<string, GroupEntry>, g: Scalar, u: Scalar): (r: Result<(bool, map<string, GroupEntry>)>)
    ensures r.Failure? <==> IdTruthy(g) && IdTruthy(u) && OddAdmins(EntryOf(groups, IdText(g)))
                            && !AdminsInclude(EntryOf(groups, IdText(g)), IdText(u))
    ensures r.Success? ==> (r.value.0 <==> IdTruthy(g) && IdTruthy(u) && !AdminsInclude(EntryOf(groups, IdText(g)), IdText(u)))
    ensures r.Success? && !r.value.0 ==> r.value.1 == groups
    ensures r.Success? && r.value.0 ==>
              r.value.1.Keys == groups.Keys + {IdText(g)}
              && var (e, e') := (EntryOf(groups, IdText(g)), r.value.1[IdText(g)]);
              AdminList(e') == AdminList(e) + [Str(IdText(u))]
              && !OddAdmins(e')
              && (forall k :: k in groups && k != IdText(g) ==> r.value.1[k] == groups[k])
              && (forall f :: f in e && f != "admins" ==> f in e' && e'[f] == e[f])
    ensures r.Failure? ==> r.error == TypeError
  {
    if !IdTruthy(g) || !IdTruthy(u) then Success((false, groups))
    else
      var entry := EntryOf(groups, IdText(g));
      var id := IdText(u);
      if AdminsInclude(entry, id) then Success((false, groups))
      else if OddAdmins(entry) then Failure(TypeError)
      else Success((true, groups[IdText(g) := entry["admins" := List(AdminList(entry) + [Str(id)])]]))
  }

  /**
    `removeGroupAdmin(groupId, userId)`: whether it removed one and the new
    store, or the exception it throws.
  */
  function RemoveAdmin(groups: map<string, GroupEntry>, g: Scalar, u: Scalar): (r: Result<(bool, map<string, GroupEntry>)>)
    ensures r.Failure? <==> IdTruthy(g) && IdTruthy(u) && OddAdmins(EntryOf(groups, IdText(g)))
                            && !(EntryOf(groups, IdText(g))["admins"].Str?
                                 && !Contains(EntryOf(groups, IdText(g))["admins"].s, IdText(u)))
    ensures r.Success? ==> (r.value.0 <==> IdTruthy(g) && IdTruthy(u) && Str(IdText(u)) in AdminList(EntryOf(groups, IdText(g))))
    ensures r.Success? && !r.value.0 ==> r.value.1 == groups
    ensures r.Success? && r.value.0 ==>
              r.value.1.Keys == groups.Keys
              && AdminList(r.value.1[IdText(g)]) == RemoveFirst(AdminList(groups[IdText(g)]), Str(IdText(u)))
              && !OddAdmins(r.value.1[IdText(g)])
              && (forall k :: k in groups && k != IdText(g) ==> r.value.1[k] == groups[k])
    ensures r.Failure? ==> r.error == TypeError
  {
    if !IdTruthy(g) || !IdTruthy(u) then Success((false, groups))
    else if IdText(g) !in groups || "admins" !in groups[IdText(g)] || !Truthy(groups[IdText(g)]["admins"]) then Success((false, groups))
    else
      var entry := groups[IdText(g)];
      var admins := entry["admins"];
      var id := IdText(u);
      if admins.Str? && !Contains(admins.s, id) then Success((false, groups))
      else if !admins.List? then Failure(TypeError)
      else if Str(id) in admins.items then
        Success((true, groups[IdText(g) := entry["admins" := List(RemoveFirst(admins.items, Str(id)))]]))
      else Success((false, groups))
  }

  /** On a well-formed store neither operation throws, and both keep the store well-formed. */
  lemma AdminOpsKeepWellFormed(groups: map<string, GroupEntry>, g: Scalar, u: Scalar)
    requires WellFormed(groups)
    ensures AddAdmin(groups, g, u).Success? && WellFormed(AddAdmin(groups, g, u).value.1)
    ensures RemoveAdmin(groups, g, u).Success? && WellFormed(RemoveAdmin(groups, g, u).value.1)
  {
    assert !OddAdmins(EntryOf(groups, IdText(g)));
  }

  /**
    A string `admins` field grants nobody but the root admin anything, and
    adding to it either reports an id it already mentions or throws.
  */
  lemma StringAdminsInert(groups: map<string, GroupEntry>, adminQQ: Option<string>, g: Scalar, u: Scalar)
    requires IdTruthy(g) && IdTruthy(u) && !IsRoot(adminQQ, u)
    requires IdText(g) in groups && "admins" in groups[IdText(g)] && groups[IdText(g)]["admins"].Str?
    requires groups[IdText(g)]["admins"].s != ""
    ensures !IsAdmin(groups, adminQQ, g, u)
    ensures AddAdmin(groups, g, u) == (if Contains(groups[IdText(g)]["admins"].s, IdText(u)) then Success((false, groups)) else Failure(TypeError))
  {
  }

  /** An added admin is an admin of that group. */
  lemma AddAdminMakesAdmin(groups: map<string, GroupEntry>, adminQQ: Option<string>, g: Scalar, u: Scalar)
    requires !OddAdmins(EntryOf(groups, IdText(g))) && IdTruthy(g) && IdTruthy(u)
    ensures AddAdmin(groups, g, u).Success? && IsAdmin(AddAdmin(groups, g, u).value.1, adminQQ, g, u)
  {
    var r := AddAdmin(groups, g, u);
    if !r.value.0 {
      var e := EntryOf(groups, IdText(g));
      assert Str(IdText(u)) in AdminList(e);
      assert IdText(g) in groups;
    }
  }

  /** Adding keeps a duplicate-free admins list duplicate-free. */
  lemma AddAdminNoDup(groups: map<string, GroupEntry>, g: Scalar, u: Scalar)
    requires !OddAdmins(EntryOf(groups, IdText(g)))
    requires NoDup(AdminList(EntryOf(groups, IdText(g))))
    ensures AddAdmin(groups, g, u).Success?
    ensures NoDup(AdminList(EntryOf(AddAdmin(groups, g, u).value.1, IdText(g))))
  {
    var r := AddAdmin(groups, g, u).value;
    if r.0 {
      var old_ := AdminList(EntryOf(groups, IdText(g)));
      var s := AdminList(r.1[IdText(g)]);
      assert s == old_ + [Str(IdText(u))];
      forall i, j | 0 <= i < j < |s| ensures s[i] != s[j] {
        if j == |s| - 1 {
          assert s[i] in old_;
        }
      }
    }
  }

  /** A removed admin of a duplicate-free list stops being an admin, unless root. */
  lemma RemoveAdminDemotes(groups: map<string, GroupEntry>, adminQQ: Option<string>, g: Scalar, u: Scalar)
    requires !OddAdmins(EntryOf(groups, IdText(g))) && IdTruthy(g) && IdTruthy(u) && !IsRoot(adminQQ, u)
    requires NoDup(AdminList(EntryOf(groups, IdText(g))))
    ensures RemoveAdmin(groups, g, u).Success?
    ensures !IsAdmin(RemoveAdmin(groups, g, u).value.1, adminQQ, g, u)
  {
    var r := RemoveAdmin(groups, g, u).value;
    var e := EntryOf(groups, IdText(g));
    if r.0 {
      RemoveFirstNoDup(AdminList(e), Str(IdText(u)));
      var e' := r.1[IdText(g)];
      assert "admins" in e' && e'["admins"].List? ==> e'["admins"].items == AdminList(e');
    } else {
      assert Str(IdText(u)) !in AdminList(e);
      if IdText(g) in groups && "admins" in groups[IdText(g)] && groups[IdText(g)]["admins"].List? {
        assert groups[IdText(g)]["admins"].items == AdminList(e);
      }
    }
  }

  /** Adding a new admin and removing them restores the admins list. */
  lemma AddThenRemove(groups: map<string, GroupEntry>, g: Scalar, u: Scalar)
    requires AddAdmin(groups, g, u).Success? && AddAdmin(groups, g, u).value.0
    ensures var added := AddAdmin(groups, g, u).value.1;
            RemoveAdmin(added, g, u).Success? && RemoveAdmin(added, g, u).value.0
            && AdminList(RemoveAdmin(added, g, u).value.1[IdText(g)]) == AdminList(EntryOf(groups, IdText(g)))
  {
    var before := AdminList(EntryOf(groups, IdText(g)));
    RemoveUndoesAppend(before, Str(IdText(u)));
  }

  // ------------------------------------------------------------ whitelist

  /** `isGroupEnabled(groupId)`: an empty whitelist admits every group. */
  predicate Enabled(list: seq<Value>, g: Scalar)
  {
    |list| == 0 || Str(IdText(g)) in list
  }

  /** `enableGroup(groupId)` on the whitelist. */
  function EnableList(list: seq<Value>, g: Scalar): (r: seq<Value>)
    ensures Enabled(r, g)
    ensures Str(IdText(g)) in list ==> r == list
    ensures Str(IdText(g)) !in list ==> r == list + [Str(IdText(g))]
  {
    Push(list, Str(IdText(g)))
  }

  /** Enabling admits the group, and a second enable changes nothing. */
  lemma EnableIdempotent(list: seq<Value>, g: Scalar)
    ensures Enabled(EnableList(list, g), g)
    ensures EnableList(EnableList(list, g), g) == EnableList(list, g)
  {
  }

  /** Disabling a group leaves it enabled exactly when the whitelist became empty. */
  lemma DisableEffect(list: seq<Value>, g: Scalar)
    ensures Enabled(Without(list, Str(IdText(g))), g) <==> Without(list, Str(IdText(g))) == []
  {
  }

  /** For other groups a disable changes nothing, unless it empties the whitelist. */
  lemma DisableLeavesOthers(list: seq<Value>, g: Scalar, h: Scalar)
    requires IdText(h) != IdText(g) && Without(list, Str(IdText(g))) != []
    ensures Enabled(Without(list, Str(IdText(g))), h) == (Str(IdText(h)) in list)
  {
  }

  // ------------------------------------------------------------ loading

  /**
    The settings taken from the configuration file with their defaults:
    `x || default` for the fields the core reads, `showId` unless undefined.
  */
  function LoadSettings(file: map<string, Value>): (r: map<string, Value>)
    ensures r.Keys == {"aiContextLimit", "blacklistedQQs", "nightMode", "labelConfig", "showId"}
    ensures "showId" in file ==> r["showId"] == file["showId"]
    ensures "showId" !in file ==> r["showId"] == Bool(true)
    ensures "nightMode" in file && Truthy(file["nightMode"]) ==> r["nightMode"] == file["nightMode"]
    ensures !("labelConfig" in file && Truthy(file["labelConfig"])) ==>
              r["labelConfig"].Obj? && forall k :: k in r["labelConfig"].fields ==> r["labelConfig"].fields[k] == Bool(true)
  {
    map["aiContextLimit" := OrValue(file, "aiContextLimit", Num(10)),
        "blacklistedQQs" := OrValue(file, "blacklistedQQs", List([])),
        "nightMode" := OrValue(file, "nightMode", DefaultNightMode),
        "labelConfig" := OrValue(file, "labelConfig", DefaultLabels),
        "showId" := if "showId" in file then file["showId"] else Bool(true)]
  }

  /** `file.key || default`. */
  function OrValue(file: map<string, Value>, key: string, default: Value): Value
  {
    if key in file && Truthy(file[key]) then file[key] else default
  }

  const DefaultNightMode: Value :=
    Obj(map["mode" := Str("off"), "startTime" := Str("21:00"), "endTime" := Str("06:00")])

  const DefaultLabels: Value :=
    Obj(map["video" := Bool(true), "bangumi" := Bool(true), "article" := Bool(true),
            "live" := Bool(true), "dynamic" := Bool(true), "user" := Bool(true)])

  // ------------------------------------------------------------ the object

  /** The configuration object; `save()` after each change writes a file and is left out. */
  class BotConfig {
    var settings: map<string, Value>
    var groupConfigs: map<string, GroupEntry>
    var enabledGroups: seq<Value>
    var adminQQ: Option<string>

    /**
      The object as built from a parsed configuration file; the whitelist and
      the overrides are passed already decoded, `[]` and `{}` when absent.
    */
    constructor (file: map<string, Value>, groups: map<string, GroupEntry>, whitelist: seq<Value>, admin: Option<string>)
      ensures settings == LoadSettings(file) && groupConfigs == groups
      ensures enabledGroups == whitelist && adminQQ == admin
    {
      settings := LoadSettings(file);
      groupConfigs := groups;
      enabledGroups := whitelist;
      adminQQ := admin;
    }

    function GetGroupConfig(g: Scalar, key: string): (r: Option<Value>)
      reads this
      ensures r == Lookup(groupConfigs, settings, g, key)
    {
      Lookup(groupConfigs, settings, g, key)
    }

    method SetGroupConfig(g: Scalar, key: string, v: Value)
      modifies this`groupConfigs
      ensures groupConfigs == SetEntry(old(groupConfigs), g, key, v)
      ensures IdTruthy(g) ==> GetGroupConfig(g, key) == Some(v)
    {
      if !IdTruthy(g) {
        return;
      }
      var entry := if IdText(g) in groupConfigs then groupConfigs[IdText(g)] else map[];
      groupConfigs := groupConfigs[IdText(g) := entry[key := v]];
    }

    predicate IsRootAdmin(u: Scalar)
      reads this
    {
      IsRoot(adminQQ, u)
    }

    predicate IsGroupAdmin(g: Scalar, u: Scalar)
      reads this
    {
      IsAdmin(groupConfigs, adminQQ, g, u)
    }

    /** `addGroupAdmin`; a thrown exception leaves the store as it was. */
    method AddGroupAdmin(g: Scalar, u: Scalar) returns (r: Result<bool>)
      modifies this`groupConfigs
      ensures var a := AddAdmin(old(groupConfigs), g, u);
              (a.Failure? ==> r == Failure(TypeError) && groupConfigs == old(groupConfigs))
              && (a.Success? ==> r == Success(a.value.0) && groupConfigs == a.value.1)
      ensures IdTruthy(g) && IdTruthy(u) && !OddAdmins(EntryOf(old(groupConfigs), IdText(g))) ==> IsGroupAdmin(g, u)
    {
      if !IdTruthy(g) || !IdTruthy(u) {
        return Success(false);
      }
      var key := IdText(g);
      var entry := if key in groupConfigs then groupConfigs[key] else map[];
      var id := IdText(u);
      var admins := if "admins" in entry && Truthy(entry["admins"]) then entry["admins"] else List([]);
      if admins.List? {
        if Str(id) !in admins.items {
          groupConfigs := groupConfigs[key := entry["admins" := List(admins.items + [Str(id)])]];
          r := Success(true);
        } else {
          r := Success(false);
        }
      } else if admins.Str? && Contains(admins.s, id) {
        r := Success(false);
      } else {
        r := Failure(TypeError);
      }
      if !OddAdmins(EntryOf(old(groupConfigs), key)) {
        AddAdminMakesAdmin(old(groupConfigs), adminQQ, g, u);
      }
    }

    /** `removeGroupAdmin`; a thrown exception leaves the store as it was. */
    method RemoveGroupAdmin(g: Scalar, u: Scalar) returns (r: Result<bool>)
      modifies this`groupConfigs
      ensures var a := RemoveAdmin(old(groupConfigs), g, u);
              (a.Failure? ==> r == Failure(TypeError) && groupConfigs == old(groupConfigs))
              && (a.Success? ==> r == Success(a.value.0) && groupConfigs == a.value.1)
    {
      if !IdTruthy(g) || !IdTruthy(u) {
        return Success(false);
      }
      var key := IdText(g);
      if key !in groupConfigs || "admins" !in groupConfigs[key] || !Truthy(groupConfigs[key]["admins"]) {
        return Success(false);
      }
      var admins := groupConfigs[key]["admins"];
      var id := IdText(u);
      if admins.Str? && !Contains(admins.s, id) {
        return Success(false);
      }
      if !admins.List? {
        return Failure(TypeError);
      }
      if Str(id) in admins.items {
        var i := FirstIndex(admins.items, Str(id));
        groupConfigs := groupConfigs[key := groupConfigs[key]["admins" := List(admins.items[..i] + admins.items[i + 1..])]];
        return Success(true);
      }
      return Success(false);
    }

    predicate IsGroupEnabled(g: Scalar)
      reads this
    {
      Enabled(enabledGroups, g)
    }

    method EnableGroup(g: Scalar)
      modifies this`enabledGroups
      ensures enabledGroups == EnableList(old(enabledGroups), g)
      ensures IsGroupEnabled(g)
    {
      var id := Str(IdText(g));
      if id !in enabledGroups {
        enabledGroups := enabledGroups + [id];
      }
    }

    method DisableGroup(g: Scalar)
      modifies this`enabledGroups
      ensures enabledGroups == Without(old(enabledGroups), Str(IdText(g)))
    {
      enabledGroups := Without(enabledGroups, Str(IdText(g)));
    }
  }
}
