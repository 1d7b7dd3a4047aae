/** Group rules over the groups and contacts tables: creation, lookup,
    owner-only edits and dissolution, and the member list that joins and
    removals rewrite. */
module GroupRules {
  import opened Wrappers
  import opened Schema
  import Seqs
  import Strings

  datatype GroupError =
    | GroupNotFound
    | NotGroupOwner
    | AlreadyInGroup
    | NotInGroup
    | GroupDissolved
    | OwnerCannotLeave
    | DbError

  const SearchLimit := 20
  const GroupAvatarBase := "https://api.dicebear.com/7.x/identicon/svg?seed="

  /** The optional fields of an update request; `None` is an absent field. */
  datatype UpdateRequest = UpdateRequest(
    name: Option<string>, notice: Option<string>, avatar: Option<string>, addMode: Option<int>)

  /** The unique index on `groups.uuid`. */
  predicate UniqueUuids(gs: seq<GroupRow>) {
    forall i, j :: 0 <= i < j < |gs| ==> gs[i].uuid != gs[j].uuid
  }

  /** What every group row keeps: the stored count matches the list, the
      owner is on it, and nobody is on it twice. */
  predicate MembersWellFormed(g: GroupRow) {
    g.memberCnt == |g.members| && g.ownerId in g.members && Seqs.Distinct(g.members)
  }

  predicate GroupsWellFormed(gs: seq<GroupRow>) {
    UniqueUuids(gs) && forall i :: 0 <= i < |gs| ==> MembersWellFormed(gs[i])
  }

  /** `Where("uuid = ?").First`: the earliest row with that uuid. */
  function FindGroup(gs: seq<GroupRow>, uuid: string): (k: Option<nat>)
    ensures k.Some? ==> k.value < |gs| && gs[k.value].uuid == uuid
                        && forall j :: 0 <= j < k.value ==> gs[j].uuid != uuid
    ensures k.None? <==> forall j :: 0 <= j < |gs| ==> gs[j].uuid != uuid
  {
    if gs == [] then None
    else if gs[0].uuid == uuid then Some(0)
    else
      var k := FindGroup(gs[1..], uuid);
      if k.Some? then Some(k.value + 1) else None
  }

  /** A missing group and a dissolved one are both refused, with different
      errors; any other status is returned. */
  function GetByUuid(gs: seq<GroupRow>, uuid: string): (r: Result<GroupRow, GroupError>)
    ensures r == Err(GroupNotFound) <==> FindGroup(gs, uuid).None?
    ensures r == Err(GroupDissolved) <==>
      FindGroup(gs, uuid).Some? && gs[FindGroup(gs, uuid).value].status == GroupStatusDissolved
    ensures r.Ok? ==> FindGroup(gs, uuid).Some? && r.value == gs[FindGroup(gs, uuid).value]
                      && r.value.uuid == uuid && r.value.status != GroupStatusDissolved
    ensures r.Ok? || r == Err(GroupNotFound) || r == Err(GroupDissolved)
  {
    var k := FindGroup(gs, uuid);
    if k.None? then Err(GroupNotFound)
    else if gs[k.value].status == GroupStatusDissolved then Err(GroupDissolved)
    else Ok(gs[k.value])
  }

  /** The row after an owner's edit: name and avatar only when present and
      non-empty, notice and add mode whenever present. */
  function Edited(g: GroupRow, req: UpdateRequest): (r: GroupRow)
    ensures r.uuid == g.uuid && r.members == g.members && r.memberCnt == g.memberCnt
    ensures r.ownerId == g.ownerId && r.status == g.status
    ensures r.name == (if req.name.Some? && req.name.value != "" then req.name.value else g.name)
    ensures r.notice == (if req.notice.Some? then req.notice.value else g.notice)
    ensures r.avatar == (if req.avatar.Some? && req.avatar.value != "" then req.avatar.value else g.avatar)
    ensures r.addMode == (if req.addMode.Some? then req.addMode.value else g.addMode)
  {
    var g1 := if req.name.Some? && req.name.value != "" then g.(name := req.name.value) else g;
    var g2 := if req.notice.Some? then g1.(notice := req.notice.value) else g1;
    var g3 := if req.avatar.Some? && req.avatar.value != "" then g2.(avatar := req.avatar.value) else g2;
    if req.addMode.Some? then g3.(addMode := req.addMode.value) else g3
  }

  /** An update changes nothing when every field is absent. */
  lemma EditedNothing(g: GroupRow)
    ensures Edited(g, UpdateRequest(None, None, None, None)) == g
  {
  }

  /** The column updates the service issues against the groups table. */
  datatype GroupPatch =
    | SetMembers(members: seq<string>)      // members and member_cnt = len(members)
    | SetStatus(status: int)
    | Edit(req: UpdateRequest)

  function Patched(g: GroupRow, p: GroupPatch): GroupRow {
    match p
    case SetMembers(ms) => g.(members := ms, memberCnt := |ms|)
    case SetStatus(s) => g.(status := s)
    case Edit(req) => Edited(g, req)
  }

  /** `Model(&Group{}).Where("uuid = ?", uuid).Updates(...)`: every row with
      that uuid is patched, the others are kept. */
  function PatchWhere(gs: seq<GroupRow>, uuid: string, p: GroupPatch): (r: seq<GroupRow>)
    ensures |r| == |gs|
    ensures forall i :: 0 <= i < |gs| ==> r[i] == (if gs[i].uuid == uuid then Patched(gs[i], p) else gs[i])
  {
    if gs == [] then []
    else [if gs[0].uuid == uuid then Patched(gs[0], p) else gs[0]] + PatchWhere(gs[1..], uuid, p)
  }

  /** No patch touches a uuid, so a lookup finds the same row afterwards. */
  lemma PatchKeepsFind(gs: seq<GroupRow>, uuid: string, p: GroupPatch, other: string)
    ensures FindGroup(PatchWhere(gs, uuid, p), other) == FindGroup(gs, other)
  {
    var r := PatchWhere(gs, uuid, p);
    assert forall i :: 0 <= i < |gs| ==> r[i].uuid == gs[i].uuid;
    var a := FindGroup(r, other);
    var b := FindGroup(gs, other);
    if a.Some? && b.Some? {
      assert !(a.value < b.value) && !(b.value < a.value);
    }
  }

  /** `Create`: the owner is the only member, the group is active, and the
      owner gets a group-type contact row; a uuid that the unique index
      already holds makes the insert fail with nothing written. */
  function Create(t: Tables, ownerId: string, name: string, notice: string, addMode: int, suffix: string)
    : (r: (Tables, Result<GroupRow, GroupError>))
    requires |suffix| == 11
    ensures r.1.Ok? ==>
      var g := r.1.value;
      IsGeneratedId(g.uuid, 'G') && g.members == [ownerId] && g.memberCnt == 1 && g.ownerId == ownerId
      && g.status == GroupStatusActive && g.name == name && g.notice == notice && g.addMode == addMode
      && g.avatar == GroupAvatarBase + g.uuid
      && r.0 == t.(groups := t.groups + [g],
                   contacts := t.contacts + [ContactRow(ownerId, g.uuid, ContactTypeGroup, ContactStatusNormal)])
    ensures r.1.Err? <==> FindGroup(t.groups, ['G'] + suffix).Some?
    ensures r.1.Err? ==> r == (t, Err(DbError))
  {
    var uuid := ['G'] + suffix;
    if FindGroup(t.groups, uuid).Some? then (t, Err(DbError))
    else
      var g := GroupRow(uuid, name, notice, [ownerId], 1, ownerId, addMode, GroupAvatarBase + uuid, GroupStatusActive);
      (t.(groups := t.groups + [g],
          contacts := t.contacts + [ContactRow(ownerId, uuid, ContactTypeGroup, ContactStatusNormal)]),
       Ok(g))
  }

  /** `Update`: only the owner of a live group may edit it; the answer is
      the row read back after the write. */
  function Update(t: Tables, groupUuid: string, userId: string, req: UpdateRequest)
    : (r: (Tables, Result<GroupRow, GroupError>))
    ensures GetByUuid(t.groups, groupUuid).Err? ==> r == (t, Err(GetByUuid(t.groups, groupUuid).error))
    ensures GetByUuid(t.groups, groupUuid).Ok? && GetByUuid(t.groups, groupUuid).value.ownerId != userId ==>
      r == (t, Err(NotGroupOwner))
    ensures GetByUuid(t.groups, groupUuid).Ok? && GetByUuid(t.groups, groupUuid).value.ownerId == userId ==>
      r.0 == t.(groups := PatchWhere(t.groups, groupUuid, Edit(req)))
      && r.1 == Ok(Edited(GetByUuid(t.groups, groupUuid).value, req))
  {
    var group := GetByUuid(t.groups, groupUuid);
    if group.Err? then (t, Err(group.error))
    else if group.value.ownerId != userId then (t, Err(NotGroupOwner))
    else
      var gs := PatchWhere(t.groups, groupUuid, Edit(req));
      PatchKeepsFind(t.groups, groupUuid, Edit(req), groupUuid);
      (t.(groups := gs), GetByUuid(gs, groupUuid))
  }

  /** `Dissolve`: owner only; the group is marked dissolved and every
      group-type contact row for it becomes "left group". */
  function Dissolve(t: Tables, groupUuid: string, userId: string): (r: (Tables, Option<GroupError>))
    ensures GetByUuid(t.groups, groupUuid).Err? ==> r == (t, Some(GetByUuid(t.groups, groupUuid).error))
    ensures GetByUuid(t.groups, groupUuid).Ok? && GetByUuid(t.groups, groupUuid).value.ownerId != userId ==>
      r == (t, Some(NotGroupOwner))
    ensures r.1.None? <==> GetByUuid(t.groups, groupUuid).Ok? && GetByUuid(t.groups, groupUuid).value.ownerId == userId
    ensures r.1.None? ==>
      r.0 == t.(groups := PatchWhere(t.groups, groupUuid, SetStatus(GroupStatusDissolved)),
                contacts := SetContactStatus(t.contacts, GroupRowsOf(groupUuid), ContactStatusLeftGroup))
  {
    var group := GetByUuid(t.groups, groupUuid);
    if group.Err? then (t, Some(group.error))
    else if group.value.ownerId != userId then (t, Some(NotGroupOwner))
    else
      (t.(groups := PatchWhere(t.groups, groupUuid, SetStatus(GroupStatusDissolved)),
          contacts := SetContactStatus(t.contacts, GroupRowsOf(groupUuid), ContactStatusLeftGroup)),
       None)
  }

  /** `AddMember`: a current member is refused with nothing written;
      anyone else is appended at the end, with the count following the
      list, and gets a normal group-type contact row. */
  function AddMember(t: Tables, groupUuid: string, userId: string): (r: (Tables, Option<GroupError>))
    ensures GetByUuid(t.groups, groupUuid).Err? ==> r == (t, Some(GetByUuid(t.groups, groupUuid).error))
    ensures GetByUuid(t.groups, groupUuid).Ok? && userId in GetByUuid(t.groups, groupUuid).value.members ==>
      r == (t, Some(AlreadyInGroup))
    ensures GetByUuid(t.groups, groupUuid).Ok? && userId !in GetByUuid(t.groups, groupUuid).value.members ==>
      var ms := GetByUuid(t.groups, groupUuid).value.members + [userId];
      r.1.None?
      && r.0 == t.(groups := PatchWhere(t.groups, groupUuid, SetMembers(ms)),
                   contacts := t.contacts + [ContactRow(userId, groupUuid, ContactTypeGroup, ContactStatusNormal)])
  {
    var group := GetByUuid(t.groups, groupUuid);
    if group.Err? then (t, Some(group.error))
    else if userId in group.value.members then (t, Some(AlreadyInGroup))
    else
      var ms := group.value.members + [userId];
      (t.(groups := PatchWhere(t.groups, groupUuid, SetMembers(ms)),
          contacts := t.contacts + [ContactRow(userId, groupUuid, ContactTypeGroup, ContactStatusNormal)]),
       None)
  }

  /** The index of the first occurrence of `u`. */
  function IndexOf(ms: seq<string>, u: string): (k: Option<nat>)
    ensures k.Some? ==> k.value < |ms| && ms[k.value] == u && u !in ms[..k.value]
    ensures k.None? <==> u !in ms
  {
    if ms == [] then None
    else if ms[0] == u then Some(0)
    else
      var k := IndexOf(ms[1..], u);
      if k.Some? then
        assert ms[..k.value + 1] == [ms[0]] + ms[1..][..k.value];
        Some(k.value + 1)
      else None
  }

  /** `append(members[:k], members[k+1:]...)`. */
  function RemoveAt(ms: seq<string>, k: nat): (r: seq<string>)
    requires k < |ms|
    ensures |r| == |ms| - 1
    ensures r == ms[..k] + ms[k + 1..]
  {
    ms[..k] + ms[k + 1..]
  }

  /** The contact status a removal leaves: kicked when someone else removed
      the user, left when the user removed themself. */
  function RemovalStatus(userId: string, removerId: string): (s: int)
    ensures s == ContactStatusKicked <==> userId != removerId
    ensures s == ContactStatusLeftGroup <==> userId == removerId
  {
    if userId != removerId then ContactStatusKicked else ContactStatusLeftGroup
  }

  /** `RemoveMember`: the checks run in the order lookup, permission (a
      non-owner may remove only themself), owner protection, membership;
      the first occurrence is then removed and the user's contact rows for
      the group take the removal status. */
  function RemoveMember(t: Tables, groupUuid: string, userId: string, removerId: string)
    : (r: (Tables, Option<GroupError>))
    ensures GetByUuid(t.groups, groupUuid).Err? ==> r == (t, Some(GetByUuid(t.groups, groupUuid).error))
    ensures GetByUuid(t.groups, groupUuid).Ok? ==>
      var g := GetByUuid(t.groups, groupUuid).value;
      (userId != removerId && g.ownerId != removerId ==> r == (t, Some(NotGroupOwner)))
      && ((userId == removerId || g.ownerId == removerId) && userId == g.ownerId ==> r == (t, Some(OwnerCannotLeave)))
      && ((userId == removerId || g.ownerId == removerId) && userId != g.ownerId && userId !in g.members ==>
            r == (t, Some(NotInGroup)))
    ensures r.1.None? ==>
      var g := GetByUuid(t.groups, groupUuid).value;
      GetByUuid(t.groups, groupUuid).Ok? && userId in g.members && userId != g.ownerId
      && (userId == removerId || g.ownerId == removerId)
      && r.0 == t.(groups := PatchWhere(t.groups, groupUuid, SetMembers(RemoveAt(g.members, IndexOf(g.members, userId).value))),
                   contacts := SetContactStatus(t.contacts, ByPair(userId, groupUuid), RemovalStatus(userId, removerId)))
    ensures r.1.None? <==>
      GetByUuid(t.groups, groupUuid).Ok?
      && var g := GetByUuid(t.groups, groupUuid).value;
         (userId == removerId || g.ownerId == removerId) && userId != g.ownerId && userId in g.members
  {
    var group := GetByUuid(t.groups, groupUuid);
    if group.Err? then (t, Some(group.error))
    else if userId != removerId && group.value.ownerId != removerId then (t, Some(NotGroupOwner))
    else if userId == group.value.ownerId then (t, Some(OwnerCannotLeave))
    else
      var k := IndexOf(group.value.members, userId);
      if k.None? then (t, Some(NotInGroup))
      else
        var ms := RemoveAt(group.value.members, k.value);
        (t.(groups := PatchWhere(t.groups, groupUuid, SetMembers(ms)),
            contacts := SetContactStatus(t.contacts, ByPair(userId, groupUuid), RemovalStatus(userId, removerId))),
         None)
  }

  /** The search filter: an active group whose name contains the query. */
  predicate SearchMatch(g: GroupRow, query: string) {
    g.status == GroupStatusActive && Strings.Contains(g.name, query)
  }

  /** `Search`: the first `limit` matching rows in table order. */
  function SearchUpTo(gs: seq<GroupRow>, query: string, limit: nat): (r: seq<GroupRow>)
    ensures |r| <= limit
    ensures forall i :: 0 <= i < |r| ==> SearchMatch(r[i], query) && r[i] in gs
    ensures |r| < limit ==> forall i :: 0 <= i < |gs| && SearchMatch(gs[i], query) ==> gs[i] in r
  {
    if gs == [] || limit == 0 then []
    else if SearchMatch(gs[0], query) then [gs[0]] + SearchUpTo(gs[1..], query, limit - 1)
    else SearchUpTo(gs[1..], query, limit)
  }

  function Search(gs: seq<GroupRow>, query: string): (r: seq<GroupRow>)
    ensures |r| <= SearchLimit
    ensures forall i :: 0 <= i < |r| ==> r[i].status == GroupStatusActive && r[i] in gs
  {
    SearchUpTo(gs, query, SearchLimit)
  }

  // ---------------------------------------------------------------------
  // Properties that span several operations.

  /** A dissolved group stays out of reach: every later operation on it
      stops at the lookup. */
  lemma DissolveIsFinal(t: Tables, groupUuid: string, ownerId: string, userId: string, other: string)
    requires Dissolve(t, groupUuid, ownerId).1.None?
    ensures var t' := Dissolve(t, groupUuid, ownerId).0;
            GetByUuid(t'.groups, groupUuid) == Err(GroupDissolved)
            && AddMember(t', groupUuid, userId) == (t', Some(GroupDissolved))
            && RemoveMember(t', groupUuid, userId, other) == (t', Some(GroupDissolved))
            && Dissolve(t', groupUuid, other) == (t', Some(GroupDissolved))
  {
    var t' := Dissolve(t, groupUuid, ownerId).0;
    PatchKeepsFind(t.groups, groupUuid, SetStatus(GroupStatusDissolved), groupUuid);
  }

  /** Adding the same user twice: the second call is refused and writes
      nothing. */
  lemma AddMemberTwice(t: Tables, groupUuid: string, userId: string)
    requires AddMember(t, groupUuid, userId).1.None?
    ensures var t' := AddMember(t, groupUuid, userId).0;
            AddMember(t', groupUuid, userId) == (t', Some(AlreadyInGroup))
  {
    var t' := AddMember(t, groupUuid, userId).0;
    var g := GetByUuid(t.groups, groupUuid).value;
    PatchKeepsFind(t.groups, groupUuid, SetMembers(g.members + [userId]), groupUuid);
    var k := FindGroup(t.groups, groupUuid).value;
    assert t'.groups[k].members == g.members + [userId];
  }

  /** Joining and then leaving restores the member list. */
  lemma AddThenLeave(t: Tables, groupUuid: string, userId: string)
    requires AddMember(t, groupUuid, userId).1.None?
    requires userId != GetByUuid(t.groups, groupUuid).value.ownerId
    ensures var t' := AddMember(t, groupUuid, userId).0;
            var t'' := RemoveMember(t', groupUuid, userId, userId).0;
            RemoveMember(t', groupUuid, userId, userId).1.None?
            && GetByUuid(t''.groups, groupUuid).Ok?
            && GetByUuid(t''.groups, groupUuid).value.members == GetByUuid(t.groups, groupUuid).value.members
  {
    var g := GetByUuid(t.groups, groupUuid).value;
    var ms := g.members + [userId];
    var t' := AddMember(t, groupUuid, userId).0;
    PatchKeepsFind(t.groups, groupUuid, SetMembers(ms), groupUuid);
    var k := FindGroup(t.groups, groupUuid).value;
    assert t'.groups[k] == g.(members := ms, memberCnt := |ms|);
    var i := IndexOf(ms, userId);
    assert ms[|g.members|] == userId;
    assert ms[..|g.members|] == g.members;
    assert i.Some? && i.value == |g.members|;
    assert RemoveAt(ms, i.value) == g.members;
    var t'' := RemoveMember(t', groupUuid, userId, userId).0;
    PatchKeepsFind(t'.groups, groupUuid, SetMembers(g.members), groupUuid);
  }

  // ---------------------------------------------------------------------
  // The well-formedness of the groups table is preserved.

  lemma PatchWherePreserves(gs: seq<GroupRow>, uuid: string, p: GroupPatch)
    requires GroupsWellFormed(gs)
    requires FindGroup(gs, uuid).Some? ==> MembersWellFormed(Patched(gs[FindGroup(gs, uuid).value], p))
    ensures GroupsWellFormed(PatchWhere(gs, uuid, p))
  {
    var r := PatchWhere(gs, uuid, p);
    assert forall i :: 0 <= i < |gs| ==> r[i].uuid == gs[i].uuid;
    forall i | 0 <= i < |gs|
      ensures MembersWellFormed(r[i])
    {
      if gs[i].uuid == uuid {
        var k := FindGroup(gs, uuid).value;
        assert k == i;
      }
    }
  }

  lemma CreatePreserves(t: Tables, ownerId: string, name: string, notice: string, addMode: int, suffix: string)
    requires |suffix| == 11 && GroupsWellFormed(t.groups)
    ensures GroupsWellFormed(Create(t, ownerId, name, notice, addMode, suffix).0.groups)
  {
    var r := Create(t, ownerId, name, notice, addMode, suffix);
    if r.1.Ok? {
      var gs := t.groups + [r.1.value];
      assert forall i :: 0 <= i < |t.groups| ==> gs[i] == t.groups[i];
      assert Seqs.Distinct([ownerId]);
    }
  }

  lemma AddMemberPreserves(t: Tables, groupUuid: string, userId: string)
    requires GroupsWellFormed(t.groups)
    ensures GroupsWellFormed(AddMember(t, groupUuid, userId).0.groups)
  {
    var group := GetByUuid(t.groups, groupUuid);
    if group.Ok? && userId !in group.value.members {
      var ms := group.value.members + [userId];
      assert Seqs.Distinct(ms) by {
        assert forall i :: 0 <= i < |group.value.members| ==> ms[i] == group.value.members[i];
      }
      assert group.value.ownerId in ms;
      PatchWherePreserves(t.groups, groupUuid, SetMembers(ms));
    }
  }

  lemma RemoveAtKeepsOthers(ms: seq<string>, k: nat, x: string)
    requires k < |ms| && Seqs.Distinct(ms) && x in ms && x != ms[k]
    ensures x in RemoveAt(ms, k) && Seqs.Distinct(RemoveAt(ms, k))
  {
    var r := RemoveAt(ms, k);
    assert forall i :: 0 <= i < |r| ==> r[i] == ms[if i < k then i else i + 1];
    var j :| 0 <= j < |ms| && ms[j] == x;
    assert r[if j < k then j else j - 1] == x;
  }

  lemma RemoveMemberPreserves(t: Tables, groupUuid: string, userId: string, removerId: string)
    requires GroupsWellFormed(t.groups)
    ensures GroupsWellFormed(RemoveMember(t, groupUuid, userId, removerId).0.groups)
  {
    if RemoveMember(t, groupUuid, userId, removerId).1.None? {
      var g := GetByUuid(t.groups, groupUuid).value;
      var k := IndexOf(g.members, userId).value;
      RemoveAtKeepsOthers(g.members, k, g.ownerId);
      PatchWherePreserves(t.groups, groupUuid, SetMembers(RemoveAt(g.members, k)));
    }
  }

  lemma UpdateAndDissolvePreserve(t: Tables, groupUuid: string, userId: string, req: UpdateRequest)
    requires GroupsWellFormed(t.groups)
    ensures GroupsWellFormed(Update(t, groupUuid, userId, req).0.groups)
    ensures GroupsWellFormed(Dissolve(t, groupUuid, userId).0.groups)
  {
    if GetByUuid(t.groups, groupUuid).Ok? {
      PatchWherePreserves(t.groups, groupUuid, Edit(req));
      PatchWherePreserves(t.groups, groupUuid, SetStatus(GroupStatusDissolved));
    }
  }
}

/** The group service's functions as methods over the shared database
    handle; membership checks and removal walk the member slice as the
    service does. */
module GroupService {
  import opened Wrappers
  import opened Schema
  import R = GroupRules

  method Create(db: Db, ownerId: string, name: string, notice: string, addMode: int, suffix: string)
    returns (r: Result<GroupRow, R.GroupError>)
    requires |suffix| == 11
    modifies db
    ensures (db.State(), r) == R.Create(old(db.State()), ownerId, name, notice, addMode, suffix)
  {
    var groupUuid := ['G'] + suffix;
    var members := [ownerId];
    var group := GroupRow(groupUuid, name, notice, members, 1, ownerId, addMode,
                          R.GroupAvatarBase + groupUuid, GroupStatusActive);
    if R.FindGroup(db.groups, groupUuid).Some? {
      return Err(R.DbError);
    }
    db.groups := db.groups + [group];
    db.contacts := db.contacts + [ContactRow(ownerId, groupUuid, ContactTypeGroup, ContactStatusNormal)];
    return Ok(group);
  }

  method Update(db: Db, groupUuid: string, userId: string, req: R.UpdateRequest)
    returns (r: Result<GroupRow, R.GroupError>)
    modifies db
    ensures (db.State(), r) == R.Update(old(db.State()), groupUuid, userId, req)
  {
    var group := R.GetByUuid(db.groups, groupUuid);
    if group.Err? {
      return Err(group.error);
    }
    if group.value.ownerId != userId {
      return Err(R.NotGroupOwner);
    }
    db.groups := R.PatchWhere(db.groups, groupUuid, R.Edit(req));
    r := R.GetByUuid(db.groups, groupUuid);
  }

  method Dissolve(db: Db, groupUuid: string, userId: string) returns (err: Option<R.GroupError>)
    modifies db
    ensures (db.State(), err) == R.Dissolve(old(db.State()), groupUuid, userId)
  {
    var group := R.GetByUuid(db.groups, groupUuid);
    if group.Err? {
      return Some(group.error);
    }
    if group.value.ownerId != userId {
      return Some(R.NotGroupOwner);
    }
    db.groups := R.PatchWhere(db.groups, groupUuid, R.SetStatus(GroupStatusDissolved));
    db.contacts := SetContactStatus(db.contacts, GroupRowsOf(groupUuid), ContactStatusLeftGroup);
    return None;
  }

  method AddMember(db: Db, groupUuid: string, userId: string) returns (err: Option<R.GroupError>)
    modifies db
    ensures (db.State(), err) == R.AddMember(old(db.State()), groupUuid, userId)
  {
    var group := R.GetByUuid(db.groups, groupUuid);
    if group.Err? {
      return Some(group.error);
    }
    var members := group.value.members;
    var i := 0;
    while i < |members|
      invariant 0 <= i <= |members|
      invariant userId !in members[..i]
    {
      if members[i] == userId {
        return Some(R.AlreadyInGroup);
      }
      assert members[..i + 1] == members[..i] + [members[i]];
      i := i + 1;
    }
    assert members[..i] == members;
    members := members + [userId];
    db.groups := R.PatchWhere(db.groups, groupUuid, R.SetMembers(members));
    db.contacts := db.contacts + [ContactRow(userId, groupUuid, ContactTypeGroup, ContactStatusNormal)];
    return None;
  }

  method RemoveMember(db: Db, groupUuid: string, userId: string, removerId: string)
    returns (err: Option<R.GroupError>)
    modifies db
    ensures (db.State(), err) == R.RemoveMember(old(db.State()), groupUuid, userId, removerId)
  {
    var group := R.GetByUuid(db.groups, groupUuid);
    if group.Err? {
      return Some(group.error);
    }
    if userId != removerId && group.value.ownerId != removerId {
      return Some(R.NotGroupOwner);
    }
    if userId == group.value.ownerId {
      return Some(R.OwnerCannotLeave);
    }
    var members := group.value.members;
    var found := false;
    var i := 0;
    while i < |members|
      invariant 0 <= i <= |members|
      invariant !found && members == group.value.members && userId !in members[..i]
    {
      if members[i] == userId {
        assert R.IndexOf(group.value.members, userId) == Some(i);
        members := members[..i] + members[i + 1..];
        found := true;
        break;
      }
      assert members[..i + 1] == members[..i] + [members[i]];
      i := i + 1;
    }
    if !found {
      assert members[..i] == members;
      return Some(R.NotInGroup);
    }
    db.groups := R.PatchWhere(db.groups, groupUuid, R.SetMembers(members));
    var status := ContactStatusLeftGroup;
    if userId != removerId {
      status := ContactStatusKicked;
    }
    db.contacts := SetContactStatus(db.contacts, ByPair(userId, groupUuid), status);
    return None;
  }
}
