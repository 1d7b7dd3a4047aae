/** Friend requests and user-to-user contact rows: a request goes from
    pending to approved or rejected, approval writes both directed contact
    rows in one transaction, and unfriending, blocking and unblocking
    rewrite contact statuses. */
module ContactRules {
  import opened Wrappers
  import opened Schema
  import Seqs

  datatype ContactError =
    | AlreadyFriends
    | PendingRequest
    | RequestNotFound
    | CannotAddSelf
    | AlreadyProcessed
    | DbError

  /** Which step of the approval transaction fails, if any; a failure at
      any step rolls everything back. */
  datatype TxFault = NoFault | StatusUpdateFails | FirstContactFails | SecondContactFails

  /** The first user-type contact row from `userId` to `contactId`. */
  function FindUserContact(cs: seq<ContactRow>, userId: string, contactId: string): (k: Option<nat>)
    ensures k.Some? ==> k.value < |cs| && cs[k.value].userId == userId && cs[k.value].contactId == contactId
                        && cs[k.value].contactType == ContactTypeUser
    ensures k.None? <==> forall j :: 0 <= j < |cs| ==>
      !(cs[j].userId == userId && cs[j].contactId == contactId && cs[j].contactType == ContactTypeUser)
  {
    if cs == [] then None
    else if cs[0].userId == userId && cs[0].contactId == contactId && cs[0].contactType == ContactTypeUser then Some(0)
    else
      var k := FindUserContact(cs[1..], userId, contactId);
      if k.Some? then Some(k.value + 1) else None
  }

  /** Whether a pending request from `userId` to `contactId` exists. */
  predicate HasPending(as_: seq<ApplyRow>, userId: string, contactId: string) {
    exists j :: 0 <= j < |as_| && as_[j].userId == userId && as_[j].contactId == contactId
                && as_[j].status == ApplyStatusPending
  }

  /** The request with that uuid (the uuid column is unique). */
  function FindApply(as_: seq<ApplyRow>, uuid: string): (k: Option<nat>)
    ensures k.Some? ==> k.value < |as_| && as_[k.value].uuid == uuid
                        && forall j :: 0 <= j < k.value ==> as_[j].uuid != uuid
    ensures k.None? <==> forall j :: 0 <= j < |as_| ==> as_[j].uuid != uuid
  {
    if as_ == [] then None
    else if as_[0].uuid == uuid then Some(0)
    else
      var k := FindApply(as_[1..], uuid);
      if k.Some? then Some(k.value + 1) else None
  }

  /** Whether `SendFriendRequest` reports the pair as friends: only the
      first matching row is looked at. */
  predicate AlreadyFriendsRow(cs: seq<ContactRow>, userId: string, contactId: string) {
    var k := FindUserContact(cs, userId, contactId);
    k.Some? && cs[k.value].status == ContactStatusNormal
  }

  /** `SendFriendRequest`: self first, then friendship, then an existing
      pending request in the same direction; otherwise a new pending
      user-type request is appended. */
  function SendFriendRequest(t: Tables, userId: string, contactId: string, message: string, suffix: string)
    : (r: (Tables, Result<ApplyRow, ContactError>))
    requires |suffix| == 11
    ensures userId == contactId ==> r == (t, Err(CannotAddSelf))
    ensures userId != contactId && AlreadyFriendsRow(t.contacts, userId, contactId) ==> r == (t, Err(AlreadyFriends))
    ensures (userId != contactId && !AlreadyFriendsRow(t.contacts, userId, contactId)
             && HasPending(t.applies, userId, contactId)) ==> r == (t, Err(PendingRequest))
    ensures r.1.Ok? ==>
      var a := r.1.value;
      IsGeneratedId(a.uuid, 'A') && a.userId == userId && a.contactId == contactId
      && a.contactType == ContactTypeUser && a.status == ApplyStatusPending && a.message == message
      && r.0 == t.(applies := t.applies + [a])
    ensures r.1.Err? ==> r.0 == t
    ensures (userId != contactId && !AlreadyFriendsRow(t.contacts, userId, contactId)
             && !HasPending(t.applies, userId, contactId)) ==>
      (r.1.Ok? <==> FindApply(t.applies, ['A'] + suffix).None?)
    ensures r == (t, Err(DbError)) <==>
      (userId != contactId && !AlreadyFriendsRow(t.contacts, userId, contactId)
       && !HasPending(t.applies, userId, contactId) && FindApply(t.applies, ['A'] + suffix).Some?)
  {
    if userId == contactId then (t, Err(CannotAddSelf))
    else if AlreadyFriendsRow(t.contacts, userId, contactId) then (t, Err(AlreadyFriends))
    else if HasPending(t.applies, userId, contactId) then (t, Err(PendingRequest))
    else
      var uuid := ['A'] + suffix;
      if FindApply(t.applies, uuid).Some? then (t, Err(DbError))
      else
        var a := ApplyRow(uuid, userId, contactId, ContactTypeUser, ApplyStatusPending, message);
        (t.(applies := t.applies + [a]), Ok(a))
  }

  /** The checks Accept and Reject share: the request must exist, be
      addressed to the caller, and still be pending. */
  function CheckAddressed(as_: seq<ApplyRow>, applyUuid: string, userId: string): (r: Result<nat, ContactError>)
    ensures r.Ok? <==> FindApply(as_, applyUuid).Some? && as_[FindApply(as_, applyUuid).value].contactId == userId
                       && as_[FindApply(as_, applyUuid).value].status == ApplyStatusPending
    ensures r.Ok? ==> r.value == FindApply(as_, applyUuid).value
    ensures r == Err(RequestNotFound) <==>
      FindApply(as_, applyUuid).None? || as_[FindApply(as_, applyUuid).value].contactId != userId
    ensures r.Err? ==> r.error == RequestNotFound || r.error == AlreadyProcessed
  {
    var k := FindApply(as_, applyUuid);
    if k.None? then Err(RequestNotFound)
    else if as_[k.value].contactId != userId then Err(RequestNotFound)
    else if as_[k.value].status != ApplyStatusPending then Err(AlreadyProcessed)
    else Ok(k.value)
  }

  /** `AcceptFriendRequest`: on success the request is approved and both
      directed normal contact rows are appended; if any step of the
      transaction fails nothing at all is written. */
  function AcceptFriendRequest(t: Tables, applyUuid: string, userId: string, fault: TxFault)
    : (r: (Tables, Option<ContactError>))
    ensures CheckAddressed(t.applies, applyUuid, userId).Err? ==>
      r == (t, Some(CheckAddressed(t.applies, applyUuid, userId).error))
    ensures CheckAddressed(t.applies, applyUuid, userId).Ok? && fault != NoFault ==> r == (t, Some(DbError))
    ensures r.1.None? <==> CheckAddressed(t.applies, applyUuid, userId).Ok? && fault == NoFault
    ensures r.1.None? ==>
      var k := CheckAddressed(t.applies, applyUuid, userId).value;
      var a := t.applies[k];
      r.0 == t.(applies := t.applies[k := a.(status := ApplyStatusApproved)],
                contacts := t.contacts + [ContactRow(a.userId, a.contactId, ContactTypeUser, ContactStatusNormal),
                                          ContactRow(a.contactId, a.userId, ContactTypeUser, ContactStatusNormal)])
  {
    var check := CheckAddressed(t.applies, applyUuid, userId);
    if check.Err? then (t, Some(check.error))
    else if fault != NoFault then (t, Some(DbError))
    else
      var a := t.applies[check.value];
      (t.(applies := t.applies[check.value := a.(status := ApplyStatusApproved)],
          contacts := t.contacts + [ContactRow(a.userId, a.contactId, ContactTypeUser, ContactStatusNormal),
                                    ContactRow(a.contactId, a.userId, ContactTypeUser, ContactStatusNormal)]),
       None)
  }

  /** `RejectFriendRequest`: the same checks; success only marks the
      request rejected. */
  function RejectFriendRequest(t: Tables, applyUuid: string, userId: string): (r: (Tables, Option<ContactError>))
    ensures CheckAddressed(t.applies, applyUuid, userId).Err? ==>
      r == (t, Some(CheckAddressed(t.applies, applyUuid, userId).error))
    ensures CheckAddressed(t.applies, applyUuid, userId).Ok? ==>
      var k := CheckAddressed(t.applies, applyUuid, userId).value;
      r == (t.(applies := t.applies[k := t.applies[k].(status := ApplyStatusRejected)]), None)
  {
    var check := CheckAddressed(t.applies, applyUuid, userId);
    if check.Err? then (t, Some(check.error))
    else (t.(applies := t.applies[check.value := t.applies[check.value].(status := ApplyStatusRejected)]), None)
  }

  /** `DeleteContact`: the caller's row becomes "deleted", the reverse row
      "deleted by". */
  function DeleteContact(t: Tables, userId: string, contactId: string): (r: Tables)
    ensures r == t.(contacts := SetContactStatus(SetContactStatus(t.contacts, ByPair(userId, contactId), ContactStatusDeleted),
                                                 ByPair(contactId, userId), ContactStatusDeletedBy))
    ensures userId != contactId ==> forall i :: 0 <= i < |t.contacts| ==>
      (Selects(ByPair(userId, contactId), t.contacts[i]) ==> r.contacts[i].status == ContactStatusDeleted)
      && (Selects(ByPair(contactId, userId), t.contacts[i]) ==> r.contacts[i].status == ContactStatusDeletedBy)
      && (!Selects(ByPair(userId, contactId), t.contacts[i]) && !Selects(ByPair(contactId, userId), t.contacts[i])
          ==> r.contacts[i] == t.contacts[i])
  {
    var cs := SetContactStatus(t.contacts, ByPair(userId, contactId), ContactStatusDeleted);
    t.(contacts := SetContactStatus(cs, ByPair(contactId, userId), ContactStatusDeletedBy))
  }

  /** `BlockContact` and `UnblockContact`: the caller's own row only. */
  function BlockContact(t: Tables, userId: string, contactId: string): (r: Tables)
    ensures r.contacts == SetContactStatus(t.contacts, ByPair(userId, contactId), ContactStatusBlacklisted)
    ensures r.(contacts := t.contacts) == t
  {
    t.(contacts := SetContactStatus(t.contacts, ByPair(userId, contactId), ContactStatusBlacklisted))
  }

  function UnblockContact(t: Tables, userId: string, contactId: string): (r: Tables)
    ensures r.contacts == SetContactStatus(t.contacts, ByPair(userId, contactId), ContactStatusNormal)
    ensures r.(contacts := t.contacts) == t
  {
    t.(contacts := SetContactStatus(t.contacts, ByPair(userId, contactId), ContactStatusNormal))
  }

  /** A later status update on the same rows wins outright. */
  lemma {:induction false} SetContactStatusTwice(cs: seq<ContactRow>, sel: ContactSelector, a: int, b: int)
    ensures SetContactStatus(SetContactStatus(cs, sel, a), sel, b) == SetContactStatus(cs, sel, b)
  {
    if cs != [] {
      SetContactStatusTwice(cs[1..], sel, a, b);
    }
  }

  /** Unblocking after blocking is the same as unblocking alone. */
  lemma BlockThenUnblock(t: Tables, userId: string, contactId: string)
    ensures UnblockContact(BlockContact(t, userId, contactId), userId, contactId) == UnblockContact(t, userId, contactId)
  {
    SetContactStatusTwice(t.contacts, ByPair(userId, contactId), ContactStatusBlacklisted, ContactStatusNormal);
  }

  // ---------------------------------------------------------------------
  // The request life-cycle.

  /** A request just sent blocks a second one in the same direction. */
  lemma SendTwice(t: Tables, userId: string, contactId: string, m1: string, m2: string, s1: string, s2: string)
    requires |s1| == 11 && |s2| == 11
    requires SendFriendRequest(t, userId, contactId, m1, s1).1.Ok?
    ensures var t' := SendFriendRequest(t, userId, contactId, m1, s1).0;
            SendFriendRequest(t', userId, contactId, m2, s2) == (t', Err(PendingRequest))
  {
    var t' := SendFriendRequest(t, userId, contactId, m1, s1).0;
    assert t'.applies[|t.applies|] == SendFriendRequest(t, userId, contactId, m1, s1).1.value;
  }

  /** A processed request cannot be processed again, whichever way it went. */
  lemma ProcessedOnce(t: Tables, applyUuid: string, userId: string, fault: TxFault)
    requires AcceptFriendRequest(t, applyUuid, userId, NoFault).1.None?
    ensures var accepted := AcceptFriendRequest(t, applyUuid, userId, NoFault).0;
            AcceptFriendRequest(accepted, applyUuid, userId, fault) == (accepted, Some(AlreadyProcessed))
            && RejectFriendRequest(accepted, applyUuid, userId) == (accepted, Some(AlreadyProcessed))
    ensures var rejected := RejectFriendRequest(t, applyUuid, userId).0;
            AcceptFriendRequest(rejected, applyUuid, userId, fault) == (rejected, Some(AlreadyProcessed))
            && RejectFriendRequest(rejected, applyUuid, userId) == (rejected, Some(AlreadyProcessed))
  {
    var k := CheckAddressed(t.applies, applyUuid, userId).value;
    var accepted := AcceptFriendRequest(t, applyUuid, userId, NoFault).0;
    var rejected := RejectFriendRequest(t, applyUuid, userId).0;
    assert forall j :: 0 <= j < |t.applies| ==> accepted.applies[j].uuid == t.applies[j].uuid;
    assert forall j :: 0 <= j < |t.applies| ==> rejected.applies[j].uuid == t.applies[j].uuid;
    assert FindApply(accepted.applies, applyUuid) == Some(k);
    assert FindApply(rejected.applies, applyUuid) == Some(k);
  }

  lemma {:induction false} FindUserContactAppend(cs: seq<ContactRow>, extra: seq<ContactRow>, userId: string, contactId: string)
    requires FindUserContact(cs, userId, contactId).None?
    requires FindUserContact(extra, userId, contactId).Some?
    ensures FindUserContact(cs + extra, userId, contactId)
            == Some(|cs| + FindUserContact(extra, userId, contactId).value)
  {
    if cs == [] {
      assert cs + extra == extra;
    } else {
      assert (cs + extra)[1..] == cs[1..] + extra;
      FindUserContactAppend(cs[1..], extra, userId, contactId);
    }
  }

  /** After an approval, when the pair had no user-type contact rows before,
      a new request between them in either direction is refused as
      "already friends". */
  lemma AcceptMakesFriends(t: Tables, applyUuid: string, userId: string, m: string, suffix: string)
    requires |suffix| == 11
    requires AcceptFriendRequest(t, applyUuid, userId, NoFault).1.None?
    requires var a := t.applies[CheckAddressed(t.applies, applyUuid, userId).value];
             FindUserContact(t.contacts, a.userId, a.contactId).None?
             && FindUserContact(t.contacts, a.contactId, a.userId).None?
             && a.userId != a.contactId
    ensures var a := t.applies[CheckAddressed(t.applies, applyUuid, userId).value];
            var t' := AcceptFriendRequest(t, applyUuid, userId, NoFault).0;
            SendFriendRequest(t', a.userId, a.contactId, m, suffix) == (t', Err(AlreadyFriends))
            && SendFriendRequest(t', a.contactId, a.userId, m, suffix) == (t', Err(AlreadyFriends))
  {
    var a := t.applies[CheckAddressed(t.applies, applyUuid, userId).value];
    var c1 := ContactRow(a.userId, a.contactId, ContactTypeUser, ContactStatusNormal);
    var c2 := ContactRow(a.contactId, a.userId, ContactTypeUser, ContactStatusNormal);
    var extra := [c1, c2];
    FindUserContactAppend(t.contacts, extra, a.userId, a.contactId);
    FindUserContactAppend(t.contacts, extra, a.contactId, a.userId);
  }

  // ---------------------------------------------------------------------
  // Pending requests as listed to their addressee.

  datatype ApplyResponse = ApplyResponse(
    uuid: string, userId: string, userName: string, userAvatar: string, contactId: string,
    contactType: int, status: int, message: string)

  predicate IsPendingFor(a: ApplyRow, userId: string) {
    a.contactId == userId && a.status == ApplyStatusPending
  }

  /** The query result: the caller's pending requests, newest first (rows
      are stored in creation order, so newest first is back to front). */
  function PendingApplies(as_: seq<ApplyRow>, userId: string): (r: seq<ApplyRow>)
    ensures forall i :: 0 <= i < |r| ==> IsPendingFor(r[i], userId) && r[i] in as_
    ensures forall i :: 0 <= i < |as_| && IsPendingFor(as_[i], userId) ==> as_[i] in r
  {
    if as_ == [] then []
    else PendingApplies(as_[1..], userId) + (if IsPendingFor(as_[0], userId) then [as_[0]] else [])
  }

  /** The requester's profile as the lookup map holds it: the last loaded
      row with that uuid wins, and a missing requester gives empty fields. */
  function ProfileOf(users: seq<UserRow>, uuid: string): (p: (string, string))
    ensures (forall j :: 0 <= j < |users| ==> users[j].uuid != uuid) ==> p == ("", "")
    ensures |users| > 0 && users[|users| - 1].uuid == uuid ==>
      p == (users[|users| - 1].nickname, users[|users| - 1].avatar)
  {
    if users == [] then ("", "")
    else if users[|users| - 1].uuid == uuid then (users[|users| - 1].nickname, users[|users| - 1].avatar)
    else ProfileOf(users[..|users| - 1], uuid)
  }

  function ToApplyResponse(a: ApplyRow, profile: (string, string)): ApplyResponse {
    ApplyResponse(a.uuid, a.userId, profile.0, profile.1, a.contactId, a.contactType, a.status, a.message)
  }

  /** `GetPendingRequests`: one response per pending request, in query
      order, each carrying its requester's nickname and avatar. */
  function PendingRequests(t: Tables, userId: string): (r: seq<ApplyResponse>)
    ensures |r| == |PendingApplies(t.applies, userId)|
    ensures forall i :: 0 <= i < |r| ==>
      var a := PendingApplies(t.applies, userId)[i];
      r[i].uuid == a.uuid && r[i].userId == a.userId && r[i].status == ApplyStatusPending
      && r[i].contactId == userId
      && (r[i].userName, r[i].userAvatar) == ProfileOf(t.users, a.userId)
  {
    var applies := PendingApplies(t.applies, userId);
    seq(|applies|, i requires 0 <= i < |applies| => ToApplyResponse(applies[i], ProfileOf(t.users, applies[i].userId)))
  }
}

/** The contact service's functions as methods over the shared database
    handle; a sent and an accepted request also notify the other user
    through the chat hub. */
module ContactService {
  import opened Wrappers
  import opened Schema
  import R = ContactRules
  import ChatHub
  import SendQueue

  /** The "friend_request" frame the addressee of a new request is sent. */
  function FriendRequestNotice(a: ApplyRow, now: int): ChatHub.WSResponse {
    ChatHub.WSResponse("friend_request", ChatHub.FriendRequest(a.uuid, a.userId, a.contactId, a.message), now)
  }

  /** The "friend_request_accepted" frame the requester is sent. */
  function AcceptedNotice(a: ApplyRow, now: int): ChatHub.WSResponse {
    ChatHub.WSResponse("friend_request_accepted", ChatHub.FriendRequestAccepted(a.uuid, a.userId, a.contactId), now)
  }

  /** On success only the addressee, if online, is offered the new
      request; on failure no one is sent anything. */
  method SendFriendRequest(db: Db, hub: ChatHub.Hub, userId: string, contactId: string, message: string,
                           suffix: string, now: int)
    returns (r: Result<ApplyRow, R.ContactError>)
    requires |suffix| == 11 && hub.Valid()
    modifies db, hub.clients.Values
    ensures (db.State(), r) == R.SendFriendRequest(old(db.State()), userId, contactId, message, suffix)
    ensures forall u :: u in hub.clients ==>
      hub.clients[u].send == (if r.Ok? && u == contactId
                              then SendQueue.Offer(old(hub.clients[u].send), FriendRequestNotice(r.value, now), hub.clients[u].capacity)
                              else old(hub.clients[u].send))
    ensures hub.Valid()
  {
    if userId == contactId {
      return Err(R.CannotAddSelf);
    }
    var existing := R.FindUserContact(db.contacts, userId, contactId);
    if existing.Some? && db.contacts[existing.value].status == ContactStatusNormal {
      return Err(R.AlreadyFriends);
    }
    if R.HasPending(db.applies, userId, contactId) {
      return Err(R.PendingRequest);
    }
    var apply := ApplyRow(['A'] + suffix, userId, contactId, ContactTypeUser, ApplyStatusPending, message);
    if R.FindApply(db.applies, apply.uuid).Some? {
      return Err(R.DbError);
    }
    db.applies := db.applies + [apply];
    hub.SendToUser(contactId, FriendRequestNotice(apply, now));
    return Ok(apply);
  }

  /** The transaction writes into scratch copies that are committed only
      when every step succeeded; after the commit only the requester, if
      online, is offered the acceptance. */
  method AcceptFriendRequest(db: Db, hub: ChatHub.Hub, applyUuid: string, userId: string, fault: R.TxFault, now: int)
    returns (err: Option<R.ContactError>)
    requires hub.Valid()
    modifies db, hub.clients.Values
    ensures (db.State(), err) == R.AcceptFriendRequest(old(db.State()), applyUuid, userId, fault)
    ensures err.None? ==> R.FindApply(old(db.applies), applyUuid).Some?
    ensures forall u :: u in hub.clients ==>
      hub.clients[u].send == (if err.None? && u == old(db.applies)[R.FindApply(old(db.applies), applyUuid).value].userId
                              then SendQueue.Offer(old(hub.clients[u].send),
                                                   AcceptedNotice(old(db.applies)[R.FindApply(old(db.applies), applyUuid).value], now),
                                                   hub.clients[u].capacity)
                              else old(hub.clients[u].send))
    ensures hub.Valid()
  {
    var k := R.FindApply(db.applies, applyUuid);
    if k.None? {
      return Some(R.RequestNotFound);
    }
    var apply := db.applies[k.value];
    if apply.contactId != userId {
      return Some(R.RequestNotFound);
    }
    if apply.status != ApplyStatusPending {
      return Some(R.AlreadyProcessed);
    }
    var txApplies := db.applies;
    var txContacts := db.contacts;
    if fault == R.StatusUpdateFails {
      return Some(R.DbError);
    }
    txApplies := txApplies[k.value := apply.(status := ApplyStatusApproved)];
    var contact1 := ContactRow(apply.userId, apply.contactId, ContactTypeUser, ContactStatusNormal);
    var contact2 := ContactRow(apply.contactId, apply.userId, ContactTypeUser, ContactStatusNormal);
    if fault == R.FirstContactFails {
      return Some(R.DbError);
    }
    txContacts := txContacts + [contact1];
    if fault == R.SecondContactFails {
      return Some(R.DbError);
    }
    txContacts := txContacts + [contact2];
    assert txContacts == old(db.contacts) + [contact1, contact2];
    db.applies := txApplies;
    db.contacts := txContacts;
    hub.SendToUser(apply.userId, AcceptedNotice(apply, now));
    return None;
  }

  method RejectFriendRequest(db: Db, applyUuid: string, userId: string) returns (err: Option<R.ContactError>)
    modifies db
    ensures (db.State(), err) == R.RejectFriendRequest(old(db.State()), applyUuid, userId)
  {
    var k := R.FindApply(db.applies, applyUuid);
    if k.None? {
      return Some(R.RequestNotFound);
    }
    var apply := db.applies[k.value];
    if apply.contactId != userId {
      return Some(R.RequestNotFound);
    }
    if apply.status != ApplyStatusPending {
      return Some(R.AlreadyProcessed);
    }
    db.applies := db.applies[k.value := apply.(status := ApplyStatusRejected)];
    return None;
  }

  method DeleteContact(db: Db, userId: string, contactId: string)
    modifies db
    ensures db.State() == R.DeleteContact(old(db.State()), userId, contactId)
  {
    db.contacts := SetContactStatus(db.contacts, ByPair(userId, contactId), ContactStatusDeleted);
    db.contacts := SetContactStatus(db.contacts, ByPair(contactId, userId), ContactStatusDeletedBy);
  }

  method BlockContact(db: Db, userId: string, contactId: string)
    modifies db
    ensures db.State() == R.BlockContact(old(db.State()), userId, contactId)
  {
    db.contacts := SetContactStatus(db.contacts, ByPair(userId, contactId), ContactStatusBlacklisted);
  }

  method UnblockContact(db: Db, userId: string, contactId: string)
    modifies db
    ensures db.State() == R.UnblockContact(old(db.State()), userId, contactId)
  {
    db.contacts := SetContactStatus(db.contacts, ByPair(userId, contactId), ContactStatusNormal);
  }

  /** The loaded requester rows: `Where("uuid IN ?", userIDs)`. */
  function UsersIn(users: seq<UserRow>, ids: seq<string>): (r: seq<UserRow>)
    ensures forall i :: 0 <= i < |r| ==> r[i].uuid in ids
  {
    if users == [] then []
    else (if users[0].uuid in ids then [users[0]] else []) + UsersIn(users[1..], ids)
  }

  /** Every requester id is looked up among the loaded rows exactly as it
      would be among all users. */
  lemma {:induction false} ProfileOfUsersIn(users: seq<UserRow>, ids: seq<string>, uuid: string)
    requires uuid in ids
    ensures R.ProfileOf(UsersIn(users, ids), uuid) == R.ProfileOf(users, uuid)
    decreases |users|
  {
    if users != [] {
      var init := users[..|users| - 1];
      var last := users[|users| - 1];
      UsersInSnoc(init, last, ids);
      assert users == init + [last];
      ProfileOfUsersIn(init, ids, uuid);
      var sel := UsersIn(init, ids);
      if last.uuid in ids {
        assert UsersIn(users, ids) == sel + [last];
        assert (sel + [last])[..|sel + [last]| - 1] == sel;
      } else {
        assert UsersIn(users, ids) == sel;
      }
    }
  }

  lemma {:induction false} UsersInSnoc(init: seq<UserRow>, last: UserRow, ids: seq<string>)
    ensures UsersIn(init + [last], ids) == UsersIn(init, ids) + (if last.uuid in ids then [last] else [])
    decreases |init|
  {
    if init == [] {
      assert [] + [last] == [last];
      assert [last][1..] == [];
    } else {
      assert (init + [last])[1..] == init[1..] + [last];
      UsersInSnoc(init[1..], last, ids);
    }
  }

  lemma ProfileOfSnoc(init: seq<UserRow>, last: UserRow, uuid: string)
    ensures R.ProfileOf(init + [last], uuid)
            == if last.uuid == uuid then (last.nickname, last.avatar) else R.ProfileOf(init, uuid)
  {
    assert (init + [last])[..|init|] == init;
  }

  /** The requester-id loop. */
  method RequesterIds(applies: seq<ApplyRow>) returns (ids: seq<string>)
    ensures |ids| == |applies|
    ensures forall j :: 0 <= j < |applies| ==> ids[j] == applies[j].userId
  {
    ids := [];
    for i := 0 to |applies|
      invariant |ids| == i
      invariant forall j :: 0 <= j < i ==> ids[j] == applies[j].userId
    {
      ids := ids + [applies[i].userId];
    }
  }

  /** The lookup-map loop: a later row with the same uuid overwrites. */
  method ProfileMap(users: seq<UserRow>) returns (userMap: map<string, UserRow>)
    ensures forall id :: id in userMap ==> R.ProfileOf(users, id) == (userMap[id].nickname, userMap[id].avatar)
    ensures forall id :: id !in userMap ==> R.ProfileOf(users, id) == ("", "")
  {
    userMap := map[];
    for i := 0 to |users|
      invariant forall id :: id in userMap ==> R.ProfileOf(users[..i], id) == (userMap[id].nickname, userMap[id].avatar)
      invariant forall id :: id !in userMap ==> R.ProfileOf(users[..i], id) == ("", "")
    {
      assert users[..i + 1] == users[..i] + [users[i]];
      forall id
        ensures R.ProfileOf(users[..i + 1], id)
                == if users[i].uuid == id then (users[i].nickname, users[i].avatar) else R.ProfileOf(users[..i], id)
      {
        ProfileOfSnoc(users[..i], users[i], id);
      }
      userMap := userMap[users[i].uuid := users[i]];
    }
    assert users[..|users|] == users;
  }

  /** `userMap[id]`'s nickname and avatar, empty for a missing id. */
  function MapProfile(userMap: map<string, UserRow>, id: string): (string, string) {
    if id in userMap then (userMap[id].nickname, userMap[id].avatar) else ("", "")
  }

  /** A map built from the requesters' rows answers for every requester as
      the whole user table would. */
  lemma MapProfileIsProfile(users: seq<UserRow>, ids: seq<string>, userMap: map<string, UserRow>, id: string)
    requires forall x :: x in userMap ==> R.ProfileOf(UsersIn(users, ids), x) == (userMap[x].nickname, userMap[x].avatar)
    requires forall x :: x !in userMap ==> R.ProfileOf(UsersIn(users, ids), x) == ("", "")
    requires id in ids
    ensures MapProfile(userMap, id) == R.ProfileOf(users, id)
  {
    ProfileOfUsersIn(users, ids, id);
  }

  /** `GetPendingRequests`: the id list, the lookup map and the response
      list are each filled by a loop. */
  method GetPendingRequests(db: Db, userId: string) returns (result: seq<R.ApplyResponse>)
    ensures result == R.PendingRequests(db.State(), userId)
  {
    ghost var t := db.State();
    var users := db.users;
    var applies := R.PendingApplies(db.applies, userId);
    assert applies == R.PendingApplies(t.applies, userId) && users == t.users;
    if |applies| == 0 {
      return [];
    }
    var userIDs := RequesterIds(applies);
    var userMap := ProfileMap(UsersIn(users, userIDs));
    result := Responses(applies, userMap);
    ghost var expected := R.PendingRequests(t, userId);
    forall j | 0 <= j < |result|
      ensures result[j] == expected[j]
    {
      assert applies[j].userId == userIDs[j];
      MapProfileIsProfile(users, userIDs, userMap, applies[j].userId);
    }
  }

  /** The response loop: one entry per request, with the profile the map
      holds for its requester. */
  method Responses(applies: seq<ApplyRow>, userMap: map<string, UserRow>) returns (result: seq<R.ApplyResponse>)
    ensures |result| == |applies|
    ensures forall j :: 0 <= j < |applies| ==>
      result[j] == R.ToApplyResponse(applies[j], MapProfile(userMap, applies[j].userId))
  {
    result := [];
    for i := 0 to |applies|
      invariant |result| == i
      invariant forall j :: 0 <= j < i ==>
        result[j] == R.ToApplyResponse(applies[j], MapProfile(userMap, applies[j].userId))
    {
      var a := applies[i];
      result := result + [R.ToApplyResponse(a, MapProfile(userMap, a.userId))];
    }
  }
}
