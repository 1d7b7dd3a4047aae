/** Chat sessions: one row per (sender, receiver) pair, carrying the last
    message shown in the session list and an unread counter. */
module SessionRules {
  import opened Wrappers
  import opened Schema

  datatype SessionError = SessionNotFound | DbError

  /** `Where("send_id = ? AND receive_id = ?").First`. */
  function FindByPair(ss: seq<SessionRow>, userId: string, receiveId: string): (k: Option<nat>)
    ensures k.Some? ==> k.value < |ss| && ss[k.value].sendId == userId && ss[k.value].receiveId == receiveId
                        && forall j :: 0 <= j < k.value ==> !(ss[j].sendId == userId && ss[j].receiveId == receiveId)
    ensures k.None? <==> forall j :: 0 <= j < |ss| ==> !(ss[j].sendId == userId && ss[j].receiveId == receiveId)
  {
    if ss == [] then None
    else if ss[0].sendId == userId && ss[0].receiveId == receiveId then Some(0)
    else
      var k := FindByPair(ss[1..], userId, receiveId);
      if k.Some? then Some(k.value + 1) else None
  }

  /** `Where("uuid = ?").First`. */
  function FindSession(ss: seq<SessionRow>, uuid: string): (k: Option<nat>)
    ensures k.Some? ==> k.value < |ss| && ss[k.value].uuid == uuid
                        && forall j :: 0 <= j < k.value ==> ss[j].uuid != uuid
    ensures k.None? <==> forall j :: 0 <= j < |ss| ==> ss[j].uuid != uuid
  {
    if ss == [] then None
    else if ss[0].uuid == uuid then Some(0)
    else
      var k := FindSession(ss[1..], uuid);
      if k.Some? then Some(k.value + 1) else None
  }

  function GetByUuid(ss: seq<SessionRow>, uuid: string): (r: Result<SessionRow, SessionError>)
    ensures r.Err? <==> (forall j :: 0 <= j < |ss| ==> ss[j].uuid != uuid)
    ensures r.Err? ==> r.error == SessionNotFound
    ensures r.Ok? ==> r.value in ss && r.value.uuid == uuid
  {
    var k := FindSession(ss, uuid);
    if k.None? then Err(SessionNotFound) else Ok(ss[k.value])
  }

  /** `GetOrCreate`: the existing session for the pair, or a new one with
      an "S" id, the given receiver name and avatar, no last message and
      no unread messages. */
  function GetOrCreate(t: Tables, userId: string, receiveId: string, receiveName: string, avatar: string, suffix: string)
    : (r: (Tables, Result<SessionRow, SessionError>))
    requires |suffix| == 11
    ensures FindByPair(t.sessions, userId, receiveId).Some? ==>
      r == (t, Ok(t.sessions[FindByPair(t.sessions, userId, receiveId).value]))
    ensures r.1.Ok? && FindByPair(t.sessions, userId, receiveId).None? ==>
      var s := r.1.value;
      IsGeneratedId(s.uuid, 'S') && s.sendId == userId && s.receiveId == receiveId
      && s.receiveName == receiveName && s.avatar == avatar
      && s.lastMessage == "" && s.lastMessageAt.None? && s.unreadCount == 0
      && r.0 == t.(sessions := t.sessions + [s])
    ensures r.1.Err? ==> r == (t, Err(DbError))
    ensures r.1.Err? <==>
      FindByPair(t.sessions, userId, receiveId).None? && FindSession(t.sessions, ['S'] + suffix).Some?
  {
    var k := FindByPair(t.sessions, userId, receiveId);
    if k.Some? then (t, Ok(t.sessions[k.value]))
    else
      var s := SessionRow(['S'] + suffix, userId, receiveId, receiveName, avatar, "", None, 0);
      if FindSession(t.sessions, s.uuid).Some? then (t, Err(DbError))
      else (t.(sessions := t.sessions + [s]), Ok(s))
  }

  /** Asking again for the same pair returns the same session and writes
      nothing, whatever name, avatar or fresh id is offered. */
  lemma GetOrCreateIdempotent(t: Tables, userId: string, receiveId: string, n1: string, a1: string, s1: string,
                              n2: string, a2: string, s2: string)
    requires |s1| == 11 && |s2| == 11
    requires GetOrCreate(t, userId, receiveId, n1, a1, s1).1.Ok?
    ensures var (t1, r1) := GetOrCreate(t, userId, receiveId, n1, a1, s1);
            GetOrCreate(t1, userId, receiveId, n2, a2, s2) == (t1, r1)
  {
    var (t1, r1) := GetOrCreate(t, userId, receiveId, n1, a1, s1);
    if FindByPair(t.sessions, userId, receiveId).None? {
      assert t1.sessions[|t.sessions|] == r1.value;
      assert FindByPair(t1.sessions, userId, receiveId) == Some(|t.sessions|);
    }
  }

  /** The row updates issued by uuid. */
  datatype SessionPatch =
    | SetLastMessage(content: string, at: int)   // last_message, last_message_at = valid now
    | AddUnread                                  // unread_count + 1
    | ResetUnread                                // unread_count = 0

  function Patched(s: SessionRow, p: SessionPatch): SessionRow {
    match p
    case SetLastMessage(content, at) => s.(lastMessage := content, lastMessageAt := Some(at))
    case AddUnread => s.(unreadCount := s.unreadCount + 1)
    case ResetUnread => s.(unreadCount := 0)
  }

  /** `Model(&Session{}).Where("uuid = ?", uuid).Update(...)`: every row with
      that uuid is patched, every other row is left alone. */
  function PatchWhere(ss: seq<SessionRow>, uuid: string, p: SessionPatch): (r: seq<SessionRow>)
    ensures |r| == |ss|
    ensures forall i :: 0 <= i < |ss| ==> r[i] == (if ss[i].uuid == uuid then Patched(ss[i], p) else ss[i])
  {
    if ss == [] then []
    else [if ss[0].uuid == uuid then Patched(ss[0], p) else ss[0]] + PatchWhere(ss[1..], uuid, p)
  }

  /** `UpdateLastMessage`, with the clock reading passed in. */
  function UpdateLastMessage(ss: seq<SessionRow>, uuid: string, content: string, now: int): (r: seq<SessionRow>)
    ensures |r| == |ss|
    ensures forall i :: 0 <= i < |ss| && ss[i].uuid == uuid ==>
      r[i].lastMessage == content && r[i].lastMessageAt == Some(now)
      && r[i].(lastMessage := ss[i].lastMessage, lastMessageAt := ss[i].lastMessageAt) == ss[i]
    ensures forall i :: 0 <= i < |ss| && ss[i].uuid != uuid ==> r[i] == ss[i]
  {
    PatchWhere(ss, uuid, SetLastMessage(content, now))
  }

  function IncrementUnread(ss: seq<SessionRow>, uuid: string): (r: seq<SessionRow>)
    ensures |r| == |ss|
    ensures forall i :: 0 <= i < |ss| && ss[i].uuid == uuid ==>
      r[i].unreadCount == ss[i].unreadCount + 1 && r[i].(unreadCount := ss[i].unreadCount) == ss[i]
    ensures forall i :: 0 <= i < |ss| && ss[i].uuid != uuid ==> r[i] == ss[i]
  {
    PatchWhere(ss, uuid, AddUnread)
  }

  function ClearUnread(ss: seq<SessionRow>, uuid: string): (r: seq<SessionRow>)
    ensures |r| == |ss|
    ensures forall i :: 0 <= i < |ss| && ss[i].uuid == uuid ==>
      r[i].unreadCount == 0 && r[i].(unreadCount := ss[i].unreadCount) == ss[i]
    ensures forall i :: 0 <= i < |ss| && ss[i].uuid != uuid ==> r[i] == ss[i]
  {
    PatchWhere(ss, uuid, ResetUnread)
  }

  /** Clearing forgets every earlier increment. */
  lemma ClearAfterIncrement(ss: seq<SessionRow>, uuid: string)
    ensures ClearUnread(IncrementUnread(ss, uuid), uuid) == ClearUnread(ss, uuid)
  {
    var a := ClearUnread(IncrementUnread(ss, uuid), uuid);
    var b := ClearUnread(ss, uuid);
    assert forall i :: 0 <= i < |ss| ==> a[i] == b[i];
  }

  /** `n` increments add exactly `n` to each matching counter. */
  function IncrementTimes(ss: seq<SessionRow>, uuid: string, n: nat): seq<SessionRow>
    decreases n
  {
    if n == 0 then ss else IncrementUnread(IncrementTimes(ss, uuid, n - 1), uuid)
  }

  lemma {:induction false} IncrementTimesCounts(ss: seq<SessionRow>, uuid: string, n: nat)
    ensures |IncrementTimes(ss, uuid, n)| == |ss|
    ensures forall i :: 0 <= i < |ss| ==>
      IncrementTimes(ss, uuid, n)[i] == (if ss[i].uuid == uuid then ss[i].(unreadCount := ss[i].unreadCount + n) else ss[i])
    decreases n
  {
    if n > 0 {
      IncrementTimesCounts(ss, uuid, n - 1);
    }
  }

  /** `Delete`: the rows with that uuid sent by the caller disappear. */
  function Delete(ss: seq<SessionRow>, uuid: string, userId: string): (r: seq<SessionRow>)
    ensures forall i :: 0 <= i < |r| ==> r[i] in ss && !(r[i].uuid == uuid && r[i].sendId == userId)
    ensures forall i :: 0 <= i < |ss| && !(ss[i].uuid == uuid && ss[i].sendId == userId) ==> ss[i] in r
    ensures |r| <= |ss|
  {
    if ss == [] then []
    else if ss[0].uuid == uuid && ss[0].sendId == userId then Delete(ss[1..], uuid, userId)
    else [ss[0]] + Delete(ss[1..], uuid, userId)
  }

  /** Someone else's session cannot be deleted. */
  lemma {:induction false} DeleteOthersSession(ss: seq<SessionRow>, uuid: string, userId: string)
    requires forall i :: 0 <= i < |ss| && ss[i].uuid == uuid ==> ss[i].sendId != userId
    ensures Delete(ss, uuid, userId) == ss
  {
    if ss != [] {
      DeleteOthersSession(ss[1..], uuid, userId);
    }
  }

  /** The caller's sessions, as the query returns them. */
  function UserSessions(ss: seq<SessionRow>, userId: string): (r: seq<SessionRow>)
    ensures forall i :: 0 <= i < |r| ==> r[i] in ss && r[i].sendId == userId
    ensures forall i :: 0 <= i < |ss| && ss[i].sendId == userId ==> ss[i] in r
  {
    if ss == [] then []
    else (if ss[0].sendId == userId then [ss[0]] else []) + UserSessions(ss[1..], userId)
  }

  /** A session list entry; `format` stands for the timestamp layout. */
  datatype SessionResponse = SessionResponse(
    uuid: string, receiveId: string, receiveName: string, avatar: string,
    lastMessage: string, lastMessageAt: string, unreadCount: int)

  function ToResponse(s: SessionRow, format: int -> string): (r: SessionResponse)
    ensures r.lastMessageAt == (if s.lastMessageAt.Some? then format(s.lastMessageAt.value) else "")
    ensures r.uuid == s.uuid && r.receiveId == s.receiveId && r.receiveName == s.receiveName
            && r.avatar == s.avatar && r.lastMessage == s.lastMessage && r.unreadCount == s.unreadCount
  {
    SessionResponse(s.uuid, s.receiveId, s.receiveName, s.avatar, s.lastMessage,
                    if s.lastMessageAt.Some? then format(s.lastMessageAt.value) else "", s.unreadCount)
  }
}

/** The session service's functions as methods over the shared database
    handle. */
module SessionService {
  import opened Wrappers
  import opened Schema
  import R = SessionRules

  method GetOrCreate(db: Db, userId: string, receiveId: string, receiveName: string, avatar: string, suffix: string)
    returns (r: Result<SessionRow, R.SessionError>)
    requires |suffix| == 11
    modifies db
    ensures (db.State(), r) == R.GetOrCreate(old(db.State()), userId, receiveId, receiveName, avatar, suffix)
  {
    var k := R.FindByPair(db.sessions, userId, receiveId);
    if k.Some? {
      return Ok(db.sessions[k.value]);
    }
    var session := SessionRow(['S'] + suffix, userId, receiveId, receiveName, avatar, "", None, 0);
    if R.FindSession(db.sessions, session.uuid).Some? {
      return Err(R.DbError);
    }
    db.sessions := db.sessions + [session];
    return Ok(session);
  }

  method GetByUuid(db: Db, uuid: string) returns (r: Result<SessionRow, R.SessionError>)
    ensures r == R.GetByUuid(db.sessions, uuid)
  {
    var k := R.FindSession(db.sessions, uuid);
    if k.None? {
      return Err(R.SessionNotFound);
    }
    return Ok(db.sessions[k.value]);
  }

  /** `GetUserSessions`: the response list is built by a loop that fills
      the time only when one is recorded. */
  method GetUserSessions(db: Db, userId: string, format: int -> string) returns (result: seq<R.SessionResponse>)
    ensures |result| == |R.UserSessions(db.sessions, userId)|
    ensures forall i :: 0 <= i < |result| ==> result[i] == R.ToResponse(R.UserSessions(db.sessions, userId)[i], format)
  {
    var sessions := R.UserSessions(db.sessions, userId);
    result := [];
    for i := 0 to |sessions|
      invariant |result| == i
      invariant forall j :: 0 <= j < i ==> result[j] == R.ToResponse(sessions[j], format)
    {
      var s := sessions[i];
      var resp := R.SessionResponse(s.uuid, s.receiveId, s.receiveName, s.avatar, s.lastMessage, "", s.unreadCount);
      if s.lastMessageAt.Some? {
        resp := resp.(lastMessageAt := format(s.lastMessageAt.value));
      }
      result := result + [resp];
    }
  }

  method UpdateLastMessage(db: Db, uuid: string, content: string, now: int)
    modifies db
    ensures db.State() == old(db.State()).(sessions := R.UpdateLastMessage(old(db.sessions), uuid, content, now))
  {
    db.sessions := R.UpdateLastMessage(db.sessions, uuid, content, now);
  }

  method IncrementUnread(db: Db, uuid: string)
    modifies db
    ensures db.State() == old(db.State()).(sessions := R.IncrementUnread(old(db.sessions), uuid))
  {
    db.sessions := R.IncrementUnread(db.sessions, uuid);
  }

  method ClearUnread(db: Db, uuid: string)
    modifies db
    ensures db.State() == old(db.State()).(sessions := R.ClearUnread(old(db.sessions), uuid))
  {
    db.sessions := R.ClearUnread(db.sessions, uuid);
  }

  method Delete(db: Db, uuid: string, userId: string)
    modifies db
    ensures db.State() == old(db.State()).(sessions := R.Delete(old(db.sessions), uuid, userId))
  {
    db.sessions := R.Delete(db.sessions, uuid, userId);
  }
}
