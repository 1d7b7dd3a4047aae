/** The browser's session slice: the session list, the open session and
    its messages. Each reducer and each async-thunk case is a method of
    `SessionSlice` that updates its fields in place, as the Immer draft
    does; the list updates are functions with their own contracts. */
module SessionStore {
  import opened Wrappers

  datatype Session = Session(uuid: string, name: string, lastMessage: string, lastMessageAt: string)

  datatype Message = Message(uuid: string, sessionId: string, content: string, createdAt: string)

  predicate DistinctUuids(ss: seq<Session>) {
    forall i, j :: 0 <= i < j < |ss| ==> ss[i].uuid != ss[j].uuid
  }

  /** `sessions.findIndex(s => s.uuid === id)`, with -1 as `None`. */
  function FindSession(ss: seq<Session>, id: string): (k: Option<nat>)
    ensures k.Some? ==> k.value < |ss| && ss[k.value].uuid == id
                        && forall j :: 0 <= j < k.value ==> ss[j].uuid != id
    ensures k.None? <==> forall j :: 0 <= j < |ss| ==> ss[j].uuid != id
  {
    if ss == [] then None
    else if ss[0].uuid == id then Some(0)
    else
      var k := FindSession(ss[1..], id);
      if k.Some? then Some(k.value + 1) else None
  }

  /** `sessions.filter(s => s.uuid !== id)`. */
  function WithoutSession(ss: seq<Session>, id: string): (r: seq<Session>)
    ensures forall i :: 0 <= i < |r| ==> r[i].uuid != id && r[i] in ss
    ensures forall i :: 0 <= i < |ss| && ss[i].uuid != id ==> ss[i] in r
  {
    if ss == [] then []
    else if ss[0].uuid != id then [ss[0]] + WithoutSession(ss[1..], id)
    else WithoutSession(ss[1..], id)
  }

  /** Nothing is dropped from a list that does not hold `id`. */
  lemma {:induction false} WithoutAbsent(ss: seq<Session>, id: string)
    requires forall i :: 0 <= i < |ss| ==> ss[i].uuid != id
    ensures WithoutSession(ss, id) == ss
  {
    if ss != [] {
      WithoutAbsent(ss[1..], id);
    }
  }

  /** Filtering distributes over concatenation. */
  lemma {:induction false} WithoutAppend(a: seq<Session>, b: seq<Session>, id: string)
    ensures WithoutSession(a + b, id) == WithoutSession(a, id) + WithoutSession(b, id)
  {
    if a == [] {
      assert a + b == b;
    } else {
      assert (a + b)[1..] == a[1..] + b;
      WithoutAppend(a[1..], b, id);
    }
  }

  /** With distinct uuids, dropping the one session at index `k` keeps the
      others in their order. */
  lemma WithoutSessionAt(ss: seq<Session>, k: nat)
    requires DistinctUuids(ss) && k < |ss|
    ensures WithoutSession(ss, ss[k].uuid) == ss[..k] + ss[k + 1..]
  {
    WithoutOnlyAt(ss, k);
  }

  /** Dropping a uuid that only index `k` holds removes exactly that entry. */
  lemma WithoutOnlyAt(ss: seq<Session>, k: nat)
    requires k < |ss|
    requires forall i :: 0 <= i < |ss| && i != k ==> ss[i].uuid != ss[k].uuid
    ensures WithoutSession(ss, ss[k].uuid) == ss[..k] + ss[k + 1..]
  {
    var id := ss[k].uuid;
    var front, back := ss[..k], ss[k + 1..];
    forall i | 0 <= i < |front|
      ensures front[i].uuid != id
    {
      assert front[i] == ss[i];
    }
    forall i | 0 <= i < |back|
      ensures back[i].uuid != id
    {
      assert back[i] == ss[k + 1 + i];
    }
    WithoutMiddle(front, ss[k], back, id);
    assert ss == front + [ss[k]] + back;
  }

  /** Dropping the only holder of `id`, which sits between two lists that
      do not hold it. */
  lemma WithoutMiddle(a: seq<Session>, x: Session, b: seq<Session>, id: string)
    requires forall i :: 0 <= i < |a| ==> a[i].uuid != id
    requires x.uuid == id
    requires forall i :: 0 <= i < |b| ==> b[i].uuid != id
    ensures WithoutSession(a + [x] + b, id) == a + b
  {
    WithoutAbsent(a, id);
    WithoutAbsent(b, id);
    assert ([x] + b)[1..] == b;
    assert a + [x] + b == a + ([x] + b);
    WithoutAppend(a, [x] + b, id);
  }

  /** The session list after `addMessage(m)`: the session `m` belongs to
      takes the message as its last one and moves to the front; a message
      for an unknown session leaves the list alone. */
  function TouchSession(ss: seq<Session>, m: Message): (r: seq<Session>)
    ensures FindSession(ss, m.sessionId).None? ==> r == ss
    ensures FindSession(ss, m.sessionId).Some? ==>
      (var k := FindSession(ss, m.sessionId).value;
       |r| >= 1 && r[0] == ss[k].(lastMessage := m.content, lastMessageAt := m.createdAt)
       && r[1..] == WithoutSession(ss, m.sessionId))
  {
    var k := FindSession(ss, m.sessionId);
    if k.None? then ss
    else
      var s := ss[k.value].(lastMessage := m.content, lastMessageAt := m.createdAt);
      [s] + WithoutSession(ss, s.uuid)
  }

  /** With distinct uuids, moving a session to the front keeps the length,
      keeps the other sessions in their relative order and keeps the uuids
      distinct. */
  lemma TouchSessionMovesToFront(ss: seq<Session>, m: Message)
    requires DistinctUuids(ss)
    requires FindSession(ss, m.sessionId).Some?
    ensures var k := FindSession(ss, m.sessionId).value;
            var r := TouchSession(ss, m);
            |r| == |ss| && r[1..] == ss[..k] + ss[k + 1..] && DistinctUuids(r)
  {
    var k := FindSession(ss, m.sessionId).value;
    WithoutSessionAt(ss, k);
    var rest := ss[..k] + ss[k + 1..];
    RemoveAtDistinct(ss, k);
    var r := TouchSession(ss, m);
    assert r == [r[0]] + rest;
    DistinctCons(r[0], rest);
  }

  /** Removing one session keeps the others distinct and without its uuid. */
  lemma RemoveAtDistinct(ss: seq<Session>, k: nat)
    requires DistinctUuids(ss) && k < |ss|
    ensures var rest := ss[..k] + ss[k + 1..];
            DistinctUuids(rest) && forall i :: 0 <= i < |rest| ==> rest[i].uuid != ss[k].uuid
  {
    var rest := ss[..k] + ss[k + 1..];
    assert forall i :: 0 <= i < |rest| ==> rest[i] == ss[if i < k then i else i + 1];
  }

  lemma DistinctCons(s: Session, rest: seq<Session>)
    requires DistinctUuids(rest)
    requires forall i :: 0 <= i < |rest| ==> rest[i].uuid != s.uuid
    ensures DistinctUuids([s] + rest)
  {
    var r := [s] + rest;
    assert forall i :: 1 <= i < |r| ==> r[i] == rest[i - 1];
  }

  /** The list after a create-session fulfilment: prepended only when its
      uuid is not there yet. */
  function PrependIfAbsent(ss: seq<Session>, s: Session): (r: seq<Session>)
    ensures FindSession(ss, s.uuid).None? ==> r == [s] + ss
    ensures FindSession(ss, s.uuid).Some? ==> r == ss
    ensures DistinctUuids(ss) ==> DistinctUuids(r)
  {
    if FindSession(ss, s.uuid).None? then [s] + ss else ss
  }

  class SessionSlice {
    var sessions: seq<Session>
    var currentSession: Option<Session>
    var messages: seq<Message>
    var isLoading: bool
    var isLoadingMessages: bool
    var error: Option<string>

    constructor()
      ensures sessions == [] && currentSession.None? && messages == []
      ensures !isLoading && !isLoadingMessages && error.None?
    {
      sessions := [];
      currentSession := None;
      messages := [];
      isLoading := false;
      isLoadingMessages := false;
      error := None;
    }

    method SetCurrentSession(s: Option<Session>)
      modifies this
      ensures currentSession == s && messages == []
      ensures sessions == old(sessions) && isLoading == old(isLoading)
      ensures isLoadingMessages == old(isLoadingMessages) && error == old(error)
    {
      currentSession := s;
      messages := [];
    }

    method AddMessage(m: Message)
      modifies this
      ensures messages == old(messages) + [m]
      ensures sessions == TouchSession(old(sessions), m)
      ensures currentSession == old(currentSession) && isLoading == old(isLoading)
      ensures isLoadingMessages == old(isLoadingMessages) && error == old(error)
    {
      messages := messages + [m];
      var k := FindSession(sessions, m.sessionId);
      if k.Some? {
        var session := sessions[k.value].(lastMessage := m.content, lastMessageAt := m.createdAt);
        sessions := sessions[k.value := session];
        assert WithoutSession(sessions, session.uuid) == WithoutSession(old(sessions), session.uuid) by {
          FilterIgnoresEqualKey(old(sessions), k.value, session);
        }
        sessions := [session] + WithoutSession(sessions, session.uuid);
      }
    }

    method ClearMessages()
      modifies this
      ensures messages == []
      ensures sessions == old(sessions) && currentSession == old(currentSession) && isLoading == old(isLoading)
      ensures isLoadingMessages == old(isLoadingMessages) && error == old(error)
    {
      messages := [];
    }

    method ClearError()
      modifies this
      ensures error.None?
      ensures sessions == old(sessions) && currentSession == old(currentSession) && messages == old(messages)
      ensures isLoading == old(isLoading) && isLoadingMessages == old(isLoadingMessages)
    {
      error := None;
    }

    method FetchSessionsPending()
      modifies this
      ensures isLoading && error.None?
      ensures sessions == old(sessions) && currentSession == old(currentSession) && messages == old(messages)
      ensures isLoadingMessages == old(isLoadingMessages)
    {
      isLoading := true;
      error := None;
    }

    method FetchSessionsFulfilled(payload: seq<Session>)
      modifies this
      ensures !isLoading && sessions == payload
      ensures currentSession == old(currentSession) && messages == old(messages)
      ensures isLoadingMessages == old(isLoadingMessages) && error == old(error)
    {
      isLoading := false;
      sessions := payload;
    }

    method FetchSessionsRejected(payload: string)
      modifies this
      ensures !isLoading && error == Some(payload)
      ensures sessions == old(sessions) && currentSession == old(currentSession) && messages == old(messages)
      ensures isLoadingMessages == old(isLoadingMessages)
    {
      isLoading := false;
      error := Some(payload);
    }

    /** Both `createPrivateSession.fulfilled` and `createGroupSession.fulfilled`. */
    method CreateSessionFulfilled(payload: Session)
      modifies this
      ensures sessions == PrependIfAbsent(old(sessions), payload)
      ensures currentSession == Some(payload)
      ensures messages == old(messages) && isLoading == old(isLoading)
      ensures isLoadingMessages == old(isLoadingMessages) && error == old(error)
    {
      var existingIndex := FindSession(sessions, payload.uuid);
      if existingIndex.None? {
        sessions := [payload] + sessions;
      }
      currentSession := Some(payload);
    }

    method FetchMessagesPending()
      modifies this
      ensures isLoadingMessages
      ensures sessions == old(sessions) && currentSession == old(currentSession) && messages == old(messages)
      ensures isLoading == old(isLoading) && error == old(error)
    {
      isLoadingMessages := true;
    }

    method FetchMessagesFulfilled(payload: seq<Message>)
      modifies this
      ensures !isLoadingMessages && messages == payload
      ensures sessions == old(sessions) && currentSession == old(currentSession)
      ensures isLoading == old(isLoading) && error == old(error)
    {
      isLoadingMessages := false;
      messages := payload;
    }

    method FetchMessagesRejected(payload: string)
      modifies this
      ensures !isLoadingMessages && error == Some(payload)
      ensures sessions == old(sessions) && currentSession == old(currentSession) && messages == old(messages)
      ensures isLoading == old(isLoading)
    {
      isLoadingMessages := false;
      error := Some(payload);
    }

    method DeleteSessionFulfilled(uuid: string)
      modifies this
      ensures sessions == WithoutSession(old(sessions), uuid)
      ensures old(currentSession).Some? && old(currentSession).value.uuid == uuid ==>
        currentSession.None? && messages == []
      ensures !(old(currentSession).Some? && old(currentSession).value.uuid == uuid) ==>
        currentSession == old(currentSession) && messages == old(messages)
      ensures isLoading == old(isLoading) && isLoadingMessages == old(isLoadingMessages) && error == old(error)
    {
      sessions := WithoutSession(sessions, uuid);
      if currentSession.Some? && currentSession.value.uuid == uuid {
        currentSession := None;
        messages := [];
      }
    }
  }

  /** Replacing a session by one with the same uuid does not change what
      survives a filter on that uuid. */
  lemma {:induction false} FilterIgnoresEqualKey(ss: seq<Session>, k: nat, s: Session)
    requires k < |ss| && ss[k].uuid == s.uuid
    ensures WithoutSession(ss[k := s], s.uuid) == WithoutSession(ss, s.uuid)
    decreases |ss|
  {
    if k == 0 {
      assert ss[k := s][1..] == ss[1..];
    } else {
      assert ss[k := s][1..] == ss[1..][k - 1 := s];
      FilterIgnoresEqualKey(ss[1..], k - 1, s);
    }
  }
}
