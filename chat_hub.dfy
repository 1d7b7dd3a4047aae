/** The chat hub: a registry of connected clients keyed by user id, and
    the routing of each incoming chat message after it is stored. The
    hub's event loop runs one event at a time, so each event is one
    method here. */
module ChatHub {
  import opened Wrappers
  import opened Schema
  import Seqs
  import SendQueue
  import M = MessageRules
  import SR = SessionRules
  import G = GroupRules

  /** The message types of the chat protocol; 99 is the server's own. */
  const WsTypeSystem := 99

  /** A frame as the client reads it: a notice, a stored chat message, or
      one of the friend-request notifications the contact service sends. */
  datatype Payload =
    | Notice(message: string)
    | FriendRequest(applyUuid: string, userId: string, contactId: string, message: string)
    | FriendRequestAccepted(applyUuid: string, userId: string, contactId: string)
    | Chat(uuid: string, msgType: int, content: string, url: string, sendId: string, sendName: string,
           sendAvatar: string, receiveId: string, sessionId: string, fileType: string, fileName: string,
           fileSize: int, avData: string)

  datatype WSResponse = WSResponse(kind: string, data: Payload, timestamp: int)

  /** The frame an incoming socket message decodes to. */
  datatype WSMessage = WSMessage(
    msgType: int, content: string, url: string, sendId: string, sendName: string, sendAvatar: string,
    receiveId: string, sessionId: string, fileType: string, fileName: string, fileSize: int,
    isGroup: bool, avData: string)

  /** Go's `int8(x)`: the low eight bits read as a signed byte. */
  function Int8(x: int): (r: int)
    ensures -128 <= r < 128
    ensures (x - r) % 256 == 0
    ensures -128 <= x < 128 ==> r == x
  {
    (x + 128) % 256 - 128
  }

  function Welcome(now: int): WSResponse {
    WSResponse("system", Notice("Connected to chat server"), now)
  }

  /** The stored row: the type is narrowed to a byte, the status is "sent". */
  function StoredRow(msg: WSMessage, suffix: string): (m: MessageRow)
    requires |suffix| == 11
    ensures IsGeneratedId(m.uuid, 'M') && m.status == MessageStatusSent && m.msgType == Int8(msg.msgType)
    ensures m.sessionId == msg.sessionId && m.sendId == msg.sendId && m.receiveId == msg.receiveId
            && m.content == msg.content && m.avData == msg.avData
  {
    MessageRow(['M'] + suffix, msg.sessionId, Int8(msg.msgType), msg.content, msg.url, msg.sendId, msg.sendName,
               msg.sendAvatar, msg.receiveId, msg.fileType, msg.fileName, msg.fileSize, MessageStatusSent, msg.avData)
  }

  /** The database effect of `handleMessage`: the row is stored unless the
      insert fails (the failure is only logged), and the session's last
      message is updated whenever the message names a session. The
      summary uses the type as sent, before narrowing. */
  function Saved(t: Tables, msg: WSMessage, suffix: string, now: int): (r: Tables)
    requires |suffix| == 11
    ensures M.FindMessage(t.messages, StoredRow(msg, suffix).uuid).None? ==>
      r.messages == t.messages + [StoredRow(msg, suffix)]
    ensures M.FindMessage(t.messages, StoredRow(msg, suffix).uuid).Some? ==> r.messages == t.messages
    ensures msg.sessionId == "" ==> r.sessions == t.sessions
    ensures msg.sessionId != "" ==>
      r.sessions == SR.UpdateLastMessage(t.sessions, msg.sessionId, M.DisplayContent(msg.msgType, msg.content, msg.fileName), now)
    ensures r.(messages := t.messages, sessions := t.sessions) == t
  {
    var row := StoredRow(msg, suffix);
    var t1 := if M.FindMessage(t.messages, row.uuid).None? then t.(messages := t.messages + [row]) else t;
    if msg.sessionId != "" then
      t1.(sessions := SR.UpdateLastMessage(t1.sessions, msg.sessionId, M.DisplayContent(msg.msgType, msg.content, msg.fileName), now))
    else t1
  }

  /** The frame fanned out for a chat message; the type is the one sent. */
  function Outgoing(msg: WSMessage, uuid: string, now: int): WSResponse {
    WSResponse("message", Chat(uuid, msg.msgType, msg.content, msg.url, msg.sendId, msg.sendName, msg.sendAvatar,
                               msg.receiveId, msg.sessionId, msg.fileType, msg.fileName, msg.fileSize, msg.avData), now)
  }

  /** The members of the first group with that uuid, none if there is no
      such group. */
  function GroupMembers(gs: seq<GroupRow>, uuid: string): seq<string> {
    var k := G.FindGroup(gs, uuid);
    if k.Some? then gs[k.value].members else []
  }

  /** Who a message is addressed to, one entry per send. */
  function Recipients(gs: seq<GroupRow>, msg: WSMessage): (r: seq<string>)
    ensures !msg.isGroup ==> r == [msg.sendId, msg.receiveId]
    ensures msg.isGroup ==> r == GroupMembers(gs, msg.receiveId)
  {
    if msg.isGroup then GroupMembers(gs, msg.receiveId) else [msg.sendId, msg.receiveId]
  }

  /** A direct message reaches its sender and its receiver and no one else;
      a group message reaches exactly the group's members. */
  lemma DirectMessageRecipients(gs: seq<GroupRow>, msg: WSMessage, u: string)
    requires !msg.isGroup
    ensures Seqs.Occurrences(Recipients(gs, msg), u) > 0 <==> u == msg.sendId || u == msg.receiveId
  {
    assert [msg.sendId, msg.receiveId][1..] == [msg.receiveId];
  }

  /** One open connection and its outgoing buffer. */
  class Client {
    const userId: string
    const nickname: string
    const capacity: nat
    var send: seq<WSResponse>
    var closed: bool

    constructor(userId: string, nickname: string, capacity: nat)
      ensures this.userId == userId && this.nickname == nickname && this.capacity == capacity
      ensures send == [] && !closed
    {
      this.userId := userId;
      this.nickname := nickname;
      this.capacity := capacity;
      send := [];
      closed := false;
    }
  }

  class Hub {
    var clients: map<string, Client>

    /** Every entry is keyed by its own user id and still open. */
    ghost predicate Valid()
      reads this, clients.Values
    {
      forall u :: u in clients ==> clients[u].userId == u && !clients[u].closed
    }

    constructor()
      ensures clients == map[] && Valid()
    {
      clients := map[];
    }

    /** `sendToClient`: a non-blocking send (sending on a closed channel
        would panic, so the client must still be open). */
    method SendToClient(client: Client, response: WSResponse)
      requires !client.closed
      modifies client
      ensures client.send == SendQueue.Offer(old(client.send), response, client.capacity)
      ensures client.closed == old(client.closed)
    {
      if |client.send| < client.capacity {
        client.send := client.send + [response];
      }
    }

    /** The register branch of `Run`: the entry for the user is replaced and
        the new client is greeted. */
    method Register(client: Client, now: int)
      requires Valid() && !client.closed
      modifies this, client
      ensures clients == old(clients)[client.userId := client]
      ensures client.send == SendQueue.Offer(old(client.send), Welcome(now), client.capacity)
      ensures client.closed == old(client.closed)
      ensures Valid()
    {
      clients := clients[client.userId := client];
      SendToClient(client, Welcome(now));
    }

    /** The unregister branch of `Run`: whatever entry is stored under the
        client's user id is removed and the *departing* client is closed,
        even when the entry belongs to a newer connection; the user's last
        offline time is set either way. */
    method Unregister(db: Db, client: Client, now: int)
      requires Valid() && (client.userId in clients ==> !client.closed)
      modifies this, client, db
      ensures old(client.userId in clients) ==> clients == old(clients) - {client.userId} && client.closed
      ensures old(client.userId !in clients) ==> clients == old(clients) && client.closed == old(client.closed)
      ensures client.send == old(client.send)
      ensures db.State() == old(db.State()).(users := SetLastOffline(old(db.users), client.userId, now))
      ensures Valid()
    {
      if client.userId in clients {
        clients := clients - {client.userId};
        client.closed := true;
      }
      db.users := SetLastOffline(db.users, client.userId, now);
    }

    /** The unregister branch as evidently intended: the entry is removed
        only when it is this very connection. */
    method UnregisterCurrent(db: Db, client: Client, now: int)
      requires Valid() && (client.userId in clients ==> !client.closed)
      modifies this, client, db
      ensures old(client.userId in clients && clients[client.userId] == client) ==>
        clients == old(clients) - {client.userId} && client.closed
      ensures !old(client.userId in clients && clients[client.userId] == client) ==>
        clients == old(clients) && client.closed == old(client.closed)
      ensures forall u :: u in old(clients) && old(clients)[u] != client ==> u in clients && clients[u] == old(clients)[u]
      ensures client.send == old(client.send)
      ensures db.State() == old(db.State()).(users := SetLastOffline(old(db.users), client.userId, now))
      ensures Valid()
    {
      if client.userId in clients && clients[client.userId] == client {
        clients := clients - {client.userId};
        client.closed := true;
      }
      db.users := SetLastOffline(db.users, client.userId, now);
    }

    /** `sendToUser`: only the user's own connection, if online, gets it. */
    method SendToUser(userId: string, response: WSResponse)
      requires Valid()
      modifies clients.Values
      ensures forall u :: u in clients ==>
        clients[u].send == (if u == userId then SendQueue.Offer(old(clients[u].send), response, clients[u].capacity)
                            else old(clients[u].send))
      ensures Valid()
    {
      if userId in clients {
        SendToClient(clients[userId], response);
      }
    }

    /** `broadcastToGroup`: one send per listed member who is online. */
    method BroadcastToGroup(db: Db, groupUuid: string, response: WSResponse)
      requires Valid()
      modifies clients.Values
      ensures forall u :: u in clients ==>
        clients[u].send == SendQueue.OfferTimes(old(clients[u].send), response, clients[u].capacity,
                                                Seqs.Occurrences(GroupMembers(db.groups, groupUuid), u))
      ensures Valid()
    {
      var k := G.FindGroup(db.groups, groupUuid);
      if k.None? {
        return;
      }
      var members := db.groups[k.value].members;
      ghost var before := map u | u in clients :: clients[u].send;
      for i := 0 to |members|
        invariant Valid()
        invariant forall u :: u in clients ==>
          clients[u].send == SendQueue.OfferTimes(before[u], response, clients[u].capacity,
                                                  Seqs.Occurrences(members[..i], u))
      {
        ghost var mid := map u | u in clients :: clients[u].send;
        SendToUser(members[i], response);
        forall u | u in clients
          ensures clients[u].send == SendQueue.OfferTimes(before[u], response, clients[u].capacity,
                                                          Seqs.Occurrences(members[..i + 1], u))
        {
          BroadcastStep(before[u], mid[u], clients[u].send, response, clients[u].capacity, members, i, u);
        }
      }
      assert members[..|members|] == members;
    }

    /** `handleMessage`: store, update the session, then route. */
    method HandleMessage(db: Db, msg: WSMessage, suffix: string, now: int)
      requires Valid() && |suffix| == 11
      modifies db, clients.Values
      ensures db.State() == Saved(old(db.State()), msg, suffix, now)
      ensures forall u :: u in clients ==>
        clients[u].send == SendQueue.OfferTimes(old(clients[u].send), Outgoing(msg, ['M'] + suffix, now),
                                                clients[u].capacity,
                                                Seqs.Occurrences(Recipients(old(db.groups), msg), u))
      ensures Valid()
    {
      var uuid := SaveMessage(db, msg, suffix, now);
      Route(db, msg, Outgoing(msg, uuid, now));
    }

    /** The routing at the end of `handleMessage`: a group message goes to
        every member, a direct one to the sender and then the receiver. */
    method Route(db: Db, msg: WSMessage, response: WSResponse)
      requires Valid()
      modifies clients.Values
      ensures forall u :: u in clients ==>
        clients[u].send == SendQueue.OfferTimes(old(clients[u].send), response, clients[u].capacity,
                                                Seqs.Occurrences(Recipients(db.groups, msg), u))
      ensures Valid()
    {
      if msg.isGroup {
        BroadcastToGroup(db, msg.receiveId, response);
      } else {
        SendToUser(msg.sendId, response);
        SendToUser(msg.receiveId, response);
        assert [msg.sendId, msg.receiveId][1..] == [msg.receiveId];
      }
    }

    method IsOnline(userId: string) returns (online: bool)
      ensures online <==> userId in clients
    {
      online := userId in clients;
    }

    /** `GetOnlineUsers`: every connected user once, in map order. */
    method GetOnlineUsers() returns (users: seq<string>)
      ensures forall u :: u in users <==> u in clients
      ensures Seqs.Distinct(users)
      ensures |users| == |clients|
    {
      users := [];
      var remaining := clients.Keys;
      while remaining != {}
        invariant remaining <= clients.Keys
        invariant forall u :: u in users <==> u in clients && u !in remaining
        invariant Seqs.Distinct(users)
        invariant |users| + |remaining| == |clients.Keys|
        decreases |remaining|
      {
        var u :| u in remaining;
        users := users + [u];
        remaining := remaining - {u};
      }
    }
  }

  /** The database half of `handleMessage`: the insert, skipped when the
      generated uuid is taken, then the session's last message. */
  method SaveMessage(db: Db, msg: WSMessage, suffix: string, now: int) returns (uuid: string)
    requires |suffix| == 11
    modifies db
    ensures db.State() == Saved(old(db.State()), msg, suffix, now)
    ensures uuid == ['M'] + suffix
  {
    var dbMsg := StoredRow(msg, suffix);
    if M.FindMessage(db.messages, dbMsg.uuid).None? {
      db.messages := db.messages + [dbMsg];
    }
    var displayContent := M.DisplayContent(msg.msgType, msg.content, msg.fileName);
    if msg.sessionId != "" {
      db.sessions := SR.UpdateLastMessage(db.sessions, msg.sessionId, displayContent, now);
    }
    uuid := dbMsg.uuid;
  }

  /** One member's send, seen from user `u`'s buffer. */
  lemma BroadcastStep(before: seq<WSResponse>, mid: seq<WSResponse>, after: seq<WSResponse>, x: WSResponse,
                      capacity: nat, members: seq<string>, i: nat, u: string)
    requires i < |members|
    requires mid == SendQueue.OfferTimes(before, x, capacity, Seqs.Occurrences(members[..i], u))
    requires after == if u == members[i] then SendQueue.Offer(mid, x, capacity) else mid
    ensures after == SendQueue.OfferTimes(before, x, capacity, Seqs.Occurrences(members[..i + 1], u))
  {
    var n := Seqs.Occurrences(members[..i], u);
    assert members[..i + 1] == members[..i] + [members[i]];
    Seqs.OccurrencesAppend(members[..i], [members[i]], u);
    assert Seqs.Occurrences([members[i]], u) == if u == members[i] then 1 else 0 by {
      assert [members[i]][1..] == [];
    }
    if u == members[i] {
      assert SendQueue.OfferTimes(before, x, capacity, n + 1) == SendQueue.Offer(mid, x, capacity);
    }
  }

  /** `Update("last_offline_at", now)` on the user's rows. */
  function SetLastOffline(users: seq<UserRow>, uuid: string, now: int): (r: seq<UserRow>)
    ensures |r| == |users|
    ensures forall i :: 0 <= i < |users| ==>
      r[i] == (if users[i].uuid == uuid then users[i].(lastOfflineAt := Some(now)) else users[i])
  {
    if users == [] then []
    else [if users[0].uuid == uuid then users[0].(lastOfflineAt := Some(now)) else users[0]]
         + SetLastOffline(users[1..], uuid, now)
  }

  /** A user who opens a second connection and then loses the first one is
      reported offline although the second connection is still open, and
      nothing will ever close it. */
  method ReplacedConnectionGoesOffline() returns (online: bool, secondOpen: bool)
    ensures !online && secondOpen
  {
    var hub := new Hub();
    var db := new Db();
    var first := new Client("U0123456789a", "ann", 256);
    var second := new Client("U0123456789a", "ann", 256);
    hub.Register(first, 0);
    hub.Register(second, 1);
    hub.Unregister(db, first, 2);
    online := hub.IsOnline("U0123456789a");
    secondOpen := !second.closed;
  }

  /** With the identity check the replacement stays registered. */
  method ReplacedConnectionStaysOnline() returns (online: bool, secondOpen: bool)
    ensures online && secondOpen
  {
    var hub := new Hub();
    var db := new Db();
    var first := new Client("U0123456789a", "ann", 256);
    var second := new Client("U0123456789a", "ann", 256);
    hub.Register(first, 0);
    hub.Register(second, 1);
    hub.UnregisterCurrent(db, first, 2);
    online := hub.IsOnline("U0123456789a");
    secondOpen := !second.closed;
  }
}
