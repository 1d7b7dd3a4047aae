/** The WebRTC signalling relay: a registry of signalling connections keyed
    by user id, and the forwarding of each parsed frame to the connection
    named in its `to` field. */
module SignalingHub {
  import SendQueue

  /** The capacity of each connection's outgoing channel. */
  const SendBufferSize := 256

  /** `payload` stands for the raw JSON the relay passes through untouched. */
  datatype SignalingMessage = SignalingMessage(kind: string, from: string, to: string, payload: string)

  /** A frame read from the socket, as the JSON decoder sees it. */
  datatype Frame = Parsed(msg: SignalingMessage) | Unparseable

  /** What `readPump` hands to the relay for a run of frames: unparseable
      frames are skipped, and every relayed message carries the
      connection's own user id as its sender. */
  function Relayed(frames: seq<Frame>, userId: string): (r: seq<SignalingMessage>)
    ensures forall i :: 0 <= i < |r| ==> r[i].from == userId
    ensures |r| <= |frames|
    decreases |frames|
  {
    if frames == [] then []
    else
      var last := frames[|frames| - 1];
      Relayed(frames[..|frames| - 1], userId) + (if last.Parsed? then [last.msg.(from := userId)] else [])
  }

  /** A fully forged frame is relayed with the sender corrected and the rest
      of the message untouched. */
  lemma {:induction false} RelayedKeepsContent(frames: seq<Frame>, userId: string)
    ensures |Relayed(frames, userId)| == |Parsed(frames)|
    ensures forall i :: 0 <= i < |Parsed(frames)| ==>
      Relayed(frames, userId)[i] == Parsed(frames)[i].(from := userId)
    decreases |frames|
  {
    if frames != [] {
      RelayedKeepsContent(frames[..|frames| - 1], userId);
    }
  }

  /** The messages that decode, in order. */
  function Parsed(frames: seq<Frame>): seq<SignalingMessage>
    decreases |frames|
  {
    if frames == [] then []
    else
      var last := frames[|frames| - 1];
      Parsed(frames[..|frames| - 1]) + (if last.Parsed? then [last.msg] else [])
  }

  /** The messages among `ms` addressed to `u`. */
  function AddressedTo(ms: seq<SignalingMessage>, u: string): (r: seq<SignalingMessage>)
    ensures forall i :: 0 <= i < |r| ==> r[i].to == u && r[i] in ms
    ensures forall i :: 0 <= i < |ms| && ms[i].to == u ==> ms[i] in r
    decreases |ms|
  {
    if ms == [] then []
    else
      var last := ms[|ms| - 1];
      AddressedTo(ms[..|ms| - 1], u) + (if last.to == u then [last] else [])
  }

  class SignalingClient {
    const userId: string
    const capacity: nat
    var send: seq<SignalingMessage>
    var closed: bool

    /** `NewSignalingClient`'s allocation (registration is `Register`). */
    constructor(userId: string)
      ensures this.userId == userId && capacity == SendBufferSize
      ensures send == [] && !closed
    {
      this.userId := userId;
      capacity := SendBufferSize;
      send := [];
      closed := false;
    }
  }

  class Hub {
    var clients: map<string, SignalingClient>

    ghost predicate Valid()
      reads this, clients.Values
    {
      forall u :: u in clients ==> clients[u].userId == u && !clients[u].closed
    }

    constructor()
      ensures clients == map[] && Valid()
    {
      clients := map[];
    }

    method Register(client: SignalingClient)
      requires Valid() && !client.closed
      modifies this
      ensures clients == old(clients)[client.userId := client]
      ensures Valid()
    {
      clients := clients[client.userId := client];
    }

    /** As in the chat hub, whatever entry is stored under the user id is
        removed and the departing connection is closed. */
    method Unregister(client: SignalingClient)
      requires Valid() && (client.userId in clients ==> !client.closed)
      modifies this, client
      ensures old(client.userId in clients) ==> clients == old(clients) - {client.userId} && client.closed
      ensures old(client.userId !in clients) ==> clients == old(clients) && client.closed == old(client.closed)
      ensures client.send == old(client.send)
      ensures Valid()
    {
      if client.userId in clients {
        clients := clients - {client.userId};
        client.closed := true;
      }
    }

    /** The evidently intended unregister: only this very connection's entry
        is removed. */
    method UnregisterCurrent(client: SignalingClient)
      requires Valid() && (client.userId in clients ==> !client.closed)
      modifies this, client
      ensures old(client.userId in clients && clients[client.userId] == client) ==>
        clients == old(clients) - {client.userId} && client.closed
      ensures !old(client.userId in clients && clients[client.userId] == client) ==>
        clients == old(clients) && client.closed == old(client.closed)
      ensures forall u :: u in old(clients) && old(clients)[u] != client ==> u in clients && clients[u] == old(clients)[u]
      ensures client.send == old(client.send)
      ensures Valid()
    {
      if client.userId in clients && clients[client.userId] == client {
        clients := clients - {client.userId};
        client.closed := true;
      }
    }

    /** `relayMessage`: to the addressee's connection only, dropped when the
        addressee is offline or its buffer is full. */
    method RelayMessage(msg: SignalingMessage)
      requires Valid()
      modifies clients.Values
      ensures forall u :: u in clients ==>
        clients[u].send == (if u == msg.to then SendQueue.Offer(old(clients[u].send), msg, clients[u].capacity)
                            else old(clients[u].send))
      ensures Valid()
    {
      if msg.to !in clients {
        return;
      }
      var target := clients[msg.to];
      if |target.send| < target.capacity {
        target.send := target.send + [msg];
      }
    }

    /** `readPump` over the frames one connection delivers before it closes:
        each user's buffer receives, in order, the relayed messages
        addressed to them, as far as there is room. */
    method ReadPump(client: SignalingClient, frames: seq<Frame>)
      requires Valid()
      modifies clients.Values
      ensures forall u :: u in clients ==>
        clients[u].send == SendQueue.OfferAll(old(clients[u].send), AddressedTo(Relayed(frames, client.userId), u),
                                              clients[u].capacity)
      ensures Valid()
    {
      ghost var before := map u | u in clients :: clients[u].send;
      for i := 0 to |frames|
        invariant Valid()
        invariant forall u :: u in clients ==>
          clients[u].send == SendQueue.OfferAll(before[u], AddressedTo(Relayed(frames[..i], client.userId), u),
                                                clients[u].capacity)
      {
        ghost var mid := map u | u in clients :: clients[u].send;
        if frames[i].Unparseable? {
          forall u | u in clients
            ensures clients[u].send == SendQueue.OfferAll(before[u], AddressedTo(Relayed(frames[..i + 1], client.userId), u),
                                                          clients[u].capacity)
          {
            ReadStep(frames, i, client.userId, u, before[u], mid[u], clients[u].send, clients[u].capacity);
          }
          continue;
        }
        var msg := frames[i].msg;
        msg := msg.(from := client.userId);
        RelayMessage(msg);
        forall u | u in clients
          ensures clients[u].send == SendQueue.OfferAll(before[u], AddressedTo(Relayed(frames[..i + 1], client.userId), u),
                                                        clients[u].capacity)
        {
          ReadStep(frames, i, client.userId, u, before[u], mid[u], clients[u].send, clients[u].capacity);
        }
      }
      assert frames[..|frames|] == frames;
    }
  }

  /** One frame of `readPump`, seen from user `u`'s buffer. */
  lemma ReadStep(frames: seq<Frame>, i: nat, userId: string, u: string, before: seq<SignalingMessage>,
                 mid: seq<SignalingMessage>, after: seq<SignalingMessage>, capacity: nat)
    requires i < |frames|
    requires mid == SendQueue.OfferAll(before, AddressedTo(Relayed(frames[..i], userId), u), capacity)
    requires frames[i].Unparseable? ==> after == mid
    requires frames[i].Parsed? ==>
      after == (if frames[i].msg.to == u then SendQueue.Offer(mid, frames[i].msg.(from := userId), capacity) else mid)
    ensures after == SendQueue.OfferAll(before, AddressedTo(Relayed(frames[..i + 1], userId), u), capacity)
  {
    var prefix := frames[..i + 1];
    assert prefix[..i] == frames[..i];
    assert prefix[i] == frames[i];
    var done := AddressedTo(Relayed(frames[..i], userId), u);
    if frames[i].Parsed? {
      var m := frames[i].msg.(from := userId);
      var all := Relayed(frames[..i], userId) + [m];
      assert Relayed(prefix, userId) == all;
      assert all[..|all| - 1] == Relayed(frames[..i], userId);
      SendQueue.OfferAllAppend(before, done, if m.to == u then [m] else [], capacity);
      if m.to == u {
        assert SendQueue.OfferAll(mid, [m], capacity) == SendQueue.Offer(mid, m, capacity);
      }
    } else {
      assert Relayed(prefix, userId) == Relayed(frames[..i], userId);
    }
  }

  /** As in the chat hub, a replaced connection that goes away takes the
      live replacement's entry with it. */
  method ReplacedConnectionGoesOffline() returns (online: bool, secondOpen: bool)
    ensures !online && secondOpen
  {
    var hub := new Hub();
    var first := new SignalingClient("U0123456789a");
    var second := new SignalingClient("U0123456789a");
    hub.Register(first);
    hub.Register(second);
    hub.Unregister(first);
    online := "U0123456789a" in hub.clients;
    secondOpen := !second.closed;
  }

  method ReplacedConnectionStaysOnline() returns (online: bool, secondOpen: bool)
    ensures online && secondOpen
  {
    var hub := new Hub();
    var first := new SignalingClient("U0123456789a");
    var second := new SignalingClient("U0123456789a");
    hub.Register(first);
    hub.Register(second);
    hub.UnregisterCurrent(first);
    online := "U0123456789a" in hub.clients;
    secondOpen := !second.closed;
  }
}
