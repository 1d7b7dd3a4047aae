/** The browser's chat `WebSocketService`: one socket with bounded
    reconnection, handler lists for messages, connects and disconnects,
    and the outgoing message frame.

    Handlers are identified by a number (JavaScript compares them by
    reference); calling one is recorded in a log. The browser's pending
    reconnect timers are kept beside the fields, each fired by an explicit
    event. */
module ChatChannel {
  import opened Wrappers
  import opened BrowserSocket
  import Seqs

  const MaxReconnectAttempts: nat := 5
  const MaxReconnectDelayMs: nat := 30000

  type HandlerId = nat

  /** An incoming frame after JSON parsing: its `type` and its `data`. */
  datatype Incoming = Incoming(kind: string, data: string)

  /** The JSON object `sendMessage` writes. */
  datatype OutFrame = OutFrame(messageType: int, content: string, sessionId: string, receiveId: string)

  datatype Delivery = Delivery(handler: HandlerId, message: string)

  /** A reconnect `setTimeout` still waiting to fire: its id, its delay and
      the token its closure captured. */
  datatype Timer = Timer(id: nat, delayMs: nat, token: string)

  /** `reconnectTimeout` holds the id of the last timer armed, also after it
      has fired (the code never nulls it then); `timers` are the browser's
      live timers, in the order they were armed; `nextTimerId` is the id
      the next `setTimeout` returns (browsers start at 1, so every id is
      truthy). */
  datatype Channel = Channel(
    ws: SocketState,
    token: string,
    reconnectAttempts: nat,
    reconnectTimeout: Option<nat>,
    timers: seq<Timer>,
    nextTimerId: nat,
    messageHandlers: seq<HandlerId>,
    connectHandlers: seq<HandlerId>,
    disconnectHandlers: seq<HandlerId>,
    delivered: seq<Delivery>,
    connectCalls: seq<HandlerId>,
    disconnectCalls: seq<HandlerId>,
    sent: seq<OutFrame>)

  const Initial: Channel := Channel(NoSocket, "", 0, None, [], 1, [], [], [], [], [], [], [])

  function Pow2(n: nat): (r: nat)
    ensures r >= 1 && r > n
    ensures n > 0 ==> r % 2 == 0
  {
    if n == 0 then 1 else 2 * Pow2(n - 1)
  }

  /** `Math.min(1000 * Math.pow(2, attempts), 30000)`. */
  function ReconnectDelay(attempts: nat): (d: nat)
    ensures d <= MaxReconnectDelayMs
    ensures attempts >= 1 ==> d >= 2000
    ensures d == MaxReconnectDelayMs || d == 1000 * Pow2(attempts)
  {
    if 1000 * Pow2(attempts) < MaxReconnectDelayMs then 1000 * Pow2(attempts) else MaxReconnectDelayMs
  }

  lemma {:induction false} Pow2Monotone(a: nat, b: nat)
    requires a <= b
    ensures Pow2(a) <= Pow2(b)
    decreases b
  {
    if a < b {
      Pow2Monotone(a, b - 1);
    }
  }

  /** The five delays used in order are 2, 4, 8, 16 and 30 seconds, and the
      delay never shrinks as attempts grow. */
  lemma ReconnectDelaySchedule(a: nat, b: nat)
    requires a <= b
    ensures ReconnectDelay(a) <= ReconnectDelay(b)
    ensures [ReconnectDelay(1), ReconnectDelay(2), ReconnectDelay(3), ReconnectDelay(4), ReconnectDelay(5)]
            == [2000, 4000, 8000, 16000, 30000]
  {
    Pow2Monotone(a, b);
    assert Pow2(5) == 32;
  }

  /** `connect(token)`: nothing while the socket is OPEN; otherwise a new
      socket for this token. */
  function Connect(c: Channel, token: string): (r: Channel)
    ensures c.ws == Open ==> r == c
    ensures c.ws != Open ==>
      (r.ws == Connecting && r.token == token && r.(ws := c.ws, token := c.token) == c)
  {
    if c.ws == Open then c else c.(ws := Connecting, token := token)
  }

  /** `onopen`: the attempt counter is reset and every connect handler runs. */
  function Opened(c: Channel): (r: Channel)
    ensures c.ws == Connecting ==>
      (r.ws == Open && r.reconnectAttempts == 0 && r.connectCalls == c.connectCalls + c.connectHandlers)
    ensures c.ws != Connecting ==> r == c
  {
    if c.ws == Connecting then c.(ws := Open, reconnectAttempts := 0, connectCalls := c.connectCalls + c.connectHandlers)
    else c
  }

  /** What each message handler receives for one frame. */
  function DeliveriesOf(handlers: seq<HandlerId>, message: string): (r: seq<Delivery>)
    ensures |r| == |handlers|
    ensures forall i :: 0 <= i < |r| ==> r[i] == Delivery(handlers[i], message)
  {
    if handlers == [] then [] else [Delivery(handlers[0], message)] + DeliveriesOf(handlers[1..], message)
  }

  /** `onmessage`: message handlers fire only for a parsed frame of type
      'message'; anything else changes nothing. */
  function Received(c: Channel, frame: Option<Incoming>): (r: Channel)
    ensures frame.Some? && frame.value.kind == "message" ==>
      r == c.(delivered := c.delivered + DeliveriesOf(c.messageHandlers, frame.value.data))
    ensures !(frame.Some? && frame.value.kind == "message") ==> r == c
  {
    if frame.Some? && frame.value.kind == "message" then
      c.(delivered := c.delivered + DeliveriesOf(c.messageHandlers, frame.value.data))
    else c
  }

  /** `attemptReconnect`: nothing at the ceiling; otherwise count one more
      attempt and arm a timer for the capped exponential delay. The field
      is overwritten without clearing the timer it held, so every earlier
      timer stays live. */
  function AttemptReconnect(c: Channel): (r: Channel)
    ensures c.reconnectAttempts >= MaxReconnectAttempts ==> r == c
    ensures c.reconnectAttempts < MaxReconnectAttempts ==>
      (r.reconnectAttempts == c.reconnectAttempts + 1
       && r.timers == c.timers + [Timer(c.nextTimerId, ReconnectDelay(c.reconnectAttempts + 1), c.token)]
       && r.reconnectTimeout == Some(c.nextTimerId) && r.nextTimerId == c.nextTimerId + 1
       && r.(reconnectAttempts := c.reconnectAttempts, timers := c.timers, reconnectTimeout := c.reconnectTimeout,
             nextTimerId := c.nextTimerId) == c)
  {
    if c.reconnectAttempts >= MaxReconnectAttempts then c
    else
      var n := c.reconnectAttempts + 1;
      c.(reconnectAttempts := n, timers := c.timers + [Timer(c.nextTimerId, ReconnectDelay(n), c.token)],
         reconnectTimeout := Some(c.nextTimerId), nextTimerId := c.nextTimerId + 1)
  }

  /** `onclose`: every disconnect handler runs, then a reconnect is tried
      with the token of the connect that made the socket. (The close of a
      socket `disconnect` has already dropped still runs.) */
  function ClosedEvent(c: Channel): (r: Channel)
    ensures r.ws != Open
    ensures r.disconnectCalls == c.disconnectCalls + c.disconnectHandlers
    ensures c.reconnectAttempts >= MaxReconnectAttempts ==>
      (r.timers == c.timers && r.reconnectTimeout == c.reconnectTimeout && r.reconnectAttempts == c.reconnectAttempts)
  {
    AttemptReconnect(Closing(c))
  }

  /** The part of `onclose` before the reconnect attempt. */
  function Closing(c: Channel): Channel {
    c.(ws := if c.ws == NoSocket then NoSocket else Closed, disconnectCalls := c.disconnectCalls + c.disconnectHandlers)
  }

  /** `ts` without position `i`. */
  function RemoveAt(ts: seq<Timer>, i: nat): (r: seq<Timer>)
    requires i < |ts|
    ensures |r| == |ts| - 1
    ensures forall t :: t in r ==> t in ts
  {
    assert forall t :: t in ts[i + 1..] ==> t in ts;
    ts[..i] + ts[i + 1..]
  }

  /** The live timer at position `i` fires: it is no longer pending, and it
      calls `connect` with the token it captured. No such timer, no change. */
  function ReconnectFires(c: Channel, i: nat): (r: Channel)
    ensures i >= |c.timers| ==> r == c
    ensures i < |c.timers| ==>
      r == Connect(c.(timers := RemoveAt(c.timers, i)), c.timers[i].token) && r.timers == RemoveAt(c.timers, i)
  {
    if i < |c.timers| then Connect(c.(timers := RemoveAt(c.timers, i)), c.timers[i].token) else c
  }

  /** The live timers after `clearTimeout(id)`: exactly those with another
      id; an id that has fired, or was never armed, clears nothing. */
  function Cleared(ts: seq<Timer>, id: nat): (r: seq<Timer>)
    ensures forall t :: t in r <==> t in ts && t.id != id
  {
    Seqs.Filter(ts, (t: Timer) => t.id != id)
  }

  /** The live timers once the timer the field holds is cleared. */
  function CancelHeld(c: Channel): (r: seq<Timer>)
    ensures forall t :: t in r <==> t in c.timers && Some(t.id) != c.reconnectTimeout
  {
    if c.reconnectTimeout.Some? then Cleared(c.timers, c.reconnectTimeout.value) else c.timers
  }

  /** `disconnect`: clear the timer the field holds, pin the counter at
      the ceiling and drop the socket. */
  function Disconnect(c: Channel): (r: Channel)
    ensures r.timers == CancelHeld(c) && r.reconnectTimeout.None?
    ensures r.reconnectAttempts == MaxReconnectAttempts && r.ws == NoSocket
    ensures r.(timers := c.timers, reconnectTimeout := c.reconnectTimeout, reconnectAttempts := c.reconnectAttempts,
               ws := c.ws) == c
  {
    c.(timers := CancelHeld(c), reconnectTimeout := None, reconnectAttempts := MaxReconnectAttempts, ws := NoSocket)
  }

  /** After `disconnect`, the close that follows arms no timer and the timer
      the field held is gone; but a timer armed by an earlier close, whose
      id the field no longer held, stays live. */
  lemma DisconnectStopsReconnect(c: Channel)
    ensures ClosedEvent(Disconnect(c)).timers == Disconnect(c).timers
    ensures ClosedEvent(Disconnect(c)).reconnectTimeout.None?
    ensures forall t :: t in Disconnect(c).timers <==> t in c.timers && Some(t.id) != c.reconnectTimeout
  {
  }

  /** Every live timer waits between 2 and 30 seconds and has an id below
      the next one. */
  predicate TimersOk(ts: seq<Timer>, next: nat) {
    forall t :: t in ts ==> 2000 <= t.delayMs <= MaxReconnectDelayMs && t.id < next
  }

  /** A counterexample to `disconnect` stopping reconnection: a socket
      closes and arms a timer, `connect` is called again before it fires,
      that socket closes too and arms a second timer over the first.
      `disconnect` clears only the second; the first then fires and makes a
      new socket. */
  lemma OrphanedTimerReconnects(c: Channel, token: string)
    requires TimersOk(c.timers, c.nextTimerId) && c.reconnectAttempts + 2 <= MaxReconnectAttempts
    ensures var d := Disconnect(ClosedEvent(Connect(ClosedEvent(c), token)));
            |c.timers| < |d.timers| && d.ws == NoSocket && ReconnectFires(d, |c.timers|).ws == Connecting
  {
    var c1 := ClosedEvent(c);
    var t1 := Timer(c.nextTimerId, ReconnectDelay(c.reconnectAttempts + 1), c.token);
    CloseArms(c);
    var c2 := Connect(c1, token);
    assert c2.timers == c1.timers && c2.nextTimerId == c1.nextTimerId && c2.reconnectAttempts == c1.reconnectAttempts;
    var c3 := ClosedEvent(c2);
    CloseArms(c2);
    var t2 := Timer(c2.nextTimerId, ReconnectDelay(c2.reconnectAttempts + 1), c2.token);
    ClearLast(c.timers + [t1], t2);
    var d := Disconnect(c3);
    assert d.timers == c.timers + [t1];
    assert d.timers[|c.timers|] == t1;
  }

  /** Below the ceiling, a close arms one more timer and the field holds it. */
  lemma CloseArms(c: Channel)
    requires c.reconnectAttempts < MaxReconnectAttempts
    ensures var r := ClosedEvent(c);
            r.timers == c.timers + [Timer(c.nextTimerId, ReconnectDelay(c.reconnectAttempts + 1), c.token)]
            && r.reconnectTimeout == Some(c.nextTimerId) && r.nextTimerId == c.nextTimerId + 1
            && r.reconnectAttempts == c.reconnectAttempts + 1 && r.ws != Open
  {
  }

  /** Clearing the id of the last timer keeps all the earlier ones. */
  lemma ClearLast(ts: seq<Timer>, last: Timer)
    requires forall t :: t in ts ==> t.id != last.id
    ensures Cleared(ts + [last], last.id) == ts
  {
    var keep := (t: Timer) => t.id != last.id;
    Seqs.FilterAppend(ts, [last], keep);
    Seqs.FilterKeepsAll(ts, keep);
  }

  /** The default of `sendMessage`'s `messageType` parameter. */
  const DefaultMessageType: int := 0

  /** `sendMessage`: only an OPEN socket sends, exactly one frame, and the
      answer says whether it did. A caller that omits the message type
      passes `DefaultMessageType`. */
  function SendMessage(c: Channel, sessionId: string, receiveId: string, content: string, messageType: int): (r: (Channel, bool))
    ensures r.1 <==> c.ws == Open
    ensures r.1 ==> r.0 == c.(sent := c.sent + [OutFrame(messageType, content, sessionId, receiveId)])
    ensures !r.1 ==> r.0 == c
  {
    if c.ws != Open then (c, false)
    else (c.(sent := c.sent + [OutFrame(messageType, content, sessionId, receiveId)]), true)
  }

  /** The list after `push(handler)`. */
  function Subscribe(hs: seq<HandlerId>, h: HandlerId): (r: seq<HandlerId>)
    ensures r == hs + [h]
  {
    hs + [h]
  }

  /** The list after the unsubscribe closure: every entry that is `h` goes,
      every other entry stays, in order. */
  function Unsubscribe(hs: seq<HandlerId>, h: HandlerId): (r: seq<HandlerId>)
    ensures h !in r
    ensures forall i :: 0 <= i < |r| ==> r[i] in hs
    ensures forall i :: 0 <= i < |hs| && hs[i] != h ==> hs[i] in r
  {
    Seqs.Filter(hs, (x: HandlerId) => x != h)
  }

  /** Subscribing a new handler and unsubscribing it gives the list back. */
  lemma SubscribeUnsubscribe(hs: seq<HandlerId>, h: HandlerId)
    requires h !in hs
    ensures Unsubscribe(Subscribe(hs, h), h) == hs
  {
    Seqs.FilterAppend(hs, [h], (x: HandlerId) => x != h);
    Seqs.FilterKeepsAll(hs, (x: HandlerId) => x != h);
  }

  function IsConnected(c: Channel): (b: bool)
    ensures b <==> c.ws == Open
  {
    c.ws == Open
  }

  datatype SocketEvent = ConnectCalled(token: string) | SocketOpens | FrameArrives(frame: Option<Incoming>)
                       | SocketCloses | TimerFires(index: nat) | DisconnectCalled

  function Step(c: Channel, e: SocketEvent): Channel {
    match e
    case ConnectCalled(t) => Connect(c, t)
    case SocketOpens => Opened(c)
    case FrameArrives(f) => Received(c, f)
    case SocketCloses => ClosedEvent(c)
    case TimerFires(i) => ReconnectFires(c, i)
    case DisconnectCalled => Disconnect(c)
  }

  function Run(c: Channel, es: seq<SocketEvent>): Channel
    decreases |es|
  {
    if es == [] then c else Run(Step(c, es[0]), es[1..])
  }

  /** The counter stays within the ceiling, and every live timer waits no
      longer than 30 seconds and no less than 2. */
  predicate Inv(c: Channel) {
    c.reconnectAttempts <= MaxReconnectAttempts && TimersOk(c.timers, c.nextTimerId)
  }

  lemma {:induction false} RunInv(c: Channel, es: seq<SocketEvent>)
    requires Inv(c)
    ensures Inv(Run(c, es))
    decreases |es|
  {
    if es != [] {
      RunInv(Step(c, es[0]), es[1..]);
    }
  }

  /** The timer armed last fires, if there is one. */
  function FireLatest(c: Channel): Channel {
    if c.timers == [] then c else ReconnectFires(c, |c.timers| - 1)
  }

  /** Without a successful open in between, closes that are never followed
      by `disconnect` schedule at most five reconnects. */
  lemma {:induction false} ClosesWithoutOpen(c: Channel, k: nat)
    requires c.reconnectAttempts <= MaxReconnectAttempts
    ensures CloseAndRetry(c, k).reconnectAttempts == if c.reconnectAttempts + k <= MaxReconnectAttempts then c.reconnectAttempts + k else MaxReconnectAttempts
    decreases k
  {
    if k > 0 {
      ClosesWithoutOpen(FireLatest(ClosedEvent(c)), k - 1);
    }
  }

  /** `k` rounds of a close followed by the timer it armed firing. */
  function CloseAndRetry(c: Channel, k: nat): Channel
    decreases k
  {
    if k == 0 then c else CloseAndRetry(FireLatest(ClosedEvent(c)), k - 1)
  }

  // ---------------------------------------------- the intended reconnect

  /** `attemptReconnect` as evidently intended: the timer the field holds
      is cleared before the new one is armed. */
  function AttemptReconnectClearing(c: Channel): (r: Channel)
    ensures c.reconnectAttempts < MaxReconnectAttempts ==>
      r.timers == CancelHeld(c) + [Timer(c.nextTimerId, ReconnectDelay(c.reconnectAttempts + 1), c.token)]
      && r.reconnectTimeout == Some(c.nextTimerId)
    ensures c.reconnectAttempts >= MaxReconnectAttempts ==> r == c
  {
    if c.reconnectAttempts >= MaxReconnectAttempts then c else AttemptReconnect(c.(timers := CancelHeld(c)))
  }

  function ClosedEventClearing(c: Channel): Channel {
    AttemptReconnectClearing(Closing(c))
  }

  /** The channel's events with the intended reconnect. */
  function StepClearing(c: Channel, e: SocketEvent): Channel {
    if e.SocketCloses? then ClosedEventClearing(c) else Step(c, e)
  }

  function RunClearing(c: Channel, es: seq<SocketEvent>): Channel
    decreases |es|
  {
    if es == [] then c else RunClearing(StepClearing(c, es[0]), es[1..])
  }

  /** At most one timer is live, and it is the one the field holds. */
  predicate OnlyHeldTimer(c: Channel) {
    |c.timers| <= 1 && (|c.timers| == 1 ==> c.reconnectTimeout == Some(c.timers[0].id))
  }

  lemma HeldCancelledLeavesNone(c: Channel)
    requires OnlyHeldTimer(c)
    ensures CancelHeld(c) == []
  {
  }

  lemma StepClearingKeepsOnlyHeld(c: Channel, e: SocketEvent)
    requires OnlyHeldTimer(c)
    ensures OnlyHeldTimer(StepClearing(c, e))
  {
    if e.SocketCloses? || e.DisconnectCalled? {
      HeldCancelledLeavesNone(c);
      assert CancelHeld(Closing(c)) == CancelHeld(c);
    }
  }

  lemma {:induction false} RunClearingKeepsOnlyHeld(c: Channel, es: seq<SocketEvent>)
    requires OnlyHeldTimer(c)
    ensures OnlyHeldTimer(RunClearing(c, es))
    decreases |es|
  {
    if es != [] {
      StepClearingKeepsOnlyHeld(c, es[0]);
      RunClearingKeepsOnlyHeld(StepClearing(c, es[0]), es[1..]);
    }
  }

  /** With the intended reconnect, after any run from the initial state
      `disconnect` leaves no live timer, the close that follows arms none,
      and so no timer can fire and reconnect. */
  lemma DisconnectStopsReconnectClearing(es: seq<SocketEvent>)
    ensures var d := Disconnect(RunClearing(Initial, es));
            d.timers == [] && ClosedEventClearing(d).timers == []
            && forall i: nat :: ReconnectFires(ClosedEventClearing(d), i) == ClosedEventClearing(d)
  {
    RunClearingKeepsOnlyHeld(Initial, es);
    HeldCancelledLeavesNone(RunClearing(Initial, es));
  }

  lemma DeliveriesAppend(a: seq<HandlerId>, b: seq<HandlerId>, message: string)
    ensures DeliveriesOf(a + b, message) == DeliveriesOf(a, message) + DeliveriesOf(b, message)
  {
  }
}

/** The browser's chat `WebSocketService` object; every method is proved
    to move it as the matching `ChatChannel` transition moves its value. */
module ChatSocket {
  import opened Wrappers
  import opened BrowserSocket
  import C = ChatChannel

  class WebSocketService {
    var ws: SocketState
    var token: string
    var reconnectAttempts: nat
    var reconnectTimeout: Option<nat>
    /** The browser's live reconnect timers, and the id of the next one. */
    var timers: seq<C.Timer>
    var nextTimerId: nat
    var messageHandlers: seq<C.HandlerId>
    var connectHandlers: seq<C.HandlerId>
    var disconnectHandlers: seq<C.HandlerId>
    /** Handler calls made so far. */
    var delivered: seq<C.Delivery>
    var connectCalls: seq<C.HandlerId>
    var disconnectCalls: seq<C.HandlerId>
    /** Frames written to the socket. */
    var sent: seq<C.OutFrame>

    ghost function Model(): C.Channel
      reads this
    {
      C.Channel(ws, token, reconnectAttempts, reconnectTimeout, timers, nextTimerId, messageHandlers, connectHandlers,
              disconnectHandlers, delivered, connectCalls, disconnectCalls, sent)
    }

    constructor()
      ensures Model() == C.Initial
    {
      ws := NoSocket;
      token := "";
      reconnectAttempts := 0;
      reconnectTimeout := None;
      timers := [];
      nextTimerId := 1;
      messageHandlers := [];
      connectHandlers := [];
      disconnectHandlers := [];
      delivered := [];
      connectCalls := [];
      disconnectCalls := [];
      sent := [];
    }

    method Connect(t: string)
      modifies this
      ensures Model() == C.Connect(old(Model()), t)
    {
      if ws == Open {
        return;
      }
      token := t;
      ws := Connecting;
    }

    method OnOpen()
      modifies this
      ensures Model() == C.Opened(old(Model()))
    {
      if ws != Connecting {
        return;
      }
      ws := Open;
      reconnectAttempts := 0;
      connectCalls := connectCalls + connectHandlers;
    }

    /** Runs every message handler, in subscription order, for a frame of
        type 'message'. */
    method OnMessage(frame: Option<C.Incoming>)
      modifies this
      ensures Model() == C.Received(old(Model()), frame)
    {
      if frame.None? || frame.value.kind != "message" {
        return;
      }
      var message := frame.value.data;
      var handlers := messageHandlers;
      var log := delivered;
      for i := 0 to |handlers|
        modifies {}
        invariant log == old(delivered) + C.DeliveriesOf(handlers[..i], message)
      {
        log := log + [C.Delivery(handlers[i], message)];
        assert handlers[..i + 1] == handlers[..i] + [handlers[i]];
        C.DeliveriesAppend(handlers[..i], [handlers[i]], message);
      }
      assert handlers[..|handlers|] == handlers;
      delivered := log;
    }

    method AttemptReconnect()
      modifies this
      ensures Model() == C.AttemptReconnect(old(Model()))
    {
      if reconnectAttempts >= C.MaxReconnectAttempts {
        return;
      }
      reconnectAttempts := reconnectAttempts + 1;
      var delay := C.ReconnectDelay(reconnectAttempts);
      timers := timers + [C.Timer(nextTimerId, delay, token)];
      reconnectTimeout := Some(nextTimerId);
      nextTimerId := nextTimerId + 1;
    }

    method OnClose()
      modifies this
      ensures Model() == C.ClosedEvent(old(Model()))
    {
      if ws != NoSocket {
        ws := Closed;
      }
      disconnectCalls := disconnectCalls + disconnectHandlers;
      AttemptReconnect();
    }

    /** The live timer at position `i` fires. */
    method ReconnectTimerFires(i: nat)
      modifies this
      ensures Model() == C.ReconnectFires(old(Model()), i)
    {
      if i >= |timers| {
        return;
      }
      var timer := timers[i];
      timers := timers[..i] + timers[i + 1..];
      Connect(timer.token);
    }

    method Disconnect()
      modifies this
      ensures Model() == C.Disconnect(old(Model()))
    {
      if reconnectTimeout.Some? {
        timers := C.Cleared(timers, reconnectTimeout.value);
        reconnectTimeout := None;
      }
      reconnectAttempts := C.MaxReconnectAttempts;
      if ws != NoSocket {
        ws := NoSocket;
      }
    }

    method SendMessage(sessionId: string, receiveId: string, content: string, messageType: int) returns (ok: bool)
      modifies this
      ensures (Model(), ok) == C.SendMessage(old(Model()), sessionId, receiveId, content, messageType)
    {
      if ws != Open {
        return false;
      }
      sent := sent + [C.OutFrame(messageType, content, sessionId, receiveId)];
      return true;
    }

    method OnMessageHandler(h: C.HandlerId)
      modifies this
      ensures Model() == old(Model()).(messageHandlers := C.Subscribe(old(messageHandlers), h))
    {
      messageHandlers := messageHandlers + [h];
    }

    method RemoveMessageHandler(h: C.HandlerId)
      modifies this
      ensures Model() == old(Model()).(messageHandlers := C.Unsubscribe(old(messageHandlers), h))
    {
      messageHandlers := C.Unsubscribe(messageHandlers, h);
    }

    method OnConnectHandler(h: C.HandlerId)
      modifies this
      ensures Model() == old(Model()).(connectHandlers := C.Subscribe(old(connectHandlers), h))
    {
      connectHandlers := connectHandlers + [h];
    }

    method RemoveConnectHandler(h: C.HandlerId)
      modifies this
      ensures Model() == old(Model()).(connectHandlers := C.Unsubscribe(old(connectHandlers), h))
    {
      connectHandlers := C.Unsubscribe(connectHandlers, h);
    }

    method OnDisconnectHandler(h: C.HandlerId)
      modifies this
      ensures Model() == old(Model()).(disconnectHandlers := C.Subscribe(old(disconnectHandlers), h))
    {
      disconnectHandlers := disconnectHandlers + [h];
    }

    method RemoveDisconnectHandler(h: C.HandlerId)
      modifies this
      ensures Model() == old(Model()).(disconnectHandlers := C.Unsubscribe(old(disconnectHandlers), h))
    {
      disconnectHandlers := C.Unsubscribe(disconnectHandlers, h);
    }

    method IsConnected() returns (b: bool)
      ensures b == C.IsConnected(Model())
    {
      b := ws == Open;
    }
  }

}
