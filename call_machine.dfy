/** The call-signalling state of the browser's WebRTC service as a value,
    and every handler of the service as a transition on that value.

    Browser objects are abstract: the signalling socket is its ready state,
    the peer connection is its signalling state, whether it holds a remote
    description, its ICE state and the candidates it has accepted; the local
    media stream is two tracks with an enabled and an ended flag. Awaited
    browser calls that may fail (getUserMedia, createOffer/createAnswer with
    setLocalDescription, setRemoteDescription) are boolean outcome
    parameters. Timers are counters of callbacks still to run, fired by
    explicit events. Envelopes written to an OPEN socket are appended to
    `sent`. */
module CallMachine {
  import opened Wrappers
  import opened BrowserSocket
  import Seqs

  /** `RTCPeerConnection.signalingState`. */
  datatype SignalingState = Stable | HaveLocalOffer | HaveRemoteOffer | HaveLocalPranswer | HaveRemotePranswer | SignalingClosed

  /** `RTCPeerConnection.iceConnectionState`. */
  datatype IceState = IceNew | IceChecking | IceConnected | IceCompleted | IceDisconnected | IceFailed | IceClosed

  /** `RTCPeerConnection.connectionState`. */
  datatype ConnectionState = ConnNew | ConnConnecting | ConnConnected | ConnDisconnected | ConnFailed | ConnClosed

  /** An ICE candidate; `accepted` is the browser's verdict in `addIceCandidate`. */
  datatype Candidate = Candidate(sdp: string, accepted: bool)

  datatype Peer = Peer(signaling: SignalingState, hasRemoteDescription: bool, ice: IceState, applied: seq<Candidate>)

  /** The local stream: an audio and a video track. */
  datatype Media = Media(audioEnabled: bool, videoEnabled: bool, audioEnded: bool, videoEnded: bool)

  datatype TrackKind = Audio | Video

  /** `callTimeoutId`: null, a live 30-second timer, or the id of a timer
      whose callback has already run. */
  datatype CallTimer = NoTimer | Armed | Expired

  datatype IceServer = IceServer(urls: string, username: string, credential: string)

  /** The `type` field of a signalling envelope; `Unknown` is any other text. */
  datatype Kind = CallRequest | CallAccepted | CallRejected | CallEnded | Offer | Answer | IceCandidateMsg | Unknown

  datatype Payload = NoPayload | Description | CandidatePayload(candidate: Candidate)

  /** A signalling envelope; `to` is absent where the code sends `remoteUserId!`
      while it is null. */
  datatype Envelope = Envelope(kind: Kind, from: string, to: Option<string>, payload: Payload)

  /** The outcomes of the awaited browser steps of one handler. */
  datatype Steps = Steps(media: bool, remote: bool, local: bool)

  /** The snapshot returned by `getState`. */
  datatype CallState = CallState(isInCall: bool, isCalling: bool, isReceivingCall: bool,
                                 remoteUserId: Option<string>, hasLocalStream: bool, hasRemoteStream: bool)

  datatype Machine = Machine(
    socket: SocketState,
    currentUserId: string,
    iceServers: seq<IceServer>,
    remoteUserId: Option<string>,
    isInCall: bool,
    isCalling: bool,
    isReceivingCall: bool,
    localStream: Option<Media>,
    remoteStream: bool,
    peer: Option<Peer>,
    pending: seq<Candidate>,
    callTimeout: CallTimer,
    iceRestartAttempts: nat,
    iceRechecks: nat,
    restartRetries: nat,
    sent: seq<Envelope>)

  const MaxIceRestartAttempts: nat := 3
  const CallTimeoutMs: nat := 30000
  const IceRestartDelayMs: nat := 2000

  const DefaultIceServers: seq<IceServer> :=
    [IceServer("stun:stun.l.google.com:19302", "", ""), IceServer("stun:stun1.l.google.com:19302", "", "")]

  const FreshMedia: Media := Media(true, true, false, false)
  const FreshPeer: Peer := Peer(Stable, false, IceNew, [])

  /** A fresh service: no socket, no call. */
  const Initial: Machine :=
    Machine(NoSocket, "", DefaultIceServers, None, false, false, false, None, false, None, [],
            NoTimer, 0, 0, 0, [])

  /** JavaScript truthiness of `remoteUserId`: null and "" are false. */
  predicate Truthy(id: Option<string>) {
    id.Some? && id.value != ""
  }

  /** No call in any phase and nothing held for one. */
  predicate Idle(m: Machine) {
    !m.isInCall && !m.isCalling && !m.isReceivingCall && m.remoteUserId.None?
    && m.localStream.None? && !m.remoteStream && m.peer.None? && m.pending == []
    && m.iceRestartAttempts == 0 && m.callTimeout == NoTimer
  }

  /** What the call handlers never touch: the connection, the identity, the
      ICE configuration and the ICE timers already scheduled. */
  predicate SameConnection(m: Machine, r: Machine) {
    r.socket == m.socket && r.currentUserId == m.currentUserId && r.iceServers == m.iceServers
    && r.iceRechecks == m.iceRechecks && r.restartRetries == m.restartRetries
  }

  predicate Busy(m: Machine) {
    m.isInCall || m.isCalling || m.isReceivingCall
  }

  // ---------------------------------------------------------------------
  // Private helpers of the service

  /** `sendSignaling`: written to the socket only when it is OPEN. */
  function Send(m: Machine, e: Envelope): (r: Machine)
    ensures m.socket == Open ==> r.sent == m.sent + [e]
    ensures m.socket != Open ==> r == m
    ensures r.(sent := m.sent) == m
  {
    if m.socket == Open then m.(sent := m.sent + [e]) else m
  }

  function ClearCallTimeout(m: Machine): (r: Machine)
    ensures r.callTimeout == NoTimer
    ensures r.(callTimeout := m.callTimeout) == m
  {
    m.(callTimeout := NoTimer)
  }

  /** `cleanup`: stop the media, close the peer connection and reset every
      call field; nothing is sent. */
  function Cleanup(m: Machine): (r: Machine)
    ensures Idle(r)
    ensures SameConnection(m, r) && r.sent == m.sent
  {
    m.(callTimeout := NoTimer, localStream := None, peer := None, remoteStream := false,
       remoteUserId := None, isInCall := false, isCalling := false, isReceivingCall := false,
       pending := [], iceRestartAttempts := 0)
  }

  /** Cleaning up an idle service changes nothing. */
  lemma CleanupIdle(m: Machine)
    requires Idle(m)
    ensures Cleanup(m) == m
  {
  }

  /** `flushPendingIceCandidates`: every queued candidate is offered to the
      peer connection in arrival order; the ones it refuses are skipped, and
      the queue is emptied. Without a peer connection nothing happens. */
  function Flush(m: Machine): (r: Machine)
    ensures m.peer.None? ==> r == m
    ensures m.peer.Some? ==>
      (r.peer.Some? && r.pending == []
       && r.peer.value == m.peer.value.(applied := m.peer.value.applied + AcceptedOf(m.pending))
       && r.(pending := m.pending, peer := m.peer) == m)
  {
    if m.peer.None? then m
    else m.(peer := Some(m.peer.value.(applied := m.peer.value.applied + AcceptedOf(m.pending))), pending := [])
  }

  /** The candidates a peer connection accepts out of `cs`, in order. */
  function AcceptedOf(cs: seq<Candidate>): (r: seq<Candidate>)
    ensures |r| <= |cs|
    ensures forall i :: 0 <= i < |r| ==> r[i].accepted && r[i] in cs
    ensures forall i :: 0 <= i < |cs| && cs[i].accepted ==> cs[i] in r
  {
    Seqs.Filter(cs, (c: Candidate) => c.accepted)
  }

  lemma AcceptedOfAppend(a: seq<Candidate>, b: seq<Candidate>)
    ensures AcceptedOf(a + b) == AcceptedOf(a) + AcceptedOf(b)
  {
    Seqs.FilterAppend(a, b, (c: Candidate) => c.accepted);
  }

  /** One more queued candidate adds itself to the accepted ones exactly
      when it is accepted. */
  lemma AcceptedOfSnoc(q: seq<Candidate>, i: nat)
    requires i < |q|
    ensures AcceptedOf(q[..i + 1]) == AcceptedOf(q[..i]) + (if q[i].accepted then [q[i]] else [])
  {
    assert q[..i + 1] == q[..i] + [q[i]];
    AcceptedOfAppend(q[..i], [q[i]]);
    assert [q[i]][1..] == [];
  }

  // ---------------------------------------------------------------------
  // User intents

  /** `initiateCall`: refused without an OPEN socket or while any call flag
      is set; otherwise mark the call outgoing, acquire the media, send one
      call-request and arm the unanswered-call timer. Failing to get media
      cleans up and sends nothing. */
  function InitiateCall(m: Machine, target: string, mediaOk: bool): (r: Machine)
    ensures m.socket != Open || Busy(m) ==> r == m
    ensures m.socket == Open && !Busy(m) && mediaOk ==>
      r.isCalling && !r.isInCall && !r.isReceivingCall && r.remoteUserId == Some(target)
      && r.sent == m.sent + [Envelope(CallRequest, m.currentUserId, Some(target), NoPayload)]
      && r.callTimeout == Armed && r.localStream == Some(FreshMedia)
      && r.peer == m.peer && r.pending == m.pending && SameConnection(m, r)
      && r.remoteStream == m.remoteStream && r.iceRestartAttempts == m.iceRestartAttempts
    ensures m.socket == Open && !Busy(m) && !mediaOk ==> Idle(r) && r.sent == m.sent && SameConnection(m, r)
  {
    if m.socket != Open then m
    else if Busy(m) then m
    else
      var calling := m.(remoteUserId := Some(target), isCalling := true);
      if !mediaOk then Cleanup(calling)
      else
        var withMedia := calling.(localStream := Some(FreshMedia));
        var requested := Send(withMedia, Envelope(CallRequest, m.currentUserId, Some(target), NoPayload));
        StartCallTimeout(requested)
  }

  function StartCallTimeout(m: Machine): (r: Machine)
    ensures r.callTimeout == Armed
    ensures r.(callTimeout := m.callTimeout) == m
  {
    ClearCallTimeout(m).(callTimeout := Armed)
  }

  /** `acceptCall`: without an OPEN socket the call is torn down; when no
      call is ringing nothing happens; with no caller id the call is torn
      down; otherwise ringing stops, media is acquired and one call-accepted
      goes to the caller (media failure cleans up). */
  function AcceptCall(m: Machine, mediaOk: bool): (r: Machine)
    ensures m.socket != Open ==> r == Cleanup(m)
    ensures m.socket == Open && !m.isReceivingCall ==> r == m
    ensures m.socket == Open && m.isReceivingCall && !Truthy(m.remoteUserId) ==> Idle(r) && r.sent == m.sent
    ensures m.socket == Open && m.isReceivingCall && Truthy(m.remoteUserId) && mediaOk ==>
      !r.isReceivingCall && r.isInCall == m.isInCall && r.isCalling == m.isCalling
      && r.remoteUserId == m.remoteUserId && r.localStream == Some(FreshMedia)
      && r.sent == m.sent + [Envelope(CallAccepted, m.currentUserId, m.remoteUserId, NoPayload)]
      && r.(isReceivingCall := m.isReceivingCall, localStream := m.localStream, sent := m.sent) == m
    ensures m.socket == Open && m.isReceivingCall && Truthy(m.remoteUserId) && !mediaOk ==>
      Idle(r) && r.sent == m.sent
    ensures SameConnection(m, r)
  {
    if m.socket != Open then Cleanup(m)
    else if !m.isReceivingCall then m
    else if !Truthy(m.remoteUserId) then Cleanup(m)
    else
      var target := m.remoteUserId.value;
      var answered := m.(isReceivingCall := false);
      if !mediaOk then Cleanup(answered)
      else
        Send(answered.(localStream := Some(FreshMedia)),
             Envelope(CallAccepted, m.currentUserId, Some(target), NoPayload))
  }

  /** `rejectCall`: one call-rejected to the caller when there is one, then
      cleanup. */
  function RejectCall(m: Machine): (r: Machine)
    ensures Idle(r) && SameConnection(m, r)
    ensures r.sent == m.sent + (if Truthy(m.remoteUserId) && m.socket == Open
                                then [Envelope(CallRejected, m.currentUserId, m.remoteUserId, NoPayload)]
                                else [])
  {
    if !Truthy(m.remoteUserId) then Cleanup(m)
    else Cleanup(Send(m, Envelope(CallRejected, m.currentUserId, m.remoteUserId, NoPayload)))
  }

  /** `endCall` (also `handleCallTimeout`, whose body is the same): one
      call-ended to the peer when there is one, then cleanup. */
  function EndCall(m: Machine): (r: Machine)
    ensures Idle(r) && SameConnection(m, r)
    ensures r.sent == m.sent + (if Truthy(m.remoteUserId) && m.socket == Open
                                then [Envelope(CallEnded, m.currentUserId, m.remoteUserId, NoPayload)]
                                else [])
  {
    if Truthy(m.remoteUserId) then Cleanup(Send(m, Envelope(CallEnded, m.currentUserId, m.remoteUserId, NoPayload)))
    else Cleanup(m)
  }

  /** A second consecutive endCall sends nothing and changes nothing. */
  lemma EndCallTwice(m: Machine)
    ensures EndCall(EndCall(m)) == EndCall(m)
    ensures |EndCall(m).sent| <= |m.sent| + 1
  {
    CleanupIdle(EndCall(m));
  }

  /** `handleRemoteCallEnded`: cleanup without sending anything back. */
  function RemoteCallEnded(m: Machine): (r: Machine)
    ensures Idle(r) && SameConnection(m, r) && r.sent == m.sent
  {
    Cleanup(m)
  }

  // ---------------------------------------------------------------------
  // Call set-up steps triggered by signalling

  /** `startCall` (on call-accepted): get media if there is none, create a
      NEW peer connection, create and set the local offer, send it to the
      remote user and enter the call; any failed step cleans up. */
  function StartCall(m: Machine, steps: Steps): (r: Machine)
    ensures (m.localStream.None? && !steps.media) || !steps.local ==> Idle(r) && r.sent == m.sent && SameConnection(m, r)
    ensures (m.localStream.Some? || steps.media) && steps.local ==>
      r.isInCall && !r.isCalling && r.isReceivingCall == m.isReceivingCall
      && r.remoteUserId == m.remoteUserId && r.localStream.Some?
      && r.peer == Some(FreshPeer.(signaling := HaveLocalOffer))
      && r.pending == m.pending && r.callTimeout == m.callTimeout && SameConnection(m, r)
      && r.remoteStream == m.remoteStream && r.iceRestartAttempts == m.iceRestartAttempts
      && r.sent == m.sent + (if m.socket == Open then [Envelope(Offer, m.currentUserId, m.remoteUserId, Description)] else [])
  {
    if m.localStream.None? && !steps.media then Cleanup(m)
    else OfferCall(if m.localStream.None? then m.(localStream := Some(FreshMedia)) else m, steps)
  }

  /** The rest of `startCall`, once there is local media: a new peer
      connection, the local offer, sent, and the call entered. */
  function OfferCall(w: Machine, steps: Steps): (r: Machine)
    requires w.localStream.Some?
    ensures !steps.local ==> Idle(r) && r.sent == w.sent && SameConnection(w, r)
    ensures steps.local ==>
      r.isInCall && !r.isCalling && r.isReceivingCall == w.isReceivingCall
      && r.remoteUserId == w.remoteUserId && r.localStream == w.localStream
      && r.peer == Some(FreshPeer.(signaling := HaveLocalOffer))
      && r.pending == w.pending && r.callTimeout == w.callTimeout && SameConnection(w, r)
      && r.remoteStream == w.remoteStream && r.iceRestartAttempts == w.iceRestartAttempts
      && r.sent == w.sent + (if w.socket == Open then [Envelope(Offer, w.currentUserId, w.remoteUserId, Description)] else [])
  {
    var connected := w.(peer := Some(FreshPeer));
    if !steps.local then Cleanup(connected)
    else
      var offered := connected.(peer := Some(FreshPeer.(signaling := HaveLocalOffer)));
      Send(offered, Envelope(Offer, w.currentUserId, w.remoteUserId, Description)).(isInCall := true, isCalling := false)
  }

  /** The peer connection `handleOffer` works on: the existing one, or a
      new one when there is none. */
  function OfferPeer(m: Machine): Peer {
    if m.peer.Some? then m.peer.value else FreshPeer
  }

  /** The signalling states in which `handleOffer` takes an offer. */
  predicate TakesOffer(p: Peer) {
    p.signaling == Stable || p.signaling == HaveLocalOffer
  }

  /** `handleOffer`: get media if there is none (a failure stops here and
      changes nothing), create a peer connection if there is none, and act
      only in signalling state stable or have-local-offer: set the remote
      description, flush the queued candidates, create and set the answer,
      send it and enter the call. A failed step stops where it is; no call
      flag is ever read. */
  function HandleOffer(m: Machine, steps: Steps): (r: Machine)
    ensures m.localStream.None? && !steps.media ==> r == m
    ensures r.isCalling == m.isCalling && r.isReceivingCall == m.isReceivingCall
      && r.remoteUserId == m.remoteUserId && r.callTimeout == m.callTimeout
      && r.iceRestartAttempts == m.iceRestartAttempts && SameConnection(m, r)
    ensures (m.localStream.Some? || steps.media) ==> r.localStream.Some? && r.peer.Some?
    ensures m.peer.Some? && m.peer.value.signaling !in {Stable, HaveLocalOffer} ==>
      r.isInCall == m.isInCall && r.peer == m.peer && r.pending == m.pending && r.sent == m.sent
    ensures r.isInCall != m.isInCall ==>
      (r.isInCall && r.pending == []
       && r.peer.Some? && r.peer.value.signaling == Stable && r.peer.value.hasRemoteDescription)
    ensures r.sent == m.sent || r.sent == m.sent + [Envelope(Answer, m.currentUserId, m.remoteUserId, Description)]
    ensures (m.localStream.Some? || steps.media) && (!TakesOffer(OfferPeer(m)) || !steps.remote) ==>
      r == Prepared(m)
    ensures (m.localStream.Some? || steps.media) && TakesOffer(OfferPeer(m)) && steps.remote && !steps.local ==>
      r == Prepared(m).(peer := Some(OfferApplied(OfferPeer(m), m.pending)), pending := [])
    ensures (m.localStream.Some? || steps.media) && TakesOffer(OfferPeer(m)) && steps.remote && steps.local ==>
      r == Prepared(m).(peer := Some(OfferApplied(OfferPeer(m), m.pending).(signaling := Stable)), pending := [],
                        sent := m.sent + AnswerSent(m), isInCall := true)
  {
    if m.localStream.None? && !steps.media then m
    else AnswerOffer(Prepared(m), steps)
  }

  /** The state `handleOffer` reaches before it looks at the offer: local
      media, acquired if there was none, and a peer connection, created if
      there was none. */
  function Prepared(m: Machine): (r: Machine)
    ensures r.peer == Some(OfferPeer(m)) && r.localStream.Some?
    ensures m.localStream.Some? ==> r.localStream == m.localStream
    ensures r.(localStream := m.localStream, peer := m.peer) == m
  {
    var withMedia := if m.localStream.None? then m.(localStream := Some(FreshMedia)) else m;
    if withMedia.peer.None? then withMedia.(peer := Some(FreshPeer)) else withMedia
  }

  /** The peer connection once the offer is its remote description and the
      queued candidates have been offered to it. */
  function OfferApplied(p: Peer, pending: seq<Candidate>): Peer {
    p.(signaling := HaveRemoteOffer, hasRemoteDescription := true, applied := p.applied + AcceptedOf(pending))
  }

  /** What `sendSignaling` writes for the answer: one envelope to the remote
      user over an OPEN socket, nothing otherwise. */
  function AnswerSent(m: Machine): seq<Envelope> {
    if m.socket == Open then [Envelope(Answer, m.currentUserId, m.remoteUserId, Description)] else []
  }

  /** The part of `handleOffer` after the peer connection exists: the
      signalling-state guard, then remote description, flush and answer. */
  function AnswerOffer(w: Machine, steps: Steps): (r: Machine)
    requires w.peer.Some?
    ensures !TakesOffer(w.peer.value) || !steps.remote ==> r == w
    ensures TakesOffer(w.peer.value) && steps.remote && !steps.local ==>
      r == w.(peer := Some(OfferApplied(w.peer.value, w.pending)), pending := [])
    ensures TakesOffer(w.peer.value) && steps.remote && steps.local ==>
      r == w.(peer := Some(OfferApplied(w.peer.value, w.pending).(signaling := Stable)), pending := [],
              sent := w.sent + AnswerSent(w), isInCall := true)
    ensures r.peer.Some? && r.localStream == w.localStream
    ensures r.isCalling == w.isCalling && r.isReceivingCall == w.isReceivingCall
      && r.remoteUserId == w.remoteUserId && r.callTimeout == w.callTimeout
      && r.iceRestartAttempts == w.iceRestartAttempts && SameConnection(w, r)
    ensures r.isInCall != w.isInCall ==>
      (r.isInCall && r.pending == []
       && r.peer.value.signaling == Stable && r.peer.value.hasRemoteDescription)
    ensures r.sent == w.sent || r.sent == w.sent + [Envelope(Answer, w.currentUserId, w.remoteUserId, Description)]
  {
    var p := w.peer.value;
    if !TakesOffer(p) then w
    else if !steps.remote then w
    else
      var described := Flush(w.(peer := Some(p.(signaling := HaveRemoteOffer, hasRemoteDescription := true))));
      if !steps.local then described
      else
        var q := described.peer.value;
        var answered := described.(peer := Some(q.(signaling := Stable)));
        Send(answered, Envelope(Answer, w.currentUserId, w.remoteUserId, Description)).(isInCall := true)
  }

  /** The callee's side of a call: accepting a ringing call and then taking
      the caller's offer, with every browser step succeeding, puts the
      callee in the call on a stable peer connection that has applied the
      queued candidates, having sent exactly a call-accepted and an answer. */
  lemma AcceptThenOfferAnswers(m: Machine)
    requires m.socket == Open && m.isReceivingCall && Truthy(m.remoteUserId) && m.peer.None?
    ensures var r := HandleOffer(AcceptCall(m, true), Steps(true, true, true));
      r.isInCall && !r.isReceivingCall && r.pending == [] && r.remoteUserId == m.remoteUserId
      && r.peer == Some(Peer(Stable, true, IceNew, AcceptedOf(m.pending)))
      && r.sent == m.sent + [Envelope(CallAccepted, m.currentUserId, m.remoteUserId, NoPayload),
                             Envelope(Answer, m.currentUserId, m.remoteUserId, Description)]
  {
    var a := AcceptCall(m, true);
    assert a.peer.None? && a.pending == m.pending && a.localStream.Some?;
    assert OfferPeer(a).applied + AcceptedOf(a.pending) == AcceptedOf(m.pending);
  }

  /** `handleAnswer`: acted on only with a peer connection in
      have-local-offer; then the remote description is set and the queued
      candidates are flushed. Nothing is sent and no call flag changes. */
  function HandleAnswer(m: Machine, remoteOk: bool): (r: Machine)
    ensures m.peer.None? || m.peer.value.signaling != HaveLocalOffer || !remoteOk ==> r == m
    ensures m.peer.Some? && m.peer.value.signaling == HaveLocalOffer && remoteOk ==>
      r.peer.Some? && r.peer.value.signaling == Stable && r.peer.value.hasRemoteDescription && r.pending == []
    ensures m.peer.Some? && m.peer.value.signaling == HaveLocalOffer && remoteOk ==>
      r == m.(peer := Some(m.peer.value.(signaling := Stable, hasRemoteDescription := true,
                                         applied := m.peer.value.applied + AcceptedOf(m.pending))),
              pending := [])
    ensures r.sent == m.sent && r.isInCall == m.isInCall && r.isCalling == m.isCalling
      && r.isReceivingCall == m.isReceivingCall && r.remoteUserId == m.remoteUserId && SameConnection(m, r)
  {
    if m.peer.None? then m
    else if m.peer.value.signaling != HaveLocalOffer then m
    else if !remoteOk then m
    else Flush(m.(peer := Some(m.peer.value.(signaling := Stable, hasRemoteDescription := true))))
  }

  /** `handleIceCandidate`: queued while there is no peer connection or it
      has no remote description, otherwise offered to it directly. */
  function HandleIceCandidate(m: Machine, c: Candidate): (r: Machine)
    ensures m.peer.None? || !m.peer.value.hasRemoteDescription ==> r == m.(pending := m.pending + [c])
    ensures m.peer.Some? && m.peer.value.hasRemoteDescription ==>
      r.pending == m.pending && r.peer.Some?
      && r.peer.value.applied == m.peer.value.applied + (if c.accepted then [c] else [])
      && r.(peer := m.peer) == m
  {
    if m.peer.None? || !m.peer.value.hasRemoteDescription then m.(pending := m.pending + [c])
    else
      var p := m.peer.value;
      m.(peer := Some(p.(applied := p.applied + (if c.accepted then [c] else []))))
  }

  /** The candidate in an incoming ice-candidate envelope; a missing or
      malformed payload is one the browser refuses. */
  function CandidateOf(p: Payload): Candidate {
    if p.CandidatePayload? then p.candidate else Candidate("", false)
  }

  /** `handleSignalingMessage`: dispatch on the envelope type. A call-request
      is taken whatever the current state: it sets ringing and overwrites
      the remote user. */
  function HandleSignalingMessage(m: Machine, d: Envelope, steps: Steps): (r: Machine)
    ensures d.kind == CallRequest ==> r == m.(isReceivingCall := true, remoteUserId := Some(d.from))
    ensures d.kind == CallRejected || d.kind == CallEnded ==> Idle(r) && r.sent == m.sent
    ensures d.kind == CallAccepted ==> r.callTimeout == NoTimer
    ensures d.kind == CallAccepted && (m.localStream.Some? || steps.media) && steps.local ==>
      r.isInCall && !r.isCalling && r.remoteUserId == m.remoteUserId
      && r.peer == Some(FreshPeer.(signaling := HaveLocalOffer)) && r.pending == m.pending
      && r.sent == m.sent + (if m.socket == Open then [Envelope(Offer, m.currentUserId, m.remoteUserId, Description)] else [])
    ensures d.kind == CallAccepted && ((m.localStream.None? && !steps.media) || !steps.local) ==>
      Idle(r) && r.sent == m.sent
    ensures d.kind == Offer ==> r == HandleOffer(m, steps)
    ensures d.kind == Answer ==> r == HandleAnswer(m, steps.remote)
    ensures d.kind == IceCandidateMsg ==> r == HandleIceCandidate(m, CandidateOf(d.payload))
    ensures d.kind == IceCandidateMsg && (m.peer.None? || !m.peer.value.hasRemoteDescription) ==>
      r == m.(pending := m.pending + [CandidateOf(d.payload)])
    ensures d.kind == Unknown ==> r == m
    ensures SameConnection(m, r)
  {
    match d.kind
    case CallRequest => m.(isReceivingCall := true, remoteUserId := Some(d.from))
    case CallAccepted => StartCall(ClearCallTimeout(m), steps)
    case CallRejected => RemoteCallEnded(ClearCallTimeout(m))
    case CallEnded => RemoteCallEnded(m)
    case Offer => HandleOffer(m, steps)
    case Answer => HandleAnswer(m, steps.remote)
    case IceCandidateMsg => HandleIceCandidate(m, CandidateOf(d.payload))
    case Unknown => m
  }

  // ---------------------------------------------------------------------
  // Timers and browser callbacks

  /** The unanswered-call timer fires: only a live timer runs, and it ends
      the call only while still calling. */
  function CallTimeoutFires(m: Machine): (r: Machine)
    ensures m.callTimeout != Armed ==> r == m
    ensures m.callTimeout == Armed && m.isCalling ==> r == EndCall(m)
    ensures m.callTimeout == Armed && !m.isCalling ==> r == m.(callTimeout := Expired)
  {
    if m.callTimeout != Armed then m
    else
      var fired := m.(callTimeout := Expired);
      if fired.isCalling then EndCall(fired) else fired
  }

  /** `attemptIceRestart`: only with a peer connection during a call; at the
      ceiling the call is ended instead; otherwise the counter is raised and
      a restart offer is sent, or, when creating it fails, a retry is
      scheduled below the ceiling and the call is ended at it. */
  function AttemptIceRestart(m: Machine, ok: bool): (r: Machine)
    ensures m.peer.None? || !m.isInCall ==> r == m
    ensures m.peer.Some? && m.isInCall && m.iceRestartAttempts >= MaxIceRestartAttempts ==> r == EndCall(m)
    ensures m.peer.Some? && m.isInCall && m.iceRestartAttempts < MaxIceRestartAttempts && ok ==>
      r.iceRestartAttempts == m.iceRestartAttempts + 1 && r.isInCall
      && r.peer == Some(m.peer.value.(signaling := HaveLocalOffer))
      && r.sent == m.sent + (if m.socket == Open then [Envelope(Offer, m.currentUserId, m.remoteUserId, Description)] else [])
      && r.(iceRestartAttempts := m.iceRestartAttempts, peer := m.peer, sent := m.sent) == m
    ensures m.peer.Some? && m.isInCall && m.iceRestartAttempts + 1 < MaxIceRestartAttempts && !ok ==>
      r == m.(iceRestartAttempts := m.iceRestartAttempts + 1, restartRetries := m.restartRetries + 1)
    ensures m.peer.Some? && m.isInCall && m.iceRestartAttempts + 1 == MaxIceRestartAttempts && !ok ==>
      Idle(r) && r == EndCall(m)
  {
    if m.peer.None? || !m.isInCall then m
    else if m.iceRestartAttempts >= MaxIceRestartAttempts then EndCall(m)
    else
      var counted := m.(iceRestartAttempts := m.iceRestartAttempts + 1);
      if ok then
        var restarted := counted.(peer := Some(counted.peer.value.(signaling := HaveLocalOffer)));
        Send(restarted, Envelope(Offer, m.currentUserId, m.remoteUserId, Description))
      else if counted.iceRestartAttempts < MaxIceRestartAttempts then
        counted.(restartRetries := counted.restartRetries + 1)
      else EndCall(counted)
  }

  /** `handleIceConnectionStateChange`: disconnected schedules a recheck,
      failed restarts, connected and completed reset the restart counter. */
  function IceStateChanged(m: Machine, s: IceState, restartOk: bool): (r: Machine)
    ensures m.peer.None? ==> r == m
    ensures m.peer.Some? && (s == IceConnected || s == IceCompleted) ==> r.iceRestartAttempts == 0 && r.isInCall == m.isInCall
    ensures m.peer.Some? && s == IceDisconnected ==> r.iceRechecks == m.iceRechecks + 1 && r.peer.Some? && r.peer.value.ice == s
    ensures m.peer.Some? && s == IceDisconnected ==>
      r == m.(peer := Some(m.peer.value.(ice := s)), iceRechecks := m.iceRechecks + 1)
    ensures m.peer.Some? && s == IceFailed ==> r == AttemptIceRestart(m.(peer := Some(m.peer.value.(ice := s))), restartOk)
    ensures m.peer.Some? && (s == IceConnected || s == IceCompleted) ==>
      r == m.(peer := Some(m.peer.value.(ice := s)), iceRestartAttempts := 0)
    ensures m.peer.Some? && (s == IceNew || s == IceChecking || s == IceClosed) ==> r == m.(peer := Some(m.peer.value.(ice := s)))
  {
    if m.peer.None? then m
    else
      var seen := m.(peer := Some(m.peer.value.(ice := s)));
      match s
      case IceDisconnected => seen.(iceRechecks := seen.iceRechecks + 1)
      case IceFailed => AttemptIceRestart(seen, restartOk)
      case IceConnected => seen.(iceRestartAttempts := 0)
      case IceCompleted => seen.(iceRestartAttempts := 0)
      case _ => seen
  }

  /** The 2-second recheck after a disconnect: restart if the current peer
      connection is still disconnected. */
  function IceRecheckFires(m: Machine, restartOk: bool): (r: Machine)
    ensures m.iceRechecks == 0 ==> r == m
    ensures m.iceRechecks > 0 && (m.peer.None? || m.peer.value.ice != IceDisconnected) ==>
      r == m.(iceRechecks := m.iceRechecks - 1)
    ensures m.iceRechecks > 0 && m.peer.Some? && m.peer.value.ice == IceDisconnected ==>
      r == AttemptIceRestart(m.(iceRechecks := m.iceRechecks - 1), restartOk)
  {
    if m.iceRechecks == 0 then m
    else
      var fired := m.(iceRechecks := m.iceRechecks - 1);
      if fired.peer.Some? && fired.peer.value.ice == IceDisconnected then AttemptIceRestart(fired, restartOk)
      else fired
  }

  /** `k` ICE failures in a row, each restart offer created successfully. */
  function FailTimes(m: Machine, k: nat): Machine
    decreases k
  {
    if k == 0 then m else FailTimes(IceStateChanged(m, IceFailed, true), k - 1)
  }

  /** Once idle, ICE failures have nothing to act on. */
  lemma {:induction false} FailTimesIdle(m: Machine, k: nat)
    requires Idle(m)
    ensures FailTimes(m, k) == m
    decreases k
  {
    if k > 0 {
      FailTimesIdle(IceStateChanged(m, IceFailed, true), k - 1);
    }
  }

  /** Without the connection recovering in between, a call survives at most
      three ICE failures: each raises the restart counter and sends a
      restart offer, and the failure after the third restart ends the call. */
  lemma {:induction false} RepeatedIceFailuresEndCall(m: Machine, k: nat)
    requires m.peer.Some? && m.isInCall && m.iceRestartAttempts <= MaxIceRestartAttempts
    requires k > MaxIceRestartAttempts - m.iceRestartAttempts
    ensures Idle(FailTimes(m, k))
    decreases k
  {
    var next := IceStateChanged(m, IceFailed, true);
    if m.iceRestartAttempts == MaxIceRestartAttempts {
      FailTimesIdle(next, k - 1);
    } else {
      RepeatedIceFailuresEndCall(next, k - 1);
    }
  }

  /** While restarts remain, an ICE failure keeps the call, raises the
      counter, puts the peer connection in have-local-offer and sends one
      restart offer over an OPEN socket; at the ceiling it ends the call. */
  lemma IceFailureRestartsOrEnds(m: Machine, ok: bool)
    requires m.peer.Some? && m.isInCall
    ensures var r := IceStateChanged(m, IceFailed, ok);
      (m.iceRestartAttempts < MaxIceRestartAttempts && ok ==>
         r.isInCall && r.iceRestartAttempts == m.iceRestartAttempts + 1
         && r.peer.Some? && r.peer.value.signaling == HaveLocalOffer && r.peer.value.ice == IceFailed
         && r.sent == m.sent + (if m.socket == Open then [Envelope(Offer, m.currentUserId, m.remoteUserId, Description)] else []))
      && (m.iceRestartAttempts >= MaxIceRestartAttempts ==> Idle(r))
  {
  }

  /** A scheduled restart retry runs `attemptIceRestart` again. */
  function RestartRetryFires(m: Machine, restartOk: bool): (r: Machine)
    ensures m.restartRetries == 0 ==> r == m
    ensures m.restartRetries > 0 ==> r == AttemptIceRestart(m.(restartRetries := m.restartRetries - 1), restartOk)
  {
    if m.restartRetries == 0 then m
    else AttemptIceRestart(m.(restartRetries := m.restartRetries - 1), restartOk)
  }

  /** `onconnectionstatechange`: disconnected, failed and closed end the call. */
  function ConnectionStateChanged(m: Machine, s: ConnectionState): (r: Machine)
    ensures m.peer.Some? && (s == ConnDisconnected || s == ConnFailed || s == ConnClosed) ==> Idle(r)
    ensures m.peer.Some? && (s == ConnDisconnected || s == ConnFailed || s == ConnClosed) ==>
      r == EndCall(m)
      && r.sent == m.sent + (if Truthy(m.remoteUserId) && m.socket == Open
                             then [Envelope(CallEnded, m.currentUserId, m.remoteUserId, NoPayload)]
                             else [])
    ensures m.peer.None? || !(s == ConnDisconnected || s == ConnFailed || s == ConnClosed) ==> r == m
  {
    if m.peer.Some? && (s == ConnDisconnected || s == ConnFailed || s == ConnClosed) then EndCall(m) else m
  }

  /** `onicecandidate`: a gathered candidate goes to the remote user when
      there is one; the end-of-gathering null is not sent. */
  function LocalCandidate(m: Machine, c: Option<Candidate>): (r: Machine)
    ensures m.peer.Some? && c.Some? && Truthy(m.remoteUserId) ==>
      r == Send(m, Envelope(IceCandidateMsg, m.currentUserId, m.remoteUserId, CandidatePayload(c.value)))
    ensures m.peer.None? || c.None? || !Truthy(m.remoteUserId) ==> r == m
  {
    if m.peer.Some? && c.Some? && Truthy(m.remoteUserId) then
      Send(m, Envelope(IceCandidateMsg, m.currentUserId, m.remoteUserId, CandidatePayload(c.value)))
    else m
  }

  /** `ontrack`: the remote stream becomes available. */
  function RemoteTrack(m: Machine): (r: Machine)
    ensures m.peer.Some? ==> r == m.(remoteStream := true)
    ensures m.peer.None? ==> r == m
  {
    if m.peer.Some? then m.(remoteStream := true) else m
  }

  /** Whether both tracks of `s` have ended once track `k` ends. */
  predicate AllEndedAfter(s: Media, k: TrackKind) {
    (k == Audio || s.audioEnded) && (k == Video || s.videoEnded)
  }

  /** The local stream once track `k` has reached readyState 'ended'. */
  function MarkEnded(s: Media, k: TrackKind): (r: Media)
    ensures r.audioEnded == (s.audioEnded || k == Audio) && r.videoEnded == (s.videoEnded || k == Video)
    ensures r.audioEnabled == s.audioEnabled && r.videoEnabled == s.videoEnabled
    ensures AllEndedAfter(s, k) <==> r.audioEnded && r.videoEnded
  {
    match k
    case Audio => s.(audioEnded := true)
    case Video => s.(videoEnded := true)
  }

  /** A local track ends (device unplugged): the call ends, with the
      call-ended notice, once both tracks have ended; until then only the
      track's ended flag is recorded. */
  function TrackEnded(m: Machine, k: TrackKind): (r: Machine)
    ensures m.localStream.None? ==> r == m
    ensures m.localStream.Some? && AllEndedAfter(m.localStream.value, k) ==> Idle(r)
    ensures m.localStream.Some? && AllEndedAfter(m.localStream.value, k) ==>
      r == EndCall(m)
      && r.sent == m.sent + (if Truthy(m.remoteUserId) && m.socket == Open
                             then [Envelope(CallEnded, m.currentUserId, m.remoteUserId, NoPayload)]
                             else [])
    ensures m.localStream.Some? && !AllEndedAfter(m.localStream.value, k) ==>
      (r.localStream.Some? && r.isInCall == m.isInCall && r.isCalling == m.isCalling
       && r.peer == m.peer && r.sent == m.sent)
    ensures m.localStream.Some? && !AllEndedAfter(m.localStream.value, k) ==>
      r == m.(localStream := Some(MarkEnded(m.localStream.value, k)))
  {
    if m.localStream.None? then m
    else
      var s' := MarkEnded(m.localStream.value, k);
      var marked := m.(localStream := Some(s'));
      if s'.audioEnded && s'.videoEnded then EndCall(marked) else marked
  }

  /** Unplugging the camera and then the microphone of a live stream keeps
      the call after the first event and ends it, with one call-ended to the
      peer, after the second. */
  lemma BothTracksEndCall(m: Machine)
    requires m.localStream.Some? && !m.localStream.value.audioEnded && !m.localStream.value.videoEnded
    ensures TrackEnded(m, Video).isInCall == m.isInCall && TrackEnded(m, Video).sent == m.sent
    ensures Idle(TrackEnded(TrackEnded(m, Video), Audio))
    ensures TrackEnded(TrackEnded(m, Video), Audio).sent == EndCall(m).sent
  {
    var once := TrackEnded(m, Video);
    assert once == m.(localStream := Some(MarkEnded(m.localStream.value, Video)));
    assert AllEndedAfter(once.localStream.value, Audio);
  }

  function ToggleAudio(m: Machine, enabled: bool): (r: Machine)
    ensures m.localStream.Some? ==> r.localStream == Some(m.localStream.value.(audioEnabled := enabled))
    ensures r.(localStream := m.localStream) == m
  {
    if m.localStream.Some? then m.(localStream := Some(m.localStream.value.(audioEnabled := enabled))) else m
  }

  function ToggleVideo(m: Machine, enabled: bool): (r: Machine)
    ensures m.localStream.Some? ==> r.localStream == Some(m.localStream.value.(videoEnabled := enabled))
    ensures r.(localStream := m.localStream) == m
  {
    if m.localStream.Some? then m.(localStream := Some(m.localStream.value.(videoEnabled := enabled))) else m
  }

  // ---------------------------------------------------------------------
  // The signalling socket

  /** `connect`: remember the user, take the fetched ICE servers (keeping the
      defaults when the fetch fails) and open a new socket. */
  function Connect(m: Machine, userId: string, fetched: Option<seq<IceServer>>): (r: Machine)
    ensures r.currentUserId == userId && r.socket == Connecting
    ensures r.iceServers == (if fetched.Some? then fetched.value else m.iceServers)
    ensures r.(socket := m.socket, currentUserId := m.currentUserId, iceServers := m.iceServers) == m
  {
    m.(currentUserId := userId, iceServers := if fetched.Some? then fetched.value else m.iceServers, socket := Connecting)
  }

  function SocketOpened(m: Machine): (r: Machine)
    ensures m.socket == Connecting ==> r == m.(socket := Open)
    ensures m.socket != Connecting ==> r == m
  {
    if m.socket == Connecting then m.(socket := Open) else m
  }

  /** `onclose`: the call is cleaned up. */
  function SocketClosed(m: Machine): (r: Machine)
    ensures Idle(r) && r.sent == m.sent && r.socket != Open
    ensures r.socket == (if m.socket == NoSocket then NoSocket else Closed)
    ensures r.(socket := m.socket) == Cleanup(m) && SameConnection(m, r.(socket := m.socket))
  {
    Cleanup(m.(socket := if m.socket == NoSocket then NoSocket else Closed))
  }

  /** `disconnect`: clean up, then close and drop the socket. */
  function Disconnect(m: Machine): (r: Machine)
    ensures Idle(r) && r.sent == m.sent && r.socket == NoSocket
    ensures r.(socket := m.socket) == Cleanup(m) && SameConnection(m, r.(socket := m.socket))
  {
    Cleanup(m).(socket := NoSocket)
  }

  /** `onmessage`: an unparseable frame is ignored. */
  function Receive(m: Machine, frame: Option<Envelope>, steps: Steps): (r: Machine)
    ensures frame.None? ==> r == m
    ensures frame.Some? ==> r == HandleSignalingMessage(m, frame.value, steps)
  {
    if frame.None? then m else HandleSignalingMessage(m, frame.value, steps)
  }

  /** `getState`: the call flags, the remote user and which streams exist. */
  function GetState(m: Machine): (s: CallState)
    ensures s.isInCall == m.isInCall && s.isCalling == m.isCalling && s.isReceivingCall == m.isReceivingCall
    ensures s.remoteUserId == m.remoteUserId
    ensures s.hasLocalStream == m.localStream.Some? && s.hasRemoteStream == m.remoteStream
  {
    CallState(m.isInCall, m.isCalling, m.isReceivingCall, m.remoteUserId, m.localStream.Some?, m.remoteStream)
  }

  // ---------------------------------------------------------------------
  // Runs of events and what they keep

  datatype Event =
    | ConnectCalled(userId: string, fetched: Option<seq<IceServer>>)
    | SocketOpens
    | SocketCloses
    | DisconnectCalled
    | Initiate(target: string, mediaOk: bool)
    | Accept(mediaOk: bool)
    | Reject
    | End
    | Frame(frame: Option<Envelope>, steps: Steps)
    | TimeoutFires
    | IceChange(iceState: IceState, restartOk: bool)
    | IceRecheck(restartOk: bool)
    | RestartRetry(restartOk: bool)
    | ConnectionChange(connState: ConnectionState)
    | Gathered(candidate: Option<Candidate>)
    | Track
    | LocalTrackEnded(kind: TrackKind)
    | SetAudio(enabled: bool)
    | SetVideo(enabled: bool)

  function Step(m: Machine, e: Event): Machine {
    match e
    case ConnectCalled(u, f) => Connect(m, u, f)
    case SocketOpens => SocketOpened(m)
    case SocketCloses => SocketClosed(m)
    case DisconnectCalled => Disconnect(m)
    case Initiate(t, ok) => InitiateCall(m, t, ok)
    case Accept(ok) => AcceptCall(m, ok)
    case Reject => RejectCall(m)
    case End => EndCall(m)
    case Frame(f, st) => Receive(m, f, st)
    case TimeoutFires => CallTimeoutFires(m)
    case IceChange(s, ok) => IceStateChanged(m, s, ok)
    case IceRecheck(ok) => IceRecheckFires(m, ok)
    case RestartRetry(ok) => RestartRetryFires(m, ok)
    case ConnectionChange(s) => ConnectionStateChanged(m, s)
    case Gathered(c) => LocalCandidate(m, c)
    case Track => RemoteTrack(m)
    case LocalTrackEnded(k) => TrackEnded(m, k)
    case SetAudio(b) => ToggleAudio(m, b)
    case SetVideo(b) => ToggleVideo(m, b)
  }

  function Run(m: Machine, es: seq<Event>): Machine
    decreases |es|
  {
    if es == [] then m else Run(Step(m, es[0]), es[1..])
  }

  /** What the handlers keep true together:
      - the ICE restart counter never passes its ceiling;
      - a live unanswered-call timer means the call is still outgoing;
      - an outgoing or ringing call always knows its remote user;
      - being in a call means a peer connection and local media exist;
      - once the peer connection has a remote description no candidate is
        left waiting in the queue. */
  predicate Inv(m: Machine) {
    m.iceRestartAttempts <= MaxIceRestartAttempts
    && (m.callTimeout == Armed ==> m.isCalling)
    && (m.isCalling || m.isReceivingCall ==> m.remoteUserId.Some?)
    && (m.isInCall ==> m.peer.Some? && m.localStream.Some?)
    && (m.peer.Some? && m.peer.value.hasRemoteDescription ==> m.pending == [])
  }

  lemma InitialIdle()
    ensures Idle(Initial) && Inv(Initial) && Initial.socket == NoSocket && Initial.sent == []
  {
  }

  lemma IdleInv(m: Machine)
    requires Idle(m)
    ensures Inv(m)
  {
  }

  lemma AttemptIceRestartInv(m: Machine, ok: bool)
    requires Inv(m)
    ensures Inv(AttemptIceRestart(m, ok))
  {
    if m.peer.Some? && m.isInCall && m.iceRestartAttempts < MaxIceRestartAttempts && !ok
       && m.iceRestartAttempts + 1 == MaxIceRestartAttempts {
      IdleInv(AttemptIceRestart(m, ok));
    }
  }

  lemma StartCallInv(m: Machine, steps: Steps)
    requires Inv(m)
    ensures Inv(StartCall(ClearCallTimeout(m), steps))
  {
    var c := ClearCallTimeout(m);
    assert Inv(c);
  }

  lemma HandleOfferInv(m: Machine, steps: Steps)
    requires Inv(m)
    ensures Inv(HandleOffer(m, steps))
  {
    var r := HandleOffer(m, steps);
    if m.localStream.Some? || steps.media {
      assert r.localStream.Some? && r.peer.Some?;
    }
  }

  lemma HandleIceCandidateInv(m: Machine, c: Candidate)
    requires Inv(m)
    ensures Inv(HandleIceCandidate(m, c))
  {
  }

  lemma HandleAnswerInv(m: Machine, ok: bool)
    requires Inv(m)
    ensures Inv(HandleAnswer(m, ok))
  {
  }

  lemma HandleSignalingMessageInv(m: Machine, d: Envelope, steps: Steps)
    requires Inv(m)
    ensures Inv(HandleSignalingMessage(m, d, steps))
  {
    match d.kind
    case CallRequest =>
    case CallAccepted => StartCallInv(m, steps);
    case CallRejected =>
    case CallEnded =>
    case Offer => HandleOfferInv(m, steps);
    case Answer => HandleAnswerInv(m, steps.remote);
    case IceCandidateMsg => HandleIceCandidateInv(m, CandidateOf(d.payload));
    case Unknown =>
  }

  lemma IceStateChangedInv(m: Machine, s: IceState, ok: bool)
    requires Inv(m)
    ensures Inv(IceStateChanged(m, s, ok))
  {
    if m.peer.Some? && s == IceFailed {
      AttemptIceRestartInv(m.(peer := Some(m.peer.value.(ice := s))), ok);
    }
  }

  lemma CallSideInv(m: Machine, e: Event)
    requires Inv(m)
    requires e.Initiate? || e.Accept? || e.Reject? || e.End? || e.TimeoutFires?
    ensures Inv(Step(m, e))
  {
  }

  lemma BrowserSideInv(m: Machine, e: Event)
    requires Inv(m)
    requires e.ConnectionChange? || e.Gathered? || e.Track? || e.LocalTrackEnded? || e.SetAudio? || e.SetVideo?
    ensures Inv(Step(m, e))
  {
  }

  lemma SocketSideInv(m: Machine, e: Event)
    requires Inv(m)
    requires e.ConnectCalled? || e.SocketOpens? || e.SocketCloses? || e.DisconnectCalled?
    ensures Inv(Step(m, e))
  {
  }

  /** Every handler keeps `Inv`. */
  lemma StepInv(m: Machine, e: Event)
    requires Inv(m)
    ensures Inv(Step(m, e))
  {
    match e
    case Frame(f, st) =>
      if f.Some? {
        HandleSignalingMessageInv(m, f.value, st);
      }
    case IceChange(s, ok) => IceStateChangedInv(m, s, ok);
    case IceRecheck(ok) =>
      if m.iceRechecks > 0 {
        AttemptIceRestartInv(m.(iceRechecks := m.iceRechecks - 1), ok);
      }
    case RestartRetry(ok) =>
      if m.restartRetries > 0 {
        AttemptIceRestartInv(m.(restartRetries := m.restartRetries - 1), ok);
      }
    case Initiate(_, _) => CallSideInv(m, e);
    case Accept(_) => CallSideInv(m, e);
    case Reject => CallSideInv(m, e);
    case End => CallSideInv(m, e);
    case TimeoutFires => CallSideInv(m, e);
    case ConnectionChange(_) => BrowserSideInv(m, e);
    case Gathered(_) => BrowserSideInv(m, e);
    case Track => BrowserSideInv(m, e);
    case LocalTrackEnded(_) => BrowserSideInv(m, e);
    case SetAudio(_) => BrowserSideInv(m, e);
    case SetVideo(_) => BrowserSideInv(m, e);
    case ConnectCalled(_, _) => SocketSideInv(m, e);
    case SocketOpens => SocketSideInv(m, e);
    case SocketCloses => SocketSideInv(m, e);
    case DisconnectCalled => SocketSideInv(m, e);
  }

  /** `Inv` holds after any run of events from a state where it holds, in
      particular from the initial state: the restart counter never exceeds
      three, whatever happens. */
  lemma {:induction false} RunInv(m: Machine, es: seq<Event>)
    requires Inv(m)
    ensures Inv(Run(m, es))
    decreases |es|
  {
    if es != [] {
      StepInv(m, es[0]);
      RunInv(Step(m, es[0]), es[1..]);
    }
  }

  /** The code does not refuse a call-request while a call is outgoing: the
      ringing flag joins the calling flag, the remote user is replaced by the
      new caller, and when the unanswered-call timer then fires the
      call-ended goes to the new caller rather than to the callee. */
  lemma CallRequestWhileCalling(m: Machine, callee: string, caller: string)
    requires Idle(m) && m.socket == Open
    requires caller != "" && caller != callee
    ensures var calling := InitiateCall(m, callee, true);
            var rung := HandleSignalingMessage(calling, Envelope(CallRequest, caller, Some(m.currentUserId), NoPayload), Steps(true, true, true));
            var timedOut := CallTimeoutFires(rung);
            rung.isCalling && rung.isReceivingCall && rung.remoteUserId == Some(caller)
            && timedOut.sent == m.sent + [Envelope(CallRequest, m.currentUserId, Some(callee), NoPayload),
                                          Envelope(CallEnded, m.currentUserId, Some(caller), NoPayload)]
  {
    var calling := InitiateCall(m, callee, true);
    var rung := HandleSignalingMessage(calling, Envelope(CallRequest, caller, Some(m.currentUserId), NoPayload), Steps(true, true, true));
    assert rung.callTimeout == Armed;
  }
}
