/** The browser's `WebRTCService` as an object whose handlers update its
    fields in place. Each method is proved to move the object exactly as
    the matching transition of `CallMachine` moves its value, so every
    property proved there holds of the object. */
module WebRTC {
  import opened Wrappers
  import opened BrowserSocket
  import M = CallMachine

  class WebRTCService {
    var ws: SocketState
    var currentUserId: string
    var iceServers: seq<M.IceServer>
    var remoteUserId: Option<string>
    var isInCall: bool
    var isCalling: bool
    var isReceivingCall: bool
    var localStream: Option<M.Media>
    var remoteStream: bool
    var peerConnection: Option<M.Peer>
    var pendingIceCandidates: seq<M.Candidate>
    var callTimeoutId: M.CallTimer
    var iceRestartAttempts: nat
    /** 2-second rechecks scheduled after an ICE disconnect, not yet run. */
    var iceRechecks: nat
    /** Restart retries scheduled after a failed restart, not yet run. */
    var restartRetries: nat
    /** Envelopes written to the signalling socket. */
    var sent: seq<M.Envelope>

    ghost function Model(): M.Machine
      reads this
    {
      M.Machine(ws, currentUserId, iceServers, remoteUserId, isInCall, isCalling, isReceivingCall,
                localStream, remoteStream, peerConnection, pendingIceCandidates, callTimeoutId,
                iceRestartAttempts, iceRechecks, restartRetries, sent)
    }

    constructor()
      ensures Model() == M.Initial
    {
      ws := NoSocket;
      currentUserId := "";
      iceServers := M.DefaultIceServers;
      remoteUserId := None;
      isInCall := false;
      isCalling := false;
      isReceivingCall := false;
      localStream := None;
      remoteStream := false;
      peerConnection := None;
      pendingIceCandidates := [];
      callTimeoutId := M.NoTimer;
      iceRestartAttempts := 0;
      iceRechecks := 0;
      restartRetries := 0;
      sent := [];
    }

    // -------------------------------------------------------------------
    // Private helpers

    method SendSignaling(data: M.Envelope)
      modifies this
      ensures Model() == M.Send(old(Model()), data)
    {
      if ws == Open {
        sent := sent + [data];
      }
    }

    method ClearCallTimeout()
      modifies this
      ensures Model() == M.ClearCallTimeout(old(Model()))
    {
      if callTimeoutId != M.NoTimer {
        callTimeoutId := M.NoTimer;
      }
    }

    method StartCallTimeout()
      modifies this
      ensures Model() == M.StartCallTimeout(old(Model()))
    {
      ClearCallTimeout();
      callTimeoutId := M.Armed;
    }

    method Cleanup()
      modifies this
      ensures Model() == M.Cleanup(old(Model()))
    {
      ClearCallTimeout();
      localStream := None;
      peerConnection := None;
      remoteStream := false;
      remoteUserId := None;
      isInCall := false;
      isCalling := false;
      isReceivingCall := false;
      pendingIceCandidates := [];
      iceRestartAttempts := 0;
    }

    /** Offers each queued candidate to the peer connection in order,
        skipping the ones it refuses, then empties the queue. */
    method FlushPendingIceCandidates()
      modifies this
      ensures Model() == M.Flush(old(Model()))
    {
      if peerConnection.None? {
        return;
      }
      var pc0 := peerConnection.value;
      var queue := pendingIceCandidates;
      var pc := pc0;
      for i := 0 to |queue|
        modifies {}
        invariant pc == pc0.(applied := pc0.applied + M.AcceptedOf(queue[..i]))
      {
        var candidate := queue[i];
        if candidate.accepted {
          pc := pc.(applied := pc.applied + [candidate]);
        }
        M.AcceptedOfSnoc(queue, i);
      }
      assert queue[..|queue|] == queue;
      ghost var m0 := Model();
      assert M.Flush(m0) == m0.(peer := Some(pc), pending := []);
      peerConnection := Some(pc);
      pendingIceCandidates := [];
      assert Model() == m0.(peer := Some(pc), pending := []);
    }

    // -------------------------------------------------------------------
    // The signalling socket

    /** `connect(token, userId)`; `fetched` is the ICE server list the
        backend returned, absent when the request failed. */
    method Connect(userId: string, fetched: Option<seq<M.IceServer>>)
      modifies this
      ensures Model() == M.Connect(old(Model()), userId, fetched)
    {
      currentUserId := userId;
      if fetched.Some? {
        iceServers := fetched.value;
      }
      ws := Connecting;
    }

    method OnOpen()
      modifies this
      ensures Model() == M.SocketOpened(old(Model()))
    {
      if ws == Connecting {
        ws := Open;
      }
    }

    method OnClose()
      modifies this
      ensures Model() == M.SocketClosed(old(Model()))
    {
      if ws != NoSocket {
        ws := Closed;
      }
      Cleanup();
    }

    method Disconnect()
      modifies this
      ensures Model() == M.Disconnect(old(Model()))
    {
      Cleanup();
      if ws != NoSocket {
        ws := NoSocket;
      }
    }

    /** `onmessage`: `frame` is the parsed envelope, absent when the text
        does not parse. */
    method OnMessage(frame: Option<M.Envelope>, steps: M.Steps)
      modifies this
      ensures Model() == M.Receive(old(Model()), frame, steps)
    {
      if frame.Some? {
        HandleSignalingMessage(frame.value, steps);
      }
    }

    method HandleSignalingMessage(data: M.Envelope, steps: M.Steps)
      modifies this
      ensures Model() == M.HandleSignalingMessage(old(Model()), data, steps)
    {
      match data.kind
      case CallRequest =>
        isReceivingCall := true;
        remoteUserId := Some(data.from);
      case CallAccepted =>
        ClearCallTimeout();
        StartCall(steps);
      case CallRejected =>
        ClearCallTimeout();
        HandleRemoteCallEnded();
      case CallEnded =>
        HandleRemoteCallEnded();
      case Offer =>
        HandleOffer(steps);
      case Answer =>
        HandleAnswer(steps.remote);
      case IceCandidateMsg =>
        HandleIceCandidate(M.CandidateOf(data.payload));
      case Unknown =>
    }

    // -------------------------------------------------------------------
    // User intents

    method InitiateCall(targetUserId: string, mediaOk: bool)
      modifies this
      ensures Model() == M.InitiateCall(old(Model()), targetUserId, mediaOk)
    {
      if ws != Open {
        return;
      }
      if isInCall || isCalling || isReceivingCall {
        return;
      }
      remoteUserId := Some(targetUserId);
      isCalling := true;
      if !mediaOk {
        Cleanup();
        return;
      }
      localStream := Some(M.FreshMedia);
      SendSignaling(M.Envelope(M.CallRequest, currentUserId, Some(targetUserId), M.NoPayload));
      StartCallTimeout();
    }

    method AcceptCall(mediaOk: bool)
      modifies this
      ensures Model() == M.AcceptCall(old(Model()), mediaOk)
    {
      if ws != Open {
        Cleanup();
        return;
      }
      if !isReceivingCall {
        return;
      }
      if !M.Truthy(remoteUserId) {
        Cleanup();
        return;
      }
      var targetUserId := remoteUserId.value;
      isReceivingCall := false;
      if !mediaOk {
        Cleanup();
        return;
      }
      localStream := Some(M.FreshMedia);
      SendSignaling(M.Envelope(M.CallAccepted, currentUserId, Some(targetUserId), M.NoPayload));
    }

    method RejectCall()
      modifies this
      ensures Model() == M.RejectCall(old(Model()))
    {
      if !M.Truthy(remoteUserId) {
        Cleanup();
        return;
      }
      var targetUserId := remoteUserId.value;
      SendSignaling(M.Envelope(M.CallRejected, currentUserId, Some(targetUserId), M.NoPayload));
      Cleanup();
    }

    method EndCall()
      modifies this
      ensures Model() == M.EndCall(old(Model()))
    {
      if M.Truthy(remoteUserId) {
        SendSignaling(M.Envelope(M.CallEnded, currentUserId, remoteUserId, M.NoPayload));
      }
      Cleanup();
    }

    /** The timeout's own handler: the same steps as `EndCall`. */
    method HandleCallTimeout()
      modifies this
      ensures Model() == M.EndCall(old(Model()))
    {
      if M.Truthy(remoteUserId) {
        SendSignaling(M.Envelope(M.CallEnded, currentUserId, remoteUserId, M.NoPayload));
      }
      Cleanup();
    }

    method HandleRemoteCallEnded()
      modifies this
      ensures Model() == M.RemoteCallEnded(old(Model()))
    {
      Cleanup();
    }

    // -------------------------------------------------------------------
    // Call set-up

    method StartCall(steps: M.Steps)
      modifies this
      ensures Model() == M.StartCall(old(Model()), steps)
    {
      if localStream.None? {
        if !steps.media {
          Cleanup();
          return;
        }
        localStream := Some(M.FreshMedia);
      }
      OfferCall(steps);
    }

    /** The rest of `startCall`, once there is local media. */
    method OfferCall(steps: M.Steps)
      requires localStream.Some?
      modifies this
      ensures Model() == M.OfferCall(old(Model()), steps)
    {
      peerConnection := Some(M.FreshPeer);
      if !steps.local {
        Cleanup();
        return;
      }
      peerConnection := Some(M.FreshPeer.(signaling := M.HaveLocalOffer));
      SendSignaling(M.Envelope(M.Offer, currentUserId, remoteUserId, M.Description));
      isInCall := true;
      isCalling := false;
    }

    method HandleOffer(steps: M.Steps)
      modifies this
      ensures Model() == M.HandleOffer(old(Model()), steps)
    {
      if localStream.None? {
        if !steps.media {
          return;
        }
        localStream := Some(M.FreshMedia);
      }
      if peerConnection.None? {
        peerConnection := Some(M.FreshPeer);
      }
      AnswerOffer(steps);
    }

    /** The rest of `handleOffer`, once the peer connection exists. */
    method AnswerOffer(steps: M.Steps)
      requires peerConnection.Some?
      modifies this
      ensures Model() == M.AnswerOffer(old(Model()), steps)
    {
      var signalingState := peerConnection.value.signaling;
      if signalingState != M.Stable && signalingState != M.HaveLocalOffer {
        return;
      }
      if !steps.remote {
        return;
      }
      peerConnection := Some(peerConnection.value.(signaling := M.HaveRemoteOffer, hasRemoteDescription := true));
      FlushPendingIceCandidates();
      if !steps.local {
        return;
      }
      peerConnection := Some(peerConnection.value.(signaling := M.Stable));
      SendSignaling(M.Envelope(M.Answer, currentUserId, remoteUserId, M.Description));
      isInCall := true;
    }

    method HandleAnswer(remoteOk: bool)
      modifies this
      ensures Model() == M.HandleAnswer(old(Model()), remoteOk)
    {
      if peerConnection.None? {
        return;
      }
      if peerConnection.value.signaling != M.HaveLocalOffer {
        return;
      }
      if !remoteOk {
        return;
      }
      peerConnection := Some(peerConnection.value.(signaling := M.Stable, hasRemoteDescription := true));
      FlushPendingIceCandidates();
    }

    method HandleIceCandidate(candidate: M.Candidate)
      modifies this
      ensures Model() == M.HandleIceCandidate(old(Model()), candidate)
    {
      if peerConnection.None? || !peerConnection.value.hasRemoteDescription {
        pendingIceCandidates := pendingIceCandidates + [candidate];
        return;
      }
      if candidate.accepted {
        peerConnection := Some(peerConnection.value.(applied := peerConnection.value.applied + [candidate]));
      } else {
        assert peerConnection.value.applied + [] == peerConnection.value.applied;
      }
    }

    // -------------------------------------------------------------------
    // Timers and browser callbacks

    /** The unanswered-call timer's callback. */
    method CallTimeoutFires()
      modifies this
      ensures Model() == M.CallTimeoutFires(old(Model()))
    {
      if callTimeoutId != M.Armed {
        return;
      }
      callTimeoutId := M.Expired;
      if isCalling {
        HandleCallTimeout();
      }
    }

    method AttemptIceRestart(ok: bool)
      modifies this
      ensures Model() == M.AttemptIceRestart(old(Model()), ok)
    {
      if peerConnection.None? || !isInCall {
        return;
      }
      if iceRestartAttempts >= M.MaxIceRestartAttempts {
        EndCall();
        return;
      }
      iceRestartAttempts := iceRestartAttempts + 1;
      if ok {
        peerConnection := Some(peerConnection.value.(signaling := M.HaveLocalOffer));
        SendSignaling(M.Envelope(M.Offer, currentUserId, remoteUserId, M.Description));
      } else if iceRestartAttempts < M.MaxIceRestartAttempts {
        restartRetries := restartRetries + 1;
      } else {
        EndCall();
      }
    }

    /** `oniceconnectionstatechange` with the peer connection's new state. */
    method HandleIceConnectionStateChange(state: M.IceState, restartOk: bool)
      modifies this
      ensures Model() == M.IceStateChanged(old(Model()), state, restartOk)
    {
      if peerConnection.None? {
        return;
      }
      peerConnection := Some(peerConnection.value.(ice := state));
      match state
      case IceDisconnected =>
        iceRechecks := iceRechecks + 1;
      case IceFailed =>
        AttemptIceRestart(restartOk);
      case IceConnected =>
        iceRestartAttempts := 0;
      case IceCompleted =>
        iceRestartAttempts := 0;
      case _ =>
    }

    /** The recheck callback scheduled on disconnect. */
    method IceRecheckFires(restartOk: bool)
      modifies this
      ensures Model() == M.IceRecheckFires(old(Model()), restartOk)
    {
      if iceRechecks == 0 {
        return;
      }
      iceRechecks := iceRechecks - 1;
      if peerConnection.Some? && peerConnection.value.ice == M.IceDisconnected {
        AttemptIceRestart(restartOk);
      }
    }

    /** The retry callback scheduled by a failed restart. */
    method RestartRetryFires(restartOk: bool)
      modifies this
      ensures Model() == M.RestartRetryFires(old(Model()), restartOk)
    {
      if restartRetries == 0 {
        return;
      }
      restartRetries := restartRetries - 1;
      AttemptIceRestart(restartOk);
    }

    method OnConnectionStateChange(state: M.ConnectionState)
      modifies this
      ensures Model() == M.ConnectionStateChanged(old(Model()), state)
    {
      if peerConnection.Some? && (state == M.ConnDisconnected || state == M.ConnFailed || state == M.ConnClosed) {
        EndCall();
      }
    }

    method OnIceCandidate(candidate: Option<M.Candidate>)
      modifies this
      ensures Model() == M.LocalCandidate(old(Model()), candidate)
    {
      if peerConnection.Some? && candidate.Some? && M.Truthy(remoteUserId) {
        SendSignaling(M.Envelope(M.IceCandidateMsg, currentUserId, remoteUserId, M.CandidatePayload(candidate.value)));
      }
    }

    method OnTrack()
      modifies this
      ensures Model() == M.RemoteTrack(old(Model()))
    {
      if peerConnection.Some? {
        remoteStream := true;
      }
    }

    method OnTrackEnded(kind: M.TrackKind)
      modifies this
      ensures Model() == M.TrackEnded(old(Model()), kind)
    {
      if localStream.None? {
        return;
      }
      var stream := localStream.value;
      stream := if kind == M.Audio then stream.(audioEnded := true) else stream.(videoEnded := true);
      localStream := Some(stream);
      if stream.audioEnded && stream.videoEnded {
        EndCall();
      }
    }

    method ToggleAudio(enabled: bool)
      modifies this
      ensures Model() == M.ToggleAudio(old(Model()), enabled)
    {
      if localStream.Some? {
        localStream := Some(localStream.value.(audioEnabled := enabled));
      }
    }

    method ToggleVideo(enabled: bool)
      modifies this
      ensures Model() == M.ToggleVideo(old(Model()), enabled)
    {
      if localStream.Some? {
        localStream := Some(localStream.value.(videoEnabled := enabled));
      }
    }

    method GetState() returns (state: M.CallState)
      ensures state == M.GetState(Model())
    {
      state := M.CallState(isInCall, isCalling, isReceivingCall, remoteUserId, localStream.Some?, remoteStream);
    }
  }
}
