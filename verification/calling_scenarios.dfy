/** Properties of the client call session that span several operations:
    whole-call scenarios, the invariant every operation keeps, and the
    caller-side registration defect. */
module CallScenarios {
  import opened Common
  import opened Media
  import Quality
  import CallHistory
  import Registry
  import opened Calling

  /** Every client-side operation, with the values the browser and clock
      supply. */
  datatype Event =
    | Start(targetUserId: string, isVideoCall: bool, devices: Devices, now: int, logId: string)
    | Answer(callerId: string, isVideoCall: bool, devices: Devices, now: int, logId: string)
    | Reject(callerId: string, now: int, logId: string)
    | End(now: int)
    | Mute
    | VideoToggle
    | Offer(targetId: string, createdOffer: Option<string>)
    | IncomingOffer(senderId: string, offer: string, pcId: nat, createdAnswer: Option<string>)
    | TransportChange(userId: string, state: TransportState, intervalId: nat)
    | RemoteAnswer(senderId: string, answer: string, applied: bool)
    | RemoteCandidate(senderId: string, candidate: string, applied: bool)
    | RemoteTrack(userId: string, stream: MediaStream)
    | Remove(userId: string)
    | Tick(userId: string, signalingClosed: bool, report: Quality.StatsReport)

  function Apply(s: Session, e: Event): Session {
    match e
    case Start(t, v, d, now, id) => StartCall(s, t, v, d, now, id).next
    case Answer(c, v, d, now, id) => AnswerCall(s, c, v, d, now, id).next
    case Reject(c, now, id) => RejectCall(s, c, now, id).next
    case End(now) => EndCall(s, now).next
    case Mute => ToggleMute(s)
    case VideoToggle => ToggleVideo(s)
    case Offer(t, o) => CreateCallOffer(s, t, o).next
    case IncomingOffer(u, o, id, a) => HandleCallOffer(s, u, o, id, a).next
    case TransportChange(u, st, iv) => OnConnectionStateChange(s, u, st, iv)
    case RemoteAnswer(u, a, ok) => HandleCallAnswer(s, u, a, ok).next
    case RemoteCandidate(u, c, ok) => HandleCallIceCandidate(s, u, c, ok).next
    case RemoteTrack(u, st) => AddRemoteStream(s, u, st)
    case Remove(u) => RemoveCall(s, u).next
    case Tick(u, closed, rep) => MonitorTick(s, u, closed, rep)
  }

  function Run(s: Session, es: seq<Event>): Session
    decreases |es|
  {
    if |es| == 0 then s else Run(Apply(s, es[0]), es[1..])
  }

  /** Only a remote track, a removal and the end of the call touch the list
      of active calls. */
  lemma ApplyKeepsCalls(s: Session, e: Event)
    requires !e.RemoteTrack? && !e.Remove? && !e.End?
    ensures Apply(s, e).activeCalls == s.activeCalls
  {
    match e
    case Start(t, v, d, now, id) =>
    case Answer(c, v, d, now, id) =>
    case Reject(c, now, id) =>
    case Mute =>
    case VideoToggle =>
    case Offer(t, o) =>
    case IncomingOffer(u, o, id, a) =>
    case TransportChange(u, st, iv) =>
    case RemoteAnswer(u, a, ok) =>
    case RemoteCandidate(u, c, ok) =>
    case Tick(u, closed, rep) =>
  }

  /** No operation ever lists a remote user twice among the active calls. */
  lemma ApplyKeepsValid(s: Session, e: Event)
    requires Valid(s)
    ensures Valid(Apply(s, e))
  {
    if !e.RemoteTrack? && !e.Remove? && !e.End? {
      ApplyKeepsCalls(s, e);
    }
  }

  lemma {:induction false} RunKeepsValid(s: Session, es: seq<Event>)
    requires Valid(s)
    ensures Valid(Run(s, es))
    decreases |es|
  {
    if |es| > 0 {
      ApplyKeepsValid(s, es[0]);
      RunKeepsValid(Apply(s, es[0]), es[1..]);
    }
  }

  /** Running two lists of events one after the other is running their
      concatenation. */
  lemma {:induction false} RunAppend(s: Session, es: seq<Event>, fs: seq<Event>)
    ensures Run(s, es + fs) == Run(Run(s, es), fs)
    decreases |es|
  {
    if |es| == 0 {
      assert es + fs == fs;
    } else {
      assert (es + fs)[0] == es[0] && (es + fs)[1..] == es[1..] + fs;
      RunAppend(Apply(s, es[0]), es[1..], fs);
    }
  }

  /** Whatever happened before, a call that is started and then ended leaves
      the session released (every local track stopped, no transport or
      remote call left), and leaves the history with the entry that start
      opened, finalised, in front of the history as it stood before. */
  lemma AnyRunThenCall(s: Session, es: seq<Event>, target: string, isVideo: bool, devices: Devices,
                       t0: int, t1: int, logId: string)
    requires devices(MediaRequest(isVideo, true)).Granted?
    requires logId != ""
    ensures
      var before := Run(s, es);
      var after := Run(s, es + [Start(target, isVideo, devices, t0, logId), End(t1)]);
      var h := CallHistory.GetCallHistory(after.history);
      && Released(after)
      && after.currentCallLogId.None?
      && |h| == |CallHistory.GetCallHistory(before.history)| + 1
      && h[0] == CallHistory.CallLog(logId, target, CallHistory.Outgoing, CallHistory.Ended, t0,
                                     Some(t1), Some(RoundSeconds(t1 - t0)), isVideo)
      && h[1..] == CallHistory.GetCallHistory(before.history)
  {
    var fs := [Start(target, isVideo, devices, t0, logId), End(t1)];
    RunAppend(s, es, fs);
    var before := Run(s, es);
    var started := StartCall(before, target, isVideo, devices, t0, logId).next;
    assert Run(before, fs) == Run(started, [End(t1)]) by {
      assert fs[0] == Start(target, isVideo, devices, t0, logId) && fs[1..] == [End(t1)];
    }
    assert Run(started, [End(t1)]) == Run(EndCall(started, t1).next, []) by {
      assert [End(t1)][1..] == [];
    }
    StartThenEndFinalisesLog(before, target, isVideo, devices, t0, t1, logId);
  }

  /** Starting a call and ending it finalises the outgoing entry that the
      start opened: status `ended`, the end time, and the duration rounded to
      whole seconds. */
  lemma StartThenEndFinalisesLog(s: Session, target: string, isVideo: bool, devices: Devices,
                                 t0: int, t1: int, logId: string)
    requires devices(MediaRequest(isVideo, true)).Granted?
    requires logId != ""
    ensures
      var started := StartCall(s, target, isVideo, devices, t0, logId);
      var ended := EndCall(started.next, t1);
      var h := CallHistory.GetCallHistory(ended.next.history);
      && |h| == |CallHistory.GetCallHistory(s.history)| + 1
      && h[0] == CallHistory.CallLog(logId, target, CallHistory.Outgoing, CallHistory.Ended, t0,
                                     Some(t1), Some(RoundSeconds(t1 - t0)), isVideo)
      && h[1..] == CallHistory.GetCallHistory(s.history)
      && ended.next.currentCallLogId.None?
      && |ended.stopped| == |devices(MediaRequest(isVideo, true)).stream.tracks|
  {
    var started := StartCall(s, target, isVideo, devices, t0, logId);
    var h0 := CallHistory.GetCallHistory(started.next.history);
    Registry.FindIndexIs(h0, CallHistory.LogId, logId, 0);
    var h := CallHistory.GetCallHistory(EndCall(started.next, t1).next.history);
    assert h[1..] == h0[1..];
  }

  /** Answering a pending invitation and ending the call finalises the
      incoming entry that the answer opened for the caller. */
  lemma AnswerThenEndFinalisesLog(s: Session, inv: IncomingCall, isVideo: bool, devices: Devices,
                                  t0: int, t1: int, logId: string)
    requires s.incomingCall == Some(inv)
    requires devices(MediaRequest(isVideo, true)).Granted?
    requires logId != ""
    ensures
      var answered := AnswerCall(s, inv.userId, isVideo, devices, t0, logId);
      var ended := EndCall(answered.next, t1);
      var h := CallHistory.GetCallHistory(ended.next.history);
      && answered.sent == [CallAnswer(inv.userId, isVideo)]
      && |h| == |CallHistory.GetCallHistory(s.history)| + 1
      && h[0] == CallHistory.CallLog(logId, inv.username, CallHistory.Incoming, CallHistory.Ended, t0,
                                     Some(t1), Some(RoundSeconds(t1 - t0)), isVideo)
      && h[1..] == CallHistory.GetCallHistory(s.history)
      && ended.next.currentCallLogId.None?
      && ended.next.incomingCall.None?
  {
    var answered := AnswerCall(s, inv.userId, isVideo, devices, t0, logId);
    var h0 := CallHistory.GetCallHistory(answered.next.history);
    Registry.FindIndexIs(h0, CallHistory.LogId, logId, 0);
    var h := CallHistory.GetCallHistory(EndCall(answered.next, t1).next.history);
    assert h[1..] == h0[1..];
  }

  /** Rejecting a pending invitation logs a `declined` incoming call of zero
      duration, acquires no media and creates no connection. */
  lemma RejectScenario(s: Session, inv: IncomingCall, now: int, logId: string)
    requires s.incomingCall == Some(inv)
    ensures
      var r := RejectCall(s, inv.userId, now, logId);
      var h := CallHistory.GetCallHistory(r.next.history);
      && h[0].direction == CallHistory.Incoming && h[0].status == CallHistory.Declined
      && h[0].duration == Some(0)
      && r.next.localStream == s.localStream
      && r.next.peerConnections == s.peerConnections
      && r.next.incomingCall.None?
  {
  }

  /** A transport that drops or fails is reported, but the call goes on until
      it is ended explicitly. */
  lemma DropDoesNotEndCall(s: Session, userId: string, intervalId: nat)
    ensures OnConnectionStateChange(s, userId, TransportDisconnected, intervalId).isInCall == s.isInCall
    ensures OnConnectionStateChange(s, userId, TransportFailed, intervalId).isInCall == s.isInCall
    ensures OnConnectionStateChange(s, userId, TransportDisconnected, intervalId).connectionState == Disconnected
    ensures OnConnectionStateChange(s, userId, TransportFailed, intervalId).localStream == s.localStream
  {
  }

  /** On the answering side the connection is registered, so a connected
      transport starts a monitor and the next sample is stored for the
      caller. */
  lemma AnsweringSideMonitors(s: Session, callerId: string, offer: string, pcId: nat, answer: string,
                              intervalId: nat, report: Quality.StatsReport)
    ensures
      var s1 := HandleCallOffer(s, callerId, offer, pcId, Some(answer)).next;
      var s2 := OnConnectionStateChange(s1, callerId, TransportConnected, intervalId);
      var s3 := MonitorTick(s2, callerId, false, report);
      && s2.connectionState == Connected
      && callerId in s2.monitoringIntervals
      && callerId in s3.connectionStats
      && s3.connectionStats[callerId] == Quality.AnalyzeStats(s2.connectionStats, report, callerId).sample
  {
  }

  /** The caller's connection is never registered, so the callee's answer,
      its ICE candidates and the connected event all find nothing on the
      caller's side: the answer is dropped and no monitor starts. */
  lemma CallerAnswerIsDropped(s: Session, targetId: string, offer: string, answer: string,
                              candidate: string, intervalId: nat)
    requires targetId !in s.peerConnections
    ensures
      var s1 := CreateCallOffer(s, targetId, Some(offer)).next;
      && HandleCallAnswer(s1, targetId, answer, true) == Quiet(s)
      && HandleCallIceCandidate(s1, targetId, candidate, true) == Quiet(s)
      && OnConnectionStateChange(s1, targetId, TransportConnected, intervalId).monitoringIntervals == s.monitoringIntervals
  {
  }

  /** With the caller's connection registered, the answer lands on it and a
      connected transport starts monitoring the callee. */
  lemma RegisteredCallerAppliesAnswer(s: Session, targetId: string, pcId: nat, offer: string, answer: string,
                                      intervalId: nat)
    ensures
      var s1 := CreateCallOfferRegistered(s, targetId, pcId, Some(offer)).next;
      var s2 := HandleCallAnswer(s1, targetId, answer, true).next;
      var s3 := OnConnectionStateChange(s2, targetId, TransportConnected, intervalId);
      && targetId in s2.peerConnections
      && s2.peerConnections[targetId].remoteDescription == Some(answer)
      && s2.peerConnections[targetId].localDescription == Some(offer)
      && targetId in s3.monitoringIntervals
  {
  }
}
