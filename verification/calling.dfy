/** The client call session (`frontend/src/lib/calling.ts`): the call flags,
    the local stream, the registry of peer connections keyed by remote user
    id, the per-user quality monitors, the list of active remote calls and the
    id of the call-log entry being tracked. Every operation is a transition
    from one session value to the next, together with the signalling messages
    it emits, the local tracks it stops, the peer connections it closes and
    the error it rethrows. */
module Calling {
  import opened Common
  import opened Media
  import Quality
  import CallHistory
  import Registry
  import Seqs

  datatype Call = Call(userId: string, username: string, stream: MediaStream, isVideoEnabled: bool, isAudioEnabled: bool)

  datatype IncomingCall = IncomingCall(userId: string, username: string, isVideoCall: bool)

  /** The observable connection-state value. */
  datatype ConnectionState = Idle | Connecting | Connected | Disconnected | Failed

  /** What a peer connection reports through its `connectionState`. */
  datatype TransportState = TransportNew | TransportConnecting | TransportConnected
                          | TransportDisconnected | TransportFailed | TransportClosed

  datatype Session = Session(
    activeCalls: seq<Call>,
    incomingCall: Option<IncomingCall>,
    isInCall: bool,
    isMuted: bool,
    isVideoOff: bool,
    localStream: Option<MediaStream>,
    connectionState: ConnectionState,
    connectionStats: map<string, Quality.ConnectionQuality>,
    peerConnections: map<string, PeerConnection>,
    monitoringIntervals: map<string, nat>,
    lastStats: map<string, Quality.StatsReport>,
    currentCallLogId: Option<string>,
    history: CallHistory.Storage)

  /** The session as the module starts, over an existing stored history. */
  function InitialSession(history: CallHistory.Storage): Session {
    Session([], None, false, false, false, None, Idle, map[], map[], map[], map[], None, history)
  }

  /** Messages the client emits on its socket. */
  datatype Signal =
    | CallInitiate(targetUserId: string, isVideoCall: bool)
    | CallAnswer(callerId: string, isVideoCall: bool)
    | CallReject(callerId: string)
    | CallEnd
    | CallOffer(targetId: string, offer: string)
    | CallAnswerSdp(targetId: string, answer: string)
    | CallIceCandidate(targetId: string, candidate: string)

  /** Errors an operation rethrows to its caller. */
  datatype Fault = MediaFault(error: MediaError) | NegotiationFault

  datatype Step = Step(
    next: Session,
    sent: seq<Signal>,
    stopped: seq<Track>,
    closed: map<string, PeerConnection>,
    thrown: Option<Fault>)

  function Quiet(s: Session): Step {
    Step(s, [], [], map[], None)
  }

  function CallKey(c: Call): string {
    c.userId
  }

  /** At most one active call per remote user. */
  predicate Valid(s: Session) {
    Registry.UniqueKeys(s.activeCalls, CallKey)
  }

  /** Nothing of the call is left: no media, no transports, no remote calls. */
  predicate Released(s: Session) {
    && !s.isInCall && !s.isMuted && !s.isVideoOff
    && s.localStream.None?
    && s.peerConnections == map[]
    && s.activeCalls == []
    && s.connectionState == Idle
  }

  // ---------------------------------------------------------------- monitoring

  /** `startMonitoringConnection`: arm a sampling interval for a user, but only
      when a peer connection is registered for them. */
  function StartMonitoring(s: Session, userId: string, intervalId: nat): (r: Session)
    ensures userId !in s.peerConnections ==> r == s
    ensures userId in s.peerConnections ==>
      && userId in r.monitoringIntervals && r.monitoringIntervals[userId] == intervalId
      && r.monitoringIntervals.Keys == s.monitoringIntervals.Keys + {userId}
      && r.(monitoringIntervals := s.monitoringIntervals) == s
  {
    if userId in s.peerConnections then
      s.(monitoringIntervals := s.monitoringIntervals[userId := intervalId])
    else s
  }

  /** Nothing is held for `userId` by the monitor. */
  predicate Unmonitored(s: Session, userId: string) {
    userId !in s.monitoringIntervals && userId !in s.connectionStats && userId !in s.lastStats
  }

  /** `stopMonitoringConnection`: forget the user's interval, quality sample
      and last report; every other user's entries stay as they were. */
  function StopMonitoring(s: Session, userId: string): (r: Session)
    ensures Unmonitored(r, userId)
    ensures r.monitoringIntervals.Keys == s.monitoringIntervals.Keys - {userId}
    ensures r.connectionStats.Keys == s.connectionStats.Keys - {userId}
    ensures r.lastStats.Keys == s.lastStats.Keys - {userId}
    ensures forall u :: u in r.connectionStats ==> r.connectionStats[u] == s.connectionStats[u]
    ensures forall u :: u in r.monitoringIntervals ==> r.monitoringIntervals[u] == s.monitoringIntervals[u]
    ensures forall u :: u in r.lastStats ==> r.lastStats[u] == s.lastStats[u]
    ensures r.(monitoringIntervals := s.monitoringIntervals, connectionStats := s.connectionStats, lastStats := s.lastStats) == s
    ensures Unmonitored(s, userId) ==> r == s
  {
    s.(monitoringIntervals := s.monitoringIntervals - {userId},
       connectionStats := s.connectionStats - {userId},
       lastStats := s.lastStats - {userId})
  }

  /** One firing of the sampling interval: a transport whose signalling state
      is closed stops its own monitor; otherwise the report is classified and
      kept. */
  function MonitorTick(s: Session, userId: string, signalingClosed: bool, report: Quality.StatsReport): (r: Session)
    ensures signalingClosed ==> Unmonitored(r, userId) && r == StopMonitoring(s, userId)
    ensures !signalingClosed ==>
      && r.connectionStats == Quality.AnalyzeStats(s.connectionStats, report, userId).stats
      && r.lastStats == s.lastStats[userId := report]
      && r.monitoringIntervals == s.monitoringIntervals
      && r.(connectionStats := s.connectionStats, lastStats := s.lastStats) == s
  {
    if signalingClosed then StopMonitoring(s, userId)
    else
      var a := Quality.AnalyzeStats(s.connectionStats, report, userId);
      s.(connectionStats := a.stats, lastStats := s.lastStats[userId := report])
  }

  // ------------------------------------------------------------ call lifecycle

  /** Both start and answer ask for audio, and for video on a video call. */
  function CallRequest(isVideoCall: bool): MediaRequest {
    MediaRequest(isVideoCall, true)
  }

  /** The failure path shared by `startCall` and `answerCall`. */
  function MediaFailed(s: Session, e: MediaError): Step {
    Step(s.(isInCall := false, localStream := None), [], [], map[], Some(MediaFault(e)))
  }

  /** The flags set once local media is acquired. */
  function Acquired(s: Session, stream: MediaStream, isVideoCall: bool): Session {
    s.(localStream := Some(stream), isInCall := true, isMuted := false, isVideoOff := !isVideoCall)
  }

  /** `startCall`: acquire media, emit the invitation and open an outgoing
      log entry marked `answered`. */
  function StartCall(s: Session, targetUserId: string, isVideoCall: bool, devices: Devices, now: int, logId: string): (r: Step)
    ensures devices(MediaRequest(isVideoCall, true)).Refused? ==>
      && !r.next.isInCall && r.next.localStream.None?
      && r.thrown == Some(MediaFault(devices(MediaRequest(isVideoCall, true)).error))
      && r.sent == []
      && r.next.history == s.history && r.next.currentCallLogId == s.currentCallLogId
      && r.next.(isInCall := s.isInCall, localStream := s.localStream) == s
    ensures devices(MediaRequest(isVideoCall, true)).Granted? ==>
      var h := CallHistory.GetCallHistory(r.next.history);
      && r.next.isInCall && !r.next.isMuted && r.next.isVideoOff == !isVideoCall
      && r.next.localStream == Some(devices(MediaRequest(isVideoCall, true)).stream)
      && r.sent == [CallInitiate(targetUserId, isVideoCall)]
      && r.thrown.None?
      && r.next.currentCallLogId == Some(logId)
      && |h| == |CallHistory.GetCallHistory(s.history)| + 1
      && h[0] == CallHistory.CallLog(logId, targetUserId, CallHistory.Outgoing, CallHistory.Answered, now, None, None, isVideoCall)
      && h[1..] == CallHistory.GetCallHistory(s.history)
      && r.next.(localStream := s.localStream, isInCall := s.isInCall, isMuted := s.isMuted, isVideoOff := s.isVideoOff,
                 history := s.history, currentCallLogId := s.currentCallLogId) == s
    ensures r.next.activeCalls == s.activeCalls && r.next.peerConnections == s.peerConnections
    ensures r.stopped == [] && r.closed == map[]
  {
    match devices(CallRequest(isVideoCall))
    case Refused(e) => MediaFailed(s, e)
    case Granted(stream) =>
      var s1 := Acquired(s, stream, isVideoCall);
      var draft := CallHistory.CallLog("", targetUserId, CallHistory.Outgoing, CallHistory.Answered, now, None, None, isVideoCall);
      var a := CallHistory.AddCallLog(s1.history, draft, logId);
      Step(s1.(history := a.store, currentCallLogId := Some(a.log.id)), [CallInitiate(targetUserId, isVideoCall)], [], map[], None)
  }

  /** `answerCall`: acquire media, emit the answer, open an incoming
      `answered` log entry only when an invitation is pending, then clear
      it. On failure the invitation stays pending. */
  function AnswerCall(s: Session, callerId: string, isVideoCall: bool, devices: Devices, now: int, logId: string): (r: Step)
    ensures devices(MediaRequest(isVideoCall, true)).Refused? ==>
      && !r.next.isInCall && r.next.localStream.None?
      && r.thrown == Some(MediaFault(devices(MediaRequest(isVideoCall, true)).error))
      && r.sent == []
      && r.next.incomingCall == s.incomingCall
      && r.next.history == s.history && r.next.currentCallLogId == s.currentCallLogId
      && r.next.(isInCall := s.isInCall, localStream := s.localStream) == s
    ensures devices(MediaRequest(isVideoCall, true)).Granted? ==>
      && r.next.isInCall && !r.next.isMuted && r.next.isVideoOff == !isVideoCall
      && r.next.localStream == Some(devices(MediaRequest(isVideoCall, true)).stream)
      && r.sent == [CallAnswer(callerId, isVideoCall)]
      && r.thrown.None?
      && r.next.incomingCall.None?
      && r.next.(localStream := s.localStream, isInCall := s.isInCall, isMuted := s.isMuted, isVideoOff := s.isVideoOff,
                 history := s.history, currentCallLogId := s.currentCallLogId, incomingCall := s.incomingCall) == s
    ensures devices(MediaRequest(isVideoCall, true)).Granted? && s.incomingCall.Some? ==>
      var h := CallHistory.GetCallHistory(r.next.history);
      && r.next.currentCallLogId == Some(logId)
      && |h| == |CallHistory.GetCallHistory(s.history)| + 1
      && h[0] == CallHistory.CallLog(logId, s.incomingCall.value.username, CallHistory.Incoming, CallHistory.Answered, now, None, None, isVideoCall)
      && h[1..] == CallHistory.GetCallHistory(s.history)
    ensures devices(MediaRequest(isVideoCall, true)).Granted? && s.incomingCall.None? ==>
      r.next.history == s.history && r.next.currentCallLogId == s.currentCallLogId
    ensures r.next.activeCalls == s.activeCalls && r.next.peerConnections == s.peerConnections
    ensures r.stopped == [] && r.closed == map[]
  {
    match devices(CallRequest(isVideoCall))
    case Refused(e) => MediaFailed(s, e)
    case Granted(stream) =>
      var s1 := Acquired(s, stream, isVideoCall);
      var s2 :=
        if s.incomingCall.Some? then
          var draft := CallHistory.CallLog("", s.incomingCall.value.username, CallHistory.Incoming, CallHistory.Answered, now, None, None, isVideoCall);
          var a := CallHistory.AddCallLog(s1.history, draft, logId);
          s1.(history := a.store, currentCallLogId := Some(a.log.id))
        else s1;
      Step(s2.(incomingCall := None), [CallAnswer(callerId, isVideoCall)], [], map[], None)
  }

  /** The log entry of a declined invitation: incoming, zero seconds. */
  function DeclinedLog(inv: IncomingCall, now: int): CallHistory.CallLog {
    CallHistory.CallLog("", inv.username, CallHistory.Incoming, CallHistory.Declined, now, Some(now), Some(0), inv.isVideoCall)
  }

  /** `rejectCall`: emit the rejection, log a `declined` incoming call of
      zero duration when an invitation is pending, and always clear it. */
  function RejectCall(s: Session, callerId: string, now: int, logId: string): (r: Step)
    ensures r.sent == [CallReject(callerId)]
    ensures r.next.incomingCall.None?
    ensures s.incomingCall.Some? ==>
      var h := CallHistory.GetCallHistory(r.next.history);
      && |h| == |CallHistory.GetCallHistory(s.history)| + 1
      && h[0] == DeclinedLog(s.incomingCall.value, now).(id := logId)
      && h[1..] == CallHistory.GetCallHistory(s.history)
    ensures s.incomingCall.None? ==> r.next.history == s.history
    ensures r.next.(incomingCall := s.incomingCall, history := s.history) == s
    ensures r.stopped == [] && r.closed == map[] && r.thrown.None?
  {
    if s.incomingCall.Some? then
      var inv := s.incomingCall.value;
      var added := CallHistory.AddCallLog(s.history, DeclinedLog(inv, now), logId);
      Step(s.(history := added.store, incomingCall := None), [CallReject(callerId)], [], map[], None)
    else
      Step(s.(incomingCall := None), [CallReject(callerId)], [], map[], None)
  }

  /** `Math.round(ms / 1000)`: halves round up. */
  function RoundSeconds(ms: int): int {
    (ms + 500) / 1000
  }

  /** The rounded value is the whole number of seconds within half a second
      of the duration, ties going up. */
  lemma RoundSecondsCharacterized(ms: int, secs: int)
    ensures RoundSeconds(ms) == secs <==> secs * 1000 - 500 <= ms < secs * 1000 + 500
  {
  }

  /** The fields `endCall` writes into the tracked log entry. */
  function EndPatch(now: int, startTime: int): CallHistory.CallLogPatch {
    CallHistory.CallLogPatch(None, None, None, Some(CallHistory.Ended), None, Some(now), Some(RoundSeconds(now - startTime)), None)
  }

  /** `endCall` finalises a log entry: a truthy id is tracked and the stored
      history holds an entry with it. */
  predicate Finalises(s: Session) {
    && TruthyString(s.currentCallLogId)
    && Registry.HasKey(CallHistory.GetCallHistory(s.history), CallHistory.LogId, s.currentCallLogId.value)
  }

  function FinalisedHistory(s: Session, now: int): CallHistory.Storage {
    if TruthyString(s.currentCallLogId) then
      var id := s.currentCallLogId.value;
      match Registry.Lookup(CallHistory.GetCallHistory(s.history), CallHistory.LogId, id)
      case Some(log) => CallHistory.UpdateCallLog(s.history, id, EndPatch(now, log.startTime))
      case None => s.history
    else s.history
  }

  /** `endCall`: stop every local track, finalise the tracked log entry at
      most once, reset the flags, emit the end, close every registered peer
      connection and stop its monitor, and empty the registries. */
  function EndCall(s: Session, now: int): (r: Step)
    ensures Released(r.next)
    ensures r.sent == [CallEnd] && r.thrown.None?
    ensures s.localStream.Some? ==>
      && |r.stopped| == |s.localStream.value.tracks|
      && (forall i :: 0 <= i < |r.stopped| ==> r.stopped[i].stopped && r.stopped[i].id == s.localStream.value.tracks[i].id)
    ensures s.localStream.None? ==> r.stopped == []
    ensures r.closed.Keys == s.peerConnections.Keys
    ensures forall u :: u in r.closed ==> r.closed[u].closed && r.closed[u].id == s.peerConnections[u].id
    ensures r.next.monitoringIntervals.Keys == s.monitoringIntervals.Keys - s.peerConnections.Keys
    ensures r.next.connectionStats.Keys == s.connectionStats.Keys - s.peerConnections.Keys
    ensures r.next.lastStats.Keys == s.lastStats.Keys - s.peerConnections.Keys
    ensures forall u :: u in r.next.monitoringIntervals ==> r.next.monitoringIntervals[u] == s.monitoringIntervals[u]
    ensures forall u :: u in r.next.connectionStats ==> r.next.connectionStats[u] == s.connectionStats[u]
    ensures forall u :: u in r.next.lastStats ==> r.next.lastStats[u] == s.lastStats[u]
    ensures TruthyString(s.currentCallLogId) ==> r.next.currentCallLogId.None?
    ensures !TruthyString(s.currentCallLogId) ==> r.next.currentCallLogId == s.currentCallLogId
    ensures !Finalises(s) ==> r.next.history == s.history
    ensures Finalises(s) ==>
      var h, h' := CallHistory.GetCallHistory(s.history), CallHistory.GetCallHistory(r.next.history);
      var i := Registry.FindIndex(h, CallHistory.LogId, s.currentCallLogId.value);
      && |h'| == |h|
      && h'[i] == h[i].(status := CallHistory.Ended, endTime := Some(now), duration := Some(RoundSeconds(now - h[i].startTime)))
      && (forall j :: 0 <= j < |h| && j != i ==> h'[j] == h[j])
    ensures r.next.incomingCall == s.incomingCall
  {
    var stopped := if s.localStream.Some? then StopAll(s.localStream.value.tracks) else [];
    var pcs := s.peerConnections.Keys;
    var next := s.(
      localStream := None,
      history := FinalisedHistory(s, now),
      currentCallLogId := if TruthyString(s.currentCallLogId) then None else s.currentCallLogId,
      isInCall := false, isMuted := false, isVideoOff := false,
      monitoringIntervals := s.monitoringIntervals - pcs,
      connectionStats := s.connectionStats - pcs,
      lastStats := s.lastStats - pcs,
      peerConnections := map[],
      activeCalls := [],
      connectionState := Idle);
    Step(next, [CallEnd], stopped, CloseAll(s.peerConnections), None)
  }

  /** A second `endCall` finds nothing left to stop, close or finalise. */
  lemma EndCallIdempotent(s: Session, t1: int, t2: int)
    ensures
      var once := EndCall(s, t1).next;
      var twice := EndCall(once, t2);
      && twice.next == once
      && twice.stopped == [] && twice.closed == map[]
  {
  }

  /** `toggleMute`: flip the first audio track of the local stream and mirror
      it in the muted flag; without a stream or an audio track nothing
      changes. */
  function ToggleMute(s: Session): (r: Session)
    ensures s.localStream.None? || !HasKind(s.localStream.value.tracks, AudioTrack) ==> r == s
    ensures s.localStream.Some? && HasKind(s.localStream.value.tracks, AudioTrack) ==>
      var ts := s.localStream.value.tracks;
      var i := FirstOfKind(ts, AudioTrack);
      && r.localStream.Some? && r.localStream.value.id == s.localStream.value.id
      && |r.localStream.value.tracks| == |ts|
      && r.localStream.value.tracks[i].enabled == !ts[i].enabled
      && (forall j :: 0 <= j < |ts| && j != i ==> r.localStream.value.tracks[j] == ts[j])
      && r.isMuted == ts[i].enabled
      && r.(localStream := s.localStream, isMuted := s.isMuted) == s
  {
    ToggleTrack(s, AudioTrack)
  }

  /** `toggleVideo`: the same on the first video track and the video-off flag. */
  function ToggleVideo(s: Session): (r: Session)
    ensures s.localStream.None? || !HasKind(s.localStream.value.tracks, VideoTrack) ==> r == s
    ensures s.localStream.Some? && HasKind(s.localStream.value.tracks, VideoTrack) ==>
      var ts := s.localStream.value.tracks;
      var i := FirstOfKind(ts, VideoTrack);
      && r.localStream.Some? && r.localStream.value.id == s.localStream.value.id
      && |r.localStream.value.tracks| == |ts|
      && r.localStream.value.tracks[i].enabled == !ts[i].enabled
      && (forall j :: 0 <= j < |ts| && j != i ==> r.localStream.value.tracks[j] == ts[j])
      && r.isVideoOff == ts[i].enabled
      && r.(localStream := s.localStream, isVideoOff := s.isVideoOff) == s
  {
    ToggleTrack(s, VideoTrack)
  }

  function ToggleTrack(s: Session, kind: TrackKind): Session {
    if s.localStream.None? then s
    else
      var ts := s.localStream.value.tracks;
      var i := FirstOfKind(ts, kind);
      if i < 0 then s
      else
        var s1 := s.(localStream := Some(s.localStream.value.(tracks := FlipFirst(ts, kind))));
        if kind == AudioTrack then s1.(isMuted := ts[i].enabled) else s1.(isVideoOff := ts[i].enabled)
  }

  /** Flip `enabled` on the first track of a kind. */
  function FlipFirst(ts: seq<Track>, kind: TrackKind): seq<Track> {
    var i := FirstOfKind(ts, kind);
    if i < 0 then ts else ts[i := ts[i].(enabled := !ts[i].enabled)]
  }

  lemma FlipFirstTwice(ts: seq<Track>, kind: TrackKind)
    ensures FlipFirst(FlipFirst(ts, kind), kind) == ts
  {
    var i := FirstOfKind(ts, kind);
    if i >= 0 {
      var ts' := FlipFirst(ts, kind);
      assert FirstOfKind(ts', kind) == i by {
        assert ts'[i].kind == kind;
        assert forall j :: 0 <= j < i ==> ts'[j] == ts[j];
      }
      assert FlipFirst(ts', kind) == ts;
    }
  }

  /** Toggling twice gives the local stream back as it was. */
  lemma ToggleMuteTwice(s: Session)
    ensures ToggleMute(ToggleMute(s)).localStream == s.localStream
  {
    if s.localStream.Some? {
      FlipFirstTwice(s.localStream.value.tracks, AudioTrack);
    }
  }

  /** A connection that sends the local stream's tracks still sends exactly
      those tracks after a mute: the toggle flips a flag on a track the
      connection shares, it neither adds nor replaces one. */
  lemma MuteReachesConnections(s: Session, userId: string)
    requires s.localStream.Some? && userId in s.peerConnections
    requires s.peerConnections[userId].senders == TrackIds(s.localStream.value.tracks)
    ensures var r := ToggleMute(s);
      r.localStream.Some? && r.peerConnections[userId].senders == TrackIds(r.localStream.value.tracks)
  {
    FlipFirstKeepsIds(s.localStream.value.tracks, AudioTrack);
  }

  /** The same for a video toggle. */
  lemma VideoToggleReachesConnections(s: Session, userId: string)
    requires s.localStream.Some? && userId in s.peerConnections
    requires s.peerConnections[userId].senders == TrackIds(s.localStream.value.tracks)
    ensures var r := ToggleVideo(s);
      r.localStream.Some? && r.peerConnections[userId].senders == TrackIds(r.localStream.value.tracks)
  {
    FlipFirstKeepsIds(s.localStream.value.tracks, VideoTrack);
  }

  /** Flipping a flag keeps every track's id. */
  lemma FlipFirstKeepsIds(ts: seq<Track>, kind: TrackKind)
    ensures TrackIds(FlipFirst(ts, kind)) == TrackIds(ts)
  {
    var ts' := FlipFirst(ts, kind);
    assert |ts'| == |ts| && forall i :: 0 <= i < |ts| ==> ts'[i].id == ts[i].id;
    TrackIdsIgnoreFlags(ts, ts');
  }

  // ------------------------------------------------------------- negotiation

  /** The local ICE candidate callback: forward a candidate to the remote
      party; the end-of-candidates event sends nothing. */
  function OnIceCandidate(targetId: string, candidate: Option<string>): (sent: seq<Signal>)
    ensures candidate.Some? ==> sent == [CallIceCandidate(targetId, candidate.value)]
    ensures candidate.None? ==> sent == []
  {
    if candidate.Some? then [CallIceCandidate(targetId, candidate.value)] else []
  }

  /** `createCallOffer`, as written: the new connection is never put in the
      registry, so the session value is untouched; only the offer is sent
      once the browser produced it. */
  function CreateCallOffer(s: Session, targetId: string, offer: Option<string>): (r: Step)
    ensures r.next == s
    ensures offer.Some? ==> r.sent == [CallOffer(targetId, offer.value)] && r.thrown.None?
    ensures offer.None? ==> r.sent == [] && r.thrown == Some(NegotiationFault)
  {
    if offer.Some? then Step(s, [CallOffer(targetId, offer.value)], [], map[], None)
    else Step(s, [], [], map[], Some(NegotiationFault))
  }

  /** `createCallOffer` with the connection registered under the target, as
      the answering side and the screen-share module do. */
  function CreateCallOfferRegistered(s: Session, targetId: string, pcId: nat, offer: Option<string>): (r: Step)
    ensures targetId in r.next.peerConnections
    ensures r.next.peerConnections[targetId].id == pcId && !r.next.peerConnections[targetId].closed
    ensures r.next.peerConnections[targetId].localDescription == offer
    ensures offer.Some? ==> r.sent == [CallOffer(targetId, offer.value)] && r.thrown.None?
    ensures offer.None? ==> r.sent == [] && r.thrown == Some(NegotiationFault)
    ensures r.next.(peerConnections := s.peerConnections) == s
  {
    var pc := NewPeerConnection(pcId, s.localStream).(localDescription := offer);
    var s1 := s.(peerConnections := s.peerConnections[targetId := pc]);
    if offer.Some? then Step(s1, [CallOffer(targetId, offer.value)], [], map[], None)
    else Step(s1, [], [], map[], Some(NegotiationFault))
  }

  /** `handleCallOffer`: register a fresh connection under the sender
      (replacing any earlier one), mark the state connecting, attach the
      local tracks, and when the browser produced an answer, set both
      descriptions and send the answer back. */
  function HandleCallOffer(s: Session, senderId: string, offer: string, pcId: nat, answer: Option<string>): (r: Step)
    ensures senderId in r.next.peerConnections
    ensures var pc := r.next.peerConnections[senderId];
      && pc.id == pcId && !pc.closed
      && pc.senders == (if s.localStream.Some? then TrackIds(s.localStream.value.tracks) else [])
      && (answer.Some? ==> pc.remoteDescription == Some(offer) && pc.localDescription == answer)
      && (answer.None? ==> pc.remoteDescription.None? && pc.localDescription.None?)
    ensures forall u :: u in s.peerConnections && u != senderId ==> u in r.next.peerConnections && r.next.peerConnections[u] == s.peerConnections[u]
    ensures r.next.peerConnections.Keys == s.peerConnections.Keys + {senderId}
    ensures r.next.connectionState == Connecting
    ensures answer.Some? ==> r.sent == [CallAnswerSdp(senderId, answer.value)] && r.thrown.None?
    ensures answer.None? ==> r.sent == [] && r.thrown == Some(NegotiationFault)
    ensures r.next.(peerConnections := s.peerConnections, connectionState := s.connectionState) == s
    ensures r.stopped == [] && r.closed == map[]
  {
    var pc := NewPeerConnection(pcId, s.localStream);
    var pc' := if answer.Some? then pc.(remoteDescription := Some(offer), localDescription := answer) else pc;
    var s1 := s.(peerConnections := s.peerConnections[senderId := pc'], connectionState := Connecting);
    if answer.Some? then Step(s1, [CallAnswerSdp(senderId, answer.value)], [], map[], None)
    else Step(s1, [], [], map[], Some(NegotiationFault))
  }

  /** The connection-state callback of a connection for `userId`: `connected`
      starts monitoring (which needs a registered connection), `disconnected`
      and `failed` are only reported, never treated as the end of the call. */
  function OnConnectionStateChange(s: Session, userId: string, state: TransportState, intervalId: nat): (r: Session)
    ensures state == TransportConnected ==>
      r == StartMonitoring(s.(connectionState := Connected), userId, intervalId)
    ensures state == TransportDisconnected ==> r == s.(connectionState := Disconnected)
    ensures state == TransportFailed ==> r == s.(connectionState := Failed)
    ensures state !in {TransportConnected, TransportDisconnected, TransportFailed} ==> r == s
    ensures r.isInCall == s.isInCall && r.peerConnections == s.peerConnections && r.activeCalls == s.activeCalls
  {
    match state
    case TransportConnected => StartMonitoring(s.(connectionState := Connected), userId, intervalId)
    case TransportDisconnected => s.(connectionState := Disconnected)
    case TransportFailed => s.(connectionState := Failed)
    case _ => s
  }

  /** `handleCallAnswer`: set the remote description on the sender's
      connection; a sender with no registered connection changes nothing.
      `applied` is whether the browser accepted the description; when it
      did not, the rejection reaches the caller and nothing changes. */
  function HandleCallAnswer(s: Session, senderId: string, answer: string, applied: bool): (r: Step)
    ensures senderId !in s.peerConnections ==> r == Quiet(s)
    ensures senderId in s.peerConnections && !applied ==> r == Quiet(s).(thrown := Some(NegotiationFault))
    ensures senderId in s.peerConnections && applied ==>
      && r.next.peerConnections == s.peerConnections[senderId := s.peerConnections[senderId].(remoteDescription := Some(answer))]
      && r.next.(peerConnections := s.peerConnections) == s
      && r.thrown.None?
    ensures r.sent == [] && r.stopped == [] && r.closed == map[]
  {
    if senderId !in s.peerConnections then Quiet(s)
    else if !applied then Quiet(s).(thrown := Some(NegotiationFault))
    else
      Quiet(s.(peerConnections := s.peerConnections[senderId := s.peerConnections[senderId].(remoteDescription := Some(answer))]))
  }

  /** `handleCallIceCandidate`: add the candidate to the sender's connection;
      a candidate for an unknown sender is dropped, not buffered, and one the
      browser refuses is reported to the caller. */
  function HandleCallIceCandidate(s: Session, senderId: string, candidate: string, applied: bool): (r: Step)
    ensures senderId !in s.peerConnections ==> r == Quiet(s)
    ensures senderId in s.peerConnections && !applied ==> r == Quiet(s).(thrown := Some(NegotiationFault))
    ensures senderId in s.peerConnections && applied ==>
      && senderId in r.next.peerConnections
      && r.next.peerConnections[senderId].candidates == s.peerConnections[senderId].candidates + [candidate]
      && r.next.peerConnections[senderId].(candidates := s.peerConnections[senderId].candidates) == s.peerConnections[senderId]
      && r.next.(peerConnections := s.peerConnections) == s
      && r.thrown.None?
    ensures r.sent == [] && r.stopped == [] && r.closed == map[]
  {
    if senderId !in s.peerConnections then Quiet(s)
    else if !applied then Quiet(s).(thrown := Some(NegotiationFault))
    else
      var pc := s.peerConnections[senderId];
      Quiet(s.(peerConnections := s.peerConnections[senderId := pc.(candidates := pc.candidates + [candidate])]))
  }

  // ------------------------------------------------------------ remote calls

  /** `addRemoteStream`: the track callback's upsert of the remote call for a
      user, replacing the user's entry in place or appending a new one. */
  function AddRemoteStream(s: Session, userId: string, stream: MediaStream): (r: Session)
    ensures var c := Call(userId, "", stream, HasKind(stream.tracks, VideoTrack), HasKind(stream.tracks, AudioTrack));
      && Registry.Lookup(r.activeCalls, CallKey, userId) == Some(c)
      && (Registry.HasKey(s.activeCalls, CallKey, userId) ==> |r.activeCalls| == |s.activeCalls|)
      && (!Registry.HasKey(s.activeCalls, CallKey, userId) ==> r.activeCalls == s.activeCalls + [c])
      && (forall i :: 0 <= i < |s.activeCalls| && s.activeCalls[i].userId != userId ==> r.activeCalls[i] == s.activeCalls[i])
    ensures Valid(s) ==> Valid(r)
    ensures r.(activeCalls := s.activeCalls) == s
  {
    var c := Call(userId, "", stream, HasKind(stream.tracks, VideoTrack), HasKind(stream.tracks, AudioTrack));
    s.(activeCalls := Registry.Upsert(s.activeCalls, CallKey, c))
  }

  /** `removeCall`: drop the user's remote call, close and unregister the
      user's connection and stop its monitor; other users are untouched. */
  function RemoveCall(s: Session, userId: string): (r: Step)
    ensures !Registry.HasKey(r.next.activeCalls, CallKey, userId)
    ensures forall i :: 0 <= i < |r.next.activeCalls| ==> r.next.activeCalls[i] in s.activeCalls
    ensures forall i :: 0 <= i < |s.activeCalls| && s.activeCalls[i].userId != userId ==> s.activeCalls[i] in r.next.activeCalls
    ensures Seqs.Subsequence(r.next.activeCalls, s.activeCalls)
    ensures forall i :: 0 <= i < |s.activeCalls| ==>
      multiset(r.next.activeCalls)[s.activeCalls[i]] == if s.activeCalls[i].userId == userId then 0 else multiset(s.activeCalls)[s.activeCalls[i]]
    ensures r.next.peerConnections == s.peerConnections - {userId}
    ensures userId in s.peerConnections ==> r.closed == map[userId := Close(s.peerConnections[userId])]
    ensures userId !in s.peerConnections ==> r.closed == map[]
    ensures Unmonitored(r.next, userId)
    ensures forall u :: u in r.next.connectionStats ==> u in s.connectionStats && r.next.connectionStats[u] == s.connectionStats[u]
    ensures r.next.connectionStats.Keys == s.connectionStats.Keys - {userId}
    ensures r.next.monitoringIntervals.Keys == s.monitoringIntervals.Keys - {userId}
    ensures forall u :: u in r.next.monitoringIntervals ==> r.next.monitoringIntervals[u] == s.monitoringIntervals[u]
    ensures r.next.lastStats.Keys == s.lastStats.Keys - {userId}
    ensures forall u :: u in r.next.lastStats ==> r.next.lastStats[u] == s.lastStats[u]
    ensures Valid(s) ==> Valid(r.next)
    ensures r.sent == [] && r.stopped == [] && r.thrown.None?
    ensures r.next.(activeCalls := s.activeCalls, peerConnections := s.peerConnections, monitoringIntervals := s.monitoringIntervals,
                    connectionStats := s.connectionStats, lastStats := s.lastStats) == s
  {
    var closed := if userId in s.peerConnections then map[userId := Close(s.peerConnections[userId])] else map[];
    var s1 := s.(activeCalls := Registry.RemoveKey(s.activeCalls, CallKey, userId),
                 peerConnections := s.peerConnections - {userId});
    Step(StopMonitoring(s1, userId), [], [], closed, None)
  }

  /** Removing a user the session knows nothing about is a no-op. */
  lemma RemoveUnknownCallIsNoop(s: Session, userId: string)
    requires !Registry.HasKey(s.activeCalls, CallKey, userId)
    requires userId !in s.peerConnections && Unmonitored(s, userId)
    ensures RemoveCall(s, userId) == Quiet(s)
  {
    assert s.peerConnections - {userId} == s.peerConnections;
    assert s.monitoringIntervals - {userId} == s.monitoringIntervals;
    assert s.connectionStats - {userId} == s.connectionStats;
    assert s.lastStats - {userId} == s.lastStats;
  }
}
