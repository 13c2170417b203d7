/** One-way screen sharing (`frontend/src/lib/webrtc.ts`): the sharer's
    display stream and sharing flag, the registry of peer connections keyed
    by remote user id, and the list of screens others share with us. */
module ScreenShare {
  import opened Common
  import opened Media
  import Registry
  import Seqs

  datatype Share = Share(userId: string, username: string, stream: MediaStream)

  datatype State = State(
    screenShares: seq<Share>,
    isSharing: bool,
    peerConnections: map<string, PeerConnection>,
    localStream: Option<MediaStream>)

  const Initial := State([], false, map[], None)

  /** Messages the sharer emits on its socket. */
  datatype Signal =
    | StartScreenShareSignal
    | StopScreenShareSignal
    | WebrtcOffer(targetId: string, offer: string)
    | WebrtcAnswer(targetId: string, answer: string)
    | WebrtcIceCandidate(targetId: string, candidate: string)

  /** Errors rethrown to the caller: the display request was refused, the
      granted stream had no video track to watch, or negotiation failed. */
  datatype Fault = MediaFault(error: MediaError) | NoVideoTrack | NegotiationFault

  datatype Step = Step(
    next: State,
    sent: seq<Signal>,
    stopped: seq<Track>,
    closed: map<string, PeerConnection>,
    thrown: Option<Fault>)

  function ShareKey(s: Share): string {
    s.userId
  }

  /** At most one shared screen per remote user. */
  predicate Valid(st: State) {
    Registry.UniqueKeys(st.screenShares, ShareKey)
  }

  /** Screen capture asks for video and never for the microphone. */
  const DisplayRequest := MediaRequest(true, false)

  /** `startScreenShare`: capture the display; on success keep the stream,
      raise the sharing flag and announce it. A refused capture is rethrown
      and changes nothing. Watching the first video track for its end fails
      when the stream has none, after the flag was raised and the
      announcement sent. */
  function StartScreenShare(st: State, devices: Devices): (r: Step)
    ensures devices(MediaRequest(true, false)).Refused? ==>
      r.next == st && r.sent == [] && r.thrown == Some(MediaFault(devices(MediaRequest(true, false)).error))
    ensures devices(MediaRequest(true, false)).Granted? ==>
      var stream := devices(MediaRequest(true, false)).stream;
      && r.next == st.(localStream := Some(stream), isSharing := true)
      && r.sent == [StartScreenShareSignal]
      && (r.thrown.None? <==> HasKind(stream.tracks, VideoTrack))
    ensures r.stopped == [] && r.closed == map[]
  {
    match devices(DisplayRequest)
    case Refused(e) => Step(st, [], [], map[], Some(MediaFault(e)))
    case Granted(stream) =>
      var next := st.(localStream := Some(stream), isSharing := true);
      var thrown := if FirstOfKind(stream.tracks, VideoTrack) < 0 then Some(NoVideoTrack) else None;
      Step(next, [StartScreenShareSignal], [], map[], thrown)
  }

  /** `stopScreenShare` (also run when the shared track ends): stop every
      local track, drop the stream, lower the flag, announce it, and close
      and forget every peer connection. */
  function StopScreenShare(st: State): (r: Step)
    ensures r.next.localStream.None? && !r.next.isSharing && r.next.peerConnections == map[]
    ensures r.next.screenShares == st.screenShares
    ensures r.sent == [StopScreenShareSignal] && r.thrown.None?
    ensures st.localStream.Some? ==>
      && |r.stopped| == |st.localStream.value.tracks|
      && (forall i :: 0 <= i < |r.stopped| ==> r.stopped[i].stopped && r.stopped[i].id == st.localStream.value.tracks[i].id)
    ensures st.localStream.None? ==> r.stopped == []
    ensures r.closed.Keys == st.peerConnections.Keys
    ensures forall u :: u in r.closed ==> r.closed[u].closed && r.closed[u].id == st.peerConnections[u].id
  {
    var stopped := if st.localStream.Some? then StopAll(st.localStream.value.tracks) else [];
    Step(st.(localStream := None, isSharing := false, peerConnections := map[]),
         [StopScreenShareSignal], stopped, CloseAll(st.peerConnections), None)
  }

  /** A repeated stop has nothing left to stop or close. */
  lemma StopTwiceStopsNothing(st: State)
    ensures var again := StopScreenShare(StopScreenShare(st).next);
      again.stopped == [] && again.closed == map[] && again.next == StopScreenShare(st).next
  {
  }

  /** `createOffer`: register a fresh connection under the target, replacing
      any earlier one, with the local tracks attached; send the offer once
      the browser produced it. */
  function CreateOffer(st: State, targetId: string, pcId: nat, offer: Option<string>): (r: Step)
    ensures targetId in r.next.peerConnections
    ensures var pc := r.next.peerConnections[targetId];
      && pc.id == pcId && !pc.closed && pc.localDescription == offer
      && pc.senders == (if st.localStream.Some? then TrackIds(st.localStream.value.tracks) else [])
    ensures forall u :: u in st.peerConnections && u != targetId ==> u in r.next.peerConnections && r.next.peerConnections[u] == st.peerConnections[u]
    ensures r.next.peerConnections.Keys == st.peerConnections.Keys + {targetId}
    ensures r.next.(peerConnections := st.peerConnections) == st
    ensures offer.Some? ==> r.sent == [WebrtcOffer(targetId, offer.value)] && r.thrown.None?
    ensures offer.None? ==> r.sent == [] && r.thrown == Some(NegotiationFault)
    ensures r.stopped == [] && r.closed == map[]
  {
    var pc := NewPeerConnection(pcId, st.localStream).(localDescription := offer);
    var next := st.(peerConnections := st.peerConnections[targetId := pc]);
    if offer.Some? then Step(next, [WebrtcOffer(targetId, offer.value)], [], map[], None)
    else Step(next, [], [], map[], Some(NegotiationFault))
  }

  /** `handleOffer`: register a fresh connection under the sender, replacing
      any earlier one; when the browser produced an answer, set both
      descriptions and send it back. No local tracks are attached on the
      viewing side. */
  function HandleOffer(st: State, senderId: string, offer: string, pcId: nat, answer: Option<string>): (r: Step)
    ensures senderId in r.next.peerConnections
    ensures var pc := r.next.peerConnections[senderId];
      && pc.id == pcId && !pc.closed && pc.senders == []
      && (answer.Some? ==> pc.remoteDescription == Some(offer) && pc.localDescription == answer)
      && (answer.None? ==> pc.remoteDescription.None? && pc.localDescription.None?)
    ensures forall u :: u in st.peerConnections && u != senderId ==> u in r.next.peerConnections && r.next.peerConnections[u] == st.peerConnections[u]
    ensures r.next.peerConnections.Keys == st.peerConnections.Keys + {senderId}
    ensures r.next.(peerConnections := st.peerConnections) == st
    ensures answer.Some? ==> r.sent == [WebrtcAnswer(senderId, answer.value)] && r.thrown.None?
    ensures answer.None? ==> r.sent == [] && r.thrown == Some(NegotiationFault)
    ensures r.stopped == [] && r.closed == map[]
  {
    var pc := NewPeerConnection(pcId, None);
    var pc' := if answer.Some? then pc.(remoteDescription := Some(offer), localDescription := answer) else pc;
    var next := st.(peerConnections := st.peerConnections[senderId := pc']);
    if answer.Some? then Step(next, [WebrtcAnswer(senderId, answer.value)], [], map[], None)
    else Step(next, [], [], map[], Some(NegotiationFault))
  }

  /** The local ICE candidate callback of either side. */
  function OnIceCandidate(targetId: string, candidate: Option<string>): (sent: seq<Signal>)
    ensures candidate.Some? ==> sent == [WebrtcIceCandidate(targetId, candidate.value)]
    ensures candidate.None? ==> sent == []
  {
    if candidate.Some? then [WebrtcIceCandidate(targetId, candidate.value)] else []
  }

  /** The track callback installed by `handleOffer`: upsert the sender's
      shared screen, in place when present and appended otherwise. */
  function OnTrack(st: State, senderId: string, username: string, stream: MediaStream): (r: State)
    ensures Registry.Lookup(r.screenShares, ShareKey, senderId) == Some(Share(senderId, username, stream))
    ensures Registry.HasKey(st.screenShares, ShareKey, senderId) ==> |r.screenShares| == |st.screenShares|
    ensures !Registry.HasKey(st.screenShares, ShareKey, senderId) ==>
      r.screenShares == st.screenShares + [Share(senderId, username, stream)]
    ensures forall i :: 0 <= i < |st.screenShares| && st.screenShares[i].userId != senderId ==>
      r.screenShares[i] == st.screenShares[i]
    ensures Valid(st) ==> Valid(r)
    ensures r.(screenShares := st.screenShares) == st
  {
    st.(screenShares := Registry.Upsert(st.screenShares, ShareKey, Share(senderId, username, stream)))
  }

  /** A step that changes nothing and reports nothing. */
  function Quiet(st: State): Step {
    Step(st, [], [], map[], None)
  }

  /** `handleAnswer`: set the remote description on the sender's connection;
      without one nothing happens. When the browser refuses the description
      the rejection reaches the caller and nothing changes. */
  function HandleAnswer(st: State, senderId: string, answer: string, applied: bool): (r: Step)
    ensures senderId !in st.peerConnections ==> r == Quiet(st)
    ensures senderId in st.peerConnections && !applied ==> r == Quiet(st).(thrown := Some(NegotiationFault))
    ensures senderId in st.peerConnections && applied ==>
      && senderId in r.next.peerConnections
      && r.next.peerConnections[senderId] == st.peerConnections[senderId].(remoteDescription := Some(answer))
      && r.next.(peerConnections := st.peerConnections) == st
      && r.next.peerConnections.Keys == st.peerConnections.Keys
      && r.thrown.None?
    ensures r.sent == [] && r.stopped == [] && r.closed == map[]
  {
    if senderId !in st.peerConnections then Quiet(st)
    else if !applied then Quiet(st).(thrown := Some(NegotiationFault))
    else
      Quiet(st.(peerConnections := st.peerConnections[senderId := st.peerConnections[senderId].(remoteDescription := Some(answer))]))
  }

  /** `handleIceCandidate`: add the candidate to the sender's connection;
      without one it is dropped, and one the browser refuses is reported to
      the caller. */
  function HandleIceCandidate(st: State, senderId: string, candidate: string, applied: bool): (r: Step)
    ensures senderId !in st.peerConnections ==> r == Quiet(st)
    ensures senderId in st.peerConnections && !applied ==> r == Quiet(st).(thrown := Some(NegotiationFault))
    ensures senderId in st.peerConnections && applied ==>
      && senderId in r.next.peerConnections
      && r.next.peerConnections[senderId] == st.peerConnections[senderId].(candidates := st.peerConnections[senderId].candidates + [candidate])
      && r.next.(peerConnections := st.peerConnections) == st
      && r.next.peerConnections.Keys == st.peerConnections.Keys
      && r.thrown.None?
    ensures r.sent == [] && r.stopped == [] && r.closed == map[]
  {
    if senderId !in st.peerConnections then Quiet(st)
    else if !applied then Quiet(st).(thrown := Some(NegotiationFault))
    else
      var pc := st.peerConnections[senderId];
      Quiet(st.(peerConnections := st.peerConnections[senderId := pc.(candidates := pc.candidates + [candidate])]))
  }

  /** `removeScreenShare`: drop the user's shared screen and close and forget
      the user's connection; every other share and connection is kept. */
  function RemoveScreenShare(st: State, userId: string): (r: Step)
    ensures !Registry.HasKey(r.next.screenShares, ShareKey, userId)
    ensures forall i :: 0 <= i < |r.next.screenShares| ==> r.next.screenShares[i] in st.screenShares
    ensures forall i :: 0 <= i < |st.screenShares| && st.screenShares[i].userId != userId ==>
      st.screenShares[i] in r.next.screenShares
    ensures Seqs.Subsequence(r.next.screenShares, st.screenShares)
    ensures forall i :: 0 <= i < |st.screenShares| ==>
      multiset(r.next.screenShares)[st.screenShares[i]] == if st.screenShares[i].userId == userId then 0 else multiset(st.screenShares)[st.screenShares[i]]
    ensures r.next.peerConnections == st.peerConnections - {userId}
    ensures userId in st.peerConnections ==> r.closed == map[userId := Close(st.peerConnections[userId])]
    ensures userId !in st.peerConnections ==> r.closed == map[]
    ensures r.next.isSharing == st.isSharing && r.next.localStream == st.localStream
    ensures Valid(st) ==> Valid(r.next)
    ensures r.sent == [] && r.stopped == [] && r.thrown.None?
  {
    var closed := if userId in st.peerConnections then map[userId := Close(st.peerConnections[userId])] else map[];
    Step(st.(screenShares := Registry.RemoveKey(st.screenShares, ShareKey, userId),
             peerConnections := st.peerConnections - {userId}),
         [], [], closed, None)
  }

  /** Removing a user that shares nothing and has no connection is a no-op. */
  lemma RemoveUnknownShareIsNoop(st: State, userId: string)
    requires !Registry.HasKey(st.screenShares, ShareKey, userId) && userId !in st.peerConnections
    ensures RemoveScreenShare(st, userId).next == st
  {
    assert st.peerConnections - {userId} == st.peerConnections;
  }

  /** A share received and then removed leaves the other users' shares
      exactly as they were. */
  lemma TrackThenRemove(st: State, senderId: string, username: string, stream: MediaStream)
    ensures RemoveScreenShare(OnTrack(st, senderId, username, stream), senderId).next.screenShares
         == RemoveScreenShare(st, senderId).next.screenShares
  {
    Registry.RemoveAfterUpsert(st.screenShares, ShareKey, Share(senderId, username, stream));
  }

  /** The sharer's side of one negotiation: the offer goes out on a
      connection that sends the display tracks, the viewer's answer and ICE
      candidate land on that connection, and nothing else changes. */
  lemma SharerNegotiates(st: State, viewerId: string, pcId: nat, offer: string, answer: string, candidate: string)
    ensures
      var offered := CreateOffer(st, viewerId, pcId, Some(offer));
      var answered := HandleAnswer(offered.next, viewerId, answer, true);
      var added := HandleIceCandidate(answered.next, viewerId, candidate, true);
      var pc := added.next.peerConnections[viewerId];
      && offered.sent == [WebrtcOffer(viewerId, offer)]
      && answered.thrown.None? && added.thrown.None?
      && pc == PeerConnection(pcId, if st.localStream.Some? then TrackIds(st.localStream.value.tracks) else [],
                              Some(offer), Some(answer), [candidate], false)
      && added.next.(peerConnections := st.peerConnections) == st
  {
  }

  /** The viewer's side: answering an offer registers a connection for the
      sharer, the sharer's candidates land on it, the track callback lists
      the shared screen, and removing the sharer closes that connection and
      drops the screen. */
  lemma ViewerReceivesThenRemoves(st: State, sharerId: string, username: string, pcId: nat, offer: string,
                                  answer: string, candidate: string, stream: MediaStream)
    requires Valid(st)
    ensures
      var answered := HandleOffer(st, sharerId, offer, pcId, Some(answer));
      var added := HandleIceCandidate(answered.next, sharerId, candidate, true);
      var shown := OnTrack(added.next, sharerId, username, stream);
      var removed := RemoveScreenShare(shown, sharerId);
      && answered.sent == [WebrtcAnswer(sharerId, answer)]
      && added.next.peerConnections[sharerId] == PeerConnection(pcId, [], Some(answer), Some(offer), [candidate], false)
      && Registry.Lookup(shown.screenShares, ShareKey, sharerId) == Some(Share(sharerId, username, stream))
      && removed.closed == map[sharerId := Close(added.next.peerConnections[sharerId])]
      && !Registry.HasKey(removed.next.screenShares, ShareKey, sharerId)
      && sharerId !in removed.next.peerConnections
      && Valid(removed.next)
  {
  }
}
