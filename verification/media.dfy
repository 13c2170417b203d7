/** Abstract stand-ins for the browser's media objects. A media stream is a
    list of tracks with `enabled` and `stopped` flags; a peer connection is a
    token that records which tracks are attached to it (by id: the sender
    shares the track object with the stream, so muting or stopping the
    stream's track is what the peer receives), the descriptions set on it,
    the ICE candidates added to it and whether it was closed. Device
    acquisition is a function from the requested constraints to an outcome,
    so contracts can say what was asked for. */
module Media {
  import opened Common

  datatype TrackKind = AudioTrack | VideoTrack

  datatype Track = Track(id: nat, kind: TrackKind, enabled: bool, stopped: bool)

  datatype MediaStream = MediaStream(id: nat, tracks: seq<Track>)

  /** The constraints passed to `getUserMedia` / `getDisplayMedia`. */
  datatype MediaRequest = MediaRequest(video: bool, audio: bool)

  /** The `DOMException` names the call code distinguishes, plus any other
      error value. */
  datatype MediaError =
    | NotAllowedError
    | NotFoundError
    | NotReadableError
    | OverconstrainedError
    | OtherDomException(name: string)
    | NonDomError

  datatype Acquisition = Granted(stream: MediaStream) | Refused(error: MediaError)

  /** The user's devices: what acquisition yields for each request. */
  type Devices = MediaRequest -> Acquisition

  /** `track.stop()` on every track of a stream. */
  function StopAll(tracks: seq<Track>): (r: seq<Track>)
    ensures |r| == |tracks|
    ensures forall i :: 0 <= i < |r| ==> r[i].stopped
    ensures forall i :: 0 <= i < |r| ==> r[i].(stopped := false) == tracks[i].(stopped := false)
    decreases |tracks|
  {
    if |tracks| == 0 then [] else [tracks[0].(stopped := true)] + StopAll(tracks[1..])
  }

  predicate HasKind(tracks: seq<Track>, kind: TrackKind) {
    exists i :: 0 <= i < |tracks| && tracks[i].kind == kind
  }

  /** `getAudioTracks()[0]` / `getVideoTracks()[0]`: the position of the
      first track of a kind, or -1. */
  function FirstOfKind(tracks: seq<Track>, kind: TrackKind): (r: int)
    ensures -1 <= r < |tracks|
    ensures r == -1 <==> !HasKind(tracks, kind)
    ensures 0 <= r ==> tracks[r].kind == kind && forall i :: 0 <= i < r ==> tracks[i].kind != kind
    decreases |tracks|
  {
    if |tracks| == 0 then -1
    else if tracks[0].kind == kind then 0
    else
      var j := FirstOfKind(tracks[1..], kind);
      assert forall i :: 1 <= i < |tracks| ==> tracks[i] == tracks[1..][i - 1];
      if j == -1 then -1 else j + 1
  }

  /** The ids of a list of tracks, in order. */
  function TrackIds(tracks: seq<Track>): (ids: seq<nat>)
    ensures |ids| == |tracks|
    ensures forall i :: 0 <= i < |ids| ==> ids[i] == tracks[i].id
    decreases |tracks|
  {
    if |tracks| == 0 then [] else [tracks[0].id] + TrackIds(tracks[1..])
  }

  /** Lists whose tracks differ only in their flags have the same ids. */
  lemma TrackIdsIgnoreFlags(a: seq<Track>, b: seq<Track>)
    requires |a| == |b|
    requires forall i :: 0 <= i < |a| ==> a[i].id == b[i].id
    ensures TrackIds(a) == TrackIds(b)
  {
  }

  /** A peer connection token. */
  datatype PeerConnection = PeerConnection(
    id: nat,
    senders: seq<nat>,
    localDescription: Option<string>,
    remoteDescription: Option<string>,
    candidates: seq<string>,
    closed: bool)

  /** `new RTCPeerConnection(config)` followed by `addTrack` for every track
      of the local stream, when there is one. */
  function NewPeerConnection(id: nat, local: Option<MediaStream>): (pc: PeerConnection)
    ensures !pc.closed && pc.id == id
    ensures pc.remoteDescription.None? && pc.localDescription.None? && pc.candidates == []
    ensures local.Some? ==> pc.senders == TrackIds(local.value.tracks)
    ensures local.None? ==> pc.senders == []
  {
    PeerConnection(id, if local.Some? then TrackIds(local.value.tracks) else [], None, None, [], false)
  }

  function Close(pc: PeerConnection): (r: PeerConnection)
    ensures r.closed && r.(closed := false) == pc.(closed := false)
  {
    pc.(closed := true)
  }

  /** `pc.close()` on every registered connection. */
  function CloseAll(pcs: map<string, PeerConnection>): (r: map<string, PeerConnection>)
    ensures r.Keys == pcs.Keys
    ensures forall u :: u in r ==> r[u].closed && r[u].id == pcs[u].id
  {
    map u | u in pcs :: Close(pcs[u])
  }
}
