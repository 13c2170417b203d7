/** The signalling relay of the voice and video plugin
    (`plugins/voice-video/backend/index.ts`). The server keeps no call state:
    each inbound socket event becomes at most one outbound event, addressed to
    the sender, to one user's room, or to every other socket. SDP and ICE
    payloads are passed through untouched and stand here as strings. */
module Relay {
  import opened Common

  /** A connected user as the server's user table records it. */
  datatype User = User(id: string, username: string)

  /** The server's user table, keyed by socket id. */
  type Directory = map<string, User>

  datatype CallType = Voice | Video

  /** The socket events the plugin handles, with their payloads. */
  datatype Inbound =
    | Initiate(targetUserId: string, callType: CallType)
    | Accept(callId: string)
    | Reject(callId: string)
    | End(callId: string)
    | Offer(targetId: string, offer: string)
    | Answer(targetId: string, answer: string)
    | IceCandidate(targetId: string, candidate: string)
    | ShareStart
    | ShareStop
    | ShareOffer(targetId: string, offer: string)
    | ShareAnswer(targetId: string, answer: string)

  /** `socket.emit`, `io.to(room).emit` and `socket.broadcast.emit`. */
  datatype Route = ToSender | ToRoom(room: string) | ToOthers

  datatype Payload =
    | ErrorPayload(message: string)
    | IncomingPayload(callId: string, callerId: string, callerUsername: string, callType: CallType)
    | CallIdPayload(callId: string)
    | UserIdPayload(userId: string)
    | SharerPayload(userId: string, username: string)
    | RelayedOffer(offer: string, from: string)
    | RelayedAnswer(answer: string, from: string)
    | RelayedCandidate(candidate: string, from: string)

  datatype Envelope = Envelope(route: Route, event: string, payload: Payload)

  const UserNotFound := "User not found"

  /** The id given to a call initiated at time `now` (milliseconds). */
  function CallId(now: nat): (id: string)
    ensures |id| > 5 && id[..5] == "call-" && id[5..] == NatToString(now)
  {
    "call-" + NatToString(now)
  }

  /** Calls initiated at different milliseconds get different ids. */
  lemma CallIdsDistinct(t1: nat, t2: nat)
    requires t1 != t2
    ensures CallId(t1) != CallId(t2)
  {
    NatToStringInjective(t1, t2);
    assert CallId(t1)[5..] == NatToString(t1);
    assert CallId(t2)[5..] == NatToString(t2);
  }

  /** `call:initiate`: when both the sender and the target are connected
      users, ring the target with the caller's identity; otherwise tell the
      sender neither was found. */
  function HandleInitiate(users: Directory, senderId: string, targetUserId: string, callType: CallType, now: nat)
    : (out: seq<Envelope>)
    ensures senderId !in users || targetUserId !in users ==>
      out == [Envelope(ToSender, "call:error", ErrorPayload(UserNotFound))]
    ensures senderId in users && targetUserId in users ==>
      out == [Envelope(ToRoom(targetUserId), "call:incoming",
                       IncomingPayload(CallId(now), users[senderId].id, users[senderId].username, callType))]
  {
    if senderId !in users || targetUserId !in users then
      [Envelope(ToSender, "call:error", ErrorPayload(UserNotFound))]
    else
      var caller := users[senderId];
      [Envelope(ToRoom(targetUserId), "call:incoming", IncomingPayload(CallId(now), caller.id, caller.username, callType))]
  }

  /** `screen-share:start`: announce the sharer to everyone else; a socket
      with no user record is ignored. */
  function HandleShareStart(users: Directory, senderId: string): (out: seq<Envelope>)
    ensures senderId !in users ==> out == []
    ensures senderId in users ==>
      out == [Envelope(ToOthers, "screen-share:started", SharerPayload(senderId, users[senderId].username))]
  {
    if senderId in users then
      [Envelope(ToOthers, "screen-share:started", SharerPayload(senderId, users[senderId].username))]
    else []
  }

  /** The plugin's socket handlers, dispatched on the event. */
  function Handle(users: Directory, senderId: string, msg: Inbound, now: nat): (out: seq<Envelope>)
    ensures |out| <= 1
  {
    match msg
    case Initiate(target, t) => HandleInitiate(users, senderId, target, t, now)
    case Accept(id) => [Envelope(ToOthers, "call:accepted", CallIdPayload(id))]
    case Reject(id) => [Envelope(ToOthers, "call:rejected", CallIdPayload(id))]
    case End(id) => [Envelope(ToOthers, "call:ended", CallIdPayload(id))]
    case Offer(target, o) => [Envelope(ToRoom(target), "call:offer", RelayedOffer(o, senderId))]
    case Answer(target, a) => [Envelope(ToRoom(target), "call:answer", RelayedAnswer(a, senderId))]
    case IceCandidate(target, c) => [Envelope(ToRoom(target), "call:ice-candidate", RelayedCandidate(c, senderId))]
    case ShareStart => HandleShareStart(users, senderId)
    case ShareStop => [Envelope(ToOthers, "screen-share:stopped", UserIdPayload(senderId))]
    case ShareOffer(target, o) => [Envelope(ToRoom(target), "screen-share:offer", RelayedOffer(o, senderId))]
    case ShareAnswer(target, a) => [Envelope(ToRoom(target), "screen-share:answer", RelayedAnswer(a, senderId))]
  }

  /** `onDisconnect`: tell everyone else that the user's calls and screen
      share are over. */
  function OnDisconnect(senderId: string): (out: seq<Envelope>)
    ensures |out| == 2
    ensures forall i :: 0 <= i < |out| ==> out[i].route == ToOthers && out[i].payload == UserIdPayload(senderId)
    ensures out[0].event == "call:ended" && out[1].event == "screen-share:stopped"
  {
    [Envelope(ToOthers, "call:ended", UserIdPayload(senderId)),
     Envelope(ToOthers, "screen-share:stopped", UserIdPayload(senderId))]
  }

  /** Whether an event's handler looks at the user table at all. */
  predicate ReadsDirectory(msg: Inbound) {
    msg.Initiate? || msg.ShareStart?
  }

  /** Events that are forwarded peer-to-peer carry a target id. */
  predicate IsPeerMessage(msg: Inbound) {
    msg.Offer? || msg.Answer? || msg.IceCandidate? || msg.ShareOffer? || msg.ShareAnswer?
  }

  /** Only an initiation with a missing party answers the sender, and then
      only with the error. */
  lemma OnlyErrorsReturnToSender(users: Directory, senderId: string, msg: Inbound, now: nat)
    ensures forall i :: 0 <= i < |Handle(users, senderId, msg, now)| && Handle(users, senderId, msg, now)[i].route == ToSender ==>
      && msg.Initiate?
      && (senderId !in users || msg.targetUserId !in users)
      && Handle(users, senderId, msg, now)[i].payload == ErrorPayload(UserNotFound)
  {
  }

  /** Peer messages always reach exactly the target's room, labelled with
      the sender's socket id, whoever the sender is, and under the event
      name the receiving module listens for. The SDP or ICE payload is
      passed on unchanged. */
  lemma PeerMessagesAreForwarded(users: Directory, senderId: string, msg: Inbound, now: nat)
    requires IsPeerMessage(msg)
    ensures var out := Handle(users, senderId, msg, now);
      && |out| == 1
      && out[0].route == ToRoom(msg.targetId)
      && out[0].payload.from == senderId
    ensures msg.Offer? ==>
      Handle(users, senderId, msg, now) == [Envelope(ToRoom(msg.targetId), "call:offer", RelayedOffer(msg.offer, senderId))]
    ensures msg.Answer? ==>
      Handle(users, senderId, msg, now) == [Envelope(ToRoom(msg.targetId), "call:answer", RelayedAnswer(msg.answer, senderId))]
    ensures msg.IceCandidate? ==>
      Handle(users, senderId, msg, now) == [Envelope(ToRoom(msg.targetId), "call:ice-candidate", RelayedCandidate(msg.candidate, senderId))]
    ensures msg.ShareOffer? ==>
      Handle(users, senderId, msg, now) == [Envelope(ToRoom(msg.targetId), "screen-share:offer", RelayedOffer(msg.offer, senderId))]
    ensures msg.ShareAnswer? ==>
      Handle(users, senderId, msg, now) == [Envelope(ToRoom(msg.targetId), "screen-share:answer", RelayedAnswer(msg.answer, senderId))]
  {
  }

  /** Apart from initiation and share start, what the relay sends does not
      depend on who is connected. */
  lemma DirectoryIrrelevant(u1: Directory, u2: Directory, senderId: string, msg: Inbound, now: nat)
    requires !ReadsDirectory(msg)
    ensures Handle(u1, senderId, msg, now) == Handle(u2, senderId, msg, now)
  {
  }

  /** Accept, reject and end are broadcast to everyone but the sender with
      the call id they carried, unchecked, each under its own event name. */
  lemma LifecycleBroadcastsCallId(users: Directory, senderId: string, msg: Inbound, now: nat)
    requires msg.Accept? || msg.Reject? || msg.End?
    ensures var out := Handle(users, senderId, msg, now);
      |out| == 1 && out[0].route == ToOthers && out[0].payload == CallIdPayload(msg.callId)
    ensures msg.Accept? ==> Handle(users, senderId, msg, now)[0].event == "call:accepted"
    ensures msg.Reject? ==> Handle(users, senderId, msg, now)[0].event == "call:rejected"
    ensures msg.End? ==> Handle(users, senderId, msg, now)[0].event == "call:ended"
  {
  }

  /** Stopping a screen share tells everyone else which user stopped, and
      needs no entry in the user table. */
  lemma ShareStopAnnouncesSender(users: Directory, senderId: string, now: nat)
    ensures Handle(users, senderId, ShareStop, now) == [Envelope(ToOthers, "screen-share:stopped", UserIdPayload(senderId))]
    ensures Handle(users, senderId, ShareStop, now) == Handle(map[], senderId, ShareStop, now)
  {
  }

  /** A disconnect announces what an explicit share stop would, after a
      call end that names the user, not a call id: receivers cannot tell
      which call ended. */
  lemma DisconnectStopsShare(users: Directory, senderId: string, now: nat)
    ensures OnDisconnect(senderId)[1..] == Handle(users, senderId, ShareStop, now)
    ensures OnDisconnect(senderId)[0] == Envelope(ToOthers, "call:ended", UserIdPayload(senderId))
    ensures forall callId :: Handle(users, senderId, End(callId), now)[0].payload != OnDisconnect(senderId)[0].payload
  {
  }

  /** A successful initiation never echoes to the caller and rings once. */
  lemma InitiateRingsOnlyCallee(users: Directory, senderId: string, target: string, t: CallType, now: nat)
    requires senderId in users && target in users
    ensures var out := Handle(users, senderId, Initiate(target, t), now);
      |out| == 1 && out[0].route == ToRoom(target) && out[0].event == "call:incoming"
      && out[0].payload.callId == CallId(now)
  {
  }
}
