# wabi: call session, screen sharing, signalling relay and list stores

This project models two groups of logic from the wabi chat application and
proves properties of the models in Dafny.

**Real-time calls.**
- The browser's call session (`frontend/src/lib/calling.ts`) keeps:
  - the call flags;
  - the pending invitation;
  - the local media stream;
  - a registry of peer connections;
  - the per-peer quality monitors;
  - the list of remote calls.
- The connection-quality classifier (`analyzeStats`) reads a statistics report and grades it `good`, `average` or `poor`.
- One-way screen sharing (`frontend/src/lib/webrtc.ts`) follows the same pattern.
- The server's signalling relay (`plugins/voice-video/backend/index.ts`) is stateless. Each socket event becomes at most one outgoing message.

**List and map stores.**
- The browser's call log (`frontend/src/lib/history.ts`).
- The business dashboard store (`frontend/src/lib/business/store.ts`):
  - create, update and delete for todos, calendar events, diary entries, projects and sprints;
  - the project cascade delete;
  - the todo filter chain;
  - the status buckets;
  - the upcoming, overdue and date-range views;
  - the burn chart.
- The agile plugin's task and sprint handlers (`plugins/agile-tools/backend/index.ts`).
- The server's emoji catalogue (`backend/src/emojis.ts`).

## How things are modelled

- **State.** Every piece of state is an immutable value. Each operation is a pure function from the old state, plus what the environment supplies, to the new state. Outputs are returned next to the new state:
  - messages sent;
  - tracks stopped;
  - connections closed;
  - the error rethrown.
- **Environment inputs are parameters:**
  - the clock (`now`);
  - fresh ids;
  - interval ids;
  - the user's devices, a function from the requested constraints to `Granted(stream)` or `Refused(error)`;
  - whether the browser accepted a description or candidate.
- **Browser objects are tokens.** Peer connections record:
  - the ids of the tracks attached to them (the connection shares the track objects with the stream, so a toggled flag is seen through both);
  - the descriptions set on them;
  - the candidates added to them;
  - whether they were closed.

  Media streams are lists of tracks with `enabled` and `stopped` flags.
- **JavaScript truthiness** is written out wherever the code relies on it. A due date, completion time or filter timestamp of `0` counts as absent. An empty string or list counts as unset.
- **Stored lists** (local storage, plugin storage) are plain `Option<seq<…>>` values. `None` stands for "nothing stored".
- **Module layout.** There is one module per source file. Four shared modules sit beside them:
  - `Common`: options, truthiness, decimal rendering of numbers;
  - `Seqs`: filter, count, sum, sort and subsequence;
  - `Registry`: keyed lookup, upsert and removal over lists;
  - `Media`: tracks, streams and connections.

## Model

| member | source | states |
|---|---|---|
| Media.StopAll | frontend/src/lib/calling.ts:243 | every track of the stream ends up stopped; apart from the flag each track is unchanged and none is added or lost |
| Media.FirstOfKind | frontend/src/lib/calling.ts:280 | finds the first audio or video track, or reports that there is none, so `getAudioTracks()[0]` is undefined exactly when the stream has no track of that kind |
| Media.NewPeerConnection | frontend/src/lib/calling.ts:352-378 | a fresh connection is open and has no descriptions or candidates; it sends the ids of every local track, in order, when a local stream exists and nothing otherwise |
| Media.Close | frontend/src/lib/calling.ts:442 | a closed connection keeps its id, senders, descriptions and candidates; only the closed flag is raised |
| Media.TrackIds | frontend/src/lib/calling.ts:319-321 | the sender list has one id per local track, position by position |
| Media.CloseAll | frontend/src/lib/calling.ts:268-272 | every registered connection is closed; no connection is added or lost |
| Quality.LastWhere | frontend/src/lib/calling.ts:49-57 | the reference for "the last matching report entry": it is in the report and matches, and it is absent exactly when no entry matches |
| Quality.CollectTakesLast | frontend/src/lib/calling.ts:49-57 | the in-order walk over the report leaves each metric at the value of the last entry feeding it, or 0 when none does |
| Quality.Classify | frontend/src/lib/calling.ts:59-63 | `poor` exactly when loss > 10, jitter > 0.1 or round trip > 0.5; `good` exactly when loss <= 2, jitter <= 0.05 and round trip <= 0.25; `average` otherwise |
| Quality.ClassifyMonotone | frontend/src/lib/calling.ts:59-63 | worse metrics never give a better grade |
| Quality.AnalyzeStats | frontend/src/lib/calling.ts:43-68 | loss and jitter come only from video `inbound-rtp` entries; round trip comes from `remote-candidate-pair` or succeeded `candidate-pair` entries; the grade is the classifier's; the sample is stored under the user and every other user's sample is kept |
| Quality.EmptyReportIsGood | frontend/src/lib/calling.ts:44-47 | a report with no matching entry grades `good` with every metric 0 |
| Quality.SlowRoundTripIsPoor | frontend/src/lib/calling.ts:59-60 | a round trip above half a second grades `poor` whatever the other metrics |
| Quality.LaterEntryOverwrites | frontend/src/lib/calling.ts:49-57 | appending an entry that feeds nothing changes nothing; appending a feeding entry replaces the metrics it feeds |
| CallHistory.Merge | frontend/src/lib/history.ts:32 | for each of the eight fields: a field present in the update is the result's value, and an absent one keeps the logged value |
| CallHistory.MergeLaws | frontend/src/lib/history.ts:32 | merging an empty update changes nothing, and merging the same update twice is merging it once |
| CallHistory.GetCallHistory | frontend/src/lib/history.ts:14-18 | the stored list when one is stored, the empty list when nothing is |
| CallHistory.ClearCallHistory | frontend/src/lib/history.ts:37-39 | the key is removed, so the next read gives the empty history |
| CallHistory.AddCallLog | frontend/src/lib/history.ts:20-26 | the entry gets the fresh id and goes in front; the list grows by one and the older entries follow unchanged |
| CallHistory.UpdateCallLog | frontend/src/lib/history.ts:28-35 | an unknown id writes nothing; otherwise only the first entry with the id is merged, and the length and every other entry are kept |
| CallHistory.ClearedHistoryIsEmpty | frontend/src/lib/history.ts:14-39 | reading after a clear, or with nothing stored, gives the empty history |
| CallHistory.UpdateJustAdded | frontend/src/lib/history.ts:20-35 | updating the entry just added merges into that entry alone, whatever ids the older entries carry |
| Calling.StartMonitoring | frontend/src/lib/calling.ts:70-85 | arms a monitor only for a user with a registered connection; for anyone else it does nothing |
| Calling.StopMonitoring | frontend/src/lib/calling.ts:87-97 | forgets only this user's interval, sample and last report; every other user's interval, sample and last report keep their values; a user with nothing monitored is a no-op |
| Calling.MonitorTick | frontend/src/lib/calling.ts:74-82 | a closed signalling state is exactly a stop of the user's monitor; otherwise the report is graded and stored under the user, and every other part of the session, intervals included, stays as it was |
| Calling.StartCall | frontend/src/lib/calling.ts:115-163 | asks for audio, and video on a video call; on refusal it is not in a call, has no stream, sends nothing, keeps the log and everything else, and rethrows the error; on success the flags are set (`isVideoOff` is the negation of the video flag), one `call-initiate` is sent, an outgoing `answered` entry heads the log, and the invitation, connection state, connections, remote calls and monitors are untouched; nothing is stopped or closed, so a stream held before is replaced without being stopped |
| Calling.AnswerCall | frontend/src/lib/calling.ts:165-219 | the same media outcome as starting, with everything else kept; on success an incoming `answered` entry is logged only when an invitation is pending, and the invitation is then cleared; on refusal it stays pending; nothing is stopped or closed |
| Calling.RejectCall | frontend/src/lib/calling.ts:221-238 | always sends the rejection and clears the invitation; with an invitation pending it logs a `declined` incoming call of duration 0 in front of the history; without one the history is kept |
| Calling.RoundSecondsCharacterized | frontend/src/lib/calling.ts:255 | the rounded duration is the whole second within half a second of the elapsed time, with halves rounding up |
| Calling.EndCall | frontend/src/lib/calling.ts:240-275 | afterwards there is no stream, no call, no connection, no remote call and the state is `idle`; every local track is stopped and every connection closed; the monitors of the closed connections are dropped and every other monitor entry keeps its value; a tracked log entry is finalised as `ended` with the end time and the rounded duration, and the tracking is cleared |
| Calling.EndCallIdempotent | frontend/src/lib/calling.ts:240-275 | a second end changes nothing and finds nothing to stop or close, so the log is finalised at most once |
| Calling.ToggleMute | frontend/src/lib/calling.ts:277-286 | flips only the first audio track and mirrors it in `isMuted`; without a stream or audio track nothing changes |
| Calling.ToggleVideo | frontend/src/lib/calling.ts:288-297 | flips only the first video track and mirrors it in `isVideoOff`; without a stream or video track nothing changes |
| Calling.FlipFirstTwice | frontend/src/lib/calling.ts:280-283 | flipping the first track of a kind twice restores the tracks |
| Calling.ToggleMuteTwice | frontend/src/lib/calling.ts:277-286 | muting twice gives the local stream back as it was |
| Calling.OnIceCandidate | frontend/src/lib/calling.ts:324-331 | a gathered candidate is forwarded to the remote user; the end-of-candidates event sends nothing |
| Calling.CreateCallOffer | frontend/src/lib/calling.ts:299-344 | as written: sends the offer to the target (or rethrows when negotiation fails) but leaves the session untouched, so no connection is registered |
| Calling.CreateCallOfferRegistered | frontend/src/lib/calling.ts:299-344 | corrected: the new open connection is registered under the target and holds the offer; nothing else changes |
| Calling.HandleCallOffer | frontend/src/lib/calling.ts:346-401 | registers a fresh connection under the sender, replacing any earlier one without closing it and keeping every other; the state becomes `connecting`; the answer goes back to the sender with both descriptions set, or negotiation fails, is returned as a fault and the connection stays registered without descriptions; nothing is stopped or closed |
| Calling.OnConnectionStateChange | frontend/src/lib/calling.ts:357-366 | `connected` reports it and starts the peer's monitor; `disconnected` and `failed` are only reported; the call, its connections and its remote calls go on |
| Calling.HandleCallAnswer | frontend/src/lib/calling.ts:403-408 | only the sender's registered connection takes the answer as its remote description; an answer the browser refuses is reported as a negotiation fault with nothing changed; an unknown sender changes nothing; nothing is sent, stopped or closed |
| Calling.HandleCallIceCandidate | frontend/src/lib/calling.ts:410-415 | only the sender's registered connection gains the candidate; a refused candidate is reported as a negotiation fault with nothing changed; a candidate for an unknown sender is dropped, not buffered |
| Calling.AddRemoteStream | frontend/src/lib/calling.ts:417-435 | an upsert by user: the user's entry is replaced in place (same length) or one entry is appended; other entries keep their places; at most one entry per user is preserved |
| Calling.RemoveCall | frontend/src/lib/calling.ts:437-446 | removes only that user's remote call, connection (closed), interval, sample and last report; every other remote call stays, in order and exactly as often as before; every other user's interval, sample and last report keep their values; the flags, stream, history and invitation are untouched; at most one entry per user is preserved |
| Calling.RemoveUnknownCallIsNoop | frontend/src/lib/calling.ts:437-446 | removing a user the session knows nothing about changes nothing and closes nothing |
| Calling.MuteReachesConnections | frontend/src/lib/calling.ts:277-286 | a connection that sends the local tracks still sends exactly them after a mute, because the flip changes a flag and no track id |
| Calling.VideoToggleReachesConnections | frontend/src/lib/calling.ts:288-297 | the same for turning the camera off or on |
| CallScenarios.ApplyKeepsValid | frontend/src/lib/calling.ts:417-446 | every client operation keeps at most one remote call per user |
| CallScenarios.RunKeepsValid | frontend/src/lib/calling.ts:417-446 | so does any sequence of operations |
| CallScenarios.ApplyKeepsCalls | frontend/src/lib/calling.ts:417-446 | only a received track, a removal and the end of the call touch the list of remote calls |
| CallScenarios.AnyRunThenCall | frontend/src/lib/calling.ts:115-275 | after any history of operations, starting and then ending a call leaves the session holding no stream, connection or remote call, and adds exactly one finalised outgoing entry in front of the history as it stood |
| CallScenarios.StartThenEndFinalisesLog | frontend/src/lib/calling.ts:247-257 | starting and then ending a call leaves one new entry: outgoing, `ended`, with the end time and the duration rounded to seconds |
| CallScenarios.AnswerThenEndFinalisesLog | frontend/src/lib/calling.ts:165-275 | answering a pending invitation and ending the call sends the answer to the caller and leaves one new entry: incoming, `ended`, under the caller's name, with the end time and the rounded duration |
| CallScenarios.RejectScenario | frontend/src/lib/calling.ts:221-238 | rejecting a pending invitation logs a zero-length declined call and touches neither media nor connections |
| CallScenarios.DropDoesNotEndCall | frontend/src/lib/calling.ts:306-309 | a dropped or failed transport is reported but does not end the call |
| CallScenarios.AnsweringSideMonitors | frontend/src/lib/calling.ts:352-366 | on the answering side a connected transport starts monitoring, and the next sample is stored for the caller |
| CallScenarios.CallerAnswerIsDropped | frontend/src/lib/calling.ts:299-344 | as written, on the caller's side the callee's answer, its candidates and the connected event all find no connection: nothing is applied and no monitor starts |
| CallScenarios.RegisteredCallerAppliesAnswer | frontend/src/lib/calling.ts:299-344 | with the corrected offer, the answer lands on the caller's connection and a connected transport starts monitoring |
| ScreenShare.StartScreenShare | frontend/src/lib/webrtc.ts:31-50 | asks for video without audio; a refusal is rethrown and changes nothing; on success the stream is kept, sharing is raised and announced; the call fails afterwards exactly when the stream has no video track |
| ScreenShare.StopScreenShare | frontend/src/lib/webrtc.ts:52-64 | stops every local track, drops the stream, lowers sharing, announces it, and closes and forgets every connection; received shares are kept |
| ScreenShare.StopTwiceStopsNothing | frontend/src/lib/webrtc.ts:52-64 | a repeated stop has no track left to stop and no connection left to close |
| ScreenShare.CreateOffer | frontend/src/lib/webrtc.ts:66-92 | registers a fresh connection under the target, replacing any earlier one without closing it and keeping the others; the offer is sent or negotiation fails; nothing is stopped or closed |
| ScreenShare.HandleOffer | frontend/src/lib/webrtc.ts:94-138 | registers a fresh connection under the sender, replacing any earlier one without closing it and keeping the others; the answer is sent back with both descriptions set, or negotiation fails and the connection stays without descriptions; nothing is stopped or closed |
| ScreenShare.OnIceCandidate | frontend/src/lib/webrtc.ts:76-83 | a gathered candidate is forwarded; the end-of-candidates event sends nothing |
| ScreenShare.OnTrack | frontend/src/lib/webrtc.ts:103-119 | an upsert of the sender's share: it is replaced in place or appended, other shares keep their places, and at most one share per user is preserved |
| ScreenShare.HandleAnswer | frontend/src/lib/webrtc.ts:140-145 | only the sender's registered connection takes the answer; a refused answer is reported as a negotiation fault with nothing changed; an unknown sender changes nothing |
| ScreenShare.HandleIceCandidate | frontend/src/lib/webrtc.ts:147-152 | only the sender's registered connection gains the candidate; a refused candidate is reported as a negotiation fault with nothing changed; an unknown sender changes nothing |
| ScreenShare.RemoveScreenShare | frontend/src/lib/webrtc.ts:154-162 | removes only that user's share and connection (closed); every other share stays, in order and exactly as often as before, and every other connection stays |
| ScreenShare.RemoveUnknownShareIsNoop | frontend/src/lib/webrtc.ts:154-162 | removing a user with no share and no connection changes nothing |
| ScreenShare.TrackThenRemove | frontend/src/lib/webrtc.ts:103-162 | a share received and then removed leaves the other users' shares as they were |
| ScreenShare.SharerNegotiates | frontend/src/lib/webrtc.ts:66-152 | on the sharer's side an offer, the viewer's answer and a candidate leave one open connection that sends the display tracks and holds the offer, the answer and the candidate; nothing else changes |
| ScreenShare.ViewerReceivesThenRemoves | frontend/src/lib/webrtc.ts:94-162 | on the viewer's side answering, a candidate and the track callback show the share; removing the sharer closes exactly that connection and drops the share |
| Relay.CallId | plugins/voice-video/backend/index.ts:36 | the call id is `call-` followed by the decimal time |
| Relay.CallIdsDistinct | plugins/voice-video/backend/index.ts:36 | calls initiated at different milliseconds get different ids |
| Relay.HandleInitiate | plugins/voice-video/backend/index.ts:26-55 | with the caller or the callee unknown, only `call:error` goes back to the sender; otherwise exactly one `call:incoming` rings the callee's room with the caller's id and name and the requested type |
| Relay.HandleShareStart | plugins/voice-video/backend/index.ts:96-107 | an unknown sender gets nothing sent; otherwise everyone else hears who started sharing |
| Relay.Handle | plugins/voice-video/backend/index.ts:24-130 | every socket event produces at most one outgoing message |
| Relay.OnDisconnect | plugins/voice-video/backend/index.ts:132-136 | everyone else hears `call:ended` and then `screen-share:stopped`, both carrying the departing user's id |
| Relay.OnlyErrorsReturnToSender | plugins/voice-video/backend/index.ts:27-33 | the only message ever addressed to the sender is the "User not found" error of an initiation with a missing party |
| Relay.PeerMessagesAreForwarded | plugins/voice-video/backend/index.ts:74-129 | each offer, answer and candidate, for calls and for screen sharing, becomes exactly one message to the target's room, under the matching `call:`/`screen-share:` event name, with the payload unchanged and tagged with the sender's id |
| Relay.DirectoryIrrelevant | plugins/voice-video/backend/index.ts:57-129 | apart from initiation and share start, the output does not depend on who is connected: the relay keeps no state and reads none |
| Relay.LifecycleBroadcastsCallId | plugins/voice-video/backend/index.ts:57-71 | accept, reject and end go to everyone but the sender as `call:accepted`, `call:rejected` and `call:ended`, with the call id unchanged |
| Relay.ShareStopAnnouncesSender | plugins/voice-video/backend/index.ts:109-115 | a share stop tells everyone else the sender's id as `screen-share:stopped`, whoever is connected |
| Relay.DisconnectStopsShare | plugins/voice-video/backend/index.ts:109-136 | a disconnect sends what a share stop sends, after a `call:ended` that carries the user's id where an explicit end carries a call id |
| Relay.InitiateRingsOnlyCallee | plugins/voice-video/backend/index.ts:45-52 | a successful initiation sends exactly one message, `call:incoming` with the fresh call id, to the callee's room and nothing on the caller's socket; a call addressed to oneself therefore rings one's own room |
| BusinessTypes.MergeTodoLaws | frontend/src/lib/business/store.ts:94 | merging an empty update changes nothing, and merging the same update twice is merging it once |
| BusinessTypes.MergeTodo | frontend/src/lib/business/store.ts:94 | for each field: a field present in the update wins and an absent one keeps the todo's value |
| BusinessTypes.MergeEvent | frontend/src/lib/business/store.ts:121 | the same for calendar events |
| BusinessTypes.MergeEventLaws | frontend/src/lib/business/store.ts:121 | an empty update changes nothing; the same update twice is the update once |
| BusinessTypes.MergeDiary | frontend/src/lib/business/store.ts:146 | the same for diary entries |
| BusinessTypes.MergeDiaryLaws | frontend/src/lib/business/store.ts:146 | an empty update changes nothing; the same update twice is the update once |
| BusinessTypes.MergeProject | frontend/src/lib/business/store.ts:170 | the same for projects |
| BusinessTypes.MergeProjectLaws | frontend/src/lib/business/store.ts:170 | an empty update changes nothing; the same update twice is the update once |
| BusinessTypes.MergeSprint | frontend/src/lib/business/store.ts:195 | the same for sprints |
| BusinessTypes.MergeSprintLaws | frontend/src/lib/business/store.ts:195 | an empty update changes nothing; the same update twice is the update once |
| BusinessStore.AddTodo | frontend/src/lib/business/store.ts:79-88 | appends exactly one todo; it has the fresh id and both timestamps now, and is otherwise the draft; nothing else changes |
| BusinessStore.UpdateTodo | frontend/src/lib/business/store.ts:90-98 | only todos with the id take the update and a fresh `updatedAt`; the length, the order and every other todo are kept; an unknown id changes nothing |
| BusinessStore.DeleteTodo | frontend/src/lib/business/store.ts:100-102 | removes exactly the todos with the id; every other todo stays, in relative order and exactly as often as before |
| BusinessStore.CompleteTodo | frontend/src/lib/business/store.ts:104-106 | todos with the id become `done` with `completedAt` and `updatedAt` now; nothing else changes |
| BusinessStore.DeleteAddedTodo | frontend/src/lib/business/store.ts:79-102 | deleting a todo just added under a fresh id restores the store |
| BusinessStore.AddCalendarEvent | frontend/src/lib/business/store.ts:109-116 | appends the draft under the fresh id; nothing else changes |
| BusinessStore.UpdateCalendarEvent | frontend/src/lib/business/store.ts:118-124 | only events with the id take the update; the length and every other event are kept |
| BusinessStore.DeleteCalendarEvent | frontend/src/lib/business/store.ts:126-128 | removes exactly the events with the id; every other event stays, in order and exactly as often as before |
| BusinessStore.DeleteAddedEvent | frontend/src/lib/business/store.ts:109-128 | deleting an event just added under a fresh id restores the store |
| BusinessStore.AddDiaryEntry | frontend/src/lib/business/store.ts:131-140 | appends the draft with the fresh id and both timestamps now |
| BusinessStore.UpdateDiaryEntry | frontend/src/lib/business/store.ts:142-150 | only entries with the id take the update and a fresh `updatedAt`; the others are kept |
| BusinessStore.DeleteDiaryEntry | frontend/src/lib/business/store.ts:152-154 | removes exactly the entries with the id; every other entry stays, in order and exactly as often as before |
| BusinessStore.DeleteAddedEntry | frontend/src/lib/business/store.ts:131-154 | deleting a diary entry just added under a fresh id restores the store |
| BusinessStore.AddProject | frontend/src/lib/business/store.ts:157-165 | appends the draft with the fresh id and `createdAt` now |
| BusinessStore.UpdateProject | frontend/src/lib/business/store.ts:167-173 | only projects with the id take the update; the others are kept |
| BusinessStore.DeleteProject | frontend/src/lib/business/store.ts:175-180 | removes the project and every todo and sprint belonging to it; every other project, todo and sprint stays, in order and exactly as often as before; events and diary entries are untouched |
| BusinessStore.DeleteProjectTwice | frontend/src/lib/business/store.ts:175-180 | deleting a project a second time changes nothing |
| BusinessStore.DeleteAddedProject | frontend/src/lib/business/store.ts:157-180 | deleting a project just added under an id nothing refers to restores the store |
| BusinessStore.AddSprint | frontend/src/lib/business/store.ts:183-190 | appends the draft under the fresh id |
| BusinessStore.UpdateSprint | frontend/src/lib/business/store.ts:192-198 | only sprints with the id take the update; the others are kept |
| BusinessStore.DeleteSprint | frontend/src/lib/business/store.ts:200-202 | removes exactly the sprints with the id; every other sprint stays, in order and exactly as often as before |
| BusinessStore.DeleteAddedSprint | frontend/src/lib/business/store.ts:183-202 | deleting a sprint just added under a fresh id restores the store |
| BusinessQueries.MatchesAllIsMatchesFilters | frontend/src/lib/business/store.ts:210-232 | passing the seven steps one by one is the same as satisfying every set filter at once |
| BusinessQueries.StagesAreOneFilter | frontend/src/lib/business/store.ts:208-234 | running the first n filter steps in turn is one filter by their conjunction |
| BusinessQueries.StageStep | frontend/src/lib/business/store.ts:210-232 | each further filter step adds one conjunct |
| BusinessQueries.ChainIsConjunction | frontend/src/lib/business/store.ts:205-236 | the chain keeps, in order and each as often as in the input, exactly the todos satisfying every filter that is set |
| BusinessQueries.FilteredTodos | frontend/src/lib/business/store.ts:205-236 | a subsequence of the todos; each kept todo satisfies every set filter; every todo that does is kept, as often as in the input, and every other is dropped |
| BusinessQueries.UnsetFiltersKeepAll | frontend/src/lib/business/store.ts:205-236 | with no filter set (empty lists, empty strings and zero times count as unset) the result is the whole list |
| BusinessQueries.TodosByStatus | frontend/src/lib/business/store.ts:238-245 | each bucket holds only its status and keeps the list order; together the buckets are the todos, duplicates included |
| BusinessQueries.Partition | frontend/src/lib/business/store.ts:238-245 | the four status filters split the list: every todo lands in exactly one bucket |
| BusinessQueries.BucketSizes | frontend/src/lib/business/store.ts:238-245 | the bucket sizes add up to the number of todos |
| BusinessQueries.UpcomingEvents | frontend/src/lib/business/store.ts:247-256 | exactly the events starting within a week from now, each at most as often as in the input, sorted by start |
| BusinessQueries.OverdueTodos | frontend/src/lib/business/store.ts:272-279 | exactly the todos not done whose (non-zero) due date has passed, in order and each as often as in the input |
| BusinessQueries.GetEventsForDateRange | frontend/src/lib/business/store.ts:310-315 | exactly the events overlapping the range, in order and each as often as in the input |
| BusinessQueries.RangeOverlap | frontend/src/lib/business/store.ts:312-313 | an event begun before the range and still running in it is reported; one starting after the range never is |
| BusinessQueries.BurnPoint | frontend/src/lib/business/store.ts:287-303 | one day's point: the total counts the project's todos, the completed count lies between 0 and the total, and the remainder is the difference |
| BusinessQueries.BurnPointOverProjectTodos | frontend/src/lib/business/store.ts:287-296 | the total is the number of the project's todos and the completed count is the number of them completed (non-zero time) by that day |
| BusinessQueries.BurnDownMonotone | frontend/src/lib/business/store.ts:294-296 | a later day never has fewer completed todos |
| BusinessQueries.DayCountUnique | frontend/src/lib/business/store.ts:293 | the number of loop iterations is the unique count of days from the start whose date does not pass the end |
| BusinessQueries.BurnChartShape | frontend/src/lib/business/store.ts:293-304 | day-by-day points never pass the end date, and their completed counts never decrease |
| BusinessQueries.GenerateBurnChartData | frontend/src/lib/business/store.ts:282-307 | one point per day from the start, date = start + k days <= end; each point has the project's total, 0 <= completed <= total and remaining = total - completed; completed never decreases |
| AgileTools.Prefix6 | plugins/agile-tools/backend/index.ts:55 | the socket id's first six characters, or all of it when shorter |
| AgileTools.NewTaskId | plugins/agile-tools/backend/index.ts:55 | `task-`, the decimal time, a dash, then the socket prefix |
| AgileTools.TaskIdsDistinct | plugins/agile-tools/backend/index.ts:55 | tasks created at different milliseconds get different ids, whichever sockets created them |
| AgileTools.TaskIdsDistinctSockets | plugins/agile-tools/backend/index.ts:55 | in the same millisecond, sockets with different six-character prefixes get different ids |
| AgileTools.NewTask | plugins/agile-tools/backend/index.ts:54-66 | a new task is `todo`; a missing or empty title becomes `Untitled Task`, a missing description becomes empty and a missing priority becomes `medium`; the creator and both times are set |
| AgileTools.CreateTask | plugins/agile-tools/backend/index.ts:50-77 | a socket without a user changes nothing and sends nothing; otherwise the new task is appended and broadcast as `task:created` |
| AgileTools.UpdateTask | plugins/agile-tools/backend/index.ts:79-98 | an unknown id sends `task:error` to the sender alone and writes nothing; otherwise only the first task with the id is merged and stamped, the length is kept, and the task is broadcast |
| AgileTools.MergeTask | plugins/agile-tools/backend/index.ts:88-92 | for each field: a field present in the update wins and an absent one keeps the task's value |
| AgileTools.MergeTaskLaws | plugins/agile-tools/backend/index.ts:88-92 | an empty update changes nothing; the same update twice is the update once |
| AgileTools.DeleteTask | plugins/agile-tools/backend/index.ts:100-113 | an unknown id sends `task:error` and writes nothing; otherwise every task with the id goes, every other task stays in order and exactly as often as before, and `task:deleted` is broadcast |
| AgileTools.DroppedTasks | plugins/agile-tools/backend/index.ts:102-104 | the filter shrinks the list exactly when a task has the id, so the length comparison is the not-found test |
| AgileTools.ListTasks | plugins/agile-tools/backend/index.ts:115-118 | the requester alone receives the stored tasks, or the empty list when none are stored; nothing is written |
| AgileTools.ListAfterCreateAndDelete | plugins/agile-tools/backend/index.ts:50-118 | a list request after a create returns the old tasks followed by the new one; after deleting it again under a fresh id it returns the old tasks |
| AgileTools.CreateSprint | plugins/agile-tools/backend/index.ts:120-139 | a socket without a user changes nothing; otherwise a sprint with status `planning`, no tasks and no dates is appended and broadcast |
| AgileTools.StartSprint | plugins/agile-tools/backend/index.ts:141-157 | an unknown id sends `sprint:error` and writes nothing; otherwise only that sprint becomes active with start time now, and the others are kept |
| AgileTools.CreateThenStartSprint | plugins/agile-tools/backend/index.ts:120-157 | a sprint just created can be started under its id: it is broadcast as active with the start time, and it is the only sprint that changes |
| AgileTools.Burndown | plugins/agile-tools/backend/index.ts:159-175 | the sprint's tasks, the sum of their points (missing counts as 0), the same sum over the done ones, and the difference, sent to the requester only |
| AgileTools.BurndownBounds | plugins/agile-tools/backend/index.ts:163-172 | with no negative points, the completed sum is between 0 and the total, and so is the remainder |
| AgileTools.CreateAddsToBurndown | plugins/agile-tools/backend/index.ts:54-74 | creating a task in a sprint adds its points to the sprint's total and leaves the completed sum alone |
| AgileTools.UpdateKeepsTask | plugins/agile-tools/backend/index.ts:88-95 | an update that does not rename the task leaves it findable under its id |
| AgileTools.CreateThenDelete | plugins/agile-tools/backend/index.ts:54-110 | a created task can be deleted again under its id, and afterwards no task carries that id |
| AgileTools.Handle | plugins/agile-tools/backend/index.ts:49-176 | every request produces at most one outgoing message |
| AgileTools.ErrorsWriteNothing | plugins/agile-tools/backend/index.ts:83-107 | an error reaches only the requester and comes with the storage untouched |
| Emojis.DefaultEmojisShape | backend/src/emojis.ts:11-43 | the stock list has 24 entries, none custom, each named by its id |
| Emojis.GetAllEmojis | backend/src/emojis.ts:48-50 | the stock list followed by the custom entries |
| Emojis.GetEmojiByName | backend/src/emojis.ts:52-59 | a custom emoji under the name wins over a stock one; otherwise the first stock emoji of that name; nothing exactly when no emoji has the name |
| Emojis.AddCustomEmoji | backend/src/emojis.ts:61-63 | the name then finds the new emoji and every other name finds what it found before; a new name is appended; an existing one is replaced at its own position with every other entry unchanged; the stock list is untouched |
| Emojis.DeleteCustomEmoji | backend/src/emojis.ts:65-67 | reports true exactly when a custom emoji had the name, and removes it; every other entry stays, in order and exactly as often as before; without one nothing changes; the stock list is untouched |
| Emojis.AddThenGet | backend/src/emojis.ts:52-63 | an added emoji is found even over a stock one of the same name; adding again under the name overwrites it without growing the map |
| Emojis.DeleteFallsBack | backend/src/emojis.ts:52-67 | after a delete the name falls back to the stock list, and every other name finds what it found before |
| Emojis.StockReachable | backend/src/emojis.ts:58 | a stock emoji whose name no custom emoji takes is found, and the result is a stock entry |

## Left out

- Timers: the five-second cadence of `setInterval` and its scheduling are not modelled. One firing of the interval is `Calling.MonitorTick`, and the interval id is a parameter.
- Browser media and WebRTC internals are not modelled: `getUserMedia`, `getDisplayMedia`, SDP contents, ICE gathering, `getStats` collection and the ICE server configuration. Streams and connections are tokens. Each awaited step is an outcome parameter.
- Asynchronous interleaving is not modelled. When an awaited negotiation step fails part-way, the whole operation is one outcome: no message is sent and the fault is returned in the operation's outcome. Effects before the first awaited step, such as registering the connection, are kept. Every failure is treated as a failure of that first step, so the connection holds no description. In the code, a failure of `createAnswer` or `setLocalDescription` leaves the remote offer set; the model does not distinguish this case.
- `alert` texts and console logging are not modelled. A media failure rethrows its `MediaError`, and the branch that picks the alert text is not modelled.
- The server-side rendering guard in `getCallHistory`, local storage, JSON encoding, and the business store's load and save are not modelled. Stored lists are plain values.
- `todaysTodos` and `getDiaryEntryForDate` are left out, because they depend on local-time midnight and the time zone.
- `generateId` and `crypto.randomUUID` are left out, because they are random. Fresh ids are parameters. Where the code reads `Date.now()` more than once in one operation, the model uses one `now`.
- The agile plugin's `onLoad` logging, its HTTP route stub and its `onMessage` stub have no logic and are left out. The plugin loader and the notification helpers are not part of this model.
- Updates are modelled as one `Option` per field. An update that sets a key explicitly to `undefined` is not modelled.
- Story points are integers: `NaN` and fractional points are left out.
- Jitter and round-trip time are exact reals, not IEEE doubles.
- `burndown:get` without a sprint id, matching tasks whose sprint id is also missing, is not modelled separately.
- `selectedDate` is read by `upcomingEvents` and then ignored, so it is not a parameter.
- The relay builds an `ActiveCall` record and never stores it, so the model has no such record.
- AnyRunThenCall: states that the session holds nothing after the final end, not that every stream and connection acquired during the run was stopped or closed, because the code does not do that. `startCall` and `answerCall` replace the local stream without stopping the old one (frontend/src/lib/calling.ts:122, 172). `handleCallOffer` replaces a sender's connection without closing it (frontend/src/lib/calling.ts:352-353). The model follows the code: those operations report nothing stopped and nothing closed.
- `BusinessQueries.UpcomingEvents`: states sortedness and which events are kept, with multiplicities bounded by the input's. It does not state that events with equal start times keep their relative order.
- Behaviour the code does not have. In each case the model follows the code:
  - there is no busy check when a call starts or is answered;
  - there is no ring timeout;
  - ICE candidates for an unknown peer are dropped, not buffered;
  - round-trip time is also taken from `remote-candidate-pair` entries in any state, because `||` binds looser than `&&`.
- Event names differ between client and relay, so the two are modelled as separate components and not as one protocol. The client emits `call-initiate`, `call-offer`, `webrtc-offer` and similar names. The relay listens for `call:initiate`, `call:offer`, `screen-share:offer` and similar names.
- The custom emoji `Map` is modelled as a list of entries in insertion order with one entry per name. This is the order in which `Map` iterates.

## Findings

| source | as written | input that shows it | evidently intended | confidence | as-written member | corrected member |
|---|---|---|---|---|---|---|
| frontend/src/lib/calling.ts:299-344 | `createCallOffer` creates the caller's connection but never stores it in `peerConnections`. The callee's answer and candidates, and the caller's connected event, all look it up and find nothing. | A caller with no connection for the target calls `createCallOffer(target)` and then receives `handleCallAnswer(target, answer)`: the answer is never applied and no monitor starts. | Register the connection under the target, as `handleCallOffer` does at line 353. | not executed | CallScenarios.CallerAnswerIsDropped | CallScenarios.RegisteredCallerAppliesAnswer |
