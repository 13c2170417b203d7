/** The call log kept in the browser's local storage under one key: newest
    entry first, updated by id, cleared by removing the key. The storage slot
    is a plain value here; JSON encoding is not modelled. */
module CallHistory {
  import opened Common
  import Registry

  datatype Direction = Incoming | Outgoing

  datatype LogStatus = Answered | Missed | Declined | Ended

  datatype CallLog = CallLog(
    id: string,
    username: string,
    direction: Direction,
    status: LogStatus,
    startTime: int,
    endTime: Option<int>,
    duration: Option<int>,
    isVideo: bool)

  /** `Partial<CallLog>`: the fields an update carries. */
  datatype CallLogPatch = CallLogPatch(
    id: Option<string>,
    username: Option<string>,
    direction: Option<Direction>,
    status: Option<LogStatus>,
    startTime: Option<int>,
    endTime: Option<int>,
    duration: Option<int>,
    isVideo: Option<bool>)

  const EmptyLogPatch := CallLogPatch(None, None, None, None, None, None, None, None)

  /** The storage slot: absent, or the stored list. */
  type Storage = Option<seq<CallLog>>

  function LogId(l: CallLog): string {
    l.id
  }

  /** `getCallHistory`: the stored list, or the empty list when nothing is
      stored. */
  function GetCallHistory(store: Storage): (r: seq<CallLog>)
    ensures store.None? ==> r == []
    ensures store.Some? ==> r == store.value
  {
    store.GetOr([])
  }

  /** `{ ...log, ...updates }`: the patch's fields win. */
  function Merge(log: CallLog, p: CallLogPatch): (r: CallLog)
    ensures (p.id.Some? ==> r.id == p.id.value) && (p.id.None? ==> r.id == log.id)
    ensures (p.username.Some? ==> r.username == p.username.value) && (p.username.None? ==> r.username == log.username)
    ensures (p.direction.Some? ==> r.direction == p.direction.value) && (p.direction.None? ==> r.direction == log.direction)
    ensures (p.status.Some? ==> r.status == p.status.value) && (p.status.None? ==> r.status == log.status)
    ensures (p.startTime.Some? ==> r.startTime == p.startTime.value) && (p.startTime.None? ==> r.startTime == log.startTime)
    ensures (p.endTime.Some? ==> r.endTime == p.endTime) && (p.endTime.None? ==> r.endTime == log.endTime)
    ensures (p.duration.Some? ==> r.duration == p.duration) && (p.duration.None? ==> r.duration == log.duration)
    ensures (p.isVideo.Some? ==> r.isVideo == p.isVideo.value) && (p.isVideo.None? ==> r.isVideo == log.isVideo)
  {
    CallLog(
      p.id.GetOr(log.id),
      p.username.GetOr(log.username),
      p.direction.GetOr(log.direction),
      p.status.GetOr(log.status),
      p.startTime.GetOr(log.startTime),
      Over(log.endTime, p.endTime),
      Over(log.duration, p.duration),
      p.isVideo.GetOr(log.isVideo))
  }

  /** Merging an empty patch changes nothing, and merging the same patch
      twice is merging it once. */
  lemma MergeLaws(log: CallLog, p: CallLogPatch)
    ensures Merge(log, EmptyLogPatch) == log
    ensures Merge(Merge(log, p), p) == Merge(log, p)
  {
  }

  datatype Added = Added(log: CallLog, store: Storage)

  /** `addCallLog`: the draft with a fresh id, placed in front of the stored
      list. The draft's own id field stands for the omitted key and is
      replaced. */
  function AddCallLog(store: Storage, draft: CallLog, freshId: string): (r: Added)
    ensures r.log == draft.(id := freshId)
    ensures |GetCallHistory(r.store)| == |GetCallHistory(store)| + 1
    ensures GetCallHistory(r.store)[0] == r.log
    ensures GetCallHistory(r.store)[1..] == GetCallHistory(store)
  {
    var log := draft.(id := freshId);
    Added(log, Some([log] + GetCallHistory(store)))
  }

  /** `updateCallLog`: merge the patch into the first entry with that id and
      write the list back; with no such entry nothing is written. */
  function UpdateCallLog(store: Storage, id: string, p: CallLogPatch): (r: Storage)
    ensures !Registry.HasKey(GetCallHistory(store), LogId, id) ==> r == store
    ensures Registry.HasKey(GetCallHistory(store), LogId, id) ==>
      var h, h' := GetCallHistory(store), GetCallHistory(r);
      var i := Registry.FindIndex(h, LogId, id);
      && r.Some?
      && |h'| == |h|
      && h'[i] == Merge(h[i], p)
      && (forall j :: 0 <= j < |h| && j != i ==> h'[j] == h[j])
  {
    var h := GetCallHistory(store);
    var i := Registry.FindIndex(h, LogId, id);
    if i != -1 then Some(h[i := Merge(h[i], p)]) else store
  }

  /** `clearCallHistory`: remove the storage key. */
  function ClearCallHistory(store: Storage): (r: Storage)
    ensures GetCallHistory(r) == []
    ensures r.None?
  {
    None
  }

  /** After clearing, the history reads as empty, and so it does when
      nothing was ever stored. */
  lemma ClearedHistoryIsEmpty(store: Storage)
    ensures GetCallHistory(ClearCallHistory(store)) == []
    ensures GetCallHistory(None) == []
  {
  }

  /** Updating the entry just added touches only that entry: the newest entry
      is the first one carrying its id, whatever ids older entries hold. */
  lemma UpdateJustAdded(store: Storage, draft: CallLog, freshId: string, p: CallLogPatch)
    ensures
      var a := AddCallLog(store, draft, freshId);
      GetCallHistory(UpdateCallLog(a.store, freshId, p)) == [Merge(a.log, p)] + GetCallHistory(store)
  {
    var a := AddCallLog(store, draft, freshId);
    Registry.FindIndexIs(GetCallHistory(a.store), LogId, freshId, 0);
  }
}
