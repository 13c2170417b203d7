/** Connection-quality classification of one statistics report
    (`analyzeStats` in the client call session). A report is the ordered list
    of its entries; the metrics are read from the entries in order, each
    matching entry overwriting what an earlier one set, and then classified
    against fixed thresholds. */
module Quality {
  import opened Common

  datatype StatType = InboundRtp | RemoteCandidatePair | CandidatePair | OtherStat

  /** One entry of a statistics report; `kind` and `state` are the entry's
      string fields as the browser reports them. */
  datatype StatEntry = StatEntry(
    statType: StatType,
    kind: string,
    state: string,
    packetsLost: int,
    jitter: real,
    currentRoundTripTime: real)

  type StatsReport = seq<StatEntry>

  datatype Level = Good | Average | Poor

  datatype Metrics = Metrics(packetsLost: int, jitter: real, roundTripTime: real)

  datatype ConnectionQuality = ConnectionQuality(quality: Level, packetsLost: int, jitter: real, roundTripTime: real)

  /** Every metric starts at 0. */
  const NoMetrics := Metrics(0, 0.0, 0.0)

  // Thresholds (seconds for jitter and round-trip time).
  const PoorLoss := 10
  const PoorJitter := 0.1
  const PoorRoundTrip := 0.5
  const AverageLoss := 2
  const AverageJitter := 0.05
  const AverageRoundTrip := 0.25

  /** Only inbound video entries feed packet loss and jitter. */
  predicate FeedsLossAndJitter(e: StatEntry) {
    e.statType == InboundRtp && e.kind == "video"
  }

  /** Entries feeding the round-trip time. The condition reads
      `remote-candidate-pair || (candidate-pair && succeeded)`: a remote
      candidate pair feeds it whatever its state. */
  predicate FeedsRoundTrip(e: StatEntry) {
    e.statType == RemoteCandidatePair || (e.statType == CandidatePair && e.state == "succeeded")
  }

  /** One step of the `forEach` over the report. */
  function Absorb(m: Metrics, e: StatEntry): Metrics {
    var m1 := if FeedsLossAndJitter(e) then m.(packetsLost := e.packetsLost, jitter := e.jitter) else m;
    if FeedsRoundTrip(e) then m1.(roundTripTime := e.currentRoundTripTime) else m1
  }

  /** The metrics after visiting the entries of `report` in order. */
  function Collect(report: StatsReport): Metrics
    decreases |report|
  {
    if |report| == 0 then NoMetrics
    else Absorb(Collect(report[..|report| - 1]), report[|report| - 1])
  }

  /** The last entry of `report` satisfying `p`, if any. */
  function LastWhere(report: StatsReport, p: StatEntry -> bool): (r: Option<StatEntry>)
    ensures r.Some? ==> r.value in report && p(r.value)
    ensures r.None? <==> forall i :: 0 <= i < |report| ==> !p(report[i])
    decreases |report|
  {
    if |report| == 0 then None
    else if p(report[|report| - 1]) then Some(report[|report| - 1])
    else
      var r := LastWhere(report[..|report| - 1], p);
      assert forall i :: 0 <= i < |report| - 1 ==> report[i] == report[..|report| - 1][i];
      r
  }

  /** Each metric is the one carried by the last entry that feeds it, and 0
      when no entry does. */
  lemma {:induction false} CollectTakesLast(report: StatsReport)
    ensures Collect(report).packetsLost ==
      (match LastWhere(report, FeedsLossAndJitter) case Some(e) => e.packetsLost case None => 0)
    ensures Collect(report).jitter ==
      (match LastWhere(report, FeedsLossAndJitter) case Some(e) => e.jitter case None => 0.0)
    ensures Collect(report).roundTripTime ==
      (match LastWhere(report, FeedsRoundTrip) case Some(e) => e.currentRoundTripTime case None => 0.0)
    decreases |report|
  {
    if |report| > 0 {
      CollectTakesLast(report[..|report| - 1]);
    }
  }

  /** The classification thresholds, evaluated on one sample. */
  function Classify(m: Metrics): (level: Level)
    ensures level == Poor <==> (m.packetsLost > PoorLoss || m.jitter > PoorJitter || m.roundTripTime > PoorRoundTrip)
    ensures level == Good <==> (m.packetsLost <= AverageLoss && m.jitter <= AverageJitter && m.roundTripTime <= AverageRoundTrip)
  {
    if m.packetsLost > PoorLoss || m.jitter > PoorJitter || m.roundTripTime > PoorRoundTrip then Poor
    else if m.packetsLost > AverageLoss || m.jitter > AverageJitter || m.roundTripTime > AverageRoundTrip then Average
    else Good
  }

  function Severity(l: Level): nat {
    match l
    case Good => 0
    case Average => 1
    case Poor => 2
  }

  /** Worse metrics never give a better level. */
  lemma ClassifyMonotone(a: Metrics, b: Metrics)
    requires a.packetsLost <= b.packetsLost && a.jitter <= b.jitter && a.roundTripTime <= b.roundTripTime
    ensures Severity(Classify(a)) <= Severity(Classify(b))
  {
  }

  /** The outcome of `analyzeStats`: the sample and the per-user stats map it
      was stored into. */
  datatype Analysis = Analysis(sample: ConnectionQuality, stats: map<string, ConnectionQuality>)

  function AnalyzeStats(stats: map<string, ConnectionQuality>, report: StatsReport, userId: string): (r: Analysis)
    ensures r.stats == stats[userId := r.sample]
    ensures r.sample.quality == Classify(Metrics(r.sample.packetsLost, r.sample.jitter, r.sample.roundTripTime))
    ensures r.sample.packetsLost ==
      (match LastWhere(report, FeedsLossAndJitter) case Some(e) => e.packetsLost case None => 0)
    ensures r.sample.jitter ==
      (match LastWhere(report, FeedsLossAndJitter) case Some(e) => e.jitter case None => 0.0)
    ensures r.sample.roundTripTime ==
      (match LastWhere(report, FeedsRoundTrip) case Some(e) => e.currentRoundTripTime case None => 0.0)
  {
    CollectTakesLast(report);
    var m := Collect(report);
    var sample := ConnectionQuality(Classify(m), m.packetsLost, m.jitter, m.roundTripTime);
    Analysis(sample, stats[userId := sample])
  }

  /** A report with no matching entry classifies as `good` with all metrics 0:
      absence of data is never `poor`. */
  lemma EmptyReportIsGood(stats: map<string, ConnectionQuality>, report: StatsReport, userId: string)
    requires forall i :: 0 <= i < |report| ==> !FeedsLossAndJitter(report[i]) && !FeedsRoundTrip(report[i])
    ensures AnalyzeStats(stats, report, userId).sample == ConnectionQuality(Good, 0, 0.0, 0.0)
  {
  }

  /** A round trip over half a second makes the sample `poor` whatever the
      other metrics are. */
  lemma SlowRoundTripIsPoor(stats: map<string, ConnectionQuality>, report: StatsReport, userId: string)
    requires AnalyzeStats(stats, report, userId).sample.roundTripTime > 0.5
    ensures AnalyzeStats(stats, report, userId).sample.quality == Poor
  {
  }

  /** Only the last matching entry matters: appending an entry that feeds
      nothing leaves the sample unchanged, and appending a video inbound
      entry replaces loss and jitter by its own. */
  lemma LaterEntryOverwrites(report: StatsReport, e: StatEntry)
    ensures !FeedsLossAndJitter(e) && !FeedsRoundTrip(e) ==> Collect(report + [e]) == Collect(report)
    ensures FeedsLossAndJitter(e) ==> Collect(report + [e]).packetsLost == e.packetsLost && Collect(report + [e]).jitter == e.jitter
    ensures FeedsRoundTrip(e) ==> Collect(report + [e]).roundTripTime == e.currentRoundTripTime
  {
    assert (report + [e])[..|report + [e]| - 1] == report;
  }
}
