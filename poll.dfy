/**
 * One iteration of `runLoop`: report the queue length, advance the
 * watermark over every successful build the server returned, drop the
 * excluded builds, and report each remaining build's run and wait time.
 * The server's answers, the collector's reachability and the regular
 * expression engine are parameters.
 */
module Poll {
  import opened Wrappers
  import opened Numerics
  import opened Graphite
  import Config

  /** A successful build as the server reports it; the dates are `Date.time` values in epoch milliseconds. */
  datatype Build = Build(buildConfigurationId: string, queuedDate: Long, startDate: Long, finishDate: Long)

  /** `(finish - start) / 1000`, computed in `Long`. */
  function BuildTime(b: Build): int {
    TruncDiv(WrapLong(b.finishDate - b.startDate), 1000)
  }

  /** `(start - queued) / 1000`, computed in `Long`. */
  function QueueTime(b: Build): int {
    TruncDiv(WrapLong(b.startDate - b.queuedDate), 1000)
  }

  /** Without overflow, both durations are the millisecond differences truncated to whole seconds. */
  lemma DurationsAreTruncatedSeconds(b: Build)
    requires LongMin <= b.finishDate - b.startDate <= LongMax
    requires LongMin <= b.startDate - b.queuedDate <= LongMax
    ensures var d := b.finishDate - b.startDate;
      d >= 0 ==> BuildTime(b) == d / 1000
    ensures var d := b.finishDate - b.startDate;
      d < 0 ==> BuildTime(b) == -((-d) / 1000) && -1000 < d - 1000 * BuildTime(b) <= 0
    ensures var d := b.startDate - b.queuedDate;
      d >= 0 ==> QueueTime(b) == d / 1000
    ensures var d := b.startDate - b.queuedDate;
      d < 0 ==> QueueTime(b) == -((-d) / 1000) && -1000 < d - 1000 * QueueTime(b) <= 0
  {
  }

  lemma DurationExample()
    ensures QueueTime(Build("b", 1000000, 1010000, 1050000)) == 10
    ensures BuildTime(Build("b", 1000000, 1010000, 1050000)) == 40
    ensures BuildTime(Build("b", 0, 2500, 1000)) == -1
  {
  }

  // ---------------------------------------------------------------- watermark

  /** The watermark after the scan: each later finish date replaces it, in list order. */
  function AdvanceWatermark(lastPollTime: Long, builds: seq<Build>): Long
    decreases |builds|
  {
    if builds == [] then lastPollTime
    else
      var next := if builds[0].finishDate > lastPollTime then builds[0].finishDate else lastPollTime;
      AdvanceWatermark(next, builds[1..])
  }

  /** The scan computes the maximum of the old watermark and every finish date. */
  lemma {:induction false} WatermarkIsRunningMax(lastPollTime: Long, builds: seq<Build>)
    ensures AdvanceWatermark(lastPollTime, builds) >= lastPollTime
    ensures forall i :: 0 <= i < |builds| ==> AdvanceWatermark(lastPollTime, builds) >= builds[i].finishDate
    ensures AdvanceWatermark(lastPollTime, builds) == lastPollTime
         || exists i :: 0 <= i < |builds| && builds[i].finishDate == AdvanceWatermark(lastPollTime, builds)
                                          && builds[i].finishDate > lastPollTime
    decreases |builds|
  {
    if builds != [] {
      var next := if builds[0].finishDate > lastPollTime then builds[0].finishDate else lastPollTime;
      var rest := builds[1..];
      WatermarkIsRunningMax(next, rest);
      var r := AdvanceWatermark(next, rest);
      forall i | 0 <= i < |builds| ensures r >= builds[i].finishDate {
        if i > 0 { assert builds[i] == rest[i - 1]; }
      }
      if r != lastPollTime && r != next {
        var j :| 0 <= j < |rest| && rest[j].finishDate == r && rest[j].finishDate > next;
        assert builds[j + 1] == rest[j];
      }
    }
  }

  /** A build that finished last, and after the watermark, sets it, whether or not it is excluded. */
  lemma LatestFinishSetsWatermark(lastPollTime: Long, builds: seq<Build>, k: nat)
    requires k < |builds| && builds[k].finishDate > lastPollTime
    requires forall i :: 0 <= i < |builds| ==> builds[i].finishDate <= builds[k].finishDate
    ensures AdvanceWatermark(lastPollTime, builds) == builds[k].finishDate
  {
    WatermarkIsRunningMax(lastPollTime, builds);
  }

  /** Two polls in a row scan as one poll over both lists. */
  lemma {:induction false} WatermarkAcrossPolls(lastPollTime: Long, first: seq<Build>, second: seq<Build>)
    ensures AdvanceWatermark(AdvanceWatermark(lastPollTime, first), second)
         == AdvanceWatermark(lastPollTime, first + second)
    decreases |first|
  {
    if first != [] {
      var next := if first[0].finishDate > lastPollTime then first[0].finishDate else lastPollTime;
      assert (first + second)[1..] == first[1..] + second;
      WatermarkAcrossPolls(next, first[1..], second);
    } else {
      assert first + second == second;
    }
  }

  // ---------------------------------------------------------------- exclusion filter

  /** Some exclusion pattern fully matches the configuration id. */
  predicate Excluded(exclusions: seq<string>, id: string, matches: (string, string) -> bool) {
    exists i :: 0 <= i < |exclusions| && matches(exclusions[i], id)
  }

  /** Pattern number `evaluated` (counting from one) is the first that matches `id`. */
  predicate StopsAtFirstMatch(exclusions: seq<string>, id: string, matches: (string, string) -> bool, evaluated: nat) {
    && 1 <= evaluated <= |exclusions|
    && matches(exclusions[evaluated - 1], id)
    && forall j :: 0 <= j < evaluated - 1 ==> !matches(exclusions[j], id)
  }

  /**
   * The `filter` lambda: try the patterns in order and stop at the first
   * that matches. `evaluated` is the number of patterns tried.
   */
  method IsIncluded(exclusions: seq<string>, id: string, matches: (string, string) -> bool)
    returns (includeBuild: bool, evaluated: nat)
    ensures includeBuild <==> !Excluded(exclusions, id, matches)
    ensures includeBuild ==> evaluated == |exclusions|
    ensures !includeBuild ==> StopsAtFirstMatch(exclusions, id, matches, evaluated)
  {
    includeBuild := true;
    evaluated := 0;
    for i := 0 to |exclusions|
      invariant evaluated == i
      invariant forall j :: 0 <= j < i ==> !matches(exclusions[j], id)
    {
      evaluated := evaluated + 1;
      if matches(exclusions[i], id) {
        includeBuild := false;
        break;
      }
    }
  }

  /** The builds the filter keeps, in their original order. */
  function Surviving(builds: seq<Build>, exclusions: seq<string>, matches: (string, string) -> bool): seq<Build>
    decreases |builds|
  {
    if builds == [] then []
    else
      (if Excluded(exclusions, builds[0].buildConfigurationId, matches) then [] else [builds[0]])
      + Surviving(builds[1..], exclusions, matches)
  }

  /** A build survives exactly when no pattern matches its configuration id. */
  lemma {:induction false} SurvivingMembership(builds: seq<Build>, exclusions: seq<string>,
                                               matches: (string, string) -> bool, b: Build)
    ensures b in Surviving(builds, exclusions, matches)
        <==> b in builds && !Excluded(exclusions, b.buildConfigurationId, matches)
    decreases |builds|
  {
    if builds != [] {
      SurvivingMembership(builds[1..], exclusions, matches, b);
      assert builds == [builds[0]] + builds[1..];
    }
  }

  /** Filtering a concatenation filters each part, so the input order is kept. */
  lemma {:induction false} SurvivingConcat(a: seq<Build>, b: seq<Build>, exclusions: seq<string>,
                                           matches: (string, string) -> bool)
    ensures Surviving(a + b, exclusions, matches)
         == Surviving(a, exclusions, matches) + Surviving(b, exclusions, matches)
    decreases |a|
  {
    if a != [] {
      assert (a + b)[1..] == a[1..] + b;
      SurvivingConcat(a[1..], b, exclusions, matches);
    } else {
      assert a + b == b;
    }
  }

  /** With no exclusion patterns every build is kept. */
  lemma {:induction false} NoExclusionsKeepAll(builds: seq<Build>, matches: (string, string) -> bool)
    ensures Surviving(builds, [], matches) == builds
    decreases |builds|
  {
    if builds != [] {
      NoExclusionsKeepAll(builds[1..], matches);
      assert builds == [builds[0]] + builds[1..];
    }
  }

  // ---------------------------------------------------------------- emission

  /** The two metrics of one build: run time first, then wait time. */
  function BuildMetrics(config: Config.ConfigInfo, builds: seq<Build>): seq<Metric>
    decreases |builds|
  {
    if builds == [] then []
    else
      var b := builds[0];
      [Metric(config.BuildRunTimeMetricName(b.buildConfigurationId), BuildTime(b)),
       Metric(config.BuildWaitTimeMetricName(b.buildConfigurationId), QueueTime(b))]
      + BuildMetrics(config, builds[1..])
  }

  /** Build `k` owns metrics `2k` (its run time) and `2k + 1` (its wait time), and nothing else is emitted. */
  lemma {:induction false} BuildMetricsShape(config: Config.ConfigInfo, builds: seq<Build>)
    ensures |BuildMetrics(config, builds)| == 2 * |builds|
    ensures forall k :: 0 <= k < |builds| ==>
      BuildMetrics(config, builds)[2 * k]
        == Metric(config.BuildRunTimeMetricName(builds[k].buildConfigurationId), BuildTime(builds[k]))
      && BuildMetrics(config, builds)[2 * k + 1]
        == Metric(config.BuildWaitTimeMetricName(builds[k].buildConfigurationId), QueueTime(builds[k]))
    decreases |builds|
  {
    if builds != [] {
      var rest := builds[1..];
      BuildMetricsShape(config, rest);
      var all := BuildMetrics(config, builds);
      forall k | 1 <= k < |builds|
        ensures all[2 * k] == Metric(config.BuildRunTimeMetricName(builds[k].buildConfigurationId), BuildTime(builds[k]))
        ensures all[2 * k + 1] == Metric(config.BuildWaitTimeMetricName(builds[k].buildConfigurationId), QueueTime(builds[k]))
      {
        assert builds[k] == rest[k - 1];
        assert all[2 * k] == BuildMetrics(config, rest)[2 * (k - 1)];
        assert all[2 * k + 1] == BuildMetrics(config, rest)[2 * (k - 1) + 1];
      }
    }
  }

  /** The metrics sent for the kept builds, in emission order: the queue length, then each build's pair. */
  function Emission(config: Config.ConfigInfo, queueLength: nat, kept: seq<Build>): seq<Metric> {
    [Metric(config.QueueLengthMetricName(), queueLength)] + BuildMetrics(config, kept)
  }

  /** Every metric of an iteration: the emission for the builds the filter keeps. */
  function PlannedMetrics(config: Config.ConfigInfo, queueLength: nat, builds: seq<Build>,
                          matches: (string, string) -> bool): seq<Metric>
  {
    Emission(config, queueLength, Surviving(builds, config.excludeProjects, matches))
  }

  /** Positions `i` and `i + 1` of `metrics` hold `b`'s run time and then its wait time. */
  predicate EmitsPairAt(config: Config.ConfigInfo, metrics: seq<Metric>, i: nat, b: Build) {
    && i + 1 < |metrics|
    && metrics[i] == Metric(config.BuildRunTimeMetricName(b.buildConfigurationId), BuildTime(b))
    && metrics[i + 1] == Metric(config.BuildWaitTimeMetricName(b.buildConfigurationId), QueueTime(b))
  }

  /** The queue length comes first; then kept build `k` emits its run time at `1 + 2k` and its wait time at `2 + 2k`. */
  lemma EmissionShape(config: Config.ConfigInfo, queueLength: nat, kept: seq<Build>)
    ensures |Emission(config, queueLength, kept)| == 1 + 2 * |kept|
    ensures Emission(config, queueLength, kept)[0] == Metric(config.QueueLengthMetricName(), queueLength)
    ensures forall k :: 0 <= k < |kept| ==> EmitsPairAt(config, Emission(config, queueLength, kept), 1 + 2 * k, kept[k])
  {
    var planned := Emission(config, queueLength, kept);
    BuildMetricsShape(config, kept);
    forall k | 0 <= k < |kept|
      ensures EmitsPairAt(config, planned, 1 + 2 * k, kept[k])
    {
      assert planned[1 + 2 * k] == BuildMetrics(config, kept)[2 * k];
      assert planned[2 + 2 * k] == BuildMetrics(config, kept)[2 * k + 1];
    }
  }

  /** An excluded configuration id has no metric among an iteration's build metrics. */
  lemma ExcludedEmitsNothing(config: Config.ConfigInfo, builds: seq<Build>, matches: (string, string) -> bool,
                             id: string)
    requires Excluded(config.excludeProjects, id, matches)
    ensures forall m :: m in BuildMetrics(config, Surviving(builds, config.excludeProjects, matches)) ==>
      m.name != config.BuildRunTimeMetricName(id) && m.name != config.BuildWaitTimeMetricName(id)
  {
    var kept := Surviving(builds, config.excludeProjects, matches);
    var out := BuildMetrics(config, kept);
    BuildMetricsShape(config, kept);
    forall m | m in out
      ensures m.name != config.BuildRunTimeMetricName(id) && m.name != config.BuildWaitTimeMetricName(id)
    {
      var n :| 0 <= n < |out| && out[n] == m;
      var k := n / 2;
      assert n == 2 * k || n == 2 * k + 1;
      var b := kept[k];
      SurvivingMembership(builds, config.excludeProjects, matches, b);
      assert b.buildConfigurationId != id;
      Config.MetricNamesDistinct(config, b.buildConfigurationId, id);
      Config.MetricNamesDistinct(config, id, b.buildConfigurationId);
    }
  }

  /** The metrics that reach a connected socket when send number `refused` cannot connect. */
  function Delivered(planned: seq<Metric>, refused: Option<nat>): (sent: seq<Metric>)
    ensures sent <= planned
    ensures |sent| == if refused.Some? && refused.value < |planned| then refused.value else |planned|
  {
    match refused
    case Some(k) => if k < |planned| then planned[..k] else planned
    case None => planned
  }

  // ---------------------------------------------------------------- one iteration

  /**
   * The failures that end an iteration part-way, each given by where it happens.
   * The date getters `fetchFinishDate()`, `fetchStartDate()` and `fetchQueuedDate()` ask the server,
   * so they can throw; so can a socket that cannot connect.
   */
  datatype Faults = Faults(
    failedScanFetch: Option<nat>,      // index in the build list of the first `fetchFinishDate()` that throws in the scan
    failedDurationFetch: Option<nat>,  // index among the kept builds of the first whose date fetches throw
    firstRefusedSend: Option<nat>)     // zero-based number of the first send whose socket cannot connect

  /** How far a pass over `n` items gets when item `failed` throws. */
  function Reach(failed: Option<nat>, n: nat): (r: nat)
    ensures r <= n
    ensures r < n <==> failed.Some? && failed.value < n
    ensures r < n ==> r == failed.value
  {
    if failed.Some? && failed.value < n then failed.value else n
  }

  /** The earlier of two optional positions. */
  function Earliest(a: Option<nat>, b: Option<nat>): (r: Option<nat>)
    ensures r.None? <==> a.None? && b.None?
    ensures r.Some? ==> r == a || r == b
    ensures r.Some? && a.Some? ==> r.value <= a.value
    ensures r.Some? && b.Some? ==> r.value <= b.value
  {
    match a
    case None => b
    case Some(x) =>
      match b
      case None => a
      case Some(y) => if x <= y then a else b
  }

  /** The dates of kept build `k` are fetched just before its first send, number `base + 2k`. */
  function DurationCut(failedDurationFetch: Option<nat>, base: nat): Option<nat> {
    match failedDurationFetch
    case Some(k) => Some(base + 2 * k)
    case None => None
  }

  /** The send number at which the build sends of an iteration stop, if they do. */
  function SendCut(faults: Faults): Option<nat> {
    Earliest(faults.firstRefusedSend, DurationCut(faults.failedDurationFetch, 1))
  }

  /**
   * The `map` over the unfiltered list that moves `lastPollTime` forward. It stops at
   * build `failedFetch` when that build's `fetchFinishDate()` throws; `scanned` builds were seen.
   */
  method ScanWatermark(lastPollTime: Long, builds: seq<Build>, failedFetch: Option<nat>)
    returns (newPollTime: Long, scanned: nat)
    ensures scanned == Reach(failedFetch, |builds|)
    ensures newPollTime == AdvanceWatermark(lastPollTime, builds[..scanned])
  {
    newPollTime, scanned := lastPollTime, 0;
    for i := 0 to |builds|
      invariant scanned == i
      invariant failedFetch.Some? ==> failedFetch.value >= i
      invariant newPollTime == AdvanceWatermark(lastPollTime, builds[..i])
    {
      if failedFetch == Some(i) {
        return;
      }
      WatermarkAcrossPolls(lastPollTime, builds[..i], [builds[i]]);
      assert builds[..i] + [builds[i]] == builds[..i + 1];
      assert [builds[i]][1..] == [];
      if builds[i].finishDate > newPollTime {
        newPollTime := builds[i].finishDate;
      }
      scanned := i + 1;
    }
    assert builds[..|builds|] == builds;
  }

  /** One step of `Surviving` over a suffix of the list. */
  lemma SurvivingFrom(builds: seq<Build>, i: nat, exclusions: seq<string>, matches: (string, string) -> bool)
    requires i < |builds|
    ensures Surviving(builds[i..], exclusions, matches)
         == (if Excluded(exclusions, builds[i].buildConfigurationId, matches) then [] else [builds[i]])
            + Surviving(builds[i + 1..], exclusions, matches)
  {
  }

  /** The `filter` over the list, one `IsIncluded` per build. */
  method FilterBuilds(builds: seq<Build>, exclusions: seq<string>, matches: (string, string) -> bool)
    returns (kept: seq<Build>)
    ensures kept == Surviving(builds, exclusions, matches)
  {
    kept := [];
    for i := 0 to |builds|
      invariant kept + Surviving(builds[i..], exclusions, matches) == Surviving(builds, exclusions, matches)
    {
      SurvivingFrom(builds, i, exclusions, matches);
      ghost var later := Surviving(builds[i + 1..], exclusions, matches);
      var includeBuild, _ := IsIncluded(exclusions, builds[i].buildConfigurationId, matches);
      if includeBuild {
        assert kept + ([builds[i]] + later) == (kept + [builds[i]]) + later;
        kept := kept + [builds[i]];
      } else {
        assert [] + later == later;
      }
    }
    assert builds[|builds|..] == [];
    assert kept + [] == kept;
  }

  /**
   * The final `map`: for each kept build, fetch its dates, then send its two metrics, after the
   * `before` metrics were sent. The dates of kept build `failedDurationFetch` cannot be fetched,
   * and send number `firstRefusedSend`, counted from the start of the iteration, cannot connect;
   * whichever comes first ends the iteration.
   */
  method SendBuildMetrics(config: Config.ConfigInfo, before: seq<Metric>, kept: seq<Build>,
                          failedDurationFetch: Option<nat>, firstRefusedSend: Option<nat>)
    returns (sent: seq<Metric>)
    requires firstRefusedSend.Some? ==> firstRefusedSend.value >= |before|
    ensures sent == Delivered(before + BuildMetrics(config, kept),
                              Earliest(firstRefusedSend, DurationCut(failedDurationFetch, |before|)))
  {
    ghost var planned := before + BuildMetrics(config, kept);
    ghost var cut := Earliest(firstRefusedSend, DurationCut(failedDurationFetch, |before|));
    sent := before;
    assert kept[0..] == kept;
    for k := 0 to |kept|
      invariant sent + BuildMetrics(config, kept[k..]) == planned
      invariant |sent| == |before| + 2 * k
      invariant firstRefusedSend.Some? ==> firstRefusedSend.value >= |sent|
      invariant failedDurationFetch.Some? ==> failedDurationFetch.value >= k
    {
      var b := kept[k];
      assert kept[k..][1..] == kept[k + 1..];
      if failedDurationFetch == Some(k) {
        assert cut == Some(|sent|);
        assert planned[..|sent|] == sent;
        return;
      }
      var runTime := Metric(config.BuildRunTimeMetricName(b.buildConfigurationId), BuildTime(b));
      var waitTime := Metric(config.BuildWaitTimeMetricName(b.buildConfigurationId), QueueTime(b));
      assert sent + [runTime, waitTime] + BuildMetrics(config, kept[k + 1..]) == planned;
      if firstRefusedSend == Some(|sent|) {
        assert cut == Some(|sent|);
        assert planned[..|sent|] == sent;
        return;
      }
      sent := sent + [runTime];
      if firstRefusedSend == Some(|sent|) {
        assert cut == Some(|sent|);
        assert planned[..|sent|] == sent;
        return;
      }
      sent := sent + [waitTime];
    }
    assert kept[|kept|..] == [];
    assert sent == planned;
    assert cut.Some? ==> cut.value >= |planned|;
  }

  /**
   * The body of `runLoop`'s `while (true)`.
   * - `queueLength` is `None` when the queue query throws, `builds` when the build query does;
   * - `faults` says where a date fetch throws or a socket cannot connect; each exception escapes
   *   to the loop's `catch` and ends the iteration (write errors are swallowed, so a connected
   *   send counts as sent);
   * - `matches(pattern, id)` is `pattern.toRegex().matches(id)`, a full match.
   * The results are the watermark for the next iteration and the metrics sent, in order.
   */
  method Step(config: Config.ConfigInfo, lastPollTime: Long, queueLength: Option<nat>,
              builds: Option<seq<Build>>, faults: Faults, matches: (string, string) -> bool)
    returns (newPollTime: Long, sent: seq<Metric>)
    ensures newPollTime >= lastPollTime
    ensures queueLength.None? ==> newPollTime == lastPollTime && sent == []
    ensures queueLength.Some? && builds.None? ==>
      newPollTime == lastPollTime
      && sent == Delivered([Metric(config.QueueLengthMetricName(), queueLength.value)], faults.firstRefusedSend)
    ensures queueLength.Some? && builds.Some? && faults.firstRefusedSend == Some(0) ==>
      newPollTime == lastPollTime && sent == []
    ensures queueLength.Some? && builds.Some? && faults.firstRefusedSend != Some(0) ==>
      var list := builds.value;
      var scanned := Reach(faults.failedScanFetch, |list|);
      // the watermark has moved over the builds scanned before any failure
      && newPollTime == AdvanceWatermark(lastPollTime, list[..scanned])
      // a fetch that throws in the scan leaves only the queue length sent
      && (scanned < |list| ==> sent == [Metric(config.QueueLengthMetricName(), queueLength.value)])
      && (scanned == |list| ==> sent == Delivered(PlannedMetrics(config, queueLength.value, list, matches),
                                                  SendCut(faults)))
  {
    newPollTime, sent := lastPollTime, [];
    if queueLength.None? {
      return;
    }
    var queueMetric := Metric(config.QueueLengthMetricName(), queueLength.value);
    if faults.firstRefusedSend == Some(0) {
      return;
    }
    sent := [queueMetric];
    if builds.None? {
      return;
    }
    var scanned;
    newPollTime, scanned := ScanWatermark(lastPollTime, builds.value, faults.failedScanFetch);
    WatermarkIsRunningMax(lastPollTime, builds.value[..scanned]);
    if scanned < |builds.value| {
      return;
    }
    var kept := FilterBuilds(builds.value, config.excludeProjects, matches);
    sent := SendBuildMetrics(config, sent, kept, faults.failedDurationFetch, faults.firstRefusedSend);
  }
}
