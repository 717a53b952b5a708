/**
 * The RDS instance processor of pkg/processor/rds_instance.go. For each
 * region it lists the RDS instances and sends every one of them to the
 * list at once, loading. It then fetches a week of "AWS/RDS" metrics of
 * each instance in turn, sends the item again with them and queues it for
 * evaluation; the first failed fetch ends the region. No RDS instance is
 * skipped. The evaluation worker derives the cluster type, asks for the
 * wastage answer and merges it into the item, which it sends once more.
 *
 * The RDS and CloudWatch calls are parameters (`RdsProvider`, and the
 * `evaluate` function of the worker), as are the default RDS preferences;
 * the job reports are kept as a log in the order they are published, and
 * the list's items as the sequence sent to it.
 */
module RdsProcessor {
  import opened Wrappers
  import opened Text
  import opened AwsTypes
  import opened WastageEc2
  import opened WastageRds
  import opened RdsInstanceItem
  import Proto
  import Hash
  import Ec2InstanceItem
  import PreferencesRegistry

  type Job = Proto.JobResult
  type Preferences = seq<Proto.PreferenceItem>

  /**
   * What the AWS and CloudWatch calls answer: the RDS instances of a region
   * and the metrics of one namespace for one instance id over the last week.
   */
  datatype RdsProvider = RdsProvider(
    listInstances: string -> Result<seq<DbInstance>>,
    metrics: (string, string, string) -> Result<Metrics>)

  /** A job report as published when the job is done, with its failure or "". */
  function Finished(j: Job, failure: string): Job { j.(failureMessage := failure, done := true) }

  function RegionJob(region: string): Job {
    Proto.JobResult("region_rds_instances_" + region, "Listing all rds instances in " + region, "", false)
  }

  function MetricsJob(id: string): Job {
    Proto.JobResult("rds_instance_" + id + "_metrics", "getting metrics of " + id, "", false)
  }

  function WastageJob(id: string): Job {
    Proto.JobResult("wastage_rds_" + id, "Evaluating RDS usage data for " + id, "", false)
  }

  /** The week of "AWS/RDS" metrics of an instance (lines 115-151). */
  function MetricsOf(p: RdsProvider, region: string, v: DbInstance): Result<Metrics> {
    p.metrics(region, "AWS/RDS", v.dbInstanceIdentifier)
  }

  // ---------------------------------------------------------------- listing

  /** The item first sent for an instance (lines 101-111): loading, with the default preferences and no data. */
  function ListedItem(v: DbInstance, region: string, defaults: Preferences): (oi: RdsInstanceItem) {
    RdsInstanceItem(v, region, true, defaults, false, None, map[], ZeroRdsResponse)
  }

  /** The item sent again once its metrics are in (lines 154-163). */
  function MeasuredItem(v: DbInstance, region: string, defaults: Preferences, m: Metrics): (oi: RdsInstanceItem) {
    ListedItem(v, region, defaults).(metrics := m)
  }

  /**
   * No RDS instance is skipped: every item, listed or measured, is loading,
   * carries the default preferences and the instance, and a measured item
   * differs from the listed one only by its metrics.
   */
  lemma ItemsAreLoading(v: DbInstance, region: string, defaults: Preferences, m: Metrics)
    ensures var l := ListedItem(v, region, defaults);
            l.instance == v && l.region == region && l.optimizationLoading && !l.skipped && l.skipReason.None? &&
            l.preferences == defaults && l.metrics == map[] && l.wastage == ZeroRdsResponse
    ensures var l := ListedItem(v, region, defaults); var q := MeasuredItem(v, region, defaults, m);
            q.metrics == m && q.(metrics := map[]) == l
  {
  }

  /** The listed items of a region's instances, in order. */
  function ListedItems(vs: seq<DbInstance>, region: string, defaults: Preferences): (r: seq<RdsInstanceItem>)
    ensures |r| == |vs|
  {
    seq(|vs|, k requires 0 <= k < |vs| => ListedItem(vs[k], region, defaults))
  }

  /** The list items sent for a sequence of processor items. */
  function SentOf(items: seq<RdsInstanceItem>, f: Formats): (r: seq<OptimizationItem>)
    ensures |r| == |items|
  {
    Mapped(items, (i: RdsInstanceItem) => OptimizationItemOf(i, f))
  }

  /** The item map after storing each item under its instance identifier, in order. */
  function Store(m: map<string, RdsInstanceItem>, items: seq<RdsInstanceItem>): map<string, RdsInstanceItem>
    decreases |items|
  {
    if items == [] then m
    else
      var last := items[|items| - 1];
      Store(m, items[..|items| - 1])[last.instance.dbInstanceIdentifier := last]
  }

  /** The item stored last under an identifier is the one the map holds. */
  lemma {:induction false} StoreLastWins(m: map<string, RdsInstanceItem>, items: seq<RdsInstanceItem>, k: int)
    requires 0 <= k < |items|
    requires forall j :: k < j < |items| ==> items[j].instance.dbInstanceIdentifier != items[k].instance.dbInstanceIdentifier
    ensures items[k].instance.dbInstanceIdentifier in Store(m, items)
    ensures Store(m, items)[items[k].instance.dbInstanceIdentifier] == items[k]
    decreases |items|
  {
    if k < |items| - 1 {
      StoreLastWins(m, items[..|items| - 1], k);
    }
  }

  // ---------------------------------------------------------------- the metrics pass

  /** What the second pass over a region has done: items queued, jobs published, and whether it stopped. */
  datatype Pass = Pass(queued: seq<RdsInstanceItem>, jobs: seq<Job>, aborted: bool)

  /** What the second pass does with one instance on its own (lines 115-166). */
  function StepOf(p: RdsProvider, region: string, defaults: Preferences, v: DbInstance): Pass {
    var id := v.dbInstanceIdentifier;
    var r := MetricsOf(p, region, v);
    if r.Err? then Pass([], [MetricsJob(id), Finished(MetricsJob(id), r.error)], true)
    else Pass([MeasuredItem(v, region, defaults, r.value)], [MetricsJob(id), Finished(MetricsJob(id), "")], false)
  }

  /** One more instance in the second pass: nothing once it has stopped. */
  function PassStep(p: RdsProvider, region: string, defaults: Preferences, acc: Pass, v: DbInstance): Pass {
    if acc.aborted then acc
    else
      var s := StepOf(p, region, defaults, v);
      Pass(acc.queued + s.queued, acc.jobs + s.jobs, s.aborted)
  }

  /** The second pass over a region's instances. */
  function MetricsPass(p: RdsProvider, region: string, defaults: Preferences, vs: seq<DbInstance>): Pass
    decreases |vs|
  {
    if vs == [] then Pass([], [], false)
    else PassStep(p, region, defaults, MetricsPass(p, region, defaults, vs[..|vs| - 1]), vs[|vs| - 1])
  }

  /** The pass over one more instance is one more step. */
  lemma PassUnfold(p: RdsProvider, region: string, defaults: Preferences, vs: seq<DbInstance>, n: int)
    requires 0 <= n < |vs|
    ensures MetricsPass(p, region, defaults, vs[..n + 1]) ==
            PassStep(p, region, defaults, MetricsPass(p, region, defaults, vs[..n]), vs[n])
  {
    assert vs[..n + 1][..n] == vs[..n];
  }

  /** Once the pass has stopped, the remaining instances change nothing (the return of line 147). */
  lemma {:induction false} PassStopped(p: RdsProvider, region: string, defaults: Preferences, vs: seq<DbInstance>, n: int)
    requires 0 <= n <= |vs| && MetricsPass(p, region, defaults, vs[..n]).aborted
    ensures MetricsPass(p, region, defaults, vs) == MetricsPass(p, region, defaults, vs[..n])
    decreases |vs| - n
  {
    if n < |vs| {
      PassUnfold(p, region, defaults, vs, n);
      PassStopped(p, region, defaults, vs, n + 1);
    } else {
      assert vs[..n] == vs;
    }
  }

  /**
   * The pass queues the measured items of the instances in the order
   * listed, up to the first instance whose metrics fail: with `n` items
   * queued, the first `n` instances' metrics were fetched and those items
   * are theirs; the pass stopped exactly when the next instance's metrics
   * failed, and otherwise every instance was queued. Each instance
   * published its two job reports.
   */
  lemma {:induction false} PassQueuesPrefix(p: RdsProvider, region: string, defaults: Preferences, vs: seq<DbInstance>)
    ensures var ps := MetricsPass(p, region, defaults, vs); var n := |ps.queued|;
            n <= |vs| &&
            (forall k :: 0 <= k < n ==>
               MetricsOf(p, region, vs[k]).Ok? &&
               ps.queued[k] == MeasuredItem(vs[k], region, defaults, MetricsOf(p, region, vs[k]).value)) &&
            (ps.aborted ==> n < |vs| && MetricsOf(p, region, vs[n]).Err? && |ps.jobs| == 2 * n + 2) &&
            (!ps.aborted ==> n == |vs| && |ps.jobs| == 2 * n)
    decreases |vs|
  {
    if vs != [] {
      var init := vs[..|vs| - 1];
      PassQueuesPrefix(p, region, defaults, init);
      var before := MetricsPass(p, region, defaults, init);
      assert forall k :: 0 <= k < |init| ==> init[k] == vs[k];
    }
  }

  /** When no instance's metrics fail, the pass queues the measured item of every instance, in order. */
  lemma PassQueuesAll(p: RdsProvider, region: string, defaults: Preferences, vs: seq<DbInstance>)
    requires forall k :: 0 <= k < |vs| ==> MetricsOf(p, region, vs[k]).Ok?
    ensures var ps := MetricsPass(p, region, defaults, vs);
            !ps.aborted && |ps.queued| == |vs| &&
            forall k :: 0 <= k < |vs| ==> ps.queued[k] == MeasuredItem(vs[k], region, defaults, MetricsOf(p, region, vs[k]).value)
  {
    PassQueuesPrefix(p, region, defaults, vs);
  }

  /**
   * The first instance whose metrics fail stops the pass: its failure is
   * the last job reported and no instance after it is queued.
   */
  lemma AbortEndsRegion(p: RdsProvider, region: string, defaults: Preferences, vs: seq<DbInstance>, n: int)
    requires 0 <= n < |vs| && !MetricsPass(p, region, defaults, vs[..n]).aborted
    requires MetricsOf(p, region, vs[n]).Err?
    ensures var ps := MetricsPass(p, region, defaults, vs); var id := vs[n].dbInstanceIdentifier;
            ps.aborted && ps.queued == MetricsPass(p, region, defaults, vs[..n]).queued &&
            ps.jobs == MetricsPass(p, region, defaults, vs[..n]).jobs +
                       [MetricsJob(id), Finished(MetricsJob(id), MetricsOf(p, region, vs[n]).error)]
  {
    PassUnfold(p, region, defaults, vs, n);
    PassStopped(p, region, defaults, vs, n + 1);
  }

  /**
   * When no metrics fail and the identifiers are distinct, the region ends
   * with every instance's measured item stored: the second pass's items
   * replace the listed ones.
   */
  lemma RegionEndsMeasured(p: RdsProvider, region: string, defaults: Preferences, vs: seq<DbInstance>,
                           m: map<string, RdsInstanceItem>, k: int)
    requires forall j :: 0 <= j < |vs| ==> MetricsOf(p, region, vs[j]).Ok?
    requires forall i, j :: 0 <= i < j < |vs| ==> vs[i].dbInstanceIdentifier != vs[j].dbInstanceIdentifier
    requires 0 <= k < |vs|
    ensures var items := Store(Store(m, ListedItems(vs, region, defaults)), MetricsPass(p, region, defaults, vs).queued);
            vs[k].dbInstanceIdentifier in items &&
            items[vs[k].dbInstanceIdentifier] == MeasuredItem(vs[k], region, defaults, MetricsOf(p, region, vs[k]).value)
  {
    PassQueuesAll(p, region, defaults, vs);
    var q := MetricsPass(p, region, defaults, vs).queued;
    StoreLastWins(Store(m, ListedItems(vs, region, defaults)), q, k);
  }

  // ---------------------------------------------------------------- evaluation

  /** The cluster type of lines 186-195: two readable standbys, one standby, or a single instance. */
  function ClusterType(v: DbInstance): (r: string)
    ensures r == MultiAzTwoInstance <==> v.multiAz == Some(true) && v.replicaMode == OpenReadOnly
    ensures r == MultiAzOneInstance <==> v.multiAz == Some(true) && v.replicaMode != OpenReadOnly
    ensures r == SingleInstance <==> v.multiAz != Some(true)
  {
    var multiAz := v.multiAz.Some? && v.multiAz.value;
    var readableStandbys := v.replicaMode == OpenReadOnly;
    if multiAz && readableStandbys then MultiAzTwoInstance
    else if multiAz then MultiAzOneInstance
    else SingleInstance
  }

  /** The request for an item (lines 206-232). */
  function RequestOf(item: RdsInstanceItem): (r: AwsRdsWastageRequest)
    requires item.instance.listed
  {
    var v := item.instance;
    AwsRdsWastageRequest(
      AwsRds(Hash.HashString(v.dbInstanceIdentifier), v.availabilityZone, v.dbInstanceClass, v.engine,
             v.engineVersion, v.licenseModel, v.backupRetentionPeriod, ClusterType(v), v.performanceInsightsEnabled,
             v.performanceInsightsRetentionPeriod, v.storageType, v.allocatedStorage, v.iops,
             Ec2InstanceItem.RealOf(v.storageThroughput)),
      item.metrics, item.region, PreferencesRegistry.Exported(item.preferences))
  }

  /**
   * The request describes the instance: its id hashed, its class as the
   * instance type, its cluster type, and its storage throughput as the
   * same number in floating point, absent when the instance has none.
   */
  lemma RequestDescribesInstance(item: RdsInstanceItem)
    requires item.instance.listed
    ensures var r := RequestOf(item); var v := item.instance;
            r.instance.hashedInstanceId == Hash.HashString(v.dbInstanceIdentifier) &&
            r.instance.instanceType == v.dbInstanceClass && r.instance.clusterType == ClusterType(v) &&
            r.instance.storageSize == v.allocatedStorage && r.instance.storageIops == v.iops &&
            (r.instance.storageThroughput.None? <==> v.storageThroughput.None?) &&
            (v.storageThroughput.Some? ==> r.instance.storageThroughput == Some(v.storageThroughput.value as real)) &&
            r.metrics == item.metrics && r.region == item.region &&
            r.preferences == PreferencesRegistry.Exported(item.preferences)
  {
  }

  /** The error text that ends the program (line 235). */
  predicate LoginRequired(e: string) { Contains(e, "please login") }

  /**
   * The item after an answer (lines 246-264): an answer without a current
   * instance type only stops the loading; any other replaces the item's
   * answer and clears the skip.
   */
  function Merged(item: RdsInstanceItem, res: AwsRdsWastageResponse): (r: RdsInstanceItem)
    ensures !r.optimizationLoading
    ensures r.instance == item.instance && r.region == item.region && r.preferences == item.preferences
    ensures r.metrics == item.metrics
    ensures res.rightSizing.current.instanceType == "" ==>
              r.skipped == item.skipped && r.skipReason == item.skipReason && r.wastage == item.wastage
    ensures res.rightSizing.current.instanceType != "" ==> !r.skipped && r.skipReason.None? && r.wastage == res
  {
    if res.rightSizing.current.instanceType == "" then item.(optimizationLoading := false)
    else RdsInstanceItem(item.instance, item.region, false, item.preferences, false, None, item.metrics, res)
  }

  /** Merging the same answer twice is merging it once. */
  lemma MergeIdempotent(item: RdsInstanceItem, res: AwsRdsWastageResponse)
    ensures Merged(Merged(item, res), res) == Merged(item, res)
  {
  }

  /**
   * A re-evaluated item that gets an answer keeps the preferences it was
   * re-evaluated with, and its request exports them.
   */
  lemma ReEvaluatedKeepsPreferences(item: RdsInstanceItem, prefs: Preferences, res: AwsRdsWastageResponse)
    ensures Merged(item.(preferences := prefs), res).preferences == prefs
    ensures !Merged(item.(preferences := prefs), res).optimizationLoading
    ensures item.instance.listed ==>
              RequestOf(item.(preferences := prefs)).preferences == PreferencesRegistry.Exported(prefs)
  {
  }

  /**
   * `ReEvaluate`'s item when the id is unknown: Go's zero item, whose
   * instance is not listed, so its identifier pointer is nil.
   */
  const ZeroItem: RdsInstanceItem :=
    RdsInstanceItem(DbInstance(false, "", "", "", "", "", "", None, "", None, false, None, None, None, None, None),
                    "", false, [], false, None, map[], ZeroRdsResponse)

  /** The text of the runtime panic a nil dereference raises, as the worker's `recover` formats it. */
  const NilDereference: string := "runtime error: invalid memory address or nil pointer dereference"

  class RdsInstanceProcessor {
    const provider: RdsProvider
    const formats: Formats
    /** The default RDS preferences every new item starts from. */
    const defaults: Preferences
    /** The items by instance identifier. */
    var items: map<string, RdsInstanceItem>
    /** What waits on the evaluation channel, oldest first. */
    var wastageQueue: seq<RdsInstanceItem>
    /** Every item sent to the list, in order. */
    var sent: seq<OptimizationItem>
    /** Every job report published, in order. */
    var jobs: seq<Job>
    /** Whether the program has exited for want of a login. */
    var exited: bool
    /** Every error published to the jobs controller, in order. */
    var errors: seq<string>

    /** The state the processor's steps are specified by. */
    function State(): Log
      reads this
    {
      Log(items, wastageQueue, sent, jobs)
    }

    /** `NewRDSInstanceProcessor` (lines 33-52), without starting its goroutines. */
    constructor(provider: RdsProvider, formats: Formats, defaults: Preferences)
      ensures this.provider == provider && this.formats == formats && this.defaults == defaults
      ensures items == map[] && wastageQueue == [] && sent == [] && jobs == [] && !exited && errors == []
    {
      this.provider, this.formats, this.defaults := provider, formats, defaults;
      items, wastageQueue, sent, jobs, exited, errors := map[], [], [], [], false, [];
    }

    /**
     * `ProcessRegion` (lines 83-168): a failed listing is reported and ends
     * the region; otherwise every instance is stored and sent as listed,
     * then the metrics pass stores, sends and queues them with their metrics.
     */
    method ProcessRegion(region: string)
      modifies this
      ensures exited == old(exited) && errors == old(errors)
      ensures provider.listInstances(region).Err? ==>
                items == old(items) && wastageQueue == old(wastageQueue) && sent == old(sent) &&
                jobs == old(jobs) + [RegionJob(region), Finished(RegionJob(region), provider.listInstances(region).error)]
      ensures provider.listInstances(region).Ok? ==>
                var vs := provider.listInstances(region).value;
                var listed := ListedItems(vs, region, defaults);
                var ps := MetricsPass(provider, region, defaults, vs);
                items == Store(Store(old(items), listed), ps.queued) &&
                wastageQueue == old(wastageQueue) + ps.queued &&
                sent == old(sent) + SentOf(listed, formats) + SentOf(ps.queued, formats) &&
                jobs == old(jobs) + [RegionJob(region), Finished(RegionJob(region), "")] + ps.jobs
    {
      var listing := provider.listInstances(region);
      if listing.Err? {
        jobs := jobs + [RegionJob(region), Finished(RegionJob(region), listing.error)];
        return;
      }
      jobs := jobs + [RegionJob(region), Finished(RegionJob(region), "")];
      SendListed(region, listing.value);
      MeasureListed(region, listing.value);
    }

    /** Lines 101-112: every instance is stored and sent as listed. */
    method SendListed(region: string, vs: seq<DbInstance>)
      modifies this
      ensures State() == Shown(old(State()), ListedItems(vs, region, defaults), formats)
      ensures exited == old(exited) && errors == old(errors)
    {
      for n := 0 to |vs|
        invariant State() == Shown(old(State()), ListedItems(vs[..n], region, defaults), formats)
        invariant exited == old(exited) && errors == old(errors)
      {
        var oi := RdsInstanceItem(vs[n], region, true, defaults, false, None, map[], ZeroRdsResponse);
        ListedStep(vs, region, defaults, n);
        ShownStep(old(State()), ListedItems(vs[..n], region, defaults), oi, formats);
        Put(oi);
      }
      assert vs[..|vs|] == vs;
    }

    /** Lines 110-111, 162-163, 248-249 and 263-264: the item is stored under its identifier and sent to the list. */
    method Put(oi: RdsInstanceItem)
      modifies this
      ensures items == old(items)[oi.instance.dbInstanceIdentifier := oi]
      ensures sent == old(sent) + [OptimizationItemOf(oi, formats)]
      ensures wastageQueue == old(wastageQueue) && jobs == old(jobs) && exited == old(exited) && errors == old(errors)
    {
      items := items[oi.instance.dbInstanceIdentifier := oi];
      sent := sent + [OptimizationItemOf(oi, formats)];
    }

    /**
     * Lines 114-167: each instance's metrics are fetched, then it is stored,
     * sent and queued; the first failed fetch ends the region.
     */
    method MeasureListed(region: string, vs: seq<DbInstance>)
      modifies this
      ensures State() == After(old(State()), MetricsPass(provider, region, defaults, vs), formats)
      ensures exited == old(exited) && errors == old(errors)
    {
      for n := 0 to |vs|
        invariant !MetricsPass(provider, region, defaults, vs[..n]).aborted
        invariant State() == After(old(State()), MetricsPass(provider, region, defaults, vs[..n]), formats)
        invariant exited == old(exited) && errors == old(errors)
      {
        ghost var before := MetricsPass(provider, region, defaults, vs[..n]);
        PassUnfold(provider, region, defaults, vs, n);
        AfterStep(old(State()), before, StepOf(provider, region, defaults, vs[n]), formats);
        var stop := MeasureInstance(region, vs[n]);
        if stop {
          PassStopped(provider, region, defaults, vs, n + 1);
          return;
        }
      }
      assert vs[..|vs|] == vs;
    }

    /** One instance of lines 115-166: its metrics job, then the item stored, sent and queued. */
    method MeasureInstance(region: string, v: DbInstance) returns (stop: bool)
      modifies this
      ensures stop == StepOf(provider, region, defaults, v).aborted
      ensures State() == After(old(State()), StepOf(provider, region, defaults, v), formats)
      ensures exited == old(exited) && errors == old(errors)
    {
      ghost var l := State();
      var id := v.dbInstanceIdentifier;
      var imjob := MetricsJob(id);
      jobs := jobs + [imjob];
      imjob := imjob.(done := true);
      var cwMetrics := provider.metrics(region, "AWS/RDS", id);
      if cwMetrics.Err? {
        imjob := imjob.(failureMessage := cwMetrics.error);
        jobs := jobs + [imjob];
        assert jobs == l.jobs + StepOf(provider, region, defaults, v).jobs;
        AfterNothing(l, StepOf(provider, region, defaults, v).jobs, true, formats);
        return true;
      }
      jobs := jobs + [imjob];
      var oi := RdsInstanceItem(v, region, true, defaults, false, None, cwMetrics.value, ZeroRdsResponse);
      assert StepOf(provider, region, defaults, v) == Pass([oi], [MetricsJob(id), imjob], false);
      AfterOne(l, oi, [MetricsJob(id), imjob], formats);
      Put(oi);
      if !oi.skipped {
        wastageQueue := wastageQueue + [oi];
      }
      stop := false;
    }

    /**
     * `WastageWorker` (lines 176-265): the evaluation is reported as a job;
     * a login error ends the program, any other error is reported, and an
     * answer is merged into the item, which is stored and sent again. When
     * the identifier is nil (Go's zero item) the job's id panics at line
     * 183, and the deferred `recover` (lines 177-181) publishes the panic as
     * an error.
     */
    method WastageWorker(item: RdsInstanceItem, evaluate: AwsRdsWastageRequest -> Result<AwsRdsWastageResponse>)
      modifies this
      ensures wastageQueue == old(wastageQueue)
      ensures !item.instance.listed ==>
                errors == old(errors) + [NilDereference] &&
                exited == old(exited) && items == old(items) && sent == old(sent) && jobs == old(jobs)
      ensures item.instance.listed ==> errors == old(errors)
      ensures item.instance.listed ==>
              var id := item.instance.dbInstanceIdentifier; var res := evaluate(RequestOf(item));
              res.Err? && LoginRequired(res.error) ==>
                exited && items == old(items) && sent == old(sent) && jobs == old(jobs) + [WastageJob(id)]
      ensures item.instance.listed ==>
              var id := item.instance.dbInstanceIdentifier; var res := evaluate(RequestOf(item));
              res.Err? && !LoginRequired(res.error) ==>
                exited == old(exited) && items == old(items) && sent == old(sent) &&
                jobs == old(jobs) + [WastageJob(id), Finished(WastageJob(id), res.error)]
      ensures item.instance.listed ==>
              var id := item.instance.dbInstanceIdentifier; var res := evaluate(RequestOf(item));
              res.Ok? ==>
                exited == old(exited) && items == old(items)[id := Merged(item, res.value)] &&
                sent == old(sent) + [OptimizationItemOf(Merged(item, res.value), formats)] &&
                jobs == old(jobs) + [WastageJob(id), Finished(WastageJob(id), "")]
    {
      if !item.instance.listed {
        errors := errors + [NilDereference];
        return;
      }
      var id := item.instance.dbInstanceIdentifier;
      jobs := jobs + [WastageJob(id)];
      var request := BuildRequest(item);
      var res := evaluate(request);
      if res.Err? {
        if Contains(res.error, "please login") {
          exited := true;
          return;
        }
        jobs := jobs + [Finished(WastageJob(id), res.error)];
        return;
      }
      jobs := jobs + [Finished(WastageJob(id), "")];
      Put(Merged(item, res.value));
    }

    /**
     * `ReEvaluate` (lines 267-272): the item under the id, or the zero item
     * when there is none, takes the new preferences, is stored and queued.
     */
    method ReEvaluate(id: string, prefs: Preferences)
      modifies this
      ensures var v := (if id in old(items) then old(items)[id] else ZeroItem).(preferences := prefs);
              items == old(items)[id := v] && wastageQueue == old(wastageQueue) + [v]
      ensures sent == old(sent) && jobs == old(jobs) && exited == old(exited) && errors == old(errors)
    {
      var v := if id in items then items[id] else ZeroItem;
      v := v.(preferences := prefs);
      items := items[id := v];
      wastageQueue := wastageQueue + [items[id]];
    }
  }

  /** Lines 186-232 as written: the cluster type, the instance fields, then the throughput when there is one. */
  method BuildRequest(item: RdsInstanceItem) returns (request: AwsRdsWastageRequest)
    requires item.instance.listed
    ensures request == RequestOf(item)
  {
    var v := item.instance;
    var clusterType := SingleInstance;
    var multiAz := v.multiAz.Some? && v.multiAz.value;
    var readableStandbys := v.replicaMode == OpenReadOnly;
    if multiAz && readableStandbys {
      clusterType := MultiAzTwoInstance;
    } else if multiAz {
      clusterType := MultiAzOneInstance;
    }
    var preferences := PreferencesRegistry.Export(item.preferences);
    request := AwsRdsWastageRequest(
      AwsRds(Hash.HashString(v.dbInstanceIdentifier), v.availabilityZone, v.dbInstanceClass, v.engine,
             v.engineVersion, v.licenseModel, v.backupRetentionPeriod, clusterType, v.performanceInsightsEnabled,
             v.performanceInsightsRetentionPeriod, v.storageType, v.allocatedStorage, v.iops, None),
      item.metrics, item.region, preferences);
    if v.storageThroughput.Some? {
      var floatThroughput := v.storageThroughput.value as real;
      request := request.(instance := request.instance.(storageThroughput := Some(floatThroughput)));
    }
  }

  /** The processor's item map, evaluation queue, sent items and published jobs. */
  datatype Log = Log(items: map<string, RdsInstanceItem>, queue: seq<RdsInstanceItem>, sent: seq<OptimizationItem>,
                     jobs: seq<Job>)

  /** The state after a pass (or a step) has stored, queued and sent its items and published its jobs. */
  function After(l: Log, ps: Pass, f: Formats): Log {
    Log(Store(l.items, ps.queued), l.queue + ps.queued, l.sent + SentOf(ps.queued, f), l.jobs + ps.jobs)
  }

  /** A step that queues nothing only publishes its jobs. */
  lemma AfterNothing(l: Log, js: seq<Job>, aborted: bool, f: Formats)
    ensures After(l, Pass([], js, aborted), f) == Log(l.items, l.queue, l.sent, l.jobs + js)
  {
    assert l.queue + [] == l.queue;
    assert l.sent + SentOf([], f) == l.sent;
  }

  /** A step that queues one item stores, queues and sends it. */
  lemma AfterOne(l: Log, oi: RdsInstanceItem, js: seq<Job>, f: Formats)
    ensures After(l, Pass([oi], js, false), f) ==
            Log(l.items[oi.instance.dbInstanceIdentifier := oi], l.queue + [oi], l.sent + [OptimizationItemOf(oi, f)],
                l.jobs + js)
  {
    assert [oi][..0] == [];
    assert Store(l.items, [oi]) == Store(l.items, [])[oi.instance.dbInstanceIdentifier := oi];
    assert SentOf([oi], f) == [OptimizationItemOf(oi, f)];
  }

  /** The state after items are stored and sent, but not queued. */
  function Shown(l: Log, xs: seq<RdsInstanceItem>, f: Formats): Log {
    Log(Store(l.items, xs), l.queue, l.sent + SentOf(xs, f), l.jobs)
  }

  /** Showing one more item stores and sends it last. */
  lemma ShownStep(l: Log, xs: seq<RdsInstanceItem>, oi: RdsInstanceItem, f: Formats)
    ensures Shown(l, xs + [oi], f) ==
            Log(Shown(l, xs, f).items[oi.instance.dbInstanceIdentifier := oi], l.queue,
                Shown(l, xs, f).sent + [OptimizationItemOf(oi, f)], l.jobs)
  {
    assert (xs + [oi])[..|xs|] == xs;
    assert SentOf(xs + [oi], f) == SentOf(xs, f) + [OptimizationItemOf(oi, f)];
  }

  /** Doing one pass and then another is doing both at once. */
  lemma AfterStep(l: Log, a: Pass, b: Pass, f: Formats)
    ensures After(After(l, a, f), b, f) == After(l, Pass(a.queued + b.queued, a.jobs + b.jobs, b.aborted), f)
  {
    StoreAppend(l.items, a.queued, b.queued);
    SentAppend(a.queued, b.queued, f);
    Assoc(l.queue, a.queued, b.queued);
    Assoc(l.sent, SentOf(a.queued, f), SentOf(b.queued, f));
    Assoc(l.jobs, a.jobs, b.jobs);
  }

  /** Storing two runs of items is storing the first, then the second. */
  lemma {:induction false} StoreAppend(m: map<string, RdsInstanceItem>, a: seq<RdsInstanceItem>, b: seq<RdsInstanceItem>)
    ensures Store(m, a + b) == Store(Store(m, a), b)
    decreases |b|
  {
    if b == [] {
      assert a + b == a;
    } else {
      var init := b[..|b| - 1];
      StoreAppend(m, a, init);
      assert (a + b)[..|a + b| - 1] == a + init;
    }
  }

  /** The list items of two runs of items are those of the first, then those of the second. */
  lemma SentAppend(a: seq<RdsInstanceItem>, b: seq<RdsInstanceItem>, f: Formats)
    ensures SentOf(a + b, f) == SentOf(a, f) + SentOf(b, f)
  {
    MappedAppend(a, b, (i: RdsInstanceItem) => OptimizationItemOf(i, f));
  }

  /** The listed items of one more instance. */
  lemma ListedStep(vs: seq<DbInstance>, region: string, defaults: Preferences, n: int)
    requires 0 <= n < |vs|
    ensures ListedItems(vs[..n + 1], region, defaults) == ListedItems(vs[..n], region, defaults) + [ListedItem(vs[n], region, defaults)]
  {
  }
}
