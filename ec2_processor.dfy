/**
 * The EC2 instance processor of pkg/processor/ec2_instance.go. For each
 * region it lists the instances and sends every one of them to the list at
 * once, loading, or skipped with the reason of the first filter test it
 * fails. It then fetches the volumes and a week of metrics of each eligible
 * instance in turn, sends the item again with that data and queues it for
 * evaluation; the first failed fetch ends the region. The evaluation worker
 * merges the wastage answer into the item and sends it once more.
 *
 * The AWS, CloudWatch and wastage calls are parameters (`Provider`, and
 * the `evaluate` function of the worker); the job reports are kept as a log
 * in the order they are published, and the list's items as the sequence
 * sent to it.
 */
module Ec2Processor {
  import opened Wrappers
  import opened Text
  import opened AwsTypes
  import opened WastageEc2
  import opened Ec2InstanceItem
  import Proto
  import Hash
  import OptimizePreferences
  import PreferencesRegistry

  type Job = Proto.JobResult

  /**
   * What the AWS and CloudWatch calls answer: the instances of a region,
   * the volumes attached to an instance, and the metrics of one namespace
   * for one instance or volume id over the last week.
   */
  datatype Provider = Provider(
    listInstances: string -> Result<seq<Instance>>,
    attachedVolumes: (string, Instance) -> Result<seq<Volume>>,
    metrics: (string, string, string) -> Result<Metrics>)

  /** A job report as published when the job is done, with its failure or "". */
  function Finished(j: Job, failure: string): Job { j.(failureMessage := failure, done := true) }

  function RegionJob(region: string): Job {
    Proto.JobResult("region_ec2_instances_" + region, "Listing all ec2 instances in " + region, "", false)
  }

  function VolumesJob(id: string): Job {
    Proto.JobResult("volumes_" + id, "getting volumes of " + id, "", false)
  }

  function MetricsJob(id: string): Job {
    Proto.JobResult("instance_" + id + "_metrics", "getting metrics of " + id, "", false)
  }

  function VolumeMetricsJob(id: string): Job {
    Proto.JobResult("volume_" + id + "_metrics", "getting volume metrics of " + id, "", false)
  }

  function WastageJob(id: string): Job {
    Proto.JobResult("wastage_" + id, "Evaluating usage data for " + id, "", false)
  }

  // ---------------------------------------------------------------- listing

  /** The skip reason (lines 114-130): the first of the filter's tests that fails names it. */
  function SkipReason(v: Instance): (r: Option<string>)
    ensures r.None? <==> Eligible(v)
    ensures r == Some("not running") <==> v.state != Running
    ensures r == Some("spot instance") <==> v.state == Running && v.lifecycle == Spot
    ensures r == Some("auto-scaling group instance") <==>
              v.state == Running && v.lifecycle != Spot && InAutoScalingGroup(v.tags)
  {
    if v.state != Running then Some("not running")
    else if v.lifecycle == Spot then Some("spot instance")
    else if InAutoScalingGroup(v.tags) then Some("auto-scaling group instance")
    else None
  }

  /** The item first sent for an instance (lines 101-130): loading when eligible, skipped otherwise. */
  function ListedItem(v: Instance, region: string): (oi: Ec2InstanceItem) {
    Ec2InstanceItem(v, region, Eligible(v), OptimizePreferences.DefaultPreferences(), !Eligible(v), SkipReason(v),
                    [], map[], map[], ZeroResponse)
  }

  /**
   * A listed item is skipped exactly when the instance is not eligible, and
   * then it is not loading and has a reason; it starts from the default
   * preferences and no data.
   */
  lemma ListedItemClassifies(v: Instance, region: string)
    ensures var oi := ListedItem(v, region);
            oi.instance == v && oi.region == region &&
            (oi.skipped <==> !Eligible(v)) && (oi.optimizationLoading <==> Eligible(v)) &&
            (oi.skipped <==> oi.skipReason.Some?) &&
            oi.preferences == OptimizePreferences.DefaultPreferences() && oi.volumes == [] && oi.wastage == ZeroResponse
  {
  }

  /** Lines 101-130 as written: the item, then the tag scan and the reason chain. */
  method Classify(v: Instance, region: string) returns (oi: Ec2InstanceItem)
    ensures oi == ListedItem(v, region)
  {
    oi := Ec2InstanceItem(v, region, true, OptimizePreferences.DefaultPreferences(), false, None,
                          [], map[], map[], ZeroResponse);
    var isAutoScaling := ScanAutoScaling(v.tags);
    if v.state != Running || v.lifecycle == Spot || isAutoScaling {
      oi := oi.(optimizationLoading := false, skipped := true);
      var reason := "";
      if v.state != Running {
        reason := "not running";
      } else if v.lifecycle == Spot {
        reason := "spot instance";
      } else if isAutoScaling {
        reason := "auto-scaling group instance";
      }
      if |reason| > 0 {
        oi := oi.(skipReason := Some(reason));
      }
    }
  }

  /** The listed items of a region's instances, in order. */
  function ListedItems(vs: seq<Instance>, region: string): (r: seq<Ec2InstanceItem>)
    ensures |r| == |vs|
  {
    seq(|vs|, k requires 0 <= k < |vs| => ListedItem(vs[k], region))
  }

  /** The list items sent for a sequence of processor items. */
  function SentOf(items: seq<Ec2InstanceItem>, f: Formats): (r: seq<OptimizationItem>)
    ensures |r| == |items|
  {
    Mapped(items, (i: Ec2InstanceItem) => OptimizationItemOf(i, f))
  }

  /** The item map after storing each item under its instance id, in order. */
  function Store(m: map<string, Ec2InstanceItem>, items: seq<Ec2InstanceItem>): map<string, Ec2InstanceItem>
    decreases |items|
  {
    if items == [] then m
    else
      var last := items[|items| - 1];
      Store(m, items[..|items| - 1])[last.instance.instanceId := last]
  }

  /** Storing keeps the other keys and adds one key per item. */
  lemma {:induction false} StoreKeys(m: map<string, Ec2InstanceItem>, items: seq<Ec2InstanceItem>)
    ensures Store(m, items).Keys == m.Keys + (set k | 0 <= k < |items| :: items[k].instance.instanceId)
    decreases |items|
  {
    if items != [] {
      var init := items[..|items| - 1];
      StoreKeys(m, init);
      assert forall k :: 0 <= k < |init| ==> init[k] == items[k];
    }
  }

  /** The item stored last under an id is the one the map holds. */
  lemma {:induction false} StoreLastWins(m: map<string, Ec2InstanceItem>, items: seq<Ec2InstanceItem>, k: int)
    requires 0 <= k < |items|
    requires forall j :: k < j < |items| ==> items[j].instance.instanceId != items[k].instance.instanceId
    ensures items[k].instance.instanceId in Store(m, items)
    ensures Store(m, items)[items[k].instance.instanceId] == items[k]
    decreases |items|
  {
    if k < |items| - 1 {
      StoreLastWins(m, items[..|items| - 1], k);
    }
  }

  // ---------------------------------------------------------------- fetching

  /** The data fetched for an eligible instance. */
  datatype Fetched = Fetched(volumes: seq<Volume>, metrics: Metrics, volumeMetrics: map<string, Metrics>)

  /** The outcome of a fetch and the job reports it published, in order. */
  datatype FetchOutcome = FetchOutcome(result: Result<Fetched>, jobs: seq<Job>)

  /** The ids of the EBS volumes among the block device mappings (lines 222-227). */
  function VolumeIds(mappings: seq<BlockDeviceMapping>): (ids: seq<string>)
    ensures |ids| <= |mappings|
    ensures forall x :: x in ids <==> exists k :: 0 <= k < |mappings| && mappings[k].ebs == Some(EbsInstanceBlockDevice(x))
    decreases |mappings|
  {
    if mappings == [] then []
    else
      var init := VolumeIds(mappings[..|mappings| - 1]);
      var m := mappings[|mappings| - 1];
      assert forall k :: 0 <= k < |mappings| - 1 ==> mappings[..|mappings| - 1][k] == mappings[k];
      if m.ebs.Some? then init + [m.ebs.value.volumeId] else init
  }

  /**
   * The volume metrics, volume after volume (lines 229-256): the first
   * failed call decides the error; otherwise each id maps to its answer.
   */
  function VolumeMetrics(p: Provider, region: string, ids: seq<string>): (r: Result<map<string, Metrics>>)
    ensures r.Ok? ==> forall x :: x in r.value <==> x in ids
    ensures r.Ok? ==> forall x :: x in r.value ==> p.metrics(region, "AWS/EBS", x) == Ok(r.value[x])
    ensures r.Err? <==> exists k :: 0 <= k < |ids| && p.metrics(region, "AWS/EBS", ids[k]).Err?
    ensures r.Err? ==> exists k :: 0 <= k < |ids| && p.metrics(region, "AWS/EBS", ids[k]) == Err(r.error) &&
                                   forall j :: 0 <= j < k ==> p.metrics(region, "AWS/EBS", ids[j]).Ok?
    decreases |ids|
  {
    if ids == [] then Ok(map[])
    else
      var init := ids[..|ids| - 1];
      var x := ids[|ids| - 1];
      assert forall k :: 0 <= k < |init| ==> init[k] == ids[k];
      match VolumeMetrics(p, region, init)
      case Err(e) => Err(e)
      case Ok(m) =>
        match p.metrics(region, "AWS/EBS", x)
        case Err(e) => Err(e)
        case Ok(vm) => Ok(m[x := vm])
  }

  /** Once a prefix of the ids has failed, the rest changes nothing. */
  lemma {:induction false} VolumeMetricsStopped(p: Provider, region: string, ids: seq<string>, n: int)
    requires 0 <= n <= |ids| && VolumeMetrics(p, region, ids[..n]).Err?
    ensures VolumeMetrics(p, region, ids) == VolumeMetrics(p, region, ids[..n])
    decreases |ids| - n
  {
    if n < |ids| {
      assert ids[..n + 1][..n] == ids[..n];
      VolumeMetricsStopped(p, region, ids, n + 1);
    } else {
      assert ids[..n] == ids;
    }
  }

  /**
   * Lines 150-257: the volumes, the instance's EC2 and agent metrics (the
   * agent's series win on a clash) and each volume's metrics, with their
   * jobs; the first failure ends the fetch and is reported on its job.
   */
  function Fetch(p: Provider, region: string, v: Instance): (r: FetchOutcome) {
    var id := v.instanceId;
    match p.attachedVolumes(region, v)
    case Err(e) => FetchOutcome(Err(e), [VolumesJob(id), Finished(VolumesJob(id), e)])
    case Ok(volumes) =>
      var js := [VolumesJob(id), Finished(VolumesJob(id), ""), MetricsJob(id)];
      match p.metrics(region, "AWS/EC2", id)
      case Err(e) => FetchOutcome(Err(e), js + [Finished(MetricsJob(id), e)])
      case Ok(cw) =>
        match p.metrics(region, "CWAgent", id)
        case Err(e) => FetchOutcome(Err(e), js + [Finished(MetricsJob(id), e)])
        case Ok(cwa) =>
          var js2 := js + [Finished(MetricsJob(id), ""), VolumeMetricsJob(id)];
          match VolumeMetrics(p, region, VolumeIds(v.blockDeviceMappings))
          case Err(e) => FetchOutcome(Err(e), js2 + [Finished(VolumeMetricsJob(id), e)])
          case Ok(vm) => FetchOutcome(Ok(Fetched(volumes, cw + cwa, vm)), js2 + [Finished(VolumeMetricsJob(id), "")])
  }

  /**
   * A fetch succeeds exactly when every call does, and then holds the
   * volumes, the instance's series with the agent's winning a clash, and
   * the volume metrics.
   */
  lemma FetchSucceeds(p: Provider, region: string, v: Instance)
    ensures var r := Fetch(p, region, v).result; var id := v.instanceId;
            (r.Ok? <==>
               p.attachedVolumes(region, v).Ok? && p.metrics(region, "AWS/EC2", id).Ok? &&
               p.metrics(region, "CWAgent", id).Ok? &&
               VolumeMetrics(p, region, VolumeIds(v.blockDeviceMappings)).Ok?) &&
            (r.Ok? ==>
               r.value.volumes == p.attachedVolumes(region, v).value &&
               r.value.metrics.Keys == p.metrics(region, "AWS/EC2", id).value.Keys + p.metrics(region, "CWAgent", id).value.Keys &&
               (forall x :: x in p.metrics(region, "CWAgent", id).value ==>
                  r.value.metrics[x] == p.metrics(region, "CWAgent", id).value[x]) &&
               r.value.volumeMetrics == VolumeMetrics(p, region, VolumeIds(v.blockDeviceMappings)).value)
  {
  }

  /**
   * Every job a fetch starts is reported done right after it, or after the
   * calls it covers; only the last report can carry a failure, and it
   * carries the fetch's error. A successful fetch publishes all six.
   */
  lemma FetchReports(p: Provider, region: string, v: Instance)
    ensures var out := Fetch(p, region, v); var js := out.jobs;
            |js| % 2 == 0 && 2 <= |js| <= 6 && js[0] == VolumesJob(v.instanceId) &&
            (forall k :: 0 <= k < |js| ==> (js[k].done <==> k % 2 == 1)) &&
            (forall k :: 0 <= k < |js| - 1 ==> js[k].failureMessage == "") &&
            (out.result.Err? ==> js[|js| - 1].failureMessage == out.result.error) &&
            (out.result.Ok? ==> |js| == 6 && js[|js| - 1].failureMessage == "")
  {
    var id := v.instanceId;
    var js := Fetch(p, region, v).jobs;
    var a, b, c := VolumesJob(id), MetricsJob(id), VolumeMetricsJob(id);
    match p.attachedVolumes(region, v)
    case Err(e) =>
      assert js == [a, Finished(a, e)];
    case Ok(volumes) =>
      match p.metrics(region, "AWS/EC2", id)
      case Err(e) =>
        assert js == [a, Finished(a, ""), b, Finished(b, e)];
      case Ok(cw) =>
        match p.metrics(region, "CWAgent", id)
        case Err(e) =>
          assert js == [a, Finished(a, ""), b, Finished(b, e)];
        case Ok(cwa) =>
          var r := VolumeMetrics(p, region, VolumeIds(v.blockDeviceMappings));
          var last := Finished(c, if r.Err? then r.error else "");
          assert js == [a, Finished(a, ""), b, Finished(b, ""), c, last];
  }

  /** Lines 150-257 as written: the calls in order, with the volume id scan and the volume loop. */
  method FetchInstance(p: Provider, region: string, v: Instance) returns (out: FetchOutcome)
    ensures out == Fetch(p, region, v)
  {
    var id := v.instanceId;
    var volumes := p.attachedVolumes(region, v);
    if volumes.Err? {
      return FetchOutcome(Err(volumes.error), [VolumesJob(id), Finished(VolumesJob(id), volumes.error)]);
    }
    var js := [VolumesJob(id), Finished(VolumesJob(id), ""), MetricsJob(id)];
    var cw := p.metrics(region, "AWS/EC2", id);
    if cw.Err? {
      return FetchOutcome(Err(cw.error), js + [Finished(MetricsJob(id), cw.error)]);
    }
    var instanceMetrics := cw.value;
    var cwa := p.metrics(region, "CWAgent", id);
    if cwa.Err? {
      return FetchOutcome(Err(cwa.error), js + [Finished(MetricsJob(id), cwa.error)]);
    }
    instanceMetrics := instanceMetrics + cwa.value;
    js := js + [Finished(MetricsJob(id), ""), VolumeMetricsJob(id)];

    var ids := ScanVolumeIds(v.blockDeviceMappings);
    var volumeMetrics := FetchVolumeMetrics(p, region, ids);
    if volumeMetrics.Err? {
      return FetchOutcome(Err(volumeMetrics.error), js + [Finished(VolumeMetricsJob(id), volumeMetrics.error)]);
    }
    out := FetchOutcome(Ok(Fetched(volumes.value, instanceMetrics, volumeMetrics.value)),
                        js + [Finished(VolumeMetricsJob(id), "")]);
  }

  /** One instance of lines 137-257: skipped, or fetched, with what its fetch published. */
  method Evaluate(p: Provider, region: string, v: Instance) returns (ps: Pass)
    ensures ps == StepOf(p, region, v) && |ps.queued| <= 1
  {
    var isAutoScaling := ScanAutoScaling(v.tags);
    if v.state != Running || v.lifecycle == Spot || isAutoScaling {
      return Pass([], [], false);
    }
    var out := FetchInstance(p, region, v);
    if out.result.Err? {
      return Pass([], out.jobs, true);
    }
    ps := Pass([FetchedItem(v, region, out.result.value)], out.jobs, false);
  }

  /** Lines 222-227 as written. */
  method ScanVolumeIds(mappings: seq<BlockDeviceMapping>) returns (ids: seq<string>)
    ensures ids == VolumeIds(mappings)
  {
    ids := [];
    for n := 0 to |mappings|
      invariant ids == VolumeIds(mappings[..n])
    {
      assert mappings[..n + 1][..n] == mappings[..n];
      if mappings[n].ebs.Some? {
        ids := ids + [mappings[n].ebs.value.volumeId];
      }
    }
    assert mappings[..|mappings|] == mappings;
  }

  /** Lines 229-256 as written: one call per id, returning at the first failure. */
  method FetchVolumeMetrics(p: Provider, region: string, ids: seq<string>) returns (r: Result<map<string, Metrics>>)
    ensures r == VolumeMetrics(p, region, ids)
  {
    var volumeMetrics: map<string, Metrics> := map[];
    for n := 0 to |ids|
      invariant VolumeMetrics(p, region, ids[..n]) == Ok(volumeMetrics)
    {
      assert ids[..n + 1][..n] == ids[..n];
      var vm := p.metrics(region, "AWS/EBS", ids[n]);
      if vm.Err? {
        VolumeMetricsStopped(p, region, ids, n + 1);
        return Err(vm.error);
      }
      volumeMetrics := volumeMetrics[ids[n] := vm.value];
    }
    assert ids[..|ids|] == ids;
    r := Ok(volumeMetrics);
  }

  /** The item sent and queued for a fetched instance (lines 259-267). */
  function FetchedItem(v: Instance, region: string, fe: Fetched): Ec2InstanceItem {
    Ec2InstanceItem(v, region, true, OptimizePreferences.DefaultPreferences(), false, None,
                    fe.volumes, fe.metrics, fe.volumeMetrics, ZeroResponse)
  }

  // ---------------------------------------------------------------- the evaluation pass

  /** What the second pass over a region has done: items queued, jobs published, and whether it stopped. */
  datatype Pass = Pass(queued: seq<Ec2InstanceItem>, jobs: seq<Job>, aborted: bool)

  /** What the second pass does with one instance on its own (lines 137-290). */
  function StepOf(p: Provider, region: string, v: Instance): Pass {
    if !Eligible(v) then Pass([], [], false)
    else
      var out := Fetch(p, region, v);
      if out.result.Err? then Pass([], out.jobs, true)
      else Pass([FetchedItem(v, region, out.result.value)], out.jobs, false)
  }

  /** One more instance in the second pass: nothing once it has stopped. */
  function PassStep(p: Provider, region: string, acc: Pass, v: Instance): Pass {
    if acc.aborted then acc
    else
      var s := StepOf(p, region, v);
      Pass(acc.queued + s.queued, acc.jobs + s.jobs, s.aborted)
  }

  /** The second pass over a region's instances. */
  function EvaluationPass(p: Provider, region: string, vs: seq<Instance>): Pass
    decreases |vs|
  {
    if vs == [] then Pass([], [], false)
    else PassStep(p, region, EvaluationPass(p, region, vs[..|vs| - 1]), vs[|vs| - 1])
  }

  /** The pass over one more instance is one more step. */
  lemma PassUnfold(p: Provider, region: string, vs: seq<Instance>, n: int)
    requires 0 <= n < |vs|
    ensures EvaluationPass(p, region, vs[..n + 1]) == PassStep(p, region, EvaluationPass(p, region, vs[..n]), vs[n])
  {
    assert vs[..n + 1][..n] == vs[..n];
  }

  /** Once the pass has stopped, the remaining instances change nothing (line 157, 187, 212 and 253 return). */
  lemma {:induction false} PassStopped(p: Provider, region: string, vs: seq<Instance>, n: int)
    requires 0 <= n <= |vs| && EvaluationPass(p, region, vs[..n]).aborted
    ensures EvaluationPass(p, region, vs) == EvaluationPass(p, region, vs[..n])
    decreases |vs| - n
  {
    if n < |vs| {
      PassUnfold(p, region, vs, n);
      PassStopped(p, region, vs, n + 1);
    } else {
      assert vs[..n] == vs;
    }
  }

  /**
   * Only eligible instances are queued, in the order listed, each with its
   * fetched data, loading, not skipped and with the default preferences.
   */
  lemma {:induction false} PassQueuesEligible(p: Provider, region: string, vs: seq<Instance>)
    ensures var ps := EvaluationPass(p, region, vs);
            |ps.queued| <= |vs| &&
            forall j :: 0 <= j < |ps.queued| ==> ps.queued[j].instance in vs && FetchedFor(p, region, ps.queued[j])
    decreases |vs|
  {
    if vs != [] {
      var init, v := vs[..|vs| - 1], vs[|vs| - 1];
      PassQueuesEligible(p, region, init);
      var acc, ps := EvaluationPass(p, region, init), EvaluationPass(p, region, vs);
      assert ps == PassStep(p, region, acc, v);
      if !acc.aborted {
        var st := StepOf(p, region, v);
        StepQueuesFetched(p, region, v);
        assert ps.queued == acc.queued + st.queued;
        forall j | 0 <= j < |ps.queued| ensures ps.queued[j].instance in vs && FetchedFor(p, region, ps.queued[j]) {
          if j < |acc.queued| {
            assert ps.queued[j] == acc.queued[j] && acc.queued[j].instance in init;
          } else {
            assert ps.queued[j] == st.queued[j - |acc.queued|];
          }
        }
      } else {
        forall j | 0 <= j < |ps.queued| ensures ps.queued[j].instance in vs {
          assert ps.queued[j].instance in init;
        }
      }
    }
  }

  /**
   * An item as the pass queues it: for an eligible instance of the region,
   * loading, not skipped, with the default preferences and what its fetch
   * returned.
   */
  ghost predicate FetchedFor(p: Provider, region: string, q: Ec2InstanceItem) {
    Eligible(q.instance) && q.region == region &&
    q.optimizationLoading && !q.skipped && q.skipReason.None? &&
    q.preferences == OptimizePreferences.DefaultPreferences() &&
    Fetch(p, region, q.instance).result == Ok(Fetched(q.volumes, q.metrics, q.volumeMetrics))
  }

  /** One instance queues at most itself, as fetched. */
  lemma StepQueuesFetched(p: Provider, region: string, v: Instance)
    ensures var st := StepOf(p, region, v);
            |st.queued| <= 1 && forall j :: 0 <= j < |st.queued| ==> st.queued[j].instance == v && FetchedFor(p, region, st.queued[j])
  {
  }

  /**
   * The first eligible instance whose fetch fails stops the pass: no
   * instance after it is queued or fetched.
   */
  lemma AbortEndsRegion(p: Provider, region: string, vs: seq<Instance>, n: int)
    requires 0 <= n < |vs| && !EvaluationPass(p, region, vs[..n]).aborted
    requires Eligible(vs[n]) && Fetch(p, region, vs[n]).result.Err?
    ensures var ps := EvaluationPass(p, region, vs);
            ps.aborted && ps.queued == EvaluationPass(p, region, vs[..n]).queued &&
            ps.jobs == EvaluationPass(p, region, vs[..n]).jobs + Fetch(p, region, vs[n]).jobs
  {
    PassUnfold(p, region, vs, n);
    PassStopped(p, region, vs, n + 1);
  }

  /** When no fetch fails, every eligible instance is queued. */
  lemma {:induction false} PassQueuesAll(p: Provider, region: string, vs: seq<Instance>, k: int)
    requires forall v :: v in vs && Eligible(v) ==> Fetch(p, region, v).result.Ok?
    requires 0 <= k < |vs| && Eligible(vs[k])
    ensures Queues(EvaluationPass(p, region, vs), vs[k])
    decreases |vs|
  {
    var init := vs[..|vs| - 1];
    assert forall v :: v in init ==> v in vs;
    PassNeverAborts(p, region, init);
    var before := EvaluationPass(p, region, init);
    var ps := EvaluationPass(p, region, vs);
    var last := vs[|vs| - 1];
    assert last in vs;
    assert ps == PassStep(p, region, before, last);
    var st := StepOf(p, region, last);
    StepQueuesFetched(p, region, last);
    assert ps.queued == before.queued + st.queued;
    if k < |vs| - 1 {
      PassQueuesAll(p, region, init, k);
      var j :| 0 <= j < |before.queued| && before.queued[j].instance == vs[k];
      assert ps.queued[j] == before.queued[j];
    } else {
      assert st.queued != [] by {
        assert Eligible(last) && Fetch(p, region, last).result.Ok?;
      }
      assert ps.queued[|before.queued|] == st.queued[0];
    }
  }

  /** The pass queued an item for the instance. */
  predicate Queues(ps: Pass, v: Instance) {
    exists j :: 0 <= j < |ps.queued| && ps.queued[j].instance == v
  }

  /** When no fetch fails the pass runs to the end. */
  lemma {:induction false} PassNeverAborts(p: Provider, region: string, vs: seq<Instance>)
    requires forall v :: v in vs && Eligible(v) ==> Fetch(p, region, v).result.Ok?
    ensures !EvaluationPass(p, region, vs).aborted
    decreases |vs|
  {
    if vs != [] {
      var init := vs[..|vs| - 1];
      assert forall v :: v in init ==> v in vs;
      PassNeverAborts(p, region, init);
    }
  }

  // ---------------------------------------------------------------- evaluation

  /** `toEBSVolume` (lines 399-413): the volume with its id hashed and its throughput as a float. */
  function ToEbsVolume(v: Volume): (r: Ec2Volume)
    ensures r.throughput.None? <==> v.throughput.None?
    ensures v.throughput.Some? ==> r.throughput == Some(v.throughput.value as real)
  {
    Ec2Volume(Hash.HashString(v.volumeId), v.volumeType, v.size, v.iops,
              if v.throughput.Some? then Some(v.throughput.value as real) else None)
  }

  /** The response's volume recommendations are keyed by the hashed id the request sends for that volume. */
  lemma RequestIdsAreDeviceKeys(v: Volume, rs: map<string, EbsVolumeRecommendation>, f: Formats)
    requires ToEbsVolume(v).hashedVolumeId in rs
    ensures VolumeDevices([v], rs, f) == [EbsVolumeDevice(v, rs[ToEbsVolume(v).hashedVolumeId], f)]
  {
    assert [v][..0] == [];
  }

  /** The request's placement (lines 313-325): the zone, or "", and the hashed host id, or "". */
  function PlacementOf(p: Placement): (r: Ec2Placement)
    ensures r.tenancy == p.tenancy
    ensures r.hashedHostId == (if p.hostId.Some? then Hash.HashString(p.hostId.value) else "")
  {
    Ec2Placement(p.tenancy, p.availabilityZone.GetOr(""),
                 if p.hostId.Some? then Hash.HashString(p.hostId.value) else "")
  }

  /**
   * Whether the worker can build a request without a nil dereference: the
   * instance was described by AWS (its id is set, line 306) and has a
   * placement, whose tenancy line 352 reads without a nil check.
   */
  predicate Requestable(v: Instance) { v.listed && v.placement.Some? }

  /** The request for an item (lines 309-356). */
  function RequestOf(item: Ec2InstanceItem): (r: Ec2InstanceWastageRequest)
    requires Requestable(item.instance)
  {
    var v := item.instance;
    Ec2InstanceWastageRequest(
      Ec2Instance(Hash.HashString(v.instanceId), v.state, v.instanceType, v.platformDetails.GetOr(""),
                  v.threadsPerCore, v.coreCount, v.ebsOptimized, v.lifecycle, v.monitoring,
                  Some(PlacementOf(v.placement.value)), v.usageOperation, v.placement.value.tenancy),
      seq(|item.volumes|, k requires 0 <= k < |item.volumes| => ToEbsVolume(item.volumes[k])),
      item.metrics, item.volumeMetrics, item.region, PreferencesRegistry.Exported(item.preferences))
  }

  /**
   * The request describes the instance: its id hashed, its CPU, EBS and
   * usage fields as listed, and its tenancy both at the top and in its
   * placement.
   */
  lemma RequestDescribesInstance(item: Ec2InstanceItem)
    requires Requestable(item.instance)
    ensures var r := RequestOf(item).instance; var v := item.instance;
            r.hashedInstanceId == Hash.HashString(v.instanceId) && r.instanceType == v.instanceType &&
            r.threadsPerCore == v.threadsPerCore && r.coreCount == v.coreCount &&
            r.ebsOptimized == v.ebsOptimized && r.usageOperation == v.usageOperation &&
            r.monitoring == v.monitoring && r.placement.Some? && r.placement.value.tenancy == r.tenancy &&
            r.tenancy == v.placement.value.tenancy
    ensures |RequestOf(item).volumes| == |item.volumes|
  {
  }

  /** The text of the runtime panic a nil dereference raises, as the worker's `recover` formats it. */
  const NilDereference: string := "runtime error: invalid memory address or nil pointer dereference"

  /** The error text that ends the program (line 358). */
  predicate LoginRequired(e: string) { Contains(e, "please login") }

  /**
   * The item after an answer (lines 369-389): an answer without a current
   * instance type only stops the loading; any other replaces the item's
   * answer and clears the skip.
   */
  function Merged(item: Ec2InstanceItem, res: Ec2InstanceWastageResponse): (r: Ec2InstanceItem)
    ensures !r.optimizationLoading
    ensures r.instance == item.instance && r.region == item.region && r.preferences == item.preferences
    ensures r.volumes == item.volumes && r.metrics == item.metrics && r.volumeMetrics == item.volumeMetrics
    ensures res.rightSizing.current.instanceType == "" ==>
              r.skipped == item.skipped && r.skipReason == item.skipReason && r.wastage == item.wastage
    ensures res.rightSizing.current.instanceType != "" ==> !r.skipped && r.skipReason.None? && r.wastage == res
  {
    if res.rightSizing.current.instanceType == "" then item.(optimizationLoading := false)
    else Ec2InstanceItem(item.instance, item.region, false, item.preferences, false, None,
                         item.volumes, item.metrics, item.volumeMetrics, res)
  }

  /** Merging the same answer twice is merging it once. */
  lemma MergeIdempotent(item: Ec2InstanceItem, res: Ec2InstanceWastageResponse)
    ensures Merged(Merged(item, res), res) == Merged(item, res)
  {
  }

  /**
   * `ReEvaluate`'s item when the id is unknown: Go's zero item, whose
   * instance is not listed, so its id pointer is nil.
   */
  const ZeroItem: Ec2InstanceItem :=
    Ec2InstanceItem(Instance(false, "", "", None, "", "", [], 0, 0, [], false, None, None, ""), "", false, [],
                    false, None, [], map[], map[], ZeroResponse)

  class Ec2InstanceProcessor {
    const provider: Provider
    const formats: Formats
    /** The items by instance id. */
    var items: map<string, Ec2InstanceItem>
    /** What waits on the evaluation channel, oldest first. */
    var wastageQueue: seq<Ec2InstanceItem>
    /** Every item sent to the list, in order. */
    var sent: seq<OptimizationItem>
    /** Every job report published, in order. */
    var jobs: seq<Job>
    /** Whether the program has exited for want of a login. */
    var exited: bool
    /** Every error published to the jobs controller, in order. */
    var errors: seq<string>

    /** The state the processor's steps are specified by. */
    function State(): Log
      reads this
    {
      Log(items, wastageQueue, sent, jobs)
    }

    /** `NewEC2InstanceProcessor` (lines 32-51), without starting its goroutines. */
    constructor(provider: Provider, formats: Formats)
      ensures this.provider == provider && this.formats == formats
      ensures items == map[] && wastageQueue == [] && sent == [] && jobs == [] && !exited && errors == []
    {
      this.provider, this.formats := provider, formats;
      items, wastageQueue, sent, jobs, exited, errors := map[], [], [], [], false, [];
    }

    /**
     * `ProcessRegion` (lines 82-291): a failed listing is reported and ends
     * the region; otherwise every instance is stored and sent as listed,
     * then the evaluation pass stores, sends and queues the eligible ones.
     */
    method ProcessRegion(region: string)
      modifies this
      ensures exited == old(exited) && errors == old(errors)
      ensures provider.listInstances(region).Err? ==>
                items == old(items) && wastageQueue == old(wastageQueue) && sent == old(sent) &&
                jobs == old(jobs) + [RegionJob(region), Finished(RegionJob(region), provider.listInstances(region).error)]
      ensures provider.listInstances(region).Ok? ==>
                var vs := provider.listInstances(region).value;
                var listed := ListedItems(vs, region);
                var ps := EvaluationPass(provider, region, vs);
                items == Store(Store(old(items), listed), ps.queued) &&
                wastageQueue == old(wastageQueue) + ps.queued &&
                sent == old(sent) + SentOf(listed, formats) + SentOf(ps.queued, formats) &&
                jobs == old(jobs) + [RegionJob(region), Finished(RegionJob(region), "")] + ps.jobs
    {
      var listing := provider.listInstances(region);
      if listing.Err? {
        jobs := jobs + [RegionJob(region), Finished(RegionJob(region), listing.error)];
        return;
      }
      jobs := jobs + [RegionJob(region), Finished(RegionJob(region), "")];
      SendListed(region, listing.value);
      EvaluateListed(region, listing.value);
    }

    /** Lines 100-135: every instance is stored and sent as listed. */
    method SendListed(region: string, vs: seq<Instance>)
      modifies this
      ensures State() == Shown(old(State()), ListedItems(vs, region), formats)
      ensures exited == old(exited) && errors == old(errors)
    {
      for n := 0 to |vs|
        invariant State() == Shown(old(State()), ListedItems(vs[..n], region), formats)
        invariant exited == old(exited) && errors == old(errors)
      {
        var oi := Classify(vs[n], region);
        ListedStep(vs, region, n);
        ShownStep(old(State()), ListedItems(vs[..n], region), oi, formats);
        Put(oi);
      }
      assert vs[..|vs|] == vs;
    }

    /** Lines 133-134, 285-286, 371-372 and 388-389: the item is stored under its instance id and sent to the list. */
    method Put(oi: Ec2InstanceItem)
      modifies this
      ensures items == old(items)[oi.instance.instanceId := oi]
      ensures sent == old(sent) + [OptimizationItemOf(oi, formats)]
      ensures wastageQueue == old(wastageQueue) && jobs == old(jobs) && exited == old(exited) && errors == old(errors)
    {
      items := items[oi.instance.instanceId := oi];
      var o := ToOptimizationItem(oi, formats);
      sent := sent + [o];
    }

    /**
     * Lines 137-290: each eligible instance is fetched, then stored, sent
     * and queued; the first failed fetch ends the region.
     */
    method EvaluateListed(region: string, vs: seq<Instance>)
      modifies this
      ensures State() == After(old(State()), EvaluationPass(provider, region, vs), formats)
      ensures exited == old(exited) && errors == old(errors)
    {
      for n := 0 to |vs|
        invariant !EvaluationPass(provider, region, vs[..n]).aborted
        invariant State() == After(old(State()), EvaluationPass(provider, region, vs[..n]), formats)
        invariant exited == old(exited) && errors == old(errors)
      {
        ghost var before := EvaluationPass(provider, region, vs[..n]);
        PassUnfold(provider, region, vs, n);
        AfterStep(old(State()), before, StepOf(provider, region, vs[n]), formats);
        var stop := EvaluateInstance(region, vs[n]);
        if stop {
          PassStopped(provider, region, vs, n + 1);
          return;
        }
      }
      assert vs[..|vs|] == vs;
    }

    /** One instance of lines 137-290: skipped, or fetched and then stored, sent and queued. */
    method EvaluateInstance(region: string, v: Instance) returns (stop: bool)
      modifies this
      ensures stop == StepOf(provider, region, v).aborted
      ensures State() == After(old(State()), StepOf(provider, region, v), formats)
      ensures exited == old(exited) && errors == old(errors)
    {
      var ps := Evaluate(provider, region, v);
      Apply(ps);
      stop := ps.aborted;
    }

    /** The jobs of one instance published, then its item, if any, stored, sent and queued (lines 258-289). */
    method Apply(ps: Pass)
      requires |ps.queued| <= 1
      modifies this
      ensures State() == After(old(State()), ps, formats)
      ensures exited == old(exited) && errors == old(errors)
    {
      ghost var l := State();
      jobs := jobs + ps.jobs;
      if ps.queued == [] {
        AfterNothing(l, ps.jobs, ps.aborted, formats);
        return;
      }
      var oi := ps.queued[0];
      assert ps.queued == [oi];
      AfterOne(l, oi, ps.jobs, formats);
      Put(oi);
      wastageQueue := wastageQueue + [oi];
    }

    /**
     * `WastageWorker` (lines 299-390): the evaluation is reported as a job;
     * a login error ends the program, any other error is reported, and an
     * answer is merged into the item, which is stored and sent again. A nil
     * dereference panics, and the deferred `recover` (lines 300-304)
     * publishes the panic as an error: before the job is published when the
     * id is nil (line 306), after it when the placement is (line 352).
     */
    method WastageWorker(item: Ec2InstanceItem, evaluate: Ec2InstanceWastageRequest -> Result<Ec2InstanceWastageResponse>)
      modifies this
      ensures wastageQueue == old(wastageQueue)
      ensures !item.instance.listed ==>
                errors == old(errors) + [NilDereference] &&
                exited == old(exited) && items == old(items) && sent == old(sent) && jobs == old(jobs)
      ensures item.instance.listed && item.instance.placement.None? ==>
                errors == old(errors) + [NilDereference] &&
                exited == old(exited) && items == old(items) && sent == old(sent) &&
                jobs == old(jobs) + [WastageJob(item.instance.instanceId)]
      ensures Requestable(item.instance) ==> errors == old(errors)
      ensures Requestable(item.instance) ==>
              var id := item.instance.instanceId; var res := evaluate(RequestOf(item));
              res.Err? && LoginRequired(res.error) ==>
                exited && items == old(items) && sent == old(sent) && jobs == old(jobs) + [WastageJob(id)]
      ensures Requestable(item.instance) ==>
              var id := item.instance.instanceId; var res := evaluate(RequestOf(item));
              res.Err? && !LoginRequired(res.error) ==>
                exited == old(exited) && items == old(items) && sent == old(sent) &&
                jobs == old(jobs) + [WastageJob(id)] + [Finished(WastageJob(id), res.error)]
      ensures Requestable(item.instance) ==>
              var id := item.instance.instanceId; var res := evaluate(RequestOf(item));
              res.Ok? ==>
                exited == old(exited) && items == old(items)[id := Merged(item, res.value)] &&
                sent == old(sent) + [OptimizationItemOf(Merged(item, res.value), formats)] &&
                jobs == old(jobs) + [WastageJob(id)] + [Finished(WastageJob(id), "")]
    {
      if !item.instance.listed {
        errors := errors + [NilDereference];
        return;
      }
      var id := item.instance.instanceId;
      jobs := jobs + [WastageJob(id)];
      var request := BuildRequest(item);
      if request.Err? {
        errors := errors + [request.error];
        return;
      }
      HandleEvaluation(item, request.value, evaluate);
    }

    /** Lines 357-389 of `WastageWorker`: the request is evaluated and the answer, or the error, handled. */
    method HandleEvaluation(item: Ec2InstanceItem, request: Ec2InstanceWastageRequest,
                            evaluate: Ec2InstanceWastageRequest -> Result<Ec2InstanceWastageResponse>)
      requires Requestable(item.instance) && request == RequestOf(item)
      modifies this
      ensures wastageQueue == old(wastageQueue) && errors == old(errors)
      ensures var id := item.instance.instanceId; var res := evaluate(request);
              res.Err? && LoginRequired(res.error) ==>
                exited && items == old(items) && sent == old(sent) && jobs == old(jobs)
      ensures var id := item.instance.instanceId; var res := evaluate(request);
              res.Err? && !LoginRequired(res.error) ==>
                exited == old(exited) && items == old(items) && sent == old(sent) &&
                jobs == old(jobs) + [Finished(WastageJob(id), res.error)]
      ensures var id := item.instance.instanceId; var res := evaluate(request);
              res.Ok? ==>
                exited == old(exited) && items == old(items)[id := Merged(item, res.value)] &&
                sent == old(sent) + [OptimizationItemOf(Merged(item, res.value), formats)] &&
                jobs == old(jobs) + [Finished(WastageJob(id), "")]
    {
      var id := item.instance.instanceId;
      var res := evaluate(request);
      if res.Err? {
        if Contains(res.error, "please login") {
          exited := true;
          return;
        }
        jobs := jobs + [Finished(WastageJob(id), res.error)];
        return;
      }
      jobs := jobs + [Finished(WastageJob(id), "")];
      Put(Merged(item, res.value));
    }

    /**
     * `ReEvaluate` (lines 392-397): the item under the id, or the zero item
     * when there is none, takes the new preferences, is stored and queued.
     */
    method ReEvaluate(id: string, prefs: seq<Proto.PreferenceItem>)
      modifies this
      ensures var v := (if id in old(items) then old(items)[id] else ZeroItem).(preferences := prefs);
              items == old(items)[id := v] && wastageQueue == old(wastageQueue) + [v]
      ensures sent == old(sent) && jobs == old(jobs) && exited == old(exited) && errors == old(errors)
    {
      var v := if id in items then items[id] else ZeroItem;
      v := v.(preferences := prefs);
      items := items[id := v];
      wastageQueue := wastageQueue + [items[id]];
    }
  }

  /**
   * Lines 309-356 as written: the monitoring state and placement when
   * there are any, the platform, the volumes one by one, the exported
   * preferences; the unguarded reads of the id and CPU options (lines
   * 343-347) and of the placement's tenancy (line 352) fail with a nil
   * dereference when the instance is Go's zero value or has no placement.
   */
  method BuildRequest(item: Ec2InstanceItem) returns (request: Result<Ec2InstanceWastageRequest>)
    ensures request.Ok? <==> Requestable(item.instance)
    ensures request.Ok? ==> request.value == RequestOf(item)
    ensures request.Err? ==> request.error == NilDereference
  {
    var v := item.instance;
    var placement: Option<Ec2Placement> := None;
    if v.placement.Some? {
      var p := BuildPlacement(v.placement.value);
      placement := Some(p);
    }
    var platform := "";
    if v.platformDetails.Some? {
      platform := v.platformDetails.value;
    }
    var volumes := BuildVolumes(item.volumes);
    var preferences := PreferencesRegistry.Export(item.preferences);
    if !v.listed || v.placement.None? {
      return Err(NilDereference);
    }
    request := Ok(Ec2InstanceWastageRequest(
      Ec2Instance(Hash.HashString(v.instanceId), v.state, v.instanceType, platform, v.threadsPerCore, v.coreCount,
                  v.ebsOptimized, v.lifecycle, v.monitoring, placement, v.usageOperation, v.placement.value.tenancy),
      volumes, item.metrics, item.volumeMetrics, item.region, preferences));
  }

  /** Lines 313-324: the placement of the request, its zone and hashed host id set when the instance has them. */
  method BuildPlacement(pl: Placement) returns (p: Ec2Placement)
    ensures p == PlacementOf(pl)
  {
    p := Ec2Placement(pl.tenancy, "", "");
    if pl.availabilityZone.Some? {
      p := p.(availabilityZone := pl.availabilityZone.value);
    }
    if pl.hostId.Some? {
      p := p.(hashedHostId := Hash.HashString(pl.hostId.value));
    }
  }

  /** Lines 330-333: the volumes of the request, one converted volume per volume of the instance, in order. */
  method BuildVolumes(vs: seq<Volume>) returns (volumes: seq<Ec2Volume>)
    ensures |volumes| == |vs| && forall k :: 0 <= k < |vs| ==> volumes[k] == ToEbsVolume(vs[k])
  {
    volumes := [];
    for n := 0 to |vs|
      invariant |volumes| == n && forall k :: 0 <= k < n ==> volumes[k] == ToEbsVolume(vs[k])
    {
      volumes := volumes + [ToEbsVolume(vs[n])];
    }
  }

  /** The processor's item map, evaluation queue, sent items and published jobs. */
  datatype Log = Log(items: map<string, Ec2InstanceItem>, queue: seq<Ec2InstanceItem>, sent: seq<OptimizationItem>,
                     jobs: seq<Job>)

  /** The state after a pass (or a step) has stored, queued and sent its items and published its jobs. */
  function After(l: Log, ps: Pass, f: Formats): Log {
    Log(Store(l.items, ps.queued), l.queue + ps.queued, l.sent + SentOf(ps.queued, f), l.jobs + ps.jobs)
  }

  /** A step that queues nothing only publishes its jobs. */
  lemma AfterNothing(l: Log, js: seq<Job>, aborted: bool, f: Formats)
    ensures After(l, Pass([], js, aborted), f) == Log(l.items, l.queue, l.sent, l.jobs + js)
  {
    assert l.queue + [] == l.queue;
    assert l.sent + SentOf([], f) == l.sent;
  }

  /** A step that queues one item stores, queues and sends it. */
  lemma AfterOne(l: Log, oi: Ec2InstanceItem, js: seq<Job>, f: Formats)
    ensures After(l, Pass([oi], js, false), f) ==
            Log(l.items[oi.instance.instanceId := oi], l.queue + [oi], l.sent + [OptimizationItemOf(oi, f)], l.jobs + js)
  {
    assert [oi][..0] == [];
    assert Store(l.items, [oi]) == Store(l.items, [])[oi.instance.instanceId := oi];
    assert SentOf([oi], f) == [OptimizationItemOf(oi, f)];
  }

  /** The state after items are stored and sent, but not queued. */
  function Shown(l: Log, xs: seq<Ec2InstanceItem>, f: Formats): Log {
    Log(Store(l.items, xs), l.queue, l.sent + SentOf(xs, f), l.jobs)
  }

  /** Showing one more item stores and sends it last. */
  lemma ShownStep(l: Log, xs: seq<Ec2InstanceItem>, oi: Ec2InstanceItem, f: Formats)
    ensures Shown(l, xs + [oi], f) ==
            Log(Shown(l, xs, f).items[oi.instance.instanceId := oi], l.queue,
                Shown(l, xs, f).sent + [OptimizationItemOf(oi, f)], l.jobs)
  {
    QueuedStep(xs, oi);
  }

  /** Doing one pass and then another is doing both at once. */
  lemma AfterStep(l: Log, a: Pass, b: Pass, f: Formats)
    ensures After(After(l, a, f), b, f) == After(l, Pass(a.queued + b.queued, a.jobs + b.jobs, b.aborted), f)
  {
    StoreAppend(l.items, a.queued, b.queued);
    SentAppend(a.queued, b.queued, f);
    Assoc(l.queue, a.queued, b.queued);
    Assoc(l.sent, SentOf(a.queued, f), SentOf(b.queued, f));
    Assoc(l.jobs, a.jobs, b.jobs);
  }

  /** Storing two runs of items is storing the first, then the second. */
  lemma {:induction false} StoreAppend(m: map<string, Ec2InstanceItem>, a: seq<Ec2InstanceItem>, b: seq<Ec2InstanceItem>)
    ensures Store(m, a + b) == Store(Store(m, a), b)
    decreases |b|
  {
    if b == [] {
      assert a + b == a;
    } else {
      var init := b[..|b| - 1];
      StoreAppend(m, a, init);
      assert (a + b)[..|a + b| - 1] == a + init;
    }
  }

  /** The list items of two runs of items are those of the first, then those of the second. */
  lemma SentAppend(a: seq<Ec2InstanceItem>, b: seq<Ec2InstanceItem>, f: Formats)
    ensures SentOf(a + b, f) == SentOf(a, f) + SentOf(b, f)
  {
    MappedAppend(a, b, (i: Ec2InstanceItem) => OptimizationItemOf(i, f));
  }

  /** The listed items of one more instance. */
  lemma ListedStep(vs: seq<Instance>, region: string, n: int)
    requires 0 <= n < |vs|
    ensures ListedItems(vs[..n + 1], region) == ListedItems(vs[..n], region) + [ListedItem(vs[n], region)]
  {
  }

  /** Sending one more item sends its list item last. */
  lemma QueuedStep(queued: seq<Ec2InstanceItem>, oi: Ec2InstanceItem)
    ensures forall f :: SentOf(queued + [oi], f) == SentOf(queued, f) + [OptimizationItemOf(oi, f)]
    ensures forall m :: Store(m, queued + [oi]) == Store(m, queued)[oi.instance.instanceId := oi]
  {
    assert (queued + [oi])[..|queued|] == queued;
  }

  /**
   * A re-evaluated item that gets an answer keeps the preferences it was
   * re-evaluated with, and is no longer loading.
   */
  lemma ReEvaluatedKeepsPreferences(item: Ec2InstanceItem, prefs: seq<Proto.PreferenceItem>, res: Ec2InstanceWastageResponse)
    ensures Merged(item.(preferences := prefs), res).preferences == prefs
    ensures !Merged(item.(preferences := prefs), res).optimizationLoading
    ensures Requestable(item.instance) ==>
              RequestOf(item.(preferences := prefs)).preferences == PreferencesRegistry.Exported(prefs)
  {
  }
}
