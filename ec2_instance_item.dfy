/**
 * The EC2 processor's item (pkg/processor/ec2_instance_item.go): an
 * instance with its volumes, metrics and wastage answer, and how it turns
 * into the optimization list's item. The instance is one device with a
 * fixed list of 13 properties; each volume that has a recommendation under
 * its hashed id is another device with 8. Recommended values appear only
 * when the answer holds a recommendation. The `%.2f`/`%.1f` renderings and
 * the bold style are parameters (`Formats`).
 */
module Ec2InstanceItem {
  import opened Wrappers
  import opened Text
  import opened AwsTypes
  import opened WastageEc2
  import Proto
  import Hash
  import ViewUtils
  import OptimizeOptimizationsView

  type Device = OptimizeOptimizationsView.Device
  type Property = OptimizeOptimizationsView.Property
  type OptimizationItem = OptimizeOptimizationsView.OptimizationItem

  /** `EC2InstanceItem` (lines 15-26). */
  datatype Ec2InstanceItem = Ec2InstanceItem(
    instance: Instance, region: string, optimizationLoading: bool, preferences: seq<Proto.PreferenceItem>,
    skipped: bool, skipReason: Option<string>, volumes: seq<Volume>, metrics: Metrics,
    volumeMetrics: map<string, Metrics>, wastage: Ec2InstanceWastageResponse)

  /** The style of a bold key and fmt's `%.2f` and `%.1f`. */
  datatype Formats = Formats(bold: string -> string, fixed2: real -> string, fixed1: real -> string)

  /** A recommended cell: the text when there is a recommendation, "" otherwise. */
  function Rec(present: bool, s: string): string { if present then s else "" }

  function Header(key: string): Property { OptimizeOptimizationsView.Property(key, "", "", "", "") }

  /** The instance device's keys in order (lines 105-121). */
  function Ec2Keys(f: Formats): seq<string> {
    [f.bold("Region"), f.bold("Instance Size"), f.bold("Compute"), "  vCPU", "  Processor(s)", "  Architecture",
     "  License Cost", "  Memory", "EBS Bandwidth", "EBS IOPS", f.bold("Network Performance"), "  Throughput", "  ENA"]
  }

  /** The EBS device's keys in order (lines 183-190). */
  function EbsKeys(f: Formats): seq<string> {
    ["  EBS Storage Tier", "  Volume Size (GB)", f.bold("IOPS"), "  Baseline IOPS", "  Provisioned IOPS",
     f.bold("Throughput (MB/s)"), "  Baseline Throughput", "  Provisioned Throughput"]
  }

  /** A float pointer read from an integer-valued one. */
  function RealOf(v: Option<int>): (r: Option<real>)
    ensures r.None? <==> v.None?
  {
    if v.None? then None else Some(v.value as real)
  }

  /**
   * The instance device's property at position `k` (lines 36-89, with the
   * recommended cells of lines 91-104 and the headers of 107-109, 117-119).
   */
  function Ec2Property(w: RightSizingRecommendation, f: Formats, k: int): (p: Property)
    requires 0 <= k < 13
    ensures p.key == Ec2Keys(f)[k]
    ensures w.recommended.None? ==> p.recommended == ""
  {
    var c := w.current;
    var r := w.recommended.Some?;
    var rv := if r then w.recommended.value else c;
    var key := Ec2Keys(f)[k];
    if k == 0 then OptimizeOptimizationsView.Property(key, c.region, "", "", Rec(r, rv.region))
    else if k == 1 then OptimizeOptimizationsView.Property(key, c.instanceType, "", "", Rec(r, rv.instanceType))
    else if k == 3 then
      OptimizeOptimizationsView.Property(key, IntToString(c.vcpu), ViewUtils.Percentage(w.vcpu.avg, f.fixed2),
                                         ViewUtils.Percentage(w.vcpu.max, f.fixed2), Rec(r, IntToString(rv.vcpu)))
    else if k == 4 then OptimizeOptimizationsView.Property(key, c.processor, "", "", Rec(r, rv.processor))
    else if k == 5 then OptimizeOptimizationsView.Property(key, c.architecture, "", "", Rec(r, rv.architecture))
    else if k == 6 then
      OptimizeOptimizationsView.Property(key, "$" + f.fixed2(c.licensePrice), "", "", Rec(r, "$" + f.fixed2(rv.licensePrice)))
    else if k == 7 then
      OptimizeOptimizationsView.Property(key, f.fixed1(c.memory) + " GiB", ViewUtils.Percentage(w.memory.avg, f.fixed2),
                                         ViewUtils.Percentage(w.memory.max, f.fixed2), Rec(r, f.fixed1(rv.memory) + " GiB"))
    else if k == 8 then
      OptimizeOptimizationsView.Property(key, c.ebsBandwidth, ViewUtils.PNetworkThroughputMbps(w.ebsBandwidth.avg, f.fixed2),
                                         ViewUtils.PNetworkThroughputMbps(w.ebsBandwidth.max, f.fixed2), Rec(r, rv.ebsBandwidth))
    else if k == 9 then
      OptimizeOptimizationsView.Property(key, c.ebsIops, ViewUtils.PFloat64ToString(w.ebsIops.avg, f.fixed2) + " io/s",
                                         ViewUtils.PFloat64ToString(w.ebsIops.max, f.fixed2) + " io/s", Rec(r, rv.ebsIops))
    else if k == 11 then
      OptimizeOptimizationsView.Property(key, c.networkThroughput, ViewUtils.PNetworkThroughputMbps(w.networkThroughput.avg, f.fixed2),
                                         ViewUtils.PNetworkThroughputMbps(w.networkThroughput.max, f.fixed2), Rec(r, rv.networkThroughput))
    else if k == 12 then OptimizeOptimizationsView.Property(key, c.enaSupported, "", "", Rec(r, rv.enaSupported))
    else Header(key)
  }

  /**
   * `EC2InstanceDevice` (lines 28-124): 13 properties in fixed order, the
   * current cost, and the recommendation's cost when there is one.
   */
  function Ec2InstanceDevice(i: Ec2InstanceItem, f: Formats): (d: Device)
    ensures d.deviceId == i.instance.instanceId && d.resourceType == "EC2 Instance" && d.runtime == "730 hours"
    ensures |d.properties| == 13 && forall k :: 0 <= k < 13 ==> d.properties[k] == Ec2Property(i.wastage.rightSizing, f, k)
  {
    var w := i.wastage.rightSizing;
    OptimizeOptimizationsView.Device(seq(13, k requires 0 <= k < 13 => Ec2Property(w, f, k)), i.instance.instanceId,
                                     "EC2 Instance", "730 hours", w.current.cost,
                                     if w.recommended.Some? then w.recommended.value.cost else 0)
  }

  /**
   * The instance device's keys are the fixed list, whose positions 2 and 10
   * are the "Compute" and "Network Performance" headers; it shows the
   * current instance type. The right-sized cost and every recommended cell
   * come from the recommendation: without one they are 0 and "", with one
   * the cost and the instance size are the recommended ones.
   */
  lemma Ec2DeviceLayout(i: Ec2InstanceItem, f: Formats)
    ensures var d := Ec2InstanceDevice(i, f);
            (forall k :: 0 <= k < 13 ==> d.properties[k].key == Ec2Keys(f)[k]) &&
            d.properties[2] == Header(f.bold("Compute")) && d.properties[10] == Header(f.bold("Network Performance")) &&
            d.properties[1].current == i.wastage.rightSizing.current.instanceType
    ensures var d := Ec2InstanceDevice(i, f);
            var rec := i.wastage.rightSizing.recommended;
            (rec.None? ==> d.rightSizedCost == 0 && forall k :: 0 <= k < |d.properties| ==> d.properties[k].recommended == "") &&
            (rec.Some? ==> d.rightSizedCost == rec.value.cost && d.properties[1].recommended == rec.value.instanceType)
  {
    var d := Ec2InstanceDevice(i, f);
    assert d.properties[1] == Ec2Property(i.wastage.rightSizing, f, 1);
    assert d.properties[2] == Ec2Property(i.wastage.rightSizing, f, 2);
    assert d.properties[10] == Ec2Property(i.wastage.rightSizing, f, 10);
  }

  /**
   * The EBS device's property at position `k` (lines 134-169, with the
   * recommended cells of lines 171-181); the IOPS cell is the volume's
   * baseline plus provisioned IOPS.
   */
  function EbsProperty(vs: EbsVolumeRecommendation, f: Formats, k: int): (p: Property)
    requires 0 <= k < 8
    ensures p.key == EbsKeys(f)[k]
    ensures vs.recommended.None? ==> p.recommended == ""
  {
    var c := vs.current;
    var r := vs.recommended.Some?;
    var rv := if r then vs.recommended.value else c;
    var key := EbsKeys(f)[k];
    if k == 0 then OptimizeOptimizationsView.Property(key, c.tier, "", "", Rec(r, rv.tier))
    else if k == 1 then
      OptimizeOptimizationsView.Property(key, ViewUtils.SizeByteToGB(c.volumeSize), "", "", Rec(r, ViewUtils.SizeByteToGB(rv.volumeSize)))
    else if k == 2 then
      OptimizeOptimizationsView.Property(key, IntToString(c.Iops()), ViewUtils.PFloat64ToString(vs.iops.avg, f.fixed2),
                                         ViewUtils.PFloat64ToString(vs.iops.max, f.fixed2), Rec(r, IntToString(rv.Iops())))
    else if k == 3 then OptimizeOptimizationsView.Property(key, IntToString(c.baselineIops), "", "", Rec(r, IntToString(rv.baselineIops)))
    else if k == 4 then
      OptimizeOptimizationsView.Property(key, ViewUtils.PInt32ToString(c.provisionedIops), "", "",
                                         Rec(r, ViewUtils.PInt32ToString(rv.provisionedIops)))
    else if k == 5 then
      OptimizeOptimizationsView.Property(key, f.fixed2(c.Throughput() as real), ViewUtils.PNetworkThroughputMbps(vs.throughput.avg, f.fixed2),
                                         ViewUtils.PNetworkThroughputMbps(vs.throughput.max, f.fixed2), Rec(r, f.fixed2(rv.Throughput() as real)))
    else if k == 6 then
      OptimizeOptimizationsView.Property(key, ViewUtils.NetworkThroughputMbps(c.baselineThroughput as real, f.fixed2), "", "",
                                         Rec(r, ViewUtils.NetworkThroughputMbps(rv.baselineThroughput as real, f.fixed2)))
    else
      OptimizeOptimizationsView.Property(key, ViewUtils.PNetworkThroughputMbps(RealOf(c.provisionedThroughput), f.fixed2), "", "",
                                         Rec(r, ViewUtils.PNetworkThroughputMbps(RealOf(rv.provisionedThroughput), f.fixed2)))
  }

  /** `EBSVolumeDevice` (lines 126-192): 8 properties in fixed order. */
  function EbsVolumeDevice(v: Volume, vs: EbsVolumeRecommendation, f: Formats): (d: Device)
    ensures d.deviceId == v.volumeId && d.resourceType == "EBS Volume" && d.runtime == "730 hours"
    ensures |d.properties| == 8 && forall k :: 0 <= k < 8 ==> d.properties[k] == EbsProperty(vs, f, k)
  {
    OptimizeOptimizationsView.Device(seq(8, k requires 0 <= k < 8 => EbsProperty(vs, f, k)), v.volumeId, "EBS Volume", "730 hours",
                                     vs.current.cost, if vs.recommended.Some? then vs.recommended.value.cost else 0)
  }

  /**
   * The EBS device's keys are the fixed list; its IOPS cells read back as
   * the current and recommended IOPS; without a recommendation the
   * right-sized cost is 0 and every recommended cell is "".
   */
  lemma EbsDeviceLayout(v: Volume, vs: EbsVolumeRecommendation, f: Formats)
    ensures var d := EbsVolumeDevice(v, vs, f);
            (forall k :: 0 <= k < 8 ==> d.properties[k].key == EbsKeys(f)[k]) &&
            ParseInt(d.properties[2].current) == Some(vs.current.Iops())
    ensures var d := EbsVolumeDevice(v, vs, f);
            var rec := vs.recommended;
            (rec.None? ==> d.rightSizedCost == 0 && forall k :: 0 <= k < |d.properties| ==> d.properties[k].recommended == "") &&
            (rec.Some? ==> d.rightSizedCost == rec.value.cost && ParseInt(d.properties[2].recommended) == Some(rec.value.Iops()))
  {
    var d := EbsVolumeDevice(v, vs, f);
    assert d.properties[2] == EbsProperty(vs, f, 2);
    ParseIntToString(vs.current.Iops());
    if vs.recommended.Some? {
      ParseIntToString(vs.recommended.value.Iops());
    }
  }

  // ---------------------------------------------------------------- devices

  /** The volume devices of `Devices`: one per volume with a recommendation under its hashed id, in volume order. */
  function VolumeDevices(volumes: seq<Volume>, rs: map<string, EbsVolumeRecommendation>, f: Formats): seq<Device> {
    if volumes == [] then []
    else
      var v := volumes[|volumes| - 1];
      var h := Hash.HashString(v.volumeId);
      VolumeDevices(volumes[..|volumes| - 1], rs, f) + if h in rs then [EbsVolumeDevice(v, rs[h], f)] else []
  }

  /** `d` is the device of one of the volumes, with that volume's recommendation. */
  ghost predicate ShowsVolume(d: Device, volumes: seq<Volume>, rs: map<string, EbsVolumeRecommendation>, f: Formats) {
    exists j :: 0 <= j < |volumes| && Hash.HashString(volumes[j].volumeId) in rs &&
                d == EbsVolumeDevice(volumes[j], rs[Hash.HashString(volumes[j].volumeId)], f)
  }

  /** Every volume device shows a volume that has a recommendation, with that recommendation. */
  lemma {:induction false} VolumeDevicesShow(volumes: seq<Volume>, rs: map<string, EbsVolumeRecommendation>, f: Formats)
    ensures |VolumeDevices(volumes, rs, f)| <= |volumes|
    ensures forall k :: 0 <= k < |VolumeDevices(volumes, rs, f)| ==> ShowsVolume(VolumeDevices(volumes, rs, f)[k], volumes, rs, f)
  {
    if volumes != [] {
      var init := volumes[..|volumes| - 1];
      VolumeDevicesShow(init, rs, f);
      var ds := VolumeDevices(volumes, rs, f);
      var before := VolumeDevices(init, rs, f);
      forall k | 0 <= k < |ds|
        ensures ShowsVolume(ds[k], volumes, rs, f)
      {
        if k < |before| {
          assert ShowsVolume(before[k], init, rs, f);
          var j :| 0 <= j < |init| && Hash.HashString(init[j].volumeId) in rs &&
                   before[k] == EbsVolumeDevice(init[j], rs[Hash.HashString(init[j].volumeId)], f);
          assert volumes[j] == init[j] && ds[k] == before[k];
        } else {
          var j := |volumes| - 1;
          assert Hash.HashString(volumes[j].volumeId) in rs && ds[k] == EbsVolumeDevice(volumes[j], rs[Hash.HashString(volumes[j].volumeId)], f);
        }
      }
    }
  }

  /** Every volume with a recommendation under its hashed id has a device. */
  lemma {:induction false} VolumeDevicesCover(volumes: seq<Volume>, rs: map<string, EbsVolumeRecommendation>, f: Formats, j: int)
    requires 0 <= j < |volumes| && Hash.HashString(volumes[j].volumeId) in rs
    ensures exists k :: 0 <= k < |VolumeDevices(volumes, rs, f)| && VolumeDevices(volumes, rs, f)[k].deviceId == volumes[j].volumeId
  {
    var init := volumes[..|volumes| - 1];
    var ds := VolumeDevices(volumes, rs, f);
    if j == |volumes| - 1 {
      assert ds[|ds| - 1].deviceId == volumes[j].volumeId;
    } else {
      VolumeDevicesCover(init, rs, f, j);
      var k :| 0 <= k < |VolumeDevices(init, rs, f)| && VolumeDevices(init, rs, f)[k].deviceId == init[j].volumeId;
      assert ds[k] == VolumeDevices(init, rs, f)[k];
    }
  }

  /** `Devices` (lines 194-206): the instance's device, then the volume devices. */
  method Devices(i: Ec2InstanceItem, f: Formats) returns (devices: seq<Device>)
    ensures devices == [Ec2InstanceDevice(i, f)] + VolumeDevices(i.volumes, i.wastage.volumeRightSizing, f)
  {
    devices := [Ec2InstanceDevice(i, f)];
    for n := 0 to |i.volumes|
      invariant devices == [Ec2InstanceDevice(i, f)] + VolumeDevices(i.volumes[..n], i.wastage.volumeRightSizing, f)
    {
      assert i.volumes[..n + 1][..n] == i.volumes[..n];
      var v := i.volumes[n];
      var h := Hash.HashString(v.volumeId);
      if h !in i.wastage.volumeRightSizing {
        continue;
      }
      devices := devices + [EbsVolumeDevice(v, i.wastage.volumeRightSizing[h], f)];
    }
    assert i.volumes[..|i.volumes|] == i.volumes;
  }

  // ---------------------------------------------------------------- the list item

  /** A tag naming the instance: its key lower-cases to "name" and it has a value. */
  predicate IsNameTag(t: Tag) { ToLower(t.key) == "name" && t.value.Some? }

  /** The value of the last name tag, if any. */
  function NameTag(tags: seq<Tag>): Option<string> {
    if tags == [] then None
    else if IsNameTag(tags[|tags| - 1]) then tags[|tags| - 1].value
    else NameTag(tags[..|tags| - 1])
  }

  /** The name found is the last name tag's value; without one there is none. */
  lemma {:induction false} NameTagIsLast(tags: seq<Tag>)
    ensures NameTag(tags).None? <==> forall k :: 0 <= k < |tags| ==> !IsNameTag(tags[k])
    ensures NameTag(tags).Some? ==>
              exists k :: 0 <= k < |tags| && IsNameTag(tags[k]) && tags[k].value == NameTag(tags) &&
                          forall j :: k < j < |tags| ==> !IsNameTag(tags[j])
  {
    if tags != [] {
      var init := tags[..|tags| - 1];
      NameTagIsLast(init);
      if !IsNameTag(tags[|tags| - 1]) && NameTag(init).Some? {
        var k :| 0 <= k < |init| && IsNameTag(init[k]) && init[k].value == NameTag(init) &&
                 forall j :: k < j < |init| ==> !IsNameTag(init[j]);
        assert tags[k] == init[k];
      }
    }
  }

  /** One more tag of the scan. */
  lemma NameTagStep(tags: seq<Tag>, n: int)
    requires 0 <= n < |tags|
    ensures NameTag(tags[..n + 1]) == if IsNameTag(tags[n]) then tags[n].value else NameTag(tags[..n])
  {
    assert tags[..n + 1][..n] == tags[..n];
  }

  /** Lines 224-231: the last name tag's value, or the instance id when that is missing or empty. */
  function Name(v: Instance): string {
    var t := NameTag(v.tags);
    if t.Some? && t.value != "" then t.value else v.instanceId
  }

  /** `ToOptimizationItem` (lines 208-234) as a value. */
  function OptimizationItemOf(i: Ec2InstanceItem, f: Formats): (oi: OptimizationItem) {
    OptimizeOptimizationsView.OptimizationItem(
      i.instance.instanceId, Name(i.instance), i.instance.instanceType, i.region, i.instance.platformDetails.GetOr(""),
      [Ec2InstanceDevice(i, f)] + VolumeDevices(i.volumes, i.wastage.volumeRightSizing, f), i.preferences,
      i.wastage.rightSizing.description, i.optimizationLoading, i.skipped, i.skipReason)
  }

  /**
   * The item is identified by the instance id, typed by the instance type
   * and named by the last name tag, or by the id; it carries the item's
   * state unchanged.
   */
  lemma OptimizationItemShows(i: Ec2InstanceItem, f: Formats)
    ensures var oi := OptimizationItemOf(i, f);
            oi.id == i.instance.instanceId && oi.resourceType == i.instance.instanceType &&
            (oi.name == i.instance.instanceId ||
             exists k :: 0 <= k < |i.instance.tags| && IsNameTag(i.instance.tags[k]) && i.instance.tags[k].value == Some(oi.name)) &&
            (i.instance.instanceId != "" ==> oi.name != "") &&
            (i.instance.platformDetails.Some? ==> oi.platform == i.instance.platformDetails.value) &&
            oi.loading == i.optimizationLoading && oi.skipped == i.skipped && oi.skipReason == i.skipReason &&
            oi.preferences == i.preferences && |oi.devices| >= 1 && oi.devices[0].resourceType == "EC2 Instance"
  {
    NameTagIsLast(i.instance.tags);
  }

  /**
   * The list re-evaluates only items typed "EC2 Instance" or "RDS Instance",
   * and these items are typed by the instance type, so none of them is
   * re-evaluated unless an instance type is literally one of those.
   */
  lemma ReEvaluationMissesInstances(i: Ec2InstanceItem, f: Formats)
    requires i.instance.instanceType != "EC2 Instance" && i.instance.instanceType != "RDS Instance"
    ensures OptimizeOptimizationsView.EvaluatorOf(OptimizationItemOf(i, f).resourceType) == OptimizeOptimizationsView.NoEvaluator
  {
  }

  /** `ToOptimizationItem` (lines 208-234): the device list, then the platform and the tag scan. */
  method ToOptimizationItem(i: Ec2InstanceItem, f: Formats) returns (oi: OptimizationItem)
    ensures oi == OptimizationItemOf(i, f)
  {
    var devices := Devices(i, f);
    var platform := "";
    if i.instance.platformDetails.Some? {
      platform := i.instance.platformDetails.value;
    }
    var tags := i.instance.tags;
    var name := "";
    for n := 0 to |tags|
      invariant name == NameTag(tags[..n]).GetOr("")
    {
      NameTagStep(tags, n);
      if ToLower(tags[n].key) == "name" && tags[n].value.Some? {
        name := tags[n].value.value;
      }
    }
    assert tags[..|tags|] == tags;
    if name == "" {
      name := i.instance.instanceId;
    }
    assert name == Name(i.instance);
    oi := OptimizeOptimizationsView.OptimizationItem(
      i.instance.instanceId, name, i.instance.instanceType, i.region, platform, devices, i.preferences,
      i.wastage.rightSizing.description, i.optimizationLoading, i.skipped, i.skipReason);
  }
}
