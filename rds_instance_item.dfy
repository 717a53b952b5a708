/**
 * The RDS processor's item (pkg/processor/rds_instance_item.go): an RDS
 * instance with its metrics and wastage answer, shown as one device of 13
 * properties. Recommended values appear only when the answer holds a
 * recommendation. The `%.2f` rendering and the bold style are parameters
 * (`Formats` of the EC2 item).
 *
 * Line 77 formats the current storage IOPS, a pointer, with `%d`, which
 * prints the pointer's address (or 0 for nil) rather than the IOPS.
 * `CurrentIopsAsWritten` is that cell; the device shows the decimal IOPS,
 * as the recommended cell of line 99 does.
 */
module RdsInstanceItem {
  import opened Wrappers
  import opened Text
  import opened AwsTypes
  import opened WastageEc2
  import opened WastageRds
  import Proto
  import ViewUtils
  import OptimizeOptimizationsView
  import Ec2InstanceItem

  type Device = OptimizeOptimizationsView.Device
  type Property = OptimizeOptimizationsView.Property
  type OptimizationItem = OptimizeOptimizationsView.OptimizationItem
  type Formats = Ec2InstanceItem.Formats

  /** `RDSInstanceItem` (lines 13-23). */
  datatype RdsInstanceItem = RdsInstanceItem(
    instance: DbInstance, region: string, optimizationLoading: bool, preferences: seq<Proto.PreferenceItem>,
    skipped: bool, skipReason: Option<string>, metrics: Metrics, wastage: AwsRdsWastageResponse)

  /** The device's keys in order (lines 33-118). */
  function RdsKeys(f: Formats): seq<string> {
    [f.bold("Region"), f.bold("Instance Size"), f.bold("Engine"), f.bold("Engine Version"), f.bold("Cluster Type"),
     f.bold("Compute"), "  vCPU", "  Memory", f.bold("Storage"), "  Type", "  Size", "  IOPS", "  Throughput"]
  }

  /** A user-space pointer address on a 64-bit platform. */
  type Address = a: nat | a <= MaxInt64

  /** Line 77 as written: `%d` of the pointer prints its address, or 0 when it is nil. */
  function CurrentIopsAsWritten(iops: Option<Int32>, address: Address): (r: string)
    ensures iops.None? ==> r == "0"
    ensures iops.Some? ==> ParseInt(r) == Some(address)
  {
    ParseIntToString(address);
    if iops.None? then "0" else IntToString(address)
  }

  /** The current IOPS cell as meant: the decimal IOPS, or "" when there are none. */
  function CurrentIops(iops: Option<Int32>): (r: string)
    ensures iops.None? <==> r == ""
    ensures iops.Some? ==> ParseInt(r) == Some(iops.value)
  {
    ViewUtils.PInt32ToString(iops)
  }

  /**
   * The cell as written shows the same text for every IOPS value at one
   * address, and "0" for an instance with no IOPS; the cell as meant reads
   * back as the IOPS.
   */
  lemma CurrentIopsAsWrittenIgnoresValue(a: Int32, b: Int32, address: Address)
    requires a != b
    ensures CurrentIopsAsWritten(Some(a), address) == CurrentIopsAsWritten(Some(b), address)
    ensures CurrentIops(Some(a)) != CurrentIops(Some(b))
    ensures CurrentIopsAsWritten(None, address) == "0" && CurrentIops(None) == ""
  {
    var x, y := CurrentIops(Some(a)), CurrentIops(Some(b));
    assert ParseInt(x) == Some(a as int) && ParseInt(y) == Some(b as int);
  }

  /**
   * The device's property at position `k` (lines 33-86, with the recommended
   * cells of lines 88-101 and the headers of 107-114); `currentIops` is the
   * current IOPS cell, and `asWritten` selects the storage usage helper as
   * written, with its wrapping byte count.
   */
  function RdsProperty(w: AwsRdsRightsizingRecommendation, f: Formats, currentIops: string, asWritten: bool, k: int): (p: Property)
    requires 0 <= k < 13
    ensures p.key == RdsKeys(f)[k]
    ensures w.recommended.None? ==> p.recommended == ""
    ensures k == 10 ==> p.average == StorageUsageText(w.freeStorageBytes.avg, w.current.storageSize, f, asWritten) &&
                        p.max == StorageUsageText(w.freeStorageBytes.min, w.current.storageSize, f, asWritten)
    ensures k == 11 ==> p.current == currentIops
  {
    var c := w.current;
    var r := w.recommended.Some?;
    var rv := if r then w.recommended.value else c;
    var key := RdsKeys(f)[k];
    if k == 0 then OptimizeOptimizationsView.Property(key, c.region, "", "", Ec2InstanceItem.Rec(r, rv.region))
    else if k == 1 then OptimizeOptimizationsView.Property(key, c.instanceType, "", "", Ec2InstanceItem.Rec(r, rv.instanceType))
    else if k == 2 then OptimizeOptimizationsView.Property(key, c.engine, "", "", Ec2InstanceItem.Rec(r, rv.engine))
    else if k == 3 then OptimizeOptimizationsView.Property(key, c.engineVersion, "", "", Ec2InstanceItem.Rec(r, rv.engineVersion))
    else if k == 4 then OptimizeOptimizationsView.Property(key, c.clusterType, "", "", Ec2InstanceItem.Rec(r, rv.clusterType))
    else if k == 6 then
      OptimizeOptimizationsView.Property(key, IntToString(c.vcpu), ViewUtils.Percentage(w.vcpu.avg, f.fixed2),
                                         ViewUtils.Percentage(w.vcpu.max, f.fixed2), Ec2InstanceItem.Rec(r, IntToString(rv.vcpu)))
    else if k == 7 then
      OptimizeOptimizationsView.Property(
        key, IntToString(c.memoryGb) + " GiB",
        ViewUtils.MemoryUsagePercentageByFreeSpace(w.freeMemoryBytes.avg, c.memoryGb as real, f.fixed2),
        ViewUtils.MemoryUsagePercentageByFreeSpace(w.freeMemoryBytes.min, c.memoryGb as real, f.fixed2),
        Ec2InstanceItem.Rec(r, IntToString(rv.memoryGb) + " GiB"))
    else if k == 9 then
      OptimizeOptimizationsView.Property(key, ViewUtils.PString(c.storageType), "", "",
                                         Ec2InstanceItem.Rec(r, ViewUtils.PString(rv.storageType)))
    else if k == 10 then
      OptimizeOptimizationsView.Property(
        key, ViewUtils.SizeByteToGB(c.storageSize),
        StorageUsageText(w.freeStorageBytes.avg, c.storageSize, f, asWritten),
        StorageUsageText(w.freeStorageBytes.min, c.storageSize, f, asWritten),
        Ec2InstanceItem.Rec(r, ViewUtils.SizeByteToGB(rv.storageSize)))
    else if k == 11 then
      OptimizeOptimizationsView.Property(key, currentIops, ViewUtils.PFloat64ToString(w.storageIops.avg, f.fixed2) + " io/s",
                                         ViewUtils.PFloat64ToString(w.storageIops.max, f.fixed2) + " io/s",
                                         Ec2InstanceItem.Rec(r, ViewUtils.PInt32ToString(rv.storageIops) + " io/s"))
    else if k == 12 then
      OptimizeOptimizationsView.Property(
        key, ViewUtils.PStorageThroughputMbps(Ec2InstanceItem.RealOf(c.storageThroughput), f.fixed2),
        ViewUtils.PStorageThroughputMbps(w.storageThroughputBytes.avg, f.fixed2),
        ViewUtils.PStorageThroughputMbps(w.storageThroughputBytes.max, f.fixed2),
        Ec2InstanceItem.Rec(r, ViewUtils.PStorageThroughputMbps(Ec2InstanceItem.RealOf(rv.storageThroughput), f.fixed2)))
    else Ec2InstanceItem.Header(key)
  }

  /** The storage usage cell, through the helper as written or as meant. */
  function StorageUsageText(free: Option<real>, size: Option<Int32>, f: Formats, asWritten: bool): string {
    if asWritten then ViewUtils.StorageUsagePercentageAsWritten(free, size, f.fixed2)
    else ViewUtils.StorageUsagePercentageByFreeSpace(free, size, f.fixed2)
  }

  /** The device with the given current IOPS cell. */
  function DeviceWith(i: RdsInstanceItem, f: Formats, currentIops: string, asWritten: bool): (d: Device)
    ensures |d.properties| == 13
    ensures forall k :: 0 <= k < 13 ==> d.properties[k] == RdsProperty(i.wastage.rightSizing, f, currentIops, asWritten, k)
  {
    var w := i.wastage.rightSizing;
    OptimizeOptimizationsView.Device(seq(13, k requires 0 <= k < 13 => RdsProperty(w, f, currentIops, asWritten, k)),
                                     i.instance.dbInstanceIdentifier, "RDS Instance", "730 hours", w.current.cost,
                                     if w.recommended.Some? then w.recommended.value.cost else 0)
  }

  /**
   * `RDSInstanceDevice` (lines 25-121) as written: the pointer's address
   * stands in for the IOPS, and the storage usage cells use the wrapping
   * byte count of pkg/utils/view.go line 33.
   */
  function RdsInstanceDeviceAsWritten(i: RdsInstanceItem, f: Formats, address: Address): (d: Device)
    ensures |d.properties| == 13
    ensures d.properties[11].current == CurrentIopsAsWritten(i.wastage.rightSizing.current.storageIops, address)
    ensures var w := i.wastage.rightSizing;
            d.properties[10].average == ViewUtils.StorageUsagePercentageAsWritten(w.freeStorageBytes.avg, w.current.storageSize, f.fixed2) &&
            d.properties[10].max == ViewUtils.StorageUsagePercentageAsWritten(w.freeStorageBytes.min, w.current.storageSize, f.fixed2)
  {
    DeviceWith(i, f, CurrentIopsAsWritten(i.wastage.rightSizing.current.storageIops, address), true)
  }

  /** `RDSInstanceDevice` (lines 25-121), its current IOPS cell showing the IOPS. */
  function RdsInstanceDevice(i: RdsInstanceItem, f: Formats): (d: Device)
    ensures d.deviceId == i.instance.dbInstanceIdentifier && d.resourceType == "RDS Instance" && d.runtime == "730 hours"
    ensures |d.properties| == 13
    ensures d.properties[11].current == CurrentIops(i.wastage.rightSizing.current.storageIops)
  {
    DeviceWith(i, f, CurrentIops(i.wastage.rightSizing.current.storageIops), false)
  }

  /**
   * The device's keys are the fixed list, whose positions 5 and 8 are the
   * "Compute" and "Storage" headers; it shows the current instance class
   * and, with the storage size known, the size; its current IOPS reads back
   * as the IOPS. Without a recommendation the right-sized cost is 0 and
   * every recommended cell is ""; with one, the cost and the size are the
   * recommended ones.
   */
  lemma RdsDeviceLayout(i: RdsInstanceItem, f: Formats)
    ensures var d := RdsInstanceDevice(i, f); var c := i.wastage.rightSizing.current;
            (forall k :: 0 <= k < 13 ==> d.properties[k].key == RdsKeys(f)[k]) &&
            d.properties[5] == Ec2InstanceItem.Header(f.bold("Compute")) &&
            d.properties[8] == Ec2InstanceItem.Header(f.bold("Storage")) &&
            d.properties[1].current == c.instanceType &&
            (c.storageIops.Some? ==> ParseInt(d.properties[11].current) == Some(c.storageIops.value))
    ensures var d := RdsInstanceDevice(i, f);
            var rec := i.wastage.rightSizing.recommended;
            (rec.None? ==> d.rightSizedCost == 0 && forall k :: 0 <= k < |d.properties| ==> d.properties[k].recommended == "") &&
            (rec.Some? ==> d.rightSizedCost == rec.value.cost && d.properties[1].recommended == rec.value.instanceType)
  {
    var d := RdsInstanceDevice(i, f);
    var iops := CurrentIops(i.wastage.rightSizing.current.storageIops);
    assert d.properties[1] == RdsProperty(i.wastage.rightSizing, f, iops, false, 1);
    assert d.properties[5] == RdsProperty(i.wastage.rightSizing, f, iops, false, 5);
    assert d.properties[8] == RdsProperty(i.wastage.rightSizing, f, iops, false, 8);
  }

  /**
   * The storage size cell's usage is a share of the size the storage
   * holds: with the size known and the free space within it, the average
   * reads as `fixed2` of a value between 0 and 1, followed by "%".
   */
  lemma RdsStorageUsageInRange(i: RdsInstanceItem, f: Formats)
    requires var w := i.wastage.rightSizing;
             w.current.storageSize.Some? && w.current.storageSize.value > 0 && w.freeStorageBytes.avg.Some? &&
             0.0 <= w.freeStorageBytes.avg.value <= ViewUtils.StorageBytes(w.current.storageSize.value) as real
    ensures var w := i.wastage.rightSizing;
            var u := ViewUtils.StorageUsage(w.freeStorageBytes.avg.value, ViewUtils.StorageBytes(w.current.storageSize.value));
            u.Finite? && 0.0 <= u.v <= 1.0 && RdsInstanceDevice(i, f).properties[10].average == f.fixed2(u.v) + "%"
  {
    var w := i.wastage.rightSizing;
    ViewUtils.StorageUsageInRange(w.freeStorageBytes.avg.value, w.current.storageSize.value);
    assert RdsInstanceDevice(i, f).properties[10] == RdsProperty(w, f, CurrentIops(w.current.storageIops), false, 10);
  }

  /** `Devices` (lines 123-125): the one instance device. */
  function Devices(i: RdsInstanceItem, f: Formats): (ds: seq<Device>)
    ensures |ds| == 1 && ds[0].deviceId == i.instance.dbInstanceIdentifier && ds[0].resourceType == "RDS Instance"
  {
    [RdsInstanceDevice(i, f)]
  }

  /**
   * `ToOptimizationItem` (lines 127-153): the item is identified and named
   * by the instance identifier and typed by the instance class; it has no
   * platform.
   */
  function OptimizationItemOf(i: RdsInstanceItem, f: Formats): (oi: OptimizationItem)
    ensures oi.id == i.instance.dbInstanceIdentifier && oi.name == oi.id && oi.resourceType == i.instance.dbInstanceClass
    ensures oi.platform == "" && oi.region == i.region && oi.devices == Devices(i, f)
    ensures oi.loading == i.optimizationLoading && oi.skipped == i.skipped && oi.skipReason == i.skipReason
    ensures oi.preferences == i.preferences && oi.description == i.wastage.rightSizing.description
  {
    OptimizeOptimizationsView.OptimizationItem(
      i.instance.dbInstanceIdentifier, i.instance.dbInstanceIdentifier, i.instance.dbInstanceClass, i.region, "", Devices(i, f), i.preferences,
      i.wastage.rightSizing.description, i.optimizationLoading, i.skipped, i.skipReason)
  }

  /**
   * The list re-evaluates only items typed "EC2 Instance" or "RDS Instance",
   * and these items are typed by the instance class, so none of them is
   * re-evaluated unless a class is literally one of those.
   */
  lemma ReEvaluationMissesInstances(i: RdsInstanceItem, f: Formats)
    requires i.instance.dbInstanceClass != "EC2 Instance" && i.instance.dbInstanceClass != "RDS Instance"
    ensures OptimizeOptimizationsView.EvaluatorOf(OptimizationItemOf(i, f).resourceType) == OptimizeOptimizationsView.NoEvaluator
  {
  }
}
