/**
 * The EC2 instance details of the optimize command
 * (cmd/optimize/view/ec2_instance_detail.go): a device table with the
 * instance and its attached volumes, and a properties table for the device
 * highlighted in it. The properties of each volume are stored under its raw
 * volume id, while the recommendation's per-volume maps are read under the
 * volume id's `HashString`. A missing map entry reads as Go's zero value.
 * The `%.2f` renderings of costs, throughputs and utilisations are
 * parameters (`Formats`).
 */
module Ec2InstanceDetail {
  import opened Wrappers
  import opened Text
  import opened AwsTypes
  import GoMap
  import Hash
  import HelpView

  /**
   * The recommendation this file reads from its item (all the fields it
   * uses): the instance's current and target figures as display strings,
   * the costs, and the per-volume maps keyed by hashed volume id.
   */
  datatype Ec2Recommendation = Ec2Recommendation(
    targetInstanceType: string, avgCpuUsage: string, targetCores: string,
    currentMemory: string, maxMemoryUsagePercentage: string, targetMemory: string,
    currentNetworkPerformance: string, avgNetworkBandwidth: string, targetNetworkPerformance: string,
    currentEbsBandwidth: string, avgEbsBandwidth: string, targetEbsBandwidth: string,
    currentCost: int, targetCost: int, description: string,
    volumesCurrentCosts: map<string, int>, volumesTargetCosts: map<string, int>,
    volumesTargetTypes: map<string, string>, volumesTargetSizes: map<string, int>,
    volumesTargetIops: map<string, int>, volumesTargetBaselineIops: map<string, int>,
    volumesTargetThroughput: map<string, int>, volumesTargetBaselineThroughput: map<string, int>,
    avgVolumesIopsUtilization: map<string, int>, minVolumesIopsUtilization: map<string, int>,
    maxVolumesIopsUtilization: map<string, int>,
    avgVolumesThroughputUtilization: map<string, int>, minVolumesThroughputUtilization: map<string, int>,
    maxVolumesThroughputUtilization: map<string, int>)

  /** The item the details are opened on. */
  datatype DetailItem = DetailItem(instance: Instance, volumes: seq<Volume>, region: string, recommendation: Ec2Recommendation)

  /**
   * The `%.2f` renderings: `money` of a cost, `mbps` of a throughput in
   * bits (divided by 8 and followed by " MB/s"), and the "Avg: …, Min: …,
   * Max: …" texts of the IOPS and (divided by 8) throughput utilisations.
   */
  datatype Formats = Formats(money: int -> string, mbps: int -> string,
                             iopsUsage: (int, int, int) -> string, throughputUsage: (int, int, int) -> string)

  const NotApplicable: string := "Not applicable"

  /** The help lines (lines 232-236). */
  const HelpLines: seq<string> := ["↑/↓: move", "esc: back to ec2 instance list", "q/ctrl+c: exit"]

  // ---------------------------------------------------------------- the instance's properties

  /** Line 42: the vCPU count, a product of two int32 values that wraps as Go's does. */
  function VCpus(i: Instance): (r: Int32)
    ensures MinInt32 <= i.coreCount * i.threadsPerCore <= MaxInt32 ==> r == i.coreCount * i.threadsPerCore
  {
    Wrap32(i.coreCount * i.threadsPerCore)
  }

  /** Lines 26-65: the instance's entry. */
  function InstanceRows(item: DetailItem): (rows: seq<seq<string>>)
    ensures |rows| == 6 && forall k :: 0 <= k < 6 ==> |rows[k]| == 4
    ensures rows[0][0] == "Region" && rows[0][1] == item.region
    ensures rows[1][0] == "Instance Type" && rows[1][1] == item.instance.instanceType &&
            rows[1][3] == item.recommendation.targetInstanceType
    ensures rows[2][0] == "vCPU" && rows[2][1] == IntToString(VCpus(item.instance))
    ensures rows[3][0] == "Memory" && rows[4][0] == "Network Bandwidth" && rows[5][0] == "EBS Bandwidth"
  {
    var r := item.recommendation;
    [["Region", item.region, "", ""],
     ["Instance Type", item.instance.instanceType, "", r.targetInstanceType],
     ["vCPU", IntToString(VCpus(item.instance)), r.avgCpuUsage, r.targetCores],
     ["Memory", r.currentMemory, r.maxMemoryUsagePercentage, r.targetMemory],
     ["Network Bandwidth", r.currentNetworkPerformance, r.avgNetworkBandwidth, r.targetNetworkPerformance],
     ["EBS Bandwidth", r.currentEbsBandwidth, r.avgEbsBandwidth, r.targetEbsBandwidth]]
  }

  // ---------------------------------------------------------------- a volume's properties

  /** The key of a volume in the recommendation's maps (line 68). */
  function VolumeKey(v: Volume): string {
    Hash.HashString(v.volumeId)
  }

  /** The volume types that take a target IOPS (line 89). */
  predicate HasTargetIops(volumeType: string) {
    volumeType == "io1" || volumeType == "io2" || volumeType == "gp3"
  }

  /** A decimal rendering starts with a digit or a minus sign, so it is never "Not applicable". */
  lemma IntToStringNotApplicable(n: int)
    ensures IntToString(n) != NotApplicable
  {
    var s := IntToString(n);
    if n >= 0 {
      assert IsDigit(s[0]);
    } else {
      assert s[0] == '-';
    }
    assert NotApplicable[0] == 'N';
  }

  /** Lines 73 and 89-91: the target IOPS, shown only for a target type among io1, io2 and gp3. */
  function TargetIops(r: Ec2Recommendation, vid: string): (s: string)
    ensures s == NotApplicable <==> !HasTargetIops(GoMap.Get(r.volumesTargetTypes, vid, ""))
    ensures HasTargetIops(GoMap.Get(r.volumesTargetTypes, vid, "")) ==> s == IntToString(GoMap.Get(r.volumesTargetIops, vid, 0))
  {
    if HasTargetIops(GoMap.Get(r.volumesTargetTypes, vid, "")) then
      IntToStringNotApplicable(GoMap.Get(r.volumesTargetIops, vid, 0));
      IntToString(GoMap.Get(r.volumesTargetIops, vid, 0))
    else NotApplicable
  }

  /** Lines 71 and 82-84: the target throughput, shown only for the gp3 target type. */
  function TargetThroughput(r: Ec2Recommendation, vid: string, f: Formats): (s: string)
    ensures GoMap.Get(r.volumesTargetTypes, vid, "") != "gp3" ==> s == NotApplicable
    ensures GoMap.Get(r.volumesTargetTypes, vid, "") == "gp3" ==> s == f.mbps(GoMap.Get(r.volumesTargetThroughput, vid, 0))
  {
    if GoMap.Get(r.volumesTargetTypes, vid, "") == "gp3" then f.mbps(GoMap.Get(r.volumesTargetThroughput, vid, 0))
    else NotApplicable
  }

  /** Lines 69 and 76-78: the size in GB, empty when the volume has none. */
  function VolumeSize(v: Volume): (s: string)
    ensures s == "" <==> v.size.None?
    ensures v.size.Some? ==> s == IntToString(v.size.value) + " GB"
  {
    if v.size.Some? then IntToString(v.size.value) + " GB" else ""
  }

  /** Lines 70 and 79-81. */
  function VolumeThroughput(v: Volume): (s: string)
    ensures s == "" <==> v.throughput.None?
  {
    if v.throughput.Some? then IntToString(v.throughput.value) + " MB/s" else ""
  }

  /** Lines 72 and 86-88. */
  function VolumeIops(v: Volume): (s: string)
    ensures s == "" <==> v.iops.None?
  {
    if v.iops.Some? then IntToString(v.iops.value) else ""
  }

  /** Lines 101-108: the storage tier and its target. */
  function TierRow(r: Ec2Recommendation, v: Volume): (row: seq<string>)
    ensures |row| == 6 && row[1] == v.volumeType && row[5] == GoMap.Get(r.volumesTargetTypes, VolumeKey(v), "")
  {
    ["  EBS Storage Tier", v.volumeType, "", "", "", GoMap.Get(r.volumesTargetTypes, VolumeKey(v), "")]
  }

  /** Lines 109-116: the size and the target size. */
  function SizeRow(r: Ec2Recommendation, v: Volume): (row: seq<string>)
    ensures |row| == 6 && row[1] == VolumeSize(v)
    ensures row[5] == IntToString(GoMap.Get(r.volumesTargetSizes, VolumeKey(v), 0)) + " GB"
  {
    ["Volume Size", VolumeSize(v), "", "", "", IntToString(GoMap.Get(r.volumesTargetSizes, VolumeKey(v), 0)) + " GB"]
  }

  /** Lines 117-144: an IOPS row: current IOPS, the utilisation and "baseline / target". */
  function IopsRow(title: string, r: Ec2Recommendation, v: Volume, f: Formats): (row: seq<string>)
    ensures |row| == 4 && row[0] == title && row[1] == VolumeIops(v)
    ensures row[3] == IntToString(GoMap.Get(r.volumesTargetBaselineIops, VolumeKey(v), 0)) + " / " + TargetIops(r, VolumeKey(v))
  {
    var vid := VolumeKey(v);
    [title, VolumeIops(v),
     f.iopsUsage(GoMap.Get(r.avgVolumesIopsUtilization, vid, 0), GoMap.Get(r.minVolumesIopsUtilization, vid, 0),
                 GoMap.Get(r.maxVolumesIopsUtilization, vid, 0)),
     IntToString(GoMap.Get(r.volumesTargetBaselineIops, vid, 0)) + " / " + TargetIops(r, vid)]
  }

  /** Lines 145-151: current throughput, the utilisation and "baseline / target". */
  function ThroughputRow(r: Ec2Recommendation, v: Volume, f: Formats): (row: seq<string>)
    ensures |row| == 4 && row[1] == VolumeThroughput(v)
    ensures row[3] == f.mbps(GoMap.Get(r.volumesTargetBaselineThroughput, VolumeKey(v), 0)) + " / " + TargetThroughput(r, VolumeKey(v), f)
  {
    var vid := VolumeKey(v);
    ["Throughput (Baseline / Provisioned)", VolumeThroughput(v),
     f.throughputUsage(GoMap.Get(r.avgVolumesThroughputUtilization, vid, 0), GoMap.Get(r.minVolumesThroughputUtilization, vid, 0),
                       GoMap.Get(r.maxVolumesThroughputUtilization, vid, 0)),
     f.mbps(GoMap.Get(r.volumesTargetBaselineThroughput, vid, 0)) + " / " + TargetThroughput(r, vid, f)]
  }

  /** Lines 92-152: a volume's entry, a header and seven rows, the IOPS row written four times. */
  function VolumeRows(item: DetailItem, v: Volume, f: Formats): (rows: seq<seq<string>>)
    ensures |rows| == 8
  {
    var r := item.recommendation;
    var iopsRow := IopsRow("IOPS (Baseline / Provisioned)", r, v, f);
    [["", "", "Average", "Min", "Max", ""], TierRow(r, v), SizeRow(r, v), IopsRow("IOPs", r, v, f),
     iopsRow, iopsRow, iopsRow, ThroughputRow(r, v, f)]
  }

  /** Two volumes with distinct ASCII ids, as AWS volume ids are, read distinct entries of the recommendation's maps. */
  lemma DistinctVolumesDistinctKeys(v: Volume, w: Volume)
    requires Hash.IsAscii(v.volumeId) && Hash.IsAscii(w.volumeId) && v.volumeId != w.volumeId
    ensures VolumeKey(v) != VolumeKey(w)
  {
    Hash.HashStringAscii(v.volumeId, w.volumeId);
  }

  // ---------------------------------------------------------------- all properties

  function VolumeIds(volumes: seq<Volume>): (ids: seq<string>)
    ensures |ids| == |volumes| && forall k :: 0 <= k < |volumes| ==> ids[k] == volumes[k].volumeId
  {
    seq(|volumes|, k requires 0 <= k < |volumes| => volumes[k].volumeId)
  }

  function VolumeEntries(item: DetailItem, f: Formats): (entries: seq<seq<seq<string>>>)
    ensures |entries| == |item.volumes| && forall k :: 0 <= k < |entries| ==> entries[k] == VolumeRows(item, item.volumes[k], f)
  {
    seq(|item.volumes|, k requires 0 <= k < |item.volumes| => VolumeRows(item, item.volumes[k], f))
  }

  /**
   * Lines 25-156: the instance's entry, then each volume's under its raw
   * id, a later volume replacing an earlier one with the same id.
   */
  function Properties(item: DetailItem, f: Formats): map<string, seq<seq<string>>> {
    GoMap.AssignEach(map[item.instance.instanceId := InstanceRows(item)], VolumeIds(item.volumes), VolumeEntries(item, f))
  }

  /** There is an entry for the instance and for each volume id, and for nothing else. */
  lemma PropertiesKeys(item: DetailItem, f: Formats, id: string)
    ensures id in Properties(item, f) <==> id == item.instance.instanceId || id in VolumeIds(item.volumes)
  {
    GoMap.AssignEachKeys(map[item.instance.instanceId := InstanceRows(item)], VolumeIds(item.volumes), VolumeEntries(item, f), id);
  }

  /** `ExtractProperties`: the instance's entry, then the volumes' entries assigned one by one. */
  method ExtractProperties(item: DetailItem, f: Formats) returns (res: map<string, seq<seq<string>>>)
    ensures res == Properties(item, f)
  {
    var base := map[item.instance.instanceId := InstanceRows(item)];
    res := GoMap.AssignAll(base, VolumeIds(item.volumes), VolumeEntries(item, f));
  }

  // ---------------------------------------------------------------- the device table

  /** Lines 166-174: the instance's row. */
  function InstanceDeviceRow(item: DetailItem, money: int -> string): (row: seq<string>)
    ensures |row| == 5 && row[0] == item.instance.instanceId && row[1] == "EC2 Instance"
    ensures row[4] == money(item.recommendation.currentCost - item.recommendation.targetCost)
  {
    var r := item.recommendation;
    [item.instance.instanceId, "EC2 Instance", money(r.currentCost), money(r.targetCost), money(r.currentCost - r.targetCost)]
  }

  /** Lines 176-183: an attached volume's row, its costs read under the hashed id. */
  function VolumeDeviceRow(item: DetailItem, volumeId: string, money: int -> string): (row: seq<string>)
    ensures |row| == 5 && row[0] == volumeId && row[1] == "EBS Volume"
    ensures var r := item.recommendation;
            var vid := Hash.HashString(volumeId);
            row[4] == money(GoMap.Get(r.volumesCurrentCosts, vid, 0) - GoMap.Get(r.volumesTargetCosts, vid, 0))
  {
    var r := item.recommendation;
    var vid := Hash.HashString(volumeId);
    var current := GoMap.Get(r.volumesCurrentCosts, vid, 0);
    var target := GoMap.Get(r.volumesTargetCosts, vid, 0);
    [volumeId, "EBS Volume", money(current), money(target), money(current - target)]
  }

  predicate AllEbs(mappings: seq<BlockDeviceMapping>) {
    forall k :: 0 <= k < |mappings| ==> mappings[k].ebs.Some?
  }

  /**
   * Lines 166-184: the rows are the instance's, then one per block-device
   * mapping in order.
   */
  ghost predicate DeviceRowsFor(item: DetailItem, money: int -> string, rows: seq<seq<string>>) {
    var mappings := item.instance.blockDeviceMappings;
    AllEbs(mappings) && |rows| == |mappings| + 1 && rows[0] == InstanceDeviceRow(item, money) &&
    forall k :: 0 <= k < |mappings| ==> rows[k + 1] == VolumeDeviceRow(item, mappings[k].ebs.value.volumeId, money)
  }

  /** The loop of lines 175-184: a mapping without an EBS device is a nil dereference, a panic here. */
  method BuildDeviceRows(item: DetailItem, money: int -> string) returns (r: Result<seq<seq<string>>>)
    ensures r.Ok? <==> AllEbs(item.instance.blockDeviceMappings)
    ensures r.Ok? ==> DeviceRowsFor(item, money, r.value)
    ensures r.Err? ==> r.error == "nil pointer dereference"
  {
    r := CollectRows(InstanceDeviceRow(item, money), item.instance.blockDeviceMappings,
                     id => VolumeDeviceRow(item, id, money));
  }

  /** The same loop over any first row and any row of a volume id. */
  method CollectRows(first: seq<string>, mappings: seq<BlockDeviceMapping>, volumeRow: string -> seq<string>)
    returns (r: Result<seq<seq<string>>>)
    ensures r.Ok? <==> AllEbs(mappings)
    ensures r.Ok? ==> |r.value| == |mappings| + 1 && r.value[0] == first &&
                      forall k :: 0 <= k < |mappings| ==> r.value[k + 1] == volumeRow(mappings[k].ebs.value.volumeId)
    ensures r.Err? ==> r.error == "nil pointer dereference"
  {
    var rows := [first];
    for n := 0 to |mappings|
      invariant forall k :: 0 <= k < n ==> mappings[k].ebs.Some?
      invariant |rows| == n + 1 && rows[0] == first
      invariant forall k :: 0 <= k < n ==> rows[k + 1] == volumeRow(mappings[k].ebs.value.volumeId)
    {
      if mappings[n].ebs.None? {
        assert !AllEbs(mappings) by { assert mappings[n].ebs.None?; }
        return Err("nil pointer dereference");
      }
      rows := rows + [volumeRow(mappings[n].ebs.value.volumeId)];
    }
    r := Ok(rows);
  }

  // ---------------------------------------------------------------- the view

  datatype KeyName = Quit | Esc | OtherKey
  datatype Msg = WindowSize(width: int) | Key(key: KeyName) | Other

  class Ec2InstanceDetail {
    const item: DetailItem
    /** How many times the `close` callback was called. */
    var closes: nat
    var deviceRows: seq<seq<string>>
    var detailRows: seq<seq<string>>
    var deviceProperties: map<string, seq<seq<string>>>
    var width: int
    var height: int
    var selectedDevice: string
    var quit: bool
    const help: HelpView.HelpView

    /** Lines 193-239 once the device rows are built: an empty details table and the properties of every device. */
    constructor(item: DetailItem, deviceRows: seq<seq<string>>, f: Formats)
      ensures this.item == item && this.deviceRows == deviceRows && detailRows == []
      ensures deviceProperties == Properties(item, f)
      ensures fresh(help) && help.lines == HelpLines && help.height == 0
      ensures closes == 0 && width == 0 && height == 0 && selectedDevice == "" && !quit
    {
      var properties := ExtractProperties(item, f);
      this.item := item;
      this.deviceRows := deviceRows;
      detailRows := [];
      deviceProperties := properties;
      help := new HelpView.HelpView(HelpLines);
      closes, width, height, selectedDevice, quit := 0, 0, 0, "", false;
    }

    /** `MinHeight` (lines 290-293): both tables with four lines of frame each, the help box's minimum and the description's line breaks. */
    function MinHeight(wrappedDescription: string): int
      reads this, help
    {
      |detailRows| + 4 + |deviceRows| + 4 + help.MinHeight() + CountChar(wrappedDescription, '\n')
    }

    /** `IsResponsive` (lines 280-282). */
    predicate IsResponsive(wrappedDescription: string)
      reads this, help
    {
      height >= MinHeight(wrappedDescription)
    }

    /** `SetHeight` (lines 284-288): the help box gets what the tables and the description leave. */
    method SetHeight(h: int, wrappedDescription: string)
      modifies this, help
      ensures height == h && help.lines == old(help.lines)
      ensures help.height == h - (MinHeight(wrappedDescription) - help.MinHeight())
      ensures IsResponsive(wrappedDescription) <==> help.IsResponsive()
      ensures deviceRows == old(deviceRows) && detailRows == old(detailRows) && deviceProperties == old(deviceProperties)
      ensures width == old(width) && selectedDevice == old(selectedDevice) && closes == old(closes) && quit == old(quit)
    {
      var l := CountChar(wrappedDescription, '\n');
      height := h;
      help.SetHeight(height - (|detailRows| + 4 + |deviceRows| + 4 + l));
    }

    /** Lines 260-268: a newly highlighted device brings its property rows, and the help box is resized. */
    method SelectDevice(highlighted: Option<string>, wrappedDescription: string)
      modifies this, help
      ensures highlighted.Some? && highlighted.value != old(selectedDevice) ==>
                selectedDevice == highlighted.value &&
                detailRows == GoMap.Get(deviceProperties, highlighted.value, []) &&
                help.height == height - (MinHeight(wrappedDescription) - help.MinHeight())
      ensures highlighted.None? || highlighted.value == old(selectedDevice) ==>
                selectedDevice == old(selectedDevice) && detailRows == old(detailRows) && help.height == old(help.height)
      ensures deviceRows == old(deviceRows) && deviceProperties == old(deviceProperties) && height == old(height)
      ensures width == old(width) && closes == old(closes) && quit == old(quit)
    {
      if highlighted.Some? && selectedDevice != highlighted.value {
        selectedDevice := highlighted.value;
        detailRows := GoMap.Get(deviceProperties, selectedDevice, []);
        SetHeight(height, wrappedDescription);
      }
    }

    /**
     * `Update` (lines 244-271). The first cell of the device table's
     * highlighted row after the message (None when it has none) and the
     * description wrapped to the view's width are parameters. `q` ends the
     * update at once; `esc` calls `close` and goes on.
     */
    method Update(msg: Msg, highlighted: Option<string>, wrappedDescription: string)
      modifies this, help
      ensures quit == (old(quit) || (msg.Key? && msg.key == Quit))
      ensures closes == if msg.Key? && msg.key == Esc then old(closes) + 1 else old(closes)
      ensures msg.WindowSize? ==> width == msg.width
      ensures !(msg.Key? && msg.key == Quit) && highlighted.Some? && highlighted.value != old(selectedDevice) ==>
                selectedDevice == highlighted.value && detailRows == GoMap.Get(deviceProperties, highlighted.value, [])
      ensures !(msg.Key? && msg.key == Quit) && (msg.WindowSize? || (highlighted.Some? && highlighted.value != old(selectedDevice))) ==>
                help.height == height - (MinHeight(wrappedDescription) - help.MinHeight())
      ensures deviceRows == old(deviceRows) && deviceProperties == old(deviceProperties) && height == old(height)
    {
      if msg.WindowSize? {
        width := msg.width;
        SetHeight(height, wrappedDescription);
      } else if msg.Key? && msg.key == Quit {
        quit := true;
        return;
      } else if msg.Key? && msg.key == Esc {
        closes := closes + 1;
      }
      SelectDevice(highlighted, wrappedDescription);
    }

    /** `View` (lines 273-278); the two tables' renderings are parameters. */
    method View(deviceText: string, detailText: string, wrappedDescription: string) returns (s: string)
      ensures s == deviceText + "\n" + wrappedDescription + "\n" + detailText + "\n" + HelpView.Render(help.lines, help.height)
    {
      var helpText := help.String();
      s := deviceText + "\n" + wrappedDescription + "\n" + detailText + "\n" + helpText;
    }
  }

  /**
   * `NewEc2InstanceDetail` (lines 158-240): the view opens when every
   * block-device mapping has an EBS device, and panics otherwise.
   */
  method NewEc2InstanceDetail(item: DetailItem, f: Formats) returns (r: Result<Ec2InstanceDetail>)
    ensures r.Ok? <==> AllEbs(item.instance.blockDeviceMappings)
    ensures r.Err? ==> r.error == "nil pointer dereference"
    ensures r.Ok? ==> fresh(r.value) && r.value.item == item && DeviceRowsFor(item, f.money, r.value.deviceRows)
    ensures r.Ok? ==> r.value.deviceProperties == Properties(item, f) && r.value.detailRows == [] && r.value.help.height == 0
  {
    var rows := BuildDeviceRows(item, f.money);
    if rows.Err? {
      return Err(rows.error);
    }
    var view := new Ec2InstanceDetail(item, rows.value, f);
    r := Ok(view);
  }

  /**
   * Highlighting the row of an attached volume that is the last of its id
   * among the item's volumes shows that volume's rows.
   */
  lemma VolumeRowShowsVolume(item: DetailItem, f: Formats, rows: seq<seq<string>>, k: int, j: int)
    requires DeviceRowsFor(item, f.money, rows) && 0 <= k < |item.instance.blockDeviceMappings|
    requires 0 <= j < |item.volumes| && item.volumes[j].volumeId == item.instance.blockDeviceMappings[k].ebs.value.volumeId
    requires forall i :: j < i < |item.volumes| ==> item.volumes[i].volumeId != item.volumes[j].volumeId
    ensures GoMap.Get(Properties(item, f), rows[k + 1][0], []) == VolumeRows(item, item.volumes[j], f)
  {
    GoMap.AssignEachLast(map[item.instance.instanceId := InstanceRows(item)], VolumeIds(item.volumes), VolumeEntries(item, f), j);
  }

  /** The instance's row shows its six rows when no volume shares its id. */
  lemma InstanceRowShowsInstance(item: DetailItem, f: Formats, rows: seq<seq<string>>)
    requires DeviceRowsFor(item, f.money, rows)
    requires forall j :: 0 <= j < |item.volumes| ==> item.volumes[j].volumeId != item.instance.instanceId
    ensures GoMap.Get(Properties(item, f), rows[0][0], []) == InstanceRows(item)
  {
    GoMap.AssignEachUntouched(map[item.instance.instanceId := InstanceRows(item)], VolumeIds(item.volumes), VolumeEntries(item, f),
                              item.instance.instanceId);
  }
}
