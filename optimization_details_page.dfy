/**
 * The optimization details page (view/page_optimization_details.go): the
 * selected item's devices at fixed column widths above a five-column table
 * of the highlighted device's properties (current, average, max,
 * recommended under an "Average"/"Max" header). The device columns and rows
 * defined here are shared with the optimization details view.
 */
module OptimizationDetailsPage {
  import opened Wrappers
  import opened Text
  import opened Proto
  import opened OptimizationsController
  import opened TableColumns
  import opened ResourceDetailsPage
  import OverviewPage

  // ---------------------------------------------------------------- the device table

  /** Lines 111-118: the device table's columns at their fixed widths. */
  const ShortDeviceColumns: seq<Column> :=
    [Column("0", "DeviceID", 30), Column("1", "ResourceType", 20), Column("2", "Runtime", 13),
     Column("3", "Current Cost", 20), Column("4", "Right sized Cost", 20), Column("5", "Savings", 20)]

  /**
   * Lines 120-134: a device's row: its id, type and runtime, its current
   * cost, and its right-sized cost and savings when `recommended` (empty
   * otherwise); `money` formats a cost.
   */
  function ShortDeviceRow(dev: Device, money: int -> string, recommended: bool): (r: Row)
    ensures |r| == |ShortDeviceColumns| && forall k :: 0 <= k < |r| ==> r[k].style == Plain
  {
    [PlainCell(dev.deviceId), PlainCell(dev.resourceType), PlainCell(dev.runtime), PlainCell(money(dev.currentCost)),
     PlainCell(if recommended then money(dev.rightSizedCost) else ""),
     PlainCell(if recommended then money(dev.currentCost - dev.rightSizedCost) else "")]
  }

  function ShortDeviceRows(devices: seq<Device>, money: int -> string, recommended: bool): (rows: seq<Row>)
    ensures |rows| == |devices|
    ensures forall i :: 0 <= i < |rows| ==> rows[i] == ShortDeviceRow(devices[i], money, recommended)
  {
    seq(|devices|, i requires 0 <= i < |devices| => ShortDeviceRow(devices[i], money, recommended))
  }

  /**
   * A device row shows, under each column's key, the id, type, runtime and
   * cost of its device, and the right-sized cost and the savings exactly
   * when a recommendation is shown.
   */
  lemma ShortDeviceRowCells(dev: Device, money: int -> string, recommended: bool)
    ensures var r := ShortDeviceRow(dev, money, recommended);
            CellAt(r, "0") == dev.deviceId && CellAt(r, "1") == dev.resourceType && CellAt(r, "2") == dev.runtime &&
            CellAt(r, "3") == money(dev.currentCost) &&
            CellAt(r, "4") == (if recommended then money(dev.rightSizedCost) else "") &&
            CellAt(r, "5") == (if recommended then money(dev.currentCost - dev.rightSizedCost) else "")
  {
    var r := ShortDeviceRow(dev, money, recommended);
    CellAtPosition(r, 0);
    CellAtPosition(r, 1);
    CellAtPosition(r, 2);
    CellAtPosition(r, 3);
    CellAtPosition(r, 4);
    CellAtPosition(r, 5);
  }

  /**
   * Highlighting the `i`-th device row names that device (the text under
   * "0" is its id), and the page holds property rows for it: the header
   * row and then one row per property of the last device with that id.
   */
  lemma HighlightNamesDevice(devices: seq<Device>, money: int -> string, recommended: bool, i: int)
    requires 0 <= i < |devices|
    ensures CellAt(ShortDeviceRows(devices, money, recommended)[i], "0") == devices[i].deviceId
    ensures devices[i].deviceId in ExtractProperties(devices, FiveColumns(true))
    ensures var rows := ExtractProperties(devices, FiveColumns(true))[devices[i].deviceId];
            |rows| >= 1 && rows[0] == HeaderRow
  {
    ShortDeviceRowCells(devices[i], money, recommended);
    ExtractPropertiesKeys(devices, FiveColumns(true), devices[i].deviceId);
    var j := LastWithId(devices, devices[i].deviceId, i);
    ExtractPropertiesLast(devices, FiveColumns(true), j);
  }

  /** The last device with the id of `devices[i]`. */
  lemma LastWithId(devices: seq<Device>, id: string, i: int) returns (j: int)
    requires 0 <= i < |devices| && devices[i].deviceId == id
    ensures i <= j < |devices| && devices[j].deviceId == id
    ensures forall k :: j < k < |devices| ==> devices[k].deviceId != id
  {
    j := |devices| - 1;
    while devices[j].deviceId != id
      invariant i <= j < |devices|
      invariant forall k :: j < k < |devices| ==> devices[k].deviceId != id
      decreases j
    {
      j := j - 1;
    }
  }

  // ---------------------------------------------------------------- the details table

  /** Lines 142-148 (and view_optimization_details.go lines 123-129): the five details columns. */
  function FiveDetailColumns(days: string): (cs: seq<Column>)
    ensures |cs| == 5 && cs[2].title == days + " day usage"
  {
    [Column("0", "", 30), Column("1", "Current", 30), Column("2", days + " day usage", 15), Column("3", "", 15),
     Column("4", "Recommendation", 30)]
  }

  // ---------------------------------------------------------------- the page

  class OptimizationDetailsPage {
    var item: Option<OptimizationItem>
    var deviceTable: Table<Row>
    var detailTable: Table<Row>
    var deviceProperties: map<string, seq<Row>>
    var selectedDevice: string
    var detailTableHasFocus: bool
    var quit: bool
    var height: int
    const optimizations: Optimizations<OptimizationItem>

    /** `NewOptimizationDetailsView` (lines 89-99): no item yet. */
    constructor(optimizations: Optimizations<OptimizationItem>)
      ensures this.optimizations == optimizations && item == None
      ensures deviceProperties == map[] && selectedDevice == "" && !detailTableHasFocus && !quit
    {
      this.optimizations := optimizations;
      item, deviceTable, detailTable := None, Table([], [], 0), Table([], [], 0);
      deviceProperties, selectedDevice, detailTableHasFocus, quit := map[], "", false, false;
      height := 0;
    }

    /**
     * `OnOpen` (lines 101-169): the tables of the selected item, its
     * devices focused and none selected; a recommendation is shown only for
     * an item that is loaded, not skipped and not waiting to be loaded.
     */
    method OnOpen(money: int -> string)
      requires optimizations.selectedItem.Some?
      modifies this
      ensures item == optimizations.selectedItem
      ensures deviceTable == Table(ShortDeviceColumns, ShortDeviceRows(item.value.devices, money, OverviewPage.Ready(item.value)), |item.value.devices|)
      ensures detailTable == Table(FiveDetailColumns(UsageDays(item.value.preferences)), [], 1)
      ensures deviceProperties == ExtractProperties(item.value.devices, FiveColumns(true))
      ensures !detailTableHasFocus && selectedDevice == ""
      ensures quit == old(quit) && height == old(height)
    {
      var it := optimizations.selectedItem.value;
      var recommended := !it.loading && !it.skipped && !it.lazyLoadingEnabled;
      var rows := ShortDeviceRows(it.devices, money, recommended);
      var days := DaysLabel(it.preferences);
      var properties := PropertiesOf(it.devices, FiveColumns(true));
      item := Some(it);
      detailTable := Table(FiveDetailColumns(days), [], 1);
      deviceTable := Table(ShortDeviceColumns, rows, |rows|);
      deviceProperties := properties;
      detailTableHasFocus, selectedDevice := false, "";
    }

    /** Lines 183-197: `q` quits, `enter` focuses the details table, `esc` and `left` give focus back to the devices. */
    method Press(key: KeyName)
      modifies this
      ensures quit == (old(quit) || key == Quit)
      ensures detailTableHasFocus == if key == Enter then true else if key in {Esc, Left} then false else old(detailTableHasFocus)
      ensures deviceTable == old(deviceTable) && detailTable == old(detailTable) && item == old(item)
      ensures deviceProperties == old(deviceProperties) && selectedDevice == old(selectedDevice) && height == old(height)
    {
      if key == Quit {
        quit := true;
      } else if key == Enter {
        detailTableHasFocus := true;
      } else if key == Esc || key == Left {
        if detailTableHasFocus {
          detailTableHasFocus := false;
        }
      }
    }

    /** Lines 205-209: a highlighted row naming another device brings that device's property rows. */
    method SelectDevice(highlighted: Option<string>)
      modifies this
      ensures highlighted.Some? && highlighted.value != old(selectedDevice) ==>
                selectedDevice == highlighted.value &&
                detailTable == old(detailTable).(rows := if selectedDevice in deviceProperties then deviceProperties[selectedDevice] else [])
      ensures !(highlighted.Some? && highlighted.value != old(selectedDevice)) ==>
                selectedDevice == old(selectedDevice) && detailTable == old(detailTable)
      ensures deviceTable == old(deviceTable) && deviceProperties == old(deviceProperties) && item == old(item)
      ensures detailTableHasFocus == old(detailTableHasFocus) && quit == old(quit) && height == old(height)
    {
      if highlighted.Some? && selectedDevice != highlighted.value {
        selectedDevice := highlighted.value;
        detailTable := detailTable.(rows := if selectedDevice in deviceProperties then deviceProperties[selectedDevice] else []);
      }
    }

    /**
     * `Update` (lines 177-228). The text under "0" of the device table's
     * highlighted row after the message (None when there is no row) and
     * the description wrapped to the page's width are parameters; `q` ends
     * the update at once.
     */
    method Update(msg: Msg, highlighted: Option<string>, wrappedDescription: string, statusBarHeight: int)
      modifies this
      ensures quit == (old(quit) || msg == Key(Quit))
      ensures msg != Key(Quit) ==>
                var h := SplitSteps(Extra(LineCount(wrappedDescription), statusBarHeight, height), |deviceProperties|);
                deviceTable.pageSize == h.0 - 6 && detailTable.pageSize == h.1 - 6 &&
                deviceTable.pageSize >= 1 && detailTable.pageSize >= 1
      ensures msg != Key(Quit) && highlighted.Some? && highlighted.value != old(selectedDevice) ==>
                selectedDevice == highlighted.value &&
                detailTable.rows == (if selectedDevice in deviceProperties then deviceProperties[selectedDevice] else [])
      ensures deviceTable.rows == old(deviceTable.rows) && deviceProperties == old(deviceProperties) && item == old(item)
    {
      if msg.Key? {
        Press(msg.key);
        if msg.key == Quit {
          return;
        }
      }
      SelectDevice(highlighted);
      var device, details := SplitHeights(LineCount(wrappedDescription), statusBarHeight, height, |deviceProperties|);
      SplitLayout(LineCount(wrappedDescription), statusBarHeight, height, |deviceProperties|);
      deviceTable, detailTable := deviceTable.(pageSize := device - 6), detailTable.(pageSize := details - 6);
    }
  }
}
