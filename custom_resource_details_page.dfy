/**
 * The resource details page for plugins with their own table layout
 * (view/page_resource_details_plugin_custom.go). The device table's columns
 * come from the plugin's chart definition and its rows from the item's
 * device chart rows, each carrying its row id under a reserved key so that
 * the highlighted row names its device; the details table shows the
 * highlighted device's properties. The cells, the usage-days label and the
 * height split are those of the resource details page.
 */
module CustomResourceDetailsPage {
  import opened Wrappers
  import opened Text
  import opened Proto
  import opened OptimizationsController
  import opened TableColumns
  import opened ResourceDetailsPage
  import App

  // ---------------------------------------------------------------- rows with an id

  /** Line 15: the key under which a device row carries its id. */
  const RowIdKey: string := "x_kaytu_row_id"

  /** Lines 27-30: a device row's id and its texts by column id. */
  datatype RowWithId = RowWithId(id: string, row: map<string, string>)

  /** Lines 32-39: the row as the table takes it, the id added under the reserved key. */
  function ToTableRow(r: RowWithId): (data: map<string, string>)
    ensures RowIdKey in data && data[RowIdKey] == r.id
    ensures data.Keys == r.row.Keys + {RowIdKey}
    ensures forall k :: k in r.row && k != RowIdKey ==> data[k] == r.row[k]
  {
    r.row[RowIdKey := r.id]
  }

  /** The id a table row carries, if any (`Data[XKaytuRowId] != nil`, lines 244-245). */
  function RowId(data: map<string, string>): Option<string> {
    if RowIdKey in data then Some(data[RowIdKey]) else None
  }

  /** Lines 19-25: the rows of the device table, in order. */
  function ToTableRows(rs: seq<RowWithId>): (rows: seq<map<string, string>>)
    ensures |rows| == |rs|
  {
    seq(|rs|, i requires 0 <= i < |rs| => ToTableRow(rs[i]))
  }

  /** Every table row gives back the id of the row it was built from. */
  lemma ToTableRowsIds(rs: seq<RowWithId>, i: int)
    requires 0 <= i < |rs|
    ensures RowId(ToTableRows(rs)[i]) == Some(rs[i].id)
  {
  }

  /** Lines 128-139: a device chart row as a row with an id: each cell's text under its column id. */
  function DeviceRowOf(r: ChartRow): (row: RowWithId)
    ensures row.id == r.rowId && row.row.Keys == r.values.Keys
    ensures forall k :: k in r.values ==> row.row[k] == r.values[k].value
  {
    RowWithId(r.rowId, map k | k in r.values :: r.values[k].value)
  }

  function DeviceRowsOf(item: ChartOptimizationItem): (rows: seq<RowWithId>)
    ensures |rows| == |item.devicesChartRows|
    ensures forall i :: 0 <= i < |rows| ==> rows[i] == DeviceRowOf(item.devicesChartRows[i])
  {
    seq(|item.devicesChartRows|, i requires 0 <= i < |item.devicesChartRows| => DeviceRowOf(item.devicesChartRows[i]))
  }

  /** Lines 123-126 and 188-191: the chart definition's columns at their declared widths. */
  function DeviceColumnsOf(cd: ChartDefinition): (cs: seq<Column>)
    ensures |cs| == |cd.columns|
    ensures forall i :: 0 <= i < |cs| ==> cs[i] == Column(cd.columns[i].id, cd.columns[i].name, cd.columns[i].width)
  {
    seq(|cd.columns|, i requires 0 <= i < |cd.columns| => Column(cd.columns[i].id, cd.columns[i].name, cd.columns[i].width))
  }

  // ---------------------------------------------------------------- property rows

  /**
   * Lines 68-77: the usage cell, "Avg: a" and "Max: m" joined by " | ",
   * each only when its value is not empty.
   */
  function UsageColumn(average: string, max: string): (u: string) {
    var avg := if average != "" then "Avg: " + average else "";
    if max == "" then avg
    else if avg != "" then avg + " | " + "Max: " + max
    else "Max: " + max
  }

  /** The usage cell is empty exactly when both values are, and shows each value that is present. */
  lemma UsageColumnShows(average: string, max: string)
    ensures UsageColumn(average, max) == "" <==> average == "" && max == ""
    ensures average != "" ==> HasPrefix(UsageColumn(average, max), "Avg: " + average)
    ensures max != "" ==> HasSuffix(UsageColumn(average, max), "Max: " + max)
    ensures average != "" && max != "" ==> Contains(UsageColumn(average, max), " | ")
  {
    if average != "" && max != "" {
      assert OccursAt(UsageColumn(average, max), " | ", |"Avg: " + average|);
    }
  }

  /** Lines 64-84 and 88-97: a property's row: name, current, usage and recommended value, the change marked. */
  function CustomPropertyRow(p: Property): (r: Row)
    ensures |r| == 4
  {
    MarkChange([KeyCell(p.key), PlainCell(p.current), PlainCell(UsageColumn(p.average, p.max)), PlainCell(p.recommended)], 1, 3)
  }

  /** A property row keeps its texts and marks the current and recommended values exactly when they differ. */
  lemma CustomPropertyRowMarks(p: Property)
    ensures CustomPropertyRow(p)[0] == KeyCell(p.key)
    ensures CustomPropertyRow(p)[1].text == p.current && CustomPropertyRow(p)[3].text == p.recommended
    ensures CustomPropertyRow(p)[2] == PlainCell(UsageColumn(p.average, p.max))
    ensures CustomPropertyRow(p)[1].style == ChangeFrom <==> p.current != p.recommended
    ensures CustomPropertyRow(p)[3].style == ChangeTo <==> p.current != p.recommended
    ensures p.current == p.recommended ==> CustomPropertyRow(p)[1].style == Plain && CustomPropertyRow(p)[3].style == Plain
  {
  }

  function CustomDetails(props: seq<Property>): (rows: seq<Row>)
    ensures |rows| == |props|
    ensures forall i :: 0 <= i < |rows| ==> rows[i] == CustomPropertyRow(props[i])
  {
    seq(|props|, i requires 0 <= i < |props| => CustomPropertyRow(props[i]))
  }

  /** Lines 59-99: each device id's property rows. */
  function ExtractCustomProperties(item: ChartOptimizationItem): (res: map<string, seq<Row>>)
    ensures res.Keys == item.devicesProperties.Keys
  {
    map id | id in item.devicesProperties :: CustomDetails(item.devicesProperties[id])
  }

  /**
   * Each device's entry has a row per property, in order, with the texts of
   * the property and its change marked; so the details of a device with
   * properties are never empty and a device without any has none.
   */
  lemma ExtractCustomPropertiesRows(item: ChartOptimizationItem, id: string, i: int)
    requires id in item.devicesProperties && 0 <= i < |item.devicesProperties[id]|
    ensures |ExtractCustomProperties(item)[id]| == |item.devicesProperties[id]|
    ensures var p := item.devicesProperties[id][i];
            var r := ExtractCustomProperties(item)[id][i];
            r[1].text == p.current && r[3].text == p.recommended && r[2].text == UsageColumn(p.average, p.max) &&
            (r[1].style == ChangeFrom <==> p.current != p.recommended)
  {
    CustomPropertyRowMarks(item.devicesProperties[id][i]);
  }

  // ---------------------------------------------------------------- the page

  class CustomResourceDetailsPage {
    var chartDefinition: ChartDefinition
    var chartDefinitionDirty: bool
    var item: Option<ChartOptimizationItem>
    var deviceTable: Table<map<string, string>>
    var detailTable: Table<Row>
    var deviceProperties: map<string, seq<Row>>
    var selectedDevice: string
    var detailTableHasFocus: bool
    var quit: bool
    var height: int
    const optimizations: Optimizations<ChartOptimizationItem>
    const app: App.App

    /** `NewPluginCustomOptimizationDetailsView` (lines 101-113): no item yet. */
    constructor(chartDefinition: ChartDefinition, optimizations: Optimizations<ChartOptimizationItem>, app: App.App)
      ensures this.chartDefinition == chartDefinition && !chartDefinitionDirty && item == None
      ensures this.optimizations == optimizations && this.app == app
      ensures deviceProperties == map[] && selectedDevice == "" && !detailTableHasFocus && !quit
    {
      this.chartDefinition, this.optimizations, this.app := chartDefinition, optimizations, app;
      chartDefinitionDirty, item := false, None;
      deviceTable, detailTable := Table([], [], 0), Table([], [], 0);
      deviceProperties, selectedDevice, detailTableHasFocus, quit := map[], "", false, false;
      height := 0;
    }

    /** Lines 115-118: a new chart definition, applied on the next message. */
    method SetChartDefinition(cd: ChartDefinition)
      modifies this
      ensures chartDefinition == cd && chartDefinitionDirty
      ensures deviceTable == old(deviceTable) && detailTable == old(detailTable) && item == old(item)
      ensures deviceProperties == old(deviceProperties) && selectedDevice == old(selectedDevice)
      ensures detailTableHasFocus == old(detailTableHasFocus) && quit == old(quit) && height == old(height)
    {
      chartDefinition, chartDefinitionDirty := cd, true;
    }

    /** `OnOpen` (lines 120-178): the tables of the selected item, its devices focused and none selected. */
    method OnOpen()
      requires optimizations.selectedItem.Some?
      modifies this
      ensures item == optimizations.selectedItem
      ensures deviceTable == Table(DeviceColumnsOf(chartDefinition), ToTableRows(DeviceRowsOf(item.value)), |item.value.devicesChartRows|)
      ensures detailTable == Table(DetailColumns(UsageDays(item.value.preferences)), [], 1)
      ensures deviceProperties == ExtractCustomProperties(item.value)
      ensures !chartDefinitionDirty && !detailTableHasFocus && selectedDevice == ""
      ensures chartDefinition == old(chartDefinition) && quit == old(quit) && height == old(height)
    {
      var it := optimizations.selectedItem.value;
      var days := DaysLabel(it.preferences);
      var rows := DeviceRowsOf(it);
      item := Some(it);
      detailTable := Table(DetailColumns(days), [], 1);
      deviceTable := Table(DeviceColumnsOf(chartDefinition), ToTableRows(rows), |rows|);
      chartDefinitionDirty := false;
      deviceProperties := ExtractCustomProperties(it);
      detailTableHasFocus, selectedDevice := false, "";
    }

    /** Lines 187-194: after a new chart definition, the device table takes its columns. */
    method RefreshColumns()
      modifies this
      ensures old(chartDefinitionDirty) ==> deviceTable == old(deviceTable).(columns := DeviceColumnsOf(chartDefinition))
      ensures !old(chartDefinitionDirty) ==> deviceTable == old(deviceTable)
      ensures !chartDefinitionDirty && chartDefinition == old(chartDefinition)
      ensures detailTable == old(detailTable) && item == old(item)
      ensures deviceProperties == old(deviceProperties) && selectedDevice == old(selectedDevice)
      ensures detailTableHasFocus == old(detailTableHasFocus) && quit == old(quit) && height == old(height)
    {
      if chartDefinitionDirty {
        deviceTable := deviceTable.(columns := DeviceColumnsOf(chartDefinition));
        chartDefinitionDirty := false;
      }
    }

    /** Lines 202-235: `q` quits, `enter` focuses the details table, `esc` gives focus back to the devices. */
    method Press(key: KeyName)
      modifies this, app
      ensures quit == (old(quit) || key == Quit)
      ensures detailTableHasFocus == if key == Enter then true else if key == Esc then false else old(detailTableHasFocus)
      ensures app.AppState() == if key == Enter then old(app.AppState()).(ignoreEsc := true)
                                else if key == Esc then old(app.AppState()).(ignoreEsc := false)
                                else old(app.AppState())
      ensures deviceTable == old(deviceTable) && detailTable == old(detailTable) && item == old(item)
      ensures chartDefinition == old(chartDefinition) && chartDefinitionDirty == old(chartDefinitionDirty)
      ensures deviceProperties == old(deviceProperties) && selectedDevice == old(selectedDevice) && height == old(height)
    {
      if key == Quit {
        quit := true;
      } else if key == Enter {
        detailTableHasFocus := true;
        app.SetIgnoreEsc(true);
      } else if key == Esc {
        app.SetIgnoreEsc(false);
        if detailTableHasFocus {
          detailTableHasFocus := false;
        }
      }
    }

    /** Lines 244-248: a highlighted row naming another device brings that device's property rows. */
    method SelectDevice(highlighted: map<string, string>)
      modifies this
      ensures RowId(highlighted).Some? && RowId(highlighted).value != old(selectedDevice) ==>
                selectedDevice == RowId(highlighted).value &&
                detailTable == old(detailTable).(rows := if selectedDevice in deviceProperties then deviceProperties[selectedDevice] else [])
      ensures !(RowId(highlighted).Some? && RowId(highlighted).value != old(selectedDevice)) ==>
                selectedDevice == old(selectedDevice) && detailTable == old(detailTable)
      ensures deviceTable == old(deviceTable) && deviceProperties == old(deviceProperties) && item == old(item)
      ensures chartDefinition == old(chartDefinition) && chartDefinitionDirty == old(chartDefinitionDirty)
      ensures detailTableHasFocus == old(detailTableHasFocus) && quit == old(quit) && height == old(height)
    {
      if RowIdKey in highlighted && selectedDevice != highlighted[RowIdKey] {
        selectedDevice := highlighted[RowIdKey];
        detailTable := detailTable.(rows := if selectedDevice in deviceProperties then deviceProperties[selectedDevice] else []);
      }
    }

    /**
     * `Update` (lines 186-267). The data of the device table's highlighted
     * row after the message (empty when there is none) and the description
     * wrapped to the page's width are parameters; `q` ends the update at once.
     */
    method Update(msg: Msg, highlighted: map<string, string>, wrappedDescription: string, statusBarHeight: int)
      modifies this, app
      ensures quit == (old(quit) || msg == Key(Quit))
      ensures !chartDefinitionDirty && (old(chartDefinitionDirty) ==> deviceTable.columns == DeviceColumnsOf(chartDefinition))
      ensures msg != Key(Quit) ==>
                var h := SplitSteps(Extra(LineCount(wrappedDescription), statusBarHeight, height), |deviceProperties|);
                deviceTable.pageSize == h.0 - 6 && detailTable.pageSize == h.1 - 6 &&
                deviceTable.pageSize >= 1 && detailTable.pageSize >= 1
      ensures msg != Key(Quit) && RowId(highlighted).Some? && RowId(highlighted).value != old(selectedDevice) ==>
                selectedDevice == RowId(highlighted).value &&
                detailTable.rows == (if selectedDevice in deviceProperties then deviceProperties[selectedDevice] else [])
      ensures deviceTable.rows == old(deviceTable.rows) && deviceProperties == old(deviceProperties) && item == old(item)
    {
      RefreshColumns();
      if msg.Key? {
        Press(msg.key);
        if msg.key == Quit {
          return;
        }
      }
      SelectDevice(highlighted);
      var device, details := SplitHeights(LineCount(wrappedDescription), statusBarHeight, height, |deviceProperties|);
      SplitLayout(LineCount(wrappedDescription), statusBarHeight, height, |deviceProperties|);
      deviceTable, detailTable := deviceTable.(pageSize := device - 6), detailTable.(pageSize := details - 6);
    }
  }

  /**
   * Highlighting the `i`-th device row of an opened page selects that
   * device and shows its property rows, or none when the plugin sent no
   * properties for it.
   */
  lemma HighlightSelects(item: ChartOptimizationItem, i: int)
    requires 0 <= i < |item.devicesChartRows|
    ensures var id := item.devicesChartRows[i].rowId;
            RowId(ToTableRows(DeviceRowsOf(item))[i]) == Some(id) &&
            (id in ExtractCustomProperties(item) <==> id in item.devicesProperties)
  {
    ToTableRowsIds(DeviceRowsOf(item), i);
  }
}
