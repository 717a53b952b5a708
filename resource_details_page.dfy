/**
 * The resource details page (view/page_resource_details.go): a table of the
 * selected item's devices above a table of the highlighted device's
 * properties, current against recommended. Styling is kept symbolic: a cell
 * is its text and the style it is rendered with, so stripping the styling
 * gives back the text. The rows, the usage-days label and the height split
 * defined here are shared by the other details pages.
 */
module ResourceDetailsPage {
  import opened Wrappers
  import opened Text
  import opened Proto
  import opened OptimizationsController
  import opened TableColumns
  import App
  import OverviewPage

  // ---------------------------------------------------------------- rows

  /** The styles the details tables use: none, bold, and the two halves of a change. */
  datatype Style = Plain | Bold | ChangeFrom | ChangeTo

  /** A table cell: its text and the style it is rendered in. */
  datatype Cell = Cell(style: Style, text: string)

  type Row = seq<Cell>

  function PlainCell(s: string): Cell { Cell(Plain, s) }

  lemma NatToStringInjective(a: nat, b: nat)
    ensures NatToString(a) == NatToString(b) ==> a == b
  {
    DigitsValueOfNatToString(a);
    DigitsValueOfNatToString(b);
  }

  /** Lines 19-25: a row as the table takes it, cell `i` under the key "i". */
  function TableRow(row: Row): map<string, Cell> {
    if row == [] then map[] else TableRow(row[..|row| - 1])[NatToString(|row| - 1) := row[|row| - 1]]
  }

  /** The only keys are the positions of the cells. */
  lemma {:induction false} TableRowKeys(row: Row, key: string)
    requires key in TableRow(row)
    ensures exists i :: 0 <= i < |row| && key == NatToString(i)
  {
    var n := |row| - 1;
    if key != NatToString(n) {
      TableRowKeys(row[..n], key);
      var i :| 0 <= i < n && key == NatToString(i);
      assert 0 <= i < |row|;
    } else {
      assert 0 <= n < |row|;
    }
  }

  /** Every cell is found under its own position, and only there. */
  lemma {:induction false} TableRowCells(row: Row, i: int)
    requires 0 <= i < |row|
    ensures NatToString(i) in TableRow(row) && TableRow(row)[NatToString(i)] == row[i]
  {
    if i < |row| - 1 {
      var init := row[..|row| - 1];
      assert init[i] == row[i];
      TableRowCells(init, i);
      NatToStringInjective(i, |row| - 1);
    }
  }

  /** Lines 27-33: the rows of a table, in order. */
  function TableRows(rows: seq<Row>): (data: seq<map<string, Cell>>)
    ensures |data| == |rows|
  {
    seq(|rows|, i requires 0 <= i < |rows| => TableRow(rows[i]))
  }

  lemma TableRowsCells(rows: seq<Row>, i: int, k: int)
    requires 0 <= i < |rows| && 0 <= k < |rows[i]|
    ensures NatToString(k) in TableRows(rows)[i] && TableRows(rows)[i][NatToString(k)] == rows[i][k]
  {
    TableRowCells(rows[i], k);
  }

  /** The text the table shows under `key` in a row, "" when the row has no such cell. */
  function CellAt(row: Row, key: string): string {
    var data := TableRow(row);
    if key in data then data[key].text else ""
  }

  lemma CellAtPosition(row: Row, k: int)
    requires 0 <= k < |row|
    ensures CellAt(row, NatToString(k)) == row[k].text
  {
    TableRowCells(row, k);
  }

  /** Lines 57-59: a property's name is bold unless it starts with a space (an indented sub-property). */
  function KeyCell(key: string): (c: Cell)
    ensures c.text == key
    ensures c.style == Bold <==> !HasPrefix(key, " ")
    ensures c.style == Plain <==> HasPrefix(key, " ")
  {
    if HasPrefix(key, " ") then PlainCell(key) else Cell(Bold, key)
  }

  /**
   * Lines 70-79: when cells `a` and `b` differ, the first is rendered as
   * the old value and the second as the new one.
   */
  function MarkChange(row: Row, a: int, b: int): (r: Row)
    requires 0 <= a < |row| && 0 <= b < |row| && a != b
    ensures |r| == |row| && r[a].text == row[a].text && r[b].text == row[b].text
    ensures row[a] != row[b] ==> r[a].style == ChangeFrom && r[b].style == ChangeTo
    ensures row[a] == row[b] ==> r == row
    ensures forall k :: 0 <= k < |row| && k != a && k != b ==> r[k] == row[k]
  {
    if row[a] != row[b] then row[a := Cell(ChangeFrom, row[a].text)][b := Cell(ChangeTo, row[b].text)] else row
  }

  /** Lines 56-66 and 70-79: a property's row: name, current, average and recommended value. */
  function PropertyRow(p: Property): (r: Row)
    ensures |r| == 4
  {
    MarkChange([KeyCell(p.key), PlainCell(p.current), PlainCell(p.average), PlainCell(p.recommended)], 1, 3)
  }

  /** A property row keeps its texts, and marks the current and recommended values exactly when they differ. */
  lemma PropertyRowMarks(p: Property)
    ensures PropertyRow(p)[0] == KeyCell(p.key)
    ensures PropertyRow(p)[1].text == p.current && PropertyRow(p)[2] == PlainCell(p.average) && PropertyRow(p)[3].text == p.recommended
    ensures PropertyRow(p)[1].style == ChangeFrom <==> p.current != p.recommended
    ensures PropertyRow(p)[3].style == ChangeTo <==> p.current != p.recommended
    ensures p.current == p.recommended ==> PropertyRow(p)[1].style == Plain && PropertyRow(p)[3].style == Plain
  {
  }

  /**
   * The header row of the five-column details tables (page_optimization_details.go
   * lines 51-59, view_optimization_details.go lines 49-57): "Average" and "Max" in bold.
   */
  const HeaderRow: Row := [PlainCell(""), PlainCell(""), Cell(Bold, "Average"), Cell(Bold, "Max"), PlainCell("")]

  /**
   * A property's row in the five-column tables: name, current, average, max
   * and recommended value, the change between the current and recommended
   * values marked; the name is bold (unless indented) only where `boldKeys`.
   */
  function FullPropertyRow(p: Property, boldKeys: bool): (r: Row)
    ensures |r| == 5
  {
    MarkChange([if boldKeys then KeyCell(p.key) else PlainCell(p.key), PlainCell(p.current), PlainCell(p.average),
                PlainCell(p.max), PlainCell(p.recommended)], 1, 4)
  }

  /** A five-column row keeps every text and marks the change exactly when the values differ. */
  lemma FullPropertyRowMarks(p: Property, boldKeys: bool)
    ensures FullPropertyRow(p, boldKeys)[0] == (if boldKeys then KeyCell(p.key) else PlainCell(p.key))
    ensures FullPropertyRow(p, boldKeys)[1].text == p.current && FullPropertyRow(p, boldKeys)[4].text == p.recommended
    ensures FullPropertyRow(p, boldKeys)[2] == PlainCell(p.average) && FullPropertyRow(p, boldKeys)[3] == PlainCell(p.max)
    ensures FullPropertyRow(p, boldKeys)[1].style == ChangeFrom <==> p.current != p.recommended
    ensures FullPropertyRow(p, boldKeys)[4].style == ChangeTo <==> p.current != p.recommended
    ensures p.current == p.recommended ==> FullPropertyRow(p, boldKeys)[1].style == Plain && FullPropertyRow(p, boldKeys)[4].style == Plain
  {
  }

  /**
   * The layouts of the details tables: four columns here, and five columns
   * under a header row in the optimization details page (names bold) and
   * view (names plain).
   */
  datatype Layout = FourColumns | FiveColumns(boldKeys: bool)

  /** The rows of one device's properties, in order, under the header row in the five-column layout. */
  function DeviceDetails(dev: Device, layout: Layout): (rows: seq<Row>)
    ensures layout.FourColumns? ==>
              |rows| == |dev.properties| && forall i :: 0 <= i < |rows| ==> rows[i] == PropertyRow(dev.properties[i])
    ensures layout.FiveColumns? ==>
              |rows| == |dev.properties| + 1 && rows[0] == HeaderRow &&
              forall i :: 0 <= i < |dev.properties| ==> rows[i + 1] == FullPropertyRow(dev.properties[i], layout.boldKeys)
  {
    match layout
    case FourColumns =>
      seq(|dev.properties|, i requires 0 <= i < |dev.properties| => PropertyRow(dev.properties[i]))
    case FiveColumns(boldKeys) =>
      [MarkChange(HeaderRow, 1, 4)] +
      seq(|dev.properties|, i requires 0 <= i < |dev.properties| => FullPropertyRow(dev.properties[i], boldKeys))
  }

  /** Lines 51-81: each device id's property rows; a later device with the same id replaces an earlier one. */
  function ExtractProperties(devices: seq<Device>, layout: Layout): map<string, seq<Row>> {
    if devices == [] then map[]
    else ExtractProperties(devices[..|devices| - 1], layout)[devices[|devices| - 1].deviceId := DeviceDetails(devices[|devices| - 1], layout)]
  }

  /** There is an entry exactly for each device id. */
  lemma {:induction false} ExtractPropertiesKeys(devices: seq<Device>, layout: Layout, id: string)
    ensures id in ExtractProperties(devices, layout) <==> exists j :: 0 <= j < |devices| && devices[j].deviceId == id
  {
    if devices != [] {
      var init := devices[..|devices| - 1];
      ExtractPropertiesKeys(init, layout, id);
      assert forall j :: 0 <= j < |init| ==> init[j] == devices[j];
    }
  }

  /** A device id's entry holds the rows of the last device with that id. */
  lemma {:induction false} ExtractPropertiesLast(devices: seq<Device>, layout: Layout, j: int)
    requires 0 <= j < |devices|
    requires forall k :: j < k < |devices| ==> devices[k].deviceId != devices[j].deviceId
    ensures devices[j].deviceId in ExtractProperties(devices, layout)
    ensures ExtractProperties(devices, layout)[devices[j].deviceId] == DeviceDetails(devices[j], layout)
  {
    if j < |devices| - 1 {
      var init := devices[..|devices| - 1];
      assert init[j] == devices[j];
      ExtractPropertiesLast(init, layout, j);
    }
  }

  /** With distinct device ids there is one entry per device. */
  lemma {:induction false} ExtractPropertiesSize(devices: seq<Device>, layout: Layout)
    requires forall i, j :: 0 <= i < j < |devices| ==> devices[i].deviceId != devices[j].deviceId
    ensures |ExtractProperties(devices, layout)| == |devices|
  {
    if devices != [] {
      var init := devices[..|devices| - 1];
      ExtractPropertiesSize(init, layout);
      ExtractPropertiesKeys(init, layout, devices[|devices| - 1].deviceId);
      assert devices[|devices| - 1].deviceId !in ExtractProperties(init, layout);
    }
  }

  /** The loop of lines 51-81, device by device. */
  method PropertiesOf(devices: seq<Device>, layout: Layout) returns (res: map<string, seq<Row>>)
    ensures res == ExtractProperties(devices, layout)
  {
    res := map[];
    for n := 0 to |devices|
      invariant res == ExtractProperties(devices[..n], layout)
    {
      assert devices[..n + 1][..n] == devices[..n];
      res := res[devices[n].deviceId := DeviceDetails(devices[n], layout)];
    }
    assert devices[..|devices|] == devices;
  }

  // ---------------------------------------------------------------- the device table

  /** Lines 98-103: a recommendation is shown only for an item that is loaded, not skipped and not waiting to be loaded. */
  function IfRecommendation(item: OptimizationItem, s: string): (r: string)
    ensures r == (if OverviewPage.Ready(item) then s else "")
  {
    if !item.loading && !item.skipped && !item.lazyLoadingEnabled then s else ""
  }

  const DeviceTitles: seq<string> := ["Resource ID", "Resource Name", "ResourceType", "Runtime", "Current Cost", "Right sized Cost", "Savings"]

  /** Lines 115-130: a device's row; `money` formats a cost. */
  function DeviceRow(item: OptimizationItem, dev: Device, money: int -> string): (r: Row)
    ensures |r| == |DeviceTitles| && forall k :: 0 <= k < |r| ==> r[k].style == Plain
    ensures r[0].text == dev.deviceId && r[1].text == item.name && r[2].text == dev.resourceType && r[3].text == dev.runtime
    ensures r[4].text == money(dev.currentCost)
    ensures OverviewPage.Ready(item) ==> r[5].text == money(dev.rightSizedCost) && r[6].text == money(dev.currentCost - dev.rightSizedCost)
    ensures !OverviewPage.Ready(item) ==> r[5].text == "" && r[6].text == ""
  {
    [PlainCell(dev.deviceId), PlainCell(item.name), PlainCell(dev.resourceType), PlainCell(dev.runtime),
     PlainCell(money(dev.currentCost)),
     PlainCell(IfRecommendation(item, money(dev.rightSizedCost))),
     PlainCell(IfRecommendation(item, money(dev.currentCost - dev.rightSizedCost)))]
  }

  function DeviceRows(item: OptimizationItem, money: int -> string): (rows: seq<Row>)
    ensures |rows| == |item.devices| && forall i :: 0 <= i < |rows| ==> rows[i] == DeviceRow(item, item.devices[i], money)
  {
    seq(|item.devices|, i requires 0 <= i < |item.devices| => DeviceRow(item, item.devices[i], money))
  }

  /** The width a cell takes in a column: its trimmed text (the style adds no width). */
  function TextWidth(row: Row, key: string): nat {
    |TrimSpace(CellAt(row, key))|
  }

  /** The widths of the cells under `key`, row by row. */
  function TextWidths(rows: seq<Row>, key: string): seq<nat> {
    if rows == [] then [] else TextWidths(rows[..|rows| - 1], key) + [TextWidth(rows[|rows| - 1], key)]
  }

  lemma {:induction false} TextWidthsRows(rows: seq<Row>, key: string)
    ensures |TextWidths(rows, key)| == |rows|
    ensures forall i :: 0 <= i < |rows| ==> TextWidths(rows, key)[i] == TextWidth(rows[i], key)
  {
    if rows != [] {
      TextWidthsRows(rows[..|rows| - 1], key);
    }
  }

  /** The widest of a title and the cells under `key`. */
  function FitWidth(title: string, rows: seq<Row>, key: string): nat {
    MaxFrom(|title|, TextWidths(rows, key))
  }

  /** The fitted width is at least the title's and each cell's, and is one of them. */
  lemma FitWidthBounds(title: string, rows: seq<Row>, key: string)
    ensures FitWidth(title, rows, key) >= |title|
    ensures forall i :: 0 <= i < |rows| ==> FitWidth(title, rows, key) >= TextWidth(rows[i], key)
    ensures FitWidth(title, rows, key) == |title| || exists i :: 0 <= i < |rows| && FitWidth(title, rows, key) == TextWidth(rows[i], key)
  {
    TextWidthsRows(rows, key);
  }

  /**
   * Lines 132-146 and 244-258: a column's width is the widest of its title
   * and its trimmed cells, plus `pad`.
   */
  function Fitted(c: Column, rows: seq<Row>, pad: int): (r: Column)
    ensures r.key == c.key && r.title == c.title
  {
    Column(c.key, c.title, FitWidth(c.title, rows, c.key) + pad)
  }

  /** The inner loop of lines 132-146 and 244-258, over one column's cells. */
  method FitColumn(c: Column, rows: seq<Row>, pad: int) returns (r: Column)
    ensures r == Fitted(c, rows, pad)
  {
    var width := |c.title|;
    ghost var widths := TextWidths(rows, c.key);
    TextWidthsRows(rows, c.key);
    for n := 0 to |rows|
      invariant width == MaxFrom(|c.title|, widths[..n])
    {
      assert widths[..n + 1][..n] == widths[..n];
      var cellContent := TrimSpace(CellAt(rows[n], c.key));
      if |cellContent| > width {
        width := |cellContent|;
      }
    }
    assert widths[..|rows|] == widths;
    r := Column(c.key, c.title, width + pad);
  }

  /** Every column fitted, in order. */
  function FittedAll(cs: seq<Column>, rows: seq<Row>, pad: int): (fs: seq<Column>)
    ensures |fs| == |cs|
  {
    seq(|cs|, k requires 0 <= k < |cs| => Fitted(cs[k], rows, pad))
  }

  /** The column loops of lines 132-146 and 244-258. */
  method FitColumns(cs: seq<Column>, rows: seq<Row>, pad: int) returns (fitted: seq<Column>)
    ensures fitted == FittedAll(cs, rows, pad)
  {
    fitted := [];
    for idx := 0 to |cs|
      invariant |fitted| == idx
      invariant forall k :: 0 <= k < idx ==> fitted[k] == Fitted(cs[k], rows, pad)
    {
      var column := FitColumn(cs[idx], rows, pad);
      fitted := fitted + [column];
    }
  }

  /** The device table's columns before fitting (lines 105-113). */
  function DeviceColumns(): (cs: seq<Column>)
    ensures |cs| == |DeviceTitles|
    ensures forall k :: 0 <= k < |cs| ==> cs[k] == Column(NatToString(k), DeviceTitles[k], 0)
  {
    seq(|DeviceTitles|, k requires 0 <= k < |DeviceTitles| => Column(NatToString(k), DeviceTitles[k], 0))
  }

  /** Lines 105-146 and 166-172: the device table: a row per device, the columns fitted to them, a page for all. */
  function DeviceTableOf(item: OptimizationItem, money: int -> string): Table<Row> {
    Table(FittedAll(DeviceColumns(), DeviceRows(item, money), 0), DeviceRows(item, money), |item.devices|)
  }

  /** The loops of lines 115-146. */
  method DeviceTable(item: OptimizationItem, money: int -> string) returns (t: Table<Row>)
    ensures t == DeviceTableOf(item, money)
  {
    var rows := DeviceRows(item, money);
    var columns := FitColumns(DeviceColumns(), rows, 0);
    t := Table(columns, rows, |rows|);
  }

  /** The device table is wide enough for every device's cells. */
  lemma DeviceColumnsFit(item: OptimizationItem, money: int -> string, k: int, i: int)
    requires 0 <= k < |DeviceTitles| && 0 <= i < |item.devices|
    ensures FittedAll(DeviceColumns(), DeviceRows(item, money), 0)[k].width >= |TrimSpace(DeviceRow(item, item.devices[i], money)[k].text)|
    ensures FittedAll(DeviceColumns(), DeviceRows(item, money), 0)[k].width >= |DeviceTitles[k]|
  {
    CellAtPosition(DeviceRow(item, item.devices[i], money), k);
    FitWidthBounds(DeviceTitles[k], DeviceRows(item, money), NatToString(k));
  }

  // ---------------------------------------------------------------- the details table

  predicate SetsPeriod(p: PreferenceItem) {
    p.key == "ObservabilityTimePeriod" && p.value.Some?
  }

  /** The value of the last ObservabilityTimePeriod preference that has one (lines 148-153). */
  function LastPeriod(prefs: seq<PreferenceItem>): Option<string> {
    if prefs == [] then None
    else if SetsPeriod(prefs[|prefs| - 1]) then Some(prefs[|prefs| - 1].value.value)
    else LastPeriod(prefs[..|prefs| - 1])
  }

  /** Lines 148-153: the usage period, 7 days unless a preference sets it. */
  function UsageDays(prefs: seq<PreferenceItem>): string {
    match LastPeriod(prefs)
    case None => "7"
    case Some(v) => v
  }

  /** There is no period exactly when no preference sets one. */
  lemma {:induction false} LastPeriodNone(prefs: seq<PreferenceItem>)
    ensures LastPeriod(prefs).None? <==> forall i :: 0 <= i < |prefs| ==> !SetsPeriod(prefs[i])
  {
    if prefs != [] {
      var init := prefs[..|prefs| - 1];
      assert forall i :: 0 <= i < |init| ==> init[i] == prefs[i];
      LastPeriodNone(init);
    }
  }

  /** The period is the value of the last preference that sets one. */
  lemma {:induction false} LastPeriodLast(prefs: seq<PreferenceItem>, j: int)
    requires 0 <= j < |prefs| && SetsPeriod(prefs[j])
    requires forall k :: j < k < |prefs| ==> !SetsPeriod(prefs[k])
    ensures LastPeriod(prefs) == Some(prefs[j].value.value)
  {
    if j < |prefs| - 1 {
      var init := prefs[..|prefs| - 1];
      assert init[j] == prefs[j];
      LastPeriodLast(init, j);
    }
  }

  /** The loop of lines 148-153. */
  method DaysLabel(prefs: seq<PreferenceItem>) returns (days: string)
    ensures days == UsageDays(prefs)
  {
    days := "7";
    for n := 0 to |prefs|
      invariant days == UsageDays(prefs[..n])
    {
      assert prefs[..n + 1][..n] == prefs[..n];
      var p := prefs[n];
      if p.key == "ObservabilityTimePeriod" && p.value.Some? {
        days := p.value.value;
      }
      assert prefs[..n + 1][n] == p;
    }
    assert prefs[..|prefs|] == prefs;
  }

  /** Lines 154-159: the details table's columns. */
  function DetailColumns(days: string): (cs: seq<Column>)
    ensures |cs| == 4 && cs[2].title == days + " day usage"
  {
    [Column("0", "", 30), Column("1", "Current", 30), Column("2", days + " day usage", 15), Column("3", "Recommendation", 30)]
  }

  // ---------------------------------------------------------------- height split

  /**
   * One step of the height-split loop: the device table grows while it
   * shows fewer rows than there are devices and is the shorter table;
   * otherwise the details table grows.
   */
  function SplitStep(h: (int, int), devices: nat): (int, int) {
    if h.0 - 6 < devices && h.0 < h.1 then (h.0 + 1, h.1) else (h.0, h.1 + 1)
  }

  /** The heights after `k` steps from 7 and 7. */
  function SplitSteps(k: nat, devices: nat): (r: (int, int))
    ensures r.0 + r.1 == 14 + k
  {
    if k == 0 then (7, 7) else SplitStep(SplitSteps(k - 1, devices), devices)
  }

  /** The largest height the device table reaches: one row per device plus six lines, or its starting 7. */
  function DeviceCap(devices: nat): int {
    if devices >= 1 then 6 + devices else 7
  }

  function Min(a: int, b: int): int { if a <= b then a else b }

  /**
   * The split in closed form: the two tables grow in turn, the details
   * table first, until the device table has a row per device; after that
   * only the details table grows.
   */
  lemma {:induction false} SplitStepsClosed(k: nat, devices: nat)
    ensures SplitSteps(k, devices).0 == Min(7 + k / 2, DeviceCap(devices))
  {
    if k > 0 {
      SplitStepsClosed(k - 1, devices);
    }
  }

  /** How many lines the loop adds to the 7 and 7 it starts from. */
  function Extra(lineCount: int, statusBarHeight: int, height: int): nat {
    if height - (lineCount + 14 + statusBarHeight) > 0 then height - (lineCount + 14 + statusBarHeight) else 0
  }

  /** Lines 262-272: grow the two tables one line at a time until the page is full. */
  method SplitHeights(lineCount: int, statusBarHeight: int, height: int, devices: nat) returns (device: int, details: int)
    ensures (device, details) == SplitSteps(Extra(lineCount, statusBarHeight, height), devices)
  {
    device, details := 7, 7;
    while lineCount + device + details + statusBarHeight < height
      invariant device + details >= 14 && (device, details) == SplitSteps(device + details - 14, devices)
      invariant lineCount + device + details + statusBarHeight <= height || device + details == 14
      decreases height - (lineCount + device + details + statusBarHeight)
    {
      if device - 6 < devices && device < details {
        device := device + 1;
      } else {
        details := details + 1;
      }
    }
  }

  /**
   * What the split promises: both tables keep at least one row, the two
   * fill the page exactly when it is tall enough, the device table never
   * outgrows the details table nor its devices (beyond the first), and the
   * two differ by at most a line until the device table is full.
   */
  lemma SplitLayout(lineCount: int, statusBarHeight: int, height: int, devices: nat)
    ensures var h := SplitSteps(Extra(lineCount, statusBarHeight, height), devices);
            7 <= h.0 <= h.1 && h.0 <= DeviceCap(devices) &&
            (h.0 < DeviceCap(devices) ==> h.1 <= h.0 + 1) &&
            lineCount + h.0 + h.1 + statusBarHeight == (if height > lineCount + 14 + statusBarHeight then height else lineCount + 14 + statusBarHeight)
  {
    SplitStepsClosed(Extra(lineCount, statusBarHeight, height), devices);
  }

  // ---------------------------------------------------------------- the page

  /** The keys the details pages react to; every other key is `OtherKey`. */
  datatype KeyName = Quit | Enter | Esc | Left | Right | OtherKey

  datatype Msg = Key(key: KeyName) | Other

  /** The number of lines the description takes once wrapped to the page's width. */
  function LineCount(wrapped: string): (n: nat)
    ensures n >= 1
  {
    CountChar(wrapped, '\n') + 1
  }

  class ResourceDetailsPage {
    var item: OptimizationItem
    var deviceTable: Table<Row>
    var detailColumns: seq<Column>
    var detailTable: Table<Row>
    var deviceProperties: map<string, seq<Row>>
    var selectedDevice: string
    var detailTableHasFocus: bool
    var quit: bool
    var height: int
    const optimizations: Optimizations<OptimizationItem>
    const app: App.App

    /** `NewOptimizationDetailsView` (lines 83-93). */
    constructor(optimizations: Optimizations<OptimizationItem>, app: App.App, item: OptimizationItem)
      ensures this.optimizations == optimizations && this.app == app && this.item == item
      ensures !detailTableHasFocus && !quit && selectedDevice == "" && deviceProperties == map[]
    {
      this.optimizations, this.app, this.item := optimizations, app, item;
      deviceTable, detailColumns, detailTable := Table([], [], 0), [], Table([], [], 0);
      deviceProperties, selectedDevice, detailTableHasFocus, quit := map[], "", false, false;
      height := 0;
    }

    /** `OnOpen` (lines 95-184): the tables of the selected item, its devices focused and none selected. */
    method OnOpen(money: int -> string)
      requires optimizations.selectedItem.Some?
      modifies this
      ensures item == optimizations.selectedItem.value
      ensures deviceTable == DeviceTableOf(item, money)
      ensures detailColumns == DetailColumns(UsageDays(item.preferences)) && detailTable == Table(detailColumns, [], 1)
      ensures deviceProperties == ExtractProperties(item.devices, FourColumns)
      ensures !detailTableHasFocus && selectedDevice == ""
      ensures quit == old(quit) && height == old(height)
    {
      var it := optimizations.selectedItem.value;
      var table := DeviceTable(it, money);
      var days := DaysLabel(it.preferences);
      var properties := PropertiesOf(it.devices, FourColumns);
      item := it;
      detailColumns := DetailColumns(days);
      detailTable := Table(detailColumns, [], 1);
      deviceTable := table;
      deviceProperties := properties;
      detailTableHasFocus, selectedDevice := false, "";
    }

    /** Lines 199-238: `q` quits, `enter` focuses the details table, `esc` gives focus back to the devices. */
    method Press(key: KeyName)
      modifies this, app
      ensures quit == (old(quit) || key == Quit)
      ensures detailTableHasFocus == if key == Enter then true else if key == Esc then false else old(detailTableHasFocus)
      ensures app.AppState() == if key == Enter then old(app.AppState()).(ignoreEsc := true)
                                else if key == Esc then old(app.AppState()).(ignoreEsc := false)
                                else old(app.AppState())
      ensures deviceTable == old(deviceTable) && detailTable == old(detailTable) && detailColumns == old(detailColumns)
      ensures selectedDevice == old(selectedDevice) && item == old(item)
      ensures deviceProperties == old(deviceProperties) && height == old(height)
    {
      if key == Quit {
        quit := true;
      } else if key == Enter {
        detailTableHasFocus := true;
        app.SetIgnoreEsc(true);
      } else if key == Esc {
        app.SetIgnoreEsc(false);
        if detailTableHasFocus {
          detailTableHasFocus := false;
        }
      }
    }

    /** Lines 241-260: a newly highlighted device brings its property rows, with the columns fitted to them. */
    method SelectDevice(highlighted: Option<string>)
      modifies this
      ensures highlighted.Some? && highlighted.value != old(selectedDevice) ==>
                var rows := if highlighted.value in deviceProperties then deviceProperties[highlighted.value] else [];
                selectedDevice == highlighted.value &&
                detailTable == old(detailTable).(columns := FittedAll(detailColumns, rows, 2), rows := rows)
      ensures !(highlighted.Some? && highlighted.value != old(selectedDevice)) ==>
                selectedDevice == old(selectedDevice) && detailTable == old(detailTable)
      ensures deviceTable == old(deviceTable) && deviceProperties == old(deviceProperties) && detailColumns == old(detailColumns)
      ensures item == old(item) && detailTableHasFocus == old(detailTableHasFocus) && quit == old(quit) && height == old(height)
    {
      if highlighted.Some? && selectedDevice != highlighted.value {
        selectedDevice := highlighted.value;
        var rows := if selectedDevice in deviceProperties then deviceProperties[selectedDevice] else [];
        var columns := FitColumns(detailColumns, rows, 2);
        detailTable := detailTable.(columns := columns, rows := rows);
      }
    }

    /**
     * `Update` (lines 192-279). The device table's highlighted device after
     * the message and the description wrapped to the page's width are
     * parameters; `q` ends the update at once.
     */
    method Update(msg: Msg, highlighted: Option<string>, wrappedDescription: string, statusBarHeight: int)
      modifies this, app
      ensures quit == (old(quit) || msg == Key(Quit))
      ensures msg != Key(Quit) ==>
                var h := SplitSteps(Extra(LineCount(wrappedDescription), statusBarHeight, height), |deviceProperties|);
                deviceTable.pageSize == h.0 - 6 && detailTable.pageSize == h.1 - 6 &&
                deviceTable.pageSize >= 1 && detailTable.pageSize >= 1
      ensures msg != Key(Quit) && highlighted.Some? && highlighted.value != old(selectedDevice) ==>
                selectedDevice == highlighted.value &&
                detailTable.rows == (if selectedDevice in deviceProperties then deviceProperties[selectedDevice] else [])
      ensures deviceTable.rows == old(deviceTable.rows) && deviceProperties == old(deviceProperties) && item == old(item)
    {
      if msg.Key? {
        Press(msg.key);
        if msg.key == Quit {
          return;
        }
      }
      SelectDevice(highlighted);
      var device, details := SplitHeights(LineCount(wrappedDescription), statusBarHeight, height, |deviceProperties|);
      SplitLayout(LineCount(wrappedDescription), statusBarHeight, height, |deviceProperties|);
      deviceTable, detailTable := deviceTable.(pageSize := device - 6), detailTable.(pageSize := details - 6);
    }
  }
}
