/**
 * The overview page for plugins with their own table layout
 * (view/page_overview_plugin_custom.go). The columns come from the plugin's
 * chart definition; `s` cycles over the sortable columns; rows are ordered
 * by the sort column's value with rows lacking one last; a value wider than
 * its declared column marks the layout dirty so that the widths are refitted
 * on the next message. The table widget (paging, filtering, scrolling) is
 * not modelled: the highlighted row's id and the visible row indices are
 * parameters.
 */
module CustomOverviewPage {
  import opened Wrappers
  import opened Text
  import opened Proto
  import opened OptimizationsController
  import opened TableColumns
  import App

  // ---------------------------------------------------------------- sorting

  /** The first sortable column after `from`, or -1 when there is none (lines 256-271). */
  function NextSortable(cols: seq<ChartColumn>, from: int): (r: int)
    requires -1 <= from
    ensures r == -1 || (from < r < |cols| && cols[r].sortable)
    ensures r == -1 ==> forall k :: from < k < |cols| ==> !cols[k].sortable
    ensures r != -1 ==> forall k :: from < k < r ==> !cols[k].sortable
    decreases |cols| - from
  {
    if from + 1 >= |cols| then -1
    else if cols[from + 1].sortable then from + 1
    else NextSortable(cols, from + 1)
  }

  /**
   * Lines 252-274: an ascending sort on a column turns descending; otherwise
   * the sort moves to the next sortable column, ascending, or to no column
   * (-1) past the last one.
   */
  function NextSort(cols: seq<ChartColumn>, col: int, desc: bool): (r: (int, bool))
    requires -1 <= col
    ensures r.0 >= -1
  {
    if col != -1 && !desc then (col, true) else (NextSortable(cols, col), false)
  }

  /** The loop of lines 256-271, with its check against the starting column, which never fires. */
  method CycleSort(cols: seq<ChartColumn>, col: int, desc: bool) returns (newCol: int, newDesc: bool)
    requires -1 <= col
    ensures (newCol, newDesc) == NextSort(cols, col, desc)
  {
    if col != -1 && !desc {
      return col, true;
    }
    newCol := col;
    while true
      invariant col <= newCol && (newCol < |cols| || newCol == col)
      invariant forall k :: col < k <= newCol ==> !cols[k].sortable
      invariant NextSortable(cols, col) == NextSortable(cols, newCol)
      decreases |cols| - newCol
    {
      newCol := newCol + 1;
      if newCol >= |cols| {
        newCol := -1;
        break;
      }
      if cols[newCol].sortable {
        break;
      }
      if newCol == col {
        break;
      }
    }
    newDesc := false;
  }

  /** The number of sortable columns after `from`. */
  function SortableAfter(cols: seq<ChartColumn>, from: int): nat
    requires -1 <= from
    decreases |cols| - from
  {
    if from + 1 >= |cols| then 0
    else (if cols[from + 1].sortable then 1 else 0) + SortableAfter(cols, from + 1)
  }

  /** Each sortable column found leaves one fewer after it. */
  lemma {:induction false} NextSortableCounts(cols: seq<ChartColumn>, from: int)
    requires -1 <= from
    ensures NextSortable(cols, from) == -1 <==> SortableAfter(cols, from) == 0
    ensures NextSortable(cols, from) != -1 ==> SortableAfter(cols, from) == 1 + SortableAfter(cols, NextSortable(cols, from))
    decreases |cols| - from
  {
    if from + 1 < |cols| && !cols[from + 1].sortable {
      NextSortableCounts(cols, from + 1);
    }
  }

  /** The sort state after `k` presses of `s`. */
  function Presses(cols: seq<ChartColumn>, col: int, desc: bool, k: nat): (r: (int, bool))
    requires -1 <= col
    ensures r.0 >= -1
    decreases k
  {
    if k == 0 then (col, desc)
    else
      var n := NextSort(cols, col, desc);
      Presses(cols, n.0, n.1, k - 1)
  }

  /**
   * From a descending sort (or none), each remaining sortable column is
   * sorted ascending and then descending, and one more press clears the sort.
   */
  lemma {:induction false} SortRunsOut(cols: seq<ChartColumn>, col: int)
    requires -1 <= col
    ensures Presses(cols, col, true, 2 * SortableAfter(cols, col) + 1) == (-1, false)
    decreases SortableAfter(cols, col)
  {
    NextSortableCounts(cols, col);
    var n := NextSortable(cols, col);
    if n != -1 {
      var m := SortableAfter(cols, n);
      assert 2 * SortableAfter(cols, col) + 1 == 2 * m + 3;
      assert Presses(cols, col, true, 2 * m + 3) == Presses(cols, n, false, 2 * m + 2);
      assert Presses(cols, n, false, 2 * m + 2) == Presses(cols, n, true, 2 * m + 1);
      SortRunsOut(cols, n);
    }
  }

  /** Starting unsorted, `s` comes back to no sort after two presses per sortable column plus one. */
  lemma SortCycle(cols: seq<ChartColumn>)
    ensures Presses(cols, -1, false, 2 * SortableAfter(cols, -1) + 1) == (-1, false)
  {
    SortRunsOut(cols, -1);
    var k := 2 * SortableAfter(cols, -1) + 1;
    assert Presses(cols, -1, false, k) == Presses(cols, NextSortable(cols, -1), false, k - 1);
    assert Presses(cols, -1, true, k) == Presses(cols, NextSortable(cols, -1), false, k - 1);
  }

  /** Lines 169-172 as written: a sort key is taken only for a column index above 0; an index past the end panics. */
  function SortColumnAsWritten(def: ChartDefinition, idx: int): (r: Result<string>)
    ensures idx <= 0 ==> r == Ok("")
    ensures 0 < idx < |def.columns| ==> r == Ok(def.columns[idx].id)
    ensures idx >= |def.columns| && idx > 0 ==> r.Err?
  {
    if idx > 0 then (if idx < |def.columns| then Ok(def.columns[idx].id) else Err("index out of range")) else Ok("")
  }

  /** The sort key as intended: the sort column's id, for column 0 too, and none when there is no sort. */
  function SortColumn(def: ChartDefinition, idx: int): (r: Result<string>)
    ensures idx < 0 ==> r == Ok("")
    ensures 0 <= idx < |def.columns| ==> r == Ok(def.columns[idx].id)
    ensures idx >= |def.columns| && idx >= 0 ==> r.Err?
  {
    if idx >= 0 then (if idx < |def.columns| then Ok(def.columns[idx].id) else Err("index out of range")) else Ok("")
  }

  /** A sortable first column can be chosen by `s`, but as written the rows are then not sorted by it. */
  lemma FirstColumnNeverSorts(def: ChartDefinition)
    requires |def.columns| > 0 && def.columns[0].sortable && def.columns[0].id != ""
    ensures NextSort(def.columns, -1, false) == (0, false)
    ensures SortColumnAsWritten(def, 0) == Ok("") && SortColumn(def, 0) == Ok(def.columns[0].id)
    ensures SortColumnAsWritten(def, 0) != SortColumn(def, 0)
  {
  }

  /** Both readings agree on every other column. */
  lemma SortColumnsAgreeElsewhere(def: ChartDefinition, idx: int)
    requires idx != 0
    ensures SortColumnAsWritten(def, idx) == SortColumn(def, idx)
  {
  }

  // ---------------------------------------------------------------- rows

  /** A row of the table: its id, the value it sorts by and its trimmed cells by column id. */
  datatype CustomRow = CustomRow(id: string, sortValue: SortValue, cells: map<string, string>)

  /** Lines 174-194: an item's row for the given sort key. */
  function RowOf(item: ChartOptimizationItem, sortColumn: string): (r: CustomRow)
    ensures r.id == item.overviewChartRow.rowId
    ensures r.cells.Keys == item.overviewChartRow.values.Keys
    ensures forall k :: k in r.cells ==> r.cells[k] == TrimSpace(item.overviewChartRow.values[k].value)
    ensures r.sortValue == if sortColumn in item.overviewChartRow.values then item.overviewChartRow.values[sortColumn].sortValue else Unsorted
  {
    var values := item.overviewChartRow.values;
    CustomRow(item.overviewChartRow.rowId,
              if sortColumn in values then values[sortColumn].sortValue else Unsorted,
              map k | k in values :: TrimSpace(values[k].value))
  }

  /** Lines 180-186: a value longer than the width its column declares. */
  predicate TooWide(def: ChartDefinition, values: map<string, ChartRowItem>) {
    exists k, j :: k in values && 0 <= j < |def.columns| && def.columns[j].id == k && def.columns[j].width < |values[k].value|
  }

  /** The rows of the items in store order (lines 173-195). */
  function RowsOf(items: seq<ChartOptimizationItem>, sortColumn: string): (rows: seq<CustomRow>)
    ensures |rows| == |items| && forall i :: 0 <= i < |items| ==> rows[i] == RowOf(items[i], sortColumn)
  {
    if items == [] then [] else RowsOf(items[..|items| - 1], sortColumn) + [RowOf(items[|items| - 1], sortColumn)]
  }

  /** Whether some item has a value too wide for its column. */
  function AnyTooWide(def: ChartDefinition, items: seq<ChartOptimizationItem>): (b: bool)
    ensures b <==> exists i :: 0 <= i < |items| && TooWide(def, items[i].overviewChartRow.values)
  {
    if items == [] then false
    else
      assert forall i :: 0 <= i < |items| - 1 ==> items[..|items| - 1][i] == items[i];
      AnyTooWide(def, items[..|items| - 1]) || TooWide(def, items[|items| - 1].overviewChartRow.values)
  }

  /** The loop of lines 173-195: the rows, and whether a value is too wide for its column. */
  method BuildRows(def: ChartDefinition, items: seq<ChartOptimizationItem>, sortColumn: string)
    returns (rows: seq<CustomRow>, dirty: bool)
    ensures rows == RowsOf(items, sortColumn) && dirty == AnyTooWide(def, items)
  {
    rows, dirty := [], false;
    for n := 0 to |items|
      invariant rows == RowsOf(items[..n], sortColumn) && dirty == AnyTooWide(def, items[..n])
    {
      assert items[..n + 1][..n] == items[..n];
      if TooWide(def, items[n].overviewChartRow.values) {
        dirty := true;
      }
      rows := rows + [RowOf(items[n], sortColumn)];
    }
    assert items[..|items|] == items;
  }

  /** Lines 196-209: the comparison the rows are sorted with. */
  predicate Before(a: CustomRow, b: CustomRow, desc: bool) {
    if a.sortValue.Unsorted? then false
    else if b.sortValue.Unsorted? then true
    else if desc then a.sortValue.v > b.sortValue.v
    else a.sortValue.v < b.sortValue.v
  }

  /** Neither row comes before the other in the wrong order. */
  predicate NotAfter(a: CustomRow, b: CustomRow, desc: bool) {
    !Before(b, a, desc)
  }

  /** Rows in the order the comparison asks for. */
  predicate Ordered(rows: seq<CustomRow>, desc: bool) {
    forall i, j :: 0 <= i < j < |rows| ==> NotAfter(rows[i], rows[j], desc)
  }

  lemma NotAfterTransitive(a: CustomRow, b: CustomRow, c: CustomRow, desc: bool)
    requires NotAfter(a, b, desc) && NotAfter(b, c, desc)
    ensures NotAfter(a, c, desc)
  {
  }

  /** One row placed into ordered rows. */
  function InsertRow(x: CustomRow, rows: seq<CustomRow>, desc: bool): (r: seq<CustomRow>)
    requires Ordered(rows, desc)
    ensures Ordered(r, desc) && multiset(r) == multiset(rows) + multiset{x}
  {
    if rows == [] then [x]
    else if NotAfter(x, rows[0], desc) then
      assert forall j :: 0 < j < |rows| ==> NotAfter(x, rows[j], desc) by {
        forall j | 0 < j < |rows| ensures NotAfter(x, rows[j], desc) {
          NotAfterTransitive(x, rows[0], rows[j], desc);
        }
      }
      [x] + rows
    else
      var rest := InsertRow(x, rows[1..], desc);
      assert rows == [rows[0]] + rows[1..];
      assert forall j :: 0 <= j < |rest| ==> NotAfter(rows[0], rest[j], desc) by {
        forall j | 0 <= j < |rest| ensures NotAfter(rows[0], rest[j], desc) {
          assert rest[j] in multiset(rest);
          if rest[j] != x {
            assert rest[j] in multiset(rows[1..]);
            var k :| 0 <= k < |rows[1..]| && rows[1..][k] == rest[j];
            assert NotAfter(rows[0], rows[k + 1], desc);
          }
        }
      }
      [rows[0]] + rest
  }

  /**
   * The rows in sort order. Go's sort is not stable; this one keeps rows
   * with equal values in store order, which is one of the orders Go may give.
   */
  function SortRows(rows: seq<CustomRow>, desc: bool): (r: seq<CustomRow>)
    ensures Ordered(r, desc)
  {
    if rows == [] then [] else InsertRow(rows[0], SortRows(rows[1..], desc), desc)
  }

  /** Sorting keeps every row, each as often as before. */
  lemma {:induction false} SortRowsPermutes(rows: seq<CustomRow>, desc: bool)
    ensures multiset(SortRows(rows, desc)) == multiset(rows)
  {
    if rows != [] {
      assert rows == [rows[0]] + rows[1..];
      SortRowsPermutes(rows[1..], desc);
    }
  }

  /** In sorted rows, a row without a sort value has only such rows after it, and the others follow the direction. */
  lemma SortedRowsLayout(rows: seq<CustomRow>, desc: bool, i: int, j: int)
    requires Ordered(rows, desc) && 0 <= i < j < |rows|
    ensures rows[i].sortValue.Unsorted? ==> rows[j].sortValue.Unsorted?
    ensures rows[i].sortValue.By? && rows[j].sortValue.By? ==>
              if desc then rows[i].sortValue.v >= rows[j].sortValue.v else rows[i].sortValue.v <= rows[j].sortValue.v
  {
    assert NotAfter(rows[i], rows[j], desc);
  }

  // ---------------------------------------------------------------- columns

  /** The columns as the chart definition declares them (lines 46-50), before any refitting. */
  function DeclaredColumns(def: ChartDefinition): (cs: seq<Column>)
    ensures |cs| == |def.columns|
    ensures forall k :: 0 <= k < |cs| ==> cs[k] == Column(def.columns[k].id, def.columns[k].name, def.columns[k].width)
  {
    seq(|def.columns|, k requires 0 <= k < |def.columns| => Column(def.columns[k].id, def.columns[k].name, def.columns[k].width))
  }

  /** The header of a column, with the direction arrow on the sort column (lines 143-150). */
  function HeaderName(name: string, idx: int, sortIdx: int, desc: bool): (r: string)
    ensures idx != sortIdx ==> r == name
    ensures idx == sortIdx ==> r == name + (if desc then " ↓" else " ↑")
  {
    if idx == sortIdx then name + (if desc then " ↓" else " ↑") else name
  }

  /** The length of a row's cell in a column as the width rule measures it; a missing cell is empty (lines 153-158). */
  function CellLength(row: CustomRow, id: string, strip: string -> string): nat {
    if id in row.cells then |strip(TrimSpace(strip(row.cells[id])))| else 0
  }

  /** The cell lengths of a column, row by row. */
  function CellLengths(rows: seq<CustomRow>, id: string, strip: string -> string): (ls: seq<nat>)
    ensures |ls| == |rows| && forall i :: 0 <= i < |rows| ==> ls[i] == CellLength(rows[i], id, strip)
  {
    if rows == [] then [] else CellLengths(rows[..|rows| - 1], id, strip) + [CellLength(rows[|rows| - 1], id, strip)]
  }

  /** Lines 151-162: the widest of the stripped header and the column's cells. */
  function ColumnWidth(header: string, id: string, rows: seq<CustomRow>, strip: string -> string): (w: nat)
    ensures w >= |strip(header)| && forall i :: 0 <= i < |rows| ==> w >= CellLength(rows[i], id, strip)
    ensures w == |strip(header)| || exists i :: 0 <= i < |rows| && w == CellLength(rows[i], id, strip)
  {
    MaxFrom(|strip(header)|, CellLengths(rows, id, strip))
  }

  /** Lines 141-163: column `k` refitted to the rows, with the sort arrow. */
  function ColumnOf(def: ChartDefinition, k: nat, rows: seq<CustomRow>, sortIdx: int, desc: bool, strip: string -> string): (c: Column)
    requires k < |def.columns|
    ensures c.key == def.columns[k].id && c.title == HeaderName(def.columns[k].name, k, sortIdx, desc)
    ensures c.width >= |strip(c.title)| && forall i :: 0 <= i < |rows| ==> c.width >= CellLength(rows[i], c.key, strip)
  {
    var name := HeaderName(def.columns[k].name, k, sortIdx, desc);
    Column(def.columns[k].id, name, ColumnWidth(name, def.columns[k].id, rows, strip))
  }

  /** Lines 140-167: the columns refitted to the rows, one per declared column. */
  function Columns(def: ChartDefinition, rows: seq<CustomRow>, sortIdx: int, desc: bool, strip: string -> string): (cs: seq<Column>)
    ensures |cs| == |def.columns| && forall k :: 0 <= k < |cs| ==> cs[k] == ColumnOf(def, k, rows, sortIdx, desc, strip)
  {
    seq(|def.columns|, k requires 0 <= k < |def.columns| => ColumnOf(def, k, rows, sortIdx, desc, strip))
  }

  /** The inner loop of lines 151-162. */
  method FitColumn(name: string, id: string, rows: seq<CustomRow>, strip: string -> string) returns (width: nat)
    ensures width == ColumnWidth(name, id, rows, strip)
  {
    width := |strip(name)|;
    ghost var lengths := CellLengths(rows, id, strip);
    for r := 0 to |rows|
      invariant width == MaxFrom(|strip(name)|, lengths[..r])
    {
      assert lengths[..r + 1][..r] == lengths[..r];
      var cellLength := CellLength(rows[r], id, strip);
      if cellLength > width {
        width := cellLength;
      }
    }
    assert lengths[..|rows|] == lengths;
  }

  /** The refitting loop of lines 141-164. */
  method RefitColumns(def: ChartDefinition, rows: seq<CustomRow>, sortIdx: int, desc: bool, strip: string -> string)
    returns (cs: seq<Column>)
    ensures cs == Columns(def, rows, sortIdx, desc, strip)
  {
    cs := [];
    for idx := 0 to |def.columns|
      invariant |cs| == idx && forall k :: 0 <= k < idx ==> cs[k] == ColumnOf(def, k, rows, sortIdx, desc, strip)
    {
      var column := def.columns[idx];
      var name := column.name;
      if idx == sortIdx {
        if desc {
          name := name + " ↓";
        } else {
          name := name + " ↑";
        }
      }
      var width := FitColumn(name, column.id, rows, strip);
      cs := cs + [Column(column.id, name, width)];
    }
  }

  // ---------------------------------------------------------------- summary

  /**
   * Lines 214-231: the summary table's widths, each the widest of its header
   * and the stripped cells below it; a row with more cells than there are
   * headers indexes past the columns, which panics.
   */
  function SummaryWidths(t: ResultSummaryTable, strip: string -> string): (r: Result<seq<nat>>)
    ensures r.Err? <==> exists i :: 0 <= i < |t.message| && |t.message[i].cells| > |t.headers|
    ensures r.Ok? ==> |r.value| == |t.headers| && forall k :: 0 <= k < |t.headers| ==> r.value[k] >= |t.headers[k]|
    ensures r.Ok? ==> forall i, k :: 0 <= i < |t.message| && 0 <= k < |t.message[i].cells| ==> r.value[k] >= |strip(t.message[i].cells[k])|
    decreases |t.message|
  {
    if t.message == [] then Ok(seq(|t.headers|, k requires 0 <= k < |t.headers| => |t.headers[k]|))
    else
      var last := t.message[|t.message| - 1];
      var init := ResultSummaryTable(t.headers, t.message[..|t.message| - 1]);
      assert forall i :: 0 <= i < |t.message| - 1 ==> init.message[i] == t.message[i];
      var prev := SummaryWidths(init, strip);
      if prev.Err? then prev
      else if |last.cells| > |t.headers| then Err("index out of range")
      else Ok(seq(|t.headers|, k requires 0 <= k < |t.headers| =>
                if k < |last.cells| && |strip(last.cells[k])| > prev.value[k] then |strip(last.cells[k])| else prev.value[k]))
  }

  /** Lines 367-373: the summary takes one line, or its rows plus four with a summary table; the page keeps at least one row. */
  function PageSize(height: int, summary: Option<ResultSummaryTable>, statusBarHeight: int): (r: int)
    ensures r >= 1
    ensures summary.None? && height - (8 + statusBarHeight) >= 1 ==> r == height - (8 + statusBarHeight)
    ensures summary.Some? && height - (11 + |summary.value.message| + statusBarHeight) >= 1 ==>
              r == height - (11 + |summary.value.message| + statusBarHeight)
  {
    var summaryHeight := if summary.Some? then |summary.value.message| + 4 else 1;
    var size := height - (7 + summaryHeight + statusBarHeight);
    if size > 1 then size else 1
  }

  // ---------------------------------------------------------------- selection and loading

  /** A loaded item that can be opened. */
  predicate Ready(i: ChartOptimizationItem) {
    !i.loading && !i.skipped && !i.lazyLoadingEnabled
  }

  predicate Opens(i: ChartOptimizationItem, id: string) {
    i.overviewChartRow.rowId == id && Ready(i)
  }

  /** The position of the first ready item with that row id, or the length when there is none. */
  function FirstReadyIndex(items: seq<ChartOptimizationItem>, id: string): (k: nat)
    ensures k <= |items| && forall j :: 0 <= j < k ==> !Opens(items[j], id)
    ensures k < |items| ==> Opens(items[k], id)
  {
    if items == [] then 0
    else if Opens(items[0], id) then 0
    else
      var k := FirstReadyIndex(items[1..], id);
      assert forall j :: 1 <= j < |items| ==> items[j] == items[1..][j - 1];
      1 + k
  }

  /** Lines 288-295 and 340-344: the item `p` and Enter open, if any. */
  function FirstReady(items: seq<ChartOptimizationItem>, id: string): Option<ChartOptimizationItem> {
    var k := FirstReadyIndex(items, id);
    if k < |items| then Some(items[k]) else None
  }

  /** The item opened is the first ready one with that row id, and there is none only when no such item is ready. */
  lemma FirstReadyIsFirst(items: seq<ChartOptimizationItem>, id: string)
    ensures FirstReady(items, id).None? <==> forall j :: 0 <= j < |items| ==> !Opens(items[j], id)
    ensures FirstReady(items, id).Some? ==>
              exists j :: (0 <= j < |items| && items[j] == FirstReady(items, id).value && Opens(items[j], id) &&
                forall j' :: 0 <= j' < j ==> !Opens(items[j'], id))
  {
  }

  function Loaded(i: ChartOptimizationItem): ChartOptimizationItem {
    i.(lazyLoadingEnabled := false, loading := true)
  }

  /** Lines 305-324: `r` and `R` load every lazy item that is not skipped. */
  function LazyLoads(items: seq<ChartOptimizationItem>): seq<ChartOptimizationItem> {
    if items == [] then []
    else
      var i := items[|items| - 1];
      LazyLoads(items[..|items| - 1]) + if !i.skipped && i.lazyLoadingEnabled then [Loaded(i)] else []
  }

  /** Only lazy, non-skipped items are sent, each marked as loading. */
  lemma {:induction false} LazyLoadsLoaded(items: seq<ChartOptimizationItem>)
    ensures |LazyLoads(items)| <= |items|
    ensures forall x :: x in LazyLoads(items) ==> x.loading && !x.lazyLoadingEnabled && !x.skipped
  {
    if items != [] {
      LazyLoadsLoaded(items[..|items| - 1]);
    }
  }

  /** Every lazy item that is not skipped is sent for loading. */
  lemma {:induction false} LazyLoadsCover(items: seq<ChartOptimizationItem>, j: int)
    requires 0 <= j < |items| && !items[j].skipped && items[j].lazyLoadingEnabled
    ensures Loaded(items[j]) in LazyLoads(items)
  {
    if j < |items| - 1 {
      var init := items[..|items| - 1];
      assert init[j] == items[j];
      LazyLoadsCover(init, j);
    }
  }

  /** Lines 345-350: Enter's load for one item: with that row id, not loading and lazy (skipped or not). */
  function EnterStep(i: ChartOptimizationItem, id: string): (r: seq<ChartOptimizationItem>)
    ensures |r| <= 1
  {
    if i.overviewChartRow.rowId == id && !i.loading && i.lazyLoadingEnabled then [Loaded(i)] else []
  }

  function EnterMatches(items: seq<ChartOptimizationItem>, id: string): seq<ChartOptimizationItem> {
    if items == [] then [] else EnterMatches(items[..|items| - 1], id) + EnterStep(items[|items| - 1], id)
  }

  lemma EnterMatchesSnoc(items: seq<ChartOptimizationItem>, n: int, id: string)
    requires 0 <= n < |items|
    ensures EnterMatches(items[..n + 1], id) == EnterMatches(items[..n], id) + EnterStep(items[n], id)
  {
    assert items[..n + 1][..n] == items[..n];
  }

  /** Lines 334-351: Enter loads the lazy items with that row id that come before the first ready one. */
  function EnterLoads(items: seq<ChartOptimizationItem>, id: string): seq<ChartOptimizationItem> {
    EnterMatches(items[..FirstReadyIndex(items, id)], id)
  }

  lemma {:induction false} EnterMatchesLoaded(items: seq<ChartOptimizationItem>, id: string)
    ensures forall x :: x in EnterMatches(items, id) ==> x.overviewChartRow.rowId == id && x.loading && !x.lazyLoadingEnabled
  {
    if items != [] {
      EnterMatchesLoaded(items[..|items| - 1], id);
    }
  }

  /** Enter loads only items with the highlighted row id, each marked as loading. */
  lemma EnterLoadsLoaded(items: seq<ChartOptimizationItem>, id: string)
    ensures forall x :: x in EnterLoads(items, id) ==> x.overviewChartRow.rowId == id && x.loading && !x.lazyLoadingEnabled
  {
    EnterMatchesLoaded(items[..FirstReadyIndex(items, id)], id);
  }

  /** A skipped, lazy item is loaded by Enter on this page, unlike on the built-in overview. */
  lemma EnterLoadsSkippedLazy(item: ChartOptimizationItem)
    requires item.skipped && item.lazyLoadingEnabled && !item.loading
    ensures EnterLoads([item], item.overviewChartRow.rowId) == [Loaded(item)]
    ensures LazyLoads([item]) == []
  {
    var id := item.overviewChartRow.rowId;
    assert !Opens(item, id);
    assert FirstReadyIndex([item], id) == 1;
    assert [item][..1] == [item] && [item][..0] == [];
    assert EnterMatches([item], id) == EnterMatches([], id) + EnterStep(item, id);
    assert LazyLoads([item]) == LazyLoads([]) + [];
  }

  /** Re-evaluation requests keyed by row id. */
  function ReEvalsOf(xs: seq<ChartOptimizationItem>): seq<(string, seq<PreferenceItem>)> {
    if xs == [] then [] else ReEvalsOf(xs[..|xs| - 1]) + [(xs[|xs| - 1].overviewChartRow.rowId, xs[|xs| - 1].preferences)]
  }

  lemma {:induction false} ReEvalsOfAppend(a: seq<ChartOptimizationItem>, b: seq<ChartOptimizationItem>)
    ensures ReEvalsOf(a + b) == ReEvalsOf(a) + ReEvalsOf(b)
  {
    if b == [] {
      assert a + b == a;
    } else {
      assert (a + b)[..|a + b| - 1] == a + b[..|b| - 1];
      ReEvalsOfAppend(a, b[..|b| - 1]);
    }
  }

  /** An item as `r` and `R` leave it: marked as loading when it is lazy and not skipped, otherwise unchanged. */
  function LoadStep(i: ChartOptimizationItem): ChartOptimizationItem {
    if !i.skipped && i.lazyLoadingEnabled then Loaded(i) else i
  }

  /** An item with the row id as Enter leaves it: marked as loading when it is lazy and not loading. */
  function EnterLoadStep(i: ChartOptimizationItem): ChartOptimizationItem {
    if !i.loading && i.lazyLoadingEnabled then Loaded(i) else i
  }

  /** The store after `r` or `R` over positions `lo` to `hi - 1`, changed in place through the store's pointers. */
  function MarkLoaded(items: seq<ChartOptimizationItem>, lo: int, hi: int): (r: seq<ChartOptimizationItem>)
    ensures |r| == |items|
  {
    seq(|items|, j requires 0 <= j < |items| => if lo <= j < hi then LoadStep(items[j]) else items[j])
  }

  /** The store after the Enter loop has passed the positions before `hi`. */
  function MarkMatching(items: seq<ChartOptimizationItem>, id: string, hi: int): (r: seq<ChartOptimizationItem>)
    ensures |r| == |items|
  {
    seq(|items|, j requires 0 <= j < |items| =>
          if j < hi && items[j].overviewChartRow.rowId == id then EnterLoadStep(items[j]) else items[j])
  }

  /** The store after Enter: the items with that row id before the first ready one are loaded in place. */
  function MarkEnter(items: seq<ChartOptimizationItem>, id: string): (r: seq<ChartOptimizationItem>)
    ensures |r| == |items|
  {
    MarkMatching(items, id, FirstReadyIndex(items, id))
  }

  /** No item is lazy and unskipped: nothing is sent for loading. */
  lemma {:induction false} LazyLoadsNone(items: seq<ChartOptimizationItem>)
    requires forall j :: 0 <= j < |items| ==> items[j].skipped || !items[j].lazyLoadingEnabled
    ensures LazyLoads(items) == []
  {
    if items != [] {
      LazyLoadsNone(items[..|items| - 1]);
    }
  }

  /** No item with that row id is lazy and not loading: Enter matches nothing. */
  lemma {:induction false} EnterMatchesNone(items: seq<ChartOptimizationItem>, id: string)
    requires forall j :: 0 <= j < |items| && items[j].overviewChartRow.rowId == id ==>
               items[j].loading || !items[j].lazyLoadingEnabled
    ensures EnterMatches(items, id) == []
  {
    if items != [] {
      EnterMatchesNone(items[..|items| - 1], id);
    }
  }

  /** Two stores whose items agree on row id and readiness, and agree where ready, open the same item. */
  lemma {:induction false} SameReady(a: seq<ChartOptimizationItem>, b: seq<ChartOptimizationItem>, id: string)
    requires |a| == |b|
    requires forall j :: 0 <= j < |a| ==>
               a[j].overviewChartRow.rowId == b[j].overviewChartRow.rowId && (Ready(a[j]) <==> Ready(b[j]))
    requires forall j :: 0 <= j < |a| && Ready(a[j]) ==> a[j] == b[j]
    ensures FirstReadyIndex(a, id) == FirstReadyIndex(b, id)
    ensures FirstReady(a, id) == FirstReady(b, id)
  {
    if a != [] && !Opens(a[0], id) {
      SameReady(a[1..], b[1..], id);
    }
  }

  /**
   * `r` and `R` change the items they send in place, so a second press on
   * the same rows before the store is refreshed sends nothing; every item
   * keeps its row id and preferences, and `p` and Enter open the same
   * item as before.
   */
  lemma ReloadTwice(items: seq<ChartOptimizationItem>, lo: int, hi: int)
    requires 0 <= lo <= hi <= |items|
    ensures LazyLoads(MarkLoaded(items, lo, hi)[lo..hi]) == []
    ensures forall j :: 0 <= j < |items| ==>
              MarkLoaded(items, lo, hi)[j].overviewChartRow.rowId == items[j].overviewChartRow.rowId &&
              MarkLoaded(items, lo, hi)[j].preferences == items[j].preferences &&
              (Ready(MarkLoaded(items, lo, hi)[j]) <==> Ready(items[j]))
    ensures forall id :: FirstReady(MarkLoaded(items, lo, hi), id) == FirstReady(items, id)
  {
    var m := MarkLoaded(items, lo, hi);
    LazyLoadsNone(m[lo..hi]);
    forall id
      ensures FirstReady(m, id) == FirstReady(items, id)
    {
      SameReady(items, m, id);
    }
  }

  /**
   * Enter changes the items it sends in place, so pressing it again on
   * the same row before the store is refreshed sends nothing and opens the
   * same item.
   */
  lemma EnterTwice(items: seq<ChartOptimizationItem>, id: string)
    ensures EnterLoads(MarkEnter(items, id), id) == []
    ensures FirstReady(MarkEnter(items, id), id) == FirstReady(items, id)
  {
    var m := MarkEnter(items, id);
    SameReady(items, m, id);
    var prefix := m[..FirstReadyIndex(m, id)];
    assert forall j :: 0 <= j < |prefix| ==> prefix[j] == m[j];
    EnterMatchesNone(prefix, id);
  }

  /** Lines 308-311 and 347-350: the item at `k` marked as loading in place, sent back and re-evaluated. */
  method SendLoaded(o: Optimizations<ChartOptimizationItem>, k: int)
    requires 0 <= k < |o.items|
    modifies o
    ensures o.items == old(o.items)[k := Loaded(old(o.items)[k])]
    ensures o.itemsQueue == old(o.itemsQueue) + [Loaded(old(o.items)[k])]
    ensures o.reEvaluations == old(o.reEvaluations) + [(old(o.items)[k].overviewChartRow.rowId, old(o.items)[k].preferences)]
    ensures o.selectedItem == old(o.selectedItem) && o.initializing == old(o.initializing)
  {
    var i := o.items[k].(lazyLoadingEnabled := false, loading := true);
    o.items := o.items[k := i];
    o.SendItem(i);
    o.ReEvaluate(i.overviewChartRow.rowId, i.preferences);
  }

  /** The loops of lines 305-324 over the store positions `lo` to `hi - 1`, loading the lazy items in place. */
  method LoadLazy(o: Optimizations<ChartOptimizationItem>, lo: int, hi: int)
    requires 0 <= lo <= hi <= |o.items|
    modifies o
    ensures o.items == MarkLoaded(old(o.items), lo, hi)
    ensures o.itemsQueue == old(o.itemsQueue) + LazyLoads(old(o.items)[lo..hi])
    ensures o.reEvaluations == old(o.reEvaluations) + ReEvalsOf(LazyLoads(old(o.items)[lo..hi]))
    ensures o.selectedItem == old(o.selectedItem) && o.initializing == old(o.initializing)
  {
    ghost var items := o.items;
    ghost var sent: seq<ChartOptimizationItem> := [];
    for n := lo to hi
      invariant o.items == MarkLoaded(items, lo, n)
      invariant sent == LazyLoads(items[lo..n])
      invariant o.itemsQueue == old(o.itemsQueue) + sent
      invariant o.reEvaluations == old(o.reEvaluations) + ReEvalsOf(sent)
      invariant o.selectedItem == old(o.selectedItem) && o.initializing == old(o.initializing)
    {
      sent := LoadLazyOne(o, n, items, lo, sent, old(o.itemsQueue), old(o.reEvaluations));
    }
  }

  /** One pass of the `r`/`R` loop body, at position `n`: the loop's invariant is carried from `n` to `n + 1`. */
  method LoadLazyOne(o: Optimizations<ChartOptimizationItem>, n: int, ghost items: seq<ChartOptimizationItem>, ghost lo: int,
                     ghost sent: seq<ChartOptimizationItem>, ghost queue: seq<ChartOptimizationItem>, ghost requests: seq<(string, seq<PreferenceItem>)>)
    returns (ghost sent': seq<ChartOptimizationItem>)
    requires 0 <= lo <= n < |items|
    requires o.items == MarkLoaded(items, lo, n) && sent == LazyLoads(items[lo..n])
    requires o.itemsQueue == queue + sent && o.reEvaluations == requests + ReEvalsOf(sent)
    modifies o
    ensures o.items == MarkLoaded(items, lo, n + 1) && sent' == LazyLoads(items[lo..n + 1])
    ensures o.itemsQueue == queue + sent' && o.reEvaluations == requests + ReEvalsOf(sent')
    ensures o.selectedItem == old(o.selectedItem) && o.initializing == old(o.initializing)
  {
    LoadLazyStep(items, lo, n);
    sent' := sent;
    var i := o.items[n];
    if !i.skipped && i.lazyLoadingEnabled {
      SendLoaded(o, n);
      assert ReEvalsOf(sent + [Loaded(i)]) == ReEvalsOf(sent) + [(i.overviewChartRow.rowId, i.preferences)];
      Assoc(queue, sent, [Loaded(i)]);
      Assoc(requests, ReEvalsOf(sent), [(i.overviewChartRow.rowId, i.preferences)]);
      sent' := sent + [Loaded(i)];
    }
  }

  /** One more position of the `r`/`R` loop: that item is loaded in place, and sent if it is lazy and not skipped. */
  lemma LoadLazyStep(items: seq<ChartOptimizationItem>, lo: int, n: int)
    requires 0 <= lo <= n < |items|
    ensures MarkLoaded(items, lo, n)[n] == items[n]
    ensures !items[n].skipped && items[n].lazyLoadingEnabled ==>
              MarkLoaded(items, lo, n + 1) == MarkLoaded(items, lo, n)[n := Loaded(items[n])]
    ensures items[n].skipped || !items[n].lazyLoadingEnabled ==> MarkLoaded(items, lo, n + 1) == MarkLoaded(items, lo, n)
    ensures LazyLoads(items[lo..n + 1]) ==
            LazyLoads(items[lo..n]) + if !items[n].skipped && items[n].lazyLoadingEnabled then [Loaded(items[n])] else []
  {
    assert items[lo..n + 1][..n - lo] == items[lo..n];
  }

  /** Lines 315-324: `R` runs the loading loop over the whole store. */
  method LoadAll(o: Optimizations<ChartOptimizationItem>)
    modifies o
    ensures o.items == MarkLoaded(old(o.items), 0, |old(o.items)|)
    ensures o.itemsQueue == old(o.itemsQueue) + LazyLoads(old(o.items))
    ensures o.reEvaluations == old(o.reEvaluations) + ReEvalsOf(LazyLoads(old(o.items)))
    ensures o.selectedItem == old(o.selectedItem) && o.initializing == old(o.initializing)
  {
    LoadLazy(o, 0, |o.items|);
    assert old(o.items)[0..|old(o.items)|] == old(o.items);
  }

  /** Lines 283-295: `p` opens the preferences of the first ready item with the highlighted row id. */
  method OpenPreferences(o: Optimizations<ChartOptimizationItem>, app: App.App, id: string) returns (found: bool)
    modifies o, app
    ensures found <==> FirstReady(old(o.items), id).Some?
    ensures found ==> o.selectedItem == FirstReady(old(o.items), id) && app.AppState() == App.ChangedPage(old(app.AppState()), App.PagePreferences)
    ensures !found ==> o.selectedItem == old(o.selectedItem) && app.AppState() == old(app.AppState())
    ensures o.items == old(o.items) && o.itemsQueue == old(o.itemsQueue) && o.reEvaluations == old(o.reEvaluations)
  {
    var items := o.items;
    var n := 0;
    while n < |items| && !Opens(items[n], id)
      invariant 0 <= n <= FirstReadyIndex(items, id)
    {
      n := n + 1;
    }
    found := n < |items|;
    if found {
      o.SelectItem(Some(items[n]));
      app.ChangePage(App.PagePreferences);
    }
  }

  /** Lines 345-350: the item at `k`, when it has the row id, is lazy and is not loading, is loaded in place and sent back. */
  method LoadIfLazy(o: Optimizations<ChartOptimizationItem>, k: int, id: string)
    requires 0 <= k < |o.items|
    modifies o
    ensures var i := old(o.items)[k];
            o.items == old(o.items)[k := if i.overviewChartRow.rowId == id then EnterLoadStep(i) else i] &&
            o.itemsQueue == old(o.itemsQueue) + EnterStep(i, id) &&
            o.reEvaluations == old(o.reEvaluations) + ReEvalsOf(EnterStep(i, id))
    ensures o.selectedItem == old(o.selectedItem) && o.initializing == old(o.initializing)
  {
    var i := o.items[k];
    if id == i.overviewChartRow.rowId && !i.loading && i.lazyLoadingEnabled {
      SendLoaded(o, k);
    } else {
      assert o.items == o.items[k := i];
    }
  }

  /** The Enter loop up to the first ready item with that row id, loading in place the lazy ones with that id it passes. */
  method LoadBeforeReady(o: Optimizations<ChartOptimizationItem>, id: string) returns (n: int)
    modifies o
    ensures n == FirstReadyIndex(old(o.items), id)
    ensures o.items == MarkEnter(old(o.items), id)
    ensures o.itemsQueue == old(o.itemsQueue) + EnterLoads(old(o.items), id)
    ensures o.reEvaluations == old(o.reEvaluations) + ReEvalsOf(EnterLoads(old(o.items), id))
    ensures o.selectedItem == old(o.selectedItem) && o.initializing == old(o.initializing)
  {
    ghost var items := o.items;
    n := 0;
    ghost var sent: seq<ChartOptimizationItem> := [];
    ghost var k := FirstReadyIndex(items, id);
    while n < |o.items| && !Opens(o.items[n], id)
      invariant 0 <= n <= k && sent == EnterMatches(items[..n], id)
      invariant o.items == MarkMatching(items, id, n)
      invariant o.selectedItem == old(o.selectedItem) && o.initializing == old(o.initializing)
      invariant o.itemsQueue == old(o.itemsQueue) + sent
      invariant o.reEvaluations == old(o.reEvaluations) + ReEvalsOf(sent)
    {
      EnterMatchesSnoc(items, n, id);
      assert MarkMatching(items, id, n + 1) ==
             MarkMatching(items, id, n)[n := if items[n].overviewChartRow.rowId == id then EnterLoadStep(items[n]) else items[n]];
      LoadIfLazy(o, n, id);
      ReEvalsOfAppend(sent, EnterStep(items[n], id));
      Assoc(old(o.itemsQueue), sent, EnterStep(items[n], id));
      Assoc(old(o.reEvaluations), ReEvalsOf(sent), ReEvalsOf(EnterStep(items[n], id)));
      sent := sent + EnterStep(items[n], id);
      n := n + 1;
    }
    assert n == k && EnterLoads(items, id) == sent;
  }

  /** Lines 334-351: Enter loads in place the lazy items before the first ready one, which it opens on the details page. */
  method OpenDetails(o: Optimizations<ChartOptimizationItem>, app: App.App, id: string)
    modifies o, app
    ensures var r := FirstReady(old(o.items), id);
            (r.Some? ==> o.selectedItem == r && app.AppState() == App.ChangedPage(old(app.AppState()), App.PageResourceDetails)) &&
            (r.None? ==> o.selectedItem == old(o.selectedItem) && app.AppState() == old(app.AppState()))
    ensures o.items == MarkEnter(old(o.items), id)
    ensures o.itemsQueue == old(o.itemsQueue) + EnterLoads(old(o.items), id)
    ensures o.reEvaluations == old(o.reEvaluations) + ReEvalsOf(EnterLoads(old(o.items), id))
    ensures o.initializing == old(o.initializing)
  {
    var n := LoadBeforeReady(o, id);
    if n < |o.items| {
      o.SelectItem(Some(o.items[n]));
      app.ChangePage(App.PageResourceDetails);
    }
  }

  // ---------------------------------------------------------------- the page

  /** The keys the page reacts to (lines 241-352); every other key is `OtherKey`. */
  datatype KeyName = Quit | Preferences | NewPreferences | Reload | ReloadAll | SortKey | FilterKey | Enter | Esc | OtherKey

  datatype Msg = Key(key: KeyName) | Other

  class CustomOverviewPage {
    var focusOnFilter: bool
    var sortColumnIdx: int
    var sortDesc: bool
    var rows: seq<CustomRow>
    var columns: seq<Column>
    var chartDefinition: ChartDefinition
    var chartDefinitionDirty: bool
    var summaryWidths: Option<Result<seq<nat>>>
    var clearScreen: bool
    var quit: bool
    /** The panic of an out-of-range sort column, if one happened. */
    var crashed: Option<string>
    var pageSize: int
    var height: int
    const optimizations: Optimizations<ChartOptimizationItem>
    const app: App.App

    predicate Valid()
      reads this
    {
      sortColumnIdx >= -1
    }

    /** `NewPluginCustomOverviewPageView` (lines 40-81): unsorted, with the declared columns. */
    constructor(def: ChartDefinition, optimizations: Optimizations<ChartOptimizationItem>, app: App.App)
      ensures Valid() && this.optimizations == optimizations && this.app == app
      ensures chartDefinition == def && !chartDefinitionDirty && sortColumnIdx == -1 && !sortDesc && !focusOnFilter
      ensures columns == DeclaredColumns(def)
      ensures rows == [] && summaryWidths == None && !clearScreen && !quit && crashed == None && pageSize == 10 && height == 0
    {
      this.optimizations, this.app := optimizations, app;
      chartDefinition, chartDefinitionDirty := def, false;
      sortColumnIdx, sortDesc, focusOnFilter := -1, false, false;
      columns := DeclaredColumns(def);
      rows, summaryWidths, clearScreen, quit, crashed, pageSize, height := [], None, false, false, None, 10, 0;
    }

    /** Lines 83-86: a new chart definition marks the layout dirty. */
    method SetChartDefinition(def: ChartDefinition)
      modifies this
      ensures chartDefinition == def && chartDefinitionDirty
      ensures sortColumnIdx == old(sortColumnIdx) && sortDesc == old(sortDesc) && rows == old(rows) && columns == old(columns)
    {
      chartDefinition := def;
      chartDefinitionDirty := true;
    }

    /** Lines 118-135: with the filter box open, Esc or Enter closes it and lets the app see Esc again. */
    method CloseFilter(msg: Msg)
      modifies this, app
      ensures focusOnFilter == (old(focusOnFilter) && !(msg == Key(Esc) || msg == Key(Enter)))
      ensures app.AppState() == (if old(focusOnFilter) && !focusOnFilter then old(app.AppState()).(ignoreEsc := false) else old(app.AppState()))
      ensures sortColumnIdx == old(sortColumnIdx) && sortDesc == old(sortDesc) && rows == old(rows) && columns == old(columns)
      ensures chartDefinitionDirty == old(chartDefinitionDirty) && quit == old(quit) && pageSize == old(pageSize)
    {
      if focusOnFilter && (msg == Key(Esc) || msg == Key(Enter)) {
        app.SetIgnoreEsc(false);
        focusOnFilter := false;
      }
    }

    /** Lines 140-167: a dirty layout is refitted to the rows of the previous message. */
    method RefitIfDirty(strip: string -> string)
      modifies this
      ensures columns == if old(chartDefinitionDirty) then Columns(chartDefinition, rows, sortColumnIdx, sortDesc, strip) else old(columns)
      ensures !chartDefinitionDirty
      ensures sortColumnIdx == old(sortColumnIdx) && sortDesc == old(sortDesc) && chartDefinition == old(chartDefinition) && rows == old(rows)
      ensures crashed == old(crashed) && summaryWidths == old(summaryWidths) && focusOnFilter == old(focusOnFilter)
      ensures clearScreen == old(clearScreen) && quit == old(quit) && pageSize == old(pageSize) && height == old(height)
    {
      if chartDefinitionDirty {
        columns := RefitColumns(chartDefinition, rows, sortColumnIdx, sortDesc, strip);
      }
      chartDefinitionDirty := false;
    }

    /** Lines 211-237: the summary table's widths, when the store has a summary table. */
    method TakeSummaryWidths(strip: string -> string)
      modifies this
      ensures summaryWidths == if optimizations.summaryTable.Some? then Some(SummaryWidths(optimizations.summaryTable.value, strip)) else old(summaryWidths)
      ensures sortColumnIdx == old(sortColumnIdx) && sortDesc == old(sortDesc) && chartDefinition == old(chartDefinition) && columns == old(columns)
      ensures rows == old(rows) && chartDefinitionDirty == old(chartDefinitionDirty) && crashed == old(crashed)
      ensures focusOnFilter == old(focusOnFilter) && clearScreen == old(clearScreen) && quit == old(quit)
      ensures pageSize == old(pageSize) && height == old(height)
    {
      if optimizations.summaryTable.Some? {
        summaryWidths := Some(SummaryWidths(optimizations.summaryTable.value, strip));
      }
    }

    /** Lines 168-210: the rows rebuilt from the store and sorted. */
    method RebuildRows()
      modifies this
      ensures var key := SortColumn(chartDefinition, sortColumnIdx);
              (key.Err? ==> crashed == Some(key.error) && rows == old(rows) && chartDefinitionDirty == old(chartDefinitionDirty)) &&
              (key.Ok? ==> (crashed == old(crashed) &&
                 chartDefinitionDirty == AnyTooWide(chartDefinition, optimizations.items) &&
                 rows == SortRows(RowsOf(optimizations.items, key.value), sortDesc)))
      ensures summaryWidths == old(summaryWidths)
      ensures sortColumnIdx == old(sortColumnIdx) && sortDesc == old(sortDesc) && chartDefinition == old(chartDefinition) && columns == old(columns)
      ensures focusOnFilter == old(focusOnFilter) && clearScreen == old(clearScreen) && quit == old(quit)
      ensures pageSize == old(pageSize) && height == old(height)
    {
      var key := SortColumn(chartDefinition, sortColumnIdx);
      if key.Err? {
        crashed := Some(key.error);
      } else {
        var built, dirty := BuildRows(chartDefinition, optimizations.items, key.value);
        chartDefinitionDirty := dirty;
        rows := SortRows(built, sortDesc);
      }
    }

    /** Lines 240-352: what a key does to the store, the app and the page. */
    method Press(key: KeyName, highlighted: Option<string>, start: int, end: int)
      requires Valid()
      requires key == Reload ==> 0 <= start <= end + 1 <= |optimizations.items|
      modifies this, optimizations, app
      ensures Valid() && rows == old(rows) && columns == old(columns) && pageSize == old(pageSize) && height == old(height)
      ensures quit == (old(quit) || key == Quit)
      ensures focusOnFilter == (old(focusOnFilter) || key == FilterKey)
      ensures key == FilterKey ==> app.AppState() == old(app.AppState()).(ignoreEsc := true)
      ensures key == SortKey ==> (sortColumnIdx, sortDesc) == NextSort(chartDefinition.columns, old(sortColumnIdx), old(sortDesc)) && chartDefinitionDirty
      ensures key != SortKey ==> sortColumnIdx == old(sortColumnIdx) && sortDesc == old(sortDesc) && chartDefinitionDirty == old(chartDefinitionDirty)
      ensures chartDefinition == old(chartDefinition)
      ensures key == ReloadAll ==>
                optimizations.itemsQueue == old(optimizations.itemsQueue) + LazyLoads(old(optimizations.items)) &&
                optimizations.items == MarkLoaded(old(optimizations.items), 0, |old(optimizations.items)|)
      ensures key == Reload ==>
                optimizations.itemsQueue == old(optimizations.itemsQueue) + LazyLoads(old(optimizations.items)[start..end + 1]) &&
                optimizations.items == MarkLoaded(old(optimizations.items), start, end + 1)
      ensures (key == Preferences || key == Enter) && highlighted.Some? ==>
                var r := FirstReady(old(optimizations.items), highlighted.value);
                (r.Some? ==> optimizations.selectedItem == r) && (r.None? ==> optimizations.selectedItem == old(optimizations.selectedItem))
      ensures key == Preferences && highlighted.Some? ==>
                clearScreen == (old(clearScreen) || FirstReady(old(optimizations.items), highlighted.value).Some?)
      ensures key == Enter && highlighted.Some? ==>
                optimizations.itemsQueue == old(optimizations.itemsQueue) + EnterLoads(old(optimizations.items), highlighted.value) &&
                optimizations.items == MarkEnter(old(optimizations.items), highlighted.value)
      ensures (highlighted.None? || key != Enter) && key !in {Reload, ReloadAll} ==> optimizations.items == old(optimizations.items)
      ensures key == NewPreferences && highlighted.Some? ==>
                optimizations.selectedItem == None && clearScreen &&
                app.AppState() == App.ChangedPage(old(app.AppState()), App.PagePreferences)
      ensures (highlighted.None? || key !in {Preferences, NewPreferences, Enter}) && key != FilterKey ==>
                optimizations.selectedItem == old(optimizations.selectedItem) && app.AppState() == old(app.AppState()) &&
                clearScreen == old(clearScreen)
      ensures (highlighted.None? || key != Enter) && key !in {Reload, ReloadAll} ==> optimizations.itemsQueue == old(optimizations.itemsQueue)
    {
      if key == SortKey {
        sortColumnIdx, sortDesc := CycleSort(chartDefinition.columns, sortColumnIdx, sortDesc);
        chartDefinitionDirty := true;
      } else if key == FilterKey {
        focusOnFilter := true;
        app.SetIgnoreEsc(true);
      } else if key == Quit {
        quit := true;
      } else if key in {Preferences, NewPreferences, Reload, ReloadAll, Enter} {
        PressOnItems(key, highlighted, start, end);
      }
    }

    /** The keys of lines 266-352 that act on the highlighted row or on the rows shown. */
    method PressOnItems(key: KeyName, highlighted: Option<string>, start: int, end: int)
      requires key in {Preferences, NewPreferences, Reload, ReloadAll, Enter}
      requires key == Reload ==> 0 <= start <= end + 1 <= |optimizations.items|
      modifies this`clearScreen, optimizations, app
      ensures key == ReloadAll ==>
                optimizations.itemsQueue == old(optimizations.itemsQueue) + LazyLoads(old(optimizations.items)) &&
                optimizations.items == MarkLoaded(old(optimizations.items), 0, |old(optimizations.items)|)
      ensures key == Reload ==>
                optimizations.itemsQueue == old(optimizations.itemsQueue) + LazyLoads(old(optimizations.items)[start..end + 1]) &&
                optimizations.items == MarkLoaded(old(optimizations.items), start, end + 1)
      ensures (key == Preferences || key == Enter) && highlighted.Some? ==>
                var r := FirstReady(old(optimizations.items), highlighted.value);
                (r.Some? ==> optimizations.selectedItem == r) && (r.None? ==> optimizations.selectedItem == old(optimizations.selectedItem))
      ensures key == Preferences && highlighted.Some? ==>
                clearScreen == (old(clearScreen) || FirstReady(old(optimizations.items), highlighted.value).Some?)
      ensures key == Enter && highlighted.Some? ==>
                optimizations.itemsQueue == old(optimizations.itemsQueue) + EnterLoads(old(optimizations.items), highlighted.value) &&
                optimizations.items == MarkEnter(old(optimizations.items), highlighted.value)
      ensures (highlighted.None? || key != Enter) && key !in {Reload, ReloadAll} ==> optimizations.items == old(optimizations.items)
      ensures key == NewPreferences && highlighted.Some? ==>
                optimizations.selectedItem == None && clearScreen &&
                app.AppState() == App.ChangedPage(old(app.AppState()), App.PagePreferences)
      ensures highlighted.None? || key == Reload || key == ReloadAll ==>
                optimizations.selectedItem == old(optimizations.selectedItem) && app.AppState() == old(app.AppState()) &&
                clearScreen == old(clearScreen)
      ensures (highlighted.None? || key != Enter) && key !in {Reload, ReloadAll} ==> optimizations.itemsQueue == old(optimizations.itemsQueue)
    {
      if key == Preferences {
        if highlighted.Some? {
          var found := OpenPreferences(optimizations, app, highlighted.value);
          if found {
            clearScreen := true;
          }
        }
      } else if key == NewPreferences {
        if highlighted.Some? {
          optimizations.SelectItem(None);
          app.ChangePage(App.PagePreferences);
          clearScreen := true;
        }
      } else if key == Reload {
        LoadLazy(optimizations, start, end + 1);
      } else if key == ReloadAll {
        LoadAll(optimizations);
      } else if highlighted.Some? {
        OpenDetails(optimizations, app, highlighted.value);
      }
    }

    /** Lines 111-375 outside the filter box: refresh, key, then the page size, except after `q` or a panic. */
    method TableUpdate(msg: Msg, highlighted: Option<string>, start: int, end: int, statusBarHeight: int, strip: string -> string)
      requires Valid()
      requires msg == Key(Reload) ==> 0 <= start <= end + 1 <= |optimizations.items|
      modifies this, optimizations, app
      ensures Valid()
      ensures crashed == old(crashed) && msg != Key(Quit) ==>
                pageSize == PageSize(height, optimizations.summaryTable, statusBarHeight)
      ensures msg == Key(SortKey) && crashed == old(crashed) ==>
                (sortColumnIdx, sortDesc) == NextSort(chartDefinition.columns, old(sortColumnIdx), old(sortDesc)) && chartDefinitionDirty
    {
      var before := crashed;
      RefitIfDirty(strip);
      RebuildRows();
      TakeSummaryWidths(strip);
      if crashed != before {
        return;
      }
      if msg.Key? {
        Press(msg.key, highlighted, start, end);
        if msg.key == Quit {
          return;
        }
      }
      pageSize := PageSize(height, optimizations.summaryTable, statusBarHeight);
    }

    /** `Update` (lines 111-375). */
    method Update(msg: Msg, highlighted: Option<string>, start: int, end: int, statusBarHeight: int, strip: string -> string)
      requires Valid()
      requires !focusOnFilter && msg == Key(Reload) ==> 0 <= start <= end + 1 <= |optimizations.items|
      modifies this, optimizations, app
      ensures Valid()
      ensures old(focusOnFilter) ==>
                focusOnFilter == !(msg == Key(Esc) || msg == Key(Enter)) && rows == old(rows) &&
                sortColumnIdx == old(sortColumnIdx) && sortDesc == old(sortDesc)
    {
      if focusOnFilter {
        CloseFilter(msg);
      } else {
        TableUpdate(msg, highlighted, start, end, statusBarHeight, strip);
      }
    }
  }
}
