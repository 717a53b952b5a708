/**
 * The overview page of view/page_overview.go: one table row per
 * optimization item with a status or saving cell, column widths fitted to
 * the content, a sort that cycles over the first six columns, and the keys
 * that select an item (for its details or its preferences) or start lazy
 * loading. The table widget itself (paging, scrolling, filtering) is not
 * modelled: the highlighted row's id and the visible row indices are
 * parameters. Costs are integers; their rendering is a parameter.
 */
module OverviewPage {
  import opened Wrappers
  import opened Text
  import opened Proto
  import opened OptimizationsController
  import opened TableColumns
  import App

  /** The column titles (lines 39-47); the seventh column holds only the arrow. */
  const Titles: seq<string> := ["Resource Id", "Resource Name", "Resource Type", "Region", "Platform", "Total Saving (Monthly)", ""]
  /** The column widths the page starts with (lines 39-47). */
  const InitialWidths: seq<int> := [23, 23, 15, 15, 15, 40, 1]
  /** The sort cycles over the first six columns. */
  const SortColumns: int := 6

  /** Loaded, not skipped and not waiting for lazy loading: costs are shown and the item can be opened. */
  predicate Ready(i: OptimizationItem) {
    !i.loading && !i.skipped && !i.lazyLoadingEnabled
  }

  /** The sum of current minus right-sized cost over the devices. */
  function DevicesSaving(devs: seq<Device>): int {
    if devs == [] then 0
    else DevicesSaving(devs[..|devs| - 1]) + (devs[|devs| - 1].currentCost - devs[|devs| - 1].rightSizedCost)
  }

  /** The sum of the current costs over the devices. */
  function DevicesCost(devs: seq<Device>): int {
    if devs == [] then 0 else DevicesCost(devs[..|devs| - 1]) + devs[|devs| - 1].currentCost
  }

  /** Savings add up over the devices of two lists. */
  lemma {:induction false} DevicesSavingAppend(a: seq<Device>, b: seq<Device>)
    ensures DevicesSaving(a + b) == DevicesSaving(a) + DevicesSaving(b)
    ensures DevicesCost(a + b) == DevicesCost(a) + DevicesCost(b)
    decreases |b|
  {
    if b != [] {
      var b' := b[..|b| - 1];
      assert (a + b)[..|a + b| - 1] == a + b';
      DevicesSavingAppend(a, b');
    } else {
      assert a + b == a;
    }
  }

  /** With right-sized costs between zero and the current cost, the saving is between zero and the current cost. */
  lemma {:induction false} DevicesSavingBounds(devs: seq<Device>)
    ensures (forall i :: 0 <= i < |devs| ==> 0 <= devs[i].rightSizedCost <= devs[i].currentCost) ==>
              0 <= DevicesSaving(devs) <= DevicesCost(devs)
  {
    if devs != [] {
      DevicesSavingBounds(devs[..|devs| - 1]);
    }
  }

  /** Lines 113-120: the item's saving and current cost, summed only when it is ready. */
  function ItemTotals(i: OptimizationItem): (r: (int, int))
    ensures !Ready(i) ==> r == (0, 0)
    ensures (forall k :: 0 <= k < |i.devices| ==> 0 <= i.devices[k].rightSizedCost <= i.devices[k].currentCost) ==> 0 <= r.0 <= r.1
  {
    DevicesSavingBounds(i.devices);
    if Ready(i) then (DevicesSaving(i.devices), DevicesCost(i.devices)) else (0, 0)
  }

  /**
   * Lines 130-139: the sixth cell. A skipped item says so, with its reason
   * when there is one; otherwise a lazily loaded item asks for Enter, a
   * loading item says so, and only a ready item shows its saving.
   */
  function StatusCell(i: OptimizationItem, savingText: string): (r: string)
    ensures i.skipped ==> HasPrefix(r, "skipped") && (r == "skipped" <==> i.skipReason == "")
    ensures i.skipped && i.skipReason != "" ==> r == "skipped - " + i.skipReason
    ensures !i.skipped && i.lazyLoadingEnabled ==> r == "press enter to load"
    ensures !i.skipped && !i.lazyLoadingEnabled && i.loading ==> r == "loading"
    ensures Ready(i) ==> r == savingText
  {
    if i.skipped then
      if |i.skipReason| > 0 then "skipped" + " - " + i.skipReason else "skipped"
    else if i.lazyLoadingEnabled then "press enter to load"
    else if i.loading then "loading"
    else savingText
  }

  /** Lines 122-141: an item's row. */
  function RowOf(i: OptimizationItem, render: (int, int) -> string): (r: seq<string>)
    ensures |r| == 7 && r[6] == "→"
    ensures r[0] == i.id && r[1] == i.name && r[2] == i.resourceType && r[3] == i.region && r[4] == i.platform
    ensures r[5] == StatusCell(i, render(ItemTotals(i).0, ItemTotals(i).1))
  {
    [i.id, i.name, i.resourceType, i.region, i.platform, StatusCell(i, render(ItemTotals(i).0, ItemTotals(i).1)), "→"]
  }

  /** The rows of all items, in store order. */
  function RowsOf(items: seq<OptimizationItem>, render: (int, int) -> string): (rs: seq<seq<string>>)
    ensures |rs| == |items| && forall i :: 0 <= i < |items| ==> rs[i] == RowOf(items[i], render)
  {
    seq(|items|, i requires 0 <= i < |items| => RowOf(items[i], render))
  }

  /** Lines 143-160: a column's width, two more than its widest content, except the arrow column, which is 1. */
  function Width(k: nat, rows: seq<seq<string>>, strip: string -> string): (w: int)
    requires k < |Titles|
    ensures k == 6 ==> w == 1
    ensures k != 6 ==> w >= |Titles[k]| + 2
    ensures k != 6 ==> forall i :: 0 <= i < |rows| && k < |rows[i]| ==> w >= CellWidth(rows[i][k], strip) + 2
    ensures k != 6 ==> w == |Titles[k]| + 2 || exists i :: 0 <= i < |rows| && w == CellWidth(ColumnCells(rows, k)[i], strip) + 2
  {
    var cells := ColumnCells(rows, k);
    var width := ContentWidth(Titles[k], cells, strip);
    assert forall i :: 0 <= i < |rows| && k < |rows[i]| ==> cells[i] == rows[i][k];
    (if k == 6 then -1 else width) + 2
  }

  /** The widths of the seven columns. */
  function Widths(rows: seq<seq<string>>, strip: string -> string): (ws: seq<int>)
    ensures |ws| == |Titles| && forall k :: 0 <= k < |Titles| ==> ws[k] == Width(k, rows, strip)
  {
    seq(|Titles|, k requires 0 <= k < |Titles| => Width(k, rows, strip))
  }

  /** Lines 221-229: `s` turns a descending sort ascending, otherwise sorts the next column descending. */
  function NextSort(col: int, desc: bool): (r: (int, bool))
    requires 0 <= col < SortColumns
    ensures 0 <= r.0 < SortColumns
    ensures desc ==> r == (col, false)
    ensures !desc ==> r.1 && r.0 == (if col == SortColumns - 1 then 0 else col + 1)
  {
    if desc then (col, false) else ((col + 1) % SortColumns, true)
  }

  /** The sort state after `k` presses of `s`. */
  function SortPresses(col: int, desc: bool, k: nat): (r: (int, bool))
    requires 0 <= col < SortColumns
    ensures 0 <= r.0 < SortColumns
  {
    if k == 0 then (col, desc)
    else
      var p := SortPresses(col, desc, k - 1);
      NextSort(p.0, p.1)
  }

  /** The column after `x`'s column, wrapping round, is `x + 1`'s column. */
  lemma NextColumn(x: nat)
    ensures (if x % SortColumns == SortColumns - 1 then 0 else x % SortColumns + 1) == (x + 1) % SortColumns
  {
  }

  /** An ascending sort on the column of `x`, then one press: the next column, descending. */
  lemma OnePress(col: int, k: nat)
    requires 0 <= col < SortColumns
    requires SortPresses(col, false, 2 * k) == ((col + k) % SortColumns, false)
    ensures SortPresses(col, false, 2 * k + 1) == ((col + k + 1) % SortColumns, true)
  {
    NextColumn(col + k);
  }

  /** From an ascending sort, every two presses move to the next column, ascending again. */
  lemma {:induction false} SortPressesPairs(col: int, k: nat)
    requires 0 <= col < SortColumns
    ensures SortPresses(col, false, 2 * k) == ((col + k) % SortColumns, false)
    decreases k
  {
    if k > 0 {
      SortPressesPairs(col, k - 1);
      OnePress(col, k - 1);
      assert 2 * (k - 1) + 1 == 2 * k - 1;
    }
  }

  /** Twelve presses of `s` come back to the same column and direction; each column is sorted both ways on the way. */
  lemma SortCycle(col: int)
    requires 0 <= col < SortColumns
    ensures SortPresses(col, false, 12) == (col, false)
    ensures forall k :: 0 <= k < SortColumns ==>
              SortPresses(col, false, 2 * k + 1) == ((col + k + 1) % SortColumns, true) &&
              SortPresses(col, false, 2 * k + 2) == ((col + k + 1) % SortColumns, false)
  {
    SortPressesPairs(col, 6);
    forall k | 0 <= k < SortColumns
      ensures SortPresses(col, false, 2 * k + 1) == ((col + k + 1) % SortColumns, true)
      ensures SortPresses(col, false, 2 * k + 2) == ((col + k + 1) % SortColumns, false)
    {
      SortPressesPairs(col, k);
      OnePress(col, k);
      SortPressesPairs(col, k + 1);
      assert 2 * (k + 1) == 2 * k + 2;
    }
  }

  /** Lines 231-243: the titles with " ↓" or " ↑" on the sort column only. */
  function SortedTitles(col: int, desc: bool): (r: seq<string>)
    ensures |r| == |Titles|
    ensures forall k :: 0 <= k < |Titles| && k != col ==> r[k] == Titles[k]
    ensures 0 <= col < |Titles| ==> r[col] == Titles[col] + (if desc then " ↓" else " ↑")
  {
    seq(|Titles|, k requires 0 <= k < |Titles| => if k == col then Titles[k] + (if desc then " ↓" else " ↑") else Titles[k])
  }

  /** The item with the highlighted id that the `p` and Enter loops stop at. */
  predicate Opens(i: OptimizationItem, id: string) {
    i.id == id && Ready(i)
  }

  /** The position of the first ready item with that id, or the length when there is none. */
  function FirstReadyIndex(items: seq<OptimizationItem>, id: string): (k: nat)
    ensures k <= |items| && forall j :: 0 <= j < k ==> !Opens(items[j], id)
    ensures k < |items| ==> Opens(items[k], id)
  {
    if items == [] then 0
    else if Opens(items[0], id) then 0
    else
      var k := FirstReadyIndex(items[1..], id);
      assert forall j :: 1 <= j < |items| ==> items[j] == items[1..][j - 1];
      1 + k
  }

  /** Lines 185-193 and 262-266: the first ready item with the highlighted id, which `p` and Enter open. */
  function FirstReady(items: seq<OptimizationItem>, id: string): Option<OptimizationItem> {
    var k := FirstReadyIndex(items, id);
    if k < |items| then Some(items[k]) else None
  }

  /** The item opened is the first ready one with that id, and there is none only when no item with that id is ready. */
  lemma FirstReadyIsFirst(items: seq<OptimizationItem>, id: string)
    ensures FirstReady(items, id).None? <==> forall j :: 0 <= j < |items| ==> !Opens(items[j], id)
    ensures FirstReady(items, id).Some? ==>
              exists j :: (0 <= j < |items| && items[j] == FirstReady(items, id).value && Opens(items[j], id) &&
                forall j' :: 0 <= j' < j ==> !Opens(items[j'], id))
  {
  }

  /** An item whose loading has been requested: no longer lazy, loading. */
  function Loaded(i: OptimizationItem): OptimizationItem {
    i.(lazyLoadingEnabled := false, loading := true)
  }

  /** Lines 201-220: the items `r` and `R` send back for loading: every lazy one that is not skipped. */
  function LazyLoads(items: seq<OptimizationItem>): seq<OptimizationItem>
    decreases |items|
  {
    if items == [] then []
    else
      var r := LazyLoads(items[..|items| - 1]);
      var i := items[|items| - 1];
      if !i.skipped && i.lazyLoadingEnabled then r + [Loaded(i)] else r
  }

  /** Only lazy, non-skipped items are sent, each marked as loading. */
  lemma {:induction false} LazyLoadsLoaded(items: seq<OptimizationItem>)
    ensures |LazyLoads(items)| <= |items|
    ensures forall x :: x in LazyLoads(items) ==> x.loading && !x.lazyLoadingEnabled && !x.skipped
  {
    if items != [] {
      LazyLoadsLoaded(items[..|items| - 1]);
    }
  }

  /** Every lazy, non-skipped item is sent for loading. */
  lemma {:induction false} LazyLoadsCover(items: seq<OptimizationItem>, j: int)
    requires 0 <= j < |items| && !items[j].skipped && items[j].lazyLoadingEnabled
    ensures Loaded(items[j]) in LazyLoads(items)
    decreases |items|
  {
    if j < |items| - 1 {
      var init := items[..|items| - 1];
      assert init[j] == items[j];
      LazyLoadsCover(init, j);
    }
  }

  /** Enter's load for one item: the item marked as loading when it has that id, is lazy and is not skipped. */
  function LazyStep(i: OptimizationItem, id: string): (r: seq<OptimizationItem>)
    ensures |r| <= 1
  {
    if i.id == id && !i.skipped && i.lazyLoadingEnabled then [Loaded(i)] else []
  }

  /** The lazy, non-skipped items with that id, each marked as loading. */
  function LazyMatches(items: seq<OptimizationItem>, id: string): seq<OptimizationItem> {
    if items == [] then []
    else
      LazyMatches(items[..|items| - 1], id) + LazyStep(items[|items| - 1], id)
  }

  /** Lines 262-273: Enter loads the lazy items with the highlighted id that come before the first ready one. */
  function EnterLoads(items: seq<OptimizationItem>, id: string): seq<OptimizationItem> {
    LazyMatches(items[..FirstReadyIndex(items, id)], id)
  }

  lemma {:induction false} LazyMatchesLoaded(items: seq<OptimizationItem>, id: string)
    ensures |LazyMatches(items, id)| <= |items|
    ensures forall x :: x in LazyMatches(items, id) ==> x.id == id && x.loading && !x.lazyLoadingEnabled && !x.skipped
  {
    if items != [] {
      LazyMatchesLoaded(items[..|items| - 1], id);
    }
  }

  /** Enter loads only lazy, non-skipped items with the highlighted id, each marked as loading. */
  lemma EnterLoadsLoaded(items: seq<OptimizationItem>, id: string)
    ensures |EnterLoads(items, id)| <= |items|
    ensures forall x :: x in EnterLoads(items, id) ==> x.id == id && x.loading && !x.lazyLoadingEnabled && !x.skipped
  {
    LazyMatchesLoaded(items[..FirstReadyIndex(items, id)], id);
  }

  /** No item with that id: nothing matches. */
  lemma {:induction false} LazyMatchesNone(items: seq<OptimizationItem>, id: string)
    requires forall j :: 0 <= j < |items| ==> items[j].id != id
    ensures LazyMatches(items, id) == []
  {
    if items != [] {
      LazyMatchesNone(items[..|items| - 1], id);
    }
  }

  /** Only item `j` has that id: it alone is loaded, if it is lazy and not skipped. */
  lemma {:induction false} LazyMatchesSingle(items: seq<OptimizationItem>, j: int)
    requires 0 <= j < |items| && forall j' :: 0 <= j' < |items| && j' != j ==> items[j'].id != items[j].id
    ensures LazyMatches(items, items[j].id) == if !items[j].skipped && items[j].lazyLoadingEnabled then [Loaded(items[j])] else []
  {
    var init := items[..|items| - 1];
    if j == |items| - 1 {
      LazyMatchesNone(init, items[j].id);
    } else {
      assert init[j] == items[j];
      LazyMatchesSingle(init, j);
    }
  }

  /** With a single item of that id, Enter loads it if it is lazy, opens it if it is ready, and does neither if it is skipped. */
  lemma EnterOnUnique(items: seq<OptimizationItem>, j: int)
    requires 0 <= j < |items| && forall j' :: 0 <= j' < |items| && j' != j ==> items[j'].id != items[j].id
    ensures !items[j].skipped && items[j].lazyLoadingEnabled ==> EnterLoads(items, items[j].id) == [Loaded(items[j])] && FirstReady(items, items[j].id) == None
    ensures Ready(items[j]) ==> EnterLoads(items, items[j].id) == [] && FirstReady(items, items[j].id) == Some(items[j])
    ensures items[j].skipped ==> EnterLoads(items, items[j].id) == [] && FirstReady(items, items[j].id) == None
  {
    var id := items[j].id;
    var k := FirstReadyIndex(items, id);
    if Ready(items[j]) {
      assert k == j;
      LazyMatchesNone(items[..j], id);
    } else {
      assert k == |items|;
      assert items[..k] == items;
      LazyMatchesSingle(items, j);
    }
  }

  /** With no item of that id, Enter loads and opens nothing. */
  lemma NoneWithId(items: seq<OptimizationItem>, id: string)
    requires forall j :: 0 <= j < |items| ==> items[j].id != id
    ensures EnterLoads(items, id) == [] && FirstReady(items, id) == None
  {
    LazyMatchesNone(items[..FirstReadyIndex(items, id)], id);
  }

  /** The re-evaluation requests for items sent for loading: each with its own preferences. */
  function ReEvalsOf(xs: seq<OptimizationItem>): seq<(string, seq<PreferenceItem>)> {
    if xs == [] then [] else ReEvalsOf(xs[..|xs| - 1]) + [(xs[|xs| - 1].id, xs[|xs| - 1].preferences)]
  }

  /** Requests for two lists of items are the requests for each. */
  lemma {:induction false} ReEvalsOfAppend(a: seq<OptimizationItem>, b: seq<OptimizationItem>)
    ensures ReEvalsOf(a + b) == ReEvalsOf(a) + ReEvalsOf(b)
  {
    if b == [] {
      assert a + b == a;
    } else {
      assert (a + b)[..|a + b| - 1] == a + b[..|b| - 1];
      ReEvalsOfAppend(a, b[..|b| - 1]);
    }
  }

  /** An item as `r`, `R` and Enter leave it: marked as loading when it is lazy and not skipped, otherwise unchanged. */
  function LoadStep(i: OptimizationItem): OptimizationItem {
    if !i.skipped && i.lazyLoadingEnabled then Loaded(i) else i
  }

  /**
   * The store after `r` or `R` over positions `lo` to `hi - 1`: the loop
   * changes those items in place through the store's pointers.
   */
  function MarkLoaded(items: seq<OptimizationItem>, lo: int, hi: int): (r: seq<OptimizationItem>)
    ensures |r| == |items|
  {
    seq(|items|, j requires 0 <= j < |items| => if lo <= j < hi then LoadStep(items[j]) else items[j])
  }

  /** The store after the Enter loop has passed the positions before `hi`, changing the items with that id in place. */
  function MarkMatching(items: seq<OptimizationItem>, id: string, hi: int): (r: seq<OptimizationItem>)
    ensures |r| == |items|
  {
    seq(|items|, j requires 0 <= j < |items| => if j < hi && items[j].id == id then LoadStep(items[j]) else items[j])
  }

  /** The store after Enter: the items with that id before the first ready one are loaded in place. */
  function MarkEnter(items: seq<OptimizationItem>, id: string): (r: seq<OptimizationItem>)
    ensures |r| == |items|
  {
    MarkMatching(items, id, FirstReadyIndex(items, id))
  }

  /** No item is lazy and unskipped: nothing is sent for loading. */
  lemma {:induction false} LazyLoadsNone(items: seq<OptimizationItem>)
    requires forall j :: 0 <= j < |items| ==> items[j].skipped || !items[j].lazyLoadingEnabled
    ensures LazyLoads(items) == []
  {
    if items != [] {
      LazyLoadsNone(items[..|items| - 1]);
    }
  }

  /**
   * `r` and `R` change the items they send in place, so a second press on
   * the same rows before the store is refreshed sends nothing; every item
   * keeps its id and preferences, and no item becomes ready or stops being
   * ready, so `p` and Enter open the same item as before.
   */
  lemma ReloadTwice(items: seq<OptimizationItem>, lo: int, hi: int)
    requires 0 <= lo <= hi <= |items|
    ensures LazyLoads(MarkLoaded(items, lo, hi)[lo..hi]) == []
    ensures forall j :: 0 <= j < |items| ==>
              MarkLoaded(items, lo, hi)[j].id == items[j].id &&
              MarkLoaded(items, lo, hi)[j].preferences == items[j].preferences &&
              (Ready(MarkLoaded(items, lo, hi)[j]) <==> Ready(items[j]))
    ensures forall id :: FirstReady(MarkLoaded(items, lo, hi), id) == FirstReady(items, id)
  {
    var m := MarkLoaded(items, lo, hi);
    LazyLoadsNone(m[lo..hi]);
    forall id
      ensures FirstReady(m, id) == FirstReady(items, id)
    {
      SameReady(items, m, id);
    }
  }

  /** Two stores whose items agree on id and readiness, and agree where ready, open the same item. */
  lemma {:induction false} SameReady(a: seq<OptimizationItem>, b: seq<OptimizationItem>, id: string)
    requires |a| == |b|
    requires forall j :: 0 <= j < |a| ==> a[j].id == b[j].id && (Ready(a[j]) <==> Ready(b[j]))
    requires forall j :: 0 <= j < |a| && Ready(a[j]) ==> a[j] == b[j]
    ensures FirstReadyIndex(a, id) == FirstReadyIndex(b, id)
    ensures FirstReady(a, id) == FirstReady(b, id)
  {
    if a != [] && !Opens(a[0], id) {
      SameReady(a[1..], b[1..], id);
    }
  }

  /**
   * Enter changes the items it sends in place, so pressing it again on
   * the same row before the store is refreshed sends nothing and opens
   * the same item.
   */
  lemma EnterTwice(items: seq<OptimizationItem>, id: string)
    ensures EnterLoads(MarkEnter(items, id), id) == []
    ensures FirstReady(MarkEnter(items, id), id) == FirstReady(items, id)
  {
    var m := MarkEnter(items, id);
    SameReady(items, m, id);
    var k := FirstReadyIndex(m, id);
    var prefix := m[..k];
    assert forall j :: 0 <= j < |prefix| ==> prefix[j] == m[j];
    LazyMatchesNoLazy(prefix, id);
  }

  /** No item with that id is lazy and unskipped: nothing matches. */
  lemma {:induction false} LazyMatchesNoLazy(items: seq<OptimizationItem>, id: string)
    requires forall j :: 0 <= j < |items| && items[j].id == id ==> items[j].skipped || !items[j].lazyLoadingEnabled
    ensures LazyMatches(items, id) == []
  {
    if items != [] {
      LazyMatchesNoLazy(items[..|items| - 1], id);
    }
  }

  /** Lines 203-207: the item at `k` marked as loading in place, sent back and re-evaluated with its own preferences. */
  method SendLoaded(o: Optimizations<OptimizationItem>, k: int)
    requires 0 <= k < |o.items|
    modifies o
    ensures o.items == old(o.items)[k := Loaded(old(o.items)[k])]
    ensures o.itemsQueue == old(o.itemsQueue) + [Loaded(old(o.items)[k])]
    ensures o.reEvaluations == old(o.reEvaluations) + [(old(o.items)[k].id, old(o.items)[k].preferences)]
    ensures o.selectedItem == old(o.selectedItem) && o.initializing == old(o.initializing)
  {
    var i := o.items[k].(lazyLoadingEnabled := false, loading := true);
    o.items := o.items[k := i];
    o.SendItem(i);
    o.ReEvaluate(i.id, i.preferences);
  }

  /** Lines 266-271: the item at `k`, when it has the highlighted id, is lazy and is not skipped, is loaded in place and sent back. */
  method LoadIfLazy(o: Optimizations<OptimizationItem>, k: int, id: string)
    requires 0 <= k < |o.items|
    modifies o
    ensures var i := old(o.items)[k];
            o.items == old(o.items)[k := if i.id == id then LoadStep(i) else i] &&
            o.itemsQueue == old(o.itemsQueue) + LazyStep(i, id) &&
            o.reEvaluations == old(o.reEvaluations) + ReEvalsOf(LazyStep(i, id))
    ensures o.selectedItem == old(o.selectedItem) && o.initializing == old(o.initializing)
  {
    var i := o.items[k];
    if id == i.id && !i.skipped && i.lazyLoadingEnabled {
      SendLoaded(o, k);
    } else {
      assert o.items == o.items[k := i];
    }
  }

  /**
   * The `r`/`R` loop over the store positions `lo` to `hi - 1` (lines
   * 201-220): each lazy, non-skipped item is marked as loading in place,
   * sent back and re-evaluated with its own preferences.
   */
  method LoadLazy(o: Optimizations<OptimizationItem>, lo: int, hi: int)
    requires 0 <= lo <= hi <= |o.items|
    modifies o
    ensures o.items == MarkLoaded(old(o.items), lo, hi)
    ensures o.itemsQueue == old(o.itemsQueue) + LazyLoads(old(o.items)[lo..hi])
    ensures o.reEvaluations == old(o.reEvaluations) + ReEvalsOf(LazyLoads(old(o.items)[lo..hi]))
    ensures o.selectedItem == old(o.selectedItem) && o.initializing == old(o.initializing)
  {
    ghost var items := o.items;
    ghost var sent: seq<OptimizationItem> := [];
    for n := lo to hi
      invariant o.items == MarkLoaded(items, lo, n)
      invariant sent == LazyLoads(items[lo..n])
      invariant o.itemsQueue == old(o.itemsQueue) + sent
      invariant o.reEvaluations == old(o.reEvaluations) + ReEvalsOf(sent)
      invariant o.selectedItem == old(o.selectedItem) && o.initializing == old(o.initializing)
    {
      sent := LoadLazyOne(o, n, items, lo, sent, old(o.itemsQueue), old(o.reEvaluations));
    }
  }

  /** One pass of the `r`/`R` loop body, at position `n`: the loop's invariant is carried from `n` to `n + 1`. */
  method LoadLazyOne(o: Optimizations<OptimizationItem>, n: int, ghost items: seq<OptimizationItem>, ghost lo: int,
                     ghost sent: seq<OptimizationItem>, ghost queue: seq<OptimizationItem>, ghost requests: seq<(string, seq<PreferenceItem>)>)
    returns (ghost sent': seq<OptimizationItem>)
    requires 0 <= lo <= n < |items|
    requires o.items == MarkLoaded(items, lo, n) && sent == LazyLoads(items[lo..n])
    requires o.itemsQueue == queue + sent && o.reEvaluations == requests + ReEvalsOf(sent)
    modifies o
    ensures o.items == MarkLoaded(items, lo, n + 1) && sent' == LazyLoads(items[lo..n + 1])
    ensures o.itemsQueue == queue + sent' && o.reEvaluations == requests + ReEvalsOf(sent')
    ensures o.selectedItem == old(o.selectedItem) && o.initializing == old(o.initializing)
  {
    LoadLazyStep(items, lo, n);
    sent' := sent;
    var i := o.items[n];
    if !i.skipped && i.lazyLoadingEnabled {
      SendLoaded(o, n);
      assert ReEvalsOf(sent + [Loaded(i)]) == ReEvalsOf(sent) + [(i.id, i.preferences)];
      Assoc(queue, sent, [Loaded(i)]);
      Assoc(requests, ReEvalsOf(sent), [(i.id, i.preferences)]);
      sent' := sent + [Loaded(i)];
    }
  }

  /** One more position of the `r`/`R` loop: that item is loaded in place, and sent if it is lazy and not skipped. */
  lemma LoadLazyStep(items: seq<OptimizationItem>, lo: int, n: int)
    requires 0 <= lo <= n < |items|
    ensures MarkLoaded(items, lo, n)[n] == items[n]
    ensures !items[n].skipped && items[n].lazyLoadingEnabled ==>
              MarkLoaded(items, lo, n + 1) == MarkLoaded(items, lo, n)[n := Loaded(items[n])]
    ensures items[n].skipped || !items[n].lazyLoadingEnabled ==> MarkLoaded(items, lo, n + 1) == MarkLoaded(items, lo, n)
    ensures LazyLoads(items[lo..n + 1]) ==
            LazyLoads(items[lo..n]) + if !items[n].skipped && items[n].lazyLoadingEnabled then [Loaded(items[n])] else []
  {
    assert items[lo..n + 1][..n - lo] == items[lo..n];
  }

  /** Lines 211-219: `R` runs the loading loop over the whole store. */
  method LoadAll(o: Optimizations<OptimizationItem>)
    modifies o
    ensures o.items == MarkLoaded(old(o.items), 0, |old(o.items)|)
    ensures o.itemsQueue == old(o.itemsQueue) + LazyLoads(old(o.items))
    ensures o.reEvaluations == old(o.reEvaluations) + ReEvalsOf(LazyLoads(old(o.items)))
    ensures o.selectedItem == old(o.selectedItem) && o.initializing == old(o.initializing)
  {
    LoadLazy(o, 0, |o.items|);
    assert old(o.items)[0..|old(o.items)|] == old(o.items);
  }

  /** The keys the page reacts to (lines 95-254); every other key is `OtherKey`. */
  datatype KeyName = Quit | Preferences | NewPreferences | Reload | ReloadAll | SortKey | FilterKey | Enter | Esc | OtherKey

  /** The key a key-press message names. */
  function KeyOf(name: string): KeyName {
    if name == "q" then Quit
    else if name == "p" then Preferences
    else if name == "P" then NewPreferences
    else if name == "r" then Reload
    else if name == "R" then ReloadAll
    else if name == "s" then SortKey
    else if name == "/" then FilterKey
    else if name == "enter" then Enter
    else if name == "esc" then Esc
    else OtherKey
  }

  datatype Msg = Key(key: KeyName) | Other

  class OverviewPage {
    var focusOnFilter: bool
    var sortColumnIdx: int
    var sortDesc: bool
    var clearScreen: bool
    var quit: bool
    var headers: seq<string>
    var widths: seq<int>
    var rows: seq<seq<string>>
    var pageSize: int
    var height: int
    const optimizations: Optimizations<OptimizationItem>
    const app: App.App

    predicate Valid()
      reads this
    {
      0 <= sortColumnIdx < SortColumns
    }

    /** `NewOptimizationsView` (lines 34-67), with the app it is attached to. */
    constructor(optimizations: Optimizations<OptimizationItem>, app: App.App)
      ensures Valid() && this.optimizations == optimizations && this.app == app
      ensures !focusOnFilter && sortColumnIdx == 0 && !sortDesc && !clearScreen && !quit
      ensures headers == Titles && widths == InitialWidths && rows == [] && pageSize == 10 && height == 0
    {
      this.optimizations, this.app := optimizations, app;
      focusOnFilter, sortColumnIdx, sortDesc, clearScreen, quit := false, 0, false, false, false;
      headers, widths, rows, pageSize, height := Titles, InitialWidths, [], 10, 0;
    }

    /** Lines 111-163: the rows rebuilt from the store and the columns fitted to them. */
    method Rebuild(render: (int, int) -> string, strip: string -> string)
      modifies this
      ensures rows == RowsOf(optimizations.items, render) && headers == Titles && widths == Widths(rows, strip)
      ensures focusOnFilter == old(focusOnFilter) && sortColumnIdx == old(sortColumnIdx) && sortDesc == old(sortDesc)
      ensures clearScreen == old(clearScreen) && quit == old(quit) && pageSize == old(pageSize) && height == old(height)
    {
      var rs := BuildRows(optimizations.items, render);
      var ws := FitWidths(rs, strip);
      rows, headers, widths := rs, Titles, ws;
    }

    /** Lines 221-243: the sort steps on, and the sort column's title shows the direction over the starting widths. */
    method Sort()
      requires Valid()
      modifies this
      ensures Valid() && (sortColumnIdx, sortDesc) == NextSort(old(sortColumnIdx), old(sortDesc))
      ensures headers == SortedTitles(sortColumnIdx, sortDesc) && widths == InitialWidths
      ensures focusOnFilter == old(focusOnFilter) && rows == old(rows) && clearScreen == old(clearScreen)
      ensures quit == old(quit) && pageSize == old(pageSize) && height == old(height)
    {
      if sortDesc {
        sortDesc := false;
      } else {
        sortColumnIdx := (sortColumnIdx + 1) % 6;
        sortDesc := true;
      }
      var names := SortTitles(sortColumnIdx, sortDesc);
      headers, widths := names, InitialWidths;
    }

    /** Lines 95-109: with the filter box open, Esc or Enter closes it and lets the app see Esc again. */
    method CloseFilter(msg: Msg)
      modifies this, app
      ensures focusOnFilter == (old(focusOnFilter) && !(msg == Key(Esc) || msg == Key(Enter)))
      ensures app.AppState() == (if old(focusOnFilter) && !focusOnFilter then old(app.AppState()).(ignoreEsc := false) else old(app.AppState()))
      ensures sortColumnIdx == old(sortColumnIdx) && sortDesc == old(sortDesc) && rows == old(rows) && headers == old(headers)
      ensures widths == old(widths) && clearScreen == old(clearScreen) && quit == old(quit) && pageSize == old(pageSize) && height == old(height)
    {
      if focusOnFilter && (msg == Key(Esc) || msg == Key(Enter)) {
        app.SetIgnoreEsc(false);
        focusOnFilter := false;
      }
    }

    /** Lines 180-254: what a key does to the store, the app and the page. */
    method Press(key: KeyName, highlighted: Option<string>, start: int, end: int)
      requires Valid()
      requires key == Reload ==> 0 <= start <= end + 1 <= |optimizations.items|
      modifies this, optimizations, app
      ensures Valid() && rows == old(rows) && pageSize == old(pageSize) && height == old(height)
      ensures quit == (old(quit) || key == Quit)
      ensures focusOnFilter == (old(focusOnFilter) || key == FilterKey)
      ensures key == FilterKey ==> app.AppState() == old(app.AppState()).(ignoreEsc := true)
      ensures key == SortKey ==> ((sortColumnIdx, sortDesc) == NextSort(old(sortColumnIdx), old(sortDesc)) &&
                headers == SortedTitles(sortColumnIdx, sortDesc) && widths == InitialWidths)
      ensures key != SortKey ==> sortColumnIdx == old(sortColumnIdx) && sortDesc == old(sortDesc) && headers == old(headers) && widths == old(widths)
      ensures key == ReloadAll ==>
                optimizations.itemsQueue == old(optimizations.itemsQueue) + LazyLoads(old(optimizations.items)) &&
                optimizations.items == MarkLoaded(old(optimizations.items), 0, |old(optimizations.items)|)
      ensures key == Reload ==>
                optimizations.itemsQueue == old(optimizations.itemsQueue) + LazyLoads(old(optimizations.items)[start..end + 1]) &&
                optimizations.items == MarkLoaded(old(optimizations.items), start, end + 1)
      ensures (key == Preferences || key == Enter) && highlighted.Some? ==>
                var r := FirstReady(old(optimizations.items), highlighted.value);
                (r.Some? ==> optimizations.selectedItem == r) && (r.None? ==> optimizations.selectedItem == old(optimizations.selectedItem))
      ensures key == Preferences && highlighted.Some? ==>
                clearScreen == (old(clearScreen) || FirstReady(old(optimizations.items), highlighted.value).Some?)
      ensures key == Enter && highlighted.Some? ==>
                optimizations.itemsQueue == old(optimizations.itemsQueue) + EnterLoads(old(optimizations.items), highlighted.value) &&
                optimizations.items == MarkEnter(old(optimizations.items), highlighted.value)
      ensures (highlighted.None? || key != Enter) && key !in {Reload, ReloadAll} ==> optimizations.items == old(optimizations.items)
      ensures key == NewPreferences && highlighted.Some? ==>
                optimizations.selectedItem == None && clearScreen &&
                app.AppState() == App.ChangedPage(old(app.AppState()), App.PagePreferences)
      ensures (highlighted.None? || key !in {Preferences, NewPreferences, Enter}) && key != FilterKey ==>
                optimizations.selectedItem == old(optimizations.selectedItem) && app.AppState() == old(app.AppState()) &&
                clearScreen == old(clearScreen)
      ensures (highlighted.None? || key != Enter) && key !in {Reload, ReloadAll} ==> optimizations.itemsQueue == old(optimizations.itemsQueue)
    {
      if key == Quit {
        quit := true;
      } else if key == SortKey {
        Sort();
      } else if key == FilterKey {
        focusOnFilter := true;
        app.SetIgnoreEsc(true);
      } else if key in {Preferences, NewPreferences, Reload, ReloadAll, Enter} {
        PressOnItems(key, highlighted, start, end);
      }
    }

    /** The keys of lines 183-273 that act on the highlighted row or on the rows shown. */
    method PressOnItems(key: KeyName, highlighted: Option<string>, start: int, end: int)
      requires key in {Preferences, NewPreferences, Reload, ReloadAll, Enter}
      requires key == Reload ==> 0 <= start <= end + 1 <= |optimizations.items|
      modifies this`clearScreen, optimizations, app
      ensures key == ReloadAll ==>
                optimizations.itemsQueue == old(optimizations.itemsQueue) + LazyLoads(old(optimizations.items)) &&
                optimizations.items == MarkLoaded(old(optimizations.items), 0, |old(optimizations.items)|)
      ensures key == Reload ==>
                optimizations.itemsQueue == old(optimizations.itemsQueue) + LazyLoads(old(optimizations.items)[start..end + 1]) &&
                optimizations.items == MarkLoaded(old(optimizations.items), start, end + 1)
      ensures (key == Preferences || key == Enter) && highlighted.Some? ==>
                var r := FirstReady(old(optimizations.items), highlighted.value);
                (r.Some? ==> optimizations.selectedItem == r) && (r.None? ==> optimizations.selectedItem == old(optimizations.selectedItem))
      ensures key == Preferences && highlighted.Some? ==>
                clearScreen == (old(clearScreen) || FirstReady(old(optimizations.items), highlighted.value).Some?)
      ensures key == Enter && highlighted.Some? ==>
                optimizations.itemsQueue == old(optimizations.itemsQueue) + EnterLoads(old(optimizations.items), highlighted.value) &&
                optimizations.items == MarkEnter(old(optimizations.items), highlighted.value)
      ensures (highlighted.None? || key != Enter) && key !in {Reload, ReloadAll} ==> optimizations.items == old(optimizations.items)
      ensures key == NewPreferences && highlighted.Some? ==>
                optimizations.selectedItem == None && clearScreen &&
                app.AppState() == App.ChangedPage(old(app.AppState()), App.PagePreferences)
      ensures highlighted.None? || key == Reload || key == ReloadAll ==>
                optimizations.selectedItem == old(optimizations.selectedItem) && app.AppState() == old(app.AppState()) &&
                clearScreen == old(clearScreen)
      ensures (highlighted.None? || key != Enter) && key !in {Reload, ReloadAll} ==> optimizations.itemsQueue == old(optimizations.itemsQueue)
    {
      if key == Preferences {
        if highlighted.Some? {
          var found := OpenPreferences(optimizations, app, highlighted.value);
          if found {
            clearScreen := true;
          }
        }
      } else if key == NewPreferences {
        if highlighted.Some? {
          optimizations.SelectItem(None);
          app.ChangePage(App.PagePreferences);
          clearScreen := true;
        }
      } else if key == Reload {
        LoadLazy(optimizations, start, end + 1);
      } else if key == ReloadAll {
        LoadAll(optimizations);
      } else if highlighted.Some? {
        OpenDetails(optimizations, app, highlighted.value, App.PageResourceDetails);
      }
    }

    /** Lines 111-292: the table rebuilt, the key applied and the page size set, except after `q`. */
    method TableUpdate(msg: Msg, highlighted: Option<string>, start: int, end: int, statusBarHeight: int,
                       render: (int, int) -> string, strip: string -> string)
      requires Valid()
      requires msg == Key(Reload) ==> 0 <= start <= end + 1 <= |optimizations.items|
      modifies this, optimizations, app
      ensures Valid() && rows == RowsOf(old(optimizations.items), render)
      ensures msg != Key(SortKey) ==>
                sortColumnIdx == old(sortColumnIdx) && sortDesc == old(sortDesc) && headers == Titles && widths == Widths(rows, strip)
      ensures msg == Key(SortKey) ==>
                (sortColumnIdx, sortDesc) == NextSort(old(sortColumnIdx), old(sortDesc)) &&
                headers == SortedTitles(sortColumnIdx, sortDesc) && widths == InitialWidths
      ensures quit == (old(quit) || msg == Key(Quit))
      ensures msg != Key(Quit) ==> pageSize == height - (8 + statusBarHeight)
    {
      Rebuild(render, strip);
      if msg.Key? {
        Press(msg.key, highlighted, start, end);
        if msg.key == Quit {
          return;
        }
      }
      pageSize := height - (8 + statusBarHeight);
    }

    /**
     * `Update` (lines 92-292). With the filter box open only Esc and Enter
     * act. Otherwise the rows and widths are rebuilt from the store, the key
     * acts, and the page size follows the height, except after `q`, which
     * returns before. `highlighted` is the id in the highlighted row, None
     * for an empty table; `start` and `end` are the visible row indices,
     * which the source applies to the store's item list.
     */
    method Update(msg: Msg, highlighted: Option<string>, start: int, end: int, statusBarHeight: int,
                  render: (int, int) -> string, strip: string -> string)
      requires Valid()
      requires !focusOnFilter && msg == Key(Reload) ==> 0 <= start <= end + 1 <= |optimizations.items|
      modifies this, optimizations, app
      ensures Valid()
      ensures old(focusOnFilter) ==>
                focusOnFilter == !(msg == Key(Esc) || msg == Key(Enter)) && rows == old(rows) &&
                sortColumnIdx == old(sortColumnIdx) && sortDesc == old(sortDesc)
      ensures !old(focusOnFilter) ==> rows == RowsOf(old(optimizations.items), render)
      ensures !old(focusOnFilter) && msg == Key(Quit) ==> quit
      ensures !old(focusOnFilter) && msg != Key(Quit) ==> pageSize == height - (8 + statusBarHeight)
    {
      if focusOnFilter {
        CloseFilter(msg);
      } else {
        TableUpdate(msg, highlighted, start, end, statusBarHeight, render, strip);
      }
    }
  }

  /** Lines 122-141: the rows, one per item in store order. */
  method BuildRows(items: seq<OptimizationItem>, render: (int, int) -> string) returns (rs: seq<seq<string>>)
    ensures rs == RowsOf(items, render)
  {
    rs := [];
    for n := 0 to |items|
      invariant rs == RowsOf(items[..n], render)
    {
      rs := rs + [RowOf(items[n], render)];
    }
    assert items[..|items|] == items;
  }

  /** Lines 143-160: the widths of the seven columns. */
  method FitWidths(rs: seq<seq<string>>, strip: string -> string) returns (ws: seq<int>)
    ensures ws == Widths(rs, strip)
  {
    ws := [];
    for idx := 0 to |Titles|
      invariant |ws| == idx && forall k :: 0 <= k < idx ==> ws[k] == Width(k, rs, strip)
    {
      var width: int := MaxWidth(Titles[idx], ColumnCells(rs, idx), strip);
      if idx == 6 {
        width := -1;
      }
      ws := ws + [width + 2];
    }
  }

  /** Lines 231-243: the header titles with the sort arrow. */
  method SortTitles(col: int, desc: bool) returns (names: seq<string>)
    ensures names == SortedTitles(col, desc)
  {
    names := [];
    for idx := 0 to |Titles|
      invariant |names| == idx && forall k :: 0 <= k < idx ==> names[k] == SortedTitles(col, desc)[k]
    {
      var name := Titles[idx];
      if col == idx {
        if desc {
          name := name + " ↓";
        } else {
          name := name + " ↑";
        }
      }
      names := names + [name];
    }
  }

  /** Lines 185-193: `p` opens the preferences of the first ready item with the highlighted id. */
  method OpenPreferences(o: Optimizations<OptimizationItem>, app: App.App, id: string) returns (found: bool)
    modifies o, app
    ensures found <==> FirstReady(old(o.items), id).Some?
    ensures found ==> o.selectedItem == FirstReady(old(o.items), id) && app.AppState() == App.ChangedPage(old(app.AppState()), App.PagePreferences)
    ensures !found ==> o.selectedItem == old(o.selectedItem) && app.AppState() == old(app.AppState())
    ensures o.items == old(o.items) && o.itemsQueue == old(o.itemsQueue) && o.reEvaluations == old(o.reEvaluations)
  {
    var items := o.items;
    var n := 0;
    found := false;
    while n < |items|
      invariant 0 <= n <= FirstReadyIndex(items, id)
      invariant o.items == items && o.selectedItem == old(o.selectedItem) && o.itemsQueue == old(o.itemsQueue)
      invariant o.reEvaluations == old(o.reEvaluations) && app.AppState() == old(app.AppState()) && !found
    {
      var i := items[n];
      if id == i.id && !i.skipped && !i.loading && !i.lazyLoadingEnabled {
        o.SelectItem(Some(i));
        app.ChangePage(App.PagePreferences);
        found := true;
        return;
      }
      n := n + 1;
    }
  }

  /**
   * Lines 262-273: the Enter loop up to the first ready item with that id,
   * loading in place the lazy ones with that id it passes.
   */
  method LoadBeforeReady(o: Optimizations<OptimizationItem>, id: string) returns (n: int)
    modifies o
    ensures n == FirstReadyIndex(old(o.items), id)
    ensures o.items == MarkEnter(old(o.items), id)
    ensures o.itemsQueue == old(o.itemsQueue) + EnterLoads(old(o.items), id)
    ensures o.reEvaluations == old(o.reEvaluations) + ReEvalsOf(EnterLoads(old(o.items), id))
    ensures o.selectedItem == old(o.selectedItem) && o.initializing == old(o.initializing)
  {
    ghost var items := o.items;
    n := 0;
    ghost var sent: seq<OptimizationItem> := [];
    ghost var k := FirstReadyIndex(items, id);
    while n < |o.items| && !Opens(o.items[n], id)
      invariant 0 <= n <= k && sent == LazyMatches(items[..n], id)
      invariant o.items == MarkMatching(items, id, n)
      invariant o.selectedItem == old(o.selectedItem) && o.initializing == old(o.initializing)
      invariant o.itemsQueue == old(o.itemsQueue) + sent
      invariant o.reEvaluations == old(o.reEvaluations) + ReEvalsOf(sent)
    {
      assert items[..n + 1][..n] == items[..n];
      assert MarkMatching(items, id, n + 1) ==
             MarkMatching(items, id, n)[n := if items[n].id == id then LoadStep(items[n]) else items[n]];
      LoadIfLazy(o, n, id);
      ReEvalsOfAppend(sent, LazyStep(items[n], id));
      Assoc(old(o.itemsQueue), sent, LazyStep(items[n], id));
      Assoc(old(o.reEvaluations), ReEvalsOf(sent), ReEvalsOf(LazyStep(items[n], id)));
      sent := sent + LazyStep(items[n], id);
      n := n + 1;
    }
    assert n == k && EnterLoads(items, id) == sent;
  }

  /**
   * Lines 256-273: Enter loads in place the lazy items with the
   * highlighted id up to the first ready one, which it opens on `page`.
   */
  method OpenDetails(o: Optimizations<OptimizationItem>, app: App.App, id: string, page: int)
    modifies o, app
    ensures var r := FirstReady(old(o.items), id);
            (r.Some? ==> o.selectedItem == r && app.AppState() == App.ChangedPage(old(app.AppState()), page)) &&
            (r.None? ==> o.selectedItem == old(o.selectedItem) && app.AppState() == old(app.AppState()))
    ensures o.items == MarkEnter(old(o.items), id)
    ensures o.itemsQueue == old(o.itemsQueue) + EnterLoads(old(o.items), id)
    ensures o.reEvaluations == old(o.reEvaluations) + ReEvalsOf(EnterLoads(old(o.items), id))
    ensures o.initializing == old(o.initializing)
  {
    var n := LoadBeforeReady(o, id);
    if n < |o.items| {
      o.SelectItem(Some(o.items[n]));
      app.ChangePage(page);
    }
  }
}
