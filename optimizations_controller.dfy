/**
 * The item store of controller/optimization.go, generic over the two kinds
 * of optimization item, each identified by a key (an item's Id, or the row
 * id of a chart item's overview row). Items, summaries and summary tables
 * arrive on channels, modelled as queues; the goroutines and atomics around
 * the per-message steps are not modelled, and the in-process counters,
 * which a step raises and lowers again, are zero between steps.
 */
module OptimizationsController {
  import opened Wrappers
  import opened Proto

  predicate HasKey<T>(items: seq<T>, key: T -> string, k: string) {
    exists i | 0 <= i < |items| :: key(items[i]) == k
  }

  /**
   * The store after an incoming item: every slot with the same key holds the
   * new item (the loop's `break` only leaves the type switch, so the scan
   * goes on), and with no such slot the item is appended.
   */
  function Upsert<T>(items: seq<T>, x: T, key: T -> string): (r: seq<T>)
    ensures HasKey(items, key, key(x)) ==> |r| == |items|
    ensures !HasKey(items, key, key(x)) ==> r == items + [x]
    ensures forall i :: 0 <= i < |items| ==> r[i] == (if key(items[i]) == key(x) then x else items[i])
  {
    var replaced := seq(|items|, i requires 0 <= i < |items| => if key(items[i]) == key(x) then x else items[i]);
    if HasKey(items, key, key(x)) then replaced else items + [x]
  }

  /** The store grows by at most one slot, and the new item is always in it. */
  lemma UpsertGrowsByAtMostOne<T>(items: seq<T>, x: T, key: T -> string)
    ensures |items| <= |Upsert(items, x, key)| <= |items| + 1
    ensures x in Upsert(items, x, key)
  {
    var r := Upsert(items, x, key);
    if HasKey(items, key, key(x)) {
      var i :| 0 <= i < |items| && key(items[i]) == key(x);
      assert r[i] == x;
    } else {
      assert r[|items|] == x;
    }
  }

  /** Sending the same item twice leaves the store as sending it once. */
  lemma UpsertIdempotent<T>(items: seq<T>, x: T, key: T -> string)
    ensures Upsert(Upsert(items, x, key), x, key) == Upsert(items, x, key)
  {
    var once := Upsert(items, x, key);
    UpsertGrowsByAtMostOne(items, x, key);
    var i :| 0 <= i < |once| && once[i] == x;
    assert HasKey(once, key, key(x));
  }

  /** The keys of the store after an upsert are the keys before plus the new item's key. */
  lemma UpsertKeys<T>(items: seq<T>, x: T, key: T -> string, k: string)
    ensures HasKey(Upsert(items, x, key), key, k) <==> HasKey(items, key, k) || k == key(x)
  {
    var r := Upsert(items, x, key);
    if HasKey(items, key, k) {
      var i :| 0 <= i < |items| && key(items[i]) == k;
      assert key(r[i]) == k;
    }
    if k == key(x) {
      UpsertGrowsByAtMostOne(items, x, key);
      var i :| 0 <= i < |r| && r[i] == x;
    }
    if HasKey(r, key, k) {
      var i :| 0 <= i < |r| && key(r[i]) == k;
      if i < |items| && key(items[i]) != key(x) {
        assert key(items[i]) == k;
      }
    }
  }

  class Optimizations<T> {
    const key: T -> string
    /** The items sent and not yet taken (`itemsChan`). */
    var itemsQueue: seq<T>
    var items: seq<T>
    var summaryQueue: seq<string>
    var summaryTableQueue: seq<ResultSummaryTable>
    var summary: string
    var summaryTable: Option<ResultSummaryTable>
    var selectedItem: Option<T>
    var initializing: bool
    /** The re-evaluation requests passed on to the plugin, oldest first (`reEvaluateFunc` calls). */
    var reEvaluations: seq<(string, seq<PreferenceItem>)>

    /** `NewOptimizations` (lines 25-37): no items, initializing. */
    constructor(key: T -> string)
      ensures this.key == key
      ensures itemsQueue == [] && items == [] && summaryQueue == [] && summaryTableQueue == []
      ensures summary == "" && summaryTable == None && selectedItem == None && initializing
      ensures reEvaluations == []
    {
      this.key := key;
      itemsQueue, items := [], [];
      summaryQueue, summaryTableQueue := [], [];
      summary, summaryTable, selectedItem := "", None, None;
      initializing := true;
      reEvaluations := [];
    }

    /** One pass of `Process` (lines 47-75): take the next item, end the initialization, upsert it. */
    method ReceiveItem()
      requires |itemsQueue| > 0
      modifies this
      ensures items == Upsert(old(items), old(itemsQueue[0]), key)
      ensures !initializing
      ensures itemsQueue == old(itemsQueue[1..])
      ensures summaryQueue == old(summaryQueue) && summaryTableQueue == old(summaryTableQueue)
      ensures summary == old(summary) && summaryTable == old(summaryTable) && selectedItem == old(selectedItem) && reEvaluations == old(reEvaluations)
    {
      var newItem := itemsQueue[0];
      itemsQueue := itemsQueue[1..];
      if initializing {
        initializing := false;
      }
      var updated := false;
      var store := items;
      for idx := 0 to |store|
        invariant |store| == |items|
        invariant forall i :: 0 <= i < idx ==> store[i] == (if key(items[i]) == key(newItem) then newItem else items[i])
        invariant forall i :: idx <= i < |store| ==> store[i] == items[i]
        invariant updated <==> exists i | 0 <= i < idx :: key(items[i]) == key(newItem)
      {
        if key(newItem) == key(store[idx]) {
          store := store[idx := newItem];
          updated := true;
        }
      }
      if !updated {
        store := store + [newItem];
      }
      items := store;
    }

    /** The summary case of `SummaryProcess` (lines 88-91). */
    method ReceiveSummary()
      requires |summaryQueue| > 0
      modifies this
      ensures summary == old(summaryQueue[0]) && summaryQueue == old(summaryQueue[1..])
      ensures items == old(items) && itemsQueue == old(itemsQueue) && summaryTableQueue == old(summaryTableQueue)
      ensures summaryTable == old(summaryTable) && selectedItem == old(selectedItem) && reEvaluations == old(reEvaluations) && initializing == old(initializing)
    {
      summary := summaryQueue[0];
      summaryQueue := summaryQueue[1..];
    }

    /** The summary-table case of `SummaryProcess` (lines 93-96). */
    method ReceiveSummaryTable()
      requires |summaryTableQueue| > 0
      modifies this
      ensures summaryTable == Some(old(summaryTableQueue[0])) && summaryTableQueue == old(summaryTableQueue[1..])
      ensures items == old(items) && itemsQueue == old(itemsQueue) && summaryQueue == old(summaryQueue)
      ensures summary == old(summary) && selectedItem == old(selectedItem) && reEvaluations == old(reEvaluations) && initializing == old(initializing)
    {
      summaryTable := Some(summaryTableQueue[0]);
      summaryTableQueue := summaryTableQueue[1..];
    }

    /** `SendItem` (lines 101-103). */
    method SendItem(item: T)
      modifies this
      ensures itemsQueue == old(itemsQueue) + [item]
      ensures items == old(items) && initializing == old(initializing) && selectedItem == old(selectedItem) && reEvaluations == old(reEvaluations)
      ensures summaryQueue == old(summaryQueue) && summaryTableQueue == old(summaryTableQueue)
      ensures summary == old(summary) && summaryTable == old(summaryTable)
    {
      itemsQueue := itemsQueue + [item];
    }

    /** `SetResultSummary` (lines 133-135): the summary is queued for `SummaryProcess`. */
    method SetResultSummary(msg: string)
      modifies this
      ensures summaryQueue == old(summaryQueue) + [msg] && summary == old(summary)
      ensures items == old(items) && itemsQueue == old(itemsQueue) && summaryTableQueue == old(summaryTableQueue)
      ensures summaryTable == old(summaryTable) && selectedItem == old(selectedItem) && reEvaluations == old(reEvaluations)
      ensures initializing == old(initializing)
    {
      summaryQueue := summaryQueue + [msg];
    }

    /** `SetResultSummaryTable` (lines 137-139): the table is queued for `SummaryProcess`. */
    method SetResultSummaryTable(msg: ResultSummaryTable)
      modifies this
      ensures summaryTableQueue == old(summaryTableQueue) + [msg] && summaryTable == old(summaryTable)
      ensures items == old(items) && itemsQueue == old(itemsQueue) && summaryQueue == old(summaryQueue)
      ensures summary == old(summary) && selectedItem == old(selectedItem) && reEvaluations == old(reEvaluations)
      ensures initializing == old(initializing)
    {
      summaryTableQueue := summaryTableQueue + [msg];
    }

    /** `ReEvaluate` (lines 121-123): the request is passed on, nothing else changes. */
    method ReEvaluate(id: string, preferences: seq<PreferenceItem>)
      modifies this
      ensures reEvaluations == old(reEvaluations) + [(id, preferences)]
      ensures items == old(items) && itemsQueue == old(itemsQueue) && initializing == old(initializing)
      ensures summaryQueue == old(summaryQueue) && summaryTableQueue == old(summaryTableQueue)
      ensures summary == old(summary) && summaryTable == old(summaryTable) && selectedItem == old(selectedItem)
    {
      reEvaluations := reEvaluations + [(id, preferences)];
    }

    /** `SelectItem` (lines 113-115): what `SelectedItem` then returns; `None` clears the selection. */
    method SelectItem(i: Option<T>)
      modifies this
      ensures selectedItem == i
      ensures items == old(items) && itemsQueue == old(itemsQueue) && initializing == old(initializing)
      ensures summaryQueue == old(summaryQueue) && summaryTableQueue == old(summaryTableQueue)
      ensures summary == old(summary) && summaryTable == old(summaryTable) && reEvaluations == old(reEvaluations)
    {
      selectedItem := i;
    }

    /** `SetInitialization` (lines 129-131): the only way back to initializing. */
    method SetInitialization(b: bool)
      modifies this
      ensures initializing == b
      ensures items == old(items) && itemsQueue == old(itemsQueue) && selectedItem == old(selectedItem) && reEvaluations == old(reEvaluations)
      ensures summaryQueue == old(summaryQueue) && summaryTableQueue == old(summaryTableQueue)
      ensures summary == old(summary) && summaryTable == old(summaryTable)
    {
      initializing := b;
    }

    /**
     * `IsProcessing` (lines 149-172): work is pending while a queue holds a
     * message or the first item has not arrived (the in-process counters are
     * zero between steps).
     */
    predicate IsProcessing()
      reads this
    {
      |itemsQueue| > 0 || |summaryQueue| > 0 || |summaryTableQueue| > 0 || initializing
    }
  }

  /**
   * Sending an item and taking it leaves the store upserted, initialization
   * over and, once every queue is drained, the store idle.
   */
  method SendThenReceive<T>(o: Optimizations<T>, x: T)
    requires o.itemsQueue == []
    modifies o
    ensures o.items == Upsert(old(o.items), x, o.key)
    ensures o.summaryQueue == [] && o.summaryTableQueue == [] ==> !o.IsProcessing()
  {
    o.SendItem(x);
    o.ReceiveItem();
  }

  /**
   * A summary sent and then taken is the one `GetResultSummary` returns, the
   * items untouched; likewise for a summary table.
   */
  method SummariesThenReceive<T>(o: Optimizations<T>, msg: string, table: ResultSummaryTable)
    requires o.summaryQueue == [] && o.summaryTableQueue == []
    modifies o
    ensures o.summary == msg && o.summaryTable == Some(table)
    ensures o.items == old(o.items) && o.summaryQueue == [] && o.summaryTableQueue == []
    ensures o.itemsQueue == [] && !old(o.initializing) ==> !o.IsProcessing()
  {
    o.SetResultSummary(msg);
    o.ReceiveSummary();
    o.SetResultSummaryTable(table);
    o.ReceiveSummaryTable();
  }
}
