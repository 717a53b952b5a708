/**
 * The resource list page of view/page_optimization.go. It shares the row
 * rules, the selection loops and the lazy-loading rule with the overview
 * page; it has no filter box and no sort, it needs a non-empty table for
 * `P`, it opens the details page that is passed in for Enter, and its
 * header sums the costs of every device of every item.
 */
module OptimizationPage {
  import opened Wrappers
  import opened Proto
  import opened OptimizationsController
  import opened OverviewPage
  import App

  /** The saving over every device of every item, whatever the item's state (lines 203-210). */
  function AllSaving(items: seq<OptimizationItem>): int {
    if items == [] then 0 else AllSaving(items[..|items| - 1]) + DevicesSaving(items[|items| - 1].devices)
  }

  /** The current cost over every device of every item (lines 203-210). */
  function AllCost(items: seq<OptimizationItem>): int {
    if items == [] then 0 else AllCost(items[..|items| - 1]) + DevicesCost(items[|items| - 1].devices)
  }

  /** The savings shown in the rows: ready items only (lines 78-86). */
  function RowSaving(items: seq<OptimizationItem>): int {
    if items == [] then 0 else RowSaving(items[..|items| - 1]) + ItemTotals(items[|items| - 1]).0
  }

  /** When every item is ready, the header and the rows agree on the saving. */
  lemma {:induction false} ReadyTotalsAgree(items: seq<OptimizationItem>)
    requires forall i :: 0 <= i < |items| ==> Ready(items[i])
    ensures RowSaving(items) == AllSaving(items)
  {
    if items != [] {
      ReadyTotalsAgree(items[..|items| - 1]);
    }
  }

  /** With right-sized costs between zero and the current cost, the rows never show more saving than the header. */
  lemma {:induction false} RowSavingBounded(items: seq<OptimizationItem>)
    requires forall i, k :: 0 <= i < |items| && 0 <= k < |items[i].devices| ==>
               0 <= items[i].devices[k].rightSizedCost <= items[i].devices[k].currentCost
    ensures 0 <= RowSaving(items) <= AllSaving(items) <= AllCost(items)
  {
    if items != [] {
      var last := items[|items| - 1];
      RowSavingBounded(items[..|items| - 1]);
      DevicesSavingBounds(last.devices);
    }
  }

  class OptimizationPage {
    var clearScreen: bool
    var quit: bool
    var rows: seq<seq<string>>
    var pageSize: int
    var height: int
    const optimizations: Optimizations<OptimizationItem>
    const app: App.App
    /** The page Enter opens; its constant is not part of this model's sources. */
    const detailsPage: int

    /** `NewOptimizationsView` (lines 25-53). */
    constructor(optimizations: Optimizations<OptimizationItem>, app: App.App, detailsPage: int)
      ensures this.optimizations == optimizations && this.app == app && this.detailsPage == detailsPage
      ensures !clearScreen && !quit && rows == [] && pageSize == 10 && height == 0
    {
      this.optimizations, this.app, this.detailsPage := optimizations, app, detailsPage;
      clearScreen, quit, rows, pageSize, height := false, false, [], 10, 0;
    }

    /** Lines 115-180: what a key does; `highlighted` is None for an empty table. */
    method Press(key: KeyName, highlighted: Option<string>, start: int, end: int)
      requires key == Reload ==> 0 <= start <= end + 1 <= |optimizations.items|
      modifies this, optimizations, app
      ensures rows == old(rows) && pageSize == old(pageSize) && height == old(height)
      ensures quit == (old(quit) || key == Quit)
      ensures key == Reload ==>
                optimizations.itemsQueue == old(optimizations.itemsQueue) + LazyLoads(old(optimizations.items)[start..end + 1]) &&
                optimizations.items == MarkLoaded(old(optimizations.items), start, end + 1)
      ensures (key == Preferences || key == Enter) && highlighted.Some? ==>
                var r := FirstReady(old(optimizations.items), highlighted.value);
                (r.Some? ==> optimizations.selectedItem == r) && (r.None? ==> optimizations.selectedItem == old(optimizations.selectedItem))
      ensures key == Preferences && highlighted.Some? ==>
                clearScreen == (old(clearScreen) || FirstReady(old(optimizations.items), highlighted.value).Some?)
      ensures key == Enter && highlighted.Some? ==>
                optimizations.itemsQueue == old(optimizations.itemsQueue) + EnterLoads(old(optimizations.items), highlighted.value) &&
                optimizations.items == MarkEnter(old(optimizations.items), highlighted.value)
      ensures (highlighted.None? || key != Enter) && key != Reload ==> optimizations.items == old(optimizations.items)
      ensures key == NewPreferences && highlighted.Some? ==>
                optimizations.selectedItem == None && clearScreen &&
                app.AppState() == App.ChangedPage(old(app.AppState()), App.PagePreferences)
      ensures highlighted.None? || key !in {Preferences, NewPreferences, Enter} ==>
                optimizations.selectedItem == old(optimizations.selectedItem) && app.AppState() == old(app.AppState()) &&
                clearScreen == old(clearScreen)
      ensures (highlighted.None? || key != Enter) && key != Reload ==> optimizations.itemsQueue == old(optimizations.itemsQueue)
    {
      if key == Quit {
        quit := true;
      } else if key == Preferences {
        if highlighted.Some? {
          var found := OpenPreferences(optimizations, app, highlighted.value);
          if found {
            clearScreen := true;
          }
        }
      } else if key == NewPreferences {
        if highlighted.Some? {
          optimizations.SelectItem(None);
          app.ChangePage(App.PagePreferences);
          clearScreen := true;
        }
      } else if key == Reload {
        LoadLazy(optimizations, start, end + 1);
      } else if key == Enter {
        if highlighted.Some? {
          OpenDetails(optimizations, app, highlighted.value, detailsPage);
        }
      }
    }

    /**
     * `Update` (lines 76-195): the rows are rebuilt from the store, the key
     * acts, and the page size follows the height, except after `q`, which
     * returns before.
     */
    method Update(msg: Msg, highlighted: Option<string>, start: int, end: int, statusBarHeight: int,
                  render: (int, int) -> string)
      requires msg == Key(Reload) ==> 0 <= start <= end + 1 <= |optimizations.items|
      modifies this, optimizations, app
      ensures rows == RowsOf(old(optimizations.items), render)
      ensures quit == (old(quit) || msg == Key(Quit))
      ensures msg != Key(Quit) ==> pageSize == height - (7 + statusBarHeight)
      ensures msg == Key(Quit) ==> pageSize == old(pageSize)
      ensures !msg.Key? ==> (optimizations.itemsQueue == old(optimizations.itemsQueue) && app.AppState() == old(app.AppState()) &&
                optimizations.selectedItem == old(optimizations.selectedItem))
    {
      rows := BuildRows(optimizations.items, render);
      if msg.Key? {
        Press(msg.key, highlighted, start, end);
        if msg.key == Quit {
          return;
        }
      }
      pageSize := height - (7 + statusBarHeight);
    }
  }
}
