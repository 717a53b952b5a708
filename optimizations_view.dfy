/**
 * The optimization list of view/view_optimizations.go: items arrive on a
 * queue and are upserted on every tick, each shown as a row with its saving
 * or its state; `p` and `P` open the preference editor for one or for all
 * items, `enter`/`→` opens the details view of a loaded item, and the list
 * splits its height greedily between the table and the help box. The open
 * editor or details view is recorded by what it was opened for; its own
 * behaviour is modelled in its module, and its minimum height and
 * responsiveness are parameters here.
 */
module OptimizationsView {
  import opened Wrappers
  import opened Proto
  import opened TableColumns
  import opened ItemStore
  import opened Greedy
  import OverviewPage
  import OptimizationPage
  import HelpView

  /** The table's columns (lines 34-42). */
  const Columns: seq<Column> :=
    [Column("0", "Resource Id", 23), Column("1", "Resource Name", 23), Column("2", "Resource Type", 15),
     Column("3", "Region", 15), Column("4", "Platform", 15), Column("5", "Total Saving (Monthly)", 40), Column("6", "", 1)]

  /** The help lines (lines 54-60). */
  const HelpLines: seq<string> :=
    ["↑/↓: move", "enter/→: see details", "p: change preferences for one item", "P: change preferences for all items", "q/ctrl+c: exit"]

  /** Items are matched by their id. */
  function Id(i: OptimizationItem): string { i.id }

  // ---------------------------------------------------------------- rows

  /**
   * Lines 110-131: the sixth cell. A loading item says so; otherwise a
   * skipped one says so, with its reason when there is one; otherwise the
   * saving over its devices is shown through `money`.
   */
  function SavingCell(i: OptimizationItem, money: int -> string): (r: string)
    ensures i.loading ==> r == "loading"
    ensures !i.loading && i.skipped ==> (r == "skipped" <==> i.skipReason == "")
    ensures !i.loading && i.skipped && i.skipReason != "" ==> r == "skipped - " + i.skipReason
    ensures !i.loading && !i.skipped ==> r == money(OverviewPage.DevicesSaving(i.devices))
  {
    var saving := if !i.loading && !i.skipped then OverviewPage.DevicesSaving(i.devices) else 0;
    if i.loading then "loading"
    else if i.skipped then (if |i.skipReason| > 0 then "skipped" + " - " + i.skipReason else "skipped")
    else money(saving)
  }

  /** Lines 108-134: an item's row, ending with the arrow cell. */
  function RowOf(i: OptimizationItem, money: int -> string): (r: seq<string>)
    ensures |r| == |Columns| && r[6] == "→"
    ensures r[0] == i.id && r[1] == i.name && r[2] == i.resourceType && r[3] == i.region && r[4] == i.platform
    ensures r[5] == SavingCell(i, money)
  {
    [i.id, i.name, i.resourceType, i.region, i.platform, SavingCell(i, money), "→"]
  }

  function RowsOf(items: seq<OptimizationItem>, money: int -> string): (rs: seq<seq<string>>)
    ensures |rs| == |items|
  {
    seq(|items|, k requires 0 <= k < |items| => RowOf(items[k], money))
  }

  /** The row loop of lines 108-134. */
  method BuildRows(items: seq<OptimizationItem>, money: int -> string) returns (rows: seq<seq<string>>)
    ensures rows == RowsOf(items, money)
  {
    rows := [];
    for k := 0 to |items|
      invariant rows == RowsOf(items[..k], money)
    {
      rows := rows + [RowOf(items[k], money)];
    }
    assert items[..|items|] == items;
  }

  /**
   * The loop of lines 92-142: the queued items are taken one by one, each
   * upserted and followed by a rebuild of the rows; with nothing queued the
   * rows stay as they were.
   */
  method Drain(items: seq<OptimizationItem>, queue: seq<OptimizationItem>, rows: seq<seq<string>>, money: int -> string)
    returns (r: seq<OptimizationItem>, rs: seq<seq<string>>)
    ensures r == UpsertEach(items, queue, Id)
    ensures queue != [] ==> rs == RowsOf(r, money)
    ensures queue == [] ==> rs == rows
  {
    r, rs := items, rows;
    for n := 0 to |queue|
      invariant UpsertEach(r, queue[n..], Id) == UpsertEach(items, queue, Id)
      invariant n > 0 ==> rs == RowsOf(r, money)
      invariant n == 0 ==> rs == rows
    {
      assert queue[n..][1..] == queue[n + 1..];
      r := Upsert(r, queue[n], Id);
      rs := BuildRows(r, money);
    }
  }

  // ---------------------------------------------------------------- selection

  /** An item the details view opens for: the highlighted one, neither skipped nor loading (line 197). */
  predicate Opens(i: OptimizationItem, id: string) {
    i.id == id && !i.skipped && !i.loading
  }

  /** The index of the first item `enter` opens, or the length when there is none. */
  function FirstOpenable(items: seq<OptimizationItem>, id: string): (k: nat)
    ensures k <= |items| && (k < |items| ==> Opens(items[k], id))
    ensures forall j :: 0 <= j < k ==> !Opens(items[j], id)
  {
    if items == [] then 0 else if Opens(items[0], id) then 0 else 1 + FirstOpenable(items[1..], id)
  }

  /** The loop of lines 196-205. */
  method FindOpenable(items: seq<OptimizationItem>, id: string) returns (k: nat)
    ensures k == FirstOpenable(items, id)
  {
    k := 0;
    while k < |items| && !Opens(items[k], id)
      invariant k <= |items| && forall j :: 0 <= j < k ==> !Opens(items[j], id)
    {
      k := k + 1;
    }
    FirstOpenableUnique(items, id, k);
  }

  lemma FirstOpenableUnique(items: seq<OptimizationItem>, id: string, k: int)
    requires 0 <= k <= |items| && (k < |items| ==> Opens(items[k], id))
    requires forall j :: 0 <= j < k ==> !Opens(items[j], id)
    ensures FirstOpenable(items, id) == k
  {
  }

  // ---------------------------------------------------------------- re-evaluation

  /** An item as the editor sends it back: the new preferences, loading again (lines 157-158, 179-180). */
  function Reloaded(i: OptimizationItem, prefs: seq<PreferenceItem>): (r: OptimizationItem)
    ensures r.id == i.id && r.preferences == prefs && r.loading
  {
    i.(preferences := prefs, loading := true)
  }

  /** Every item reloaded with the same preferences, in store order (lines 178-183). */
  function ReloadedAll(items: seq<OptimizationItem>, prefs: seq<PreferenceItem>): (r: seq<OptimizationItem>)
    ensures |r| == |items| && forall k :: 0 <= k < |items| ==> r[k] == Reloaded(items[k], prefs)
  {
    seq(|items|, k requires 0 <= k < |items| => Reloaded(items[k], prefs))
  }

  /** The re-evaluation requests for items: their ids with the preferences. */
  function ReEvaluations(items: seq<OptimizationItem>, prefs: seq<PreferenceItem>): (r: seq<(string, seq<PreferenceItem>)>)
    ensures |r| == |items| && forall k :: 0 <= k < |items| ==> r[k] == (items[k].id, prefs)
  {
    seq(|items|, k requires 0 <= k < |items| => (items[k].id, prefs))
  }

  /** The loop of the `P` editor's callback (lines 178-183): each item in turn reloaded, and its re-evaluation request. */
  method ReloadEach(items: seq<OptimizationItem>, prefs: seq<PreferenceItem>)
    returns (reloaded: seq<OptimizationItem>, requests: seq<(string, seq<PreferenceItem>)>)
    ensures reloaded == ReloadedAll(items, prefs) && requests == ReEvaluations(items, prefs)
  {
    reloaded, requests := items, [];
    for k := 0 to |items|
      invariant |reloaded| == |items| && |requests| == k
      invariant forall j :: 0 <= j < |items| ==> reloaded[j] == if j < k then Reloaded(items[j], prefs) else items[j]
      invariant forall j :: 0 <= j < k ==> requests[j] == (items[j].id, prefs)
    {
      var i := Reloaded(reloaded[k], prefs);
      reloaded := reloaded[k := i];
      requests := requests + [(i.id, prefs)];
    }
  }

  /**
   * Closing the editor opened by `P` changes every item in place and queues
   * the same items; the tick that delivers them, in a store without repeated
   * ids, leaves the items as the close left them. Delivered to the items as
   * they were before the close, they give the same result.
   */
  lemma ReloadAllThenTick(items: seq<OptimizationItem>, prefs: seq<PreferenceItem>)
    requires DistinctKeys(items, Id)
    ensures UpsertEach(ReloadedAll(items, prefs), ReloadedAll(items, prefs), Id) == ReloadedAll(items, prefs)
    ensures UpsertEach(items, ReloadedAll(items, prefs), Id) == ReloadedAll(items, prefs)
  {
    var reloaded := ReloadedAll(items, prefs);
    assert forall i :: 0 <= i < |items| ==> Id(reloaded[i]) == Id(items[i]);
    UpsertEachPointwise(reloaded, reloaded, Id);
    UpsertEachPointwise(items, reloaded, Id);
  }

  // ---------------------------------------------------------------- layout

  /**
   * Lines 266-299: the table starts at 8 lines and the help box at its
   * minimum; the table needs at least 7 lines. It grows to 11, then the help
   * box to its maximum, then the table to 30.
   */
  function ListLimits(height: int, helpMax: int): Limits {
    Limits(height, 8, 0, 7, 0, true, 11, helpMax, 30)
  }

  /**
   * With at least the list's minimum height (8 lines) the table keeps 8 to
   * 30 lines, so its page shows 1 to 23 rows, the help box gets at most its
   * maximum, and together they fit; below that the start is kept.
   */
  lemma ListLayoutBounds(height: int, helpMax: int)
    requires helpMax >= 0
    ensures var h := Layout(ListLimits(height, helpMax));
            (height >= 8 ==> 8 <= h.first <= 30 && 0 <= h.second <= helpMax && h.first + h.second <= height) &&
            (height < 8 ==> h == Heights(8, 0))
  {
    LayoutFits(ListLimits(height, helpMax));
    LayoutBounds(ListLimits(height, helpMax));
  }

  /** The messages the list reacts to. */
  datatype KeyName = Quit | Prefs | AllPrefs | Enter | Right | OtherKey
  datatype Msg = WindowSize(width: int) | Tick | Key(key: KeyName) | Other

  /** What the list has open in its place, and for which item. */
  datatype SubView = NoSubView | PreferencesFor(item: OptimizationItem) | PreferencesForAll | Details(item: OptimizationItem)

  /** The open editor's or details view's own minimum height and responsiveness. */
  datatype SubLayout = SubLayout(minHeight: int, responsive: bool)

  class OptimizationsView {
    var items: seq<OptimizationItem>
    /** Items sent and not yet taken by a tick (`itemsChan`). */
    var queue: seq<OptimizationItem>
    var rows: seq<seq<string>>
    var pageSize: int
    var subView: SubView
    /** The height last handed to the open editor or details view. */
    var subViewHeight: int
    var clearScreen: bool
    var reEvaluations: seq<(string, seq<PreferenceItem>)>
    var width: int
    var height: int
    var tableHeight: int
    var quit: bool
    const help: HelpView.HelpView

    /** `NewOptimizationsView` (lines 33-63). */
    constructor()
      ensures items == [] && queue == [] && rows == [] && pageSize == 10 && subView == NoSubView
      ensures fresh(help) && help.lines == HelpLines && help.height == 0
      ensures !clearScreen && !quit && reEvaluations == [] && width == 0 && height == 0 && tableHeight == 0
    {
      items, queue, rows, pageSize := [], [], [], 10;
      subView, subViewHeight, clearScreen, reEvaluations := NoSubView, 0, false, [];
      width, height, tableHeight, quit := 0, 0, 0, false;
      help := new HelpView.HelpView(HelpLines);
    }

    /** `SendItem` (lines 246-248). */
    method SendItem(item: OptimizationItem)
      modifies this
      ensures queue == old(queue) + [item] && items == old(items) && rows == old(rows) && subView == old(subView)
    {
      queue := queue + [item];
    }

    /** The tick (lines 91-143): every queued item is upserted in arrival order and the rows are rebuilt. */
    method Tick(money: int -> string)
      modifies this
      ensures items == UpsertEach(old(items), old(queue), Id) && queue == []
      ensures old(queue) != [] ==> rows == RowsOf(items, money)
      ensures old(queue) == [] ==> rows == old(rows)
      ensures subView == old(subView) && pageSize == old(pageSize) && reEvaluations == old(reEvaluations)
      ensures clearScreen == old(clearScreen) && quit == old(quit) && height == old(height)
    {
      var drained, newRows := Drain(items, queue, rows, money);
      items, rows, queue := drained, newRows, [];
    }

    /**
     * `UpdateResponsive` (lines 250-300). With an editor or details view
     * open it gets the whole height; otherwise the greedy split runs. The
     * table's page is always its height less 7.
     */
    method UpdateResponsive()
      modifies this, help
      ensures subView != NoSubView ==> tableHeight == height && subViewHeight == height && help.height == old(help.height)
      ensures subView == NoSubView ==> Heights(tableHeight, help.height) == Layout(ListLimits(height, help.MaxHeight()))
      ensures pageSize == tableHeight - 7 && help.lines == old(help.lines)
      ensures items == old(items) && queue == old(queue) && rows == old(rows) && subView == old(subView)
      ensures clearScreen == old(clearScreen) && reEvaluations == old(reEvaluations) && quit == old(quit)
      ensures height == old(height) && width == old(width)
    {
      if subView != NoSubView {
        tableHeight := height;
        subViewHeight := tableHeight;
      } else {
        help.SetHeight(help.MinHeight());
        var h := Grow(Limits(height, 8, help.MinHeight(), 7, help.MinHeight(), true, 11, help.MaxHeight(), 30));
        tableHeight := h.first;
        help.SetHeight(h.second);
      }
      pageSize := tableHeight - 7;
    }

    /** `SetHeight` (lines 302-305). */
    method SetHeight(h: int)
      modifies this, help
      ensures height == h && items == old(items) && queue == old(queue) && subView == old(subView)
      ensures subView == NoSubView ==> Heights(tableHeight, help.height) == Layout(ListLimits(h, help.MaxHeight()))
      ensures subView != NoSubView ==> tableHeight == h && subViewHeight == h
      ensures pageSize == tableHeight - 7 && help.lines == old(help.lines)
    {
      height := h;
      UpdateResponsive();
    }

    /** `MinHeight` (lines 307-315): the open view's, else the help box's minimum and 8 lines of table. */
    function MinHeight(sub: SubLayout): int
      reads this
    {
      if subView != NoSubView then sub.minHeight else help.MinHeight() + 7 + 1
    }

    /** `PreferredMinHeight` (lines 317-319). */
    function PreferredMinHeight(): int { 15 }

    /** `MaxHeight` (lines 321-323). */
    function MaxHeight(): int
      reads this, help
    {
      help.MaxHeight() + 30
    }

    /** `IsResponsive` (lines 325-333). */
    predicate IsResponsive(sub: SubLayout)
      reads this
    {
      (subView == NoSubView || sub.responsive) && height >= MinHeight(sub)
    }

    /**
     * The keys (lines 145-208): `q` quits; with rows in the table, `p`
     * opens the editor for the first item with the highlighted id, `P` for
     * all items, and `enter`/`→` the details of the first such item that is
     * neither skipped nor loading; each of these then re-splits the height.
     */
    method Press(key: KeyName, highlighted: string)
      modifies this, help
      ensures quit == (old(quit) || key == Quit)
      ensures key == Prefs && old(rows) != [] ==>
                var k := FirstWith(items, Id, highlighted);
                subView == (if k < |items| then PreferencesFor(items[k]) else old(subView))
      ensures key == AllPrefs && old(rows) != [] ==> subView == PreferencesForAll
      ensures key in {Enter, Right} && old(rows) != [] ==>
                var k := FirstOpenable(items, highlighted);
                subView == (if k < |items| then Details(items[k]) else old(subView))
      ensures key in {Quit, OtherKey} || old(rows) == [] ==> subView == old(subView)
      ensures items == old(items) && queue == old(queue) && rows == old(rows) && height == old(height)
      ensures reEvaluations == old(reEvaluations) && clearScreen == old(clearScreen)
    {
      if key == Quit {
        quit := true;
        return;
      }
      if key == OtherKey || rows == [] {
        return;
      }
      if key == Prefs {
        var k := Find(items, Id, highlighted);
        if k < |items| {
          subView := PreferencesFor(items[k]);
        }
      } else if key == AllPrefs {
        subView := PreferencesForAll;
      } else {
        var k := FindOpenable(items, highlighted);
        if k < |items| {
          subView := Details(items[k]);
        }
      }
      UpdateResponsive();
    }

    /**
     * The editor's closing callback (lines 156-167 for one item, 177-186
     * for all): each item concerned goes back on the queue with the new
     * preferences and loading, and is re-evaluated; the screen is cleared
     * once and the height re-split. For all items the list's own items are
     * changed in place before they are queued.
     */
    method ClosePreferences(prefs: seq<PreferenceItem>)
      requires subView.PreferencesFor? || subView == PreferencesForAll
      modifies this, help
      ensures old(subView).PreferencesFor? ==>
                queue == old(queue) + [Reloaded(old(subView).item, prefs)] &&
                reEvaluations == old(reEvaluations) + [(old(subView).item.id, prefs)] &&
                items == old(items)
      ensures old(subView) == PreferencesForAll ==>
                items == ReloadedAll(old(items), prefs) &&
                queue == old(queue) + ReloadedAll(old(items), prefs) &&
                reEvaluations == old(reEvaluations) + ReEvaluations(old(items), prefs)
      ensures subView == NoSubView && clearScreen && height == old(height)
      ensures Heights(tableHeight, help.height) == Layout(ListLimits(height, help.MaxHeight()))
    {
      if subView.PreferencesFor? {
        var i := subView.item;
        queue := queue + [Reloaded(i, prefs)];
        reEvaluations := reEvaluations + [(i.id, prefs)];
      } else {
        var reloaded, requests := ReloadEach(items, prefs);
        items, queue, reEvaluations := reloaded, queue + reloaded, reEvaluations + requests;
      }
      subView := NoSubView;
      clearScreen := true;
      UpdateResponsive();
    }

    /** The details view's closing callback (lines 198-201). */
    method CloseDetails()
      requires subView.Details?
      modifies this, help
      ensures subView == NoSubView && items == old(items) && queue == old(queue) && height == old(height)
      ensures Heights(tableHeight, help.height) == Layout(ListLimits(height, help.MaxHeight()))
    {
      subView := NoSubView;
      UpdateResponsive();
    }

    /**
     * `View` (lines 219-244): once after the editor closes, nothing;
     * otherwise the open view's text, or the totals over every device of
     * every item above the table and the help box. The table's and the open
     * view's renderings are parameters.
     */
    method View(money: int -> string, tableText: string, subText: string) returns (s: string)
      modifies this
      ensures old(clearScreen) ==> s == "" && !clearScreen
      ensures !old(clearScreen) && subView != NoSubView ==> s == subText && !clearScreen
      ensures !old(clearScreen) && subView == NoSubView ==>
                s == "Current runtime cost: " + money(OptimizationPage.AllCost(items)) + ", Savings: " +
                     money(OptimizationPage.AllSaving(items)) + "\n" + tableText + "\n" + HelpView.Render(help.lines, help.height)
      ensures items == old(items) && queue == old(queue) && subView == old(subView) && rows == old(rows)
    {
      if clearScreen {
        clearScreen := false;
        return "";
      }
      if subView != NoSubView {
        return subText;
      }
      var helpText := help.String();
      s := "Current runtime cost: " + money(OptimizationPage.AllCost(items)) + ", Savings: " +
           money(OptimizationPage.AllSaving(items)) + "\n" + tableText + "\n" + helpText;
    }

    /**
     * `Update` (lines 71-217). A new width is recorded; with an editor or
     * details view open every message goes to it. Otherwise a new window
     * size re-splits the height, a tick takes the queued items and a key is
     * handled as above. The highlighted row's id is a parameter.
     */
    method Update(msg: Msg, money: int -> string, highlighted: string)
      modifies this, help
      ensures msg.WindowSize? ==> width == msg.width
      ensures old(subView) != NoSubView ==> items == old(items) && queue == old(queue) && subView == old(subView)
      ensures old(subView) == NoSubView && msg.Tick? ==>
                items == UpsertEach(old(items), old(queue), Id) && queue == [] &&
                (old(queue) != [] ==> rows == RowsOf(items, money))
      ensures old(subView) == NoSubView && msg.WindowSize? ==>
                Heights(tableHeight, help.height) == Layout(ListLimits(height, help.MaxHeight()))
      ensures quit == (old(quit) || (old(subView) == NoSubView && msg == Key(Quit)))
    {
      if msg.WindowSize? {
        width := msg.width;
      }
      if subView != NoSubView {
        return;
      }
      if msg.WindowSize? {
        UpdateResponsive();
      } else if msg.Tick? {
        Tick(money);
      } else if msg.Key? {
        Press(msg.key, highlighted);
      }
    }
  }
}
