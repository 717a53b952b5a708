/**
 * The EC2 instance list of the optimize command
 * (cmd/optimize/view/ec2_instance_optimizations.go). Items are the
 * instances with their volumes and the wastage response; they are matched
 * by instance id. A row's saving counts the instance's saving and the
 * savings of the volumes that have a recommendation, and is counted only
 * when the instance itself has one. Changing preferences sends the items
 * back to the app for evaluation (`instanceChan`).
 */
module Ec2InstanceOptimizations {
  import opened Wrappers
  import opened Proto
  import opened AwsTypes
  import opened WastageEc2
  import opened ItemStore
  import opened Greedy
  import GoMap
  import OptimizationsView
  import HelpView

  /** An item of the list (lines 21-29). */
  datatype Ec2Item = Ec2Item(instance: Instance, volumes: seq<Volume>, region: string, optimizationLoading: bool,
                             preferences: seq<PreferenceItem>, wastage: Ec2InstanceWastageResponse)

  function InstanceId(i: Ec2Item): string { i.instance.instanceId }

  /** The help lines (lines 82-88). */
  const HelpLines: seq<string> :=
    ["↑/↓: move", "enter: see details", "p: change preferences for one item", "P: change preferences for all items", "q/ctrl+c: exit"]

  // ---------------------------------------------------------------- savings

  /** A volume's saving: current minus recommended cost, when there is a recommendation. */
  function VolumeSaving(v: EbsVolumeRecommendation): int {
    if v.recommended.Some? then v.current.cost - v.recommended.value.cost else 0
  }

  /** The instance's own saving, when it has a recommendation. */
  function InstanceSaving(r: RightSizingRecommendation): int {
    if r.recommended.Some? then r.current.cost - r.recommended.value.cost else 0
  }

  /** Lines 140-148: a row's saving. */
  ghost function RowSaving(i: Ec2Item): int {
    var w := i.wastage;
    if w.rightSizing.recommended.Some? then InstanceSaving(w.rightSizing) + GoMap.SumOf(w.volumeRightSizing, VolumeSaving)
    else 0
  }

  /** A row shows a saving only for an instance with a recommendation; its volumes count then. */
  lemma RowSavingNeedsRecommendation(i: Ec2Item)
    ensures RowSaving(i) != 0 ==> i.wastage.rightSizing.recommended.Some?
    ensures i.wastage.rightSizing.recommended.Some? ==>
              RowSaving(i) == i.wastage.rightSizing.current.cost - i.wastage.rightSizing.recommended.value.cost +
                              GoMap.SumOf(i.wastage.volumeRightSizing, VolumeSaving)
  {
  }

  /** Recommendations that cost no more than the current resources give a non-negative saving. */
  lemma RowSavingNonNegative(i: Ec2Item)
    requires i.wastage.rightSizing.recommended.Some? ==> i.wastage.rightSizing.recommended.value.cost <= i.wastage.rightSizing.current.cost
    requires forall k :: k in i.wastage.volumeRightSizing ==> VolumeSaving(i.wastage.volumeRightSizing[k]) >= 0
    ensures RowSaving(i) >= 0
  {
    GoMap.SumOfNonNegative(i.wastage.volumeRightSizing, VolumeSaving);
  }

  /** The sixth column: "loading" while the item is evaluated, else the saving. */
  ghost function SavingCell(i: Ec2Item, money: int -> string): string {
    if i.optimizationLoading then "loading" else money(RowSaving(i))
  }

  /** Lines 134-170: an item's row. */
  ghost function RowOf(i: Ec2Item, money: int -> string): (r: seq<string>)
    ensures |r| == 6 && r[5] == "→" && r[4] == SavingCell(i, money)
    ensures r[0] == i.instance.instanceId && r[1] == i.instance.instanceType && r[2] == i.region
    ensures r[3] == if i.instance.platformDetails.Some? then i.instance.platformDetails.value else ""
  {
    var platform := if i.instance.platformDetails.Some? then i.instance.platformDetails.value else "";
    [i.instance.instanceId, i.instance.instanceType, i.region, platform, SavingCell(i, money), "→"]
  }

  ghost function RowsOf(items: seq<Ec2Item>, money: int -> string): (rs: seq<seq<string>>)
    ensures |rs| == |items| && forall k :: 0 <= k < |items| ==> rs[k] == RowOf(items[k], money)
  {
    seq(|items|, k requires 0 <= k < |items| => RowOf(items[k], money))
  }

  /** The body of the row loop: the volume savings are summed in Go's map order. */
  method BuildRow(i: Ec2Item, money: int -> string) returns (row: seq<string>)
    ensures row == RowOf(i, money)
  {
    var platform := "";
    if i.instance.platformDetails.Some? {
      platform := i.instance.platformDetails.value;
    }
    var totalSaving := 0;
    if i.wastage.rightSizing.recommended.Some? {
      var volumes := GoMap.Sum(i.wastage.volumeRightSizing, VolumeSaving);
      totalSaving := InstanceSaving(i.wastage.rightSizing) + volumes;
    }
    row := [i.instance.instanceId, i.instance.instanceType, i.region, platform, money(totalSaving)];
    if i.optimizationLoading {
      row := row[4 := "loading"];
    }
    row := row + ["→"];
  }

  method BuildRows(items: seq<Ec2Item>, money: int -> string) returns (rows: seq<seq<string>>)
    ensures rows == RowsOf(items, money)
  {
    rows := [];
    for k := 0 to |items|
      invariant rows == RowsOf(items[..k], money)
    {
      var row := BuildRow(items[k], money);
      rows := rows + [row];
    }
    assert items[..|items|] == items;
  }

  /** The tick's loop (lines 117-179): each queued item upserted by instance id, the rows rebuilt after each. */
  method Drain(items: seq<Ec2Item>, queue: seq<Ec2Item>, rows: seq<seq<string>>, money: int -> string)
    returns (r: seq<Ec2Item>, rs: seq<seq<string>>)
    ensures r == UpsertEach(items, queue, InstanceId)
    ensures queue != [] ==> rs == RowsOf(r, money)
    ensures queue == [] ==> rs == rows
  {
    r, rs := items, rows;
    for n := 0 to |queue|
      invariant UpsertEach(r, queue[n..], InstanceId) == UpsertEach(items, queue, InstanceId)
      invariant n > 0 ==> rs == RowsOf(r, money)
      invariant n == 0 ==> rs == rows
    {
      UpsertEachNext(r, queue, InstanceId, n);
      r, rs := DrainOne(r, queue[n], money);
    }
  }

  /** One pass of the tick's loop: the item upserted, then every row rebuilt. */
  method DrainOne(items: seq<Ec2Item>, x: Ec2Item, money: int -> string) returns (r: seq<Ec2Item>, rs: seq<seq<string>>)
    ensures r == UpsertFirst(items, x, InstanceId) && rs == RowsOf(r, money)
  {
    r := Upsert(items, x, InstanceId);
    rs := BuildRows(r, money);
  }

  // ---------------------------------------------------------------- the header

  /** An item's share of the header's cost: the instance and every volume. */
  ghost function ItemCost(i: Ec2Item): int {
    i.wastage.rightSizing.current.cost + GoMap.SumOf(i.wastage.volumeRightSizing, (v: EbsVolumeRecommendation) => v.current.cost)
  }

  /** An item's share of the header's savings: the volumes count even without an instance recommendation. */
  ghost function ItemSaving(i: Ec2Item): int {
    InstanceSaving(i.wastage.rightSizing) + GoMap.SumOf(i.wastage.volumeRightSizing, VolumeSaving)
  }

  ghost function AllCost(items: seq<Ec2Item>): int {
    if items == [] then 0 else AllCost(items[..|items| - 1]) + ItemCost(items[|items| - 1])
  }

  ghost function AllSaving(items: seq<Ec2Item>): int {
    if items == [] then 0 else AllSaving(items[..|items| - 1]) + ItemSaving(items[|items| - 1])
  }

  /**
   * The header and the rows agree on an instance with a recommendation; for
   * one without, the row shows no saving while the header counts its volumes'.
   */
  lemma HeaderAndRow(i: Ec2Item)
    ensures i.wastage.rightSizing.recommended.Some? ==> ItemSaving(i) == RowSaving(i)
    ensures i.wastage.rightSizing.recommended.None? ==>
              RowSaving(i) == 0 && ItemSaving(i) == GoMap.SumOf(i.wastage.volumeRightSizing, VolumeSaving)
  {
  }

  /** The loop of lines 266-282. */
  method Totals(items: seq<Ec2Item>) returns (totalCost: int, savings: int)
    ensures totalCost == AllCost(items) && savings == AllSaving(items)
  {
    totalCost, savings := 0, 0;
    for k := 0 to |items|
      invariant totalCost == AllCost(items[..k]) && savings == AllSaving(items[..k])
    {
      var i := items[k];
      assert items[..k + 1][..k] == items[..k];
      totalCost := totalCost + i.wastage.rightSizing.current.cost;
      savings := savings + InstanceSaving(i.wastage.rightSizing);
      var volumeCost := GoMap.Sum(i.wastage.volumeRightSizing, (v: EbsVolumeRecommendation) => v.current.cost);
      var volumeSaving := GoMap.Sum(i.wastage.volumeRightSizing, VolumeSaving);
      totalCost := totalCost + volumeCost;
      savings := savings + volumeSaving;
    }
    assert items[..|items|] == items;
  }

  // ---------------------------------------------------------------- layout and re-evaluation

  /**
   * Lines 309-342: the table starts at 6 lines and the help box at its
   * minimum; the table needs at least 5 lines. It grows to 9, then the help
   * box to its maximum, then the table to 30.
   */
  function ListLimits(height: int, helpMax: int): Limits {
    Limits(height, 6, 0, 5, 0, true, 9, helpMax, 30)
  }

  /** With at least 6 lines the table gets 6 to 30 lines, the help box the rest up to its maximum; with fewer, nothing grows. */
  lemma ListLayoutBounds(height: int, helpMax: int)
    requires helpMax >= 0
    ensures var h := Layout(ListLimits(height, helpMax));
            if height >= 6 then 6 <= h.first <= 30 && 0 <= h.second <= helpMax && h.first + h.second <= height
            else h == Heights(6, 0)
  {
    var l := ListLimits(height, helpMax);
    LayoutFits(l);
    LayoutBounds(l);
  }

  function Reloaded(i: Ec2Item, prefs: seq<PreferenceItem>): (r: Ec2Item)
    ensures InstanceId(r) == InstanceId(i) && r.preferences == prefs && r.optimizationLoading
    ensures r.wastage == i.wastage && r.volumes == i.volumes && r.region == i.region
  {
    i.(preferences := prefs, optimizationLoading := true)
  }

  function ReloadedAll(items: seq<Ec2Item>, prefs: seq<PreferenceItem>): (r: seq<Ec2Item>)
    ensures |r| == |items| && forall k :: 0 <= k < |items| ==> r[k] == Reloaded(items[k], prefs)
  {
    seq(|items|, k requires 0 <= k < |items| => Reloaded(items[k], prefs))
  }

  /**
   * Closing the editor opened by `P` changes every item in place and queues
   * the same items; the tick that delivers them, in a store without repeated
   * ids, leaves the items as the close left them. Delivered to the items as
   * they were before the close, they give the same result.
   */
  lemma ReloadAllThenTick(items: seq<Ec2Item>, prefs: seq<PreferenceItem>)
    requires DistinctKeys(items, InstanceId)
    ensures UpsertEach(ReloadedAll(items, prefs), ReloadedAll(items, prefs), InstanceId) == ReloadedAll(items, prefs)
    ensures UpsertEach(items, ReloadedAll(items, prefs), InstanceId) == ReloadedAll(items, prefs)
  {
    var reloaded := ReloadedAll(items, prefs);
    assert forall i :: 0 <= i < |items| ==> InstanceId(reloaded[i]) == InstanceId(items[i]);
    UpsertEachPointwise(reloaded, reloaded, InstanceId);
    UpsertEachPointwise(items, reloaded, InstanceId);
  }

  /** The `P` callback's loop (lines 213-218): each item is queued for display and sent for evaluation. */
  method ReloadEach(concerned: seq<Ec2Item>, prefs: seq<PreferenceItem>, queue: seq<Ec2Item>, sent: seq<Ec2Item>)
    returns (queue': seq<Ec2Item>, sent': seq<Ec2Item>)
    ensures queue' == queue + ReloadedAll(concerned, prefs) && sent' == sent + ReloadedAll(concerned, prefs)
  {
    queue', sent' := queue, sent;
    for k := 0 to |concerned|
      invariant queue' == queue + ReloadedAll(concerned[..k], prefs) && sent' == sent + ReloadedAll(concerned[..k], prefs)
    {
      assert ReloadedAll(concerned[..k + 1], prefs) == ReloadedAll(concerned[..k], prefs) + [Reloaded(concerned[k], prefs)];
      queue' := queue' + [Reloaded(concerned[k], prefs)];
      sent' := sent' + [Reloaded(concerned[k], prefs)];
    }
    assert concerned[..|concerned|] == concerned;
  }

  // ---------------------------------------------------------------- the view

  datatype KeyName = Quit | Prefs | AllPrefs | Enter | OtherKey
  datatype Msg = WindowSize(width: int) | Tick | Key(key: KeyName) | Other

  datatype SubView = NoSubView | PreferencesFor(item: Ec2Item) | PreferencesForAll | Details(item: Ec2Item)

  class Ec2InstanceOptimizations {
    var items: seq<Ec2Item>
    /** Items sent and not yet taken by a tick (`itemsChan`). */
    var queue: seq<Ec2Item>
    var rows: seq<seq<string>>
    /** The table widget's own height. */
    var pageHeight: int
    var subView: SubView
    var subViewHeight: int
    var clearScreen: bool
    /** The items sent back for evaluation (`instanceChan`). */
    var sent: seq<Ec2Item>
    var width: int
    var height: int
    var tableHeight: int
    var quit: bool
    const help: HelpView.HelpView

    /** `NewEC2InstanceOptimizations` (lines 50-92). */
    constructor()
      ensures items == [] && queue == [] && rows == [] && pageHeight == 10 && subView == NoSubView && sent == []
      ensures fresh(help) && help.lines == HelpLines && help.height == 0
      ensures !clearScreen && !quit && width == 0 && height == 0 && tableHeight == 0
    {
      items, queue, rows, pageHeight := [], [], [], 10;
      subView, subViewHeight, clearScreen, sent := NoSubView, 0, false, [];
      width, height, tableHeight, quit := 0, 0, 0, false;
      help := new HelpView.HelpView(HelpLines);
    }

    /** `SendItem` (lines 289-291). */
    method SendItem(item: Ec2Item)
      modifies this
      ensures queue == old(queue) + [item] && items == old(items) && rows == old(rows) && subView == old(subView)
      ensures sent == old(sent) && height == old(height)
    {
      queue := queue + [item];
    }

    /** The tick (lines 116-179). */
    method Tick(money: int -> string)
      modifies this
      ensures items == UpsertEach(old(items), old(queue), InstanceId) && queue == []
      ensures old(queue) != [] ==> rows == RowsOf(items, money)
      ensures old(queue) == [] ==> rows == old(rows)
      ensures subView == old(subView) && clearScreen == old(clearScreen) && sent == old(sent)
      ensures quit == old(quit) && height == old(height)
    {
      var newItems, newRows := Drain(items, queue, rows, money);
      items, rows, queue := newItems, newRows, [];
    }

    /** `UpdateResponsive` (lines 293-343): the table widget always gets `tableHeight - 5` lines. */
    method UpdateResponsive()
      modifies this, help
      ensures subView != NoSubView ==> tableHeight == height && subViewHeight == height && help.height == old(help.height)
      ensures subView == NoSubView ==> Heights(tableHeight, help.height) == Layout(ListLimits(height, help.MaxHeight()))
      ensures pageHeight == tableHeight - 5 && help.lines == old(help.lines)
      ensures items == old(items) && queue == old(queue) && rows == old(rows) && subView == old(subView)
      ensures clearScreen == old(clearScreen) && quit == old(quit) && height == old(height) && width == old(width)
      ensures sent == old(sent)
    {
      if subView != NoSubView {
        tableHeight := height;
        subViewHeight := tableHeight;
      } else {
        help.SetHeight(help.MinHeight());
        var h := Grow(Limits(height, 6, help.MinHeight(), 5, help.MinHeight(), true, 9, help.MaxHeight(), 30));
        tableHeight := h.first;
        help.SetHeight(h.second);
      }
      pageHeight := tableHeight - 5;
    }

    /** `SetHeight` (lines 345-348). */
    method SetHeight(h: int)
      modifies this, help
      ensures height == h && items == old(items) && queue == old(queue) && subView == old(subView)
      ensures subView == NoSubView ==> Heights(tableHeight, help.height) == Layout(ListLimits(h, help.MaxHeight()))
      ensures subView != NoSubView ==> tableHeight == h && subViewHeight == h
      ensures pageHeight == tableHeight - 5 && help.lines == old(help.lines)
      ensures sent == old(sent) && rows == old(rows) && quit == old(quit) && clearScreen == old(clearScreen)
    {
      height := h;
      UpdateResponsive();
    }

    /** `MinHeight` (lines 350-358). */
    function MinHeight(sub: OptimizationsView.SubLayout): int
      reads this
    {
      if subView != NoSubView then sub.minHeight else help.MinHeight() + 5 + 1
    }

    /** `PreferredMinHeight` (lines 360-362). */
    function PreferredMinHeight(): int { 10 }

    /** `MaxHeight` (lines 364-366). */
    function MaxHeight(): int
      reads this, help
    {
      help.MaxHeight() + 30
    }

    /** `IsResponsive` (lines 368-376). */
    predicate IsResponsive(sub: OptimizationsView.SubLayout)
      reads this
    {
      (subView == NoSubView || sub.responsive) && height >= MinHeight(sub)
    }

    /**
     * The keys (lines 181-243): `q` quits; with a selected row, whose id is
     * `selected`, `p` opens the editor for the first item with that id, `P`
     * for all items and `enter` the details of that item; each of these then
     * re-splits the height.
     */
    method Press(key: KeyName, selected: Option<string>)
      modifies this, help
      ensures quit == (old(quit) || key == Quit)
      ensures key in {Prefs, Enter} && selected.Some? ==>
                var k := FirstWith(items, InstanceId, selected.value);
                subView == if k == |items| then old(subView)
                           else if key == Prefs then PreferencesFor(items[k]) else Details(items[k])
      ensures key == AllPrefs && selected.Some? ==> subView == PreferencesForAll
      ensures key in {Quit, OtherKey} || selected.None? ==> subView == old(subView)
      ensures items == old(items) && queue == old(queue) && rows == old(rows) && height == old(height) && sent == old(sent)
    {
      if key == Quit {
        quit := true;
        return;
      }
      if key == OtherKey || selected.None? {
        return;
      }
      if key == AllPrefs {
        subView := PreferencesForAll;
      } else {
        var k := Find(items, InstanceId, selected.value);
        if k < |items| {
          subView := if key == Prefs then PreferencesFor(items[k]) else Details(items[k]);
        }
      }
      UpdateResponsive();
    }

    /**
     * The editor's closing callbacks (lines 192-201 for one item, 212-222
     * for all): each item concerned is queued with the new preferences and
     * loading, and sent for evaluation. For all items the list's own items
     * are changed in place as they are queued.
     */
    method ClosePreferences(prefs: seq<PreferenceItem>)
      requires subView.PreferencesFor? || subView == PreferencesForAll
      modifies this, help
      ensures var concerned := if old(subView).PreferencesFor? then [old(subView).item] else old(items);
              queue == old(queue) + ReloadedAll(concerned, prefs) && sent == old(sent) + ReloadedAll(concerned, prefs)
      ensures items == if old(subView).PreferencesFor? then old(items) else ReloadedAll(old(items), prefs)
      ensures subView == NoSubView && clearScreen && height == old(height)
      ensures Heights(tableHeight, help.height) == Layout(ListLimits(height, help.MaxHeight()))
    {
      var concerned := if subView.PreferencesFor? then [subView.item] else items;
      queue, sent := ReloadEach(concerned, prefs, queue, sent);
      if subView == PreferencesForAll {
        items := ReloadedAll(items, prefs);
      }
      subView := NoSubView;
      clearScreen := true;
      UpdateResponsive();
    }

    /** The details view's closing callback (lines 233-236). */
    method CloseDetails()
      requires subView.Details?
      modifies this, help
      ensures subView == NoSubView && items == old(items) && queue == old(queue) && height == old(height)
      ensures Heights(tableHeight, help.height) == Layout(ListLimits(height, help.MaxHeight()))
    {
      subView := NoSubView;
      UpdateResponsive();
    }

    /** `View` (lines 254-287). */
    method View(money: int -> string, tableText: string, subText: string) returns (s: string)
      modifies this
      ensures old(clearScreen) ==> s == "" && !clearScreen
      ensures !old(clearScreen) && subView != NoSubView ==> s == subText && !clearScreen
      ensures !old(clearScreen) && subView == NoSubView ==>
                s == "Current runtime cost: " + money(AllCost(items)) + ", Savings: " + money(AllSaving(items)) + "\n" +
                     tableText + "\n" + HelpView.Render(help.lines, help.height)
      ensures items == old(items) && queue == old(queue) && subView == old(subView) && rows == old(rows)
    {
      if clearScreen {
        clearScreen := false;
        return "";
      }
      if subView != NoSubView {
        return subText;
      }
      var totalCost, savings := Totals(items);
      var helpText := help.String();
      s := "Current runtime cost: " + money(totalCost) + ", Savings: " + money(savings) + "\n" + tableText + "\n" + helpText;
    }

    /** `Update` (lines 96-252). */
    method Update(msg: Msg, money: int -> string, selected: Option<string>)
      modifies this, help
      ensures msg.WindowSize? ==> width == msg.width
      ensures old(subView) != NoSubView ==> items == old(items) && queue == old(queue) && subView == old(subView)
      ensures old(subView) == NoSubView && msg.Tick? ==>
                items == UpsertEach(old(items), old(queue), InstanceId) && queue == [] &&
                (old(queue) != [] ==> rows == RowsOf(items, money))
      ensures old(subView) == NoSubView && msg.WindowSize? ==>
                Heights(tableHeight, help.height) == Layout(ListLimits(height, help.MaxHeight()))
      ensures quit == (old(quit) || (old(subView) == NoSubView && msg == Key(Quit)))
    {
      if msg.WindowSize? {
        width := msg.width;
      }
      if subView != NoSubView {
        return;
      }
      if msg.WindowSize? {
        UpdateResponsive();
      } else if msg.Tick? {
        Tick(money);
      } else if msg.Key? {
        Press(msg.key, selected);
      }
    }
  }
}
