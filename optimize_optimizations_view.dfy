/**
 * The optimization list of the optimize command
 * (cmd/optimize/view/view_optimizations.go), with the item, device and
 * property records that file declares. It behaves as the plugin list does,
 * except that items are copies rather than shared pointers, a skip reason
 * may be absent, `enter`/`→` opens the first item with the highlighted id
 * whatever its state, and re-evaluation goes to the EC2 or the RDS
 * processor by resource type, or nowhere.
 */
module OptimizeOptimizationsView {
  import opened Wrappers
  import opened Proto
  import opened ItemStore
  import opened Greedy
  import OptimizationsView
  import HelpView

  /** One line of a device's comparison (lines 13-20). */
  datatype Property = Property(key: string, current: string, average: string, max: string, recommended: string)

  /** A resource or part of one, with integer-valued costs (lines 22-30). */
  datatype Device = Device(properties: seq<Property>, deviceId: string, resourceType: string, runtime: string,
                           currentCost: int, rightSizedCost: int)

  /** An item of the list (lines 32-46). */
  datatype OptimizationItem = OptimizationItem(
    id: string, name: string, resourceType: string, region: string, platform: string,
    devices: seq<Device>, preferences: seq<PreferenceItem>, description: string,
    loading: bool, skipped: bool, skipReason: Option<string>)

  function Id(i: OptimizationItem): string { i.id }

  /** The sum of current minus right-sized cost over the devices. */
  function Saving(devs: seq<Device>): int {
    if devs == [] then 0
    else Saving(devs[..|devs| - 1]) + (devs[|devs| - 1].currentCost - devs[|devs| - 1].rightSizedCost)
  }

  /** The sum of current costs over the devices. */
  function Cost(devs: seq<Device>): int {
    if devs == [] then 0 else Cost(devs[..|devs| - 1]) + devs[|devs| - 1].currentCost
  }

  /** With right-sized costs between zero and the current cost, the saving lies between zero and the cost. */
  lemma {:induction false} SavingBounds(devs: seq<Device>)
    requires forall k :: 0 <= k < |devs| ==> 0 <= devs[k].rightSizedCost <= devs[k].currentCost
    ensures 0 <= Saving(devs) <= Cost(devs)
  {
    if devs != [] {
      SavingBounds(devs[..|devs| - 1]);
    }
  }

  /** The totals of `View` over every device of every item (lines 279-286). */
  function AllSaving(items: seq<OptimizationItem>): int {
    if items == [] then 0 else AllSaving(items[..|items| - 1]) + Saving(items[|items| - 1].devices)
  }

  function AllCost(items: seq<OptimizationItem>): int {
    if items == [] then 0 else AllCost(items[..|items| - 1]) + Cost(items[|items| - 1].devices)
  }

  /** The header's savings never exceed its cost when no device's right-sized cost is above its current one. */
  lemma {:induction false} AllSavingBounds(items: seq<OptimizationItem>)
    requires forall i, k :: 0 <= i < |items| && 0 <= k < |items[i].devices| ==>
               0 <= items[i].devices[k].rightSizedCost <= items[i].devices[k].currentCost
    ensures 0 <= AllSaving(items) <= AllCost(items)
  {
    if items != [] {
      var init := items[..|items| - 1];
      assert forall i :: 0 <= i < |init| ==> init[i] == items[i];
      AllSavingBounds(init);
      SavingBounds(items[|items| - 1].devices);
    }
  }

  /**
   * Lines 146-168: the sixth cell. A loading item says so; otherwise a
   * skipped one says so, followed by its reason when it has one (even an
   * empty one); otherwise the saving over its devices is shown.
   */
  function SavingCell(i: OptimizationItem, money: int -> string): (r: string)
    ensures i.loading ==> r == "loading"
    ensures !i.loading && i.skipped && i.skipReason.None? ==> r == "skipped"
    ensures !i.loading && i.skipped && i.skipReason.Some? ==> r == "skipped - " + i.skipReason.value
    ensures !i.loading && !i.skipped ==> r == money(Saving(i.devices))
  {
    var saving := if !i.loading && !i.skipped then Saving(i.devices) else 0;
    if i.loading then "loading"
    else if i.skipped then (if i.skipReason.Some? then "skipped" + " - " + i.skipReason.value else "skipped")
    else money(saving)
  }

  /** Lines 153-170: an item's row. */
  function RowOf(i: OptimizationItem, money: int -> string): (r: seq<string>)
    ensures |r| == 7 && r[6] == "→" && r[5] == SavingCell(i, money)
    ensures r[0] == i.id && r[1] == i.name && r[2] == i.resourceType && r[3] == i.region && r[4] == i.platform
  {
    [i.id, i.name, i.resourceType, i.region, i.platform, SavingCell(i, money), "→"]
  }

  function RowsOf(items: seq<OptimizationItem>, money: int -> string): (rs: seq<seq<string>>)
    ensures |rs| == |items|
  {
    seq(|items|, k requires 0 <= k < |items| => RowOf(items[k], money))
  }

  /** The row loop of lines 144-171. */
  method BuildRows(items: seq<OptimizationItem>, money: int -> string) returns (rows: seq<seq<string>>)
    ensures rows == RowsOf(items, money)
  {
    rows := [];
    for k := 0 to |items|
      invariant rows == RowsOf(items[..k], money)
    {
      rows := rows + [RowOf(items[k], money)];
    }
    assert items[..|items|] == items;
  }

  /** The loop of lines 128-179: every queued item upserted, the rows rebuilt after each. */
  method Drain(items: seq<OptimizationItem>, queue: seq<OptimizationItem>, rows: seq<seq<string>>, money: int -> string)
    returns (r: seq<OptimizationItem>, rs: seq<seq<string>>)
    ensures r == UpsertEach(items, queue, Id)
    ensures queue != [] ==> rs == RowsOf(r, money)
    ensures queue == [] ==> rs == rows
  {
    r, rs := items, rows;
    for n := 0 to |queue|
      invariant UpsertEach(r, queue[n..], Id) == UpsertEach(items, queue, Id)
      invariant n > 0 ==> rs == RowsOf(r, money)
      invariant n == 0 ==> rs == rows
    {
      assert queue[n..][1..] == queue[n + 1..];
      r := Upsert(r, queue[n], Id);
      rs := BuildRows(r, money);
    }
  }

  // ---------------------------------------------------------------- re-evaluation

  /** Which processor re-evaluates an item (lines 200-205). */
  datatype Evaluator = Ec2Evaluator | RdsEvaluator | NoEvaluator

  function EvaluatorOf(resourceType: string): (e: Evaluator)
    ensures e == Ec2Evaluator <==> resourceType == "EC2 Instance"
    ensures e == RdsEvaluator <==> resourceType == "RDS Instance"
  {
    if resourceType == "EC2 Instance" then Ec2Evaluator
    else if resourceType == "RDS Instance" then RdsEvaluator
    else NoEvaluator
  }

  function Reloaded(i: OptimizationItem, prefs: seq<PreferenceItem>): (r: OptimizationItem)
    ensures r.id == i.id && r.resourceType == i.resourceType && r.preferences == prefs && r.loading
  {
    i.(preferences := prefs, loading := true)
  }

  function ReloadedAll(items: seq<OptimizationItem>, prefs: seq<PreferenceItem>): (r: seq<OptimizationItem>)
    ensures |r| == |items| && forall k :: 0 <= k < |items| ==> r[k] == Reloaded(items[k], prefs)
  {
    seq(|items|, k requires 0 <= k < |items| => Reloaded(items[k], prefs))
  }

  /** The re-evaluation requests `e` receives for the items, in store order. */
  function RequestsFor(items: seq<OptimizationItem>, prefs: seq<PreferenceItem>, e: Evaluator): seq<(string, seq<PreferenceItem>)> {
    if items == [] then []
    else
      var last := items[|items| - 1];
      RequestsFor(items[..|items| - 1], prefs, e) + (if EvaluatorOf(last.resourceType) == e then [(last.id, prefs)] else [])
  }

  /**
   * Every request names an item that goes to that processor, and every such
   * item is requested: the EC2 and RDS processors see exactly their items.
   */
  lemma {:induction false} RequestsForExactly(items: seq<OptimizationItem>, prefs: seq<PreferenceItem>, e: Evaluator, id: string)
    ensures (id, prefs) in RequestsFor(items, prefs, e) <==>
              exists k :: 0 <= k < |items| && items[k].id == id && EvaluatorOf(items[k].resourceType) == e
    ensures |RequestsFor(items, prefs, e)| <= |items|
  {
    if items != [] {
      var init := items[..|items| - 1];
      RequestsForExactly(init, prefs, e, id);
      if (id, prefs) in RequestsFor(init, prefs, e) {
        var k :| 0 <= k < |init| && init[k].id == id && EvaluatorOf(init[k].resourceType) == e;
        assert items[k] == init[k];
      }
      if exists k :: 0 <= k < |items| && items[k].id == id && EvaluatorOf(items[k].resourceType) == e {
        var k :| 0 <= k < |items| && items[k].id == id && EvaluatorOf(items[k].resourceType) == e;
        if k < |init| {
          assert init[k] == items[k];
        }
      }
    }
  }

  /** A request with another preference list is never made. */
  lemma {:induction false} RequestsCarryPrefs(items: seq<OptimizationItem>, prefs: seq<PreferenceItem>, e: Evaluator)
    ensures forall k :: 0 <= k < |RequestsFor(items, prefs, e)| ==> RequestsFor(items, prefs, e)[k].1 == prefs
  {
    if items != [] {
      RequestsCarryPrefs(items[..|items| - 1], prefs, e);
    }
  }

  /**
   * Closing the editor opened by `P` changes every item in place and queues
   * the same items; the tick that delivers them, in a store without repeated
   * ids, leaves the items as the close left them. Delivered to the items as
   * they were before the close, they give the same result.
   */
  lemma ReloadAllThenTick(items: seq<OptimizationItem>, prefs: seq<PreferenceItem>)
    requires DistinctKeys(items, Id)
    ensures UpsertEach(ReloadedAll(items, prefs), ReloadedAll(items, prefs), Id) == ReloadedAll(items, prefs)
    ensures UpsertEach(items, ReloadedAll(items, prefs), Id) == ReloadedAll(items, prefs)
  {
    var reloaded := ReloadedAll(items, prefs);
    assert forall i :: 0 <= i < |items| ==> Id(reloaded[i]) == Id(items[i]);
    UpsertEachPointwise(reloaded, reloaded, Id);
    UpsertEachPointwise(items, reloaded, Id);
  }

  /** The re-evaluation step of one item: its request goes to its processor's list. */
  method Dispatch(ec2: seq<(string, seq<PreferenceItem>)>, rds: seq<(string, seq<PreferenceItem>)>, i: OptimizationItem, prefs: seq<PreferenceItem>)
    returns (ec2': seq<(string, seq<PreferenceItem>)>, rds': seq<(string, seq<PreferenceItem>)>)
    ensures ec2' == ec2 + RequestsFor([i], prefs, Ec2Evaluator)
    ensures rds' == rds + RequestsFor([i], prefs, RdsEvaluator)
  {
    ec2', rds' := ec2, rds;
    if i.resourceType == "EC2 Instance" {
      ec2' := ec2 + [(i.id, prefs)];
    } else if i.resourceType == "RDS Instance" {
      rds' := rds + [(i.id, prefs)];
    }
  }

  /**
   * The closing callback's loop: each item concerned is queued with the new
   * preferences and loading, and its request goes to its processor.
   */
  method Reevaluate(concerned: seq<OptimizationItem>, prefs: seq<PreferenceItem>, queue: seq<OptimizationItem>,
                    ec2: seq<(string, seq<PreferenceItem>)>, rds: seq<(string, seq<PreferenceItem>)>)
    returns (queue': seq<OptimizationItem>, ec2': seq<(string, seq<PreferenceItem>)>, rds': seq<(string, seq<PreferenceItem>)>)
    ensures queue' == queue + ReloadedAll(concerned, prefs)
    ensures ec2' == ec2 + RequestsFor(concerned, prefs, Ec2Evaluator)
    ensures rds' == rds + RequestsFor(concerned, prefs, RdsEvaluator)
  {
    queue', ec2', rds' := queue, ec2, rds;
    for k := 0 to |concerned|
      invariant queue' == queue + ReloadedAll(concerned[..k], prefs)
      invariant ec2' == ec2 + RequestsFor(concerned[..k], prefs, Ec2Evaluator)
      invariant rds' == rds + RequestsFor(concerned[..k], prefs, RdsEvaluator)
    {
      var c := concerned[..k + 1];
      assert c[..|c| - 1] == concerned[..k] && c[|c| - 1] == concerned[k];
      queue' := queue' + [Reloaded(concerned[k], prefs)];
      ec2', rds' := Dispatch(ec2', rds', concerned[k], prefs);
    }
    assert concerned[..|concerned|] == concerned;
  }

  // ---------------------------------------------------------------- the view

  datatype KeyName = Quit | Prefs | AllPrefs | Enter | Right | OtherKey
  datatype Msg = WindowSize(width: int) | Tick | Key(key: KeyName) | Other

  datatype SubView = NoSubView | PreferencesFor(item: OptimizationItem) | PreferencesForAll | Details(item: OptimizationItem)

  class OptimizeOptimizationsView {
    var items: seq<OptimizationItem>
    /** Items sent and not yet taken by a tick (`itemsChan`). */
    var queue: seq<OptimizationItem>
    var rows: seq<seq<string>>
    var pageSize: int
    var subView: SubView
    var subViewHeight: int
    var clearScreen: bool
    /** The requests made of the EC2 and RDS processors' re-evaluation functions. */
    var ec2ReEvaluations: seq<(string, seq<PreferenceItem>)>
    var rdsReEvaluations: seq<(string, seq<PreferenceItem>)>
    var width: int
    var height: int
    var tableHeight: int
    var quit: bool
    const help: HelpView.HelpView

    /** `NewOptimizationsView` (lines 68-98). */
    constructor()
      ensures items == [] && queue == [] && rows == [] && pageSize == 10 && subView == NoSubView
      ensures fresh(help) && help.lines == OptimizationsView.HelpLines && help.height == 0
      ensures !clearScreen && !quit && ec2ReEvaluations == [] && rdsReEvaluations == []
      ensures width == 0 && height == 0 && tableHeight == 0
    {
      items, queue, rows, pageSize := [], [], [], 10;
      subView, subViewHeight, clearScreen := NoSubView, 0, false;
      ec2ReEvaluations, rdsReEvaluations := [], [];
      width, height, tableHeight, quit := 0, 0, 0, false;
      help := new HelpView.HelpView(OptimizationsView.HelpLines);
    }

    /** `SendItem` (lines 294-296). */
    method SendItem(item: OptimizationItem)
      modifies this
      ensures queue == old(queue) + [item] && items == old(items) && rows == old(rows) && subView == old(subView)
    {
      queue := queue + [item];
    }

    /** The tick (lines 127-179). */
    method Tick(money: int -> string)
      modifies this
      ensures items == UpsertEach(old(items), old(queue), Id) && queue == []
      ensures old(queue) != [] ==> rows == RowsOf(items, money)
      ensures old(queue) == [] ==> rows == old(rows)
      ensures subView == old(subView) && pageSize == old(pageSize) && clearScreen == old(clearScreen)
      ensures ec2ReEvaluations == old(ec2ReEvaluations) && rdsReEvaluations == old(rdsReEvaluations)
      ensures quit == old(quit) && height == old(height)
    {
      var drained, newRows := Drain(items, queue, rows, money);
      items, rows, queue := drained, newRows, [];
    }

    /** `UpdateResponsive` (lines 298-348): the same split as the plugin list's. */
    method UpdateResponsive()
      modifies this, help
      ensures subView != NoSubView ==> tableHeight == height && subViewHeight == height && help.height == old(help.height)
      ensures subView == NoSubView ==>
                Heights(tableHeight, help.height) == Layout(OptimizationsView.ListLimits(height, help.MaxHeight()))
      ensures pageSize == tableHeight - 7 && help.lines == old(help.lines)
      ensures items == old(items) && queue == old(queue) && rows == old(rows) && subView == old(subView)
      ensures clearScreen == old(clearScreen) && quit == old(quit) && height == old(height) && width == old(width)
      ensures ec2ReEvaluations == old(ec2ReEvaluations) && rdsReEvaluations == old(rdsReEvaluations)
    {
      if subView != NoSubView {
        tableHeight := height;
        subViewHeight := tableHeight;
      } else {
        help.SetHeight(help.MinHeight());
        var h := Grow(Limits(height, 8, help.MinHeight(), 7, help.MinHeight(), true, 11, help.MaxHeight(), 30));
        tableHeight := h.first;
        help.SetHeight(h.second);
      }
      pageSize := tableHeight - 7;
    }

    /** `SetHeight` (lines 350-353). */
    method SetHeight(h: int)
      modifies this, help
      ensures height == h && items == old(items) && queue == old(queue) && subView == old(subView)
      ensures subView == NoSubView ==>
                Heights(tableHeight, help.height) == Layout(OptimizationsView.ListLimits(h, help.MaxHeight()))
      ensures subView != NoSubView ==> tableHeight == h && subViewHeight == h
      ensures pageSize == tableHeight - 7 && help.lines == old(help.lines)
    {
      height := h;
      UpdateResponsive();
    }

    /** `MinHeight` (lines 355-363). */
    function MinHeight(sub: OptimizationsView.SubLayout): int
      reads this
    {
      if subView != NoSubView then sub.minHeight else help.MinHeight() + 7 + 1
    }

    /** `PreferredMinHeight` (lines 365-367). */
    function PreferredMinHeight(): int { 15 }

    /** `MaxHeight` (lines 369-371). */
    function MaxHeight(): int
      reads this, help
    {
      help.MaxHeight() + 30
    }

    /** `IsResponsive` (lines 373-381). */
    predicate IsResponsive(sub: OptimizationsView.SubLayout)
      reads this
    {
      (subView == NoSubView || sub.responsive) && height >= MinHeight(sub)
    }

    /**
     * The keys (lines 181-256): `q` quits; with rows in the table, `p`
     * opens the editor for the first item with the highlighted id, `P` for
     * all items, and `enter`/`→` the details of the first item with that
     * id; each of these then re-splits the height.
     */
    method Press(key: KeyName, highlighted: string)
      modifies this, help
      ensures quit == (old(quit) || key == Quit)
      ensures key in {Prefs, Enter, Right} && old(rows) != [] ==>
                var k := FirstWith(items, Id, highlighted);
                subView == if k == |items| then old(subView)
                           else if key == Prefs then PreferencesFor(items[k]) else Details(items[k])
      ensures key == AllPrefs && old(rows) != [] ==> subView == PreferencesForAll
      ensures key in {Quit, OtherKey} || old(rows) == [] ==> subView == old(subView)
      ensures items == old(items) && queue == old(queue) && rows == old(rows) && height == old(height)
      ensures ec2ReEvaluations == old(ec2ReEvaluations) && rdsReEvaluations == old(rdsReEvaluations)
    {
      if key == Quit {
        quit := true;
        return;
      }
      if key == OtherKey || rows == [] {
        return;
      }
      if key == AllPrefs {
        subView := PreferencesForAll;
      } else {
        var k := Find(items, Id, highlighted);
        if k < |items| {
          subView := if key == Prefs then PreferencesFor(items[k]) else Details(items[k]);
        }
      }
      UpdateResponsive();
    }

    /**
     * The editor's closing callback (lines 193-208 for one item, 219-235
     * for all): each item concerned is queued with the new preferences and
     * loading, and its re-evaluation goes to its processor. For all items
     * the list's own items are changed in place as they are queued.
     */
    method ClosePreferences(prefs: seq<PreferenceItem>)
      requires subView.PreferencesFor? || subView == PreferencesForAll
      modifies this, help
      ensures var concerned := if old(subView).PreferencesFor? then [old(subView).item] else old(items);
              queue == old(queue) + ReloadedAll(concerned, prefs) &&
              ec2ReEvaluations == old(ec2ReEvaluations) + RequestsFor(concerned, prefs, Ec2Evaluator) &&
              rdsReEvaluations == old(rdsReEvaluations) + RequestsFor(concerned, prefs, RdsEvaluator)
      ensures items == if old(subView).PreferencesFor? then old(items) else ReloadedAll(old(items), prefs)
      ensures subView == NoSubView && clearScreen && height == old(height)
      ensures Heights(tableHeight, help.height) == Layout(OptimizationsView.ListLimits(height, help.MaxHeight()))
    {
      var concerned := if subView.PreferencesFor? then [subView.item] else items;
      queue, ec2ReEvaluations, rdsReEvaluations := Reevaluate(concerned, prefs, queue, ec2ReEvaluations, rdsReEvaluations);
      if subView == PreferencesForAll {
        items := ReloadedAll(items, prefs);
      }
      subView := NoSubView;
      clearScreen := true;
      UpdateResponsive();
    }

    /** The details view's closing callback (lines 246-249). */
    method CloseDetails()
      requires subView.Details?
      modifies this, help
      ensures subView == NoSubView && items == old(items) && queue == old(queue) && height == old(height)
      ensures Heights(tableHeight, help.height) == Layout(OptimizationsView.ListLimits(height, help.MaxHeight()))
    {
      subView := NoSubView;
      UpdateResponsive();
    }

    /** `View` (lines 267-292). */
    method View(money: int -> string, tableText: string, subText: string) returns (s: string)
      modifies this
      ensures old(clearScreen) ==> s == "" && !clearScreen
      ensures !old(clearScreen) && subView != NoSubView ==> s == subText && !clearScreen
      ensures !old(clearScreen) && subView == NoSubView ==>
                s == "Current runtime cost: " + money(AllCost(items)) + ", Savings: " + money(AllSaving(items)) + "\n" +
                     tableText + "\n" + HelpView.Render(help.lines, help.height)
      ensures items == old(items) && queue == old(queue) && subView == old(subView) && rows == old(rows)
      ensures height == old(height)
    {
      if clearScreen {
        clearScreen := false;
        return "";
      }
      if subView != NoSubView {
        return subText;
      }
      var helpText := help.String();
      s := "Current runtime cost: " + money(AllCost(items)) + ", Savings: " + money(AllSaving(items)) + "\n" +
           tableText + "\n" + helpText;
    }

    /** `Update` (lines 107-265). */
    method Update(msg: Msg, money: int -> string, highlighted: string)
      modifies this, help
      ensures msg.WindowSize? ==> width == msg.width
      ensures old(subView) != NoSubView ==> items == old(items) && queue == old(queue) && subView == old(subView)
      ensures old(subView) == NoSubView && msg.Tick? ==>
                items == UpsertEach(old(items), old(queue), Id) && queue == [] &&
                (old(queue) != [] ==> rows == RowsOf(items, money))
      ensures old(subView) == NoSubView && msg.WindowSize? ==>
                Heights(tableHeight, help.height) == Layout(OptimizationsView.ListLimits(height, help.MaxHeight()))
      ensures quit == (old(quit) || (old(subView) == NoSubView && msg == Key(Quit)))
    {
      if msg.WindowSize? {
        width := msg.width;
      }
      if subView != NoSubView {
        return;
      }
      if msg.WindowSize? {
        UpdateResponsive();
      } else if msg.Tick? {
        Tick(money);
      } else if msg.Key? {
        Press(msg.key, highlighted);
      }
    }
  }
}
