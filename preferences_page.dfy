/**
 * The preference editor page of view/page_preferences.go: a list of
 * preference lines built from the selected item's preferences (or the
 * registry's), a service filter, cyclic focus that skips hidden lines, a
 * scroll window that keeps the focused line on screen, and, on close, the
 * edited preferences sent back with every affected item for re-evaluation.
 * The status bar's height is a parameter.
 */
module PreferencesPage {
  import opened Wrappers
  import opened Proto
  import opened Cycling
  import opened PreferenceItemView
  import opened PreferenceLines
  import opened OptimizationsController
  import Text

  /** The help lines the page shows (lines 75-83). */
  const HelpKeys: seq<string> := [
    "↑/↓: move",
    "enter: next field",
    "←/→: prev/next value (for fields with specific values)",
    "esc: apply and exit",
    "tab: pin/unpin value to current resource",
    "ctrl+c: exit"]

  /** The items `OnClose` sends back when no item is selected: every one neither skipped nor lazily loaded, with the edited preferences and loading on. */
  function Applied(items: seq<OptimizationItem>, prefs: seq<PreferenceItem>): (r: seq<OptimizationItem>)
    ensures |r| <= |items|
    ensures forall x :: x in r ==> x.preferences == prefs && x.loading && !x.skipped && !x.lazyLoadingEnabled
    decreases |items|
  {
    if items == [] then []
    else
      var r := Applied(items[..|items| - 1], prefs);
      var it := items[|items| - 1];
      if it.skipped || it.lazyLoadingEnabled then r else r + [it.(preferences := prefs, loading := true)]
  }

  /** Every item that is neither skipped nor lazily loaded is sent back, with the edited preferences. */
  lemma {:induction false} AppliedCoversEligible(items: seq<OptimizationItem>, prefs: seq<PreferenceItem>, i: int)
    requires 0 <= i < |items| && !items[i].skipped && !items[i].lazyLoadingEnabled
    ensures items[i].(preferences := prefs, loading := true) in Applied(items, prefs)
    decreases |items|
  {
    if i < |items| - 1 {
      var init := items[..|items| - 1];
      assert init[i] == items[i];
      AppliedCoversEligible(init, prefs, i);
    }
  }

  /** Every item sent back is an eligible item with the edited preferences and loading on. */
  lemma {:induction false} AppliedOnlyEligible(items: seq<OptimizationItem>, prefs: seq<PreferenceItem>, x: OptimizationItem)
    requires x in Applied(items, prefs)
    ensures exists i | 0 <= i < |items| :: !items[i].skipped && !items[i].lazyLoadingEnabled &&
              x == items[i].(preferences := prefs, loading := true)
    decreases |items|
  {
    var init := items[..|items| - 1];
    var last := items[|items| - 1];
    if x in Applied(init, prefs) {
      AppliedOnlyEligible(init, prefs, x);
      var i :| 0 <= i < |init| && !init[i].skipped && !init[i].lazyLoadingEnabled &&
               x == init[i].(preferences := prefs, loading := true);
      assert items[i] == init[i];
    } else {
      assert x == last.(preferences := prefs, loading := true);
    }
  }

  /** The re-evaluation requests for the items sent back: their ids with the edited preferences. */
  function Requests(items: seq<OptimizationItem>, prefs: seq<PreferenceItem>): (r: seq<(string, seq<PreferenceItem>)>)
    ensures |r| == |items| && forall i :: 0 <= i < |items| ==> r[i] == (items[i].id, prefs)
  {
    if items == [] then [] else Requests(items[..|items| - 1], prefs) + [(items[|items| - 1].id, prefs)]
  }

  /** `fixVisibleStartIdx` (lines 245-254): the first visible line after scrolling just enough to show the focused one. */
  function WindowStart(start: int, focused: int, visibleCount: int): (r: int)
    ensures visibleCount >= 1 ==> r <= focused < r + visibleCount
    ensures visibleCount >= 1 && start <= focused < start + visibleCount ==> r == start
    ensures visibleCount >= 1 && focused < start ==> r == focused
    ensures visibleCount >= 1 && focused >= start + visibleCount ==> r == focused - visibleCount + 1
  {
    var s1 := if focused < start then focused else start;
    if focused >= s1 + visibleCount then focused - visibleCount + 1 else s1
  }

  /** The keys the page reacts to; all others go to the focused line. */
  datatype PageKey = Enter | Up | Down | ToItem(k: Key)

  function ItemKey(key: PageKey): Key {
    if key.ToItem? then key.k else Other
  }

  /** An item as `OnClose` leaves it in place when nothing is selected: an eligible one takes the edited preferences and starts loading. */
  function ApplyTo(it: OptimizationItem, prefs: seq<PreferenceItem>): OptimizationItem {
    if it.skipped || it.lazyLoadingEnabled then it else it.(preferences := prefs, loading := true)
  }

  /** The store after the `OnClose` loop has passed the positions before `hi`, changed in place through the store's pointers. */
  function AppliedInPlace(items: seq<OptimizationItem>, prefs: seq<PreferenceItem>, hi: int): (r: seq<OptimizationItem>)
    ensures |r| == |items|
  {
    seq(|items|, j requires 0 <= j < |items| => if j < hi then ApplyTo(items[j], prefs) else items[j])
  }

  /** One more position of the `OnClose` loop. */
  lemma AppliedStep(items: seq<OptimizationItem>, prefs: seq<PreferenceItem>, n: int)
    requires 0 <= n < |items|
    ensures AppliedInPlace(items, prefs, n)[n] == items[n]
    ensures !items[n].skipped && !items[n].lazyLoadingEnabled ==>
              AppliedInPlace(items, prefs, n + 1) ==
              AppliedInPlace(items, prefs, n)[n := items[n].(preferences := prefs, loading := true)] &&
              Applied(items[..n + 1], prefs) == Applied(items[..n], prefs) + [items[n].(preferences := prefs, loading := true)]
    ensures items[n].skipped || items[n].lazyLoadingEnabled ==>
              AppliedInPlace(items, prefs, n + 1) == AppliedInPlace(items, prefs, n) &&
              Applied(items[..n + 1], prefs) == Applied(items[..n], prefs)
  {
    assert items[..n + 1][..n] == items[..n];
  }

  /**
   * Closing the page twice with the same preferences and nothing selected
   * leaves the store as the first close did, and every item the first
   * close sent is then in the store, so delivering the queue changes
   * nothing the close has not already changed.
   */
  lemma {:induction false} ApplyAllTwice(items: seq<OptimizationItem>, prefs: seq<PreferenceItem>)
    ensures AppliedInPlace(AppliedInPlace(items, prefs, |items|), prefs, |items|) == AppliedInPlace(items, prefs, |items|)
    ensures forall x :: x in Applied(items, prefs) ==> x in AppliedInPlace(items, prefs, |items|)
  {
    var m := AppliedInPlace(items, prefs, |items|);
    forall x | x in Applied(items, prefs)
      ensures x in m
    {
      AppliedOnlyEligible(items, prefs, x);
      var i :| 0 <= i < |items| && !items[i].skipped && !items[i].lazyLoadingEnabled &&
               x == items[i].(preferences := prefs, loading := true);
      assert m[i] == x;
    }
  }

  /** One more item sent back adds its request. */
  lemma RequestsSnoc(xs: seq<OptimizationItem>, x: OptimizationItem, prefs: seq<PreferenceItem>)
    ensures Requests(xs + [x], prefs) == Requests(xs, prefs) + [(x.id, prefs)]
  {
    assert (xs + [x])[..|xs|] == xs;
  }

  /** One eligible position of the `OnClose` loop: the store, the queue and the requests all advance together. */
  lemma SendBackStep(all: seq<OptimizationItem>, prefs: seq<PreferenceItem>, n: int,
                     queue: seq<OptimizationItem>, requests: seq<(string, seq<PreferenceItem>)>)
    requires 0 <= n < |all| && !all[n].skipped && !all[n].lazyLoadingEnabled
    ensures var updated := all[n].(preferences := prefs, loading := true);
            AppliedInPlace(all, prefs, n)[n := updated] == AppliedInPlace(all, prefs, n + 1) &&
            queue + Applied(all[..n], prefs) + [updated] == queue + Applied(all[..n + 1], prefs) &&
            requests + Requests(Applied(all[..n], prefs), prefs) + [(updated.id, prefs)] ==
            requests + Requests(Applied(all[..n + 1], prefs), prefs)
  {
    var updated := all[n].(preferences := prefs, loading := true);
    var sent := Applied(all[..n], prefs);
    AppliedStep(all, prefs, n);
    RequestsSnoc(sent, updated, prefs);
    Text.Assoc(queue, sent, [updated]);
    Text.Assoc(requests, Requests(sent, prefs), [(updated.id, prefs)]);
  }

  /** One position of the `OnClose` loop with no selection (lines 91-102). */
  method SendBackOne(o: Optimizations<OptimizationItem>, prefs: seq<PreferenceItem>, n: int,
                     ghost all: seq<OptimizationItem>, ghost queue: seq<OptimizationItem>,
                     ghost requests: seq<(string, seq<PreferenceItem>)>)
    requires 0 <= n < |all|
    requires o.items == AppliedInPlace(all, prefs, n)
    requires o.itemsQueue == queue + Applied(all[..n], prefs)
    requires o.reEvaluations == requests + Requests(Applied(all[..n], prefs), prefs)
    modifies o
    ensures o.items == AppliedInPlace(all, prefs, n + 1)
    ensures o.itemsQueue == queue + Applied(all[..n + 1], prefs)
    ensures o.reEvaluations == requests + Requests(Applied(all[..n + 1], prefs), prefs)
    ensures o.selectedItem == old(o.selectedItem) && o.initializing == old(o.initializing)
  {
    AppliedStep(all, prefs, n);
    var selectedItem := o.items[n];
    if !selectedItem.skipped && !selectedItem.lazyLoadingEnabled {
      var updated := selectedItem.(preferences := prefs, loading := true);
      SendBackStep(all, prefs, n, queue, requests);
      o.items := o.items[n := updated];
      o.SendItem(updated);
      o.ReEvaluate(updated.id, prefs);
    }
  }

  /**
   * The loop of `OnClose` with no selection (lines 90-103): each eligible
   * item takes the edited preferences and starts loading in place, and is
   * sent back and re-evaluated.
   */
  method SendBack(o: Optimizations<OptimizationItem>, prefs: seq<PreferenceItem>)
    modifies o
    ensures o.items == AppliedInPlace(old(o.items), prefs, |old(o.items)|)
    ensures o.itemsQueue == old(o.itemsQueue) + Applied(old(o.items), prefs)
    ensures o.reEvaluations == old(o.reEvaluations) + Requests(Applied(old(o.items), prefs), prefs)
    ensures o.selectedItem == old(o.selectedItem) && o.initializing == old(o.initializing)
  {
    ghost var all, queue, requests := o.items, o.itemsQueue, o.reEvaluations;
    for n := 0 to |o.items|
      invariant o.items == AppliedInPlace(all, prefs, n)
      invariant o.itemsQueue == queue + Applied(all[..n], prefs)
      invariant o.reEvaluations == requests + Requests(Applied(all[..n], prefs), prefs)
      invariant o.selectedItem == old(o.selectedItem) && o.initializing == old(o.initializing)
    {
      SendBackOne(o, prefs, n, all, queue, requests);
    }
    assert all[..|all|] == all;
  }

  class PreferencesPage {
    var focused: int
    var serviceList: seq<string>
    var serviceIdx: int
    var items: seq<PreferenceItemView>
    var visibleStartIdx: int
    var height: int
    var keyMap: seq<string>
    const optimizations: Optimizations<OptimizationItem>

    /** `NewPreferencesConfiguration` (lines 35-45). */
    constructor(optimizations: Optimizations<OptimizationItem>)
      ensures this.optimizations == optimizations
      ensures focused == 0 && serviceList == [] && serviceIdx == 0 && items == [] && visibleStartIdx == 0
      ensures height == 0 && keyMap == []
    {
      this.optimizations := optimizations;
      focused, serviceList, serviceIdx, items, visibleStartIdx := 0, [], 0, [], 0;
      height, keyMap := 0, [];
    }

    ghost predicate Valid()
      reads this, items
    {
      0 <= focused < |items| && LinesOk(items)
    }

    /** The preferences the page opens on: the selected item's, or the given registry defaults. */
    function Source(defaults: seq<PreferenceItem>): seq<PreferenceItem>
      reads optimizations
    {
      match optimizations.selectedItem
        case Some(it) => it.preferences
        case None => defaults
    }

    /**
     * `OnOpen` (lines 47-85): one fresh line per preference, the first one
     * focused, the service list rebuilt. The source indexes line 0, so the
     * preference list must not be empty.
     */
    method OnOpen(defaults: seq<PreferenceItem>)
      requires Source(defaults) != []
      modifies this
      ensures Valid()
      ensures var prefs := old(Source(defaults));
              |items| == |prefs| &&
              forall i :: 0 <= i < |items| ==>
                fresh(items[i]) && items[i].pref == Reconfigured(prefs[i], "", 0).pref &&
                items[i].valueIdx == 0 && !items[i].hidden && !items[i].hideService &&
                items[i].focused == (i == 0)
      ensures serviceList == ServiceList(old(Source(defaults)))
      ensures focused == 0 && visibleStartIdx == 0 && keyMap == HelpKeys
      ensures serviceIdx == old(serviceIdx) && height == old(height)
    {
      SetKeyMap(HelpKeys);
      visibleStartIdx := 0;
      var prefs := Source(defaults);
      focused := 0;
      var its := OpenedItems(prefs);
      var services := BuildServiceList(prefs);
      items := its;
      serviceList := services;
    }

    /** The help controller's `SetKeyMap`: the page's help lines. */
    method SetKeyMap(keys: seq<string>)
      modifies this
      ensures keyMap == keys
      ensures focused == old(focused) && serviceList == old(serviceList) && serviceIdx == old(serviceIdx)
      ensures items == old(items) && visibleStartIdx == old(visibleStartIdx) && height == old(height)
    {
      keyMap := keys;
    }

    /**
     * `OnClose` (lines 87-115): the edited preferences go, with loading on,
     * to the selected item, or with no selection to every item that is
     * neither skipped nor lazily loaded; each is sent back to the store and
     * re-evaluated. With no selection the store's items change in place;
     * with a selection the selected item changes, but the store entry the
     * source's pointer shares with it is not followed.
     */
    method OnClose()
      modifies optimizations
      ensures var prefs := PrefsOf(items);
              match old(optimizations.selectedItem)
              case None =>
                optimizations.items == AppliedInPlace(old(optimizations.items), prefs, |old(optimizations.items)|) &&
                optimizations.itemsQueue == old(optimizations.itemsQueue) + Applied(old(optimizations.items), prefs) &&
                optimizations.reEvaluations == old(optimizations.reEvaluations) + Requests(Applied(old(optimizations.items), prefs), prefs) &&
                optimizations.selectedItem == None
              case Some(it) =>
                optimizations.items == old(optimizations.items) &&
                optimizations.selectedItem == Some(it.(preferences := prefs, loading := true)) &&
                optimizations.itemsQueue == old(optimizations.itemsQueue) + [it.(preferences := prefs, loading := true)] &&
                optimizations.reEvaluations == old(optimizations.reEvaluations) + [(it.id, prefs)]
      ensures optimizations.initializing == old(optimizations.initializing)
    {
      var prefs := CollectPrefs(items);
      match optimizations.selectedItem {
        case None =>
          SendBack(optimizations, prefs);
        case Some(selectedItem) =>
          var updated := selectedItem.(preferences := prefs, loading := true);
          optimizations.selectedItem := Some(updated);
          optimizations.SendItem(updated);
          optimizations.ReEvaluate(updated.id, prefs);
      }
    }

    /** `nextInput` (lines 256-261): focus moves forward, wrapping, past hidden lines; with every line hidden the source never returns. */
    method NextInput()
      requires Valid() && SomeVisible(HiddenOf(items))
      modifies this
      ensures focused == NextVisible(old(HiddenOf(items)), old(focused))
      ensures items == old(items) && visibleStartIdx == old(visibleStartIdx) && serviceList == old(serviceList)
      ensures serviceIdx == old(serviceIdx) && height == old(height) && keyMap == old(keyMap)
      ensures Valid()
    {
      focused := NextFocus(items, focused);
    }

    /** `prevInput` (lines 263-272): focus moves backward, wrapping, past hidden lines. */
    method PrevInput()
      requires Valid() && SomeVisible(HiddenOf(items))
      modifies this
      ensures focused == PrevVisible(old(HiddenOf(items)), old(focused))
      ensures items == old(items) && visibleStartIdx == old(visibleStartIdx) && serviceList == old(serviceList)
      ensures serviceIdx == old(serviceIdx) && height == old(height) && keyMap == old(keyMap)
      ensures Valid()
    {
      focused := PrevFocus(items, focused);
    }

    /** `fixVisibleStartIdx` (lines 245-254), for a status bar of the given height. */
    method FixVisibleStartIdx(statusBarHeight: int)
      modifies this
      ensures visibleStartIdx == WindowStart(old(visibleStartIdx), focused, height - (4 + statusBarHeight))
      ensures focused == old(focused) && items == old(items) && serviceList == old(serviceList)
      ensures serviceIdx == old(serviceIdx) && height == old(height) && keyMap == old(keyMap)
    {
      var start := visibleStartIdx;
      while focused < start
        invariant if visibleStartIdx > focused then focused <= start <= visibleStartIdx else start == visibleStartIdx
        decreases start - focused
      {
        start := start - 1;
      }
      ghost var s1 := start;
      var visibleCount := height - (4 + statusBarHeight);
      while focused >= start + visibleCount
        invariant if focused >= s1 + visibleCount then s1 <= start <= focused - visibleCount + 1 else start == s1
        decreases focused - visibleCount + 1 - start
      {
        start := start + 1;
      }
      visibleStartIdx := start;
    }

    /** `ChangeService` (lines 207-225). */
    method ChangeService(svc: string)
      requires Valid()
      modifies items
      ensures Valid()
      ensures HiddenOf(items) == HiddenFor(PrefsOf(items), svc)
      ensures forall i :: 0 <= i < |items| ==> items[i].hideService == (svc != All)
      ensures forall i :: 0 <= i < |items| ==>
                items[i].pref == old(items[i].pref) && items[i].text == old(items[i].text) &&
                items[i].valueIdx == old(items[i].valueIdx) && items[i].focused == old(items[i].focused)
    {
      FilterByService(items, svc);
    }

    /**
     * `Update` (lines 121-163) for a key: Enter and Down move focus forward,
     * Up backward, each followed by scrolling; then only the focused line
     * has focus, and the focused line handles the key itself.
     */
    method Update(key: PageKey, statusBarHeight: int, edit: string -> string)
      requires Valid()
      requires key.Enter? || key.Up? || key.Down? ==> SomeVisible(HiddenOf(items))
      modifies this, items
      ensures Valid() && items == old(items)
      ensures focused == match key
                case Enter => NextVisible(old(HiddenOf(items)), old(focused))
                case Down => NextVisible(old(HiddenOf(items)), old(focused))
                case Up => PrevVisible(old(HiddenOf(items)), old(focused))
                case ToItem(_) => old(focused)
      ensures visibleStartIdx ==
                if key.ToItem? then old(visibleStartIdx)
                else WindowStart(old(visibleStartIdx), focused, height - (4 + statusBarHeight))
      ensures forall i :: 0 <= i < |items| ==> items[i].focused == (i == focused)
      ensures forall i :: 0 <= i < |items| && i != focused ==>
                items[i].pref == old(items[i].pref) && items[i].text == old(items[i].text) &&
                items[i].valueIdx == old(items[i].valueIdx) && items[i].hidden == old(items[i].hidden)
      ensures var f := focused;
              var it := items[f];
              it.hidden == old(items[f].hidden) &&
              (it.hidden ==> it.pref == old(items[f].pref) && it.text == old(items[f].text) && it.valueIdx == old(items[f].valueIdx)) &&
              (!it.hidden ==>
                 var s := KeyStep(Input(old(items[f].pref), old(items[f].text), old(items[f].validator), old(items[f].placeholder)),
                                  old(items[f].valueIdx), ItemKey(key));
                 it.text == edit(s.input.text) && it.pref == s.input.pref.(value := StoredValue(it.text)) &&
                 it.valueIdx == s.valueIdx)
    {
      Move(key, statusBarHeight);
      FocusAndUpdate(items, focused, ItemKey(key), edit);
    }

    /** Lines 124-133 of `Update`: the focus moves and the window follows it. */
    method Move(key: PageKey, statusBarHeight: int)
      requires Valid()
      requires key.Enter? || key.Up? || key.Down? ==> SomeVisible(HiddenOf(items))
      modifies this
      ensures Valid() && items == old(items)
      ensures focused == match key
                case Enter => NextVisible(old(HiddenOf(items)), old(focused))
                case Down => NextVisible(old(HiddenOf(items)), old(focused))
                case Up => PrevVisible(old(HiddenOf(items)), old(focused))
                case ToItem(_) => old(focused)
      ensures visibleStartIdx ==
                if key.ToItem? then old(visibleStartIdx)
                else WindowStart(old(visibleStartIdx), focused, height - (4 + statusBarHeight))
      ensures height == old(height)
    {
      match key {
        case Enter =>
          NextInput();
          FixVisibleStartIdx(statusBarHeight);
        case Up =>
          PrevInput();
          FixVisibleStartIdx(statusBarHeight);
        case Down =>
          NextInput();
          FixVisibleStartIdx(statusBarHeight);
        case ToItem(_) =>
      }
    }
  }
}
