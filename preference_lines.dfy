/**
 * The list of preference lines shared by the two preference editors
 * (view/page_preferences.go and cmd/optimize/view/preferences_configuration.go):
 * building the lines and the service filter's entries, filtering by
 * service, moving focus forwards and backwards past hidden lines, and
 * giving focus to exactly one line. Both editors run the same code on
 * their own fields; here it runs on the sequence of lines.
 */
module PreferenceLines {
  import opened Wrappers
  import opened Proto
  import opened Cycling
  import opened PreferenceItemView

  const All: string := "All"

  /** The services of a list of preferences. */
  function ServicesOf(prefs: seq<PreferenceItem>): set<string> {
    set i | 0 <= i < |prefs| :: prefs[i].service
  }

  /** The service filter's entries: "All", then each service once, in order of first appearance. */
  function ServiceList(prefs: seq<PreferenceItem>): (r: seq<string>)
    ensures |r| >= 1 && r[0] == All
    ensures forall i, j :: 0 <= i < j < |r| ==> r[i] != r[j]
    ensures forall k :: 1 <= k < |r| ==> r[k] in ServicesOf(prefs)
    ensures forall i :: 0 <= i < |prefs| ==> prefs[i].service in r
    decreases |prefs|
  {
    if prefs == [] then [All]
    else
      var init := prefs[..|prefs| - 1];
      var r := ServiceList(init);
      var s := prefs[|prefs| - 1].service;
      assert forall i :: 0 <= i < |init| ==> init[i] == prefs[i];
      assert ServicesOf(init) <= ServicesOf(prefs);
      if s in r then r else r + [s]
  }

  /** A service listed earlier first appears earlier in the preferences. */
  lemma {:induction false} ServiceListOrder(prefs: seq<PreferenceItem>, k: int, l: int, j: int)
    requires 1 <= k < l < |ServiceList(prefs)|
    requires 0 <= j < |prefs| && prefs[j].service == ServiceList(prefs)[l]
    ensures exists i | 0 <= i < j :: prefs[i].service == ServiceList(prefs)[k]
    decreases |prefs|
  {
    var init := prefs[..|prefs| - 1];
    var r := ServiceList(init);
    assert forall i :: 0 <= i < |init| ==> init[i] == prefs[i];
    if l < |r| {
      if j < |init| {
        ServiceListOrder(init, k, l, j);
        var i :| 0 <= i < j && init[i].service == r[k];
      } else {
        assert r[l] in ServicesOf(init);
        var j' :| 0 <= j' < |init| && init[j'].service == r[l];
        ServiceListOrder(init, k, l, j');
        var i :| 0 <= i < j' && init[i].service == r[k];
      }
    } else {
      assert r[k] in ServicesOf(init);
      var i :| 0 <= i < |init| && init[i].service == r[k];
      assert ServiceList(prefs)[l] !in r;
      assert j == |init|;
    }
  }

  /** The hidden flags the service filter sets for the preferences shown. */
  function HiddenFor(prefs: seq<PreferenceItem>, svc: string): (h: seq<bool>)
    ensures |h| == |prefs|
    ensures forall i :: 0 <= i < |prefs| ==> h[i] == (svc != All && prefs[i].service != svc)
  {
    seq(|prefs|, i requires 0 <= i < |prefs| => svc != All && prefs[i].service != svc)
  }

  /** Filtering on any entry of the service list leaves a line to focus, so moving focus terminates. */
  lemma FilterLeavesVisible(prefs: seq<PreferenceItem>, k: int)
    requires prefs != [] && 0 <= k < |ServiceList(prefs)|
    ensures SomeVisible(HiddenFor(prefs, ServiceList(prefs)[k]))
  {
    var svc := ServiceList(prefs)[k];
    var h := HiddenFor(prefs, svc);
    if k == 0 {
      assert !h[0];
    } else {
      assert svc in ServicesOf(prefs);
      var i :| 0 <= i < |prefs| && prefs[i].service == svc;
      assert !h[i];
    }
  }

  /** Which lines are hidden. */
  function HiddenOf(its: seq<PreferenceItemView>): (h: seq<bool>)
    reads its
    ensures |h| == |its| && forall i :: 0 <= i < |its| ==> h[i] == its[i].hidden
  {
    seq(|its|, i reads its requires 0 <= i < |its| => its[i].hidden)
  }

  /** The edited preferences, in line order. */
  function PrefsOf(its: seq<PreferenceItemView>): (ps: seq<PreferenceItem>)
    reads its
    ensures |ps| == |its| && forall i :: 0 <= i < |its| ==> ps[i] == its[i].pref
  {
    seq(|its|, i reads its requires 0 <= i < |its| => its[i].pref)
  }

  /** Distinct lines, each with a usable value index. */
  ghost predicate LinesOk(its: seq<PreferenceItemView>)
    reads its
  {
    (forall i, j :: 0 <= i < j < |its| ==> its[i] != its[j]) &&
    (forall i :: 0 <= i < |its| ==> its[i].Valid())
  }

  /** One fresh, unfocused, shown line per preference. */
  method NewItems(prefs: seq<PreferenceItem>) returns (its: seq<PreferenceItemView>)
    ensures |its| == |prefs|
    ensures forall i :: 0 <= i < |its| ==>
              fresh(its[i]) && its[i].Valid() && its[i].pref == Reconfigured(prefs[i], "", 0).pref &&
              its[i].valueIdx == 0 && !its[i].hidden && !its[i].hideService && !its[i].focused
    ensures forall i, j :: 0 <= i < j < |its| ==> its[i] != its[j]
  {
    its := [];
    for n := 0 to |prefs|
      invariant |its| == n
      invariant forall i :: 0 <= i < n ==>
                  fresh(its[i]) && its[i].Valid() && its[i].pref == Reconfigured(prefs[i], "", 0).pref &&
                  its[i].valueIdx == 0 && !its[i].hidden && !its[i].hideService && !its[i].focused
      invariant forall i, j :: 0 <= i < j < n ==> its[i] != its[j]
    {
      var it := new PreferenceItemView(prefs[n]);
      its := its + [it];
    }
  }

  /** The lines an editor opens with, the first one focused. The source indexes line 0, so there must be one. */
  method OpenedItems(prefs: seq<PreferenceItem>) returns (its: seq<PreferenceItemView>)
    requires prefs != []
    ensures |its| == |prefs| && LinesOk(its)
    ensures forall i :: 0 <= i < |its| ==>
              fresh(its[i]) && its[i].pref == Reconfigured(prefs[i], "", 0).pref &&
              its[i].valueIdx == 0 && !its[i].hidden && !its[i].hideService && its[i].focused == (i == 0)
  {
    its := NewItems(prefs);
    its[0].Focus();
  }

  /** Whether `s` is already listed. */
  method Contains(list: seq<string>, s: string) returns (b: bool)
    ensures b <==> s in list
  {
    b := false;
    for k := 0 to |list|
      invariant b <==> s in list[..k]
    {
      if list[k] == s {
        b := true;
      }
    }
    assert list[..|list|] == list;
  }

  /** The service filter's entries, built as the editors build them. */
  method BuildServiceList(prefs: seq<PreferenceItem>) returns (services: seq<string>)
    ensures services == ServiceList(prefs)
  {
    services := [All];
    for n := 0 to |prefs|
      invariant services == ServiceList(prefs[..n])
    {
      var known := Contains(services, prefs[n].service);
      assert prefs[..n + 1][..n] == prefs[..n];
      if !known {
        services := services + [prefs[n].service];
      }
    }
    assert prefs[..|prefs|] == prefs;
  }

  /** The preferences as edited, collected line by line. */
  method CollectPrefs(its: seq<PreferenceItemView>) returns (prefs: seq<PreferenceItem>)
    ensures prefs == PrefsOf(its)
  {
    prefs := [];
    for n := 0 to |its|
      invariant prefs == PrefsOf(its)[..n]
    {
      prefs := prefs + [its[n].pref];
    }
    assert PrefsOf(its)[..|its|] == PrefsOf(its);
  }

  /** The line focus moves to going forward, one step at a time past hidden lines; with every line hidden the source never returns. */
  method NextFocus(its: seq<PreferenceItemView>, from: int) returns (r: int)
    requires 0 <= from < |its| && SomeVisible(HiddenOf(its))
    ensures r == NextVisible(HiddenOf(its), from)
  {
    ghost var h := HiddenOf(its);
    var n := |its|;
    VisibleAhead(h, from);
    ghost var target := Ahead(h, from, 1);
    r := NextIdx(from, n);
    ghost var d := 1;
    while its[r].hidden
      invariant 1 <= d <= target && r == After(from, d, n)
      decreases target - d
    {
      r := NextIdx(r, n);
      d := d + 1;
    }
    assert d == target;
  }

  /** The line focus moves to going backward, one step at a time past hidden lines. */
  method PrevFocus(its: seq<PreferenceItemView>, from: int) returns (r: int)
    requires 0 <= from < |its| && SomeVisible(HiddenOf(its))
    ensures r == PrevVisible(HiddenOf(its), from)
  {
    ghost var h := HiddenOf(its);
    var n := |its|;
    VisibleBehind(h, from);
    ghost var target := Behind(h, from, 1);
    r := from - 1;
    if r < 0 {
      r := n - 1;
    }
    ghost var d := 1;
    while its[r].hidden
      invariant 1 <= d <= target && r == Before(from, d, n)
      decreases target - d
    {
      r := r - 1;
      if r < 0 {
        r := n - 1;
      }
      d := d + 1;
    }
    assert d == target;
  }

  /**
   * `ChangeService`: "All" shows every line with its service; any other
   * service shows exactly that service's lines, without the service name.
   */
  method FilterByService(its: seq<PreferenceItemView>, svc: string)
    requires LinesOk(its)
    modifies its
    ensures LinesOk(its) && PrefsOf(its) == old(PrefsOf(its))
    ensures HiddenOf(its) == HiddenFor(PrefsOf(its), svc)
    ensures forall i :: 0 <= i < |its| ==> its[i].hideService == (svc != All)
    ensures forall i :: 0 <= i < |its| ==>
              its[i].pref == old(its[i].pref) && its[i].text == old(its[i].text) &&
              its[i].valueIdx == old(its[i].valueIdx) && its[i].focused == old(its[i].focused) &&
              its[i].validator == old(its[i].validator) && its[i].placeholder == old(its[i].placeholder)
  {
    for n := 0 to |its|
      invariant forall i :: 0 <= i < n ==>
                  its[i].hidden == (svc != All && its[i].pref.service != svc) && its[i].hideService == (svc != All)
      invariant forall i :: 0 <= i < |its| ==>
                  its[i].pref == old(its[i].pref) && its[i].text == old(its[i].text) &&
                  its[i].valueIdx == old(its[i].valueIdx) && its[i].focused == old(its[i].focused) &&
                  its[i].validator == old(its[i].validator) && its[i].placeholder == old(its[i].placeholder)
    {
      ShowForService(its[n], svc);
    }
    forall i | 0 <= i < |its| ensures its[i].Valid() {
      assert its[i].pref == old(its[i].pref) && its[i].valueIdx == old(its[i].valueIdx);
    }
    assert PrefsOf(its) == old(PrefsOf(its));
  }

  /** The branches of `ChangeService` for one line. */
  method ShowForService(v: PreferenceItemView, svc: string)
    modifies v
    ensures v.hidden == (svc != All && v.pref.service != svc) && v.hideService == (svc != All)
    ensures v.pref == old(v.pref) && v.text == old(v.text) && v.valueIdx == old(v.valueIdx) &&
            v.focused == old(v.focused) && v.validator == old(v.validator) && v.placeholder == old(v.placeholder)
  {
    if svc == All {
      v.hidden := false;
      v.hideService := false;
    } else if v.pref.service == svc {
      v.hidden := false;
      v.hideService := true;
    } else {
      v.hidden := true;
      v.hideService := true;
    }
  }

  /** Every line loses focus, then the focused one regains it. */
  method FocusOnly(its: seq<PreferenceItemView>, focused: int)
    requires 0 <= focused < |its| && LinesOk(its)
    modifies its
    ensures forall i :: 0 <= i < |its| ==> its[i].focused == (i == focused)
    ensures forall i :: 0 <= i < |its| ==>
              its[i].pref == old(its[i].pref) && its[i].text == old(its[i].text) &&
              its[i].valueIdx == old(its[i].valueIdx) && its[i].hidden == old(its[i].hidden) &&
              its[i].validator == old(its[i].validator) && its[i].placeholder == old(its[i].placeholder) &&
              its[i].hideService == old(its[i].hideService)
    ensures LinesOk(its)
  {
    for i := 0 to |its|
      invariant forall j :: 0 <= j < i ==> !its[j].focused
      invariant forall j :: 0 <= j < |its| ==>
                  its[j].pref == old(its[j].pref) && its[j].text == old(its[j].text) &&
                  its[j].valueIdx == old(its[j].valueIdx) && its[j].hidden == old(its[j].hidden) &&
                  its[j].validator == old(its[j].validator) && its[j].placeholder == old(its[j].placeholder) &&
                  its[j].hideService == old(its[j].hideService)
    {
      its[i].Blur();
    }
    its[focused].Focus();
  }

  /** After a key: focus on the focused line only, which then handles the key itself; hidden flags stay. */
  method FocusAndUpdate(its: seq<PreferenceItemView>, f: int, key: Key, edit: string -> string)
    requires 0 <= f < |its| && LinesOk(its)
    modifies its
    ensures LinesOk(its) && HiddenOf(its) == old(HiddenOf(its))
    ensures forall i :: 0 <= i < |its| ==> its[i].focused == (i == f)
    ensures forall i :: 0 <= i < |its| && i != f ==>
              its[i].pref == old(its[i].pref) && its[i].text == old(its[i].text) && its[i].valueIdx == old(its[i].valueIdx)
    ensures old(its[f].hidden) ==>
              its[f].pref == old(its[f].pref) && its[f].text == old(its[f].text) && its[f].valueIdx == old(its[f].valueIdx)
    ensures !old(its[f].hidden) ==>
              var s := KeyStep(Input(old(its[f].pref), old(its[f].text), old(its[f].validator), old(its[f].placeholder)),
                               old(its[f].valueIdx), key);
              its[f].text == edit(s.input.text) && its[f].pref == s.input.pref.(value := StoredValue(its[f].text)) &&
              its[f].valueIdx == s.valueIdx
  {
    FocusOnly(its, f);
    its[f].Update(key, edit);
    assert forall i :: 0 <= i < |its| ==> its[i].hidden == old(its[i].hidden);
  }
}
