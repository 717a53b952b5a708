/**
 * The process-wide preference registry of preferences/const.go: a list of
 * preference items identified by (service, key) that plugins register into,
 * that a preferences file updates value by value, and that is exported to a
 * key-to-value map for a request. The package-level slice is the field of a
 * single `Registry` object.
 */
module PreferencesRegistry {
  import opened Wrappers
  import opened Proto

  /** A (service, key, value) line of a preferences file; a missing value is `None`. */
  datatype PreferenceValueItem = PreferenceValueItem(service: string, key: string, value: Option<string>)

  predicate Matches(p: PreferenceItem, service: string, key: string) {
    p.service == service && p.key == key
  }

  /** The index of the first item with this service and key. */
  function FirstMatch(prefs: seq<PreferenceItem>, service: string, key: string): (r: Option<nat>)
    ensures r.Some? ==> r.value < |prefs| && Matches(prefs[r.value], service, key)
    ensures r.Some? ==> forall j :: 0 <= j < r.value ==> !Matches(prefs[j], service, key)
    ensures r.None? <==> forall j :: 0 <= j < |prefs| ==> !Matches(prefs[j], service, key)
  {
    if prefs == [] then None
    else if Matches(prefs[0], service, key) then Some(0)
    else match FirstMatch(prefs[1..], service, key)
      case None => None
      case Some(i) => Some(i + 1)
  }

  /** The item a lookup by (service, key) finds: the first match. */
  function Lookup(prefs: seq<PreferenceItem>, service: string, key: string): Option<PreferenceItem> {
    match FirstMatch(prefs, service, key)
      case None => None
      case Some(i) => Some(prefs[i])
  }

  /** The registry after one item of `Update`: the first entry with its (service, key) is replaced, else it is appended. */
  function Upsert(prefs: seq<PreferenceItem>, pi: PreferenceItem): (r: seq<PreferenceItem>)
    ensures FirstMatch(prefs, pi.service, pi.key).Some? ==>
              |r| == |prefs| && r == prefs[FirstMatch(prefs, pi.service, pi.key).value := pi]
    ensures FirstMatch(prefs, pi.service, pi.key).None? ==> r == prefs + [pi]
  {
    match FirstMatch(prefs, pi.service, pi.key)
      case Some(i) => prefs[i := pi]
      case None => prefs + [pi]
  }

  /** `Update` over a batch, one item after the other. */
  function UpsertAll(prefs: seq<PreferenceItem>, pis: seq<PreferenceItem>): seq<PreferenceItem>
    decreases |pis|
  {
    if pis == [] then prefs else Upsert(UpsertAll(prefs, pis[..|pis| - 1]), pis[|pis| - 1])
  }

  /** After an upsert, a lookup of its key finds the new item, and every other lookup is unchanged. */
  lemma UpsertLookup(prefs: seq<PreferenceItem>, pi: PreferenceItem, service: string, key: string)
    ensures Lookup(Upsert(prefs, pi), service, key) ==
              if pi.service == service && pi.key == key then Some(pi) else Lookup(prefs, service, key)
  {
    var r := Upsert(prefs, pi);
    if !(pi.service == service && pi.key == key) {
      match FirstMatch(prefs, service, key)
      case None =>
        assert forall j :: 0 <= j < |r| ==> !Matches(r[j], service, key);
      case Some(i) =>
        assert Matches(r[i], service, key) && r[i] == prefs[i];
        assert FirstMatch(r, service, key) == Some(i);
    } else {
      var i := if FirstMatch(prefs, service, key).Some? then FirstMatch(prefs, service, key).value else |prefs|;
      assert Matches(r[i], service, key);
      assert FirstMatch(r, service, key) == Some(i);
    }
  }

  /** An upsert never loses a (service, key): the registry only grows, by at most one entry. */
  lemma UpsertKeepsKeys(prefs: seq<PreferenceItem>, pi: PreferenceItem, service: string, key: string)
    requires Lookup(prefs, service, key).Some?
    ensures Lookup(Upsert(prefs, pi), service, key).Some?
    ensures |prefs| <= |Upsert(prefs, pi)| <= |prefs| + 1
  {
    UpsertLookup(prefs, pi, service, key);
  }

  /** The registry after one value line, when its key is registered: the first match's value is set. */
  function SetValue(prefs: seq<PreferenceItem>, pv: PreferenceValueItem): (r: seq<PreferenceItem>)
    requires FirstMatch(prefs, pv.service, pv.key).Some?
    ensures |r| == |prefs|
    ensures forall j :: 0 <= j < |prefs| ==> r[j] == if j == FirstMatch(prefs, pv.service, pv.key).value then prefs[j].(value := pv.value) else prefs[j]
  {
    var i := FirstMatch(prefs, pv.service, pv.key).value;
    prefs[i := prefs[i].(value := pv.value)]
  }

  /** Setting a value changes no service or key, so every lookup still finds the same position. */
  lemma SetValueKeepsMatches(prefs: seq<PreferenceItem>, pv: PreferenceValueItem, service: string, key: string)
    requires FirstMatch(prefs, pv.service, pv.key).Some?
    ensures FirstMatch(SetValue(prefs, pv), service, key) == FirstMatch(prefs, service, key)
  {
    var r := SetValue(prefs, pv);
    forall j | 0 <= j < |r| ensures Matches(r[j], service, key) <==> Matches(prefs[j], service, key) {
      assert r[j].service == prefs[j].service && r[j].key == prefs[j].key;
    }
    FirstMatchAgrees(r, prefs, service, key);
  }

  /** The first match depends only on which positions match. */
  lemma {:induction false} FirstMatchAgrees(a: seq<PreferenceItem>, b: seq<PreferenceItem>, service: string, key: string)
    requires |a| == |b| && forall j :: 0 <= j < |a| ==> (Matches(a[j], service, key) <==> Matches(b[j], service, key))
    ensures FirstMatch(a, service, key) == FirstMatch(b, service, key)
    decreases |a|
  {
    if a != [] && !Matches(a[0], service, key) {
      assert !Matches(b[0], service, key);
      forall j | 0 <= j < |a| - 1 ensures Matches(a[1..][j], service, key) <==> Matches(b[1..][j], service, key) {
        assert a[1..][j] == a[j + 1] && b[1..][j] == b[j + 1];
      }
      FirstMatchAgrees(a[1..], b[1..], service, key);
    }
  }

  /** A lookup after setting a value finds the updated item for that key and the old item for any other. */
  lemma SetValueLookup(prefs: seq<PreferenceItem>, pv: PreferenceValueItem, service: string, key: string)
    requires FirstMatch(prefs, pv.service, pv.key).Some?
    ensures Lookup(SetValue(prefs, pv), service, key) ==
              if pv.service == service && pv.key == key then Some(Lookup(prefs, service, key).value.(value := pv.value))
              else Lookup(prefs, service, key)
  {
    SetValueKeepsMatches(prefs, pv, service, key);
  }

  /** The position of the first value line whose key is not registered (`|pis|` when all are). */
  function FirstMissing(prefs: seq<PreferenceItem>, pis: seq<PreferenceValueItem>): (m: nat)
    ensures m <= |pis|
    ensures forall j :: 0 <= j < m ==> FirstMatch(prefs, pis[j].service, pis[j].key).Some?
    ensures m < |pis| ==> FirstMatch(prefs, pis[m].service, pis[m].key).None?
  {
    if pis == [] then 0
    else if FirstMatch(prefs, pis[0].service, pis[0].key).None? then 0
    else 1 + FirstMissing(prefs, pis[1..])
  }

  /** Value lines applied in order, all of them registered. */
  function SetValues(prefs: seq<PreferenceItem>, pis: seq<PreferenceValueItem>): (r: seq<PreferenceItem>)
    requires forall j :: 0 <= j < |pis| ==> FirstMatch(prefs, pis[j].service, pis[j].key).Some?
    ensures |r| == |prefs|
    ensures forall s, k :: FirstMatch(r, s, k) == FirstMatch(prefs, s, k)
    decreases |pis|
  {
    if pis == [] then prefs
    else
      var before := SetValues(prefs, pis[..|pis| - 1]);
      var pv := pis[|pis| - 1];
      assert FirstMatch(before, pv.service, pv.key) == FirstMatch(prefs, pv.service, pv.key);
      forall s, k ensures FirstMatch(SetValue(before, pv), s, k) == FirstMatch(before, s, k) {
        SetValueKeepsMatches(before, pv, s, k);
      }
      SetValue(before, pv)
  }

  /**
   * The loop of `UpdateValues` at line `n`: the line is found exactly when
   * it comes before the first unregistered one, and then setting its value
   * at the position found applies one more line.
   */
  lemma UpdateStep(start: seq<PreferenceItem>, pis: seq<PreferenceValueItem>, n: int)
    requires 0 <= n <= FirstMissing(start, pis) && n < |pis|
    ensures var cur := SetValues(start, pis[..n]);
            var f := FirstMatch(cur, pis[n].service, pis[n].key);
            (f.None? <==> n == FirstMissing(start, pis)) &&
            (f.Some? ==> f.value < |cur| && SetValues(start, pis[..n + 1]) == cur[f.value := cur[f.value].(value := pis[n].value)])
  {
    UpdateFinds(start, pis, n);
    if n < FirstMissing(start, pis) {
      SetValuesNext(start, pis, n);
    }
  }

  /** Line `n` of the loop is found exactly when it is registered. */
  lemma UpdateFinds(start: seq<PreferenceItem>, pis: seq<PreferenceValueItem>, n: int)
    requires 0 <= n <= FirstMissing(start, pis) && n < |pis|
    ensures FirstMatch(SetValues(start, pis[..n]), pis[n].service, pis[n].key).None? <==> n == FirstMissing(start, pis)
  {
    var pv := pis[n];
    assert FirstMatch(SetValues(start, pis[..n]), pv.service, pv.key) == FirstMatch(start, pv.service, pv.key);
  }

  /** One more registered value line applied. */
  lemma SetValuesNext(start: seq<PreferenceItem>, pis: seq<PreferenceValueItem>, n: int)
    requires 0 <= n < FirstMissing(start, pis)
    ensures SetValues(start, pis[..n + 1]) == SetValue(SetValues(start, pis[..n]), pis[n])
  {
    var p1 := pis[..n + 1];
    assert p1[..|p1| - 1] == pis[..n] && p1[|p1| - 1] == pis[n];
  }

  function NotFound(key: string): string {
    "preferences key " + key + " not found"
  }

  /** Whether an item shows up in an export under `key`: pinned, or carrying a value. */
  predicate Exports(p: PreferenceItem, key: string) {
    p.key == key && (p.pinned || p.value.Some?)
  }

  /** What an exported item maps to: nothing for a pinned item, else its value. */
  function ExportValue(p: PreferenceItem): Option<string> {
    if p.pinned then None else p.value
  }

  /** The export map, item after item; later items overwrite earlier ones with the same key. */
  function Exported(prefs: seq<PreferenceItem>): map<string, Option<string>>
    decreases |prefs|
  {
    if prefs == [] then map[]
    else
      var m := Exported(prefs[..|prefs| - 1]);
      var p := prefs[|prefs| - 1];
      if p.pinned || p.value.Some? then m[p.key := ExportValue(p)] else m
  }

  /** A key is exported iff some item with that key is pinned or has a value. */
  lemma {:induction false} ExportedKeys(prefs: seq<PreferenceItem>, key: string)
    ensures key in Exported(prefs) <==> exists i | 0 <= i < |prefs| :: Exports(prefs[i], key)
    decreases |prefs|
  {
    if prefs != [] {
      var init := prefs[..|prefs| - 1];
      ExportedKeys(init, key);
      if exists i | 0 <= i < |prefs| :: Exports(prefs[i], key) {
        var i :| 0 <= i < |prefs| && Exports(prefs[i], key);
        if i < |init| {
          assert Exports(init[i], key);
        }
      } else {
        forall i | 0 <= i < |init| ensures !Exports(init[i], key) {
          assert init[i] == prefs[i];
        }
      }
    }
  }

  /** An exported key maps to what the last item exporting it exports: later items overwrite earlier ones. */
  lemma {:induction false} ExportedLast(prefs: seq<PreferenceItem>, i: int)
    requires 0 <= i < |prefs| && Exports(prefs[i], prefs[i].key)
    requires forall j :: i < j < |prefs| ==> !Exports(prefs[j], prefs[i].key)
    ensures prefs[i].key in Exported(prefs) && Exported(prefs)[prefs[i].key] == ExportValue(prefs[i])
    decreases |prefs|
  {
    if i < |prefs| - 1 {
      var init := prefs[..|prefs| - 1];
      assert init[i] == prefs[i];
      ExportedLast(init, i);
    }
  }

  /** A pinned item exports its key as unset, whatever value it carries, unless a later item of that key overrides it. */
  lemma ExportedPinned(prefs: seq<PreferenceItem>, i: int)
    requires 0 <= i < |prefs| && prefs[i].pinned
    requires forall j :: i < j < |prefs| ==> !Exports(prefs[j], prefs[i].key)
    ensures prefs[i].key in Exported(prefs) && Exported(prefs)[prefs[i].key] == None
  {
    ExportedLast(prefs, i);
  }

  /** The scan both update loops share: the position of the first entry with this (service, key). */
  method FindFirst(prefs: seq<PreferenceItem>, service: string, key: string) returns (r: Option<nat>)
    ensures r == FirstMatch(prefs, service, key)
  {
    var idx := 0;
    while idx < |prefs|
      invariant 0 <= idx <= |prefs|
      invariant forall j :: 0 <= j < idx ==> !Matches(prefs[j], service, key)
    {
      if prefs[idx].service == service && prefs[idx].key == key {
        return Some(idx);
      }
      idx := idx + 1;
    }
    return None;
  }

  /** The registry (the package's `defaultPref` slice). */
  class Registry {
    var prefs: seq<PreferenceItem>

    constructor()
      ensures prefs == []
    {
      prefs := [];
    }

    /** `Update` (lines 23-37): each item replaces the first entry with its (service, key), or is appended. */
    method Update(pis: seq<PreferenceItem>)
      modifies this
      ensures prefs == UpsertAll(old(prefs), pis)
    {
      ghost var start := prefs;
      var cur := prefs;
      for n := 0 to |pis|
        invariant cur == UpsertAll(start, pis[..n])
      {
        var pi := pis[n];
        assert pis[..n + 1][..n] == pis[..n];
        var found := FindFirst(cur, pi.service, pi.key);
        match found {
          case Some(idx) => cur := cur[idx := pi];
          case None => cur := cur + [pi];
        }
      }
      assert pis[..|pis|] == pis;
      prefs := cur;
    }

    /**
     * `UpdateValues` (lines 39-58): value lines are applied in order until
     * one names an unregistered key; that one fails, and the lines before
     * it stay applied.
     */
    method UpdateValues(pis: seq<PreferenceValueItem>) returns (err: Option<string>)
      modifies this
      ensures var m := FirstMissing(old(prefs), pis);
              prefs == SetValues(old(prefs), pis[..m]) &&
              err == if m == |pis| then None else Some(NotFound(pis[m].key))
    {
      ghost var start := prefs;
      ghost var m := FirstMissing(start, pis);
      var cur := prefs;
      for n := 0 to |pis|
        invariant n <= m
        invariant cur == SetValues(start, pis[..n])
      {
        var pi := pis[n];
        UpdateStep(start, pis, n);
        var found := FindFirst(cur, pi.service, pi.key);
        if found.None? {
          prefs := cur;
          return Some(NotFound(pi.key));
        }
        var idx := found.value;
        cur := cur[idx := cur[idx].(value := pi.value)];
      }
      assert pis[..|pis|] == pis;
      prefs := cur;
      return None;
    }

    /** `DefaultPreferences` (lines 60-62). */
    function DefaultPreferences(): seq<PreferenceItem>
      reads this
    {
      prefs
    }
  }

  /** `Export` (lines 64-76): the map of exported keys. */
  method Export(pref: seq<PreferenceItem>) returns (ex: map<string, Option<string>>)
    ensures ex == Exported(pref)
  {
    ex := map[];
    for n := 0 to |pref|
      invariant ex == Exported(pref[..n])
    {
      assert pref[..n + 1][..n] == pref[..n];
      var p := pref[n];
      if p.pinned {
        ex := ex[p.key := None];
      } else {
        if p.value.Some? {
          ex := ex[p.key := p.value];
        }
      }
    }
    assert pref[..|pref|] == pref;
  }
}
