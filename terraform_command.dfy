/**
 * The `terraform` command of cmd/terraform.go: it takes the optimization
 * items of the RDS plugin, picks a new instance class for each database
 * that is old enough and has one, rewrites the matching `module` blocks of
 * a Terraform file and describes the change as a pull request.
 *
 * The HCL file is a list of blocks whose attributes are the source text of
 * their expressions (parsing and printing HCL are not part of this model).
 * Go iterates the recommendation map in no fixed order: that order is a
 * parameter, one listing of the map's keys per block, and the counts and
 * the saving total are shown not to depend on it. Resolving a local value
 * may not terminate in the source; here it carries fuel and `None` stands
 * for running out of it.
 */
module TerraformCommand {
  import opened Wrappers
  import opened Text
  import opened Proto

  // ---------------------------------------------------------------- resolveValue

  /** The characters of the regular-expression class `\w`. */
  predicate IsWordChar(c: char) {
    'a' <= c <= 'z' || 'A' <= c <= 'Z' || '0' <= c <= '9' || c == '_'
  }

  /** The characters of the class `[\w.]`. */
  predicate IsPathChar(c: char) {
    IsWordChar(c) || c == '.'
  }

  /** A local's name as `local\.(\w+)` captures it: one or more word characters. */
  predicate IsName(name: string) {
    name != [] && forall j :: 0 <= j < |name| ==> IsWordChar(name[j])
  }

  /** The length of the longest run of word characters from `i`. */
  function WordRun(s: string, i: nat): (n: nat)
    requires i <= |s|
    ensures i + n <= |s|
    ensures forall j :: i <= j < i + n ==> IsWordChar(s[j])
    ensures i + n == |s| || !IsWordChar(s[i + n])
    decreases |s| - i
  {
    if i < |s| && IsWordChar(s[i]) then 1 + WordRun(s, i + 1) else 0
  }

  /** The length of the longest run of `[\w.]` characters from `i`. */
  function PathRun(s: string, i: nat): (n: nat)
    requires i <= |s|
    ensures i + n <= |s|
    ensures forall j :: i <= j < i + n ==> IsPathChar(s[j])
    ensures i + n == |s| || !IsPathChar(s[i + n])
    decreases |s| - i
  {
    if i < |s| && IsPathChar(s[i]) then 1 + PathRun(s, i + 1) else 0
  }

  /** `local.` followed by a word character starts at `i`. */
  predicate LocalAt(s: string, i: nat) {
    i + 7 <= |s| && s[i] == 'l' && s[i + 1] == 'o' && s[i + 2] == 'c' && s[i + 3] == 'a' &&
    s[i + 4] == 'l' && s[i + 5] == '.' && IsWordChar(s[i + 6])
  }

  /** The first match of `local\.(\w+)` at or after `i`: its captured name. */
  function LocalRefFrom(s: string, i: nat): (r: Option<string>)
    requires i <= |s|
    ensures r.Some? ==> IsName(r.value)
    decreases |s| - i
  {
    if i + 7 > |s| then None
    else if LocalAt(s, i) then Some(s[i + 6..i + 6 + WordRun(s, i + 6)])
    else LocalRefFrom(s, i + 1)
  }

  /** `varRegEx.FindStringSubmatch(value)[1]` of lines 230 and 251-253, or `None` when it does not match. */
  function LocalRef(s: string): Option<string> {
    LocalRefFrom(s, 0)
  }

  /** The regular expression finds nothing exactly when no `local.` followed by a word character occurs. */
  lemma {:induction false} LocalRefFromNone(s: string, i: nat)
    requires i <= |s|
    ensures LocalRefFrom(s, i).None? <==> forall j :: i <= j <= |s| ==> !LocalAt(s, j)
    decreases |s| - i
  {
    if i + 7 <= |s| && !LocalAt(s, i) {
      LocalRefFromNone(s, i + 1);
    }
  }

  /** `local.<name>` captures the name. */
  lemma LocalRefOfName(name: string)
    requires IsName(name)
    ensures LocalRef("local." + name) == Some(name)
  {
    var s := "local." + name;
    assert LocalAt(s, 0);
    var n := WordRun(s, 6);
    assert forall j :: 6 <= j < |s| ==> IsWordChar(s[j]) by {
      forall j | 6 <= j < |s| ensures IsWordChar(s[j]) {
        assert s[j] == name[j - 6];
      }
    }
    assert 6 + n == |s|;
    assert s[6..|s|] == name;
  }

  /** The length of a match of `\$\{([\w.]+)}` at `i`, if one starts there. */
  function ExprAt(s: string, i: nat): (n: Option<nat>)
    requires i <= |s|
    ensures n.Some? ==> 4 <= n.value && i + n.value <= |s|
  {
    if i + 4 <= |s| && s[i] == '$' && s[i + 1] == '{' then
      var run := PathRun(s, i + 2);
      if run > 0 && i + 2 + run < |s| && s[i + 2 + run] == '}' then Some(run + 3) else None
    else None
  }

  /** `FindAllString` from `i` with at most `limit` results: the leftmost non-overlapping matches. */
  function ExprRefsFrom(s: string, i: nat, limit: nat): (items: seq<string>)
    requires i <= |s|
    ensures |items| <= limit
    ensures forall k :: 0 <= k < |items| ==> 4 <= |items[k]| && items[k][0] == '$'
    decreases |s| - i
  {
    if limit == 0 || i == |s| then []
    else match ExprAt(s, i)
      case Some(n) => [s[i..i + n]] + ExprRefsFrom(s, i + n, limit - 1)
      case None => ExprRefsFrom(s, i + 1, limit)
  }

  /** `exprRegEx.FindAllString(value, 100)` of lines 239-244. */
  function ExprRefs(s: string): seq<string> {
    ExprRefsFrom(s, 0, 100)
  }

  /** Text without a `$` holds no interpolation. */
  lemma {:induction false} ExprRefsFromNoDollar(s: string, i: nat, limit: nat)
    requires i <= |s| && '$' !in s
    ensures ExprRefsFrom(s, i, limit) == []
    decreases |s| - i
  {
    if limit != 0 && i != |s| {
      assert s[i] != '$';
      ExprRefsFromNoDollar(s, i + 1, limit);
    }
  }

  /** A value in double quotes (line 235); a lone `"` counts as one. */
  predicate IsQuoted(value: string) {
    HasPrefix(value, "\"") && HasSuffix(value, "\"")
  }

  /** Lines 236-237: the quotes dropped. */
  function Unquote(value: string): string {
    TrimSuffix(TrimPrefix(value, "\""), "\"")
  }

  /**
   * `resolveValue` (lines 229-259): a quoted value loses its quotes and
   * each interpolation in it is replaced by its own resolution; otherwise a
   * value naming `local.<name>` resolves to what that local holds ("" when
   * there is no such local), and any other value is itself. `None` when
   * the fuel runs out, as it does for locals that refer to each other in a
   * cycle, where the source does not terminate.
   */
  function Resolve(vars: map<string, string>, value: string, fuel: nat): Option<string>
    decreases fuel, 0
  {
    if fuel == 0 then None
    else if IsQuoted(value) then
      var inner := Unquote(value);
      ResolveEach(vars, inner, ExprRefs(inner), fuel - 1)
    else match LocalRef(value)
      case Some(name) => Resolve(vars, if name in vars then vars[name] else "", fuel - 1)
      case None => Some(value)
  }

  /** Lines 245-248: each interpolation replaced, everywhere, by its resolution, in turn. */
  function ResolveEach(vars: map<string, string>, value: string, items: seq<string>, fuel: nat): Option<string>
    requires forall k :: 0 <= k < |items| ==> items[k] != []
    decreases fuel, 1, |items|
  {
    if items == [] then Some(value)
    else match Resolve(vars, items[0], fuel)
      case None => None
      case Some(r) => ResolveEach(vars, ReplaceAll(value, items[0], r), items[1..], fuel)
  }

  /** A value that is neither quoted nor names a local is its own resolution. */
  lemma ResolveLiteral(vars: map<string, string>, value: string, fuel: nat)
    requires !IsQuoted(value) && forall j :: 0 <= j <= |value| ==> !LocalAt(value, j)
    ensures Resolve(vars, value, fuel + 1) == Some(value)
  {
    LocalRefFromNone(value, 0);
  }

  /** `local.<name>` resolves as the local's value does, and as "" when there is no such local. */
  lemma ResolveLocal(vars: map<string, string>, name: string, fuel: nat)
    requires IsName(name)
    ensures Resolve(vars, "local." + name, fuel + 1) == Resolve(vars, if name in vars then vars[name] else "", fuel)
  {
    LocalRefOfName(name);
    assert ("local." + name)[0] == 'l';
  }

  /** A quoted text without interpolation resolves to the text between the quotes. */
  lemma ResolveQuotedText(vars: map<string, string>, text: string, fuel: nat)
    requires '$' !in text
    ensures Resolve(vars, "\"" + text + "\"", fuel + 1) == Some(text)
  {
    var value := "\"" + text + "\"";
    assert TrimPrefix(value, "\"") == text + "\"";
    assert Unquote(value) == text;
    ExprRefsFromNoDollar(text, 0, 100);
  }

  /** A run of word characters ends where a non-word character (or the text) ends. */
  lemma WordRunTo(s: string, i: nat, e: nat)
    requires i <= e <= |s| && (e == |s| || !IsWordChar(s[e]))
    requires forall j :: i <= j < e ==> IsWordChar(s[j])
    ensures WordRun(s, i) == e - i
  {
  }

  /** A run of `[\w.]` characters ends where another character (or the text) ends. */
  lemma PathRunTo(s: string, i: nat, e: nat)
    requires i <= e <= |s| && (e == |s| || !IsPathChar(s[e]))
    requires forall j :: i <= j < e ==> IsPathChar(s[j])
    ensures PathRun(s, i) == e - i
  {
  }

  /** An interpolation of a local is found as one match, and names the local. */
  lemma InterpolationFound(name: string)
    requires IsName(name)
    ensures var inner := "${local." + name + "}"; ExprRefs(inner) == [inner] && LocalRef(inner) == Some(name)
  {
    var inner := "${local." + name + "}";
    var e := |inner| - 1;
    assert inner[e] == '}';
    forall j | 8 <= j < e ensures IsWordChar(inner[j]) {
      assert inner[j] == name[j - 8];
    }
    PathRunTo(inner, 2, e);
    assert ExprAt(inner, 0) == Some(|inner|);
    assert inner[0..|inner|] == inner;
    assert ExprRefsFrom(inner, |inner|, 99) == [];
    assert !LocalAt(inner, 0) && !LocalAt(inner, 1) && LocalAt(inner, 2);
    WordRunTo(inner, 8, e);
    assert inner[8..e] == name;
    assert LocalRefFrom(inner, 2) == Some(name);
    assert LocalRefFrom(inner, 1) == Some(name);
    assert ExprRefs(inner) == [inner] + ExprRefsFrom(inner, |inner|, 99);
  }

  /** Replacing a whole text by another gives the other. */
  lemma ReplaceWhole(s: string, to: string)
    requires s != []
    ensures ReplaceAll(s, s, to) == to
  {
    assert s[|s|..] == [];
    assert to + [] == to;
  }

  /**
   * A quoted interpolation of a local, `"${local.<name>}"`, resolves to the
   * local's value when that value is itself plain text.
   */
  lemma ResolveInterpolated(vars: map<string, string>, name: string)
    requires IsName(name) && name in vars
    requires !IsQuoted(vars[name]) && forall j :: 0 <= j <= |vars[name]| ==> !LocalAt(vars[name], j)
    ensures Resolve(vars, "\"${local." + name + "}\"", 3) == Some(vars[name])
  {
    var inner := "${local." + name + "}";
    var value := "\"" + inner + "\"";
    assert value == "\"${local." + name + "}\"";
    UnquoteQuoted(inner);
    InterpolationFound(name);
    InterpolationResolves(vars, name);
    ReplaceWhole(inner, vars[name]);
    assert ResolveEach(vars, inner, [inner], 2) == ResolveEach(vars, vars[name], [], 2);
  }

  /** Quoting a text and unquoting it again gives the text. */
  lemma UnquoteQuoted(text: string)
    ensures IsQuoted("\"" + text + "\"") && Unquote("\"" + text + "\"") == text
  {
    var value := "\"" + text + "\"";
    assert TrimPrefix(value, "\"") == text + "\"";
  }

  /** The interpolation of a local resolves to the local's plain value. */
  lemma InterpolationResolves(vars: map<string, string>, name: string)
    requires IsName(name) && name in vars
    requires !IsQuoted(vars[name]) && forall j :: 0 <= j <= |vars[name]| ==> !LocalAt(vars[name], j)
    ensures Resolve(vars, "${local." + name + "}", 2) == Some(vars[name])
  {
    var inner := "${local." + name + "}";
    InterpolationFound(name);
    assert !IsQuoted(inner) by { assert inner[0] == '$'; }
    ResolveLiteral(vars, vars[name], 0);
  }

  /**
   * A value that names a local holding that very value never resolves:
   * the source recurses forever. `local.a` with `a = local.a` is one.
   */
  lemma {:induction false} ResolveCycle(vars: map<string, string>, value: string, name: string, fuel: nat)
    requires !IsQuoted(value) && LocalRef(value) == Some(name) && name in vars && vars[name] == value
    ensures Resolve(vars, value, fuel) == None
    decreases fuel
  {
    if fuel > 0 {
      ResolveCycle(vars, value, name, fuel - 1);
    }
  }

  /** The self-referring local of `ResolveCycle` exists for every name. */
  lemma SelfReference(name: string)
    requires IsName(name)
    ensures var value := "local." + name; !IsQuoted(value) && LocalRef(value) == Some(name)
  {
    LocalRefOfName(name);
    assert ("local." + name)[0] == 'l';
  }

  /** More fuel does not change a resolution that finished. */
  lemma {:induction false} ResolveMoreFuel(vars: map<string, string>, value: string, fuel: nat)
    requires Resolve(vars, value, fuel).Some?
    ensures Resolve(vars, value, fuel + 1) == Resolve(vars, value, fuel)
    decreases fuel, 0
  {
    if IsQuoted(value) {
      var inner := Unquote(value);
      ResolveEachMoreFuel(vars, inner, ExprRefs(inner), fuel - 1);
    } else if LocalRef(value).Some? {
      var name := LocalRef(value).value;
      ResolveMoreFuel(vars, if name in vars then vars[name] else "", fuel - 1);
    }
  }

  /** More fuel does not change replacements that finished. */
  lemma {:induction false} ResolveEachMoreFuel(vars: map<string, string>, value: string, items: seq<string>, fuel: nat)
    requires forall k :: 0 <= k < |items| ==> items[k] != []
    requires ResolveEach(vars, value, items, fuel).Some?
    ensures ResolveEach(vars, value, items, fuel + 1) == ResolveEach(vars, value, items, fuel)
    decreases fuel, 1, |items|
  {
    if items != [] {
      ResolveMoreFuel(vars, items[0], fuel);
      var r := Resolve(vars, items[0], fuel).value;
      ResolveEachMoreFuel(vars, ReplaceAll(value, items[0], r), items[1..], fuel);
    }
  }

  // ---------------------------------------------------------------- recommendations

  /**
   * What an item's properties say (lines 109-122): the largest runtime in
   * hours, starting from 1, and the last instance size whose recommended
   * value differs from the current one.
   */
  datatype Choice = Choice(maxRuntimeHours: int, recommended: string, current: string)

  const NoChoice: Choice := Choice(1, "", "")

  /** One property read (lines 114-121); a malformed runtime reads as 0 and an out-of-range one as the nearest bound. */
  function ChoiceStep(c: Choice, p: Property): Choice {
    var runtime := if p.key == "RuntimeHours" && ParseIntValue(p.current) > c.maxRuntimeHours
                   then ParseIntValue(p.current) else c.maxRuntimeHours;
    if p.key == "Instance Size" && p.current != p.recommended then Choice(runtime, p.recommended, p.current)
    else c.(maxRuntimeHours := runtime)
  }

  /** The properties read in order. */
  function ChoiceOf(c: Choice, ps: seq<Property>): Choice
    decreases |ps|
  {
    if ps == [] then c else ChoiceStep(ChoiceOf(c, ps[..|ps| - 1]), ps[|ps| - 1])
  }

  /** All properties of the devices, device after device. */
  function Properties(ds: seq<Device>): seq<Property>
    decreases |ds|
  {
    if ds == [] then [] else Properties(ds[..|ds| - 1]) + ds[|ds| - 1].properties
  }

  /** The last property that proposes a different instance size. */
  function LastResize(ps: seq<Property>): Option<Property>
    decreases |ps|
  {
    if ps == [] then None
    else
      var p := ps[|ps| - 1];
      if p.key == "Instance Size" && p.current != p.recommended then Some(p) else LastResize(ps[..|ps| - 1])
  }

  /** Reading more properties continues from where the first ones left off. */
  lemma {:induction false} ChoiceOfAppend(c: Choice, a: seq<Property>, b: seq<Property>)
    ensures ChoiceOf(c, a + b) == ChoiceOf(ChoiceOf(c, a), b)
    decreases |b|
  {
    if b == [] {
      assert a + b == a;
    } else {
      assert (a + b)[..|a + b| - 1] == a + b[..|b| - 1];
      ChoiceOfAppend(c, a, b[..|b| - 1]);
    }
  }

  /**
   * The choice names the last resizing property, and the largest runtime
   * is at least 1 and at least every runtime property's value.
   */
  lemma {:induction false} ChoiceOfMeaning(ps: seq<Property>)
    ensures var c := ChoiceOf(NoChoice, ps);
            (LastResize(ps).Some? ==> c.recommended == LastResize(ps).value.recommended && c.current == LastResize(ps).value.current) &&
            (LastResize(ps).None? ==> c.recommended == "" && c.current == "") &&
            c.maxRuntimeHours >= 1 &&
            forall j :: 0 <= j < |ps| && ps[j].key == "RuntimeHours" ==> c.maxRuntimeHours >= ParseIntValue(ps[j].current)
    decreases |ps|
  {
    if ps != [] {
      var init, p := ps[..|ps| - 1], ps[|ps| - 1];
      ChoiceOfMeaning(init);
      var c := ChoiceStep(ChoiceOf(NoChoice, init), p);
      assert ChoiceOf(NoChoice, ps) == c;
      forall j | 0 <= j < |ps| && ps[j].key == "RuntimeHours"
        ensures c.maxRuntimeHours >= ParseIntValue(ps[j].current)
      {
        if j < |init| {
          assert ps[j] == init[j];
        }
      }
    }
  }

  /** The largest runtime is 1 or the value of some runtime property. */
  lemma {:induction false} ChoiceOfRuntimeAttained(ps: seq<Property>)
    ensures var m := ChoiceOf(NoChoice, ps).maxRuntimeHours;
            m == 1 || exists j :: 0 <= j < |ps| && ps[j].key == "RuntimeHours" && m == ParseIntValue(ps[j].current)
    decreases |ps|
  {
    if ps != [] {
      ChoiceOfRuntimeAttained(ps[..|ps| - 1]);
      var m := ChoiceOf(NoChoice, ps[..|ps| - 1]).maxRuntimeHours;
      if m != 1 {
        var j :| 0 <= j < |ps| - 1 && ps[..|ps| - 1][j].key == "RuntimeHours" && m == ParseIntValue(ps[..|ps| - 1][j].current);
        assert ps[j] == ps[..|ps| - 1][j];
      }
    }
  }

  /** What a whole item says. */
  function ItemChoice(item: OptimizationItem): Choice {
    ChoiceOf(NoChoice, Properties(item.devices))
  }

  /** An item is kept when it ran long enough and proposes a size (lines 126-131). */
  predicate Selected(item: OptimizationItem, ignoreYoungerThan: int) {
    var c := ItemChoice(item);
    c.maxRuntimeHours >= ignoreYoungerThan && c.recommended != ""
  }

  /** The saving of an item: what its devices cost now minus after right-sizing (line 123). */
  function Saving(ds: seq<Device>): int
    decreases |ds|
  {
    if ds == [] then 0 else Saving(ds[..|ds| - 1]) + (ds[|ds| - 1].currentCost - ds[|ds| - 1].rightSizedCost)
  }

  /** The maps of lines 104-107, by item id. */
  datatype Plan = Plan(recommendation: map<string, string>, current: map<string, string>,
                       savings: map<string, int>, reasons: map<string, string>)

  function Get(m: map<string, int>, k: string): int {
    if k in m then m[k] else 0
  }

  /** One item read (lines 108-135): its saving always counts, its choice only when it is kept. */
  function PlanStep(plan: Plan, item: OptimizationItem, ignoreYoungerThan: int): Plan {
    var savings := plan.savings[item.id := Get(plan.savings, item.id) + Saving(item.devices)];
    if Selected(item, ignoreYoungerThan) then
      var c := ItemChoice(item);
      Plan(plan.recommendation[item.id := c.recommended], plan.current[item.id := c.current],
           savings, plan.reasons[item.id := item.description])
    else plan.(savings := savings)
  }

  /** The plan of a list of items. */
  function PlanOf(items: seq<OptimizationItem>, ignoreYoungerThan: int): Plan
    decreases |items|
  {
    if items == [] then Plan(map[], map[], map[], map[])
    else PlanStep(PlanOf(items[..|items| - 1], ignoreYoungerThan), items[|items| - 1], ignoreYoungerThan)
  }

  /** The last kept item with an id. */
  function LastSelected(items: seq<OptimizationItem>, id: string, ignoreYoungerThan: int): Option<OptimizationItem>
    decreases |items|
  {
    if items == [] then None
    else
      var item := items[|items| - 1];
      if item.id == id && Selected(item, ignoreYoungerThan) then Some(item)
      else LastSelected(items[..|items| - 1], id, ignoreYoungerThan)
  }

  /** The saving of all items with an id. */
  function SavingOf(items: seq<OptimizationItem>, id: string): int
    decreases |items|
  {
    if items == [] then 0
    else SavingOf(items[..|items| - 1], id) + (if items[|items| - 1].id == id then Saving(items[|items| - 1].devices) else 0)
  }

  /**
   * An id is recommended iff some item with it is kept, and then with the
   * last such item's size and description; the saving of an id adds up
   * every item with it, kept or not.
   */
  lemma {:induction false} PlanMeaning(items: seq<OptimizationItem>, ignoreYoungerThan: int, id: string)
    ensures var plan := PlanOf(items, ignoreYoungerThan); var last := LastSelected(items, id, ignoreYoungerThan);
            (id in plan.recommendation <==> last.Some?) &&
            (id in plan.current <==> last.Some?) && (id in plan.reasons <==> last.Some?) &&
            (last.Some? ==> plan.recommendation[id] == ItemChoice(last.value).recommended &&
                            plan.current[id] == ItemChoice(last.value).current &&
                            plan.reasons[id] == last.value.description) &&
            Get(plan.savings, id) == SavingOf(items, id)
    decreases |items|
  {
    if items != [] {
      PlanMeaning(items[..|items| - 1], ignoreYoungerThan, id);
    }
  }

  /** A recommended size is never empty. */
  lemma {:induction false} PlanRecommendsSizes(items: seq<OptimizationItem>, ignoreYoungerThan: int)
    ensures forall id :: id in PlanOf(items, ignoreYoungerThan).recommendation ==> PlanOf(items, ignoreYoungerThan).recommendation[id] != ""
    decreases |items|
  {
    if items != [] {
      PlanRecommendsSizes(items[..|items| - 1], ignoreYoungerThan);
    }
  }

  /** Lines 112-122 for one device's properties, continuing from `c0`. */
  method ReadProperties(c0: Choice, ps: seq<Property>) returns (c: Choice)
    ensures c == ChoiceOf(c0, ps)
  {
    c := c0;
    for m := 0 to |ps|
      invariant c == ChoiceOf(c0, ps[..m])
    {
      assert ps[..m + 1][..m] == ps[..m];
      var p := ps[m];
      var runtime := c.maxRuntimeHours;
      if p.key == "RuntimeHours" {
        var hours := ParseIntValue(p.current);
        if hours > runtime {
          runtime := hours;
        }
      }
      if p.key == "Instance Size" && p.current != p.recommended {
        c := Choice(runtime, p.recommended, p.current);
      } else {
        c := c.(maxRuntimeHours := runtime);
      }
    }
    assert ps[..|ps|] == ps;
  }

  /** Lines 109-124 for one item: its choice and its saving. */
  method ReadItem(item: OptimizationItem) returns (c: Choice, saving: int)
    ensures c == ItemChoice(item) && saving == Saving(item.devices)
  {
    c := NoChoice;
    saving := 0;
    var ds := item.devices;
    for n := 0 to |ds|
      invariant c == ChoiceOf(NoChoice, Properties(ds[..n])) && saving == Saving(ds[..n])
    {
      assert ds[..n + 1][..n] == ds[..n];
      ChoiceOfAppend(NoChoice, Properties(ds[..n]), ds[n].properties);
      c := ReadProperties(c, ds[n].properties);
      saving := saving + (ds[n].currentCost - ds[n].rightSizedCost);
    }
    assert ds[..|ds|] == ds;
  }

  /** Lines 104-135: the plan of the plugin's items. */
  method ReadPlan(items: seq<OptimizationItem>, ignoreYoungerThan: int) returns (plan: Plan)
    ensures plan == PlanOf(items, ignoreYoungerThan)
  {
    plan := Plan(map[], map[], map[], map[]);
    for n := 0 to |items|
      invariant plan == PlanOf(items[..n], ignoreYoungerThan)
    {
      assert items[..n + 1][..n] == items[..n];
      var item := items[n];
      var c, saving := ReadItem(item);
      plan := plan.(savings := plan.savings[item.id := Get(plan.savings, item.id) + saving]);
      if c.maxRuntimeHours < ignoreYoungerThan {
        continue;
      }
      if c.recommended == "" {
        continue;
      }
      plan := plan.(recommendation := plan.recommendation[item.id := c.recommended],
                    current := plan.current[item.id := c.current],
                    reasons := plan.reasons[item.id := item.description]);
    }
    assert items[..|items|] == items;
  }

  // ---------------------------------------------------------------- module blocks

  /** A block of the Terraform file: its type and the source text of each attribute's expression. */
  datatype Block = Block(kind: string, attributes: map<string, string>)

  /** An attribute's text with surrounding white space trimmed (lines 150, 161 and 167). */
  function AttributeText(b: Block, name: string): Option<string> {
    if name in b.attributes then Some(TrimSpace(b.attributes[name])) else None
  }

  /** A `locals` block's values (lines 148-154). */
  function LocalValues(b: Block): map<string, string> {
    map k | k in b.attributes :: TrimSpace(b.attributes[k])
  }

  /** The expression `SetAttributeValue` writes for a string (quote escaping is not modelled). */
  function Quoted(v: string): string {
    "\"" + v + "\""
  }

  /** `order` lists the keys, each once: one of Go's iteration orders of a map with those keys. */
  ghost predicate IsListing(order: seq<string>, keys: set<string>) {
    (forall i, j :: 0 <= i < j < |order| ==> order[i] != order[j]) && forall k :: k in order <==> k in keys
  }

  /** No key twice. */
  predicate Distinct(ks: seq<string>) {
    forall i, j :: 0 <= i < j < |ks| ==> ks[i] != ks[j]
  }

  /** The keys of `order` that match, in order. */
  function Filter(order: seq<string>, matches: string -> bool): (r: seq<string>)
    ensures forall k :: k in r <==> k in order && matches(k)
    ensures Distinct(order) ==> Distinct(r)
    decreases |order|
  {
    if order == [] then []
    else
      var rest := Filter(order[..|order| - 1], matches);
      var k := order[|order| - 1];
      assert forall x :: x in order[..|order| - 1] ==> x in order;
      if matches(k) then rest + [k] else rest
  }

  /**
   * Whether a key of the recommendation map matches an identifier under
   * `instance_use_identifier_prefix`: this command asks that the key start
   * with the identifier (line 173); the standalone tool of
   * terraform/terraform.go asks the opposite (line 167).
   */
  function PrefixMatch(keyExtendsIdentifier: bool, value: string): string -> bool {
    k => KeyMatches(keyExtendsIdentifier, value, k)
  }

  /**
   * The ids a module block with resolved identifier `value` right-sizes
   * (lines 164-194): none without `db_name`; with the prefix flag every
   * matching key in iteration order; otherwise the identifier itself when
   * it is recommended.
   */
  function Matches(b: Block, value: string, rec: map<string, string>, order: seq<string>, keyExtendsIdentifier: bool): seq<string> {
    if "db_name" !in b.attributes then []
    else if AttributeText(b, "instance_use_identifier_prefix") == Some("true") then
      Filter(order, PrefixMatch(keyExtendsIdentifier, value))
    else if value in rec then [value]
    else []
  }

  /** The block after its matches are written: the last one's size wins. */
  function Resized(b: Block, rec: map<string, string>, ms: seq<string>): Block
    requires forall k :: k in ms ==> k in rec
  {
    if ms == [] then b else b.(attributes := b.attributes["instance_class" := Quoted(rec[ms[|ms| - 1]])])
  }

  /** The sum of the savings of some ids (absent ids save 0). */
  function SumOf(ids: seq<string>, savings: map<string, int>): int
    decreases |ids|
  {
    if ids == [] then 0 else SumOf(ids[..|ids| - 1], savings) + Get(savings, ids[|ids| - 1])
  }

  /** The state of the walk over the blocks (lines 142-196). */
  datatype Rewrite = Rewrite(locals: map<string, string>, blocks: seq<Block>, count: nat, total: int, ids: seq<string>)

  const NoRewrite: Rewrite := Rewrite(map[], [], 0, 0, [])

  /** A module block with resolved identifier `value` (lines 164-194): its matches resized, counted and summed. */
  function ModuleStep(r: Rewrite, b: Block, value: string, rec: map<string, string>, savings: map<string, int>,
                      order: seq<string>, keyExtendsIdentifier: bool): Rewrite
    requires IsListing(order, rec.Keys)
  {
    var ms := Matches(b, value, rec, order, keyExtendsIdentifier);
    Rewrite(r.locals, r.blocks + [Resized(b, rec, ms)], r.count + |ms|, r.total + SumOf(ms, savings), r.ids + ms)
  }

  /**
   * One block (lines 147-195): a `locals` block adds its values, a
   * `module` block with an identifier is resolved and right-sized, any
   * other block is kept. `None` when the identifier does not resolve.
   */
  function BlockStep(r: Rewrite, b: Block, rec: map<string, string>, savings: map<string, int>,
                     order: seq<string>, fuel: nat, keyExtendsIdentifier: bool): Option<Rewrite>
    requires IsListing(order, rec.Keys)
  {
    if b.kind == "locals" then Some(r.(locals := r.locals + LocalValues(b), blocks := r.blocks + [b]))
    else if b.kind == "module" && "identifier" in b.attributes then
      match Resolve(r.locals, TrimSpace(b.attributes["identifier"]), fuel)
      case None => None
      case Some(value) => Some(ModuleStep(r, b, value, rec, savings, order, keyExtendsIdentifier))
    else Some(r.(blocks := r.blocks + [b]))
  }

  /** Every block in turn, block `j` iterating the recommendations in `orders[j]`. */
  function RewriteOf(blocks: seq<Block>, rec: map<string, string>, savings: map<string, int>,
                     orders: seq<seq<string>>, fuel: nat, keyExtendsIdentifier: bool): Option<Rewrite>
    requires |orders| == |blocks| && forall j :: 0 <= j < |orders| ==> IsListing(orders[j], rec.Keys)
    decreases |blocks|
  {
    if blocks == [] then Some(NoRewrite)
    else
      var n := |blocks| - 1;
      match RewriteOf(blocks[..n], rec, savings, orders[..n], fuel, keyExtendsIdentifier)
      case None => None
      case Some(r) => BlockStep(r, blocks[n], rec, savings, orders[n], fuel, keyExtendsIdentifier)
  }

  /** `after` is `before` with at most its instance class changed, and only in a module block with `db_name`. */
  predicate SameBut(after: Block, before: Block) {
    after.kind == before.kind &&
    after.attributes - {"instance_class"} == before.attributes - {"instance_class"} &&
    (after != before ==> before.kind == "module" && "db_name" in before.attributes)
  }

  /** Each block of `after` is the block of `before` at its place, with at most its instance class changed. */
  predicate AllSameBut(after: seq<Block>, before: seq<Block>) {
    |after| == |before| && forall j :: 0 <= j < |after| ==> SameBut(after[j], before[j])
  }

  lemma AllSameButSnoc(after: seq<Block>, before: seq<Block>, x: Block, y: Block)
    requires AllSameBut(after, before) && SameBut(x, y)
    ensures AllSameBut(after + [x], before + [y])
  {
  }

  /** The shape of one step. */
  lemma BlockStepShape(r: Rewrite, b: Block, rec: map<string, string>, savings: map<string, int>,
                       order: seq<string>, fuel: nat, keyExtendsIdentifier: bool)
    requires IsListing(order, rec.Keys)
    ensures var r' := BlockStep(r, b, rec, savings, order, fuel, keyExtendsIdentifier);
            r'.Some? ==>
              exists after, ms ::
                r'.value.blocks == r.blocks + [after] && SameBut(after, b) &&
                r'.value.ids == r.ids + ms && r'.value.count == r.count + |ms| &&
                forall k :: k in ms ==> k in rec
  {
    var r' := BlockStep(r, b, rec, savings, order, fuel, keyExtendsIdentifier);
    if r'.Some? {
      if b.kind != "locals" && b.kind == "module" && "identifier" in b.attributes {
        var value := Resolve(r.locals, TrimSpace(b.attributes["identifier"]), fuel).value;
        ModuleStepShape(r, b, value, rec, savings, order, keyExtendsIdentifier);
      } else {
        assert r'.value.blocks == r.blocks + [b] && r'.value.ids == r.ids + [];
      }
    }
  }

  /** The shape of one module step. */
  lemma ModuleStepShape(r: Rewrite, b: Block, value: string, rec: map<string, string>, savings: map<string, int>,
                        order: seq<string>, keyExtendsIdentifier: bool)
    requires b.kind == "module" && IsListing(order, rec.Keys)
    ensures var r' := ModuleStep(r, b, value, rec, savings, order, keyExtendsIdentifier);
            var ms := Matches(b, value, rec, order, keyExtendsIdentifier);
            r'.blocks == r.blocks + [Resized(b, rec, ms)] && SameBut(Resized(b, rec, ms), b) &&
            r'.ids == r.ids + ms && r'.count == r.count + |ms| && forall k :: k in ms ==> k in rec
  {
    var ms := Matches(b, value, rec, order, keyExtendsIdentifier);
    if ms != [] {
      var after := Resized(b, rec, ms);
      assert "db_name" in b.attributes;
      assert after.attributes - {"instance_class"} == b.attributes - {"instance_class"};
    }
  }

  /**
   * The rewritten file has the same blocks, in order, of the same types;
   * only `instance_class` may change, and only in a module block with
   * `db_name`; every right-sized id is recommended and counted once per
   * module that matched it.
   */
  lemma {:induction false} RewriteShape(blocks: seq<Block>, rec: map<string, string>, savings: map<string, int>,
                                        orders: seq<seq<string>>, fuel: nat, keyExtendsIdentifier: bool)
    requires |orders| == |blocks| && forall j :: 0 <= j < |orders| ==> IsListing(orders[j], rec.Keys)
    ensures var r := RewriteOf(blocks, rec, savings, orders, fuel, keyExtendsIdentifier);
            r.Some? ==>
              AllSameBut(r.value.blocks, blocks) && r.value.count == |r.value.ids| &&
              forall k :: k in r.value.ids ==> k in rec
    decreases |blocks|
  {
    if blocks != [] {
      var n := |blocks| - 1;
      RewriteShape(blocks[..n], rec, savings, orders[..n], fuel, keyExtendsIdentifier);
      var prev := RewriteOf(blocks[..n], rec, savings, orders[..n], fuel, keyExtendsIdentifier);
      if prev.Some? {
        var p := prev.value;
        BlockStepShape(p, blocks[n], rec, savings, orders[n], fuel, keyExtendsIdentifier);
        var r := BlockStep(p, blocks[n], rec, savings, orders[n], fuel, keyExtendsIdentifier);
        assert RewriteOf(blocks, rec, savings, orders, fuel, keyExtendsIdentifier) == r;
        if r.Some? {
          var after, ms :| r.value.blocks == p.blocks + [after] && SameBut(after, blocks[n]) &&
                           r.value.ids == p.ids + ms && r.value.count == p.count + |ms| &&
                           forall k :: k in ms ==> k in rec;
          assert blocks == blocks[..n] + [blocks[n]];
          AllSameButSnoc(p.blocks, blocks[..n], after, blocks[n]);
        }
      }
    }
  }

  /** Without repeated keys, a key occurs once. */
  lemma {:induction false} DistinctCount(ks: seq<string>, k: string)
    requires Distinct(ks)
    ensures multiset(ks)[k] == if k in ks then 1 else 0
    decreases |ks|
  {
    if ks != [] {
      var n := |ks| - 1;
      assert ks == ks[..n] + [ks[n]];
      assert forall x :: x in ks[..n] ==> x in ks;
      DistinctCount(ks[..n], k);
    }
  }

  /** Two orders of the same keys select the same keys, each once. */
  lemma FilterOrderFree(o1: seq<string>, o2: seq<string>, keys: set<string>, matches: string -> bool)
    requires IsListing(o1, keys) && IsListing(o2, keys)
    ensures multiset(Filter(o1, matches)) == multiset(Filter(o2, matches))
  {
    var a := Filter(o1, matches);
    var b := Filter(o2, matches);
    forall k ensures multiset(a)[k] == multiset(b)[k] {
      DistinctCount(a, k);
      DistinctCount(b, k);
    }
  }

  /** Sums add up over concatenation. */
  lemma {:induction false} SumOfAppend(a: seq<string>, b: seq<string>, savings: map<string, int>)
    ensures SumOf(a + b, savings) == SumOf(a, savings) + SumOf(b, savings)
    decreases |b|
  {
    if b == [] {
      assert a + b == a;
    } else {
      var n := |b| - 1;
      assert (a + b)[..|a + b| - 1] == a + b[..n];
      SumOfAppend(a, b[..n], savings);
    }
  }

  /** Taking one term out of a sum. */
  lemma SumOfRemove(b: seq<string>, i: int, savings: map<string, int>)
    requires 0 <= i < |b|
    ensures SumOf(b, savings) == SumOf(b[..i] + b[i + 1..], savings) + Get(savings, b[i])
  {
    var x := b[i];
    assert b == (b[..i] + [x]) + b[i + 1..];
    SumOfAppend(b[..i] + [x], b[i + 1..], savings);
    SumOfAppend(b[..i], [x], savings);
    SumOfAppend(b[..i], b[i + 1..], savings);
    assert [x][..0] == [];
  }

  /** The same multiset without one occurrence each side. */
  lemma MultisetRemove(a: seq<string>, b: seq<string>, i: int)
    requires a != [] && multiset(a) == multiset(b) && 0 <= i < |b| && b[i] == a[|a| - 1]
    ensures multiset(a[..|a| - 1]) == multiset(b[..i] + b[i + 1..])
  {
    var n := |a| - 1;
    assert a == a[..n] + [a[n]];
    assert b == b[..i] + [b[i]] + b[i + 1..];
    assert multiset(a[..n]) == multiset(a) - multiset{a[n]};
    assert multiset(b[..i] + b[i + 1..]) == multiset(b) - multiset{b[i]};
  }

  /** A sum does not depend on the order of its terms. */
  lemma {:induction false} SumOfPermutation(a: seq<string>, b: seq<string>, savings: map<string, int>)
    requires multiset(a) == multiset(b)
    ensures SumOf(a, savings) == SumOf(b, savings)
    decreases |a|
  {
    if a == [] {
      assert |b| == |multiset(b)| == 0;
    } else {
      var n := |a| - 1;
      assert a[n] in multiset(a);
      var i :| 0 <= i < |b| && b[i] == a[n];
      MultisetRemove(a, b, i);
      SumOfPermutation(a[..n], b[..i] + b[i + 1..], savings);
      SumOfRemove(b, i, savings);
    }
  }

  /** The matches of two orders have the same size and the same saving. */
  lemma MatchesOrderFree(b: Block, value: string, rec: map<string, string>, savings: map<string, int>,
                         o1: seq<string>, o2: seq<string>, keyExtendsIdentifier: bool)
    requires IsListing(o1, rec.Keys) && IsListing(o2, rec.Keys)
    ensures var m1 := Matches(b, value, rec, o1, keyExtendsIdentifier);
            var m2 := Matches(b, value, rec, o2, keyExtendsIdentifier);
            multiset(m1) == multiset(m2) && |m1| == |m2| && SumOf(m1, savings) == SumOf(m2, savings)
  {
    FilterOrderFree(o1, o2, rec.Keys, PrefixMatch(keyExtendsIdentifier, value));
    var m1 := Matches(b, value, rec, o1, keyExtendsIdentifier);
    var m2 := Matches(b, value, rec, o2, keyExtendsIdentifier);
    assert |m1| == |multiset(m1)| == |multiset(m2)| == |m2|;
    SumOfPermutation(m1, m2, savings);
  }

  /** One step does not depend on the order beyond the listing of its matches. */
  lemma BlockStepOrderFree(r1: Rewrite, r2: Rewrite, b: Block, rec: map<string, string>, savings: map<string, int>,
                           o1: seq<string>, o2: seq<string>, fuel: nat, keyExtendsIdentifier: bool)
    requires IsListing(o1, rec.Keys) && IsListing(o2, rec.Keys)
    requires r1.locals == r2.locals && r1.count == r2.count && r1.total == r2.total && multiset(r1.ids) == multiset(r2.ids)
    ensures var s1 := BlockStep(r1, b, rec, savings, o1, fuel, keyExtendsIdentifier);
            var s2 := BlockStep(r2, b, rec, savings, o2, fuel, keyExtendsIdentifier);
            s1.Some? == s2.Some? &&
            (s1.Some? ==> s1.value.locals == s2.value.locals && s1.value.count == s2.value.count &&
                          s1.value.total == s2.value.total && multiset(s1.value.ids) == multiset(s2.value.ids))
  {
    if b.kind != "locals" && b.kind == "module" && "identifier" in b.attributes {
      var value := Resolve(r1.locals, TrimSpace(b.attributes["identifier"]), fuel);
      if value.Some? {
        MatchesOrderFree(b, value.value, rec, savings, o1, o2, keyExtendsIdentifier);
      }
    }
  }

  /**
   * Go's iteration order does not change whether the walk finishes, how
   * many modules are right-sized, the saving total, or which ids are
   * right-sized (only the order in which the description lists them).
   */
  lemma {:induction false} RewriteOrderFree(blocks: seq<Block>, rec: map<string, string>, savings: map<string, int>,
                                            o1: seq<seq<string>>, o2: seq<seq<string>>, fuel: nat, keyExtendsIdentifier: bool)
    requires |o1| == |blocks| && forall j :: 0 <= j < |o1| ==> IsListing(o1[j], rec.Keys)
    requires |o2| == |blocks| && forall j :: 0 <= j < |o2| ==> IsListing(o2[j], rec.Keys)
    ensures var r1 := RewriteOf(blocks, rec, savings, o1, fuel, keyExtendsIdentifier);
            var r2 := RewriteOf(blocks, rec, savings, o2, fuel, keyExtendsIdentifier);
            r1.Some? == r2.Some? &&
            (r1.Some? ==> r1.value.locals == r2.value.locals && r1.value.count == r2.value.count &&
                          r1.value.total == r2.value.total && multiset(r1.value.ids) == multiset(r2.value.ids))
    decreases |blocks|
  {
    if blocks != [] {
      var n := |blocks| - 1;
      RewriteOrderFree(blocks[..n], rec, savings, o1[..n], o2[..n], fuel, keyExtendsIdentifier);
      var r1 := RewriteOf(blocks[..n], rec, savings, o1[..n], fuel, keyExtendsIdentifier);
      var r2 := RewriteOf(blocks[..n], rec, savings, o2[..n], fuel, keyExtendsIdentifier);
      if r1.Some? {
        BlockStepOrderFree(r1.value, r2.value, blocks[n], rec, savings, o1[n], o2[n], fuel, keyExtendsIdentifier);
      }
    }
  }

  /** The values of a `locals` block among some of its keys. */
  function LocalsAmong(b: Block, keys: set<string>): map<string, string> {
    map k | k in keys && k in b.attributes :: TrimSpace(b.attributes[k])
  }

  lemma LocalsStep(locals: map<string, string>, b: Block, done: set<string>, k: string)
    requires k in b.attributes
    ensures locals + LocalsAmong(b, done + {k}) == (locals + LocalsAmong(b, done))[k := TrimSpace(b.attributes[k])]
  {
  }

  /** Lines 148-154: each attribute of a `locals` block becomes a local, trimmed. */
  method AddLocals(locals0: map<string, string>, b: Block) returns (locals: map<string, string>)
    ensures locals == locals0 + LocalValues(b)
  {
    locals := locals0;
    var todo := b.attributes.Keys;
    ghost var done: set<string> := {};
    assert LocalsAmong(b, done) == map[];
    assert locals0 + map[] == locals0;
    while todo != {}
      invariant todo <= b.attributes.Keys && done == b.attributes.Keys - todo
      invariant locals == locals0 + LocalsAmong(b, done)
      decreases todo
    {
      var k :| k in todo;
      LocalsStep(locals0, b, done, k);
      locals := locals[k := TrimSpace(b.attributes[k])];
      todo := todo - {k};
      done := done + {k};
    }
    assert done == b.attributes.Keys;
    assert LocalsAmong(b, done) == LocalValues(b);
  }

  /** `resolveValue` of lines 229-259, by recursion and a loop over the interpolations. */
  method ResolveValue(vars: map<string, string>, value: string, fuel: nat) returns (r: Option<string>)
    ensures r == Resolve(vars, value, fuel)
    decreases fuel, 1
  {
    if fuel == 0 {
      return None;
    }
    if HasPrefix(value, "\"") && HasSuffix(value, "\"") {
      r := ResolveQuoted(vars, value, fuel);
      return;
    }
    var name := LocalRef(value);
    if name.Some? {
      var next := if name.value in vars then vars[name.value] else "";
      r := ResolveValue(vars, next, fuel - 1);
    } else {
      r := Some(value);
    }
  }

  /** Lines 236-249: a quoted value's interpolations replaced in turn, stopping at the first that diverges. */
  method ResolveQuoted(vars: map<string, string>, value: string, fuel: nat) returns (r: Option<string>)
    requires fuel > 0 && IsQuoted(value)
    ensures r == Resolve(vars, value, fuel)
    decreases fuel, 0
  {
    var v := Unquote(value);
    var items := ExprRefs(v);
    ResolveQuotedStart(vars, value, fuel);
    var n := 0;
    while n < |items|
      invariant 0 <= n <= |items|
      invariant forall k :: 0 <= k < |items| ==> items[k] != []
      invariant Resolve(vars, value, fuel) == ResolveEach(vars, v, items[n..], fuel - 1)
    {
      var item := ResolveValue(vars, items[n], fuel - 1);
      if item.None? {
        ResolveEachStops(vars, v, items, n, fuel - 1);
        return None;
      }
      ResolveEachNext(vars, v, items, n, fuel - 1, item.value);
      v := ReplaceAll(v, items[n], item.value);
      n := n + 1;
    }
    return Some(v);
  }

  /** A quoted value resolves as its interpolations do, in turn. */
  lemma ResolveQuotedStart(vars: map<string, string>, value: string, fuel: nat)
    requires fuel > 0 && IsQuoted(value)
    ensures var items := ExprRefs(Unquote(value));
            (forall k :: 0 <= k < |items| ==> items[k] != []) &&
            Resolve(vars, value, fuel) == ResolveEach(vars, Unquote(value), items[0..], fuel - 1)
  {
    var items := ExprRefs(Unquote(value));
    assert items[0..] == items;
  }

  /** The rest of the interpolations, after the `n`-th resolved to `x`. */
  lemma ResolveEachNext(vars: map<string, string>, v: string, items: seq<string>, n: int, fuel: nat, x: string)
    requires forall k :: 0 <= k < |items| ==> items[k] != []
    requires 0 <= n < |items| && Resolve(vars, items[n], fuel) == Some(x)
    ensures ResolveEach(vars, v, items[n..], fuel) == ResolveEach(vars, ReplaceAll(v, items[n], x), items[n + 1..], fuel)
  {
    assert items[n..][0] == items[n] && items[n..][1..] == items[n + 1..];
  }

  /** An interpolation that diverges makes the whole value diverge. */
  lemma ResolveEachStops(vars: map<string, string>, v: string, items: seq<string>, n: int, fuel: nat)
    requires forall k :: 0 <= k < |items| ==> items[k] != []
    requires 0 <= n < |items| && Resolve(vars, items[n], fuel) == None
    ensures ResolveEach(vars, v, items[n..], fuel) == None
  {
    assert items[n..][0] == items[n];
  }

  /** One more match written and summed. */
  lemma ResizedSnoc(b: Block, rec: map<string, string>, savings: map<string, int>, ms: seq<string>, k: string)
    requires k in rec && forall x :: x in ms ==> x in rec
    ensures var after := Resized(b, rec, ms);
            Resized(b, rec, ms + [k]) == after.(attributes := after.attributes["instance_class" := Quoted(rec[k])])
    ensures SumOf(ms + [k], savings) == SumOf(ms, savings) + Get(savings, k)
  {
    assert (ms + [k])[..|ms|] == ms;
  }

  /** Whether key `k` matches identifier `value` under the prefix flag (see `PrefixMatch`). */
  predicate KeyMatches(keyExtendsIdentifier: bool, value: string, k: string) {
    if keyExtendsIdentifier then HasPrefix(k, value) else HasPrefix(value, k)
  }

  /** The keys of `order` matching `value`, in order. */
  function Prefixed(order: seq<string>, value: string, keyExtendsIdentifier: bool): seq<string>
    decreases |order|
  {
    if order == [] then []
    else
      var rest := Prefixed(order[..|order| - 1], value, keyExtendsIdentifier);
      if KeyMatches(keyExtendsIdentifier, value, order[|order| - 1]) then rest + [order[|order| - 1]] else rest
  }

  lemma {:induction false} PrefixedIsFilter(order: seq<string>, value: string, keyExtendsIdentifier: bool)
    ensures Prefixed(order, value, keyExtendsIdentifier) == Filter(order, PrefixMatch(keyExtendsIdentifier, value))
    decreases |order|
  {
    if order != [] {
      PrefixedIsFilter(order[..|order| - 1], value, keyExtendsIdentifier);
    }
  }

  /** Lines 171-182: with the prefix flag, every matching key in iteration order. */
  method ResizeByPrefix(b: Block, value: string, rec: map<string, string>, savings: map<string, int>,
                        order: seq<string>, keyExtendsIdentifier: bool)
    returns (after: Block, ms: seq<string>, saving: int)
    requires IsListing(order, rec.Keys)
    ensures ms == (if "db_name" in b.attributes then Filter(order, PrefixMatch(keyExtendsIdentifier, value)) else [])
    ensures after == Resized(b, rec, ms) && saving == SumOf(ms, savings)
  {
    after, ms, saving := b, [], 0;
    ghost var hasDbName := "db_name" in b.attributes;
    for m := 0 to |order|
      invariant ms == if hasDbName then Prefixed(order[..m], value, keyExtendsIdentifier) else []
      invariant forall k :: k in ms ==> k in rec
      invariant after == Resized(b, rec, ms) && saving == SumOf(ms, savings)
    {
      assert order[..m + 1][..m] == order[..m];
      var k := order[m];
      assert k in order;
      var matches := if keyExtendsIdentifier then HasPrefix(k, value) else HasPrefix(value, k);
      if matches && "db_name" in b.attributes {
        ResizedSnoc(b, rec, savings, ms, k);
        after := after.(attributes := after.attributes["instance_class" := Quoted(rec[k])]);
        ms := ms + [k];
        saving := saving + Get(savings, k);
      }
    }
    assert order[..|order|] == order;
    PrefixedIsFilter(order, value, keyExtendsIdentifier);
  }

  /**
   * Lines 164-194 for a module whose identifier resolved to `value`: the
   * keys of the recommendations matching it, in iteration order `order`,
   * each writing its size into the block and counting its saving.
   */
  method ResizeModule(b: Block, value: string, rec: map<string, string>, savings: map<string, int>,
                      order: seq<string>, keyExtendsIdentifier: bool)
    returns (after: Block, ms: seq<string>, saving: int)
    requires IsListing(order, rec.Keys)
    ensures ms == Matches(b, value, rec, order, keyExtendsIdentifier)
    ensures after == Resized(b, rec, ms) && saving == SumOf(ms, savings)
  {
    var usePrefix := AttributeText(b, "instance_use_identifier_prefix") == Some("true");
    if usePrefix {
      after, ms, saving := ResizeByPrefix(b, value, rec, savings, order, keyExtendsIdentifier);
    } else if value in rec && "db_name" in b.attributes {
      after := b.(attributes := b.attributes["instance_class" := Quoted(rec[value])]);
      ms := [value];
      saving := Get(savings, value);
      assert ms[..0] == [];
    } else {
      after, ms, saving := b, [], 0;
    }
  }

  /** Lines 164-194 for a module whose identifier resolved to `value`. */
  method WalkModule(st: Rewrite, b: Block, value: string, rec: map<string, string>, savings: map<string, int>,
                    order: seq<string>, keyExtendsIdentifier: bool) returns (r: Rewrite)
    requires IsListing(order, rec.Keys)
    ensures r == ModuleStep(st, b, value, rec, savings, order, keyExtendsIdentifier)
  {
    var after, ms, saving := ResizeModule(b, value, rec, savings, order, keyExtendsIdentifier);
    r := Rewrite(st.locals, st.blocks + [after], st.count + |ms|, st.total + saving, st.ids + ms);
  }

  /** Lines 147-195 for one block. */
  method WalkBlock(st: Rewrite, b: Block, rec: map<string, string>, savings: map<string, int>,
                   order: seq<string>, fuel: nat, keyExtendsIdentifier: bool) returns (r: Option<Rewrite>)
    requires IsListing(order, rec.Keys)
    ensures r == BlockStep(st, b, rec, savings, order, fuel, keyExtendsIdentifier)
  {
    if b.kind == "locals" {
      var locals := AddLocals(st.locals, b);
      r := Some(st.(locals := locals, blocks := st.blocks + [b]));
    } else if b.kind == "module" && "identifier" in b.attributes {
      var value := ResolveValue(st.locals, TrimSpace(b.attributes["identifier"]), fuel);
      if value.None? {
        r := None;
      } else {
        var next := WalkModule(st, b, value.value, rec, savings, order, keyExtendsIdentifier);
        r := Some(next);
      }
    } else {
      r := Some(st.(blocks := st.blocks + [b]));
    }
  }

  /** One more block walked. */
  lemma RewriteOfSnoc(blocks: seq<Block>, rec: map<string, string>, savings: map<string, int>,
                      orders: seq<seq<string>>, fuel: nat, keyExtendsIdentifier: bool, n: int, st: Rewrite)
    requires |orders| == |blocks| && forall j :: 0 <= j < |orders| ==> IsListing(orders[j], rec.Keys)
    requires 0 <= n < |blocks| && RewriteOf(blocks[..n], rec, savings, orders[..n], fuel, keyExtendsIdentifier) == Some(st)
    ensures RewriteOf(blocks[..n + 1], rec, savings, orders[..n + 1], fuel, keyExtendsIdentifier) ==
            BlockStep(st, blocks[n], rec, savings, orders[n], fuel, keyExtendsIdentifier)
  {
    assert blocks[..n + 1][..n] == blocks[..n] && orders[..n + 1][..n] == orders[..n];
  }

  /** Lines 142-196: the walk over the blocks, block `j` iterating the recommendations in `orders[j]`. */
  method RewriteBlocks(blocks: seq<Block>, rec: map<string, string>, savings: map<string, int>,
                       orders: seq<seq<string>>, fuel: nat, keyExtendsIdentifier: bool) returns (r: Option<Rewrite>)
    requires |orders| == |blocks| && forall j :: 0 <= j < |orders| ==> IsListing(orders[j], rec.Keys)
    ensures r == RewriteOf(blocks, rec, savings, orders, fuel, keyExtendsIdentifier)
  {
    var st := NoRewrite;
    for n := 0 to |blocks|
      invariant RewriteOf(blocks[..n], rec, savings, orders[..n], fuel, keyExtendsIdentifier) == Some(st)
    {
      RewriteOfSnoc(blocks, rec, savings, orders, fuel, keyExtendsIdentifier, n, st);
      var next := WalkBlock(st, blocks[n], rec, savings, orders[n], fuel, keyExtendsIdentifier);
      if next.None? {
        assert blocks[..|blocks|] == blocks && orders[..|orders|] == orders;
        RewriteNoneStays(blocks, rec, savings, orders, fuel, keyExtendsIdentifier, n + 1);
        return None;
      }
      st := next.value;
    }
    assert blocks[..|blocks|] == blocks && orders[..|orders|] == orders;
    r := Some(st);
  }

  /** Once the walk fails it stays failed. */
  lemma {:induction false} RewriteNoneStays(blocks: seq<Block>, rec: map<string, string>, savings: map<string, int>,
                                            orders: seq<seq<string>>, fuel: nat, keyExtendsIdentifier: bool, n: int)
    requires |orders| == |blocks| && forall j :: 0 <= j < |orders| ==> IsListing(orders[j], rec.Keys)
    requires 0 <= n <= |blocks| && RewriteOf(blocks[..n], rec, savings, orders[..n], fuel, keyExtendsIdentifier).None?
    ensures RewriteOf(blocks, rec, savings, orders, fuel, keyExtendsIdentifier).None?
    decreases |blocks| - n
  {
    if n < |blocks| {
      assert blocks[..n + 1][..n] == blocks[..n] && orders[..n + 1][..n] == orders[..n];
      RewriteNoneStays(blocks, rec, savings, orders, fuel, keyExtendsIdentifier, n + 1);
    } else {
      assert blocks[..n] == blocks && orders[..n] == orders;
    }
  }

  // ---------------------------------------------------------------- pull request

  /** The rule under each entry of the description (line 203). */
  const Rule := "-------------------------------------------------------------------------"

  /** A string map read as Go reads it: "" for a missing key. */
  function GetText(m: map<string, string>, k: string): string {
    if k in m then m[k] else ""
  }

  /** The description of one right-sized id (lines 199-204): its name, the change, the reason and a rule. */
  function Entry(id: string, plan: Plan): string {
    "**" + id + ":**\n" +
    "- Changing instance class from " + GetText(plan.current, id) + " to " + GetText(plan.recommendation, id) + "\n\n" +
    "Reasoning: " + GetText(plan.reasons, id) + "\n\n" +
    Rule + "\n\n"
  }

  /** Each id's text, one after the other. */
  function Joined(ids: seq<string>, text: string -> string): string
    decreases |ids|
  {
    if ids == [] then "" else Joined(ids[..|ids| - 1], text) + text(ids[|ids| - 1])
  }

  /** Texts of consecutive ids follow each other. */
  lemma {:induction false} JoinedAppend(a: seq<string>, b: seq<string>, text: string -> string)
    ensures Joined(a + b, text) == Joined(a, text) + Joined(b, text)
    decreases |b|
  {
    if b == [] {
      assert a + b == a;
    } else {
      var n := |b| - 1;
      assert (a + b)[..|a + b| - 1] == a + b[..n];
      JoinedAppend(a, b[..n], text);
    }
  }

  /** The description of the pull request: one entry per right-sized id, in order. */
  function Description(ids: seq<string>, plan: Plan): string {
    Joined(ids, id => Entry(id, plan))
  }

  /** The description of more ids continues the description of the first ones. */
  lemma DescriptionAppend(a: seq<string>, b: seq<string>, plan: Plan)
    ensures Description(a + b, plan) == Description(a, plan) + Description(b, plan)
  {
    JoinedAppend(a, b, id => Entry(id, plan));
  }

  /** Lines 198-205: the description, built entry by entry. */
  method Describe(ids: seq<string>, plan: Plan) returns (description: string)
    ensures description == Description(ids, plan)
  {
    description := "";
    for n := 0 to |ids|
      invariant description == Description(ids[..n], plan)
    {
      assert ids[..n + 1][..n] == ids[..n];
      var id := ids[n];
      var entry := "**" + id + ":**\n" +
        "- Changing instance class from " + GetText(plan.current, id) + " to " + GetText(plan.recommendation, id) + "\n\n" +
        "Reasoning: " + GetText(plan.reasons, id) + "\n\n" +
        Rule + "\n\n";
      assert entry == Entry(id, plan);
      description := description + entry;
    }
    assert ids[..|ids|] == ids;
  }

  /** The pull request of lines 214-225: title, commit message, description and the rewritten file. */
  datatype PullRequest = PullRequest(title: string, message: string, description: string, blocks: seq<Block>)

  /** What the command does with a Terraform file. */
  datatype Outcome =
    | Diverges          // a local refers to itself: the source never returns
    | NoChange          // nothing right-sized: no pull request (lines 206-208)
    | Propose(pr: PullRequest)

  /** The pull-request title (line 220). */
  function Title(count: int): string {
    "srebot: resizing " + IntToString(count) + " resources."
  }

  /**
   * Lines 210-213 and 223: the commit message, whose verb says whether the
   * total saving is negative; the amount is its absolute value in whole
   * dollars (savings are integer-valued in this model, so `%.0f` prints
   * them as they are).
   */
  function Message(count: int, total: int): string {
    Title(count) + " " + (if total < 0 then "increases" else "reduces") + " by $" + NatToString(if total < 0 then -total else total)
  }

  /** `order` lists each block's iteration of the recommendations. */
  ghost predicate AreListings(orders: seq<seq<string>>, keys: set<string>) {
    forall j :: 0 <= j < |orders| ==> IsListing(orders[j], keys)
  }

  /**
   * The command on the plugin's items and a Terraform file's blocks (lines
   * 104-225), with the identifier prefix read as "key starts with the
   * identifier".
   */
  function Command(items: seq<OptimizationItem>, ignoreYoungerThan: int, blocks: seq<Block>,
                   orders: seq<seq<string>>, fuel: nat): Outcome
    requires |orders| == |blocks| && AreListings(orders, PlanOf(items, ignoreYoungerThan).recommendation.Keys)
  {
    var plan := PlanOf(items, ignoreYoungerThan);
    match RewriteOf(blocks, plan.recommendation, plan.savings, orders, fuel, true)
    case None => Diverges
    case Some(r) =>
      if r.count == 0 then NoChange
      else Propose(PullRequest(Title(r.count), Message(r.count, r.total), Description(r.ids, plan), r.blocks))
  }

  /** The message says "increases" exactly when the total saving is negative, and gives its size. */
  lemma MessageWord(count: int, total: int)
    ensures var t := Title(count);
            (total < 0 ==> Message(count, total) == t + " increases by $" + NatToString(-total)) &&
            (total >= 0 ==> Message(count, total) == t + " reduces by $" + NatToString(total))
  {
    var t := Title(count);
    var word := if total < 0 then "increases" else "reduces";
    Assoc(t, " ", word);
    Assoc(t, " " + word, " by $");
    if total < 0 {
      assert " " + word + " by $" == " increases by $";
    } else {
      assert " " + word + " by $" == " reduces by $";
    }
  }

  /**
   * A proposal right-sizes at least one module; its file has the same
   * blocks with at most the instance class of `db_name` modules changed,
   * each to a quoted recommended size; its description has one entry per
   * right-sized id. No change is proposed exactly when no module matched.
   */
  lemma CommandMeaning(items: seq<OptimizationItem>, ignoreYoungerThan: int, blocks: seq<Block>,
                       orders: seq<seq<string>>, fuel: nat)
    requires |orders| == |blocks| && AreListings(orders, PlanOf(items, ignoreYoungerThan).recommendation.Keys)
    ensures var plan := PlanOf(items, ignoreYoungerThan);
            var r := RewriteOf(blocks, plan.recommendation, plan.savings, orders, fuel, true);
            match Command(items, ignoreYoungerThan, blocks, orders, fuel)
            case Diverges => r.None?
            case NoChange => r.Some? && r.value.ids == []
            case Propose(pr) =>
              r.Some? && r.value.ids != [] && pr.title == Title(|r.value.ids|) &&
              AllSameBut(pr.blocks, blocks) &&
              (forall id :: id in r.value.ids ==> id in plan.recommendation) &&
              pr.description == Description(r.value.ids, plan)
  {
    var plan := PlanOf(items, ignoreYoungerThan);
    RewriteShape(blocks, plan.recommendation, plan.savings, orders, fuel, true);
  }

  /**
   * Go's map order does not change the outcome's kind, the pull request's
   * title or its message; only the order of the description's entries and
   * of equal-size writes may differ.
   */
  lemma CommandOrderFree(items: seq<OptimizationItem>, ignoreYoungerThan: int, blocks: seq<Block>,
                         o1: seq<seq<string>>, o2: seq<seq<string>>, fuel: nat)
    requires |o1| == |blocks| && AreListings(o1, PlanOf(items, ignoreYoungerThan).recommendation.Keys)
    requires |o2| == |blocks| && AreListings(o2, PlanOf(items, ignoreYoungerThan).recommendation.Keys)
    ensures var c1 := Command(items, ignoreYoungerThan, blocks, o1, fuel);
            var c2 := Command(items, ignoreYoungerThan, blocks, o2, fuel);
            c1.Diverges? == c2.Diverges? && c1.NoChange? == c2.NoChange? &&
            (c1.Propose? && c2.Propose? ==> c1.pr.title == c2.pr.title && c1.pr.message == c2.pr.message)
  {
    var plan := PlanOf(items, ignoreYoungerThan);
    RewriteOrderFree(blocks, plan.recommendation, plan.savings, o1, o2, fuel, true);
  }

  /** Lines 104-225 as the command runs them. */
  method RunCommand(items: seq<OptimizationItem>, ignoreYoungerThan: int, blocks: seq<Block>,
                    orders: seq<seq<string>>, fuel: nat) returns (outcome: Outcome)
    requires |orders| == |blocks| && AreListings(orders, PlanOf(items, ignoreYoungerThan).recommendation.Keys)
    ensures outcome == Command(items, ignoreYoungerThan, blocks, orders, fuel)
  {
    var plan := ReadPlan(items, ignoreYoungerThan);
    var r := RewriteBlocks(blocks, plan.recommendation, plan.savings, orders, fuel, true);
    if r.None? {
      return Diverges;
    }
    var description := Describe(r.value.ids, plan);
    if r.value.count == 0 {
      return NoChange;
    }
    var word := "reduces";
    if r.value.total < 0 {
      word := "increases";
    }
    var amount := if r.value.total < 0 then -r.value.total else r.value.total;
    var title := "srebot: resizing " + IntToString(r.value.count) + " resources.";
    outcome := Propose(PullRequest(title, title + " " + word + " by $" + NatToString(amount), description, r.value.blocks));
  }
}
