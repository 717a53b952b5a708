/**
 * The non-interactive output of view/non_interactive_view.go: the CSV
 * export of optimization items, the CSV and JSON export of the items of a
 * plugin with its own table layout, the two text cleaners those exports
 * use, and the step of the job watcher.
 *
 * Prices are integers and their formatting (`utils.FormatPriceFloat`, which
 * is not part of this model) is the parameter `money`; the limit-pattern
 * test and the contact message of pkg/utils are parameters as well. Go
 * iterates a map in no fixed order; the methods here take the keys in an
 * order the verifier does not know, and their results are shown not to
 * depend on it. The JSON value is the nested map before `json.Marshal`.
 */
module NonInteractiveView {
  import opened Wrappers
  import opened Text
  import opened Proto
  import JobsController

  // ---------------------------------------------------------------- removeANSI

  const Esc: char := '\U{001B}'

  /** A character the escape sequence's parameters may hold: `[0-9;]`. */
  predicate IsParam(c: char) { '0' <= c <= '9' || c == ';' }

  /** The first position at or after `i` that does not hold a parameter character. */
  function ParamEnd(s: string, i: nat): (e: nat)
    requires i <= |s|
    ensures i <= e <= |s|
    ensures forall k :: i <= k < e ==> IsParam(s[k])
    ensures e < |s| ==> !IsParam(s[e])
    decreases |s| - i
  {
    if i < |s| && IsParam(s[i]) then ParamEnd(s, i + 1) else i
  }

  /**
   * The length of the match of `\x1b\[[0-9;]*m` at the start of `s`, or 0.
   * A match is unique where it exists, since `m` is not a parameter.
   */
  function AnsiAt(s: string): (n: nat)
    ensures n == 0 || (3 <= n <= |s| && s[0] == Esc && s[1] == '[' && s[n - 1] == 'm' &&
                       forall k :: 2 <= k < n - 1 ==> IsParam(s[k]))
  {
    if |s| >= 2 && s[0] == Esc && s[1] == '[' then
      var e := ParamEnd(s, 2);
      if e < |s| && s[e] == 'm' then e + 1 else 0
    else 0
  }

  /**
   * `removeANSI` (lines 628-631): the leftmost-first replacement of every
   * match by "", scanning once from the left.
   */
  function RemoveAnsi(s: string): (r: string)
    ensures |r| <= |s|
    decreases |s|
  {
    if s == [] then []
    else
      var n := AnsiAt(s);
      if n > 0 then RemoveAnsi(s[n..]) else [s[0]] + RemoveAnsi(s[1..])
  }

  /** A text without an escape character is left as it is. */
  lemma {:induction false} RemoveAnsiPlain(s: string)
    requires Esc !in s
    ensures RemoveAnsi(s) == s
    decreases |s|
  {
    if s != [] {
      assert s[0] != Esc;
      RemoveAnsiPlain(s[1..]);
    }
  }

  /** A colour sequence at the front is dropped whole, and the scan goes on after it. */
  lemma RemoveAnsiDropsSequence(params: string, t: string)
    requires forall k :: 0 <= k < |params| ==> IsParam(params[k])
    ensures RemoveAnsi([Esc, '['] + params + ['m'] + t) == RemoveAnsi(t)
  {
    var s := [Esc, '['] + params + ['m'] + t;
    assert forall k :: 2 <= k < |params| + 2 ==> s[k] == params[k - 2];
    assert s[|params| + 2] == 'm';
    assert ParamEnd(s, 2) == |params| + 2;
    assert s[|params| + 3..] == t;
  }

  /** Any character other than an escape is kept. */
  lemma RemoveAnsiKeeps(c: char, t: string)
    requires c != Esc
    ensures RemoveAnsi([c] + t) == [c] + RemoveAnsi(t)
  {
    assert ([c] + t)[1..] == t;
  }

  /**
   * The replacement does not look again at what it has joined: a sequence
   * nested in another's opening leaves one behind, and only a second pass
   * removes it.
   */
  lemma RemoveAnsiSinglePass()
    ensures RemoveAnsi([Esc, '[', Esc, '[', '0', 'm', 'm']) == [Esc, '[', 'm']
    ensures RemoveAnsi([Esc, '[', 'm']) == []
  {
    var s: string := [Esc, '[', Esc, '[', '0', 'm', 'm'];
    assert ParamEnd(s, 2) == 2;
    assert AnsiAt(s) == 0;
    assert AnsiAt(s[1..]) == 0;
    var u := s[2..];
    assert u == [Esc, '[', '0', 'm', 'm'];
    assert ParamEnd(u, 2) == 3 by {
      assert ParamEnd(u, 3) == 3;
    }
    assert AnsiAt(u) == 4;
    assert u[4..] == ['m'];
    assert RemoveAnsi(['m']) == ['m'] by {
      RemoveAnsiPlain(['m']);
    }
    assert s[1..][1..] == u;
    assert RemoveAnsi(u) == ['m'];
    assert RemoveAnsi(s[1..]) == ['['] + RemoveAnsi(u);
    assert RemoveAnsi(s) == [Esc] + RemoveAnsi(s[1..]);
    var w: string := [Esc, '[', 'm'];
    assert ParamEnd(w, 2) == 2;
    assert AnsiAt(w) == 3;
  }

  // ---------------------------------------------------------------- toSnakeCase

  /**
   * The rune loop of lines 640-650 as a function of the text so far: an
   * upper-case letter is lowered and, unless it starts the text or follows
   * an underscore, preceded by one.
   */
  function UpperBroken(s: string): string
    decreases |s|
  {
    if s == [] then []
    else
      var n := |s| - 1;
      var c := s[n];
      UpperBroken(s[..n]) +
      (if IsUpperAscii(c) then (if n > 0 && s[n - 1] != '_' then "_" else "") + [(c - 'A' + 'a') as char] else [c])
  }

  /** A text with no upper-case letter passes the rune loop unchanged. */
  lemma {:induction false} UpperBrokenLower(s: string)
    requires forall k :: 0 <= k < |s| ==> !IsUpperAscii(s[k])
    ensures UpperBroken(s) == s
    decreases |s|
  {
    if s != [] {
      UpperBrokenLower(s[..|s| - 1]);
    }
  }

  /** The rune loop of lines 640-650. */
  method BreakUppers(s: string) returns (result: string)
    ensures result == UpperBroken(s)
  {
    result := "";
    for i := 0 to |s|
      invariant result == UpperBroken(s[..i])
    {
      assert s[..i + 1][..i] == s[..i];
      var r := s[i];
      if IsUpperAscii(r) {
        if i > 0 && s[i - 1] != '_' {
          result := result + "_";
        }
        result := result + [(r - 'A' + 'a') as char];
      } else {
        result := result + [r];
      }
    }
    assert s[..|s|] == s;
  }

  /** No two underscores are adjacent. */
  predicate NoDoubleUnderscore(s: string) {
    forall k :: 0 <= k < |s| - 1 ==> !(s[k] == '_' && s[k + 1] == '_')
  }

  /** The text without its underscores. */
  function DropUnderscores(s: string): string
    decreases |s|
  {
    if s == [] then [] else DropUnderscores(s[..|s| - 1]) + (if s[|s| - 1] == '_' then "" else [s[|s| - 1]])
  }

  /** The replacement of `_+` by "_" (lines 654-655): each run of underscores becomes one. */
  function Collapse(s: string): (r: string)
    ensures |r| <= |s|
    decreases |s|
  {
    if s == [] then []
    else
      var init := s[..|s| - 1];
      var c := s[|s| - 1];
      var r := Collapse(init);
      if c == '_' && init != [] && init[|init| - 1] == '_' then r else r + [c]
  }

  /**
   * The collapsed text keeps every other character in order, holds no
   * character the text does not, ends as the text ends, and has no two
   * adjacent underscores.
   */
  lemma {:induction false} CollapseShape(s: string)
    ensures var r := Collapse(s);
            (|s| > 0 ==> |r| > 0 && r[|r| - 1] == s[|s| - 1]) && NoDoubleUnderscore(r) &&
            (forall k :: 0 <= k < |r| ==> r[k] in s) && DropUnderscores(r) == DropUnderscores(s)
    decreases |s|
  {
    if s != [] {
      var init := s[..|s| - 1];
      var c := s[|s| - 1];
      CollapseShape(init);
      var ri := Collapse(init);
      forall k | 0 <= k < |ri| ensures ri[k] in s {
        assert ri[k] in init;
      }
      if !(c == '_' && init != [] && init[|init| - 1] == '_') {
        var r := ri + [c];
        assert r[..|ri|] == ri;
        assert Collapse(s) == r;
      }
    }
  }

  /**
   * `toSnakeCase` (lines 633-658): trimmed, lower-cased, spaces and dashes
   * made underscores, upper-case letters broken out, runs of underscores
   * collapsed.
   */
  function ToSnakeCase(s: string): string {
    var t := ToLower(TrimSpace(s));
    Collapse(UpperBroken(ReplaceChar(ReplaceChar(t, ' ', '_'), '-', '_')))
  }

  /**
   * The snake-cased text holds no space, no dash, no upper-case letter and
   * no two adjacent underscores; apart from underscores it is the lowered,
   * trimmed text with its spaces and dashes removed.
   */
  lemma SnakeCaseShape(s: string)
    ensures var r := ToSnakeCase(s);
            ' ' !in r && '-' !in r && NoDoubleUnderscore(r) && (forall k :: 0 <= k < |r| ==> !IsUpperAscii(r[k])) &&
            DropUnderscores(r) == DropUnderscores(ReplaceChar(ReplaceChar(ToLower(TrimSpace(s)), ' ', '_'), '-', '_'))
  {
    var t := ReplaceChar(ReplaceChar(ToLower(TrimSpace(s)), ' ', '_'), '-', '_');
    PreparedShape(ToLower(TrimSpace(s)));
    UpperBrokenLower(t);
    CollapsePrepared(t);
  }

  /** No upper-case letter, space or dash. */
  predicate Prepared(t: string) {
    forall k :: 0 <= k < |t| ==> !IsUpperAscii(t[k]) && t[k] != ' ' && t[k] != '-'
  }

  /** Lowered text with its spaces and dashes made underscores holds none of them, nor an upper-case letter. */
  lemma PreparedShape(l: string)
    requires forall k :: 0 <= k < |l| ==> !IsUpperAscii(l[k])
    ensures Prepared(ReplaceChar(ReplaceChar(l, ' ', '_'), '-', '_'))
  {
    var m := ReplaceChar(l, ' ', '_');
    var t := ReplaceChar(m, '-', '_');
    forall k | 0 <= k < |t| ensures !IsUpperAscii(t[k]) && t[k] != ' ' && t[k] != '-' {
      assert t[k] == if m[k] == '-' then '_' else m[k];
      assert m[k] == if l[k] == ' ' then '_' else l[k];
    }
  }

  /** Collapsing a prepared text leaves it prepared, without adjacent underscores. */
  lemma CollapsePrepared(t: string)
    requires Prepared(t)
    ensures var r := Collapse(t);
            ' ' !in r && '-' !in r && NoDoubleUnderscore(r) && (forall k :: 0 <= k < |r| ==> !IsUpperAscii(r[k])) &&
            DropUnderscores(r) == DropUnderscores(t)
  {
    CollapseShape(t);
    var r := Collapse(t);
    forall k | 0 <= k < |r| ensures !IsUpperAscii(r[k]) && r[k] != ' ' && r[k] != '-' {
      assert r[k] in t;
    }
  }

  /** Snake-casing a snake-cased text changes nothing. */
  lemma SnakeCaseIdempotent(s: string)
    requires ' ' !in s && '-' !in s && NoDoubleUnderscore(s) && forall k :: 0 <= k < |s| ==> !IsUpperAscii(s[k])
    requires s == [] || (!IsSpace(s[0]) && !IsSpace(s[|s| - 1]))
    ensures ToSnakeCase(s) == s
  {
    TrimSpaceOfTrimmed(s);
    LowerOfLower(s);
    ReplaceAbsent(s, ' ');
    ReplaceAbsent(s, '-');
    UpperBrokenLower(s);
    CollapseSingle(s);
  }

  lemma TrimSpaceOfTrimmed(s: string)
    requires s == [] || (!IsSpace(s[0]) && !IsSpace(s[|s| - 1]))
    ensures TrimSpace(s) == s
  {
    if s != [] {
      assert SpaceEnd(s, 0) == 0;
      assert SpaceStart(s, 0, |s|) == |s|;
    }
  }

  lemma LowerOfLower(s: string)
    requires forall k :: 0 <= k < |s| ==> !IsUpperAscii(s[k])
    ensures ToLower(s) == s
  {
  }

  lemma ReplaceAbsent(s: string, c: char)
    requires c !in s
    ensures ReplaceChar(s, c, '_') == s
  {
  }

  /** Collapsing a text without adjacent underscores changes nothing. */
  lemma {:induction false} CollapseSingle(s: string)
    requires NoDoubleUnderscore(s)
    ensures Collapse(s) == s
    decreases |s|
  {
    if s != [] {
      var init := s[..|s| - 1];
      var c := s[|s| - 1];
      assert NoDoubleUnderscore(init);
      CollapseSingle(init);
      if init != [] {
        assert init[|init| - 1] == s[|s| - 2];
      }
      assert !(c == '_' && init != [] && init[|init| - 1] == '_');
      assert init + [c] == s;
    }
  }

  // ---------------------------------------------------------------- exportCsv

  /** The CSV header of lines 493-497. */
  const CsvHeaders: seq<string> := [
    "Item-ID", "Item-ResourceType", "Item-Region", "Item-Platform", "Item-TotalSave",
    "Device-ID", "Device-ResourceType", "Device-Runtime", "Device-CurrentCost", "Device-RightSizedCost", "Device-Savings",
    "Property-Name", "Property-Current", "Property-Average", "Property-Max", "Property-Recommendation"]

  /** The item's saving over all its devices (lines 500-503). */
  function TotalSaving(devs: seq<Device>): int
    decreases |devs|
  {
    if devs == [] then 0
    else TotalSaving(devs[..|devs| - 1]) + (devs[|devs| - 1].currentCost - devs[|devs| - 1].rightSizedCost)
  }

  /** One CSV row: the item, the device and the property (lines 509-513). */
  function CsvRow(i: OptimizationItem, total: int, d: Device, p: Property, money: int -> string): (row: seq<string>)
    ensures |row| == |CsvHeaders|
  {
    [i.id, i.resourceType, i.region, i.platform, money(total),
     d.deviceId, d.resourceType, d.runtime, money(d.currentCost), money(d.rightSizedCost), money(d.currentCost - d.rightSizedCost),
     p.key, p.current, p.average, p.max, p.recommended]
  }

  /** The number of properties that are not hidden. */
  function VisibleCount(ps: seq<Property>): nat
    decreases |ps|
  {
    if ps == [] then 0 else VisibleCount(ps[..|ps| - 1]) + (if ps[|ps| - 1].hidden then 0 else 1)
  }

  function DevicesVisibleCount(ds: seq<Device>): nat
    decreases |ds|
  {
    if ds == [] then 0 else DevicesVisibleCount(ds[..|ds| - 1]) + VisibleCount(ds[|ds| - 1].properties)
  }

  function ItemsVisibleCount(items: seq<OptimizationItem>): nat
    decreases |items|
  {
    if items == [] then 0 else ItemsVisibleCount(items[..|items| - 1]) + DevicesVisibleCount(items[|items| - 1].devices)
  }

  /** A table with the header's width. */
  predicate Rectangular(rows: seq<seq<string>>, width: nat) {
    forall k :: 0 <= k < |rows| ==> |rows[k]| == width
  }

  /**
   * The rows of one device (lines 505-514): one per property that is not
   * hidden, in order, each naming the item and the device.
   */
  function PropertyRows(i: OptimizationItem, total: int, d: Device, ps: seq<Property>, money: int -> string): (rows: seq<seq<string>>)
    ensures |rows| == VisibleCount(ps) && Rectangular(rows, |CsvHeaders|)
    ensures forall k :: 0 <= k < |rows| ==> rows[k][0] == i.id && rows[k][4] == money(total) && rows[k][5] == d.deviceId
    decreases |ps|
  {
    if ps == [] then []
    else
      var p := ps[|ps| - 1];
      PropertyRows(i, total, d, ps[..|ps| - 1], money) + (if p.hidden then [] else [CsvRow(i, total, d, p, money)])
  }

  /** The rows of an item's devices, device after device (line 504). */
  function DeviceRows(i: OptimizationItem, total: int, ds: seq<Device>, money: int -> string): (rows: seq<seq<string>>)
    ensures |rows| == DevicesVisibleCount(ds) && Rectangular(rows, |CsvHeaders|)
    ensures forall k :: 0 <= k < |rows| ==> rows[k][0] == i.id && rows[k][4] == money(total)
    decreases |ds|
  {
    if ds == [] then []
    else
      var d := ds[|ds| - 1];
      DeviceRows(i, total, ds[..|ds| - 1], money) + PropertyRows(i, total, d, d.properties, money)
  }

  /** The rows of one item, each carrying the item's total saving. */
  function ItemRows(i: OptimizationItem, money: int -> string): (rows: seq<seq<string>>)
    ensures |rows| == DevicesVisibleCount(i.devices) && Rectangular(rows, |CsvHeaders|)
    ensures forall k :: 0 <= k < |rows| ==> rows[k][0] == i.id && rows[k][4] == money(TotalSaving(i.devices))
  {
    DeviceRows(i, TotalSaving(i.devices), i.devices, money)
  }

  /**
   * `exportCsv`'s rows (lines 498-516): the rows of each item in turn, one
   * per visible property of each device, each as wide as the header.
   */
  function CsvRows(items: seq<OptimizationItem>, money: int -> string): (rows: seq<seq<string>>)
    ensures |rows| == ItemsVisibleCount(items) && Rectangular(rows, |CsvHeaders|)
    decreases |items|
  {
    if items == [] then [] else CsvRows(items[..|items| - 1], money) + ItemRows(items[|items| - 1], money)
  }

  /** An item whose properties are all hidden contributes no row. */
  lemma {:induction false} HiddenOnlyNoRows(ps: seq<Property>)
    requires forall k :: 0 <= k < |ps| ==> ps[k].hidden
    ensures VisibleCount(ps) == 0
    decreases |ps|
  {
    if ps != [] {
      HiddenOnlyNoRows(ps[..|ps| - 1]);
    }
  }

  /** The item's rows come right after those of the items before it. */
  lemma CsvRowsAppend(items: seq<OptimizationItem>, i: OptimizationItem, money: int -> string)
    ensures CsvRows(items + [i], money) == CsvRows(items, money) + ItemRows(i, money)
  {
    assert (items + [i])[..|items|] == items;
  }

  /** `exportCsv` (lines 492-518). */
  method ExportCsv(items: seq<OptimizationItem>, money: int -> string) returns (headers: seq<string>, rows: seq<seq<string>>)
    ensures headers == CsvHeaders && rows == CsvRows(items, money)
  {
    headers := CsvHeaders;
    rows := [];
    for n := 0 to |items|
      invariant rows == CsvRows(items[..n], money)
    {
      assert items[..n + 1] == items[..n] + [items[n]];
      CsvRowsAppend(items[..n], items[n], money);
      var totalSaving := ItemTotal(items[n].devices);
      var itemRows := ExportItem(items[n], totalSaving, money);
      rows := rows + itemRows;
    }
    assert items[..|items|] == items;
  }

  /** Lines 500-503. */
  method ItemTotal(devs: seq<Device>) returns (totalSaving: int)
    ensures totalSaving == TotalSaving(devs)
  {
    totalSaving := 0;
    for n := 0 to |devs|
      invariant totalSaving == TotalSaving(devs[..n])
    {
      assert devs[..n + 1][..n] == devs[..n];
      totalSaving := totalSaving + (devs[n].currentCost - devs[n].rightSizedCost);
    }
    assert devs[..|devs|] == devs;
  }

  /** Lines 504-515 for one item. */
  method ExportItem(i: OptimizationItem, total: int, money: int -> string) returns (rows: seq<seq<string>>)
    ensures rows == DeviceRows(i, total, i.devices, money)
  {
    rows := [];
    for n := 0 to |i.devices|
      invariant rows == DeviceRows(i, total, i.devices[..n], money)
    {
      assert i.devices[..n + 1][..n] == i.devices[..n];
      var deviceRows := ExportDevice(i, total, i.devices[n], money);
      rows := rows + deviceRows;
    }
    assert i.devices[..|i.devices|] == i.devices;
  }

  /** Lines 505-514 for one device: a row per property that is not hidden. */
  method ExportDevice(i: OptimizationItem, total: int, d: Device, money: int -> string) returns (rows: seq<seq<string>>)
    ensures rows == PropertyRows(i, total, d, d.properties, money)
  {
    rows := [];
    for m := 0 to |d.properties|
      invariant rows == PropertyRows(i, total, d, d.properties[..m], money)
    {
      assert d.properties[..m + 1][..m] == d.properties[..m];
      var p := d.properties[m];
      if p.hidden {
        continue;
      }
      rows := rows + [CsvRow(i, total, d, p, money)];
    }
    assert d.properties[..|d.properties|] == d.properties;
  }

  // ---------------------------------------------------------------- exportCustomCsv

  /** Keys with this prefix are internal to the plugin and never exported (lines 525, 532, 587 and 596). */
  const InternalPrefix: string := "x_kaytu"

  /** The values among `keys` that are exported: not internal, stripped of colour sequences. */
  function VisibleAmong(values: map<string, ChartRowItem>, keys: set<string>): map<string, string> {
    map k | k in keys && k in values && !HasPrefix(k, InternalPrefix) :: RemoveAnsi(values[k].value)
  }

  /** A row's exported values. */
  function Visible(values: map<string, ChartRowItem>): map<string, string> {
    VisibleAmong(values, values.Keys)
  }

  /**
   * A column of the custom CSV. The source keys its row maps by the text
   * "Item-" or "Device-" followed by the chart's key; `Header` renders a
   * column as that text, and `HeaderInjective` shows the two keyings agree.
   */
  datatype Column = ItemColumn(id: string) | DeviceColumn(id: string)

  function Header(c: Column): string {
    match c
    case ItemColumn(id) => "Item-" + id
    case DeviceColumn(id) => "Device-" + id
  }

  lemma HeaderInjective(a: Column, b: Column)
    ensures Header(a) == Header(b) <==> a == b
  {
    if Header(a) == Header(b) {
      assert Header(a)[0] == Header(b)[0];
      var n := if a.ItemColumn? then 5 else 7;
      assert a.id == Header(a)[n..];
      assert b.id == Header(b)[n..];
    }
  }

  /** The column of a key on the item (`false`) or device (`true`) side. */
  function ColumnOf(device: bool, k: string): Column {
    if device then DeviceColumn(k) else ItemColumn(k)
  }

  /** Values keyed by their column on one side. */
  function Tag(device: bool, m: map<string, string>): map<Column, string> {
    map k | k in m :: ColumnOf(device, k) := m[k]
  }

  /** One more key: its value is added unless the key is internal. */
  lemma VisibleAmongStep(values: map<string, ChartRowItem>, done: set<string>, key: string)
    requires key in values
    ensures VisibleAmong(values, done + {key}) ==
            if HasPrefix(key, InternalPrefix) then VisibleAmong(values, done)
            else VisibleAmong(values, done)[key := RemoveAnsi(values[key].value)]
  {
  }

  /** Tagging commutes with writing one value. */
  lemma TagUpdate(device: bool, m: map<string, string>, k: string, v: string)
    ensures Tag(device, m[k := v]) == Tag(device, m)[ColumnOf(device, k) := v]
  {
    var l := Tag(device, m[k := v]);
    var r := Tag(device, m)[ColumnOf(device, k) := v];
    forall c | c in l ensures c in r && l[c] == r[c] {
    }
    forall c | c in r ensures c in l {
    }
  }

  /** No keys, no cells. */
  lemma TagNothing(device: bool, values: map<string, ChartRowItem>)
    ensures Tag(device, VisibleAmong(values, {})) == map[]
  {
    assert VisibleAmong(values, {}) == map[];
  }

  /** A union with nothing changes nothing. */
  lemma UnionNothing<K, V>(a: map<K, V>)
    ensures a + map[] == a
  {
  }

  /** Union is associative. */
  lemma UnionAssoc<K, V>(a: map<K, V>, b: map<K, V>, c: map<K, V>)
    ensures a + (b + c) == (a + b) + c
  {
  }

  /** Writing into the right operand of a union is writing into the union. */
  lemma UnionUpdate<K, V>(a: map<K, V>, b: map<K, V>, k: K, v: V)
    ensures a + b[k := v] == (a + b)[k := v]
  {
  }

  /** One more key: its cell is written unless the key is internal. */
  lemma PutCellsStep(row0: map<Column, string>, row: map<Column, string>, device: bool,
                     values: map<string, ChartRowItem>, done: set<string>, key: string)
    requires key in values && row == row0 + Tag(device, VisibleAmong(values, done))
    ensures (if HasPrefix(key, InternalPrefix) then row else row[ColumnOf(device, key) := RemoveAnsi(values[key].value)])
            == row0 + Tag(device, VisibleAmong(values, done + {key}))
  {
    VisibleAmongStep(values, done, key);
    if !HasPrefix(key, InternalPrefix) {
      TagUpdate(device, VisibleAmong(values, done), key, RemoveAnsi(values[key].value));
      UnionUpdate(row0, Tag(device, VisibleAmong(values, done)), ColumnOf(device, key), RemoveAnsi(values[key].value));
    }
  }

  /** The loops of lines 524-529 and 531-536: each value that is not internal is written under its column. */
  method PutCells(row0: map<Column, string>, device: bool, values: map<string, ChartRowItem>) returns (row: map<Column, string>)
    ensures row == row0 + Tag(device, Visible(values))
  {
    row := row0;
    var todo := values.Keys;
    ghost var done: set<string> := {};
    TagNothing(device, values);
    UnionNothing(row0);
    while todo != {}
      invariant todo <= values.Keys && done == values.Keys - todo
      invariant row == row0 + Tag(device, VisibleAmong(values, done))
      decreases todo
    {
      var key :| key in todo;
      PutCellsStep(row0, row, device, values, done, key);
      todo := todo - {key};
      done := done + {key};
      if !HasPrefix(key, InternalPrefix) {
        row := row[ColumnOf(device, key) := RemoveAnsi(values[key].value)];
      }
    }
    assert done == values.Keys;
  }

  /** The device cells of an item: device after device, a later device's value replacing an earlier one's. */
  function DeviceCells(rows: seq<ChartRow>): (m: map<Column, string>)
    ensures forall c :: c in m ==> c.DeviceColumn?
    decreases |rows|
  {
    if rows == [] then map[]
    else DeviceCells(rows[..|rows| - 1]) + Tag(true, Visible(rows[|rows| - 1].values))
  }

  /** The device cells of one more row. */
  lemma DeviceCellsSnoc(rows: seq<ChartRow>, r: ChartRow)
    ensures DeviceCells(rows + [r]) == DeviceCells(rows) + Tag(true, Visible(r.values))
  {
    assert (rows + [r])[..|rows|] == rows;
  }

  /** The row map of an item (lines 523-549): its overview cells and its device cells. */
  function RowCells(i: ChartOptimizationItem): map<Column, string> {
    Tag(false, Visible(i.overviewChartRow.values)) + DeviceCells(i.devicesChartRows)
  }

  /** The columns of one table, on one side (lines 553-558). */
  function Columns(device: bool, def: ChartDefinition): (cs: seq<Column>)
    ensures |cs| == |def.columns|
  {
    seq(|def.columns|, j requires 0 <= j < |def.columns| => ColumnOf(device, def.columns[j].id))
  }

  /** The custom CSV's columns: the overview's, then the device table's (line 579). */
  function CustomColumns(overview: ChartDefinition, devices: ChartDefinition): (cs: seq<Column>)
    ensures |cs| == |overview.columns| + |devices.columns|
  {
    Columns(false, overview) + Columns(true, devices)
  }

  /** The header line: each column's text. */
  function HeaderTexts(cs: seq<Column>): (hs: seq<string>)
    ensures |hs| == |cs|
  {
    seq(|cs|, j requires 0 <= j < |cs| => Header(cs[j]))
  }

  /** A row's cell under a column, or "" when it has none (lines 564-568 and 571-575). */
  function Lookup(row: map<Column, string>, c: Column): string {
    if c in row then row[c] else ""
  }

  /** One CSV row for a row map: a cell per column. */
  function CustomRow(row: map<Column, string>, cs: seq<Column>): (cells: seq<string>)
    ensures |cells| == |cs|
  {
    seq(|cs|, j requires 0 <= j < |cs| => Lookup(row, cs[j]))
  }

  /** `exportCustomCsv`'s rows (lines 559-578): one per item, as wide as the header. */
  function CustomRows(items: seq<ChartOptimizationItem>, overview: ChartDefinition, devices: ChartDefinition): (rows: seq<seq<string>>)
    ensures |rows| == |items| && Rectangular(rows, |CustomColumns(overview, devices)|)
  {
    var cs := CustomColumns(overview, devices);
    Mapped(Mapped(items, RowCells), (row: map<Column, string>) => CustomRow(row, cs))
  }

  /**
   * An overview column's cell is the item's value in that column without
   * its colour sequences, or "" when the item has no such value or the
   * column is internal.
   */
  lemma CustomItemCell(items: seq<ChartOptimizationItem>, overview: ChartDefinition, devices: ChartDefinition, k: int, j: int)
    requires 0 <= k < |items| && 0 <= j < |overview.columns|
    ensures var id := overview.columns[j].id; var values := items[k].overviewChartRow.values;
            CustomRows(items, overview, devices)[k][j] ==
            if id in values && !HasPrefix(id, InternalPrefix) then RemoveAnsi(values[id].value) else ""
  {
    var c := CustomColumns(overview, devices)[j];
    assert c == ItemColumn(overview.columns[j].id);
    assert c !in DeviceCells(items[k].devicesChartRows);
  }

  /** The value of the last device row that has a value under the key, if any. */
  function LastDeviceValue(rows: seq<ChartRow>, id: string): Option<string>
    decreases |rows|
  {
    if rows == [] then None
    else
      var values := rows[|rows| - 1].values;
      if id in values && !HasPrefix(id, InternalPrefix) then Some(RemoveAnsi(values[id].value))
      else LastDeviceValue(rows[..|rows| - 1], id)
  }

  /** The device cells under a key hold the value of the last device that has one. */
  lemma {:induction false} DeviceCellsLast(rows: seq<ChartRow>, id: string)
    ensures (DeviceColumn(id) in DeviceCells(rows)) <==> LastDeviceValue(rows, id).Some?
    ensures DeviceColumn(id) in DeviceCells(rows) ==> DeviceCells(rows)[DeviceColumn(id)] == LastDeviceValue(rows, id).value
    decreases |rows|
  {
    if rows != [] {
      DeviceCellsLast(rows[..|rows| - 1], id);
      assert ColumnOf(true, id) == DeviceColumn(id);
    }
  }

  /**
   * A device column's cell is the value of the last of the item's device
   * rows that has one, without its colour sequences, or "".
   */
  lemma CustomDeviceCell(items: seq<ChartOptimizationItem>, overview: ChartDefinition, devices: ChartDefinition, k: int, j: int)
    requires 0 <= k < |items| && 0 <= j < |devices.columns|
    ensures CustomRows(items, overview, devices)[k][|overview.columns| + j] ==
            LastDeviceValue(items[k].devicesChartRows, devices.columns[j].id).GetOr("")
  {
    var id := devices.columns[j].id;
    assert CustomColumns(overview, devices)[|overview.columns| + j] == DeviceColumn(id);
    DeviceCellsLast(items[k].devicesChartRows, id);
    assert DeviceColumn(id) !in Tag(false, Visible(items[k].overviewChartRow.values));
  }

  /** `exportCustomCsv` (lines 520-580): the row maps, then the headers, then a row per map. */
  method ExportCustomCsv(items: seq<ChartOptimizationItem>, overview: ChartDefinition, devices: ChartDefinition)
    returns (headers: seq<string>, rows: seq<seq<string>>)
    ensures headers == HeaderTexts(CustomColumns(overview, devices)) && rows == CustomRows(items, overview, devices)
  {
    var rowsMap := RowMaps(items);
    var itemColumns := ColumnsOf(false, overview);
    var deviceColumns := ColumnsOf(true, devices);
    var cs := itemColumns + deviceColumns;
    rows := CustomCsvRows(rowsMap, cs);
    headers := HeaderTexts(cs);
  }

  /** Lines 523-549: a row map per item. */
  method RowMaps(items: seq<ChartOptimizationItem>) returns (rowsMap: seq<map<Column, string>>)
    ensures rowsMap == Mapped(items, RowCells)
  {
    rowsMap := [];
    for n := 0 to |items|
      invariant |rowsMap| == n && forall k :: 0 <= k < n ==> rowsMap[k] == RowCells(items[k])
    {
      var row := ItemRowCells(items[n]);
      rowsMap := rowsMap + [row];
    }
  }

  /** Lines 559-578: a CSV row per row map. */
  method CustomCsvRows(rowsMap: seq<map<Column, string>>, cs: seq<Column>) returns (rows: seq<seq<string>>)
    ensures rows == Mapped(rowsMap, (row: map<Column, string>) => CustomRow(row, cs))
  {
    rows := [];
    for n := 0 to |rowsMap|
      invariant |rows| == n && forall k :: 0 <= k < n ==> rows[k] == CustomRow(rowsMap[k], cs)
    {
      var cells := LookupAll(rowsMap[n], cs);
      rows := rows + [cells];
    }
  }

  /** Lines 523-548 for one item. */
  method ItemRowCells(i: ChartOptimizationItem) returns (row: map<Column, string>)
    ensures row == RowCells(i)
  {
    row := PutCells(map[], false, i.overviewChartRow.values);
    ghost var itemCells := row;
    var ds := i.devicesChartRows;
    UnionNothing(itemCells);
    for n := 0 to |ds|
      invariant row == itemCells + DeviceCells(ds[..n])
    {
      assert ds[..n + 1] == ds[..n] + [ds[n]];
      ghost var cells := Tag(true, Visible(ds[n].values));
      DeviceCellsSnoc(ds[..n], ds[n]);
      UnionAssoc(itemCells, DeviceCells(ds[..n]), cells);
      row := PutCells(row, true, ds[n].values);
    }
    assert ds[..|ds|] == ds;
  }

  /** Lines 553-558 for one table. */
  method ColumnsOf(device: bool, def: ChartDefinition) returns (cs: seq<Column>)
    ensures cs == Columns(device, def)
  {
    cs := [];
    for n := 0 to |def.columns|
      invariant |cs| == n && forall j :: 0 <= j < n ==> cs[j] == ColumnOf(device, def.columns[j].id)
    {
      cs := cs + [ColumnOf(device, def.columns[n].id)];
    }
  }

  /** Lines 561-577 for one row map. */
  method LookupAll(row: map<Column, string>, cs: seq<Column>) returns (cells: seq<string>)
    ensures cells == CustomRow(row, cs)
  {
    cells := [];
    for n := 0 to |cs|
      invariant |cells| == n && forall j :: 0 <= j < n ==> cells[j] == Lookup(row, cs[j])
    {
      if cs[n] in row {
        cells := cells + [row[cs[n]]];
      } else {
        cells := cells + [""];
      }
    }
  }

  // ---------------------------------------------------------------- convertOptimizeJson

  /** A JSON field of a device: a table value, or a property's four figures (lines 602-613). */
  datatype Field = Text(text: string) | Stats(current: string, average: string, max: string, recommended: string)

  /**
   * One item of the JSON output: its exported overview values and its
   * devices keyed by row id. The source collects the devices into a list
   * in map order (lines 616-620); the map here holds the same elements.
   */
  datatype JsonItem = JsonItem(fields: map<string, string>, devices: map<string, map<string, Field>>)

  /** A device's table values as JSON fields. */
  function TextFields(m: map<string, string>): map<string, Field> {
    map k | k in m :: Text(m[k])
  }

  /** The devices of lines 592-601: one per row id, a later row with the same id replacing an earlier one. */
  function DeviceMaps(rows: seq<ChartRow>): map<string, map<string, Field>>
    decreases |rows|
  {
    if rows == [] then map[]
    else DeviceMaps(rows[..|rows| - 1])[rows[|rows| - 1].rowId := TextFields(Visible(rows[|rows| - 1].values))]
  }

  /** The devices are exactly the rows' ids. */
  lemma {:induction false} DeviceMapsKeys(rows: seq<ChartRow>)
    ensures DeviceMaps(rows).Keys == set r | r in rows :: r.rowId
    decreases |rows|
  {
    if rows != [] {
      var init := rows[..|rows| - 1];
      DeviceMapsKeys(init);
      assert rows == init + [rows[|rows| - 1]];
      assert (set r | r in rows :: r.rowId) == (set r | r in init :: r.rowId) + {rows[|rows| - 1].rowId};
    }
  }

  /** The field a property gives: its four figures under its snake-cased key (lines 603-613). */
  function StatsOf(p: Property): Field {
    Stats(p.current, p.average, p.max, p.recommended)
  }

  /** A device's fields after its properties are written in order, hidden ones included. */
  function PropertyFields(m: map<string, Field>, ps: seq<Property>): map<string, Field>
    decreases |ps|
  {
    if ps == [] then m
    else PropertyFields(m, ps[..|ps| - 1])[ToSnakeCase(ps[|ps| - 1].key) := StatsOf(ps[|ps| - 1])]
  }

  /** The last of the properties whose key snake-cases to `k`, if any. */
  function LastProperty(ps: seq<Property>, k: string): Option<Property>
    decreases |ps|
  {
    if ps == [] then None
    else if ToSnakeCase(ps[|ps| - 1].key) == k then Some(ps[|ps| - 1])
    else LastProperty(ps[..|ps| - 1], k)
  }

  /**
   * A field of a device with properties is the last property whose key
   * snake-cases to it, and otherwise the device's own value.
   */
  lemma {:induction false} PropertyFieldsLookup(m: map<string, Field>, ps: seq<Property>, k: string)
    ensures k in PropertyFields(m, ps) <==> LastProperty(ps, k).Some? || k in m
    ensures LastProperty(ps, k).Some? ==> PropertyFields(m, ps)[k] == StatsOf(LastProperty(ps, k).value)
    ensures LastProperty(ps, k).None? && k in m ==> PropertyFields(m, ps)[k] == m[k]
    decreases |ps|
  {
    if ps != [] {
      PropertyFieldsLookup(m, ps[..|ps| - 1], k);
    }
  }

  /** The properties of lines 602-615 that a device can take: a non-empty list for a missing device panics. */
  predicate Panics(devices: map<string, map<string, Field>>, props: map<string, seq<Property>>) {
    exists k :: k in props && props[k] != [] && k !in devices
  }

  /** The devices among `keys` with their properties written. */
  function WithPropertiesAmong(devices: map<string, map<string, Field>>, props: map<string, seq<Property>>, keys: set<string>)
    : map<string, map<string, Field>>
  {
    map id | id in devices :: if id in keys && id in props then PropertyFields(devices[id], props[id]) else devices[id]
  }

  /**
   * Lines 602-615: every device's properties written into it, or `None`
   * when some properties name a device the table has no row for (Go
   * writes into a nil map there and panics).
   */
  function WithProperties(devices: map<string, map<string, Field>>, props: map<string, seq<Property>>)
    : (r: Option<map<string, map<string, Field>>>)
    ensures r.None? <==> Panics(devices, props)
    ensures r.Some? ==> r.value.Keys == devices.Keys
  {
    if Panics(devices, props) then None else Some(WithPropertiesAmong(devices, props, props.Keys))
  }

  /** The JSON item of lines 584-621, or `None` when it panics. */
  function ConvertedItem(i: ChartOptimizationItem): Option<JsonItem> {
    var devices := DeviceMaps(i.devicesChartRows);
    match WithProperties(devices, i.devicesProperties)
    case None => None
    case Some(ds) => Some(JsonItem(Visible(i.overviewChartRow.values) - {"devices"}, ds))
  }

  /** `convertOptimizeJson` (lines 582-626): each item converted, or `None` when one of them panics. */
  function ConvertedItems(items: seq<ChartOptimizationItem>): (r: Option<seq<JsonItem>>)
    ensures r.None? <==> exists k :: 0 <= k < |items| && ConvertedItem(items[k]).None?
    ensures r.Some? ==> |r.value| == |items| && forall k :: 0 <= k < |items| ==> Some(r.value[k]) == ConvertedItem(items[k])
    decreases |items|
  {
    if items == [] then Some([])
    else
      match (ConvertedItems(items[..|items| - 1]), ConvertedItem(items[|items| - 1]))
      case (Some(js), Some(j)) => Some(js + [j])
      case _ => None
  }

  /**
   * A converted item: its fields are the overview's exported values
   * except the key "devices", which the device list takes; its devices are
   * exactly its rows' ids; and it exists iff every non-empty property list
   * names one of those rows.
   */
  lemma ConvertedItemShape(i: ChartOptimizationItem)
    ensures var ids := set r | r in i.devicesChartRows :: r.rowId;
            ConvertedItem(i).Some? <==> forall k :: k in i.devicesProperties && i.devicesProperties[k] != [] ==> k in ids
    ensures ConvertedItem(i).Some? ==>
              ConvertedItem(i).value.devices.Keys == (set r | r in i.devicesChartRows :: r.rowId) &&
              forall k :: k in ConvertedItem(i).value.fields <==>
                k in i.overviewChartRow.values && !HasPrefix(k, InternalPrefix) && k != "devices"
  {
    DeviceMapsKeys(i.devicesChartRows);
  }

  /** A device's property field is its last property with that snake-cased key. */
  lemma ConvertedProperty(i: ChartOptimizationItem, id: string, k: string)
    requires ConvertedItem(i).Some? && id in i.devicesProperties && LastProperty(i.devicesProperties[id], k).Some?
    ensures id in ConvertedItem(i).value.devices
    ensures k in ConvertedItem(i).value.devices[id]
    ensures ConvertedItem(i).value.devices[id][k] == StatsOf(LastProperty(i.devicesProperties[id], k).value)
  {
    var devices := DeviceMaps(i.devicesChartRows);
    assert i.devicesProperties[id] != [];
    assert id in devices;
    PropertyFieldsLookup(devices[id], i.devicesProperties[id], k);
  }

  /** Lines 602-614 for one device: its properties written in order. */
  method PutProperties(m0: map<string, Field>, ps: seq<Property>) returns (m: map<string, Field>)
    ensures m == PropertyFields(m0, ps)
  {
    m := m0;
    for n := 0 to |ps|
      invariant m == PropertyFields(m0, ps[..n])
    {
      assert ps[..n + 1][..n] == ps[..n];
      m := m[ToSnakeCase(ps[n].key) := StatsOf(ps[n])];
    }
    assert ps[..|ps|] == ps;
  }

  /** One more device's properties written. */
  lemma WithPropertiesStep(devices: map<string, map<string, Field>>, props: map<string, seq<Property>>, done: set<string>, k: string)
    requires k in props && k in devices
    ensures WithPropertiesAmong(devices, props, done + {k}) ==
            WithPropertiesAmong(devices, props, done)[k := PropertyFields(devices[k], props[k])]
  {
  }

  /** A key without properties, or with an empty list, changes nothing. */
  lemma WithPropertiesSkip(devices: map<string, map<string, Field>>, props: map<string, seq<Property>>, done: set<string>, k: string)
    requires k in props && props[k] == [] && k in devices
    ensures WithPropertiesAmong(devices, props, done + {k}) == WithPropertiesAmong(devices, props, done)
  {
    var l := WithPropertiesAmong(devices, props, done + {k});
    var r := WithPropertiesAmong(devices, props, done);
    assert PropertyFields(devices[k], props[k]) == devices[k];
    forall id | id in devices ensures l[id] == r[id] {
    }
  }

  /** No keys, no change. */
  lemma WithPropertiesNothing(devices: map<string, map<string, Field>>, props: map<string, seq<Property>>)
    ensures WithPropertiesAmong(devices, props, {}) == devices
  {
  }

  /** The loop of lines 602-615, in Go's map order: `None` where Go panics. */
  method PutAllProperties(devices: map<string, map<string, Field>>, props: map<string, seq<Property>>)
    returns (r: Option<map<string, map<string, Field>>>)
    ensures r == WithProperties(devices, props)
  {
    var ds := devices;
    var todo := props.Keys;
    ghost var done: set<string> := {};
    WithPropertiesNothing(devices, props);
    while todo != {}
      invariant todo <= props.Keys && done == props.Keys - todo
      invariant forall k :: k in done && props[k] != [] ==> k in devices
      invariant ds == WithPropertiesAmong(devices, props, done)
      decreases todo
    {
      var k :| k in todo;
      if props[k] != [] && k !in ds {
        assert !(k in devices);
        return None;
      }
      if k in ds {
        assert k in devices;
        var m := PutProperties(ds[k], props[k]);
        WithPropertiesStep(devices, props, done, k);
        ds := ds[k := m];
      } else {
        WithPropertiesSkipMissing(devices, props, done, k);
      }
      todo := todo - {k};
      done := done + {k};
    }
    assert done == props.Keys;
    return Some(ds);
  }

  /** A key with no device changes nothing. */
  lemma WithPropertiesSkipMissing(devices: map<string, map<string, Field>>, props: map<string, seq<Property>>, done: set<string>, k: string)
    requires k !in devices
    ensures WithPropertiesAmong(devices, props, done + {k}) == WithPropertiesAmong(devices, props, done)
  {
  }

  /** The loops of lines 586-591 and 595-600: a row's exported values, in Go's map order. */
  method VisibleValues(values: map<string, ChartRowItem>) returns (m: map<string, string>)
    ensures m == Visible(values)
  {
    m := map[];
    var todo := values.Keys;
    ghost var done: set<string> := {};
    assert VisibleAmong(values, {}) == map[];
    while todo != {}
      invariant todo <= values.Keys && done == values.Keys - todo
      invariant m == VisibleAmong(values, done)
      decreases todo
    {
      var key :| key in todo;
      VisibleAmongStep(values, done, key);
      todo := todo - {key};
      done := done + {key};
      if !HasPrefix(key, InternalPrefix) {
        m := m[key := RemoveAnsi(values[key].value)];
      }
    }
    assert done == values.Keys;
  }

  /** Lines 592-601: a device per row. */
  method PutDevices(rows: seq<ChartRow>) returns (devices: map<string, map<string, Field>>)
    ensures devices == DeviceMaps(rows)
  {
    devices := map[];
    for n := 0 to |rows|
      invariant devices == DeviceMaps(rows[..n])
    {
      assert rows[..n + 1][..n] == rows[..n];
      var device := VisibleValues(rows[n].values);
      devices := devices[rows[n].rowId := TextFields(device)];
    }
    assert rows[..|rows|] == rows;
  }

  /** Lines 584-621 for one item. */
  method ConvertItem(i: ChartOptimizationItem) returns (r: Option<JsonItem>)
    ensures r == ConvertedItem(i)
  {
    var fields := VisibleValues(i.overviewChartRow.values);
    var devices := PutDevices(i.devicesChartRows);
    var withProperties := PutAllProperties(devices, i.devicesProperties);
    if withProperties.None? {
      return None;
    }
    r := Some(JsonItem(fields - {"devices"}, withProperties.value));
  }

  /** `convertOptimizeJson` (lines 582-626). */
  method ConvertOptimizeJson(items: seq<ChartOptimizationItem>) returns (r: Option<seq<JsonItem>>)
    ensures r == ConvertedItems(items)
  {
    var js: seq<JsonItem> := [];
    for n := 0 to |items|
      invariant ConvertedItems(items[..n]) == Some(js)
    {
      assert items[..n + 1][..n] == items[..n];
      var j := ConvertItem(items[n]);
      if j.None? {
        assert ConvertedItems(items[..n + 1]).None?;
        ConvertedItemsPrefix(items, n + 1);
        return None;
      }
      js := js + [j.value];
    }
    assert items[..|items|] == items;
    r := Some(js);
  }

  /** An item that panics makes the whole conversion panic. */
  lemma ConvertedItemsPrefix(items: seq<ChartOptimizationItem>, n: int)
    requires 0 <= n <= |items| && ConvertedItems(items[..n]).None?
    ensures ConvertedItems(items).None?
  {
    var k :| 0 <= k < n && ConvertedItem(items[..n][k]).None?;
    assert items[..n][k] == items[k];
  }

  // ---------------------------------------------------------------- job watcher

  /**
   * The job-watching state of the view (lines 22-51): the running and
   * failed job maps, the status error, the two buffered channels as
   * queues, and what has been written to standard error.
   */
  class JobWatcher {
    var runningJobs: map<string, string>
    var failedJobs: map<string, string>
    var statusErr: string
    var jobQueue: seq<JobResult>
    var errorQueue: seq<string>
    var stderr: string

    /** `NewNonInteractiveView` (lines 41-51): empty maps and channels. */
    constructor ()
      ensures runningJobs == map[] && failedJobs == map[] && statusErr == ""
      ensures jobQueue == [] && errorQueue == [] && stderr == ""
    {
      runningJobs := map[];
      failedJobs := map[];
      statusErr := "";
      jobQueue := [];
      errorQueue := [];
      stderr := "";
    }

    /** `PublishJobs` (lines 288-290): the report joins the job channel. */
    method PublishJobs(job: JobResult)
      modifies this
      ensures jobQueue == old(jobQueue) + [job]
      ensures runningJobs == old(runningJobs) && failedJobs == old(failedJobs) && statusErr == old(statusErr)
      ensures errorQueue == old(errorQueue) && stderr == old(stderr)
    {
      jobQueue := jobQueue + [job];
    }

    /** `PublishError` (lines 292-294): the error joins the error channel. */
    method PublishError(err: string)
      modifies this
      ensures errorQueue == old(errorQueue) + [err]
      ensures runningJobs == old(runningJobs) && failedJobs == old(failedJobs) && statusErr == old(statusErr)
      ensures jobQueue == old(jobQueue) && stderr == old(stderr)
    {
      errorQueue := errorQueue + [err];
    }

    /**
     * The job branch of `WaitForJobs` (lines 466-482): the maps take the
     * report as the jobs controller does, a finished job is announced on
     * standard error, and a failure that matches the limit pattern queues
     * the contact message.
     */
    method ReceiveJob(matchesLimit: string -> bool, contactUs: string)
      requires jobQueue != []
      modifies this
      ensures var job := old(jobQueue[0]);
              (runningJobs, failedJobs) == JobsController.JobStep(old(runningJobs), old(failedJobs), job) &&
              stderr == old(stderr) + (if job.done then job.description + " Done.\n" else "") &&
              errorQueue == old(errorQueue) +
                (if job.failureMessage != "" && matchesLimit(JobsController.FailureLine(job)) then [contactUs] else [])
      ensures jobQueue == old(jobQueue[1..]) && statusErr == old(statusErr)
    {
      var job := jobQueue[0];
      jobQueue := jobQueue[1..];
      if !job.done {
        runningJobs := runningJobs[job.id := job.description];
      } else {
        stderr := stderr + job.description + " Done.\n";
        if job.id in runningJobs {
          runningJobs := runningJobs - {job.id};
        }
      }
      if |job.failureMessage| > 0 {
        var line := job.description + " failed due to " + job.failureMessage;
        if matchesLimit(line) {
          errorQueue := errorQueue + [contactUs];
        }
        failedJobs := failedJobs[job.id := line];
      }
    }

    /**
     * The error branch of `WaitForJobs` (lines 484-486): the error is
     * written to standard error and replaces the status error.
     */
    method ReceiveError()
      requires errorQueue != []
      modifies this
      ensures stderr == old(stderr) + old(errorQueue[0]) + "\n"
      ensures statusErr == "Failed due to " + old(errorQueue[0])
      ensures errorQueue == old(errorQueue[1..])
      ensures runningJobs == old(runningJobs) && failedJobs == old(failedJobs) && jobQueue == old(jobQueue)
    {
      var err := errorQueue[0];
      errorQueue := errorQueue[1..];
      stderr := stderr + err + "\n";
      statusErr := "Failed due to " + err;
    }
  }
}
