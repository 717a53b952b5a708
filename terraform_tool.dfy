/**
 * The standalone right-sizing tool of terraform/terraform.go: it takes the
 * RDS plugin's optimization items, maps every item to the size its last
 * "Instance Size" property recommends, and rewrites the `module` blocks of
 * every `main.tf` under a folder. It shares the block walk and
 * `resolveValue` (lines 197-227, the same text as in cmd/terraform.go)
 * with the `terraform` command, but matches identifier prefixes the other
 * way round and neither counts nor sums what it changes.
 */
module TerraformTool {
  import opened Wrappers
  import opened Text
  import opened Proto
  import opened TerraformCommand

  // ---------------------------------------------------------------- recommendations

  /** One property read (lines 108-112): an "Instance Size" property's recommendation replaces the size so far. */
  function SizeStep(size: string, p: Property): string {
    if p.key == "Instance Size" then p.recommended else size
  }

  /** The size after reading some properties, starting from `size`. */
  function SizeOf(size: string, ps: seq<Property>): string
    decreases |ps|
  {
    if ps == [] then size else SizeStep(SizeOf(size, ps[..|ps| - 1]), ps[|ps| - 1])
  }

  /** Reading more properties continues from where the first ones left off. */
  lemma {:induction false} SizeOfAppend(size: string, a: seq<Property>, b: seq<Property>)
    ensures SizeOf(size, a + b) == SizeOf(SizeOf(size, a), b)
    decreases |b|
  {
    if b == [] {
      assert a + b == a;
    } else {
      assert (a + b)[..|a + b| - 1] == a + b[..|b| - 1];
      SizeOfAppend(size, a, b[..|b| - 1]);
    }
  }

  /** Without an "Instance Size" property the size stays as it was. */
  lemma {:induction false} SizeOfNone(size: string, ps: seq<Property>)
    requires forall j :: 0 <= j < |ps| ==> ps[j].key != "Instance Size"
    ensures SizeOf(size, ps) == size
    decreases |ps|
  {
    if ps != [] {
      var n := |ps| - 1;
      assert forall j :: 0 <= j < n ==> ps[..n][j] == ps[j];
      SizeOfNone(size, ps[..n]);
    }
  }

  /**
   * The size read from `ps` is the recommendation of the last "Instance
   * Size" property, whether or not it differs from the current size.
   */
  lemma {:induction false} SizeOfLast(size: string, ps: seq<Property>, j: int)
    requires 0 <= j < |ps| && ps[j].key == "Instance Size"
    requires forall l :: j < l < |ps| ==> ps[l].key != "Instance Size"
    ensures SizeOf(size, ps) == ps[j].recommended
    decreases |ps|
  {
    var n := |ps| - 1;
    if j < n {
      assert forall l :: 0 <= l < n ==> ps[..n][l] == ps[l];
      SizeOfLast(size, ps[..n], j);
    }
  }

  /** The recommended size of an item (lines 105-113), "" when no property names one. */
  function ItemSize(item: OptimizationItem): string {
    SizeOf("", Properties(item.devices))
  }

  /** The recommendation map of lines 103-115: every item's size, a later item with the same id replacing an earlier one. */
  function Recommendations(items: seq<OptimizationItem>): map<string, string>
    decreases |items|
  {
    if items == [] then map[]
    else Recommendations(items[..|items| - 1])[items[|items| - 1].id := ItemSize(items[|items| - 1])]
  }

  /** Every item's id is recommended, and nothing else. */
  lemma {:induction false} RecommendationsKeys(items: seq<OptimizationItem>, id: string)
    ensures id in Recommendations(items) <==> exists j :: 0 <= j < |items| && items[j].id == id
    decreases |items|
  {
    if items != [] {
      var n := |items| - 1;
      RecommendationsKeys(items[..n], id);
      assert forall j :: 0 <= j < n ==> items[..n][j] == items[j];
    }
  }

  /** An id is recommended the size of the last item carrying it (possibly ""). */
  lemma {:induction false} RecommendationsLast(items: seq<OptimizationItem>, j: int)
    requires 0 <= j < |items| && forall l :: j < l < |items| ==> items[l].id != items[j].id
    ensures items[j].id in Recommendations(items) && Recommendations(items)[items[j].id] == ItemSize(items[j])
    decreases |items|
  {
    var n := |items| - 1;
    if j < n {
      assert forall l :: 0 <= l < n ==> items[..n][l] == items[l];
      RecommendationsLast(items[..n], j);
    }
  }

  /** Lines 108-112 for one device's properties, continuing from `size0`. */
  method ReadSize(size0: string, ps: seq<Property>) returns (size: string)
    ensures size == SizeOf(size0, ps)
  {
    size := size0;
    for m := 0 to |ps|
      invariant size == SizeOf(size0, ps[..m])
    {
      assert ps[..m + 1][..m] == ps[..m];
      if ps[m].key == "Instance Size" {
        size := ps[m].recommended;
      }
    }
    assert ps[..|ps|] == ps;
  }

  /** Lines 105-113 for one item. */
  method ReadItemSize(item: OptimizationItem) returns (size: string)
    ensures size == ItemSize(item)
  {
    size := "";
    var ds := item.devices;
    for n := 0 to |ds|
      invariant size == SizeOf("", Properties(ds[..n]))
    {
      assert ds[..n + 1][..n] == ds[..n];
      SizeOfAppend("", Properties(ds[..n]), ds[n].properties);
      size := ReadSize(size, ds[n].properties);
    }
    assert ds[..|ds|] == ds;
  }

  /** Lines 103-115. */
  method ReadRecommendations(items: seq<OptimizationItem>) returns (rec: map<string, string>)
    ensures rec == Recommendations(items)
  {
    rec := map[];
    for n := 0 to |items|
      invariant rec == Recommendations(items[..n])
    {
      assert items[..n + 1][..n] == items[..n];
      var size := ReadItemSize(items[n]);
      rec := rec[items[n].id := size];
    }
    assert items[..|items|] == items;
  }

  // ---------------------------------------------------------------- the folder walk

  /** An entry of the folder walk: its path, its name, whether it is a directory, and a file's blocks. */
  datatype Entry = Entry(path: string, name: string, isDir: bool, blocks: seq<Block>)

  /** The filter of lines 119-128. */
  predicate Processed(e: Entry) {
    !e.isDir && HasSuffix(e.name, ".tf") && !Contains(e.path, ".terraform") && e.name == "main.tf"
  }

  /** Only files named main.tf outside `.terraform` paths are processed; the `.tf` test adds nothing. */
  lemma ProcessedMeaning(e: Entry)
    ensures Processed(e) <==> !e.isDir && e.name == "main.tf" && !Contains(e.path, ".terraform")
  {
    if e.name == "main.tf" {
      assert e.name[|e.name| - 3..] == ".tf";
    }
  }

  /** A rewritten file (line 185). */
  datatype Output = Output(path: string, blocks: seq<Block>)

  /** `orders[i]` gives one listing of the recommendation keys per block of entry `i`. */
  ghost predicate WalkOrders(entries: seq<Entry>, orders: seq<seq<seq<string>>>, keys: set<string>) {
    |orders| == |entries| &&
    forall i :: 0 <= i < |entries| ==> |orders[i]| == |entries[i].blocks| && AreListings(orders[i], keys)
  }

  /** A prefix of the entries with the matching prefix of the orders. */
  lemma WalkOrdersPrefix(entries: seq<Entry>, orders: seq<seq<seq<string>>>, keys: set<string>, n: int)
    requires WalkOrders(entries, orders, keys) && 0 <= n <= |entries|
    ensures WalkOrders(entries[..n], orders[..n], keys)
  {
    assert forall i :: 0 <= i < n ==> orders[..n][i] == orders[i] && entries[..n][i] == entries[i];
  }

  /**
   * Lines 118-187: each processed file has its blocks rewritten, the
   * identifier prefix read as "identifier starts with the key", with its
   * own locals. `None` when some file's locals never resolve.
   */
  function Walk(entries: seq<Entry>, rec: map<string, string>, orders: seq<seq<seq<string>>>, fuel: nat): Option<seq<Output>>
    requires WalkOrders(entries, orders, rec.Keys)
    decreases |entries|
  {
    if entries == [] then Some([])
    else
      var n := |entries| - 1;
      var e := entries[n];
      match Walk(entries[..n], rec, orders[..n], fuel)
      case None => None
      case Some(outs) =>
        if !Processed(e) then Some(outs)
        else match RewriteOf(e.blocks, rec, map[], orders[n], fuel, false)
          case None => None
          case Some(r) => Some(outs + [Output(e.path, r.blocks)])
  }

  /** The processed entries, in order. */
  function ProcessedEntries(entries: seq<Entry>): seq<Entry>
    decreases |entries|
  {
    if entries == [] then []
    else
      var n := |entries| - 1;
      ProcessedEntries(entries[..n]) + if Processed(entries[n]) then [entries[n]] else []
  }

  /**
   * The walk writes exactly the processed files, in order, each with the
   * same blocks and at most the instance class of `db_name` modules
   * changed.
   */
  lemma {:induction false} WalkShape(entries: seq<Entry>, rec: map<string, string>, orders: seq<seq<seq<string>>>, fuel: nat)
    requires WalkOrders(entries, orders, rec.Keys)
    ensures var w := Walk(entries, rec, orders, fuel);
            var ps := ProcessedEntries(entries);
            w.Some? ==> |w.value| == |ps| &&
                        forall j :: 0 <= j < |ps| ==> w.value[j].path == ps[j].path && AllSameBut(w.value[j].blocks, ps[j].blocks)
    decreases |entries|
  {
    if entries != [] {
      var n := |entries| - 1;
      WalkOrdersPrefix(entries, orders, rec.Keys, n);
      WalkShape(entries[..n], rec, orders[..n], fuel);
      var e := entries[n];
      if Processed(e) {
        RewriteShape(e.blocks, rec, map[], orders[n], fuel, false);
      }
    }
  }

  /**
   * Where the flag asks for a prefix match, the tool and the command read
   * it in opposite directions: for identifier "db" and a database "db-1"
   * the command right-sizes the module and the tool does not; for
   * identifier "db-1" and a database "db" it is the other way round.
   */
  lemma PrefixDirections()
    ensures var b := Block("module", map["db_name" := "\"app\"", "instance_use_identifier_prefix" := "true"]);
            Matches(b, "db", map["db-1" := "db.t3.small"], ["db-1"], true) == ["db-1"] &&
            Matches(b, "db", map["db-1" := "db.t3.small"], ["db-1"], false) == [] &&
            Matches(b, "db-1", map["db" := "db.t3.small"], ["db"], true) == [] &&
            Matches(b, "db-1", map["db" := "db.t3.small"], ["db"], false) == ["db"]
  {
    var b := Block("module", map["db_name" := "\"app\"", "instance_use_identifier_prefix" := "true"]);
    assert "db_name" in b.attributes;
    assert AttributeText(b, "instance_use_identifier_prefix") == Some("true") by {
      assert TrimSpace("true") == "true" by { TrimSpaceTrims("true"); }
    }
    assert HasPrefix("db-1", "db") && !HasPrefix("db", "db-1");
    FilterSingle("db-1", PrefixMatch(true, "db"));
    FilterSingle("db-1", PrefixMatch(false, "db"));
    FilterSingle("db", PrefixMatch(true, "db-1"));
    FilterSingle("db", PrefixMatch(false, "db-1"));
  }

  lemma FilterSingle(k: string, matches: string -> bool)
    ensures Filter([k], matches) == if matches(k) then [k] else []
  {
    assert [k][..0] == [];
  }

  /** Lines 118-187 for one entry. */
  method WalkEntry(e: Entry, rec: map<string, string>, orders: seq<seq<string>>, fuel: nat) returns (out: Option<Option<Output>>)
    requires |orders| == |e.blocks| && AreListings(orders, rec.Keys)
    ensures !Processed(e) ==> out == Some(None)
    ensures Processed(e) ==> match RewriteOf(e.blocks, rec, map[], orders, fuel, false)
                             case None => out.None?
                             case Some(r) => out == Some(Some(Output(e.path, r.blocks)))
  {
    if e.isDir || !HasSuffix(e.name, ".tf") {
      return Some(None);
    }
    if Contains(e.path, ".terraform") {
      return Some(None);
    }
    if e.name != "main.tf" {
      return Some(None);
    }
    var r := RewriteBlocks(e.blocks, rec, map[], orders, fuel, false);
    if r.None? {
      return None;
    }
    out := Some(Some(Output(e.path, r.value.blocks)));
  }

  /** Lines 103-187: the recommendations, then the walk. */
  method RunTool(items: seq<OptimizationItem>, entries: seq<Entry>, orders: seq<seq<seq<string>>>, fuel: nat)
    returns (outs: Option<seq<Output>>)
    requires WalkOrders(entries, orders, Recommendations(items).Keys)
    ensures outs == Walk(entries, Recommendations(items), orders, fuel)
  {
    var rec := ReadRecommendations(items);
    var written: seq<Output> := [];
    for n := 0 to |entries|
      invariant WalkOrders(entries[..n], orders[..n], rec.Keys)
      invariant Walk(entries[..n], rec, orders[..n], fuel) == Some(written)
    {
      assert entries[..n + 1][..n] == entries[..n] && orders[..n + 1][..n] == orders[..n];
      WalkOrdersPrefix(entries, orders, rec.Keys, n + 1);
      var out := WalkEntry(entries[n], rec, orders[n], fuel);
      if out.None? {
        assert entries[..|entries|] == entries && orders[..|orders|] == orders;
        WalkNoneStays(entries, rec, orders, fuel, n + 1);
        return None;
      }
      if out.value.Some? {
        written := written + [out.value.value];
      }
    }
    assert entries[..|entries|] == entries && orders[..|orders|] == orders;
    outs := Some(written);
  }

  /** Once a file's locals never resolve, the walk fails. */
  lemma {:induction false} WalkNoneStays(entries: seq<Entry>, rec: map<string, string>, orders: seq<seq<seq<string>>>, fuel: nat, n: int)
    requires WalkOrders(entries, orders, rec.Keys) && 0 <= n <= |entries|
    requires WalkOrders(entries[..n], orders[..n], rec.Keys) && Walk(entries[..n], rec, orders[..n], fuel).None?
    ensures Walk(entries, rec, orders, fuel).None?
    decreases |entries| - n
  {
    if n < |entries| {
      assert entries[..n + 1][..n] == entries[..n] && orders[..n + 1][..n] == orders[..n];
      WalkOrdersPrefix(entries, orders, rec.Keys, n + 1);
      WalkNoneStays(entries, rec, orders, fuel, n + 1);
    } else {
      assert entries[..n] == entries && orders[..n] == orders;
    }
  }
}
