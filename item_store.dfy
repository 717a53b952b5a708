/**
 * The upsert of the list views' tick handlers (view/view_optimizations.go,
 * cmd/optimize/view/view_optimizations.go and
 * cmd/optimize/view/ec2_instance_optimizations.go): an incoming item
 * replaces the first stored item with the same key, the loop's `break`
 * leaving the scan at once, and is appended when no stored item has that key.
 */
module ItemStore {

  /** The index of the first item with key `k`, or the length when there is none. */
  function FirstWith<T>(items: seq<T>, key: T -> string, k: string): (i: nat)
    ensures i <= |items|
    ensures i < |items| ==> key(items[i]) == k
    ensures forall j :: 0 <= j < i ==> key(items[j]) != k
  {
    if items == [] then 0
    else if key(items[0]) == k then 0
    else 1 + FirstWith(items[1..], key, k)
  }

  /** The store after an incoming item. */
  function UpsertFirst<T>(items: seq<T>, x: T, key: T -> string): seq<T> {
    var i := FirstWith(items, key, key(x));
    if i < |items| then items[i := x] else items + [x]
  }

  /** The store after a batch of incoming items, in arrival order. */
  function UpsertEach<T>(items: seq<T>, xs: seq<T>, key: T -> string): seq<T>
    decreases |xs|
  {
    if xs == [] then items else UpsertEach(UpsertFirst(items, xs[0], key), xs[1..], key)
  }

  /**
   * An item whose key is stored replaces the first such item and nothing
   * else; any other item is appended at the end.
   */
  lemma UpsertFirstShape<T>(items: seq<T>, x: T, key: T -> string)
    ensures var r := UpsertFirst(items, x, key);
            var i := FirstWith(items, key, key(x));
            (i < |items| ==> |r| == |items| && r[i] == x && forall j :: 0 <= j < |items| && j != i ==> r[j] == items[j]) &&
            (i == |items| ==> r == items + [x])
  {
  }

  /** After the upsert, the first item with the incoming key is the incoming item. */
  lemma UpsertFirstFinds<T>(items: seq<T>, x: T, key: T -> string)
    ensures var r := UpsertFirst(items, x, key);
            FirstWith(r, key, key(x)) < |r| && r[FirstWith(r, key, key(x))] == x
  {
    var r := UpsertFirst(items, x, key);
    var i := FirstWith(items, key, key(x));
    if i < |items| {
      FirstWithUnique(r, key, key(x), i);
    } else {
      FirstWithUnique(r, key, key(x), |items|);
    }
  }

  /** Any index that has key `k` and no earlier one with it is the first. */
  lemma FirstWithUnique<T>(items: seq<T>, key: T -> string, k: string, i: int)
    requires 0 <= i < |items| && key(items[i]) == k
    requires forall j :: 0 <= j < i ==> key(items[j]) != k
    ensures FirstWith(items, key, k) == i
  {
  }

  /** Sending an item twice leaves the store as sending it once. */
  lemma UpsertFirstIdempotent<T>(items: seq<T>, x: T, key: T -> string)
    ensures UpsertFirst(UpsertFirst(items, x, key), x, key) == UpsertFirst(items, x, key)
  {
    UpsertFirstFinds(items, x, key);
  }

  /** The step of a loop over `xs`: the rest of the upserts continue from the next one. */
  lemma UpsertEachNext<T>(items: seq<T>, xs: seq<T>, key: T -> string, n: int)
    requires 0 <= n < |xs|
    ensures UpsertEach(items, xs[n..], key) == UpsertEach(UpsertFirst(items, xs[n], key), xs[n + 1..], key)
  {
    assert xs[n..][1..] == xs[n + 1..];
  }

  /** The store grows by at most one item per incoming item. */
  lemma {:induction false} UpsertEachLength<T>(items: seq<T>, xs: seq<T>, key: T -> string)
    ensures |items| <= |UpsertEach(items, xs, key)| <= |items| + |xs|
    decreases |xs|
  {
    if xs != [] {
      UpsertEachLength(UpsertFirst(items, xs[0], key), xs[1..], key);
    }
  }

  /** No two items share a key. */
  predicate DistinctKeys<T>(items: seq<T>, key: T -> string) {
    forall i, j :: 0 <= i < j < |items| ==> key(items[i]) != key(items[j])
  }

  /**
   * Sending, in store order, one new version of every item of a store whose
   * keys are distinct replaces each item by its new version: the store ends
   * up holding exactly the new versions.
   */
  lemma UpsertEachPointwise<T>(items: seq<T>, ys: seq<T>, key: T -> string)
    requires |ys| == |items| && DistinctKeys(items, key)
    requires forall i :: 0 <= i < |items| ==> key(ys[i]) == key(items[i])
    ensures UpsertEach(items, ys, key) == ys
  {
    UpsertEachFrom(items, ys, key, 0);
    assert ys[..0] + items[0..] == items;
    assert ys[0..] == ys;
  }

  lemma {:induction false} UpsertEachFrom<T>(items: seq<T>, ys: seq<T>, key: T -> string, j: int)
    requires |ys| == |items| && DistinctKeys(items, key) && 0 <= j <= |items|
    requires forall i :: 0 <= i < |items| ==> key(ys[i]) == key(items[i])
    ensures UpsertEach(ys[..j] + items[j..], ys[j..], key) == ys
    decreases |items| - j
  {
    var s := ys[..j] + items[j..];
    if j == |items| {
      assert s == ys;
    } else {
      assert s[j] == items[j];
      forall i | 0 <= i < j ensures key(s[i]) != key(ys[j]) {
        assert s[i] == ys[i];
      }
      FirstWithUnique(s, key, key(ys[j]), j);
      assert UpsertFirst(s, ys[j], key) == ys[..j + 1] + items[j + 1..];
      assert ys[j..][1..] == ys[j + 1..];
      UpsertEachFrom(items, ys, key, j + 1);
    }
  }

  /** The scan for the first item with key `k` (the lookup loops of the key handlers). */
  method Find<T>(items: seq<T>, key: T -> string, k: string) returns (i: nat)
    ensures i == FirstWith(items, key, k)
  {
    i := 0;
    while i < |items| && key(items[i]) != k
      invariant i <= |items| && forall j :: 0 <= j < i ==> key(items[j]) != k
    {
      i := i + 1;
    }
    if i < |items| {
      FirstWithUnique(items, key, k, i);
    }
  }

  /** The tick handler's upsert: the scan, then the replacement or the append. */
  method Upsert<T>(items: seq<T>, x: T, key: T -> string) returns (r: seq<T>)
    ensures r == UpsertFirst(items, x, key)
  {
    var idx := Find(items, key, key(x));
    if idx < |items| {
      r := items[idx := x];
    } else {
      r := items + [x];
    }
  }
}
