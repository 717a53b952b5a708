/**
 * Go's map iteration as the core uses it: `for _, v := range m { res =
 * append(res, v) }` lists every value once per key, in an order Go leaves
 * unspecified. The model picks keys nondeterministically and states the
 * result independently of the order.
 */
module GoMap {
  /** The keys among `ks` that `m` maps to `v`. */
  ghost function KeysTo<K>(m: map<K, string>, ks: set<K>, v: string): set<K> {
    set k | k in ks && k in m && m[k] == v
  }

  /** `res` holds each value of `m` exactly as many times as keys map to it. */
  ghost predicate ListsValues<K>(res: seq<string>, m: map<K, string>) {
    forall v :: multiset(res)[v] == |KeysTo(m, m.Keys, v)|
  }

  /** Two listings of the same map hold the same strings. */
  lemma ListingsAgree<K>(a: seq<string>, b: seq<string>, m: map<K, string>)
    requires ListsValues(a, m) && ListsValues(b, m)
    ensures multiset(a) == multiset(b)
  {
    assert forall v :: multiset(a)[v] == multiset(b)[v];
  }

  /** One more key listed: its value is counted once more. */
  lemma ListingStep<K>(m: map<K, string>, done: set<K>, res: seq<string>, k: K)
    requires k in m && k !in done
    requires forall v :: multiset(res)[v] == |KeysTo(m, done, v)|
    ensures forall v :: multiset(res + [m[k]])[v] == |KeysTo(m, done + {k}, v)|
  {
    forall v ensures multiset(res + [m[k]])[v] == |KeysTo(m, done + {k}, v)| {
      var before := KeysTo(m, done, v);
      if m[k] == v {
        assert KeysTo(m, done + {k}, v) == before + {k} && k !in before;
      } else {
        assert KeysTo(m, done + {k}, v) == before;
      }
    }
  }

  /** The loop `for _, v := range m { res = append(res, v) }`. */
  method Values<K>(m: map<K, string>) returns (res: seq<string>)
    ensures ListsValues(res, m)
    ensures |res| == |m|
  {
    res := [];
    var keys := m.Keys;
    ghost var done: set<K> := {};
    while keys != {}
      invariant keys + done == m.Keys && keys !! done
      invariant forall v :: multiset(res)[v] == |KeysTo(m, done, v)|
      invariant |res| == |done|
      decreases |keys|
    {
      var k :| k in keys;
      ListingStep(m, done, res, k);
      res := res + [m[k]];
      keys := keys - {k};
      done := done + {k};
    }
    assert done == m.Keys;
  }

  /** `m[k]` in Go: the zero value of the map's value type for a missing key. */
  function Get<K, V>(m: map<K, V>, k: K, zero: V): (v: V)
    ensures k in m ==> v == m[k]
    ensures k !in m ==> v == zero
  {
    if k in m then m[k] else zero
  }

  /**
   * The loop `for i := range keys { m[keys[i]] = vals[i] }`: each key is
   * assigned in order, a later assignment replacing an earlier one.
   */
  function AssignEach<K, V>(m: map<K, V>, keys: seq<K>, vals: seq<V>): map<K, V>
    requires |keys| == |vals|
  {
    if keys == [] then m
    else AssignEach(m, keys[..|keys| - 1], vals[..|vals| - 1])[keys[|keys| - 1] := vals[|vals| - 1]]
  }

  /** One more step of the loop. */
  lemma AssignEachStep<K, V>(m: map<K, V>, keys: seq<K>, vals: seq<V>, n: int)
    requires |keys| == |vals| && 0 <= n < |keys|
    ensures AssignEach(m, keys[..n + 1], vals[..n + 1]) == AssignEach(m, keys[..n], vals[..n])[keys[n] := vals[n]]
  {
    assert keys[..n + 1][..n] == keys[..n] && vals[..n + 1][..n] == vals[..n];
  }

  /** The loop itself. */
  method AssignAll<K, V>(m: map<K, V>, keys: seq<K>, vals: seq<V>) returns (res: map<K, V>)
    requires |keys| == |vals|
    ensures res == AssignEach(m, keys, vals)
  {
    res := m;
    for n := 0 to |keys|
      invariant res == AssignEach(m, keys[..n], vals[..n])
    {
      AssignEachStep(m, keys, vals, n);
      res := res[keys[n] := vals[n]];
    }
    assert keys[..|keys|] == keys && vals[..|vals|] == vals;
  }

  /** The keys afterwards are the map's and the assigned ones. */
  lemma {:induction false} AssignEachKeys<K, V>(m: map<K, V>, keys: seq<K>, vals: seq<V>, k: K)
    requires |keys| == |vals|
    ensures k in AssignEach(m, keys, vals) <==> k in m || k in keys
  {
    if keys != [] {
      var init := keys[..|keys| - 1];
      AssignEachKeys(m, init, vals[..|vals| - 1], k);
      assert keys == init + [keys[|keys| - 1]];
    }
  }

  /** A key holds the value of its last assignment. */
  lemma {:induction false} AssignEachLast<K, V>(m: map<K, V>, keys: seq<K>, vals: seq<V>, j: int)
    requires |keys| == |vals| && 0 <= j < |keys|
    requires forall i :: j < i < |keys| ==> keys[i] != keys[j]
    ensures keys[j] in AssignEach(m, keys, vals) && AssignEach(m, keys, vals)[keys[j]] == vals[j]
  {
    if j < |keys| - 1 {
      AssignEachLast(m, keys[..|keys| - 1], vals[..|vals| - 1], j);
    }
  }

  /** A key never assigned keeps its value. */
  lemma {:induction false} AssignEachUntouched<K, V>(m: map<K, V>, keys: seq<K>, vals: seq<V>, k: K)
    requires |keys| == |vals| && k in m && k !in keys
    ensures k in AssignEach(m, keys, vals) && AssignEach(m, keys, vals)[k] == m[k]
  {
    if keys != [] {
      var init := keys[..|keys| - 1];
      assert keys == init + [keys[|keys| - 1]];
      AssignEachUntouched(m, init, vals[..|vals| - 1], k);
    }
  }

  /** The sum of `f` over the values of `m`, which does not depend on the order of the keys. */
  ghost function SumOf<K, V>(m: map<K, V>, f: V -> int): int
    decreases |m|
  {
    if |m| == 0 then 0
    else
      var k := Pick(m);
      f(m[k]) + SumOf(m - {k}, f)
  }

  /** Some key of a non-empty map. */
  ghost function Pick<K, V>(m: map<K, V>): (k: K)
    requires |m| != 0
    ensures k in m
  {
    assert m.Keys != {} by {
      assert |m.Keys| == |m|;
    }
    var k :| k in m; k
  }

  /** Any key may be taken first. */
  lemma {:induction false} SumOfRemove<K, V>(m: map<K, V>, f: V -> int, k: K)
    requires k in m
    ensures SumOf(m, f) == f(m[k]) + SumOf(m - {k}, f)
    decreases |m|
  {
    var j := Pick(m);
    if j != k {
      assert (m - {j}) - {k} == (m - {k}) - {j};
      SumOfRemove(m - {j}, f, k);
      SumOfRemove(m - {k}, f, j);
    }
  }

  /** The loop `for _, v := range m { s += f(v) }`, in whatever order Go visits the keys. */
  method Sum<K, V>(m: map<K, V>, f: V -> int) returns (s: int)
    ensures s == SumOf(m, f)
  {
    s := 0;
    var rest := m;
    while rest != map[]
      invariant s + SumOf(rest, f) == SumOf(m, f)
      decreases |rest|
    {
      var k :| k in rest;
      SumOfRemove(rest, f, k);
      s := s + f(rest[k]);
      rest := rest - {k};
    }
  }

  /** A sum of non-negative terms is non-negative. */
  lemma {:induction false} SumOfNonNegative<K, V>(m: map<K, V>, f: V -> int)
    requires forall k :: k in m ==> f(m[k]) >= 0
    ensures SumOf(m, f) >= 0
    decreases |m|
  {
    if |m| != 0 {
      SumOfNonNegative(m - {Pick(m)}, f);
    }
  }
}
