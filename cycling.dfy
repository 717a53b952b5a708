/**
 * Cyclic focus movement over a list of lines some of which are hidden,
 * shared by the two preference editors: from a position, step forward (or
 * backward) with wrap-around until a visible line is reached.
 */
module Cycling {
  predicate SomeVisible(hidden: seq<bool>) {
    exists v | 0 <= v < |hidden| :: !hidden[v]
  }

  /** `a % l` for `a` between 0 and `l`: only `l` itself wraps, to 0. */
  lemma ModBelow(a: int, l: int)
    requires 0 <= a <= l && l > 0
    ensures a % l == if a < l then a else 0
  {
    if a == l {
      assert a % l == (1 * l) % l;
    }
  }

  /** The line `e` steps after `from` (for `e` up to the length), wrapping past the end. */
  function After(from: int, e: int, n: int): (r: int)
    requires 0 <= from < n && 0 <= e <= n
    ensures 0 <= r < n
  {
    if from + e < n then from + e else from + e - n
  }

  /** The line `e` steps before `from` (for `e` up to the length), wrapping past the start. */
  function Before(from: int, e: int, n: int): (r: int)
    requires 0 <= from < n && 0 <= e <= n
    ensures 0 <= r < n
  {
    if from - e >= 0 then from - e else from - e + n
  }

  /** From any position, some number of forward steps in 1..n reaches a visible line. */
  lemma VisibleAhead(hidden: seq<bool>, from: int)
    requires 0 <= from < |hidden| && SomeVisible(hidden)
    ensures exists e | 1 <= e <= |hidden| :: !hidden[After(from, e, |hidden|)]
  {
    var v :| 0 <= v < |hidden| && !hidden[v];
    var e := if v > from then v - from else v - from + |hidden|;
    assert After(from, e, |hidden|) == v;
  }

  /** From any position, some number of backward steps in 1..n reaches a visible line. */
  lemma VisibleBehind(hidden: seq<bool>, from: int)
    requires 0 <= from < |hidden| && SomeVisible(hidden)
    ensures exists e | 1 <= e <= |hidden| :: !hidden[Before(from, e, |hidden|)]
  {
    var v :| 0 <= v < |hidden| && !hidden[v];
    var e := if v < from then from - v else from - v + |hidden|;
    assert Before(from, e, |hidden|) == v;
  }

  /** The number of forward steps from `from` to the first visible line, counting from `d`. */
  function Ahead(hidden: seq<bool>, from: int, d: int): (r: int)
    requires 0 <= from < |hidden| && 1 <= d
    requires exists e | d <= e <= |hidden| :: !hidden[After(from, e, |hidden|)]
    ensures d <= r <= |hidden| && !hidden[After(from, r, |hidden|)]
    ensures forall e :: d <= e < r ==> hidden[After(from, e, |hidden|)]
    decreases |hidden| - d
  {
    if !hidden[After(from, d, |hidden|)] then d
    else Ahead(hidden, from, d + 1)
  }

  /** The number of backward steps from `from` to the first visible line, counting from `d`. */
  function Behind(hidden: seq<bool>, from: int, d: int): (r: int)
    requires 0 <= from < |hidden| && 1 <= d
    requires exists e | d <= e <= |hidden| :: !hidden[Before(from, e, |hidden|)]
    ensures d <= r <= |hidden| && !hidden[Before(from, r, |hidden|)]
    ensures forall e :: d <= e < r ==> hidden[Before(from, e, |hidden|)]
    decreases |hidden| - d
  {
    if !hidden[Before(from, d, |hidden|)] then d
    else Behind(hidden, from, d + 1)
  }

  /** The line focus moves to going forward: visible, and every line skipped on the way is hidden. */
  function NextVisible(hidden: seq<bool>, from: int): (r: int)
    requires 0 <= from < |hidden| && SomeVisible(hidden)
    ensures 0 <= r < |hidden| && !hidden[r]
    ensures exists d | 1 <= d <= |hidden| :: r == After(from, d, |hidden|) &&
              forall e :: 1 <= e < d ==> hidden[After(from, e, |hidden|)]
  {
    VisibleAhead(hidden, from);
    After(from, Ahead(hidden, from, 1), |hidden|)
  }

  /** The line focus moves to going backward: visible, and every line skipped on the way is hidden. */
  function PrevVisible(hidden: seq<bool>, from: int): (r: int)
    requires 0 <= from < |hidden| && SomeVisible(hidden)
    ensures 0 <= r < |hidden| && !hidden[r]
    ensures exists d | 1 <= d <= |hidden| :: r == Before(from, d, |hidden|) &&
              forall e :: 1 <= e < d ==> hidden[Before(from, e, |hidden|)]
  {
    VisibleBehind(hidden, from);
    Before(from, Behind(hidden, from, 1), |hidden|)
  }

  /** With nothing hidden, focus moves to the neighbouring line, wrapping at both ends. */
  lemma NoneHiddenNeighbours(hidden: seq<bool>, from: int)
    requires 0 <= from < |hidden| && forall i :: 0 <= i < |hidden| ==> !hidden[i]
    ensures SomeVisible(hidden) && NextVisible(hidden, from) == if from + 1 == |hidden| then 0 else from + 1
    ensures SomeVisible(hidden) && PrevVisible(hidden, from) == if from == 0 then |hidden| - 1 else from - 1
  {
    assert !hidden[from];
    VisibleAhead(hidden, from);
    VisibleBehind(hidden, from);
    assert Ahead(hidden, from, 1) == 1;
    assert Behind(hidden, from, 1) == 1;
  }

  /** A visible line is never skipped: going forward from the line before it lands on it. */
  lemma NextVisibleLands(hidden: seq<bool>, v: int)
    requires 0 <= v < |hidden| && !hidden[v]
    ensures NextVisible(hidden, if v == 0 then |hidden| - 1 else v - 1) == v
  {
    var from := if v == 0 then |hidden| - 1 else v - 1;
    VisibleAhead(hidden, from);
    assert After(from, 1, |hidden|) == v;
  }
}
