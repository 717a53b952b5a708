/**
 * The responsive container of view/responsive/responsive_view.go.
 *
 * A view clamps its own size to its bounds and hands the spare width, then
 * the spare height, to its children one unit at a time, round-robin, skipping
 * the children that reached their maximum. Children are modelled as leaf
 * views (views without children of their own).
 */
module ResponsiveView {

  /** The value of a zero maximum: "unbounded". */
  const Unbounded: int := 9999

  /** A leaf view's size and bounds (the fields of the Go struct). */
  datatype Leaf = Leaf(height: int, minHeight: int, maxHeight: int,
                       width: int, minWidth: int, maxWidth: int)

  datatype Axis = Width | Height

  /** Go's `max(min(x, hi), lo)`. */
  function Clamp(x: int, lo: int, hi: int): (r: int)
    ensures r >= lo
    ensures lo <= hi ==> lo <= r <= hi
    ensures lo <= x <= hi ==> r == x
    ensures lo > hi ==> r == lo
  {
    var m := if x < hi then x else hi;
    if m > lo then m else lo
  }

  /** A zero maximum counts as 9999. */
  function NormMax(m: int): (r: int)
    ensures r != 0
    ensures m != 0 ==> r == m
  {
    if m == 0 then Unbounded else m
  }

  /** `SetSize` of a view without children: normalise the maxima, clamp both sides. */
  function LeafSetSize(c: Leaf, w: int, h: int): (r: Leaf)
    ensures r.minWidth == c.minWidth && r.minHeight == c.minHeight
    ensures r.maxWidth == NormMax(c.maxWidth) && r.maxHeight == NormMax(c.maxHeight)
    ensures r.width == Clamp(w, c.minWidth, r.maxWidth)
    ensures r.height == Clamp(h, c.minHeight, r.maxHeight)
  {
    var maxH := NormMax(c.maxHeight);
    var maxW := NormMax(c.maxWidth);
    Leaf(Clamp(h, c.minHeight, maxH), c.minHeight, maxH, Clamp(w, c.minWidth, maxW), c.minWidth, maxW)
  }

  /** The leaf case of `IsResponsive`. */
  predicate LeafResponsive(c: Leaf) {
    c.height >= c.minHeight && c.width >= c.minWidth
  }

  function SizeOf(c: Leaf, a: Axis): int {
    if a == Width then c.width else c.height
  }

  function MinOf(c: Leaf, a: Axis): int {
    if a == Width then c.minWidth else c.minHeight
  }

  function MaxOf(c: Leaf, a: Axis): int {
    if a == Width then c.maxWidth else c.maxHeight
  }

  /** A leaf that has already been through `SetSize`: its maxima are normalised and its sizes clamped. */
  predicate Settled(c: Leaf) {
    c.maxWidth != 0 && c.maxHeight != 0
    && c.width == Clamp(c.width, c.minWidth, c.maxWidth)
    && c.height == Clamp(c.height, c.minHeight, c.maxHeight)
  }

  /** The sum of the children's sizes along one axis. */
  function Total(cs: seq<Leaf>, a: Axis): int {
    if cs == [] then 0 else Total(cs[..|cs| - 1], a) + SizeOf(cs[|cs| - 1], a)
  }

  lemma {:induction false} TotalUpdate(cs: seq<Leaf>, i: int, c: Leaf, a: Axis)
    requires 0 <= i < |cs|
    ensures Total(cs[i := c], a) == Total(cs, a) - SizeOf(cs[i], a) + SizeOf(c, a)
  {
    var last := |cs| - 1;
    if i < last {
      assert cs[i := c][..last] == cs[..last][i := c];
      TotalUpdate(cs[..last], i, c, a);
    } else {
      assert cs[i := c][..last] == cs[..last];
    }
  }

  lemma {:induction false} TotalAgree(xs: seq<Leaf>, ys: seq<Leaf>, a: Axis)
    requires |xs| == |ys|
    requires forall i :: 0 <= i < |xs| ==> SizeOf(xs[i], a) == SizeOf(ys[i], a)
    ensures Total(xs, a) == Total(ys, a)
  {
    if xs != [] {
      TotalAgree(xs[..|xs| - 1], ys[..|ys| - 1], a);
    }
  }

  /** Every child is at least as large as the given bound along `a`: the sum is at least the sum of the bounds. */
  lemma {:induction false} TotalAtLeast(cs: seq<Leaf>, a: Axis, lo: int)
    requires forall i :: 0 <= i < |cs| ==> SizeOf(cs[i], a) >= lo
    ensures Total(cs, a) >= |cs| * lo
  {
    if cs != [] {
      TotalAtLeast(cs[..|cs| - 1], a, lo);
    }
  }

  /** `c` with its size along `a` replaced, nothing else changed. */
  function WithSize(c: Leaf, a: Axis, v: int): Leaf {
    if a == Width then c.(width := v) else c.(height := v)
  }

  predicate AtMax(c: Leaf, a: Axis) {
    SizeOf(c, a) >= MaxOf(c, a)
  }

  predicate NoneAtMax(cs: seq<Leaf>, a: Axis) {
    forall i :: 0 <= i < |cs| ==> !AtMax(cs[i], a)
  }

  /**
   * The round-robin's water level: after `rounds` full rounds and `idx` more
   * visits, child `i` was visited `rounds` times, plus once if it comes before
   * `idx`, and each visit added a unit unless the child was at its maximum.
   */
  ghost predicate Level(start: seq<Leaf>, r: seq<Leaf>, rounds: int, idx: int, a: Axis)
    requires |r| == |start|
  {
    forall i :: 0 <= i < |r| ==>
      SizeOf(r[i], a) == Clamp(MinOf(start[i], a) + rounds + (if i < idx then 1 else 0), MinOf(start[i], a), MaxOf(start[i], a))
  }

  /**
   * What a growth pass along `a` guarantees, starting from children at their
   * minimum sizes (`start`) and ending at `r`: the sizes fill the budget unless
   * every child is at its maximum; they never exceed the budget (or the
   * starting sum, if that was already larger); and every child sits at one
   * common water level clamped to its own bounds, earlier children at most one
   * unit ahead.
   */
  ghost predicate Grown(start: seq<Leaf>, r: seq<Leaf>, budget: int, a: Axis) {
    |r| == |start|
    && (Total(r, a) >= budget || forall i :: 0 <= i < |r| ==> SizeOf(r[i], a) >= MaxOf(start[i], a))
    && Total(r, a) <= (if budget >= Total(start, a) then budget else Total(start, a))
    && exists rounds, idx | 0 <= rounds && 0 <= idx < |r| :: Level(start, r, rounds, idx, a)
  }

  /** The level depends on the starting children only through their bounds along `a`. */
  lemma LevelAgree(start: seq<Leaf>, start': seq<Leaf>, r: seq<Leaf>, rounds: int, idx: int, a: Axis)
    requires |r| == |start| == |start'| && Level(start, r, rounds, idx, a)
    requires forall i :: 0 <= i < |r| ==> MinOf(start[i], a) == MinOf(start'[i], a) && MaxOf(start[i], a) == MaxOf(start'[i], a)
    ensures Level(start', r, rounds, idx, a)
  {
  }

  /** Each child of a grown pass lies between its minimum and (unless the minimum is larger) its maximum. */
  lemma GrownBounds(start: seq<Leaf>, r: seq<Leaf>, budget: int, a: Axis)
    requires Grown(start, r, budget, a)
    ensures forall i :: 0 <= i < |r| ==> MinOf(start[i], a) <= SizeOf(r[i], a)
    ensures forall i :: 0 <= i < |r| ==> SizeOf(r[i], a) <= MinOf(start[i], a) || SizeOf(r[i], a) <= MaxOf(start[i], a)
  {
  }

  /** A growth pass along one axis survives a later pass along the other axis. */
  lemma GrownAgree(start: seq<Leaf>, r: seq<Leaf>, r': seq<Leaf>, budget: int, a: Axis)
    requires Grown(start, r, budget, a)
    requires |r'| == |r| && forall i :: 0 <= i < |r| ==> SizeOf(r'[i], a) == SizeOf(r[i], a)
    ensures Grown(start, r', budget, a)
  {
    TotalAgree(r, r', a);
    var rounds, idx :| 0 <= rounds && 0 <= idx < |r| && Level(start, r, rounds, idx, a);
    assert Level(start, r', rounds, idx, a);
  }

  /** The children's bounds are those of `cs` and their sizes along `a` lie within them. */
  ghost predicate Bounded(cs: seq<Leaf>, r: seq<Leaf>, a: Axis) {
    |r| == |cs|
    && (forall i :: 0 <= i < |r| ==> Settled(r[i]) && r[i] == WithSize(cs[i], a, SizeOf(r[i], a)))
    && (forall i :: 0 <= i < |r| ==> MinOf(cs[i], a) <= SizeOf(r[i], a))
    && (forall i :: 0 <= i < |r| ==> SizeOf(r[i], a) <= MinOf(cs[i], a) || SizeOf(r[i], a) <= MaxOf(cs[i], a))
  }

  /** The index `k` places before `idx` on a ring of `n` children. */
  function Back(idx: int, k: int, n: int): int {
    if idx - k >= 0 then idx - k else idx - k + n
  }

  /** The `skip` children visited just before `idx` were all at their maximum. */
  ghost predicate Streak(r: seq<Leaf>, idx: int, skip: int, a: Axis)
    requires 0 <= idx < |r| && 0 <= skip < |r|
  {
    forall k :: 1 <= k <= skip ==> AtMax(r[Back(idx, k, |r|)], a)
  }

  /** A skip streak that covers the whole ring means every child is at its maximum. */
  lemma StreakCoversAll(r: seq<Leaf>, idx: int, skip: int, a: Axis)
    requires 0 <= idx < |r| && skip == |r| - 1
    requires Streak(r, idx, skip, a) && AtMax(r[idx], a)
    ensures forall j :: 0 <= j < |r| ==> AtMax(r[j], a)
  {
    forall j | 0 <= j < |r| ensures AtMax(r[j], a) {
      if j != idx {
        var k := if j < idx then idx - j else idx - j + |r|;
        assert Back(idx, k, |r|) == j;
      }
    }
  }

  /** Growing child `idx` by one unit keeps the bounds and, moving on, the fairness count. */
  lemma GrowStep(cs: seq<Leaf>, r: seq<Leaf>, idx: int, rounds: int, a: Axis)
    requires 0 <= idx < |r| && Bounded(cs, r, a) && 0 <= rounds && Level(cs, r, rounds, idx, a)
    requires !AtMax(r[idx], a)
    ensures StepUp(r[idx], a) == WithSize(r[idx], a, SizeOf(r[idx], a) + 1)
    ensures Bounded(cs, r[idx := StepUp(r[idx], a)], a)
    ensures Total(r[idx := StepUp(r[idx], a)], a) == Total(r, a) + 1
    ensures var idx' := if idx + 1 == |r| then 0 else idx + 1;
            Level(cs, r[idx := StepUp(r[idx], a)], if idx' == 0 then rounds + 1 else rounds, idx', a)
  {
    var c := StepUp(r[idx], a);
    StepUpGrows(r[idx], a);
    TotalUpdate(r, idx, c, a);
    assert MaxOf(r[idx], a) == MaxOf(cs[idx], a);
    LevelRises(cs, r, c, idx, rounds, a);
  }

  /** One more unit for child `idx`, below its maximum, moves the level one visit on. */
  lemma LevelRises(cs: seq<Leaf>, r: seq<Leaf>, c: Leaf, idx: int, rounds: int, a: Axis)
    requires 0 <= idx < |r| == |cs| && 0 <= rounds && Level(cs, r, rounds, idx, a)
    requires SizeOf(r[idx], a) < MaxOf(cs[idx], a) && SizeOf(c, a) == SizeOf(r[idx], a) + 1
    ensures var idx' := if idx + 1 == |r| then 0 else idx + 1;
            Level(cs, r[idx := c], if idx' == 0 then rounds + 1 else rounds, idx', a)
  {
    var lo, hi := MinOf(cs[idx], a), MaxOf(cs[idx], a);
    assert SizeOf(r[idx], a) == Clamp(lo + rounds, lo, hi);
    assert SizeOf(c, a) == lo + rounds + 1;
  }

  /** Skipping a child at its maximum extends the streak, and fairness holds vacuously. */
  lemma SkipStep(cs: seq<Leaf>, r: seq<Leaf>, idx: int, skip: int, rounds: int, a: Axis)
    requires 0 <= idx < |r| && 0 <= skip < |r| - 1 && Streak(r, idx, skip, a)
    requires Bounded(cs, r, a) && Level(cs, r, rounds, idx, a)
    requires AtMax(r[idx], a)
    ensures var idx' := if idx + 1 == |r| then 0 else idx + 1;
            Streak(r, idx', skip + 1, a) && Level(cs, r, if idx' == 0 then rounds + 1 else rounds, idx', a)
  {
    var n := |r|;
    var idx' := if idx + 1 == n then 0 else idx + 1;
    forall k | 1 <= k <= skip + 1 ensures AtMax(r[Back(idx', k, n)], a) {
      if k > 1 {
        assert Back(idx', k, n) == Back(idx, k - 1, n);
      }
    }
  }

  /** The children after the reset loop: each one resized to its own minimum. */
  function Reset(cs: seq<Leaf>): (r: seq<Leaf>)
    ensures |r| == |cs|
    ensures forall i :: 0 <= i < |cs| ==> r[i] == LeafSetSize(cs[i], cs[i].minWidth, cs[i].minHeight)
  {
    if cs == [] then [] else Reset(cs[..|cs| - 1]) + [LeafSetSize(cs[|cs| - 1], cs[|cs| - 1].minWidth, cs[|cs| - 1].minHeight)]
  }

  /** After the reset every child is settled at its minimum size on both axes. */
  lemma ResetAtMinimum(cs: seq<Leaf>)
    ensures forall i :: 0 <= i < |cs| ==> Settled(Reset(cs)[i])
    ensures forall i :: 0 <= i < |cs| ==> SizeOf(Reset(cs)[i], Width) == MinOf(Reset(cs)[i], Width)
    ensures forall i :: 0 <= i < |cs| ==> SizeOf(Reset(cs)[i], Height) == MinOf(Reset(cs)[i], Height)
  {
  }

  /** One growth step: the child's own `SetSize` with one more unit along `a`. */
  function StepUp(c: Leaf, a: Axis): Leaf {
    if a == Width then LeafSetSize(c, c.width + 1, c.height) else LeafSetSize(c, c.width, c.height + 1)
  }

  /** A settled child below its maximum grows by exactly one unit and stays settled. */
  lemma StepUpGrows(c: Leaf, a: Axis)
    requires Settled(c) && !AtMax(c, a)
    ensures StepUp(c, a) == WithSize(c, a, SizeOf(c, a) + 1)
    ensures Settled(StepUp(c, a))
  {
  }

  /** The loop's invariants at exit give the pass's guarantee. */
  lemma GrowDone(cs: seq<Leaf>, r: seq<Leaf>, budget: int, idx: int, rounds: int, a: Axis)
    requires 0 <= idx < |r| && Bounded(cs, r, a)
    requires Total(r, a) <= (if budget >= Total(cs, a) then budget else Total(cs, a))
    requires Total(r, a) >= budget || forall i :: 0 <= i < |r| ==> AtMax(r[i], a)
    requires 0 <= rounds && Level(cs, r, rounds, idx, a)
    ensures Grown(cs, r, budget, a)
  {
    assert forall i :: 0 <= i < |r| ==> MaxOf(r[i], a) == MaxOf(cs[i], a);
  }

  /**
   * One growth loop of `SetSize` (lines 97-113 for widths, 115-131 for
   * heights): while the children's sizes sum to less than the budget, give
   * one unit to child `idx` if it is below its maximum, else count a skip and
   * stop once every child was skipped in a row; then move to the next child.
   */
  method Grow(cs: seq<Leaf>, budget: int, a: Axis) returns (r: seq<Leaf>)
    requires |cs| > 0
    requires forall i :: 0 <= i < |cs| ==> Settled(cs[i]) && SizeOf(cs[i], a) == MinOf(cs[i], a)
    ensures Grown(cs, r, budget, a)
    ensures forall i :: 0 <= i < |r| ==> Settled(r[i]) && r[i] == WithSize(cs[i], a, SizeOf(r[i], a))
  {
    var n := |cs|;
    r := cs;
    var idx, skip := 0, 0;
    ghost var rounds := 0;
    while Total(r, a) < budget
      invariant |r| == n && 0 <= idx < n && 0 <= skip < n
      invariant Bounded(cs, r, a)
      invariant Total(r, a) <= (if budget >= Total(cs, a) then budget else Total(cs, a))
      invariant Streak(r, idx, skip, a)
      invariant 0 <= rounds && Level(cs, r, rounds, idx, a)
      decreases budget - Total(r, a), n - skip
    {
      if SizeOf(r[idx], a) < MaxOf(r[idx], a) {
        GrowStep(cs, r, idx, rounds, a);
        r := r[idx := StepUp(r[idx], a)];
        skip := 0;
      } else {
        if skip + 1 == n {
          StreakCoversAll(r, idx, skip, a);
          GrowDone(cs, r, budget, idx, rounds, a);
          return;
        }
        SkipStep(cs, r, idx, skip, rounds, a);
        skip := skip + 1;
      }
      idx := if idx + 1 == n then 0 else idx + 1;
      if idx == 0 {
        rounds := rounds + 1;
      }
    }
    GrowDone(cs, r, budget, idx, rounds, a);
  }

  /**
   * The children part of `SetSize` (lines 90-131) for a non-empty child list:
   * reset each child to its minimum, grow the widths up to `w`, then the
   * heights up to `h`.
   */
  method Distribute(cs: seq<Leaf>, w: int, h: int) returns (r: seq<Leaf>)
    requires |cs| > 0
    ensures Grown(Reset(cs), r, w, Width) && Grown(Reset(cs), r, h, Height)
    ensures forall i :: 0 <= i < |r| ==> Settled(r[i]) && LeafResponsive(r[i])
    ensures forall i :: 0 <= i < |r| ==>
              r[i] == Reset(cs)[i].(width := r[i].width, height := r[i].height)
  {
    var reset := Reset(cs);
    ResetAtMinimum(cs);
    var ws := Grow(reset, w, Width);
    r := Grow(ws, h, Height);
    BothPasses(reset, ws, r, w, h);
  }

  /** Chaining the width pass and the height pass. */
  lemma BothPasses(reset: seq<Leaf>, ws: seq<Leaf>, r: seq<Leaf>, w: int, h: int)
    requires forall i :: 0 <= i < |reset| ==> SizeOf(reset[i], Height) == MinOf(reset[i], Height)
    requires Grown(reset, ws, w, Width)
    requires forall i :: 0 <= i < |ws| ==> Settled(ws[i]) && ws[i] == WithSize(reset[i], Width, SizeOf(ws[i], Width))
    requires Grown(ws, r, h, Height)
    requires forall i :: 0 <= i < |r| ==> Settled(r[i]) && r[i] == WithSize(ws[i], Height, SizeOf(r[i], Height))
    ensures Grown(reset, r, w, Width) && Grown(reset, r, h, Height)
    ensures forall i :: 0 <= i < |r| ==> Settled(r[i]) && LeafResponsive(r[i])
    ensures forall i :: 0 <= i < |r| ==> r[i] == reset[i].(width := r[i].width, height := r[i].height)
  {
    GrownAgree(reset, ws, r, w, Width);
    TotalAgree(ws, reset, Height);
    assert forall i :: 0 <= i < |r| ==> MinOf(ws[i], Height) == MinOf(reset[i], Height) && MaxOf(ws[i], Height) == MaxOf(reset[i], Height);
    var rounds, idx :| 0 <= rounds && 0 <= idx < |r| && Level(ws, r, rounds, idx, Height);
    LevelAgree(ws, reset, r, rounds, idx, Height);
  }

  /**
   * A responsive container: its own size and bounds, plus `children`, the
   * backing array of the Go slice. Go's `SetSize` has a value receiver, so
   * it works on a copy of the scalar fields but writes the resized children
   * through the shared backing array.
   */
  class View {
    var height: int
    var minHeight: int
    var maxHeight: int
    var width: int
    var minWidth: int
    var maxWidth: int
    var children: array<Leaf>

    /** A struct literal: bounds and children, sizes zero. */
    constructor(minHeight: int, maxHeight: int, minWidth: int, maxWidth: int, children: seq<Leaf>)
      ensures this.minHeight == minHeight && this.maxHeight == maxHeight
      ensures this.minWidth == minWidth && this.maxWidth == maxWidth
      ensures this.height == 0 && this.width == 0
      ensures fresh(this.children) && this.children[..] == children
    {
      this.minHeight, this.maxHeight := minHeight, maxHeight;
      this.minWidth, this.maxWidth := minWidth, maxWidth;
      this.height, this.width := 0, 0;
      this.children := new Leaf[|children|](i requires 0 <= i < |children| => children[i]);
    }

    /** `SetSizeBound` (lines 31-36): store the four bounds. */
    method SetSizeBound(minHeight: int, maxHeight: int, minWidth: int, maxWidth: int)
      modifies this
      ensures this.minHeight == minHeight && this.maxHeight == maxHeight
      ensures this.minWidth == minWidth && this.maxWidth == maxWidth
      ensures height == old(height) && width == old(width) && children == old(children)
    {
      this.minHeight, this.maxHeight := minHeight, maxHeight;
      this.minWidth, this.maxWidth := minWidth, maxWidth;
    }

    /** The property `IsResponsive` reports. */
    ghost predicate Responsive()
      reads this, children
    {
      (forall i :: 0 <= i < children.Length ==> LeafResponsive(children[i]))
      && height >= minHeight && width >= minWidth
    }

    /** `IsResponsive` (lines 50-57): every child responsive and the view at least its minimum size. */
    method IsResponsive() returns (ok: bool)
      ensures ok <==> Responsive()
    {
      var i := 0;
      while i < children.Length
        invariant 0 <= i <= children.Length
        invariant forall k :: 0 <= k < i ==> LeafResponsive(children[k])
      {
        if !LeafResponsive(children[i]) {
          return false;
        }
        i := i + 1;
      }
      return height >= minHeight && width >= minWidth;
    }

    /**
     * `SetSize` (lines 59-133). The receiver's own fields are untouched (it
     * is a copy in Go); the returned view carries the normalised maxima and
     * the clamped size, and shares the children array, whose elements are
     * reset to their minimum and then grown along each axis.
     */
    method SetSize(w: int, h: int) returns (rv: View)
      modifies children
      ensures fresh(rv) && rv.children == children
      ensures rv.minHeight == minHeight && rv.minWidth == minWidth
      ensures rv.maxHeight == NormMax(maxHeight) && rv.maxWidth == NormMax(maxWidth)
      ensures rv.height == Clamp(h, minHeight, rv.maxHeight)
      ensures rv.width == Clamp(w, minWidth, rv.maxWidth)
      ensures children.Length == 0 ==> children[..] == old(children[..])
      ensures children.Length > 0 ==> Grown(Reset(old(children[..])), children[..], rv.width, Width)
      ensures children.Length > 0 ==> Grown(Reset(old(children[..])), children[..], rv.height, Height)
      ensures forall i :: 0 <= i < children.Length ==> Settled(children[i])
      ensures forall i :: 0 <= i < children.Length ==>
                children[i] == Reset(old(children[..]))[i].(width := children[i].width, height := children[i].height)
      ensures rv.Responsive()
    {
      var maxH := NormMax(maxHeight);
      var maxW := NormMax(maxWidth);
      rv := new View(minHeight, maxH, minWidth, maxW, []);
      rv.height := Clamp(h, minHeight, maxH);
      rv.width := Clamp(w, minWidth, maxW);
      rv.children := children;
      if children.Length == 0 {
        return;
      }
      var hs := Distribute(children[..], rv.width, rv.height);
      forall i | 0 <= i < children.Length {
        children[i] := hs[i];
      }
      assert children[..] == hs;
    }
  }

  lemma TotalOfTwo(cs: seq<Leaf>, a: Axis)
    requires |cs| == 2
    ensures Total(cs, a) == SizeOf(cs[0], a) + SizeOf(cs[1], a)
  {
    var init := cs[..1];
    assert init[..0] == [] && init[0] == cs[0];
    assert Total(init, a) == SizeOf(cs[0], a);
    assert cs[..|cs| - 1] == init;
  }

  /** The shared shape of the three tests: a default root with two children, sized 20 by 20. */
  method SizeTwoChildren(c1: Leaf, c2: Leaf) returns (out1: Leaf, out2: Leaf, root: View)
    ensures fresh(root) && root.width == 20 && root.height == 20
    ensures Grown(Reset([c1, c2]), [out1, out2], 20, Width)
    ensures Grown(Reset([c1, c2]), [out1, out2], 20, Height)
  {
    var parent := new View(0, 0, 0, 0, [c1, c2]);
    root := parent.SetSize(20, 20);
    out1, out2 := parent.children[0], parent.children[1];
    assert parent.children[..] == [out1, out2];
  }

  /** TestCase1 (responsive_view_test.go lines 9-40): two children bounded to [5, 20] get 10 by 10 each. */
  method TestCase1() returns (w1: int, h1: int, w2: int, h2: int, rootW: int, rootH: int)
    ensures w1 == 10 && h1 == 10 && w2 == 10 && h2 == 10
    ensures rootW == 20 && rootH == 20
  {
    var child := Leaf(0, 5, 20, 0, 5, 20);
    var c1, c2, root := SizeTwoChildren(child, child);
    var start := Reset([child, child]);
    assert start[0] == start[1] == Leaf(5, 5, 20, 5, 5, 20);
    TotalOfTwo(start, Width);
    TotalOfTwo(start, Height);
    TotalOfTwo([c1, c2], Width);
    TotalOfTwo([c1, c2], Height);
    w1, h1, w2, h2 := c1.width, c1.height, c2.width, c2.height;
    rootW, rootH := root.width, root.height;
  }

  /** TestCase2 (lines 42-69): unbounded children (every bound zero) get 10 by 10 each. */
  method TestCase2() returns (w1: int, h1: int, w2: int, h2: int, rootW: int, rootH: int)
    ensures w1 == 10 && h1 == 10 && w2 == 10 && h2 == 10
    ensures rootW == 20 && rootH == 20
  {
    var child := Leaf(0, 0, 0, 0, 0, 0);
    var c1, c2, root := SizeTwoChildren(child, child);
    var start := Reset([child, child]);
    assert start[0] == start[1] == Leaf(0, 0, Unbounded, 0, 0, Unbounded);
    TotalOfTwo(start, Width);
    TotalOfTwo(start, Height);
    TotalOfTwo([c1, c2], Width);
    TotalOfTwo([c1, c2], Height);
    w1, h1, w2, h2 := c1.width, c1.height, c2.width, c2.height;
    rootW, rootH := root.width, root.height;
  }

  /** TestCase3 (lines 71-98): minima 0 and 5 (maxima 20) split 20 into 8 and 12 on both axes. */
  method TestCase3() returns (w1: int, h1: int, w2: int, h2: int, rootW: int, rootH: int)
    ensures w1 == 8 && h1 == 8 && w2 == 12 && h2 == 12
    ensures rootW == 20 && rootH == 20
  {
    var child1 := Leaf(0, 0, 20, 0, 0, 20);
    var child2 := Leaf(0, 5, 20, 0, 5, 20);
    var c1, c2, root := SizeTwoChildren(child1, child2);
    var start := Reset([child1, child2]);
    assert start[0] == Leaf(0, 0, 20, 0, 0, 20) && start[1] == Leaf(5, 5, 20, 5, 5, 20);
    TotalOfTwo(start, Width);
    TotalOfTwo(start, Height);
    TotalOfTwo([c1, c2], Width);
    TotalOfTwo([c1, c2], Height);
    assert c1.width + c2.width == 20 && c1.height + c2.height == 20;
    assert c1.width < 20 && c2.width < 20 && c1.height < 20 && c2.height < 20;
    w1, h1, w2, h2 := c1.width, c1.height, c2.width, c2.height;
    rootW, rootH := root.width, root.height;
  }
}
