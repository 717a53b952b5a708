/**
 * The greedy height split shared by the `UpdateResponsive` methods of the
 * list views and of the two optimize apps: two parts stacked in a fixed
 * height start at their initial heights; the first part grows one line at a
 * time to its preferred height, then the second to its maximum, then the
 * first to its maximum. A step after which the layout no longer fits is
 * undone and ends all growth.
 */
module Greedy {

  /**
   * The layout's `checkResponsive`: the parts fit in `total` lines and each
   * is at least its floor (the height under which it stops being
   * responsive); `ready` is whatever else the parts require, which does not
   * depend on their heights.
   */
  predicate Fits(total: int, first: int, second: int, firstFloor: int, secondFloor: int, ready: bool) {
    ready && total >= first + second && first >= firstFloor && second >= secondFloor
  }

  /** The inputs of a split: the height, both parts' starting heights and floors, and the growth targets. */
  datatype Limits = Limits(total: int, first: int, second: int, firstFloor: int, secondFloor: int, ready: bool,
                           firstPreferred: int, secondMax: int, firstMax: int)

  /** The heights a split ends with. */
  datatype Heights = Heights(first: int, second: int)

  function Max(a: int, b: int): int { if a >= b then a else b }

  /**
   * One growth phase: a part of height `x` that may grow to `room` without
   * breaking the fit rises to `limit`, or to `room` when that is lower.
   */
  function Phase(x: int, limit: int, room: int): int {
    if x >= limit then x else if room < limit then room else limit
  }

  /** A phase ends all growth when the part was below its target and the room ran out first. */
  predicate Halts(x: int, limit: int, room: int) {
    x < limit && room < limit
  }

  /** The outcome of the three phases. */
  function Layout(l: Limits): Heights {
    if !Fits(l.total, l.first, l.second, l.firstFloor, l.secondFloor, l.ready) then Heights(l.first, l.second)
    else
      var a := Phase(l.first, l.firstPreferred, l.total - l.second);
      if Halts(l.first, l.firstPreferred, l.total - l.second) then Heights(a, l.second)
      else
        var b := Phase(l.second, l.secondMax, l.total - a);
        if Halts(l.second, l.secondMax, l.total - a) then Heights(a, b)
        else Heights(Phase(a, l.firstMax, l.total - b), b)
  }

  /**
   * The three loops of `UpdateResponsive`: each adds a line to a part,
   * re-checks the fit, and on failure takes the line back and stops.
   */
  method Grow(l: Limits) returns (h: Heights)
    ensures h == Layout(l)
  {
    var a, b := l.first, l.second;
    if !Fits(l.total, a, b, l.firstFloor, l.secondFloor, l.ready) {
      return Heights(a, b);
    }
    while a < l.firstPreferred
      invariant l.first <= a && (a <= l.firstPreferred || a == l.first)
      invariant Fits(l.total, a, b, l.firstFloor, l.secondFloor, l.ready)
    {
      a := a + 1;
      if !Fits(l.total, a, b, l.firstFloor, l.secondFloor, l.ready) {
        a := a - 1;
        return Heights(a, b);
      }
    }
    assert a == Phase(l.first, l.firstPreferred, l.total - l.second);
    while b < l.secondMax
      invariant l.second <= b && (b <= l.secondMax || b == l.second)
      invariant Fits(l.total, a, b, l.firstFloor, l.secondFloor, l.ready)
    {
      b := b + 1;
      if !Fits(l.total, a, b, l.firstFloor, l.secondFloor, l.ready) {
        b := b - 1;
        return Heights(a, b);
      }
    }
    var a1 := a;
    while a < l.firstMax
      invariant a1 <= a && (a <= l.firstMax || a == a1)
      invariant Fits(l.total, a, b, l.firstFloor, l.secondFloor, l.ready)
    {
      a := a + 1;
      if !Fits(l.total, a, b, l.firstFloor, l.secondFloor, l.ready) {
        a := a - 1;
        return Heights(a, b);
      }
    }
    return Heights(a, b);
  }

  /** A layout that fits keeps fitting: every step that breaks the fit is undone. One that does not fit is left as it is. */
  lemma LayoutFits(l: Limits)
    ensures Fits(l.total, l.first, l.second, l.firstFloor, l.secondFloor, l.ready) ==>
              Fits(l.total, Layout(l).first, Layout(l).second, l.firstFloor, l.secondFloor, l.ready)
    ensures !Fits(l.total, l.first, l.second, l.firstFloor, l.secondFloor, l.ready) ==>
              Layout(l) == Heights(l.first, l.second)
  {
  }

  /** Parts only grow, and never past the larger of their start and their targets. */
  lemma LayoutBounds(l: Limits)
    ensures l.first <= Layout(l).first <= Max(l.first, Max(l.firstPreferred, l.firstMax))
    ensures l.second <= Layout(l).second <= Max(l.second, l.secondMax)
  {
  }

  /**
   * The split is greedy: when the start fits, the parts either fill the
   * height exactly or have both reached every target.
   */
  lemma LayoutMaximal(l: Limits)
    requires Fits(l.total, l.first, l.second, l.firstFloor, l.secondFloor, l.ready)
    ensures var h := Layout(l);
            h.first + h.second == l.total ||
            (h.first >= l.firstPreferred && h.first >= l.firstMax && h.second >= l.secondMax)
  {
  }

  /**
   * The phases run in order: the second part grows only once the first has
   * its preferred height, and the first grows past that only once the
   * second is at its maximum.
   */
  lemma LayoutOrder(l: Limits)
    ensures Layout(l).second > l.second ==> Layout(l).first >= l.firstPreferred
    ensures Layout(l).first > Max(l.first, l.firstPreferred) ==> Layout(l).second >= l.secondMax
  {
  }
}
