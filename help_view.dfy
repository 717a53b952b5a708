/**
 * The key-help footer of view/help.go: a list of help lines folded into the
 * height the layout grants it. When there are more lines than rows, the
 * lines are joined in consecutive groups with " | " so that the groups fit.
 * Styling (the help style's colours) is not modelled: rendering is the identity.
 */
module HelpView {
  import opened Text

  const Separator: string := " | "
  const Indent: string := "    "

  /** Go's `math.Ceil(float64(a) / float64(b))` for a positive divisor. */
  function CeilDiv(a: nat, b: int): (q: nat)
    requires b > 0
    ensures q * b >= a
    ensures q == 0 || (q - 1) * b < a
  {
    var q := (a + b - 1) / b;
    assert q * b <= a + b - 1 < q * b + b;
    q
  }

  lemma MulMonotone(a: int, b: int, n: int)
    requires a >= b && n >= 0
    ensures a * n >= b * n
  {
    assert a * n - b * n == (a - b) * n;
  }

  /** The two bounds of `CeilDiv` pin the quotient down. */
  lemma CeilDivUnique(a: nat, b: int, q: nat)
    requires b > 0 && q * b >= a && (q == 0 || (q - 1) * b < a)
    ensures q == CeilDiv(a, b)
  {
    var c := CeilDiv(a, b);
    if q < c {
      MulMonotone(c - 1, q, b);
    } else if q > c {
      MulMonotone(q - 1, c, b);
    }
  }

  /** The groups `joinLines` builds: consecutive runs of `n` lines, the last one possibly shorter. */
  function Groups(lines: seq<string>, n: int): seq<seq<string>>
    requires n >= 1
    decreases |lines|
  {
    if lines == [] then []
    else
      var m := if n <= |lines| then n else |lines|;
      [lines[..m]] + Groups(lines[m..], n)
  }

  /** Each group joined with " | ". */
  function JoinGroups(gs: seq<seq<string>>): (r: seq<string>)
    ensures |r| == |gs|
  {
    if gs == [] then [] else [Join(gs[0], Separator)] + JoinGroups(gs[1..])
  }

  /** The `i`-th joined line is the `i`-th group joined. */
  lemma {:induction false} JoinGroupsAt(gs: seq<seq<string>>, i: int)
    requires 0 <= i < |gs|
    ensures JoinGroups(gs)[i] == Join(gs[i], Separator)
  {
    if i > 0 {
      JoinGroupsAt(gs[1..], i - 1);
    }
  }

  /** The groups put back together are the lines, in order. */
  lemma {:induction false} GroupsKeepOrder(lines: seq<string>, n: int)
    requires n >= 1
    ensures Flatten(Groups(lines, n)) == lines
    decreases |lines|
  {
    if lines != [] {
      var m := if n <= |lines| then n else |lines|;
      GroupsKeepOrder(lines[m..], n);
      assert Groups(lines, n)[1..] == Groups(lines[m..], n);
      assert lines[..m] + lines[m..] == lines;
    }
  }

  /** One more run of `b`: one more group. */
  lemma CeilDivStep(a: nat, b: int)
    requires b > 0 && a > b
    ensures CeilDiv(a, b) == CeilDiv(a - b, b) + 1
  {
    var q := CeilDiv(a - b, b);
    assert (q + 1) * b == q * b + b;
    assert q == 0 || (q - 1) * b == q * b - b;
    CeilDivUnique(a, b, q + 1);
  }

  /** There are ceil(len/n) groups. */
  lemma {:induction false} GroupsCount(lines: seq<string>, n: int)
    requires n >= 1
    ensures |Groups(lines, n)| == CeilDiv(|lines|, n)
    decreases |lines|
  {
    if lines != [] {
      var m := if n <= |lines| then n else |lines|;
      GroupsCount(lines[m..], n);
      if m < |lines| {
        CeilDivStep(|lines|, n);
      } else {
        CeilDivUnique(|lines|, n, 1);
      }
    }
  }

  /** Every group has `n` lines except the last, which has 1 to `n`. */
  lemma {:induction false} GroupsSizes(lines: seq<string>, n: int)
    requires n >= 1
    ensures forall i :: 0 <= i < |Groups(lines, n)| - 1 ==> |Groups(lines, n)[i]| == n
    ensures lines != [] ==> 1 <= |Groups(lines, n)[|Groups(lines, n)| - 1]| <= n
    decreases |lines|
  {
    var gs := Groups(lines, n);
    if lines != [] {
      var m := if n <= |lines| then n else |lines|;
      GroupsSizes(lines[m..], n);
      assert gs[1..] == Groups(lines[m..], n);
    }
  }

  /** There are ceil(len/n) groups; every group has `n` lines except the last, which has 1 to `n`. */
  lemma GroupsShape(lines: seq<string>, n: int)
    requires n >= 1
    ensures |Groups(lines, n)| == CeilDiv(|lines|, n)
    ensures forall i :: 0 <= i < |Groups(lines, n)| - 1 ==> |Groups(lines, n)[i]| == n
    ensures lines != [] ==> 1 <= |Groups(lines, n)[|Groups(lines, n)| - 1]| <= n
  {
    GroupsCount(lines, n);
    GroupsSizes(lines, n);
  }

  /** Grouping `len` lines in runs of ceil(len/height) gives at most `height` groups, and no more than `len`. */
  lemma GroupsFitHeight(len: nat, height: int)
    requires height > 0 && len > 0
    ensures CeilDiv(len, height) >= 1
    ensures CeilDiv(len, CeilDiv(len, height)) <= height
    ensures CeilDiv(len, CeilDiv(len, height)) <= len
  {
    var n := CeilDiv(len, height);
    var q := CeilDiv(len, n);
    if q > height {
      MulMonotone(q - 1, height, n);
    }
    if q > len {
      MulMonotone(q - 1, len, n);
      MulMonotone(n, 1, len);
    }
  }

  /** The lines `String` shows: the help lines, or their groups when they do not fit. */
  function Shown(lines: seq<string>, height: int): seq<string> {
    if height > 0 && |lines| > height then JoinGroups(Groups(lines, CeilDiv(|lines|, height)))
    else lines
  }

  function Indented(ls: seq<string>): (r: seq<string>)
    ensures |r| == |ls| && forall i :: 0 <= i < |ls| ==> r[i] == Indent + ls[i]
  {
    if ls == [] then [] else [Indent + ls[0]] + Indented(ls[1..])
  }

  /** The text `String` renders for the given lines and height. */
  function Render(lines: seq<string>, height: int): string {
    if height == 0 then ""
    else
      var shown := Shown(lines, height);
      var suffix := if |shown| < height then "\n" else "";
      var prefix := if |shown| + 1 < height then "\n" else "";
      prefix + Join(Indented(shown), "\n") + suffix + "\n"
  }

  /** Grouping never shows more lines than there are help lines, and the shown lines fit the height. */
  lemma ShownFits(lines: seq<string>, height: int)
    requires height > 0
    ensures |Shown(lines, height)| <= |lines|
    ensures |Shown(lines, height)| <= height
    ensures |lines| > 0 ==> |Shown(lines, height)| > 0
  {
    if |lines| > height {
      var n := CeilDiv(|lines|, height);
      GroupsShape(lines, n);
      GroupsFitHeight(|lines|, height);
    }
  }

  /** No help line, indent or separator holds a line break, so neither does a shown line. */
  lemma ShownHasNoBreaks(lines: seq<string>, height: int)
    requires forall i :: 0 <= i < |lines| ==> '\n' !in lines[i]
    ensures forall i :: 0 <= i < |Indented(Shown(lines, height))| ==> '\n' !in Indented(Shown(lines, height))[i]
  {
    if height > 0 && |lines| > height {
      var gs := Groups(lines, CeilDiv(|lines|, height));
      forall g | 0 <= g < |gs| ensures '\n' !in JoinGroups(gs)[g] {
        GroupMembers(lines, CeilDiv(|lines|, height), g);
        JoinAvoids(gs[g], Separator, '\n');
        JoinGroupsAt(gs, g);
      }
    }
  }

  /** Every line of a group is one of the help lines. */
  lemma {:induction false} GroupMembers(lines: seq<string>, n: int, g: int)
    requires n >= 1 && 0 <= g < |Groups(lines, n)|
    ensures forall j :: 0 <= j < |Groups(lines, n)[g]| ==> Groups(lines, n)[g][j] in lines
    decreases |lines|
  {
    var m := if n <= |lines| then n else |lines|;
    if g > 0 {
      assert Groups(lines, n)[g] == Groups(lines[m..], n)[g - 1];
      GroupMembers(lines[m..], n, g - 1);
      forall j | 0 <= j < |Groups(lines, n)[g]| ensures Groups(lines, n)[g][j] in lines {
        assert Groups(lines, n)[g][j] in lines[m..];
      }
    }
  }

  /**
   * The rendered help occupies exactly `min(height, shown + 2)` terminal
   * lines (counting its line breaks) when there is something to show, and
   * so never more than the height it was given nor more than `MaxHeight`.
   */
  lemma RenderLineCount(lines: seq<string>, height: int)
    requires height > 0
    requires forall i :: 0 <= i < |lines| ==> '\n' !in lines[i]
    ensures var k := |Shown(lines, height)|;
            CountChar(Render(lines, height), '\n') ==
              if k == 0 then (if height >= 2 then 3 else 2)
              else if height < k + 2 then height else k + 2
    ensures |lines| > 0 ==> CountChar(Render(lines, height), '\n') <= height
    ensures |lines| > 0 ==> CountChar(Render(lines, height), '\n') <= |lines| + 2
  {
    ShownFits(lines, height);
    ShownHasNoBreaks(lines, height);
    var shown := Shown(lines, height);
    var body := Join(Indented(shown), "\n");
    var suffix := if |shown| < height then "\n" else "";
    var prefix := if |shown| + 1 < height then "\n" else "";
    if shown == [] {
      assert CountChar(body, '\n') == 0;
    } else {
      CountCharJoin(Indented(shown), '\n');
    }
    CountCharAppend(prefix, body, '\n');
    CountCharAppend(prefix + body, suffix, '\n');
    CountCharAppend(prefix + body + suffix, "\n", '\n');
  }

  /** The inner loop of `joinLines`: up to `n` lines from `start`, stopping at the end. */
  method TakeRun(lines: seq<string>, start: int, n: int) returns (run: seq<string>, idx: int)
    requires n >= 1 && 0 <= start < |lines|
    ensures idx == start + (if n <= |lines| - start then n else |lines| - start)
    ensures run == lines[start..idx]
  {
    idx := start;
    run := [];
    var i := 0;
    while i < n
      invariant 0 <= i <= n && start <= idx <= |lines|
      invariant idx - start == i || (idx == |lines| && idx - start < i)
      invariant run == lines[start..idx]
    {
      if idx >= |lines| {
        break;
      }
      run := run + [lines[idx]];
      idx := idx + 1;
      i := i + 1;
    }
  }

  /** The groups from `start` on: the run of `n` lines there, then the groups after it. */
  lemma GroupsFrom(lines: seq<string>, start: int, n: int)
    requires n >= 1 && 0 <= start < |lines|
    ensures var m := if n <= |lines| - start then n else |lines| - start;
            JoinGroups(Groups(lines[start..], n)) ==
              [Join(lines[start..start + m], Separator)] + JoinGroups(Groups(lines[start + m..], n))
  {
    var m := if n <= |lines| - start then n else |lines| - start;
    assert lines[start..][..m] == lines[start..start + m];
    assert lines[start..][m..] == lines[start + m..];
  }

  /** The indenting loop of `String` (lines 26-29). */
  method IndentAll(shown: seq<string>) returns (hlines: seq<string>)
    ensures hlines == Indented(shown)
  {
    hlines := [];
    for i := 0 to |shown|
      invariant hlines == Indented(shown[..i])
    {
      assert shown[..i + 1][..i] == shown[..i];
      hlines := hlines + [Indent + shown[i]];
    }
    assert shown[..|shown|] == shown;
  }

  class HelpView {
    var lines: seq<string>
    var height: int

    constructor(lines: seq<string>)
      ensures this.lines == lines && height == 0
    {
      this.lines, this.height := lines, 0;
    }

    /** `SetHeight` (lines 60-62): the height is stored verbatim. */
    method SetHeight(height: int)
      modifies this
      ensures this.height == height && lines == old(lines)
    {
      this.height := height;
    }

    function MinHeight(): int { 0 }

    function MaxHeight(): int
      reads this
    {
      |lines| + 2
    }

    predicate IsResponsive()
      reads this
    {
      height >= MinHeight()
    }

    /** `joinLines` (lines 42-58): runs of `n` consecutive lines joined with " | ". */
    method JoinLines(lines: seq<string>, n: int) returns (newLines: seq<string>)
      requires n >= 1
      ensures newLines == JoinGroups(Groups(lines, n))
    {
      newLines := [];
      var idx := 0;
      while idx < |lines|
        invariant 0 <= idx <= |lines|
        invariant newLines + JoinGroups(Groups(lines[idx..], n)) == JoinGroups(Groups(lines, n))
        decreases |lines| - idx
      {
        var start := idx;
        var currentLine;
        currentLine, idx := TakeRun(lines, start, n);
        GroupsFrom(lines, start, n);
        ghost var rest := JoinGroups(Groups(lines[idx..], n));
        assert JoinGroups(Groups(lines[start..], n)) == [Join(currentLine, Separator)] + rest;
        assert newLines + ([Join(currentLine, Separator)] + rest) == (newLines + [Join(currentLine, Separator)]) + rest;
        newLines := newLines + [Join(currentLine, Separator)];
      }
    }

    /** `String` (lines 15-40). */
    method String() returns (s: string)
      ensures s == Render(lines, height)
    {
      if height == 0 {
        return "";
      }
      var shown := lines;
      if height > 0 && |lines| > height {
        shown := JoinLines(lines, CeilDiv(|lines|, height));
      }
      var hlines := IndentAll(shown);
      var prefix, suffix := "", "";
      if |shown| < height {
        suffix := "\n";
        if |shown| + 1 < height {
          prefix := "\n";
        }
      }
      s := prefix + Join(hlines, "\n") + suffix + "\n";
    }
  }
}
