/**
 * The jobs panel of cmd/optimize/view/jobs.go: up to `height` lines listing
 * running jobs and failures. A line budget is split between the two lists,
 * then each list is rendered with a title on its first line and "..." when
 * more jobs exist than the list holds. Word wrapping and the error style are
 * terminal rendering and are not modelled (both are the identity here).
 */
module OptimizeJobsView {
  import opened Text

  function Min(a: int, b: int): int { if a <= b then a else b }

  /**
   * The reference split of a budget of `t` lines: one line for a running job
   * if there is one, then the failures, then the other running jobs, then the
   * failures' "..." line, then the running jobs' "..." line.
   */
  function LineSplit(t: nat, running: nat, failed: nat, moreRunning: bool, moreFailed: bool): (r: (nat, nat))
    ensures r.0 + r.1 == Min(t, running + failed + (if moreRunning then 1 else 0) + (if moreFailed then 1 else 0))
    ensures r.0 <= running + (if moreRunning then 1 else 0) && r.1 <= failed + (if moreFailed then 1 else 0)
  {
    var maxRunning := running + if moreRunning then 1 else 0;
    var maxFailed := failed + if moreFailed then 1 else 0;
    var r1 := Min(t, Min(running, 1));
    var f1 := Min(t - r1, failed);
    var r2 := Min(t - r1 - f1, running - r1);
    var f2 := Min(t - r1 - f1 - r2, maxFailed - failed);
    var r3 := Min(t - r1 - f1 - r2 - f2, maxRunning - running);
    (r1 + r2 + r3, f1 + f2)
  }

  /**
   * The priorities of the split: a running job gets the first line; a
   * further running job only once every failure is shown; a "..." line only
   * once every real entry of both lists is shown.
   */
  lemma LineSplitPriorities(t: nat, running: nat, failed: nat, moreRunning: bool, moreFailed: bool)
    ensures var (rs, fs) := LineSplit(t, running, failed, moreRunning, moreFailed);
            (t > 0 && running > 0 ==> rs >= 1)
            && (rs > 1 ==> fs >= failed)
            && (fs > failed ==> rs >= running)
            && (rs > running ==> fs == failed + (if moreFailed then 1 else 0))
  {
  }

  /** One pass of the budget loop's body: the first list, in priority order, that still has room gets a line. */
  function Step(r: (nat, nat), running: nat, failed: nat, moreRunning: bool, moreFailed: bool): (nat, nat) {
    var (rs, fs) := r;
    if rs == 0 && rs < running then (rs + 1, fs)
    else if fs < failed then (rs, fs + 1)
    else if rs < running then (rs + 1, fs)
    else if fs < failed + (if moreFailed then 1 else 0) then (rs, fs + 1)
    else if rs < running + (if moreRunning then 1 else 0) then (rs + 1, fs)
    else (rs, fs)
  }

  /** One more line of budget goes to the first list, in priority order, that still has room. */
  lemma LineSplitStep(t: nat, running: nat, failed: nat, moreRunning: bool, moreFailed: bool)
    ensures LineSplit(t + 1, running, failed, moreRunning, moreFailed) ==
            Step(LineSplit(t, running, failed, moreRunning, moreFailed), running, failed, moreRunning, moreFailed)
  {
  }

  /** The counts after `t` passes of the loop's body. */
  function Fill(t: nat, running: nat, failed: nat, moreRunning: bool, moreFailed: bool): (nat, nat) {
    if t == 0 then (0, 0) else Step(Fill(t - 1, running, failed, moreRunning, moreFailed), running, failed, moreRunning, moreFailed)
  }

  /** The loop's counts agree with the reference split. */
  lemma {:induction false} FillIsLineSplit(t: nat, running: nat, failed: nat, moreRunning: bool, moreFailed: bool)
    ensures Fill(t, running, failed, moreRunning, moreFailed) == LineSplit(t, running, failed, moreRunning, moreFailed)
  {
    if t > 0 {
      FillIsLineSplit(t - 1, running, failed, moreRunning, moreFailed);
      LineSplitStep(t - 1, running, failed, moreRunning, moreFailed);
    }
  }

  /** Titled lines: the first item carries `first`, the others `rest`. */
  function Titled(items: seq<string>, first: string, rest: string): (r: seq<string>)
    ensures |r| == |items|
    ensures forall i :: 0 <= i < |items| ==> r[i] == (if i == 0 then first else rest) + items[i]
  {
    seq(|items|, i requires 0 <= i < |items| => (if i == 0 then first else rest) + items[i])
  }

  /** One list's lines for `count` budgeted lines: titled entries, then "..." if budget is left and more exist. */
  function Section(items: seq<string>, more: bool, count: int, first: string, rest: string): seq<string> {
    if count > 0 && |items| > 0 then
      var shown := Min(count, |items|);
      Titled(items[..shown], first, rest) + (if more && count > |items| then ["       ..."] else [])
    else []
  }

  /** A section takes no more lines than its budget. */
  lemma SectionFits(items: seq<string>, more: bool, count: int, first: string, rest: string)
    requires count >= 0
    ensures |Section(items, more, count, first, rest)| <= count
  {
  }

  /** The panel's text, as `String` renders it for the panel's current lists and height. */
  ghost function PanelText(jobs: JobsView): string
    reads jobs
  {
    Join(PanelLines(jobs.runningJobs, jobs.moreRunningJobs, jobs.failedJobs, jobs.moreFailedJobs,
                    if jobs.height >= 0 then jobs.height else 0), "\n")
  }

  class JobsView {
    var runningJobs: seq<string>
    var moreRunningJobs: bool
    var failedJobs: seq<string>
    var moreFailedJobs: bool
    var height: int
    var width: int

    constructor(runningJobs: seq<string>, moreRunningJobs: bool, failedJobs: seq<string>, moreFailedJobs: bool)
      ensures this.runningJobs == runningJobs && this.moreRunningJobs == moreRunningJobs
      ensures this.failedJobs == failedJobs && this.moreFailedJobs == moreFailedJobs
      ensures height == 0 && width == 0
    {
      this.runningJobs, this.moreRunningJobs := runningJobs, moreRunningJobs;
      this.failedJobs, this.moreFailedJobs := failedJobs, moreFailedJobs;
      this.height, this.width := 0, 0;
    }

    method SetHeight(height: int)
      modifies this
      ensures this.height == height && width == old(width)
      ensures runningJobs == old(runningJobs) && failedJobs == old(failedJobs)
      ensures moreRunningJobs == old(moreRunningJobs) && moreFailedJobs == old(moreFailedJobs)
    {
      this.height := height;
    }

    method SetWidth(width: int)
      modifies this
      ensures this.width == width && height == old(height)
      ensures runningJobs == old(runningJobs) && failedJobs == old(failedJobs)
      ensures moreRunningJobs == old(moreRunningJobs) && moreFailedJobs == old(moreFailedJobs)
    {
      this.width := width;
    }

    function MinHeight(): int { 1 }

    /** Every job, failure and "..." line. */
    function MaxHeight(): int
      reads this
    {
      |runningJobs| + (if moreRunningJobs then 1 else 0) + |failedJobs| + (if moreFailedJobs then 1 else 0)
    }

    predicate IsResponsive()
      reads this
    {
      height >= MinHeight()
    }

    /** The budget loop of `String` (lines 48-76). */
    method Budget() returns (runningShowCount: nat, failedShowCount: nat)
      ensures (runningShowCount, failedShowCount) ==
              LineSplit(if height >= 0 then height else 0, |runningJobs|, |failedJobs|, moreRunningJobs, moreFailedJobs)
    {
      var maxFailedLines := |failedJobs|;
      var maxRunningLines := |runningJobs|;
      if moreRunningJobs {
        maxRunningLines := maxRunningLines + 1;
      }
      if moreFailedJobs {
        maxFailedLines := maxFailedLines + 1;
      }
      runningShowCount, failedShowCount := 0, 0;
      ghost var passes: nat := 0;
      while runningShowCount + failedShowCount < height
        invariant (runningShowCount, failedShowCount) == Fill(passes, |runningJobs|, |failedJobs|, moreRunningJobs, moreFailedJobs)
        invariant passes == runningShowCount + failedShowCount
        invariant passes <= height || passes == 0
        decreases height - runningShowCount - failedShowCount
      {
        passes := passes + 1;
        if runningShowCount == 0 && runningShowCount < |runningJobs| {
          runningShowCount := runningShowCount + 1;
          continue;
        }
        if failedShowCount < |failedJobs| {
          failedShowCount := failedShowCount + 1;
        } else if runningShowCount < |runningJobs| {
          runningShowCount := runningShowCount + 1;
        } else if failedShowCount < maxFailedLines {
          failedShowCount := failedShowCount + 1;
        } else if runningShowCount < maxRunningLines {
          runningShowCount := runningShowCount + 1;
        } else {
          FillSaturated(passes - 1, height, |runningJobs|, |failedJobs|, moreRunningJobs, moreFailedJobs);
          FillIsLineSplit(height, |runningJobs|, |failedJobs|, moreRunningJobs, moreFailedJobs);
          return;
        }
      }
      FillIsLineSplit(passes, |runningJobs|, |failedJobs|, moreRunningJobs, moreFailedJobs);
    }

    /** The lines of `String` (lines 78-110), in order: the running section, then the failures. */
    method Lines() returns (lines: seq<string>)
      ensures lines == PanelLines(runningJobs, moreRunningJobs, failedJobs, moreFailedJobs, if height >= 0 then height else 0)
    {
      var runningShowCount, failedShowCount := Budget();
      var running := SectionLines(runningJobs, moreRunningJobs, runningShowCount, " jobs: - ", "       - ");
      var failed := SectionLines(failedJobs, moreFailedJobs, failedShowCount, " failures: - ", "         - ");
      lines := running + failed;
    }

    /** `String` (lines 47-113): the lines joined with line breaks. */
    method String() returns (s: string)
      ensures s == Join(PanelLines(runningJobs, moreRunningJobs, failedJobs, moreFailedJobs, if height >= 0 then height else 0), "\n")
    {
      var lines := Lines();
      s := Join(lines, "\n");
    }
  }

  /** Once a pass changes nothing, no later pass does. */
  lemma {:induction false} FillSaturated(k: nat, t: int, running: nat, failed: nat, moreRunning: bool, moreFailed: bool)
    requires k <= t
    requires Fill(k + 1, running, failed, moreRunning, moreFailed) == Fill(k, running, failed, moreRunning, moreFailed)
    ensures Fill(t, running, failed, moreRunning, moreFailed) == Fill(k, running, failed, moreRunning, moreFailed)
    decreases t - k
  {
    if t > k + 1 {
      FillSaturated(k + 1, t, running, failed, moreRunning, moreFailed);
    }
  }

  /**
   * One list of `String` (the loops of lines 79-94 and 95-110): a titled
   * line per item while budget lasts, then "..." if budget is left and more
   * items exist.
   */
  method SectionLines(items: seq<string>, more: bool, count: nat, first: string, rest: string) returns (lines: seq<string>)
    ensures lines == Section(items, more, count, first, rest)
  {
    lines := [];
    if count > 0 && |items| > 0 {
      var left := count;
      for idx := 0 to |items|
        invariant left == count - Min(idx, count)
        invariant lines == Titled(items[..Min(idx, count)], first, rest)
      {
        if left == 0 {
          break;
        }
        var line := if idx == 0 then first + items[idx] else rest + items[idx];
        assert items[..idx + 1] == items[..idx] + [items[idx]];
        lines := lines + [line];
        left := left - 1;
      }
      if more && left > 0 {
        lines := lines + ["       ..."];
      }
    }
  }

  /** A budget that covers both lists in full gives each list all its lines. */
  lemma LineSplitFull(t: nat, running: nat, failed: nat, moreRunning: bool, moreFailed: bool)
    requires t >= running + (if moreRunning then 1 else 0) + failed + (if moreFailed then 1 else 0)
    ensures LineSplit(t, running, failed, moreRunning, moreFailed)
            == (running + (if moreRunning then 1 else 0), failed + (if moreFailed then 1 else 0))
  {
  }

  /** The "..." line a list ends with when more items exist than it shows in full. */
  function Dots(items: seq<string>, more: bool): seq<string> {
    if more && |items| > 0 then ["       ..."] else []
  }

  /** A section whose budget covers every item and its "..." line shows them all. */
  lemma SectionAll(items: seq<string>, more: bool, first: string, rest: string)
    ensures Section(items, more, |items| + (if more then 1 else 0), first, rest) == Titled(items, first, rest) + Dots(items, more)
  {
    assert items[..|items|] == items;
  }

  /** The panel's lines for a budget of `t` lines: both sections, running jobs first. */
  function PanelLines(runningJobs: seq<string>, moreRunning: bool, failedJobs: seq<string>, moreFailed: bool, t: nat): seq<string> {
    var split := LineSplit(t, |runningJobs|, |failedJobs|, moreRunning, moreFailed);
    Section(runningJobs, moreRunning, split.0, " jobs: - ", "       - ")
    + Section(failedJobs, moreFailed, split.1, " failures: - ", "         - ")
  }

  /** The panel never shows more lines than its budget of `t` lines. */
  lemma PanelBound(runningJobs: seq<string>, moreRunning: bool, failedJobs: seq<string>, moreFailed: bool, t: nat)
    ensures |PanelLines(runningJobs, moreRunning, failedJobs, moreFailed, t)| <= t
  {
    var split := LineSplit(t, |runningJobs|, |failedJobs|, moreRunning, moreFailed);
    SectionFits(runningJobs, moreRunning, split.0, " jobs: - ", "       - ");
    SectionFits(failedJobs, moreFailed, split.1, " failures: - ", "         - ");
  }

  /** A budget covering both lists shows each list in full, with its "..." line. */
  lemma PanelShowsAll(runningJobs: seq<string>, moreRunning: bool, failedJobs: seq<string>, moreFailed: bool, t: nat)
    requires t >= |runningJobs| + (if moreRunning then 1 else 0) + |failedJobs| + (if moreFailed then 1 else 0)
    ensures PanelLines(runningJobs, moreRunning, failedJobs, moreFailed, t)
            == Titled(runningJobs, " jobs: - ", "       - ") + Dots(runningJobs, moreRunning)
               + (Titled(failedJobs, " failures: - ", "         - ") + Dots(failedJobs, moreFailed))
  {
    LineSplitFull(t, |runningJobs|, |failedJobs|, moreRunning, moreFailed);
    SectionAll(runningJobs, moreRunning, " jobs: - ", "       - ");
    SectionAll(failedJobs, moreFailed, " failures: - ", "         - ");
  }
}
