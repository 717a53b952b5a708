/**
 * The status bar of view/view_statusbar.go: a jobs segment, the help
 * lines wrapped to the terminal's width, the status error and the first
 * failed job. Go's `len` counts a string's UTF-8 bytes, so widths are byte
 * counts. The lipgloss styles are functions on the text they render and
 * the spinner's current frame is a parameter.
 */
module StatusBar {
  import opened Wrappers
  import opened Text
  import opened GoMap
  import Hash
  import JobsController

  /** The jobs, the two alternating help and the error styles. */
  datatype Styles = Styles(jobs: string -> string, info: string -> string, info2: string -> string, error: string -> string)

  datatype Msg = WindowSize(width: int) | Tick | Other

  /** The bar is a value: `Update` returns a changed copy (lines 12-19). */
  datatype StatusBarView = StatusBarView(initialization: bool, content: string, width: int)

  /** Go's `len` on a string. */
  function ByteLen(s: string): nat { |Hash.Utf8(s)| }

  /** An ASCII string is as many bytes wide as it has characters. */
  lemma ByteLenAscii(s: string)
    requires Hash.IsAscii(s)
    ensures ByteLen(s) == |s|
  {
    Hash.Utf8Ascii(s);
  }

  /**
   * Lines 43-52: the running-jobs segment when jobs are running, otherwise
   * the initializing segment while the initialization flag is set.
   */
  function JobsSegment(running: int, initialization: bool, spinner: string): (r: Option<string>)
    ensures r.Some? <==> running > 0 || initialization
    ensures running > 0 ==> r.value == " " + spinner + " running " + IntToString(running) + " jobs, press ctrl+j to see list of jobs "
    ensures running <= 0 && initialization ==> r.value == " " + spinner + " initializing "
  {
    if running > 0 then Some(" " + spinner + " running " + IntToString(running) + " jobs, press ctrl+j to see list of jobs ")
    else if initialization then Some(" " + spinner + " initializing ")
    else None
  }

  /** A help line as the loop pads it (line 55). */
  function Padded(line: string): string { " " + line + " " }

  /**
   * The loop's breaks over the help lines (lines 54-67), starting from a
   * row `w0` bytes wide: a line is preceded by a break when the running
   * width passes `width`. After a break the counter restarts at 0 when
   * `carry` is false, as line 59 does, and at the line's own width when it
   * is true. The second result is the counter at the end.
   */
  function Breaks(help: seq<string>, w0: int, width: int, carry: bool): (r: (seq<bool>, int))
    ensures |r.0| == |help|
  {
    if help == [] then ([], w0)
    else
      var (bs, w) := Breaks(help[..|help| - 1], w0, width, carry);
      var len := ByteLen(Padded(help[|help| - 1]));
      if w + len > width then (bs + [true], if carry then len else 0) else (bs + [false], w + len)
  }

  /** The width in bytes of the last row when the lines are placed with breaks `bs` after a row `w0` wide. */
  function LastRowWidth(help: seq<string>, bs: seq<bool>, w0: int): int
    requires |bs| == |help|
  {
    if help == [] then w0
    else if bs[|bs| - 1] then ByteLen(Padded(help[|help| - 1]))
    else LastRowWidth(help[..|help| - 1], bs[..|bs| - 1], w0) + ByteLen(Padded(help[|help| - 1]))
  }

  /** The breaks for a prefix of the lines are a prefix of the breaks. */
  lemma {:induction false} BreaksPrefix(help: seq<string>, w0: int, width: int, carry: bool, n: nat)
    requires n <= |help|
    ensures Breaks(help[..n], w0, width, carry).0 == Breaks(help, w0, width, carry).0[..n]
  {
    if n < |help| {
      var init := help[..|help| - 1];
      BreaksPrefix(init, w0, width, carry, n);
      assert init[..n] == help[..n];
    } else {
      assert help[..n] == help;
    }
  }

  /** With the counter carried over a break, it is the last row's width. */
  lemma {:induction false} BreaksTrackRow(help: seq<string>, w0: int, width: int)
    ensures Breaks(help, w0, width, true).1 == LastRowWidth(help, Breaks(help, w0, width, true).0, w0)
  {
    if help != [] {
      var init := help[..|help| - 1];
      BreaksTrackRow(init, w0, width);
      var bs := Breaks(help, w0, width, true).0;
      assert bs[..|bs| - 1] == Breaks(init, w0, width, true).0;
    }
  }

  /**
   * With the counter carried over a break, no row of help lines is wider
   * than the bar when no single line is: every row ends some prefix.
   */
  lemma RowsFit(help: seq<string>, w0: int, width: int)
    requires forall i :: 0 <= i < |help| ==> ByteLen(Padded(help[i])) <= width
    ensures forall n :: 1 <= n <= |help| ==>
              LastRowWidth(help[..n], Breaks(help, w0, width, true).0[..n], w0) <= width
  {
    forall n | 1 <= n <= |help|
      ensures LastRowWidth(help[..n], Breaks(help, w0, width, true).0[..n], w0) <= width
    {
      BreaksPrefix(help, w0, width, true, n);
      BreaksTrackRow(help[..n], w0, width);
      assert help[..n][n - 1] == help[n - 1];
    }
  }

  /** One more help line. */
  lemma BreaksSnoc(help: seq<string>, line: string, w0: int, width: int, carry: bool)
    ensures var (bs, w) := Breaks(help, w0, width, carry);
            var len := ByteLen(Padded(line));
            Breaks(help + [line], w0, width, carry) ==
              if w + len > width then (bs + [true], if carry then len else 0) else (bs + [false], w + len)
  {
    assert (help + [line])[..|help|] == help;
  }

  /**
   * As written, the counter restarts at 0 after a break, so the line that
   * caused the break is not counted: three help lines 10 bytes wide once
   * padded, on a 10-byte bar, give a second row of 20 bytes; a bar that
   * carries the counter breaks before the third line.
   */
  lemma AsWrittenOverflows(x: string)
    requires ByteLen(Padded(x)) == 10
    ensures Breaks([x, x, x], 0, 10, false).0 == [false, true, false]
    ensures LastRowWidth([x, x, x], Breaks([x, x, x], 0, 10, false).0, 0) == 20
    ensures Breaks([x, x, x], 0, 10, true).0 == [false, true, true]
  {
    var h1, h2, h3 := [x], [x, x], [x, x, x];
    assert h1 == [] + [x] && h2 == h1 + [x] && h3 == h2 + [x];
    BreaksSnoc([], x, 0, 10, false);
    BreaksSnoc(h1, x, 0, 10, false);
    BreaksSnoc(h2, x, 0, 10, false);
    BreaksSnoc([], x, 0, 10, true);
    BreaksSnoc(h1, x, 0, 10, true);
    BreaksSnoc(h2, x, 0, 10, true);
    assert Breaks(h2, 0, 10, false).0 == [false, true];
    assert h3[..2] == h2 && h2[..1] == h1;
  }

  /** An eight-letter ASCII help line is 10 bytes wide once padded. */
  lemma EightLetterLine()
    ensures ByteLen(Padded("abcdefgh")) == 10
  {
    assert Hash.IsAscii(Padded("abcdefgh"));
    ByteLenAscii(Padded("abcdefgh"));
  }

  /** Help line `idx` in the style its parity selects (lines 62-66). */
  function Styled(st: Styles, idx: int, line: string): string {
    if idx % 2 == 0 then st.info(line) else st.info2(line)
  }

  /** The segments after `head`: each help line styled, with a "\n" before each line `bs` breaks before. */
  function HelpSegments(head: seq<string>, help: seq<string>, bs: seq<bool>, st: Styles): (segs: seq<string>)
    requires |bs| == |help|
  {
    if help == [] then head
    else
      var k := |help| - 1;
      HelpSegments(head, help[..k], bs[..k], st) + (if bs[k] then ["\n"] else []) + [Styled(st, k, Padded(help[k]))]
  }

  /** `strings.Join(parts, "")`. */
  function Concat(parts: seq<string>): string {
    if parts == [] then "" else Concat(parts[..|parts| - 1]) + parts[|parts| - 1]
  }

  /** The number of breaks. */
  function CountBreaks(bs: seq<bool>): nat {
    if bs == [] then 0 else CountBreaks(bs[..|bs| - 1]) + if bs[|bs| - 1] then 1 else 0
  }

  /** Styles that never render a line break. */
  ghost predicate NoNewlines(st: Styles) {
    forall s :: '\n' !in st.jobs(s) && '\n' !in st.info(s) && '\n' !in st.info2(s) && '\n' !in st.error(s)
  }

  /** Concatenating one more part. */
  lemma ConcatSnoc(parts: seq<string>, s: string)
    ensures Concat(parts + [s]) == Concat(parts) + s
  {
    assert (parts + [s])[..|parts|] == parts;
  }

  /** The help text holds one "\n" per break when the styles and the head add none. */
  lemma {:induction false} HelpSegmentsNewlines(head: seq<string>, help: seq<string>, bs: seq<bool>, st: Styles)
    requires |bs| == |help| && NoNewlines(st) && CountChar(Concat(head), '\n') == 0
    ensures CountChar(Concat(HelpSegments(head, help, bs, st)), '\n') == CountBreaks(bs)
  {
    if help != [] {
      var k := |help| - 1;
      var before := HelpSegments(head, help[..k], bs[..k], st);
      var s := Styled(st, k, Padded(help[k]));
      assert '\n' !in s;
      HelpSegmentsNewlines(head, help[..k], bs[..k], st);
      var mid := if bs[k] then before + ["\n"] else before;
      if bs[k] {
        ConcatSnoc(before, "\n");
        CountCharAppend(Concat(before), "\n", '\n');
      }
      assert HelpSegments(head, help, bs, st) == mid + [s];
      ConcatSnoc(mid, s);
      CountCharAppend(Concat(mid), s, '\n');
    }
  }

  /** The error line for a non-empty status error (lines 70-72). */
  function ErrorLine(err: string, st: Styles): string {
    if |err| > 0 then st.error(TrimSpace(err)) + "\n" else ""
  }

  /** The line for the first failed job, if any (lines 73-75). */
  function FailedLine(firstFailed: Option<string>, st: Styles): string {
    if firstFailed.Some? then st.error("failed job: " + firstFailed.value + ", press ctrl+j to see more") + "\n" else ""
  }

  /** The first row's width before the help lines: the jobs segment's. */
  function StartWidth(segment: Option<string>): nat {
    if segment.Some? then ByteLen(segment.value) else 0
  }

  /**
   * The bar's text (lines 35-76) for a width, a running-job count, the
   * first failed job, the status error and the help lines, with the help
   * counter carried over breaks.
   */
  function Content(initialization: bool, width: int, running: int, firstFailed: Option<string>, err: string,
                   help: seq<string>, st: Styles, spinner: string): string
  {
    var segment := JobsSegment(running, initialization, spinner);
    var bs := Breaks(help, StartWidth(segment), width, true).0;
    Concat(HelpSegments(Head(segment, st), help, bs, st)) + "\n" + ErrorLine(err, st) + FailedLine(firstFailed, st)
  }

  /** The styled jobs segment, if any, that the help segments follow. */
  function Head(segment: Option<string>, st: Styles): seq<string> {
    if segment.Some? then [st.jobs(segment.value)] else []
  }

  /** `Height` (lines 91-93). */
  function Height(v: StatusBarView): (h: int)
    ensures h >= 1
  {
    CountChar(v.content, '\n') + 1
  }

  /** Each of the two closing lines holds one "\n" when present and the error style adds none. */
  lemma ClosingNewlines(err: string, firstFailed: Option<string>, st: Styles)
    requires NoNewlines(st)
    ensures CountChar(ErrorLine(err, st), '\n') == if |err| > 0 then 1 else 0
    ensures CountChar(FailedLine(firstFailed, st), '\n') == if firstFailed.Some? then 1 else 0
  {
    if |err| > 0 {
      CountCharAppend(st.error(TrimSpace(err)), "\n", '\n');
    }
    if firstFailed.Some? {
      CountCharAppend(st.error("failed job: " + firstFailed.value + ", press ctrl+j to see more"), "\n", '\n');
    }
  }

  /**
   * The bar is two lines high, plus one per help break, one for a status
   * error and one for a failed job, when no style renders a line break.
   */
  lemma ContentHeight(initialization: bool, width: int, running: int, firstFailed: Option<string>, err: string,
                      help: seq<string>, st: Styles, spinner: string)
    requires NoNewlines(st)
    ensures var segment := JobsSegment(running, initialization, spinner);
            Height(StatusBarView(initialization, Content(initialization, width, running, firstFailed, err, help, st, spinner), width)) ==
              2 + CountBreaks(Breaks(help, StartWidth(segment), width, true).0) +
              (if |err| > 0 then 1 else 0) + (if firstFailed.Some? then 1 else 0)
  {
    var segment := JobsSegment(running, initialization, spinner);
    var bs := Breaks(help, StartWidth(segment), width, true).0;
    var head := Head(segment, st);
    assert CountChar(Concat(head), '\n') == 0 by {
      if segment.Some? {
        assert head[..0] == [];
      }
    }
    HelpSegmentsNewlines(head, help, bs, st);
    var text := Concat(HelpSegments(head, help, bs, st));
    ClosingNewlines(err, firstFailed, st);
    CountCharAppend(text, "\n", '\n');
    CountCharAppend(text + "\n", ErrorLine(err, st), '\n');
    CountCharAppend(text + "\n" + ErrorLine(err, st), FailedLine(firstFailed, st), '\n');
  }

  /** The help loop (lines 54-67), with the counter carried over breaks. */
  method WrapHelp(head: seq<string>, help: seq<string>, w0: int, width: int, st: Styles) returns (helpLines: seq<string>)
    ensures helpLines == HelpSegments(head, help, Breaks(help, w0, width, true).0, st)
  {
    var w := w0;
    helpLines := head;
    ghost var bs: seq<bool> := [];
    for idx := 0 to |help|
      invariant (bs, w) == Breaks(help[..idx], w0, width, true)
      invariant helpLines == HelpSegments(head, help[..idx], bs, st)
    {
      assert help[..idx + 1][..idx] == help[..idx];
      var line := Padded(help[idx]);
      w := w + ByteLen(line);
      var brk := w > width;
      if brk {
        helpLines := helpLines + ["\n"];
        w := ByteLen(line);
      }
      helpLines := helpLines + [Styled(st, idx, line)];
      bs := bs + [brk];
      assert (bs[..idx], bs[idx]) == (Breaks(help[..idx], w0, width, true).0, brk);
    }
    assert help[..|help|] == help;
  }

  /**
   * `Update` (lines 29-86): a resize sets the width, then the text is
   * rebuilt from the jobs controller's lists and error and the help lines.
   * The spinner's animation is not modelled: its current frame is
   * `spinner`.
   */
  method Update(v: StatusBarView, msg: Msg, jobs: JobsController.Jobs, help: seq<string>, st: Styles, spinner: string)
    returns (r: StatusBarView)
    ensures r.initialization == v.initialization
    ensures r.width == if msg.WindowSize? then msg.width else v.width
    ensures exists failed :: Sorted(failed) && ListsValues(failed, jobs.failedJobsMap) && |failed| == |jobs.failedJobsMap| &&
              r.content == Content(r.initialization, r.width, |jobs.runningJobsMap|, if failed == [] then None else Some(failed[0]),
                                   jobs.statusErr, help, st, spinner)
  {
    var width := if msg.WindowSize? then msg.width else v.width;
    var failedJobs := jobs.FailedJobs();
    var running := jobs.RunningJobs();
    var runningCount, failedCount := |running|, |failedJobs|;
    var segment := JobsSegment(runningCount, v.initialization, spinner);
    var helpLines := WrapHelp(Head(segment, st), help, StartWidth(segment), width, st);
    var firstFailed := if failedCount > 0 then Some(failedJobs[0]) else None;
    var content := Concat(helpLines) + "\n" + ErrorLine(jobs.statusErr, st) + FailedLine(firstFailed, st);
    r := StatusBarView(v.initialization, content, width);
  }

  /** `View` (lines 87-89). */
  function View(v: StatusBarView): (s: string)
    ensures Height(v) == CountChar(s, '\n') + 1
  {
    v.content
  }
}
