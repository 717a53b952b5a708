/**
 * The page switcher of view/app.go. The app keeps a history of page
 * indices: changing page pushes the current one, Esc pops back to the last
 * one unless Esc is being ignored (a page's filter box is open). Ctrl+J
 * jumps to the jobs page and Ctrl+C quits, except on the contact page,
 * which gets every key itself. Window heights below 20 are raised to 20.
 * The pages themselves are outside this module: what the app does to them
 * is recorded as a log of page events, in order.
 */
module App {
  const PageOverview: int := 0
  const PageResourceDetails: int := 1
  const PagePreferences: int := 2
  const PageJobs: int := 3
  const PageContactUs: int := 4
  const PageCount: int := 5

  /** The smallest window height the app passes on. */
  const MinWindowHeight: int := 20

  datatype Msg = WindowSize(width: int, height: int) | Key(name: string) | Tick

  /** What the app does to a page: close it, open it, size it, hand it a message. */
  datatype PageEvent = Closed(page: int) | Opened(page: int) | Sized(page: int, width: int, height: int) | Delivered(page: int, msg: Msg)

  datatype State = State(history: seq<int>, active: int, width: int, height: int, ignoreEsc: bool, quit: bool, events: seq<PageEvent>)

  predicate ValidPage(p: int) {
    0 <= p < PageCount
  }

  /** The active page and every page in the history exist. */
  predicate Good(s: State) {
    ValidPage(s.active) && forall i :: 0 <= i < |s.history| ==> ValidPage(s.history[i])
  }

  /** `ChangePage` (lines 79-98): the current page is pushed, closed, and the new one opened and sized. */
  function ChangedPage(s: State, id: int): (r: State)
    ensures r.history == s.history + [s.active] && r.active == id
    ensures r.width == s.width && r.height == s.height && r.ignoreEsc == s.ignoreEsc && r.quit == s.quit
    ensures Good(s) && ValidPage(id) ==> Good(r)
  {
    s.(history := s.history + [s.active], active := id,
       events := s.events + [Closed(s.active), Opened(id), Sized(id, s.width, s.height)])
  }

  /** Lines 134-155: Esc goes back to the last page in the history, if Esc is not ignored and there is one. */
  function EscPressed(s: State): (r: State)
    ensures s.ignoreEsc || s.history == [] ==> r == s
    ensures !s.ignoreEsc && s.history != [] ==>
              r.history == s.history[..|s.history| - 1] && r.active == s.history[|s.history| - 1]
    ensures Good(s) ==> Good(r)
  {
    if !s.ignoreEsc && |s.history| > 0 then
      var l := |s.history|;
      var page := s.history[l - 1];
      s.(history := s.history[..l - 1], active := page,
         events := s.events + [Closed(s.active), Opened(page), Sized(page, s.width, s.height)])
    else s
  }

  /** Lines 109-124: the window size, with the height raised to at least 20, is stored and given to the active page. */
  function Resized(s: State, width: int, height: int): (r: State)
    ensures r.height >= MinWindowHeight && (height >= MinWindowHeight ==> r.height == height)
    ensures r.width == width && r.history == s.history && r.active == s.active
  {
    var h := if height < MinWindowHeight then MinWindowHeight else height;
    s.(height := h, width := width, events := s.events + [Sized(s.active, width, h)])
  }

  /** `Update` (lines 105-168) as a step on the app's state. */
  function Step(s: State, msg: Msg): (r: State)
    ensures Good(s) ==> Good(r)
    ensures r.ignoreEsc == s.ignoreEsc
  {
    var s1 := if msg.WindowSize? then Resized(s, msg.width, msg.height) else s;
    if s1.active != PageContactUs && msg == Key("ctrl+c") then s1.(quit := true)
    else
      var s2 :=
        if s1.active != PageContactUs && msg == Key("ctrl+j") then ChangedPage(s1, PageJobs)
        else if s1.active != PageContactUs && msg == Key("esc") then EscPressed(s1)
        else s1;
      s2.(events := s2.events + [Delivered(s2.active, msg)])
  }

  /** Changing page and pressing Esc comes back to the same page with the same history. */
  lemma EscUndoesChangePage(s: State, id: int)
    requires id != PageContactUs && !s.ignoreEsc
    ensures Step(ChangedPage(s, id), Key("esc")).active == s.active
    ensures Step(ChangedPage(s, id), Key("esc")).history == s.history
  {
    var c := ChangedPage(s, id);
    assert c.history[..|c.history| - 1] == s.history;
  }

  /** Ctrl+J opens the jobs page from any page but the contact page, remembering where it came from. */
  lemma CtrlJOpensJobs(s: State)
    requires s.active != PageContactUs
    ensures Step(s, Key("ctrl+j")).active == PageJobs
    ensures Step(s, Key("ctrl+j")).history == s.history + [s.active]
    ensures !Step(s, Key("ctrl+j")).quit || s.quit
  {
  }

  /** On the contact page every key, Ctrl+C, Ctrl+J and Esc included, only reaches the page. */
  lemma ContactUsKeepsKeys(s: State, name: string)
    requires s.active == PageContactUs
    ensures Step(s, Key(name)) == s.(events := s.events + [Delivered(PageContactUs, Key(name))])
  {
  }

  /** While Esc is ignored, or with nothing to go back to, Esc only reaches the active page. */
  lemma EscIgnored(s: State)
    requires s.ignoreEsc || s.history == []
    ensures Step(s, Key("esc")) == s.(events := s.events + [Delivered(s.active, Key("esc"))])
  {
  }

  /** Ctrl+C quits without the page seeing the key, except on the contact page. */
  lemma CtrlCQuits(s: State)
    requires s.active != PageContactUs
    ensures Step(s, Key("ctrl+c")) == s.(quit := true)
  {
  }

  /**
   * A resize stores at least 20 rows, but the page is then handed the
   * message as it arrived: the raised height is written to a copy of the
   * message only.
   */
  lemma ResizeDeliversOriginal(s: State, w: int, h: int)
    ensures var r := Step(s, WindowSize(w, h));
            r.height == (if h < MinWindowHeight then MinWindowHeight else h) && r.width == w &&
            r.events[|r.events| - 1] == Delivered(s.active, WindowSize(w, h)) &&
            r.events[|r.events| - 2] == Sized(s.active, w, r.height)
  {
  }

  class App {
    var history: seq<int>
    var activePageIdx: int
    var width: int
    var height: int
    var ignoreESC: bool
    var quit: bool
    var events: seq<PageEvent>

    function AppState(): State
      reads this
    {
      State(history, activePageIdx, width, height, ignoreESC, quit, events)
    }

    /** `NewApp` (lines 39-57): the overview page active, nothing in the history. */
    constructor()
      ensures AppState() == State([], PageOverview, 0, 0, false, false, [])
      ensures Good(AppState())
    {
      history, activePageIdx, width, height := [], PageOverview, 0, 0;
      ignoreESC, quit, events := false, false, [];
    }

    /** `ChangePage` (lines 79-98). */
    method ChangePage(id: int)
      modifies this
      ensures AppState() == ChangedPage(old(AppState()), id)
    {
      history := history + [activePageIdx];
      events := events + [Closed(activePageIdx)];
      activePageIdx := id;
      events := events + [Opened(activePageIdx), Sized(activePageIdx, width, height)];
    }

    /** `Init` (lines 100-103): the overview page is opened through `ChangePage`, so the starting page is pushed. */
    method Init()
      modifies this
      ensures AppState() == ChangedPage(old(AppState()), PageOverview)
    {
      ChangePage(PageOverview);
    }

    /** `SetIgnoreEsc` (lines 174-176). */
    method SetIgnoreEsc(b: bool)
      modifies this
      ensures AppState() == old(AppState()).(ignoreEsc := b)
    {
      ignoreESC := b;
    }

    /** `Update` (lines 105-168). */
    method Update(msg: Msg)
      modifies this
      ensures AppState() == Step(old(AppState()), msg)
    {
      if msg.WindowSize? {
        var h := msg.height;
        if h < MinWindowHeight {
          h := MinWindowHeight;
        }
        height := h;
        width := msg.width;
        events := events + [Sized(activePageIdx, width, height)];
      }
      if activePageIdx != PageContactUs && msg.Key? {
        if msg.name == "ctrl+c" {
          quit := true;
          return;
        } else if msg.name == "ctrl+j" {
          ChangePage(PageJobs);
        } else if msg.name == "esc" {
          if !ignoreESC && |history| > 0 {
            var l := |history|;
            var page := history[l - 1];
            history := history[..l - 1];
            events := events + [Closed(activePageIdx)];
            activePageIdx := page;
            events := events + [Opened(activePageIdx), Sized(activePageIdx, width, height)];
          }
        }
      }
      var currentPageIdx := activePageIdx;
      events := events + [Delivered(currentPageIdx, msg)];
    }
  }
}
