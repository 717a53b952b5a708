/**
 * The preference editor of the optimize command
 * (cmd/optimize/view/preferences_configuration.go): the same preference
 * lines as the page editor, plus a service filter switched with
 * Ctrl+Right/Ctrl+Left, a close callback that receives the edited
 * preferences on Esc, and height arithmetic that gives the help footer
 * whatever the lines leave. The close callback is modelled as a log of the
 * preference lists it was called with.
 */
module PreferencesConfiguration {
  import opened Wrappers
  import opened Proto
  import opened Cycling
  import opened PreferenceItemView
  import opened PreferenceLines

  /** The help lines (lines 55-63). */
  const HelpLines: seq<string> := [
    "↑/↓: move",
    "enter: next field",
    "←/→: prev/next value (for fields with specific values)",
    "ctrl + ←/→: prev/next change service filter",
    "esc: apply and exit",
    "tab: pin/unpin value to current ec2 instance",
    "ctrl+c: exit"]

  /** The messages `Update` handles; `ItemKey` stands for every key the editor passes on to the focused line. */
  datatype Msg = WindowSize(width: int) | Escape | Enter | Up | Down | CtrlRight | CtrlLeft | ItemKey(k: Key) | ErrMsg(e: string)

  /** Key messages, after which only the focused line has focus. */
  predicate IsKeyMsg(msg: Msg) {
    !msg.WindowSize? && !msg.ErrMsg? && !msg.Escape?
  }

  /** What the focused line sees of a message: only its own keys; the rest reach its text input only. */
  function LineKey(msg: Msg): Key {
    if msg.ItemKey? then msg.k else Other
  }

  /** The filter entry after Ctrl+Right: the next one, back to "All" after the last. */
  function NextService(idx: int, len: int): (r: int)
    requires 0 <= idx < len
    ensures 0 <= r < len && r == if idx + 1 < len then idx + 1 else 0
  {
    if idx + 1 >= len then 0 else idx + 1
  }

  /** The filter entry after Ctrl+Left: the previous one, round to the last before "All". */
  function PrevService(idx: int, len: int): (r: int)
    requires 0 <= idx < len
    ensures 0 <= r < len && r == if idx == 0 then len - 1 else idx - 1
  {
    if idx - 1 < 0 then len - 1 else idx - 1
  }

  /** Lines 90-99 of `Update`: the index moved, wrapping at both ends. */
  method StepService(idx: int, len: int, forward: bool) returns (r: int)
    requires 0 <= idx < len
    ensures r == if forward then NextService(idx, len) else PrevService(idx, len)
  {
    if forward {
      r := idx + 1;
      if r >= len {
        r := 0;
      }
    } else {
      r := idx - 1;
      if r < 0 {
        r := len - 1;
      }
    }
  }

  /** Ctrl+Left undoes Ctrl+Right and the other way round. */
  lemma ServiceStepsInverse(idx: int, len: int)
    requires 0 <= idx < len
    ensures PrevService(NextService(idx, len), len) == idx
    ensures NextService(PrevService(idx, len), len) == idx
  {
  }

  /** Pressing Ctrl+Right once per entry comes back to the same filter. */
  lemma {:induction false} ServiceCycle(idx: int, len: int, k: nat)
    requires 0 <= idx < len && k <= len
    ensures Steps(idx, len, k) == if idx + k < len then idx + k else idx + k - len
    decreases k
  {
    if k > 0 {
      ServiceCycle(idx, len, k - 1);
    }
  }

  /** The filter entry after `k` presses of Ctrl+Right. */
  function Steps(idx: int, len: int, k: nat): (r: int)
    requires 0 <= idx < len
    ensures 0 <= r < len
  {
    if k == 0 then idx else NextService(Steps(idx, len, k - 1), len)
  }

  class PreferencesConfiguration {
    var focused: int
    var err: Option<string>
    var height: int
    var width: int
    var helpLines: seq<string>
    var helpHeight: int
    var serviceList: seq<string>
    var serviceIdx: int
    var items: seq<PreferenceItemView>
    /** The preference lists the close callback has been called with, oldest first. */
    var closed: seq<seq<PreferenceItem>>

    ghost predicate Valid()
      reads this, items
    {
      0 <= focused < |items| && LinesOk(items) && 0 <= serviceIdx < |serviceList|
    }

    /**
     * `NewPreferencesConfiguration` (lines 31-67): one line per preference,
     * the first focused, and the service list built from the preferences.
     * The source indexes line 0, so there must be a preference.
     */
    constructor(preferences: seq<PreferenceItem>, width: int)
      requires preferences != []
      ensures Valid()
      ensures |items| == |preferences| &&
              forall i :: 0 <= i < |items| ==>
                fresh(items[i]) && items[i].pref == Reconfigured(preferences[i], "", 0).pref &&
                items[i].valueIdx == 0 && !items[i].hidden && items[i].focused == (i == 0)
      ensures serviceList == ServiceList(preferences) && serviceIdx == 0 && focused == 0
      ensures this.width == width && height == 0 && helpLines == HelpLines && helpHeight == 0
      ensures err == None && closed == []
    {
      var its := OpenedItems(preferences);
      var services := BuildServiceList(preferences);
      items := its;
      serviceList := services;
      this.width := width;
      helpLines := HelpLines;
      helpHeight := 0;
      focused, err, height, serviceIdx, closed := 0, None, 0, 0, [];
    }

    /** `MinHeight` (lines 203-205): the lines, three more rows, and the help footer's minimum, 0. */
    function MinHeight(): (h: int)
      reads this
      ensures h == |items| + 3 && h >= 3
    {
      |items| + 3 + 0
    }

    /** `IsResponsive` (lines 194-196). */
    predicate IsResponsive()
      reads this
    {
      height >= MinHeight()
    }

    /** `SetHeight` (lines 198-201): the help footer gets what the lines and three rows leave. */
    method SetHeight(height: int)
      modifies this
      ensures this.height == height && helpHeight == height - (|items| + 3)
      ensures helpHeight + MinHeight() == height
      ensures IsResponsive() <==> helpHeight >= 0
      ensures items == old(items) && focused == old(focused) && serviceList == old(serviceList)
      ensures serviceIdx == old(serviceIdx) && closed == old(closed) && width == old(width) && err == old(err)
    {
      this.height := height;
      helpHeight := this.height - (|items| + 3);
    }

    /**
     * `Update` (lines 71-115). Esc hands the edited preferences, in line
     * order, to the close callback and stops there; an error is recorded and
     * stops there. Otherwise Enter/Down and Up move focus, Ctrl+Right and
     * Ctrl+Left switch the service filter with wrap-around, only the focused
     * line keeps focus, and the focused line sees the message. Moving focus
     * needs a shown line: with every line hidden the source never returns.
     */
    method Update(msg: Msg, edit: string -> string)
      requires Valid()
      requires msg.Enter? || msg.Up? || msg.Down? ==> SomeVisible(HiddenOf(items))
      modifies this, items
      ensures serviceList == old(serviceList) && items == old(items) && Valid()
      ensures closed == if msg.Escape? then old(closed) + [old(PrefsOf(items))] else old(closed)
      ensures err == if msg.ErrMsg? then Some(msg.e) else old(err)
      ensures width == if msg.WindowSize? then msg.width else old(width)
      ensures serviceIdx == if msg.CtrlRight? then NextService(old(serviceIdx), |serviceList|)
                            else if msg.CtrlLeft? then PrevService(old(serviceIdx), |serviceList|)
                            else old(serviceIdx)
      ensures focused == if msg.Enter? || msg.Down? then NextVisible(old(HiddenOf(items)), old(focused))
                         else if msg.Up? then PrevVisible(old(HiddenOf(items)), old(focused))
                         else old(focused)
      ensures msg.CtrlRight? || msg.CtrlLeft? ==> HiddenOf(items) == HiddenFor(old(PrefsOf(items)), serviceList[serviceIdx])
      ensures IsKeyMsg(msg) ==> forall i :: 0 <= i < |items| ==> items[i].focused == (i == focused)
      ensures msg.Escape? || msg.ErrMsg? ==>
                forall i :: 0 <= i < |items| ==>
                  items[i].pref == old(items[i].pref) && items[i].focused == old(items[i].focused) &&
                  items[i].hidden == old(items[i].hidden)
      ensures forall i :: 0 <= i < |items| && i != focused ==> items[i].pref == old(items[i].pref)
    {
      if msg.Escape? {
        var prefs := CollectPrefs(items);
        closed := closed + [prefs];
      } else if msg.ErrMsg? {
        err := Some(msg.e);
      } else if msg.WindowSize? {
        width := msg.width;
        var it := items[focused];
        it.Update(Other, edit);
      } else {
        KeyUpdate(msg, edit);
      }
    }

    /** Lines 84-106 and 113 of `Update` for a key: the key's own action, focus on one line, then the focused line's turn. */
    method KeyUpdate(msg: Msg, edit: string -> string)
      requires Valid() && IsKeyMsg(msg)
      requires msg.Enter? || msg.Up? || msg.Down? ==> SomeVisible(HiddenOf(items))
      modifies this, items
      ensures serviceList == old(serviceList) && items == old(items) && Valid()
      ensures closed == old(closed) && err == old(err) && width == old(width)
      ensures serviceIdx == if msg.CtrlRight? then NextService(old(serviceIdx), |serviceList|)
                            else if msg.CtrlLeft? then PrevService(old(serviceIdx), |serviceList|)
                            else old(serviceIdx)
      ensures focused == if msg.Enter? || msg.Down? then NextVisible(old(HiddenOf(items)), old(focused))
                         else if msg.Up? then PrevVisible(old(HiddenOf(items)), old(focused))
                         else old(focused)
      ensures msg.CtrlRight? || msg.CtrlLeft? ==> HiddenOf(items) == HiddenFor(old(PrefsOf(items)), serviceList[serviceIdx])
      ensures forall i :: 0 <= i < |items| ==> items[i].focused == (i == focused)
      ensures forall i :: 0 <= i < |items| && i != focused ==> items[i].pref == old(items[i].pref)
    {
      ghost var prefs := PrefsOf(items);
      if msg.Enter? || msg.Up? || msg.Down? {
        MoveFocus(msg);
      } else if msg.CtrlRight? || msg.CtrlLeft? {
        SwitchService(msg.CtrlRight?);
        assert HiddenOf(items) == HiddenFor(prefs, serviceList[serviceIdx]);
      }
      ghost var hidden := HiddenOf(items);
      FocusAndUpdate(items, focused, LineKey(msg), edit);
      assert HiddenOf(items) == hidden;
    }

    /** Lines 84-89 of `Update`: Enter and Down move focus forward, Up backward. */
    method MoveFocus(msg: Msg)
      requires Valid() && (msg.Enter? || msg.Up? || msg.Down?) && SomeVisible(HiddenOf(items))
      modifies this
      ensures focused == if msg.Up? then PrevVisible(old(HiddenOf(items)), old(focused))
                         else NextVisible(old(HiddenOf(items)), old(focused))
      ensures items == old(items) && serviceList == old(serviceList) && serviceIdx == old(serviceIdx) && Valid()
      ensures closed == old(closed) && err == old(err) && width == old(width)
    {
      if msg.Up? {
        focused := PrevFocus(items, focused);
      } else {
        focused := NextFocus(items, focused);
      }
    }

    /** Lines 90-101 of `Update`: the next or previous filter entry, wrapping at both ends, is applied. */
    method SwitchService(forward: bool)
      requires Valid()
      modifies this, items
      ensures serviceList == old(serviceList) && items == old(items) && Valid()
      ensures serviceIdx == if forward then NextService(old(serviceIdx), |serviceList|)
                            else PrevService(old(serviceIdx), |serviceList|)
      ensures HiddenOf(items) == HiddenFor(old(PrefsOf(items)), serviceList[serviceIdx])
      ensures focused == old(focused) && closed == old(closed) && err == old(err) && width == old(width)
      ensures forall i :: 0 <= i < |items| ==>
                items[i].pref == old(items[i].pref) && items[i].text == old(items[i].text) &&
                items[i].valueIdx == old(items[i].valueIdx) && items[i].focused == old(items[i].focused)
    {
      serviceIdx := StepService(serviceIdx, |serviceList|, forward);
      FilterByService(items, serviceList[serviceIdx]);
    }
  }
}
