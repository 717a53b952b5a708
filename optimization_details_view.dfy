/**
 * The optimization details view (view/view_optimization_details.go): the
 * same two tables as the optimization details page, with a help box below
 * that gets whatever height the tables and the description leave. `esc` or
 * `left` on the device table closes the view through a callback, counted
 * here. Selecting a device as written panics when the device table has no
 * highlighted row; the corrected selection leaves the view unchanged then.
 */
module OptimizationDetailsView {
  import opened Wrappers
  import opened Text
  import opened Proto
  import opened TableColumns
  import opened ResourceDetailsPage
  import opened OptimizationDetailsPage
  import HelpView

  /** Lines 85-90: this view shows a recommendation for any item that is neither loading nor skipped. */
  predicate Recommended(item: OptimizationItem) {
    !item.loading && !item.skipped
  }

  /**
   * Lines 117-122: the usage period; a preference's value is shown through
   * its `String` rendering (`render`), the default is "7".
   */
  function ViewDays(prefs: seq<PreferenceItem>, render: string -> string): string {
    match LastPeriod(prefs)
    case None => "7"
    case Some(v) => render(v)
  }

  /** The loop of lines 117-122. */
  method ViewDaysLabel(prefs: seq<PreferenceItem>, render: string -> string) returns (days: string)
    ensures days == ViewDays(prefs, render)
  {
    days := "7";
    for n := 0 to |prefs|
      invariant days == ViewDays(prefs[..n], render)
    {
      assert prefs[..n + 1][..n] == prefs[..n];
      var p := prefs[n];
      if p.key == "ObservabilityTimePeriod" && p.value.Some? {
        days := render(p.value.value);
      }
      assert prefs[..n + 1][n] == p;
    }
    assert prefs[..|prefs|] == prefs;
  }

  /** The lines of the view's help box (lines 147-154). */
  const HelpLines: seq<string> := ["↑/↓: move", "esc/←: back to ec2 instance list", "q/ctrl+c: exit"]

  /** The messages the view reacts to: a new width, a key, anything else. */
  datatype ViewMsg = WindowSize(width: int) | Press(key: KeyName) | Other

  // ---------------------------------------------------------------- selecting a device

  /** The panic of a type assertion on a missing value. */
  const NilAssertion: string := "interface conversion: interface {} is nil, not string"

  /**
   * Lines 192-195 as written: the highlighted row's "0" value is compared
   * with the selection without checking it is there, so a missing value
   * (no highlighted row) always differs and its assertion to a string
   * panics. The result is the new selection, None when it stays.
   */
  function SelectAsWritten(selected: string, highlighted: Option<string>): Result<Option<string>> {
    if highlighted.None? then Err(NilAssertion)
    else if selected != highlighted.value then Ok(Some(highlighted.value))
    else Ok(None)
  }

  /**
   * Lines 192-195 as intended, with the check the details pages make: a
   * highlighted row naming another device selects it; no highlighted row,
   * or the selected one, changes nothing.
   */
  function Select(selected: string, highlighted: Option<string>): (r: Option<string>)
    ensures r.Some? <==> highlighted.Some? && highlighted.value != selected
    ensures r.Some? ==> r.value == highlighted.value
  {
    if highlighted.Some? && selected != highlighted.value then highlighted else None
  }

  /** The two agree whenever there is a highlighted row. */
  lemma SelectAgrees(selected: string, highlighted: Option<string>)
    requires highlighted.Some?
    ensures SelectAsWritten(selected, highlighted) == Ok(Select(selected, highlighted))
  {
  }

  /**
   * The discrepancy: for an item without devices the device table has no
   * rows, hence no highlighted row, and the first message panics as
   * written, while the intended selection keeps the view as it is.
   */
  lemma NoDevicesPanics(item: OptimizationItem, money: int -> string)
    requires item.devices == []
    ensures ShortDeviceRows(item.devices, money, Recommended(item)) == []
    ensures SelectAsWritten("", None).Err?
    ensures Select("", None).None?
  {
  }

  // ---------------------------------------------------------------- the view

  class OptimizationDetailsView {
    const item: OptimizationItem
    var closes: nat
    var deviceTable: Table<Row>
    var detailTable: Table<Row>
    var deviceProperties: map<string, seq<Row>>
    var width: int
    var height: int
    var selectedDevice: string
    var detailTableHasFocus: bool
    var quit: bool
    const help: HelpView.HelpView

    /**
     * `NewOptimizationDetailsView` (lines 84-156): the device table with a
     * row per device, an empty details table, the properties of every device
     * and a help box of height 0; `money` formats a cost and `render` shows
     * a preference value.
     */
    constructor(item: OptimizationItem, money: int -> string, render: string -> string)
      ensures this.item == item && closes == 0 && width == 0 && height == 0
      ensures deviceTable == Table(ShortDeviceColumns, ShortDeviceRows(item.devices, money, Recommended(item)), |item.devices|)
      ensures detailTable == Table(FiveDetailColumns(ViewDays(item.preferences, render)), [], 1)
      ensures deviceProperties == ExtractProperties(item.devices, FiveColumns(false))
      ensures fresh(help) && help.lines == HelpLines && help.height == 0
      ensures selectedDevice == "" && !detailTableHasFocus && !quit
    {
      var recommended := !item.loading && !item.skipped;
      var rows := ShortDeviceRows(item.devices, money, recommended);
      var days := ViewDaysLabel(item.preferences, render);
      var properties := PropertiesOf(item.devices, FiveColumns(false));
      this.item := item;
      closes, width, height := 0, 0, 0;
      detailTable := Table(FiveDetailColumns(days), [], 1);
      deviceTable := Table(ShortDeviceColumns, rows, |rows|);
      deviceProperties := properties;
      help := new HelpView.HelpView(HelpLines);
      selectedDevice, detailTableHasFocus, quit := "", false, false;
    }

    /**
     * `MinHeight` (lines 218-221): both tables' rows with four lines of
     * frame each, the help box's minimum and the wrapped description's lines.
     */
    function MinHeight(wrappedDescription: string): int
      reads this, help
    {
      |detailTable.rows| + 4 + |deviceTable.rows| + 4 + help.MinHeight() + LineCount(wrappedDescription)
    }

    /** `IsResponsive` (lines 208-210). */
    predicate IsResponsive(wrappedDescription: string)
      reads this, help
    {
      height >= MinHeight(wrappedDescription)
    }

    /**
     * `SetHeight` (lines 212-216): the help box gets the lines the tables and
     * the description leave, so the view fits exactly when the help box does.
     */
    method SetHeight(h: int, wrappedDescription: string)
      modifies this, help
      ensures height == h && help.lines == old(help.lines)
      ensures help.height == h - (MinHeight(wrappedDescription) - help.MinHeight())
      ensures IsResponsive(wrappedDescription) <==> help.IsResponsive()
      ensures deviceTable == old(deviceTable) && detailTable == old(detailTable) && width == old(width)
      ensures deviceProperties == old(deviceProperties) && selectedDevice == old(selectedDevice)
      ensures detailTableHasFocus == old(detailTableHasFocus) && closes == old(closes) && quit == old(quit)
    {
      var l := LineCount(wrappedDescription);
      height := h;
      help.SetHeight(height - (|detailTable.rows| + 4 + |deviceTable.rows| + 4 + l));
    }

    /** Lines 168-184: `q` quits, `enter` focuses the details table, `esc`/`left` unfocus it or close the view. */
    method PressKey(key: KeyName)
      modifies this
      ensures quit == (old(quit) || key == Quit)
      ensures detailTableHasFocus == if key == Enter then true else if key in {Esc, Left} then false else old(detailTableHasFocus)
      ensures closes == if key in {Esc, Left} && !old(detailTableHasFocus) then old(closes) + 1 else old(closes)
      ensures deviceTable == old(deviceTable) && detailTable == old(detailTable) && width == old(width) && height == old(height)
      ensures deviceProperties == old(deviceProperties) && selectedDevice == old(selectedDevice)
    {
      if key == Quit {
        quit := true;
      } else if key == Enter {
        detailTableHasFocus := true;
      } else if key == Esc || key == Left {
        if detailTableHasFocus {
          detailTableHasFocus := false;
        } else {
          closes := closes + 1;
        }
      }
    }

    /**
     * Lines 192-197, corrected: a newly highlighted device brings its
     * property rows, one page for all of them, and the help box is resized.
     */
    method SelectDevice(highlighted: Option<string>, wrappedDescription: string)
      modifies this, help
      ensures Select(old(selectedDevice), highlighted).Some? ==>
                var rows := if highlighted.value in deviceProperties then deviceProperties[highlighted.value] else [];
                selectedDevice == highlighted.value && detailTable == old(detailTable).(rows := rows, pageSize := |rows|) &&
                help.height == height - (MinHeight(wrappedDescription) - help.MinHeight())
      ensures Select(old(selectedDevice), highlighted).None? ==>
                selectedDevice == old(selectedDevice) && detailTable == old(detailTable) && help.height == old(help.height)
      ensures deviceTable == old(deviceTable) && deviceProperties == old(deviceProperties) && height == old(height)
      ensures width == old(width) && detailTableHasFocus == old(detailTableHasFocus) && closes == old(closes) && quit == old(quit)
    {
      var next := Select(selectedDevice, highlighted);
      if next.Some? {
        selectedDevice := next.value;
        var rows := if selectedDevice in deviceProperties then deviceProperties[selectedDevice] else [];
        detailTable := detailTable.(rows := rows, pageSize := |rows|);
        SetHeight(height, wrappedDescription);
      }
    }

    /**
     * `Update` (lines 160-199). The text under "0" of the device table's
     * highlighted row after the message (None when there is no row) and the
     * description wrapped to the view's width are parameters; `q` ends the
     * update at once.
     */
    method Update(msg: ViewMsg, highlighted: Option<string>, wrappedDescription: string)
      modifies this, help
      ensures quit == (old(quit) || msg == Press(Quit))
      ensures msg.WindowSize? ==> width == msg.width
      ensures msg != Press(Quit) && Select(old(selectedDevice), highlighted).Some? ==>
                selectedDevice == highlighted.value &&
                detailTable.rows == (if selectedDevice in deviceProperties then deviceProperties[selectedDevice] else [])
      ensures msg != Press(Quit) && (msg.WindowSize? || Select(old(selectedDevice), highlighted).Some?) ==>
                help.height == height - (MinHeight(wrappedDescription) - help.MinHeight())
      ensures deviceTable == old(deviceTable) && deviceProperties == old(deviceProperties) && height == old(height)
    {
      if msg.WindowSize? {
        width := msg.width;
        SetHeight(height, wrappedDescription);
      } else if msg.Press? {
        PressKey(msg.key);
        if msg.key == Quit {
          return;
        }
      }
      SelectDevice(highlighted, wrappedDescription);
    }
  }
}
