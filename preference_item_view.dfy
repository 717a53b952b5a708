/**
 * One editable preference line of view/preferences_item.go: the preference,
 * the text of its input, the index of the suggested value shown, and the
 * visibility flags the page sets. The text input's own editing (typing,
 * cursor movement, suggestions) is a parameter `edit` applied to the text;
 * styling is not modelled.
 */
module PreferenceItemView {
  import opened Wrappers
  import opened Text
  import opened Proto
  import opened PreferenceValidators
  import Cycling

  /** The keys the item reacts to; every other message only reaches the input. */
  datatype Key = Tab | Right | Left | Other

  /** The input's configuration: the preference, the input text, its validator and placeholder. */
  datatype Input = Input(pref: PreferenceItem, text: string, validator: Validator, placeholder: string)

  /** The suggested-value index is 0, or a position in the suggested values. */
  predicate IndexOk(pref: PreferenceItem, valueIdx: int) {
    valueIdx == 0 || 0 <= valueIdx < |pref.possibleValues|
  }

  /** `ReconfigureInput` (lines 35-63) on values. */
  function Reconfigured(pref: PreferenceItem, text: string, valueIdx: int): (r: Input)
    requires IndexOk(pref, valueIdx)
    ensures r.pref == pref.(value := r.pref.value)
    ensures pref.pinned ==> r.pref.value.None? && r.text == "" && r.validator == PinnedValidator
    ensures !pref.pinned && |pref.possibleValues| > 0 ==>
              r.text == pref.possibleValues[valueIdx] &&
              r.pref.value == (if r.text == "" then None else Some(r.text))
    ensures !pref.pinned && |pref.possibleValues| == 0 ==>
              r.pref == pref && r.text == (if pref.value.Some? then pref.value.value else text)
    ensures !pref.pinned ==> (r.validator ==
              (if pref.isNumber then NumberValidator else if |pref.possibleValues| > 0 then PinnedValidator else NoValidator))
  {
    if pref.pinned then
      Input(pref.(value := None), "", PinnedValidator, "Pinned to current resource")
    else
      var text1 := if pref.value.Some? then pref.value.value else text;
      var (pref2, text2, validator2) :=
        if |pref.possibleValues| > 0 then
          var v := pref.possibleValues[valueIdx];
          (pref.(value := if v == "" then None else Some(v)), v, PinnedValidator)
        else (pref, text1, NoValidator);
      Input(pref2, text2, if pref.isNumber then NumberValidator else validator2, "Any")
  }

  /** The text of the input after a numeric step: the parsed number moved by `delta`, in 64-bit arithmetic. */
  function NumberStep(text: string, delta: int): (r: string)
    ensures ParseInt(r) == Some(Wrap64(ParseIntValue(text) + delta))
    ensures r == IntToString(Wrap64(ParseIntValue(text) + delta))
  {
    var n := Wrap64(ParseIntValue(text) + delta);
    ParseIntToString(n);
    IntToString(n)
  }

  /** The suggested-value index after Right: one on, back to the first after the last. */
  function NextIdx(i: int, l: int): (r: int)
    requires 0 <= i < l
    ensures 0 <= r < l && r == if i + 1 < l then i + 1 else 0
  {
    Cycling.ModBelow(i + 1, l);
    (i + 1) % l
  }

  /** The suggested-value index after Left: one back, round to the last before the first. */
  function PrevIdx(i: int, l: int): (r: int)
    requires 0 <= i < l
    ensures 0 <= r < l && r == if i == 0 then l - 1 else i - 1
  {
    if i - 1 < 0 then l - 1 else i - 1
  }

  /** Left undoes Right and Right undoes Left. */
  lemma NextPrevInverse(i: int, l: int)
    requires 0 <= i < l
    ensures PrevIdx(NextIdx(i, l), l) == i && NextIdx(PrevIdx(i, l), l) == i
  {
  }

  /** The state after a key, before the input has seen it (lines 71-115). */
  datatype Stepped = Stepped(input: Input, valueIdx: int)

  /** Right or Left on the suggested values: the neighbouring index, reconfigured (lines 83-87, 98-105). */
  function ArrowCycled(in0: Input, valueIdx: int, forward: bool): (r: Stepped)
    requires IndexOk(in0.pref, valueIdx)
    ensures IndexOk(r.input.pref, r.valueIdx)
    ensures r.input.pref.possibleValues == in0.pref.possibleValues && r.input.pref.isNumber == in0.pref.isNumber
    ensures r.input.pref.preventPinning == in0.pref.preventPinning
  {
    var l := |in0.pref.possibleValues|;
    if l > 0 then
      var i := if forward then NextIdx(valueIdx, l) else PrevIdx(valueIdx, l);
      Stepped(Reconfigured(in0.pref, in0.text, i), i)
    else Stepped(in0, valueIdx)
  }

  /** The numeric step of a number item (lines 88-95, 106-113): the text and value become the stepped number. */
  function NumberApplied(s: Stepped, delta: int): (r: Stepped)
    ensures r.valueIdx == s.valueIdx && r.input.pref == s.input.pref.(value := Some(r.input.text))
    ensures r.input.text == NumberStep(s.input.text, delta)
  {
    var t := NumberStep(s.input.text, delta);
    Stepped(s.input.(text := t, pref := s.input.pref.(value := Some(t))), s.valueIdx)
  }

  function ArrowStep(in0: Input, valueIdx: int, forward: bool): (r: Stepped)
    requires IndexOk(in0.pref, valueIdx)
    ensures IndexOk(r.input.pref, r.valueIdx)
    ensures r.input.pref.possibleValues == in0.pref.possibleValues && r.input.pref.isNumber == in0.pref.isNumber
    ensures r.input.pref.preventPinning == in0.pref.preventPinning
  {
    var s1 := ArrowCycled(in0, valueIdx, forward);
    if in0.pref.isNumber then NumberApplied(s1, if forward then 1 else -1) else s1
  }

  function KeyStep(in0: Input, valueIdx: int, key: Key): (r: Stepped)
    requires IndexOk(in0.pref, valueIdx)
    ensures IndexOk(r.input.pref, r.valueIdx)
    ensures r.input.pref.possibleValues == in0.pref.possibleValues
    ensures r.input.pref.preventPinning == in0.pref.preventPinning && r.input.pref.isNumber == in0.pref.isNumber
    ensures var l := |in0.pref.possibleValues|;
            r.valueIdx == match key
              case Tab => if in0.pref.preventPinning then valueIdx else 0
              case Right => if l > 0 then NextIdx(valueIdx, l) else valueIdx
              case Left => if l > 0 then PrevIdx(valueIdx, l) else valueIdx
              case Other => valueIdx
    ensures in0.pref.isNumber && |in0.pref.possibleValues| == 0 && (key == Right || key == Left) ==>
              r.input.text == NumberStep(in0.text, if key == Right then 1 else -1) &&
              r.input.pref.value == Some(r.input.text)
  {
    match key
      case Tab =>
        if in0.pref.preventPinning then Stepped(in0, valueIdx)
        else Stepped(Reconfigured(in0.pref.(pinned := !in0.pref.pinned), in0.text, 0), 0)
      case Right => ArrowStep(in0, valueIdx, true)
      case Left => ArrowStep(in0, valueIdx, false)
      case Other => Stepped(in0, valueIdx)
  }

  /** Tab flips the pin and returns to the first suggested value, unless pinning is prevented. */
  lemma TabTogglesPin(in0: Input, valueIdx: int)
    requires IndexOk(in0.pref, valueIdx)
    ensures var r := KeyStep(in0, valueIdx, Tab);
            if in0.pref.preventPinning then r == Stepped(in0, valueIdx)
            else r.input.pref.pinned == !in0.pref.pinned && r.valueIdx == 0
  {
  }

  /** Tab twice restores the pin and the index, and the value of an item with suggested values. */
  lemma TabTwice(in0: Input, valueIdx: int)
    requires IndexOk(in0.pref, valueIdx) && |in0.pref.possibleValues| > 0 && !in0.pref.isNumber
    ensures var once := KeyStep(in0, valueIdx, Tab);
            var twice := KeyStep(once.input, once.valueIdx, Tab);
            twice.input.pref.pinned == in0.pref.pinned &&
            (!in0.pref.preventPinning && !in0.pref.pinned ==>
               twice.input.text == in0.pref.possibleValues[0] && twice.valueIdx == 0)
  {
  }

  /** Right and Left move through the suggested values cyclically, each undoing the other. */
  lemma CycleValues(in0: Input, valueIdx: int)
    requires IndexOk(in0.pref, valueIdx) && |in0.pref.possibleValues| > 0
    ensures var l := |in0.pref.possibleValues|;
            KeyStep(in0, valueIdx, Right).valueIdx == (valueIdx + 1) % l &&
            KeyStep(in0, valueIdx, Left).valueIdx == (if valueIdx == 0 then l - 1 else valueIdx - 1)
    ensures var r := KeyStep(in0, valueIdx, Right);
            KeyStep(r.input, r.valueIdx, Left).valueIdx == valueIdx
  {
    var r := KeyStep(in0, valueIdx, Right);
    NextPrevInverse(valueIdx, |in0.pref.possibleValues|);
  }

  /**
   * A number item without suggested values steps the number up and down:
   * for text holding n below the 64-bit maximum, Right stores n + 1.
   */
  lemma NumberSteps(in0: Input, valueIdx: int, n: int)
    requires IndexOk(in0.pref, valueIdx) && |in0.pref.possibleValues| == 0 && in0.pref.isNumber
    requires ParseInt(in0.text) == Some(n)
    ensures n < MaxInt64 ==> KeyStep(in0, valueIdx, Right).input.pref.value == Some(IntToString(n + 1))
    ensures n > MinInt64 ==> KeyStep(in0, valueIdx, Left).input.pref.value == Some(IntToString(n - 1))
    ensures n == MaxInt64 ==> KeyStep(in0, valueIdx, Right).input.pref.value == Some(IntToString(MinInt64))
  {
    assert ParseIntValue(in0.text) == n;
    assert Wrap64(MaxInt64 + 1) == MinInt64;
    if n < MaxInt64 {
      assert Wrap64(n + 1) == n + 1;
    }
    if n > MinInt64 {
      assert Wrap64(n - 1) == n - 1;
    }
  }

  /** What the item stores once the input has seen the key: the value is unset exactly when the text is empty. */
  function StoredValue(text: string): (v: Option<string>)
    ensures v.None? <==> text == ""
    ensures v.Some? ==> v.value == text
  {
    if |text| > 0 then Some(text) else None
  }

  /** The label of the line (lines 132-141): the alias or key, with the service unless hidden, and the unit. */
  function Label(pref: PreferenceItem, hideService: bool): (r: string)
    ensures var name := if |pref.alias| > 0 then pref.alias else pref.key;
            var withService := if hideService then name else pref.service + ": " + name;
            withService <= r && (|pref.unit| == 0 ==> r == withService)
    ensures |pref.unit| > 0 ==> HasSuffix(r, " (" + pref.unit + ")")
  {
    var key1 := if |pref.alias| > 0 then pref.alias else pref.key;
    var key2 := if !hideService then pref.service + ": " + key1 else key1;
    var key3 := if |pref.unit| > 0 then key2 + " (" + pref.unit + ")" else key2;
    assert key2 <= key3;
    key3
  }

  const ChangeHint: string := " ←/→ to change value"

  class PreferenceItemView {
    var pref: PreferenceItem
    var text: string
    var validator: Validator
    var placeholder: string
    var valueIdx: int
    var hidden: bool
    var hideService: bool
    var focused: bool

    ghost predicate Valid()
      reads this
    {
      IndexOk(pref, valueIdx)
    }

    /** `NewPreferenceItem` (lines 22-33): an empty input configured for the preference. */
    constructor(pref: PreferenceItem)
      ensures Valid()
      ensures Input(this.pref, text, validator, placeholder) == Reconfigured(pref, "", 0)
      ensures valueIdx == 0 && !hidden && !hideService && !focused
    {
      var r := Reconfigured(pref, "", 0);
      this.pref, text, validator, placeholder := r.pref, r.text, r.validator, r.placeholder;
      valueIdx, hidden, hideService, focused := 0, false, false, false;
    }

    /** `ReconfigureInput` (lines 35-63). */
    method ReconfigureInput()
      requires Valid()
      modifies this
      ensures valueIdx == old(valueIdx) && hidden == old(hidden) && hideService == old(hideService) && focused == old(focused)
      ensures Valid()
      ensures Input(pref, text, validator, placeholder) == Reconfigured(old(pref), old(text), valueIdx)
    {
      if pref.pinned {
        placeholder := "Pinned to current resource";
        validator := PinnedValidator;
        text := "";
        pref := pref.(value := None);
      } else {
        placeholder := "Any";
        validator := NoValidator;
        if pref.value.Some? {
          text := pref.value.value;
        }
        if |pref.possibleValues| > 0 {
          text := pref.possibleValues[valueIdx];
          if pref.possibleValues[valueIdx] == "" {
            pref := pref.(value := None);
          } else {
            pref := pref.(value := Some(pref.possibleValues[valueIdx]));
          }
          validator := PinnedValidator;
        }
        if pref.isNumber {
          validator := NumberValidator;
        }
      }
    }

    /** `Update` (lines 67-124): a hidden item ignores every message. */
    method Update(key: Key, edit: string -> string)
      requires Valid()
      modifies this
      ensures Valid()
      ensures old(hidden) ==> pref == old(pref) && text == old(text) && valueIdx == old(valueIdx) &&
                              validator == old(validator) && placeholder == old(placeholder)
      ensures !old(hidden) ==>
                var s := KeyStep(Input(old(pref), old(text), old(validator), old(placeholder)), old(valueIdx), key);
                text == edit(s.input.text) && pref == s.input.pref.(value := StoredValue(text)) &&
                valueIdx == s.valueIdx && validator == s.input.validator && placeholder == s.input.placeholder
      ensures hidden == old(hidden) && hideService == old(hideService) && focused == old(focused)
    {
      if hidden {
        return;
      }
      match key {
        case Tab => TabKey();
        case Right => RightKey();
        case Left => LeftKey();
        case Other =>
      }
      text := edit(text);
      if |text| > 0 {
        pref := pref.(value := Some(text));
      } else {
        pref := pref.(value := None);
      }
    }

    /** The Tab case of `Update` (lines 74-80). */
    method TabKey()
      requires Valid()
      modifies this
      ensures hidden == old(hidden) && hideService == old(hideService) && focused == old(focused)
      ensures Valid()
      ensures Stepped(Input(pref, text, validator, placeholder), valueIdx) ==
              KeyStep(Input(old(pref), old(text), old(validator), old(placeholder)), old(valueIdx), Tab)
    {
      if !pref.preventPinning {
        pref := pref.(pinned := !pref.pinned);
        valueIdx := 0;
        ReconfigureInput();
      }
    }

    /** The Right case of `Update` (lines 82-95). */
    method RightKey()
      requires Valid()
      modifies this
      ensures hidden == old(hidden) && hideService == old(hideService) && focused == old(focused)
      ensures Valid()
      ensures Stepped(Input(pref, text, validator, placeholder), valueIdx) ==
              KeyStep(Input(old(pref), old(text), old(validator), old(placeholder)), old(valueIdx), Right)
    {
      CycleValue(true);
      if pref.isNumber {
        StepNumber(1);
      }
    }

    /** The Left case of `Update` (lines 97-113). */
    method LeftKey()
      requires Valid()
      modifies this
      ensures hidden == old(hidden) && hideService == old(hideService) && focused == old(focused)
      ensures Valid()
      ensures Stepped(Input(pref, text, validator, placeholder), valueIdx) ==
              KeyStep(Input(old(pref), old(text), old(validator), old(placeholder)), old(valueIdx), Left)
    {
      CycleValue(false);
      if pref.isNumber {
        StepNumber(-1);
      }
    }

    /** Lines 83-87 and 98-105: move to the next or previous suggested value, wrapping, and reconfigure. */
    method CycleValue(forward: bool)
      requires Valid()
      modifies this
      ensures hidden == old(hidden) && hideService == old(hideService) && focused == old(focused)
      ensures Valid()
      ensures Stepped(Input(pref, text, validator, placeholder), valueIdx) ==
              ArrowCycled(Input(old(pref), old(text), old(validator), old(placeholder)), old(valueIdx), forward)
    {
      var l := |pref.possibleValues|;
      if l > 0 {
        if forward {
          valueIdx := NextIdx(valueIdx, l);
        } else {
          valueIdx := valueIdx - 1;
          if valueIdx < 0 {
            valueIdx := l - 1;
          }
        }
        ReconfigureInput();
      }
    }

    /** Lines 88-94 and 106-112: a number line's value moves by `delta`. */
    method StepNumber(delta: int)
      requires Valid()
      modifies this
      ensures hidden == old(hidden) && hideService == old(hideService) && focused == old(focused)
      ensures Valid()
      ensures Stepped(Input(pref, text, validator, placeholder), valueIdx) ==
              NumberApplied(Stepped(Input(old(pref), old(text), old(validator), old(placeholder)), old(valueIdx)), delta)
    {
      var curr := ParseIntValue(text);
      var newVal := IntToString(Wrap64(curr + delta));
      assert newVal == NumberStep(text, delta);
      text := newVal;
      pref := pref.(value := Some(newVal));
    }

    /** `View` (lines 126-152), given the input's own rendering. */
    method View(inputView: string) returns (s: string)
      ensures hidden ==> s == ""
      ensures !hidden ==> (s == " " + Label(pref, hideService) + " " + inputView +
                (if |pref.possibleValues| > 1 && focused && !pref.pinned then ChangeHint else "") + "\n")
    {
      if hidden {
        return "";
      }
      s := " " + Label(pref, hideService) + " " + inputView;
      if |pref.possibleValues| > 1 && focused && !pref.pinned {
        s := s + ChangeHint;
      }
      s := s + "\n";
    }

    method Blur()
      modifies this
      ensures !focused
      ensures pref == old(pref) && text == old(text) && valueIdx == old(valueIdx) && hidden == old(hidden)
      ensures hideService == old(hideService) && validator == old(validator) && placeholder == old(placeholder)
    {
      focused := false;
    }

    method Focus()
      modifies this
      ensures focused
      ensures pref == old(pref) && text == old(text) && valueIdx == old(valueIdx) && hidden == old(hidden)
      ensures hideService == old(hideService) && validator == old(validator) && placeholder == old(placeholder)
    {
      focused := true;
    }
  }
}
