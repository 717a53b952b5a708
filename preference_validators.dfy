/**
 * The two input validators of view/page_preferences.go, which the
 * preference items attach to their text inputs.
 */
module PreferenceValidators {
  import opened Wrappers
  import opened Text

  /** The validator an input carries. */
  datatype Validator = NoValidator | PinnedValidator | NumberValidator

  /** `pinnedValidator` (lines 227-232): a pinned input accepts only the empty text. */
  function PinnedError(s: string): (err: Option<string>)
    ensures err.None? <==> s == ""
  {
    if s == "" then None else Some("pinned")
  }

  /**
   * `numberValidator` (lines 234-243): a base-10 64-bit integer that is not
   * negative. Text strconv cannot parse fails with strconv's message.
   */
  function NumberError(s: string): (err: Option<string>)
    ensures err.None? <==> ParseInt(s).Some? && ParseInt(s).value >= 0
    ensures ParseInt(s).Some? && ParseInt(s).value < 0 ==> err == Some("invalid number")
  {
    match ParseInt(s)
      case None =>
        var reason := if ParseIntValue(s) == 0 then "invalid syntax" else "value out of range";
        Some("strconv.ParseInt: parsing \"" + s + "\": " + reason)
      case Some(n) => if n < 0 then Some("invalid number") else None
  }

  /** Every rendered non-negative 64-bit number passes the number validator. */
  lemma NumberAcceptsRendered(n: int)
    requires 0 <= n <= MaxInt64
    ensures NumberError(IntToString(n)).None?
  {
    ParseIntToString(n);
  }

  /** The empty text fails the number validator but passes the pinned one. */
  lemma EmptyText()
    ensures NumberError("").Some? && PinnedError("").None?
  {
  }

  /** What the input reports for a text under a validator. */
  function Validate(v: Validator, s: string): Option<string> {
    match v
      case NoValidator => None
      case PinnedValidator => PinnedError(s)
      case NumberValidator => NumberError(s)
  }
}
