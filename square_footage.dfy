/**
 * The optional square-footage field of both building forms: what the number input hands to the
 * schema, and `z.number().positive(message).optional()`.
 */
module SquareFootage {
  import opened Wrappers
  import opened Forms

  /** What the user left in an `<input type="number">`: nothing, or a number. */
  datatype Typed = Cleared | Number(r: real)

  /** What the input shows for a stored area: the number, or nothing for `null`. */
  function Shown(area: Option<real>): (t: Typed)
    ensures t == Cleared <==> area.None?
    ensures t.Number? ==> t.r == area.value
  {
    if area.Some? then Number(area.value) else Cleared
  }

  /** The field's value as the schema sees it: `undefined`, `NaN`, or a finite number. */
  datatype FieldValue = Undef | NaN | Finite(r: real)

  const NotANumber := "Expected number, received nan"

  /**
   * What the field's registration evidently intends: a cleared input (or `NaN`) becomes
   * `undefined`, any other input its number.
   */
  function Converted(t: Typed): (v: FieldValue)
    ensures v != NaN
    ensures v == Undef <==> t == Cleared
  {
    match t
    case Cleared => Undef
    case Number(r) => Finite(r)
  }

  /**
   * What the registration does as written: `valueAsNumber` takes precedence over `setValueAs`, so
   * a cleared input reads as `NaN` and the function that would map it to `undefined` never runs.
   */
  function ConvertedAsWritten(t: Typed): (v: FieldValue)
    ensures v != Undef
  {
    match t
    case Cleared => NaN
    case Number(r) => Finite(r)
  }

  /** `z.number().positive(message).optional()`: absent, or a number above zero. */
  function Positive(field: string, message: string, v: FieldValue): Checked<Option<real>> {
    match v
    case Undef => Success(None)
    case NaN => Failure([Issue(field, NotANumber)])
    case Finite(r) => if r > 0.0 then Success(Some(r)) else Failure([Issue(field, message)])
  }

  /** As written, clearing the field makes the whole form unsubmittable, whatever the message. */
  lemma ClearedIsRejectedAsWritten(field: string, message: string)
    ensures Positive(field, message, ConvertedAsWritten(Cleared)) == Failure([Issue(field, NotANumber)])
  {
  }

  /**
   * With the intended conversion, the field accepts exactly a cleared input (sent as absent) or a
   * positive number (sent as that number); either conversion agrees on every number typed.
   */
  lemma ConvertedAccepts(field: string, message: string, t: Typed)
    ensures Positive(field, message, Converted(t)).Success? <==> t == Cleared || t.r > 0.0
    ensures Positive(field, message, Converted(t)).Success? ==>
      Positive(field, message, Converted(t)).value == (if t.Number? then Some(t.r) else None)
    ensures t.Number? ==> Converted(t) == ConvertedAsWritten(t)
  {
  }
}
