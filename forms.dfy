/** What the form components share: validation issues and the result of a submit. */
module Forms {
  import opened Wrappers
  import opened Text
  import opened Records

  /** One schema violation: the field and the message the form shows beside it. */
  datatype Issue = Issue(field: string, message: string)

  type Checked<T> = Result<T, seq<Issue>>

  /** The outcome of submitting a form. */
  datatype Submission =
    | Invalid(issues: seq<Issue>)   // the schema refused the input; nothing was sent
    | Failed(message: string)       // the mutation was sent and failed; the text shown under the form
    | Saved                         // the mutation succeeded and its success handler ran

  /** `z.string().min(1, message)`: at least one character. */
  function NonEmpty(field: string, message: string, s: string): Checked<string> {
    if |s| >= 1 then Success(s) else Failure([Issue(field, message)])
  }

  /** `z.string().trim().min(1, message)`: the trimmed string, which must not be empty. */
  function TrimmedNonEmpty(field: string, message: string, s: string): (r: Checked<string>)
    ensures r.Success? <==> !Blank(s)
    ensures r.Success? ==> r.value == Trim(s) && |r.value| >= 1
    ensures r.Success? ==> !IsSpace(r.value[0]) && !IsSpace(r.value[|r.value| - 1])
    ensures r.Failure? ==> r.error == [Issue(field, message)]
  {
    TrimEmptyIffBlank(s);
    TrimShape(s);
    if |Trim(s)| >= 1 then Success(Trim(s)) else Failure([Issue(field, message)])
  }

  /** Trimming is a fixed point: a value that passed the trimmed check passes it again unchanged. */
  lemma TrimmedNonEmptyStable(field: string, message: string, s: string)
    requires TrimmedNonEmpty(field, message, s).Success?
    ensures TrimmedNonEmpty(field, message, TrimmedNonEmpty(field, message, s).value) == TrimmedNonEmpty(field, message, s)
  {
    TrimIdempotent(s);
  }

  /** The issues a checked field contributes to the form's list. */
  function IssuesOf<T>(c: Checked<T>): seq<Issue> {
    if c.Failure? then c.error else []
  }

  const InvalidEnum := "Invalid enum value"

  /** `z.enum([...])` over status names: the status whose name is `s`, if it is one of `allowed`. */
  function OneOf(field: string, allowed: seq<Status>, s: string): (r: Checked<Status>)
    ensures r.Success? <==> exists st :: st in allowed && st.Name() == s
    ensures r.Success? ==> r.value in allowed && r.value.Name() == s
    ensures r.Failure? ==> r.error == [Issue(field, InvalidEnum)]
  {
    var p := ParseStatus(s);
    if p.Some? && p.value in allowed then Success(p.value)
    else
      assert forall st :: st in allowed && st.Name() == s ==> p == Some(st) by {
        forall st | st in allowed && st.Name() == s ensures p == Some(st) {
          StatusNamesRoundTrip(st, s);
        }
      }
      Failure([Issue(field, InvalidEnum)])
  }
}
