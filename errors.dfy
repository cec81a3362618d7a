/**
 * `getErrorMessage`: the text a form shows for whatever a failed mutation threw, and the value a
 * failed store request throws.
 */
module ErrorMessages {
  import opened Tables

  /** The JavaScript values a mutation can reject with, as far as the classification looks at them. */
  datatype JsValue =
    | JsError(message: string)                 // an `Error` instance
    | JsObject(props: map<string, JsValue>)    // any other non-null object
    | JsString(s: string)
    | JsNumber(n: int)
    | JsBool(b: bool)
    | JsNull
    | JsUndefined

  const Fallback := "Something went wrong. Please try again."

  /** A non-null object whose `message` property is a string. */
  predicate HasStringMessage(v: JsValue) {
    v.JsObject? && "message" in v.props && v.props["message"].JsString?
  }

  function GetErrorMessage(v: JsValue): string {
    if v.JsError? then v.message
    else if HasStringMessage(v) then v.props["message"].s
    else Fallback
  }

  /** The message is empty only when the thrown value itself carried an empty message. */
  lemma MessageBlankIff(v: JsValue)
    ensures GetErrorMessage(v) == "" <==>
      (v.JsError? && v.message == "") || (HasStringMessage(v) && v.props["message"].s == "")
  {
  }

  /** A message carried by an `Error` or by a plain `{ message }` object reads back unchanged, whatever else the object holds. */
  lemma CarriedMessageReadBack(m: string, props: map<string, JsValue>)
    ensures GetErrorMessage(JsError(m)) == m
    ensures GetErrorMessage(JsObject(props["message" := JsString(m)])) == m
  {
  }

  /** Null, primitives and objects whose `message` is missing or not a string all read as the fallback. */
  lemma OtherValuesFallBack(v: JsValue, m: JsValue)
    ensures GetErrorMessage(JsNull) == Fallback && GetErrorMessage(JsUndefined) == Fallback
    ensures !m.JsString? ==> GetErrorMessage(JsObject(map["message" := m])) == Fallback
    ensures v.JsString? || v.JsNumber? || v.JsBool? ==> GetErrorMessage(v) == Fallback
  {
  }

  /** The text of a store error, as the store reports it. */
  function StoreMessage(e: StoreError): string {
    match e
    case RequestFailed(m) => m
    case DuplicateKey => "duplicate key value violates unique constraint"
    case MissingParent => "insert or update on table violates foreign key constraint"
    case NotSingleRow(_) => "JSON object requested, multiple (or no) rows returned"
    case InvalidRange => "Requested range not satisfiable"
  }

  /**
   * What `if (error) throw error` throws. The client library returns the parsed error body in
   * `{ data, error }`, so the value thrown is a plain object with a string `message`, not an
   * `Error` instance.
   */
  function Thrown(e: StoreError): (v: JsValue)
    ensures !v.JsError? && HasStringMessage(v)
    ensures GetErrorMessage(v) == StoreMessage(e)
    ensures e.RequestFailed? ==> GetErrorMessage(v) == e.message
    ensures !e.RequestFailed? ==> GetErrorMessage(v) != ""
  {
    JsObject(map["message" := JsString(StoreMessage(e))])
  }
}
