/** Values shared by both request pipelines: optional values, the outcome of a
    call that may throw, the record of one entry-point call, and the untyped
    JSON-like values a server action receives from the browser. */
module Common {

  datatype Option<+T> = None | Some(value: T)

  /** The outcome of a call that may throw: `Err` carries what was thrown. */
  datatype Result<+T, +E> = Ok(value: T) | Err(error: E)

  /** One call of an entry point: the remote generation calls it issued, in the
      order it issued them, and what it returned or threw. */
  datatype Run<+C, +T, +E> = Run(calls: seq<C>, outcome: Result<T, E>)

  /** A value as it arrives at a server action. JavaScript numbers are modelled
      by their integer value, plus `NaN`; a missing property is a key absent
      from the object's map. */
  datatype Json =
    | JNull
    | JBool(b: bool)
    | JNumber(n: int)
    | JNaN
    | JString(s: string)
    | JArray(items: seq<Json>)
    | JObject(fields: map<string, Json>)

  /** The message every server action throws when its schema rejects the input. */
  const InvalidInputMessage := "Invalid input."

  /** `z.string()` applied to property `key` of an object. */
  predicate IsStringField(fields: map<string, Json>, key: string)
  {
    key in fields && fields[key].JString?
  }

  /** `z.number()` applied to property `key` of an object: a number that is not NaN. */
  predicate IsNumberField(fields: map<string, Json>, key: string)
  {
    key in fields && fields[key].JNumber?
  }

  /** A toast notification raised by a page. */
  datatype Toast = Toast(variant: string, title: string, description: string)

  /** Two oracle answers that agree except, possibly, on what a failure carried. */
  ghost predicate SameUpToCause<T>(a: Result<T, string>, b: Result<T, string>)
  {
    if a.Ok? then b == a else b.Err?
  }
}
