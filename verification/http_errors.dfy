/** The status rule of the Express error-handling middleware. */
module HttpErrors {

  /** The values an error's `status` property can hold, as far as `||` distinguishes them. */
  datatype StatusValue =
    | Unset                  // `undefined`
    | Number(n: int)         // a finite integer
    | NotANumber             // `NaN`
    | Text(s: string)        // a string
    | Flag(b: bool)          // a boolean

  /** JavaScript truthiness of a `status` value. */
  predicate Truthy(v: StatusValue)
  {
    match v
    case Unset => false
    case Number(n) => n != 0
    case NotANumber => false
    case Text(s) => s != ""
    case Flag(b) => b
  }

  /** The parts of a thrown error the middleware reads. */
  datatype HttpError = HttpError(name: string, message: string, status: StatusValue)

  /**
   * `error.status || (error.name === 'TypeError' ? 400 : 500)`: an error's own
   * truthy status is kept whatever its type; otherwise a `TypeError` is a
   * client error (400) and anything else a server error (500).
   */
  function ResponseStatus(e: HttpError): (code: StatusValue)
    ensures Truthy(code)
    ensures Truthy(e.status) ==> code == e.status
    ensures !Truthy(e.status) ==> (code == Number(400) <==> e.name == "TypeError")
    ensures !Truthy(e.status) ==> code == Number(400) || code == Number(500)
  {
    if Truthy(e.status) then e.status
    else if e.name == "TypeError" then Number(400)
    else Number(500)
  }

  /** The error after the middleware writes the status back onto it. */
  function Annotate(e: HttpError): (e': HttpError)
    ensures e'.name == e.name && e'.message == e.message
    ensures e'.status == ResponseStatus(e)
  {
    e.(status := ResponseStatus(e))
  }

  /** Writing the status back is stable: a second pass through the middleware answers the same status. */
  lemma AnnotateIdempotent(e: HttpError)
    ensures Annotate(Annotate(e)) == Annotate(e)
    ensures ResponseStatus(Annotate(e)) == ResponseStatus(e)
  {
  }
}
