/** What `fetch` and `response.json()` can do, seen from the client, and what
    an `async` function can end with. The network itself is not modelled:
    each operation is given the outcome the browser and the backend produce. */
module Http {
  import opened Wrappers

  /** The `message` field of a parsed error body: a string, or some other
      JSON value (a number, a boolean, an array, an object), given by its
      JavaScript truthiness and by the text `String(value)` makes of it. */
  datatype MessageField = StringField(s: string) | OtherField(truthy: bool, shown: string)

  /** The body of a non-ok response, as `response.json()` sees it. */
  datatype ErrorBody =
    | NotJson                                // `response.json()` rejects
    | JsonNull                               // the body is the JSON value `null`
    | Json(message: Option<MessageField>)    // any other JSON value; its `message` field, if any

  /** The outcome of one request.
      - `Ok(body)`: a 2xx status whose JSON body parses to `body`;
      - `BodyRejected(errorName, message)`: a 2xx status whose body
        `response.json()` rejects with the error `errorName` carrying
        `message`: a SyntaxError for a body that does not parse, an
        AbortError when the signal fires after the headers have arrived, a
        TypeError when the connection drops while the body streams;
      - `NonOk(status, errorBody)`: a status outside 2xx;
      - `Aborted`: the request's AbortSignal fired, so `fetch` rejects with an
        AbortError;
      - `NetworkFailure(message)`: `fetch` rejects with a TypeError. */
  datatype Response<+T> =
    | Ok(body: T)
    | BodyRejected(errorName: string, message: string)
    | NonOk(status: int, errorBody: ErrorBody)
    | Aborted
    | NetworkFailure(message: string)

  /** A thrown value: an `Error` (with its `name` and `message`) or anything
      else, for which `err instanceof Error` is false. */
  datatype Thrown = Error(name: string, message: string) | NonErrorValue

  /** How an `async` function settles: it returns a value or it throws. */
  datatype Completion<+T> = Return(value: T) | Throw(thrown: Thrown)

  const AbortErrorName := "AbortError"

  /** `new Error(message)` */
  function PlainError(message: string): Thrown {
    Error("Error", message)
  }

  /** The error a rejected `fetch` or `response.json()` throws. The text of
      an AbortError `fetch` throws is the browser's own and is left empty
      here. */
  function RejectionOf<T>(r: Response<T>): (t: Thrown)
    requires r.Aborted? || r.BodyRejected? || r.NetworkFailure?
    ensures t.Error?
    ensures t.name == AbortErrorName <==> r.Aborted? || (r.BodyRejected? && r.errorName == AbortErrorName)
    ensures r.BodyRejected? ==> t == Error(r.errorName, r.message)
    ensures r.NetworkFailure? ==> t == Error("TypeError", r.message)
  {
    match r
    case Aborted => Error(AbortErrorName, "")
    case BodyRejected(n, m) => Error(n, m)
    case NetworkFailure(m) => Error("TypeError", m)
  }

  /** `err instanceof Error ? err.message : fallback` */
  function MessageOr(t: Thrown, fallback: string): (m: string)
    ensures t.Error? ==> m == t.message
    ensures t.NonErrorValue? ==> m == fallback
  {
    if t.Error? then t.message else fallback
  }

  /** The error is an AbortError: `err instanceof Error && err.name === "AbortError"`. */
  predicate IsAbortError(t: Thrown) {
    t.Error? && t.name == AbortErrorName
  }

  /** The shape the list, detail, brand and logout calls share: a non-ok
      status throws a plain Error with the text `failure`, an ok one yields
      the parsed body, and a rejected `fetch` or `response.json()` propagates
      its own error. */
  function ExpectOk<T>(resp: Response<T>, failure: string): (c: Completion<T>)
    ensures c.Return? <==> resp.Ok?
    ensures c.Return? ==> c.value == resp.body
    ensures resp.NonOk? ==> c == Throw(PlainError(failure))
    ensures c.Throw? && !resp.NonOk? ==> c.thrown == RejectionOf(resp)
  {
    match resp
    case Ok(body) => Return(body)
    case NonOk(_, _) => Throw(PlainError(failure))
    case _ => Throw(RejectionOf(resp))
  }
}
