/** What a request handler can do: return a response or raise an exception.
    Shared by every route module. */
module Http {
  import opened Values
  import Query

  /** A redirect target: a path or absolute endpoint and its query fields,
      in the order the handler lists them. Percent-encoding is not modelled. */
  datatype Url = Url(base: string, query: seq<(string, string)>)

  function Path(p: string): Url {
    Url(p, [])
  }

  /** Status codes the handlers use. `RedirectResponse` defaults to 307. */
  const SeeOther := 303
  const TemporaryRedirect := 307
  const BadRequest := 400
  const Unauthorized := 401
  const Forbidden := 403
  const NotFound := 404
  const ServerError := 500

  datatype Response<+P> =
    | Redirect(location: Url, status: int)
    | Ok(payload: P)

  /** Exceptions that reach, or are caught inside, a handler. */
  datatype Exception =
      /** `HTTPException(status_code, detail)` raised by the handler itself */
    | HttpError(status: int, detail: string)
      /** an exception caught by an `except` clause and re-raised as
          `HTTPException(status, detail=prefix + str(cause))` */
    | Rewrapped(status: int, prefix: string, cause: Exception)
    | TypeError
    | KeyError(key: string)
    | AttributeError
      /** a NOT NULL or UNIQUE constraint rejected a write to this column */
    | IntegrityError(column: string)
      /** the identity-provider client failed: unreachable, non-2xx, bad reply */
    | ProviderError

  /** The result of a Python call. */
  datatype Outcome<+T> = Returned(value: T) | Raised(exc: Exception)

  /** A handler's result together with the session it leaves behind. */
  datatype Handled<+T> = Handled(result: Outcome<T>, session: Session)

  /** The status an uncaught exception produces: its own for an
      HTTPException, 500 for anything else. */
  function ExceptionStatus(e: Exception): int {
    match e
    case HttpError(s, _) => s
    case Rewrapped(s, _, _) => s
    case _ => ServerError
  }

  /** The status code the client sees. */
  function Status<P>(o: Outcome<Response<P>>): int {
    match o
    case Returned(Redirect(_, s)) => s
    case Returned(Ok(_)) => 200
    case Raised(e) => ExceptionStatus(e)
  }

  /** The value of the first query field named `k`. */
  function Lookup(q: seq<(string, string)>, k: string): Option<string> {
    var i := Query.FirstIndex(q, (f: (string, string)) => f.0 == k);
    if i < 0 then None else Some(q[i].1)
  }

  /** A field whose name no earlier field carries is what Lookup finds. */
  lemma LookupFindsFirst(q: seq<(string, string)>, i: int)
    requires 0 <= i < |q|
    requires forall j :: 0 <= j < i ==> q[j].0 != q[i].0
    ensures Lookup(q, q[i].0) == Some(q[i].1)
  {
    var k := Query.FirstIndex(q, (f: (string, string)) => f.0 == q[i].0);
    assert k <= i;
  }

  /** The field names of a query, in order. */
  function Names(q: seq<(string, string)>): seq<string> {
    seq(|q|, i requires 0 <= i < |q| => q[i].0)
  }
}
