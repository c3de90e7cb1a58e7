/**
 * The Express-side vocabulary of one request: what a middleware stage reads
 * (the request), what it writes (the response object and its `locals`), and
 * what it does with the continuation (the Outcome it returns).
 */
module Express {
  import opened Wrappers
  import opened Json

  /**
   * The parts of `req` the controllers read: the route parameter
   * (`:supplierId` or `:productId`) and `req.body.data`, None when the body
   * has no `data` key.
   */
  datatype Request = Request(routeId: string, data: Option<Fields>)

  /** What reaches the error channel. */
  datatype Error =
    | Signal(status: int, message: string)  // an object `{status, message}` passed to `next`
    | Thrown(name: string)                  // an exception or a rejected promise, passed on as it is

  /**
   * What a stage does with its continuation: `next()`, `next(error)`, write
   * the response, or fail asynchronously (a rejected promise, seen by nobody
   * unless the stage is wrapped by the error boundary).
   */
  datatype Outcome =
    | Continue
    | Fail(error: Error)
    | Responded(status: int, body: Option<Value>)
    | Rejected(error: Error)

  /** How a call into a service settles. */
  datatype Reply<T> = Resolved(value: T) | Failed(error: Error)

  /**
   * `asyncErrorBoundary(stage)`: a rejection of the wrapped stage is passed to
   * `next` as an error; every other outcome is kept.
   */
  function Boundary(o: Outcome): (r: Outcome)
    ensures !r.Rejected?
    ensures o.Rejected? ==> r == Fail(o.error)
    ensures !o.Rejected? ==> r == o
  {
    if o.Rejected? then Fail(o.error) else o
  }

  /** The response body `{ data }`. */
  function DataBody(v: Value): (b: Value)
    ensures b.Obj? && Keys(b.fields) == ["data"] && Lookup(b.fields, "data") == v
  {
    Obj([("data", v)])
  }

  /** The state of `res` as a value. */
  datatype Exchange = Exchange(locals: map<string, Fields>, statusCode: int, body: Option<Value>, finished: bool)

  /** What a stage did: its outcome, the new `res`, and the service log after it. */
  datatype Effect<C> = Effect(outcome: Outcome, exchange: Exchange, calls: seq<C>)

  /** The response object of one request. */
  class Res {
    var locals: map<string, Fields>
    var statusCode: int
    var body: Option<Value>
    var finished: bool

    function View(): Exchange
      reads this
    {
      Exchange(locals, statusCode, body, finished)
    }

    /** A fresh response: empty `locals`, status 200, nothing sent. */
    constructor ()
      ensures View() == Exchange(map[], 200, None, false)
    {
      locals := map[];
      statusCode := 200;
      body := None;
      finished := false;
    }

    /** `res.status(code)`. */
    method Status(code: int)
      modifies this
      ensures View() == old(View()).(statusCode := code)
    {
      statusCode := code;
    }

    /** `res.json(payload)`: sends the payload with the current status. */
    method Json(payload: Value)
      modifies this
      ensures View() == old(View()).(body := Some(payload), finished := true)
    {
      body := Some(payload);
      finished := true;
    }

    /** `res.sendStatus(code)`: sends the status with no body. */
    method SendStatus(code: int)
      modifies this
      ensures View() == old(View()).(statusCode := code, body := None, finished := true)
    {
      statusCode := code;
      body := None;
      finished := true;
    }
  }
}
