/** The Koa request context as the bridge's middleware and the default
    handlers update it in place. */
module Koa {
  import opened JsValues
  import opened Lodash
  import opened Objects
  import opened Reconcile

  /** `ctx.state` of a fresh Koa context: an empty object. */
  const FreshState: Value := Obj(map[])

  class Context {
    /** `ctx.req`, the node request the context wraps. */
    const req: JsObject
    /** `ctx.path`, parsed from the request URL by Koa. */
    const path: string
    /** `ctx.socket.encrypted` */
    const socketEncrypted: Value

    var status: Value
    var headers: map<string, Value>
    var body: Value
    var state: Value
    /** Whether `ctx.onerror` has been replaced to divert errors into
        `ctx.req.jobRunError` (index.js:63). */
    var divertErrors: bool
    /** How many times the middleware handed on to `next()`. */
    var nextCalls: nat
    /** Errors given to Koa's own `onerror`, which answers with an error
        response. */
    var errorResponses: seq<Value>

    /** A fresh context: Koa's 404 status, no headers, no body, an empty state. */
    constructor (req: JsObject, path: string, socketEncrypted: Value)
      ensures this.req == req && this.path == path && this.socketEncrypted == socketEncrypted
      ensures status == Num(404) && headers == map[] && body == Undefined && state == FreshState
      ensures !divertErrors && nextCalls == 0 && errorResponses == []
    {
      this.req := req;
      this.path := path;
      this.socketEncrypted := socketEncrypted;
      status := Num(404);
      headers := map[];
      body := Undefined;
      state := FreshState;
      divertErrors := false;
      nextCalls := 0;
      errorResponses := [];
    }

    function Response(): Resp
      reads this
    {
      Resp(status, headers, body)
    }

    /** `ctx.set(field, val)` */
    method Set(field: string, val: Value)
      modifies this`headers
      ensures headers == old(headers)[field := val]
    {
      headers := headers[field := val];
    }

    /** `_.forEach(h, (val, key) => ctx.set(key, val))` (index.js:18): every
        field of `h` is set, the others are left as they were. */
    method SetEach(h: map<string, Value>)
      modifies this`headers
      ensures headers == old(headers) + h
    {
      var todo := h.Keys;
      while todo != {}
        invariant todo <= h.Keys
        invariant headers.Keys == old(headers).Keys + (h.Keys - todo)
        invariant forall k :: k in h && k !in todo ==> headers[k] == h[k]
        invariant forall k :: k in old(headers) && (k !in h || k in todo) ==> headers[k] == old(headers)[k]
        decreases todo
      {
        var k :| k in todo;
        Set(k, h[k]);
        todo := todo - {k};
      }
    }

    /** Default `onSuccess` (index.js:16-20). It returns the error it throws:
        reading `result.headers` on a nullish result. */
    method OnSuccess(result: Value) returns (thrown: Option<Value>)
      modifies this`status, this`headers, this`body
      ensures (Response(), thrown) == Succeeded(old(Response()), result)
    {
      status := GetOr(result, "status", Num(200));
      if Nullish(result) {
        return Some(NullishAccess);
      }
      SetEach(ResultHeaders(result));
      body := Get(result, "body");
      thrown := None;
    }

    /** Default `onTimeout` (index.js:21-23). */
    method OnTimeout()
      modifies this`status
      ensures Response() == TimedOut(old(Response()))
    {
      status := Num(202);
    }

    /** Default `onError` (index.js:24-27). */
    method OnError(err: Value)
      modifies this`status, this`body
      ensures Response() == Errored(old(Response()), err)
    {
      status := GetOr(err, "status", Num(500));
      body := GetOr(err, "message", err);
    }

    /** The continuation of `queue.request` (index.js:83-91): `onSuccess`,
        and the `.catch` for a rejection or for what `onSuccess` threw. */
    method Settle(s: Settlement)
      modifies this`status, this`headers, this`body
      ensures Response() == Reconciled(old(Response()), s)
    {
      var err: Value;
      match s {
        case Fulfilled(result) =>
          var thrown := OnSuccess(result);
          if thrown.None? {
            return;
          }
          err := thrown.value;
        case Rejected(e) =>
          err := e;
      }
      if IsTimeout(err) {
        OnTimeout();
      } else {
        OnError(err);
      }
    }

    /** The replay guard's branch (index.js:63-66): errors are diverted, the
        state is restored from the marker and the request handed on. */
    method EnterReplay(marker: Value)
      modifies this`divertErrors, this`state, this`nextCalls
      ensures divertErrors && state == marker && nextCalls == old(nextCalls) + 1
    {
      divertErrors := true;
      state := marker;
      nextCalls := nextCalls + 1;
    }

    /** `ctx.onerror(err)`: on a replayed request the error is stored on the
        request for the job processor (index.js:63); otherwise Koa answers
        with an error response. */
    method RaiseError(err: Value)
      modifies req, this`errorResponses
      ensures req.props == if divertErrors then old(req.props)["jobRunError" := err] else old(req.props)
      ensures errorResponses == old(errorResponses) + if divertErrors then [] else [err]
    {
      if divertErrors {
        req.Set("jobRunError", err);
      } else {
        errorResponses := errorResponses + [err];
      }
    }
  }
}
