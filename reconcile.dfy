/** Outcome reconciliation with the default handlers (index.js:16-27 and
    index.js:83-91): how a settled `queue.request` becomes the status,
    headers and body of the waiting connection's response. */
module Reconcile {
  import opened JsValues
  import opened Lodash

  /** The response fields the handlers touch. */
  datatype Resp = Resp(status: Value, headers: map<string, Value>, body: Value)

  /** How `queue.request(...)` settled: with the job's result, or with an
      error (the broker's timeout error is one with code `ETIMEOUT`). */
  datatype Settlement = Fulfilled(result: Value) | Rejected(err: Value)

  /** The TypeError the default `onSuccess` throws when the result is null or
      undefined and it reads `result.headers`. */
  const NullishAccess: Value :=
    Obj(map["name" := Str("TypeError"), "message" := Str("Cannot read properties of a nullish result")])

  /** `_.get(err, 'code') === 'ETIMEOUT'` (index.js:86). */
  predicate IsTimeout(err: Value)
    ensures IsTimeout(err) <==> err.Obj? && "code" in err.fields && err.fields["code"] == Str("ETIMEOUT")
  {
    Get(err, "code") == Str("ETIMEOUT")
  }

  /** The headers the default `onSuccess` copies: the own fields of
      `result.headers` when it is an object, none otherwise. */
  function ResultHeaders(result: Value): (h: map<string, Value>)
    ensures Get(result, "headers").Obj? ==> h == Get(result, "headers").fields
    ensures !Get(result, "headers").Obj? ==> h == map[]
    ensures !result.Obj? ==> h == map[]
  {
    var h := Get(result, "headers");
    if h.Obj? then h.fields else map[]
  }

  /** Default `onTimeout` (index.js:21-23). */
  function TimedOut(r: Resp): (r': Resp)
    ensures r'.status == Num(202) && r'.headers == r.headers && r'.body == r.body
  {
    r.(status := Num(202))
  }

  /** Default `onError` (index.js:24-27). */
  function Errored(r: Resp, err: Value): (r': Resp)
    ensures r'.status == (if Get(err, "status") == Undefined then Num(500) else Get(err, "status"))
    ensures r'.body == (if Get(err, "message") == Undefined then err else Get(err, "message"))
    ensures r'.headers == r.headers
  {
    r.(status := GetOr(err, "status", Num(500)), body := GetOr(err, "message", err))
  }

  /** The `.catch` branch (index.js:85-91). */
  function Caught(r: Resp, err: Value): (r': Resp)
    ensures r'.headers == r.headers
    ensures Get(err, "code") == Str("ETIMEOUT") ==> r'.status == Num(202) && r'.body == r.body
    ensures Get(err, "code") != Str("ETIMEOUT") ==> r' == Errored(r, err)
  {
    if IsTimeout(err) then TimedOut(r) else Errored(r, err)
  }

  /** Default `onSuccess` (index.js:16-20), as the response it leaves and the
      error it throws, if any: it sets the status, then reads
      `result.headers`, which throws on a nullish result. */
  function Succeeded(r: Resp, result: Value): (out: (Resp, Option<Value>))
    ensures out.0.status == (if Get(result, "status") == Undefined then Num(200) else Get(result, "status"))
    ensures Nullish(result) <==> out.1.Some?
    ensures Nullish(result) ==> out.1 == Some(NullishAccess) && out.0.headers == r.headers && out.0.body == r.body
    ensures !Nullish(result) ==> out.0.headers == r.headers + ResultHeaders(result) && out.0.body == Get(result, "body")
  {
    var withStatus := r.(status := GetOr(result, "status", Num(200)));
    if Nullish(result) then (withStatus, Some(NullishAccess))
    else (withStatus.(headers := withStatus.headers + ResultHeaders(result), body := Get(result, "body")), None)
  }

  /** The response after `queue.request(...).then(onSuccess).catch(...)`
      settles (index.js:83-91). */
  function Reconciled(r: Resp, s: Settlement): (r': Resp)
    // success: status defaults to 200, every result header is set, body is the result's
    ensures s.Fulfilled? && !Nullish(s.result) ==>
      && r'.status == (if Get(s.result, "status") == Undefined then Num(200) else Get(s.result, "status"))
      && (forall k :: k in ResultHeaders(s.result) ==> k in r'.headers && r'.headers[k] == ResultHeaders(s.result)[k])
      && (forall k :: k in r.headers && k !in ResultHeaders(s.result) ==> k in r'.headers && r'.headers[k] == r.headers[k])
      && r'.headers.Keys == r.headers.Keys + ResultHeaders(s.result).Keys
      && r'.body == Get(s.result, "body")
    // a timeout: 202 and nothing else changes
    ensures s.Rejected? && IsTimeout(s.err) ==> r' == r.(status := Num(202))
    // any other error: status defaults to 500, body to the error itself
    ensures s.Rejected? && !IsTimeout(s.err) ==>
      && r'.status == (if Get(s.err, "status") == Undefined then Num(500) else Get(s.err, "status"))
      && r'.body == (if Get(s.err, "message") == Undefined then s.err else Get(s.err, "message"))
      && r'.headers == r.headers
    // a nullish result fails inside onSuccess and is answered as an error
    ensures s.Fulfilled? && Nullish(s.result) ==> r' == Errored(r, NullishAccess)
    // headers are only ever added
    ensures r.headers.Keys <= r'.headers.Keys
  {
    match s
    case Fulfilled(result) =>
      var (after, thrown) := Succeeded(r, result);
      if thrown.Some? then Caught(after, thrown.value) else after
    case Rejected(err) => Caught(r, err)
  }

  /** A job resolved as the worker resolves it, from a response with this
      status, these headers and this body. */
  function WorkerResult(status: Value, headers: map<string, Value>, body: string): (v: Value)
    ensures Get(v, "status") == status && Get(v, "headers") == Obj(headers) && Get(v, "body") == Str(body)
    ensures v.Obj? && v.fields.Keys == {"headers", "status", "body"}
  {
    Obj(map["headers" := Obj(headers), "status" := status, "body" := Str(body)])
  }

  /** The round trip from worker to waiting connection: when the broker hands
      back what the worker resolved, the connection answers with the replayed
      response's status (200 when it had none), its headers and its body. */
  lemma ResolvedRoundTrip(r: Resp, status: Value, headers: map<string, Value>, body: string)
    ensures var r' := Reconciled(r, Fulfilled(WorkerResult(status, headers, body)));
            && r'.status == (if status == Undefined then Num(200) else status)
            && r'.headers == r.headers + headers
            && r'.body == Str(body)
  {
  }

  /** A rejection that carries only a message, as `job.reject(message)` sends,
      comes back as status 500 with that message as the body unless the
      broker rebuilds an error object with a status. */
  lemma BareMessageRejection(r: Resp, message: string)
    ensures Reconciled(r, Rejected(Str(message))) == r.(status := Num(500), body := Str(message))
  {
  }
}
