/** The job processor (index.js:101-133): a worker rebuilds the captured
    request, replays it through the Koa application and settles the job from
    what the replay left behind. The application callback is not modelled
    as code: its effect on the request and the mock response is an input. */
module Worker {
  import opened JsValues
  import Lodash
  import opened Objects
  import opened Snapshot
  import opened Reconcile

  /** A call the processor makes on its job. */
  datatype JobAction = Resolve(value: Value) | Retry(flag: Value) | Reject(reason: Value)

  /** A job handed over by the broker, with the calls made on it so far. */
  class Job {
    const body: map<string, Value>
    /** The job object itself, as the request's `job` field holds it. */
    const handle: Value
    var actions: seq<JobAction>

    constructor (body: map<string, Value>, handle: Value)
      ensures this.body == body && this.handle == handle && actions == []
    {
      this.body := body;
      this.handle := handle;
      actions := [];
    }

    /** `job.resolve(value)` */
    method Resolve(value: Value)
      modifies this`actions
      ensures actions == old(actions) + [JobAction.Resolve(value)]
    {
      actions := actions + [JobAction.Resolve(value)];
    }

    /** `job.retry(flag)` */
    method Retry(flag: Value)
      modifies this`actions
      ensures actions == old(actions) + [JobAction.Retry(flag)]
    {
      actions := actions + [JobAction.Retry(flag)];
    }

    /** `job.reject(reason)` */
    method Reject(reason: Value)
      modifies this`actions
      ensures actions == old(actions) + [JobAction.Reject(reason)]
    {
      actions := actions + [JobAction.Reject(reason)];
    }
  }

  /** What `await callback(req, res)` leaves behind: the error it threw, if
      any; the error the diverted `ctx.onerror` stored as `req.jobRunError`,
      if it ran; and the mock response's status code, headers and body text. */
  datatype Replay = Replay(thrown: Option<Value>, runError: Option<Value>,
                           statusCode: Value, headers: map<string, Value>, body: string)

  /** The rebuilt request once the replay is over. */
  function Replayed(rebuilt: map<string, Value>, replay: Replay): (r: map<string, Value>)
    ensures replay.runError.Some? ==> Lookup(r, "jobRunError") == replay.runError.value
    ensures forall k :: k in rebuilt && (k != "jobRunError" || replay.runError.None?) ==> k in r && r[k] == rebuilt[k]
    ensures r.Keys == rebuilt.Keys + if replay.runError.Some? then {"jobRunError"} else {}
  {
    if replay.runError.Some? then rebuilt["jobRunError" := replay.runError.value] else rebuilt
  }

  /** The error the `try` block ends with (index.js:115-121): a thrown error,
      else a truthy `req.jobRunError`, else none. */
  function RunFailure(thrown: Option<Value>, jobRunError: Value): (err: Option<Value>)
    ensures err.None? <==> thrown.None? && !Truthy(jobRunError)
    ensures thrown.Some? ==> err == thrown
    ensures err.Some? && thrown.None? ==> err.value == jobRunError
  {
    if thrown.Some? then thrown
    else if Truthy(jobRunError) then Some(jobRunError)
    else None
  }

  /** `_.get(err, 'retry', true)`: retry unless the error says otherwise. */
  function RetryFlag(err: Value): (flag: Value)
    ensures Lodash.Get(err, "retry") == Undefined ==> flag == Bool(true)
    ensures Lodash.Get(err, "retry") != Undefined ==> flag == Lodash.Get(err, "retry")
  {
    Lodash.GetOr(err, "retry", Bool(true))
  }

  /** `_.get(err, 'message', err)`: the message, or the error itself. */
  function RejectReason(err: Value): (reason: Value)
    ensures Lodash.Get(err, "message") == Undefined ==> reason == err
    ensures Lodash.Get(err, "message") != Undefined ==> reason == Lodash.Get(err, "message")
  {
    Lodash.GetOr(err, "message", err)
  }

  /** The calls on the job once the `try` block is over (index.js:119-131):
      with no error the job is resolved with the replayed response, and only
      that; with an error it is first told whether to retry, then rejected,
      and never resolved. */
  function Settled(err: Option<Value>, replay: Replay): (acts: seq<JobAction>)
    ensures acts != [] && forall i :: 0 <= i < |acts| ==> (acts[i].Resolve? <==> err.None?)
    ensures err.None? ==> acts == [Resolve(WorkerResult(replay.statusCode, replay.headers, replay.body))]
    ensures err.Some? ==> |acts| == 2 && acts[0].Retry? && acts[1].Reject?
    ensures err.Some? ==> acts[0].flag == RetryFlag(err.value) && acts[1].reason == RejectReason(err.value)
  {
    match err
    case None => [Resolve(WorkerResult(replay.statusCode, replay.headers, replay.body))]
    case Some(e) => [Retry(RetryFlag(e)), Reject(RejectReason(e))]
  }

  /** The processor on one job (index.js:102-132), given a fresh mock
      request's own fields and what the replay leaves behind. It returns the
      request it built. */
  method Process(job: Job, blank: map<string, Value>, replay: Replay) returns (req: JsObject)
    modifies job`actions
    ensures fresh(req)
    ensures req.props == Replayed(Reconstruct(blank, job.body, job.handle), replay)
    ensures job.actions == old(job.actions) + Settled(RunFailure(replay.thrown, req.Get("jobRunError")), replay)
  {
    req := new JsObject(blank);
    req.Assign(job.body);
    req.Set("job", job.handle);
    req.Set("fromBeatrix", Lookup(job.body, "state"));
    if replay.runError.Some? {
      req.Set("jobRunError", replay.runError.value);
    }
    var err: Option<Value> := None;
    if replay.thrown.Some? {
      err := replay.thrown;
    } else if Truthy(req.Get("jobRunError")) {
      err := Some(req.Get("jobRunError"));
    }
    if err.None? {
      job.Resolve(WorkerResult(replay.statusCode, replay.headers, replay.body));
      return;
    }
    job.Retry(RetryFlag(err.value));
    job.Reject(RejectReason(err.value));
  }

  /** An error the diverted `onerror` stored fails the job even though the
      callback returned normally: the job is never resolved. */
  lemma DivertedErrorFails(rebuilt: map<string, Value>, replay: Replay)
    requires replay.thrown.None? && replay.runError.Some? && Truthy(replay.runError.value)
    ensures var acts := Settled(RunFailure(None, Lookup(Replayed(rebuilt, replay), "jobRunError")), replay);
            && acts == [Retry(RetryFlag(replay.runError.value)), Reject(RejectReason(replay.runError.value))]
            && forall i :: 0 <= i < |acts| ==> !acts[i].Resolve?
  {
  }

  /** The failure of a replayed request: an error object with a status, a
      message and `retry: false` is not retried and is rejected with the bare
      message. */
  lemma FailureScenario()
    ensures var err := Obj(map["status" := Num(400), "message" := Str("bad"), "retry" := Bool(false)]);
            Settled(Some(err), Replay(None, Some(err), Num(200), map[], "")) == [Retry(Bool(false)), Reject(Str("bad"))]
  {
    var err := Obj(map["status" := Num(400), "message" := Str("bad"), "retry" := Bool(false)]);
    assert Lodash.Get(err, "retry") == Bool(false);
    assert Lodash.Get(err, "message") == Str("bad");
  }

  /** An error without a `retry` field is retried; one that is not an object
      is itself the rejection reason. */
  lemma RetryByDefault(err: Value)
    requires !err.Obj? || "retry" !in err.fields
    ensures RetryFlag(err) == Bool(true)
    ensures !err.Obj? ==> RejectReason(err) == err
  {
  }

  /** A captured request always replays under the guard: Koa's state is an
      object, so the rebuilt request's marker is truthy and the worker's
      request is not captured and sent again. */
  lemma NoRequeue(req: map<string, Value>, encrypted: Value, state: map<string, Value>, blank: map<string, Value>, job: Value)
    ensures var rebuilt := Reconstruct(blank, SnapshotOf(req, encrypted, Obj(state)), job);
            Truthy(Lookup(rebuilt, "fromBeatrix"))
  {
    var rebuilt := Reconstruct(blank, SnapshotOf(req, encrypted, Obj(state)), job);
    assert Lookup(rebuilt, "fromBeatrix") == Obj(state);
  }
}
