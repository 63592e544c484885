/** The bridge instance (index.js:6-99): construction, `makeQueue` and the
    middleware it returns. The broker is abstract: `assertQueue` and
    `queue.request` appear as entries of two logs, and the settled outcome
    of a request is an input. */
module Bridge {
  import opened JsValues
  import Lodash
  import opened Objects
  import opened QueueNames
  import opened Config
  import opened Snapshot
  import opened Reconcile
  import opened Koa

  /** The Koa application as the bridge sees it. */
  datatype App = App(contextBeatrix: Value, jobProcessor: Value)

  /** A `beatrix.assertQueue(name, config)` call. */
  datatype QueueDecl = QueueDecl(name: string, config: map<string, Value>)

  /** A `queue.request(snapshot, config)` call on the named queue. */
  datatype Dispatch = Dispatch(queue: string, snapshot: map<string, Value>, config: map<string, Value>)

  /** `queue.request` on a middleware whose queue was never asserted. */
  const QueueMissing: Value :=
    Obj(map["name" := Str("TypeError"), "message" := Str("Cannot read properties of undefined (reading 'request')")])

  /** The snapshot of the live request (index.js:69-74), built field by field. */
  method CaptureSnapshot(ctx: Context) returns (snap: map<string, Value>)
    ensures snap == SnapshotOf(ctx.req.props, ctx.socketEncrypted, ctx.state)
    ensures snap.Keys == (ctx.req.props.Keys * RequestKeys) + {"socket", "state"}
  {
    snap := Lodash.Pick(ctx.req.props, RequestKeys);
    snap := snap["socket" := SocketInfo(ctx.socketEncrypted)];
    snap := snap["state" := ctx.state];
  }

  /** What `makeQueue` returns: the middleware closure over the merged config,
      the broker's queue config and the current queue. */
  class Middleware {
    const config: JsObject
    const queueConfig: map<string, Value>
    /** The closure's `queue` variable, reassigned per request in path mode. */
    var queue: Option<string>

    constructor (config: JsObject, queueConfig: map<string, Value>, queue: Option<string>)
      ensures this.config == config && this.queueConfig == queueConfig && this.queue == queue
    {
      this.config := config;
      this.queueConfig := queueConfig;
      this.queue := queue;
    }

    /** `config.nameFromPath === true` */
    predicate PathMode()
      reads this, config
      ensures PathMode() <==> "nameFromPath" in config.props && config.props["nameFromPath"] == Bool(true)
    {
      Lookup(config.props, "nameFromPath") == Bool(true)
    }
  }

  class BeatrixBridge {
    /** The caller's options object, with the defaults filled in. */
    const options: JsObject
    const broker: BrokerSource
    /** Every `assertQueue` call, in order. */
    var declared: seq<QueueDecl>
    /** Every `queue.request` call, in order. */
    var dispatched: seq<Dispatch>

    constructor (options: JsObject, broker: BrokerSource)
      ensures this.options == options && this.broker == broker
      ensures declared == [] && dispatched == []
    {
      this.options := options;
      this.broker := broker;
      declared := [];
      dispatched := [];
    }

    /** The prefix as a queue-name part. */
    function Prefix(): string
      reads this, options
    {
      Text(Lookup(options.props, "prefix"))
    }

    /** `KoaBeatrix(app, options)` (index.js:6-38): the defaults go into the
        caller's options object, then the broker source is chosen; with none
        available construction fails (the options stay updated). */
    static method Create(app: App, options: JsObject) returns (r: Result<BeatrixBridge, string>)
      modifies options
      ensures options.props == Lodash.Defaults(old(options.props), DefaultOptions(app.jobProcessor))
      ensures SelectBroker(app.contextBeatrix, old(options.props)).Failure? ==>
        r == Failure(NoBrokerSource)
      ensures SelectBroker(app.contextBeatrix, old(options.props)).Success? ==>
        && r.Success? && fresh(r.value)
        && r.value.options == options
        && r.value.broker == SelectBroker(app.contextBeatrix, old(options.props)).value
        && r.value.declared == [] && r.value.dispatched == []
    {
      DefaultsKeepBrokerSource(app.contextBeatrix, options.props, app.jobProcessor);
      options.Defaults(DefaultOptions(app.jobProcessor));
      var source := SelectBroker(app.contextBeatrix, options.props);
      if source.Failure? {
        return Failure(source.error);
      }
      var b := new BeatrixBridge(options, source.value);
      r := Success(b);
    }

    /** `makeQueue(name, config)` (index.js:48-57): the config, a fresh empty
        one when none is given, inherits the options except `beatrix`; a
        static queue is asserted right away under its joined name. */
    method MakeQueue(name: Value, config: JsObject?) returns (mw: Middleware)
      modifies this`declared, config
      ensures fresh(mw)
      ensures config != null ==> mw.config == config
      ensures config == null ==> fresh(mw.config)
      ensures mw.config.props == MergedConfig(if config == null then map[] else old(config.props), old(options.props))
      ensures mw.queueConfig == QueueConfig(mw.config.props)
      ensures !mw.PathMode() ==>
        && mw.queue == Some(StaticQueueName(Prefix(), Text(name)))
        && declared == old(declared) + [QueueDecl(mw.queue.value, mw.queueConfig)]
      ensures mw.PathMode() ==> mw.queue == None && declared == old(declared)
    {
      var cfg: JsObject;
      if config == null {
        cfg := new JsObject(map[]);
      } else {
        cfg := config;
      }
      cfg.Defaults(Lodash.Omit(options.props, {"beatrix"}));
      var queueConfig := Lodash.Omit(cfg.props, HandlerKeys);
      var queue: Option<string> := None;
      if Lookup(cfg.props, "nameFromPath") != Bool(true) {
        var queueName := StaticQueueName(Prefix(), Text(name));
        declared := declared + [QueueDecl(queueName, queueConfig)];
        queue := Some(queueName);
      }
      mw := new Middleware(cfg, queueConfig, queue);
    }

    /** The middleware (index.js:58-92) on one request, given how the broker
        settles the request it sends. A request carrying the replay marker is
        not captured or sent anywhere: its state comes from the marker, its
        errors are diverted and it goes on to the business logic
        (index.js:59-67). Any other request is dispatched. */
    method Handle(mw: Middleware, ctx: Context, outcome: Settlement)
      modifies this`declared, this`dispatched, mw`queue, ctx, ctx.req
      // the replay guard
      ensures Truthy(old(ctx.req.Get("fromBeatrix"))) ==>
        && declared == old(declared) && dispatched == old(dispatched)
        && ctx.state == old(ctx.req.Get("fromBeatrix")) && ctx.divertErrors
        && ctx.nextCalls == old(ctx.nextCalls) + 1
        && ctx.Response() == old(ctx.Response()) && ctx.errorResponses == old(ctx.errorResponses)
        && mw.queue == old(mw.queue) && ctx.req.props == old(ctx.req.props)
      // a live request
      ensures !Truthy(old(ctx.req.Get("fromBeatrix"))) ==>
        && ctx.state == old(ctx.state) && ctx.divertErrors == old(ctx.divertErrors)
        && ctx.nextCalls == old(ctx.nextCalls)
        && mw.queue == (if old(mw.PathMode()) then Some(PathQueueName(old(Prefix()), ctx.path)) else old(mw.queue))
        && declared == old(declared) + (if old(mw.PathMode()) then [QueueDecl(mw.queue.value, mw.queueConfig)] else [])
        && dispatched == old(dispatched) + (if mw.queue.Some? then
             [Dispatch(mw.queue.value, SnapshotOf(old(ctx.req.props), ctx.socketEncrypted, old(ctx.state)), old(mw.config.props))]
           else [])
        && ctx.Response() == (if mw.queue.Some? then Reconciled(old(ctx.Response()), outcome) else old(ctx.Response()))
        && ctx.errorResponses == old(ctx.errorResponses) + (if mw.queue.None? && !ctx.divertErrors then [QueueMissing] else [])
        && ctx.req.props == (if mw.queue.None? && ctx.divertErrors then old(ctx.req.props)["jobRunError" := QueueMissing] else old(ctx.req.props))
    {
      var marker := ctx.req.Get("fromBeatrix");
      if Truthy(marker) {
        ctx.EnterReplay(marker);
        return;
      }
      DispatchLive(mw, ctx, outcome);
    }

    /** In path mode, assert the queue named from the request path and make it
        the middleware's queue (index.js:76-81); otherwise keep the queue. */
    method ResolveQueue(mw: Middleware, path: string)
      modifies this`declared, mw`queue
      ensures mw.queue == if mw.PathMode() then Some(PathQueueName(Prefix(), path)) else old(mw.queue)
      ensures declared == old(declared) + if mw.PathMode() then [QueueDecl(mw.queue.value, mw.queueConfig)] else []
    {
      if mw.PathMode() {
        var queueName := PathQueueName(Prefix(), path);
        declared := declared + [QueueDecl(queueName, mw.queueConfig)];
        mw.queue := Some(queueName);
      }
    }

    /** A live request (index.js:69-91): capture it, resolve its queue, send
        it and answer from the outcome. A middleware left without a queue
        throws, and the context's `onerror` gets the TypeError. */
    method DispatchLive(mw: Middleware, ctx: Context, outcome: Settlement)
      modifies this`declared, this`dispatched, mw`queue, ctx`status, ctx`headers, ctx`body, ctx`errorResponses, ctx.req
      ensures mw.queue == if old(mw.PathMode()) then Some(PathQueueName(old(Prefix()), ctx.path)) else old(mw.queue)
      ensures declared == old(declared) + if old(mw.PathMode()) then [QueueDecl(mw.queue.value, mw.queueConfig)] else []
      ensures dispatched == old(dispatched) +
        if mw.queue.Some? then [Dispatch(mw.queue.value, SnapshotOf(old(ctx.req.props), ctx.socketEncrypted, old(ctx.state)), old(mw.config.props))] else []
      ensures ctx.Response() == if mw.queue.Some? then Reconciled(old(ctx.Response()), outcome) else old(ctx.Response())
      ensures ctx.errorResponses == old(ctx.errorResponses) + if mw.queue.None? && !ctx.divertErrors then [QueueMissing] else []
      ensures ctx.req.props == if mw.queue.None? && ctx.divertErrors then old(ctx.req.props)["jobRunError" := QueueMissing] else old(ctx.req.props)
    {
      var snap := CaptureSnapshot(ctx);
      Route(mw, ctx, snap, outcome);
    }

    /** Resolve the queue of a captured request, then deliver it
        (index.js:76-91). */
    method Route(mw: Middleware, ctx: Context, snap: map<string, Value>, outcome: Settlement)
      modifies this`declared, this`dispatched, mw`queue, ctx`status, ctx`headers, ctx`body, ctx`errorResponses, ctx.req
      ensures mw.queue == if old(mw.PathMode()) then Some(PathQueueName(old(Prefix()), ctx.path)) else old(mw.queue)
      ensures declared == old(declared) + if old(mw.PathMode()) then [QueueDecl(mw.queue.value, mw.queueConfig)] else []
      ensures dispatched == old(dispatched) + if mw.queue.Some? then [Dispatch(mw.queue.value, snap, old(mw.config.props))] else []
      ensures ctx.Response() == if mw.queue.Some? then Reconciled(old(ctx.Response()), outcome) else old(ctx.Response())
      ensures ctx.errorResponses == old(ctx.errorResponses) + if mw.queue.None? && !ctx.divertErrors then [QueueMissing] else []
      ensures ctx.req.props == if mw.queue.None? && ctx.divertErrors then old(ctx.req.props)["jobRunError" := QueueMissing] else old(ctx.req.props)
    {
      ResolveQueue(mw, ctx.path);
      Deliver(mw.queue, mw.config, ctx, snap, outcome);
    }

    /** With no queue the middleware raises the `queue.request` TypeError
        (index.js:83); otherwise it sends the snapshot (index.js:83-91). */
    method Deliver(queue: Option<string>, config: JsObject, ctx: Context, snap: map<string, Value>, outcome: Settlement)
      modifies this`dispatched, ctx`status, ctx`headers, ctx`body, ctx`errorResponses, ctx.req
      ensures dispatched == old(dispatched) + if queue.Some? then [Dispatch(queue.value, snap, config.props)] else []
      ensures ctx.Response() == if queue.Some? then Reconciled(old(ctx.Response()), outcome) else old(ctx.Response())
      ensures ctx.errorResponses == old(ctx.errorResponses) + if queue.None? && !ctx.divertErrors then [QueueMissing] else []
      ensures ctx.req.props == if queue.None? && ctx.divertErrors then old(ctx.req.props)["jobRunError" := QueueMissing] else old(ctx.req.props)
    {
      if queue.None? {
        ctx.RaiseError(QueueMissing);
      } else {
        Send(queue.value, config, ctx, snap, outcome);
      }
    }

    /** `queue.request(req, config)` and the handlers on its outcome
        (index.js:83-91). */
    method Send(queue: string, config: JsObject, ctx: Context, snap: map<string, Value>, outcome: Settlement)
      modifies this`dispatched, ctx`status, ctx`headers, ctx`body
      ensures dispatched == old(dispatched) + [Dispatch(queue, snap, config.props)]
      ensures ctx.Response() == Reconciled(old(ctx.Response()), outcome)
    {
      dispatched := dispatched + [Dispatch(queue, snap, config.props)];
      ctx.Settle(outcome);
    }
  }
}
