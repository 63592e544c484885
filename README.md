# koa-beatrix, modelled in Dafny

koa-beatrix is Koa middleware. It turns an HTTP request into a job on a
Beatrix (RabbitMQ) queue. It holds the connection open while a worker
replays the request through the same Koa application, and it answers the
connection from the job's outcome. This project models the core of
`index.js` and proves properties of that model:

- **Construction**: `KoaBeatrix(app, options)`. The defaults are filled into
  the caller's options object in place. The broker source is chosen from the
  app context, then an instance passed in, then settings to build one. When
  none is available, construction fails with `Unable to find a Beatrix
  source`.
- **`makeQueue(name, config)`**: the queue's config inherits the instance
  options, except `beatrix`. The broker's queue config drops the three
  handlers. A static queue is asserted at once, under
  `[prefix, name].filter(Boolean).join('.')`.
- **The middleware on one request**:
  - The replay guard: a request carrying `fromBeatrix` gets its state back,
    its errors diverted into `req.jobRunError`, and goes straight on to the
    business logic.
  - Otherwise the request is captured into a snapshot. In path mode its queue
    is derived from the path (trim slashes, inner slashes to dashes, the root
    named `index`, lowercase). The snapshot is sent.
  - The default `onSuccess`, `onTimeout` and `onError` handlers turn the
    outcome into the response. A nullish result makes `onSuccess` throw, and
    `onError` answers it.
- **The job processor**: the worker rebuilds a request from the job body
  (`_.assign`, then `job` and `fromBeatrix`) and replays it. It then either
  resolves the job with the replayed response, or calls `job.retry` and
  `job.reject`.

Layout:

- `js_values.dfy`: JavaScript values (with truthiness and nullishness).
- `lodash.dfy`: the lodash helpers used (`get`, `defaults`, `omit`, `pick`,
  `assign`).
- `objects.dfy`: a mutable JS object class, for the options object, a
  queue's config and the worker's request, which the source updates in place.
- `queue_names.dfy`: queue-name derivation.
- `naming_examples.dfy`: concrete names.
- `config.dfy`: option merging and broker selection.
- `snapshot.dfy`: capture and reconstruction.
- `reconcile.dfy`: outcome to response, as pure functions.
- `koa.dfy`: the Koa context as a class. Its methods are `ctx.set`, the
  header loop, the default handlers, the guard's branch and `onerror`. The
  handler methods (`OnSuccess`, `OnTimeout`, `OnError`, `Settle`) are proved
  against the `reconcile.dfy` functions. `Set`, `SetEach`, `EnterReplay` and
  `RaiseError` state their new fields directly.
- `bridge.dfy`: the bridge instance and the middleware, as classes.
- `worker.dfy`: the job and the job processor.

The broker is abstract. `assertQueue` and `queue.request` are recorded as
entries of two logs (`declared`, `dispatched`). How a sent request settles is
an input to the middleware. What the replayed Koa application leaves behind
(a thrown error, a diverted error, the mock response) is an input to the job
processor.

Three choices of the code that the model keeps as written:

- The snapshot is a shallow `_.pick` of the ten request fields
  (index.js:69-72). The field values are shared with the live request, not
  deep-copied.
- A failing job is rejected with `_.get(err, 'message', err)` (index.js:130).
  That is the message, or else the error value itself, unchanged. It is not
  turned into a string. Only that reason goes back to the broker. Whether the waiting connection
  then answers with the pipeline's status (say 400) or with the default 500
  depends on what the broker rebuilds from it, and the broker is not part of
  this model. `Reconcile.BareMessageRejection` proves the 500 case for a bare
  message.
- `/a/b` and `/a-b` derive the same queue (`NamingExamples.SlashDashCollide`).
  The model keeps that as the code does it.

## Model

| member | source | states |
|---|---|---|
| `JsValues.Truthy` | index.js:59 | JavaScript truthiness, as the tests at index.js:30, 32, 59 and 119 use it: exactly `undefined`, `null`, `false`, `0` and the empty string are falsy |
| `Lodash.Get` | index.js:32 | `_.get(v, key)`, as at index.js:17, 25-26, 32, 86 and 129-130: an object's own field, undefined for a missing field and for any value that is not an object |
| `Lodash.GetOr` | index.js:17 | `_.get(v, key, d)`, as at index.js:17, 25-26 and 129-130: the field when it is defined, the default when it reads as undefined |
| `Lodash.Defaults` | index.js:49 | `_.defaults`: the result has the keys of both; every defined key of the target is kept; a key the target lacks or holds as undefined takes the source's value |
| `Lodash.DefaultsIdempotent` | index.js:49 | applying `_.defaults` twice with the same source equals applying it once |
| `Lodash.Omit` | index.js:52 | `_.omit`: exactly the other keys remain, with their values |
| `Lodash.Pick` | index.js:69-72 | `_.pick`: exactly the listed keys the object has remain, with their values |
| `Lodash.Assign` | index.js:108 | `_.assign`: keys of both, the source's values win, every other target key is kept |
| `Objects.JsObject.Defaults` | index.js:12-28 | the object is updated in place to `_.defaults` of its old fields and the source |
| `Objects.JsObject.Assign` | index.js:108 | the object is updated in place to `_.assign` of its old fields and the source |
| `Objects.JsObject.Set` | index.js:112-113 | an assignment to one field changes that field only |
| `Config.DefaultOptions` | index.js:12-28 | the defaults hold exactly prefix, nameFromPath, process and the three handlers, and no `beatrix` |
| `Config.MergedConfig` | index.js:49 | a queue's config keeps every value the caller defined, keeps a caller's undefined value that no option fills, takes every other missing value from the options, and never inherits `beatrix` |
| `Config.QueueConfig` | index.js:52 | the broker's queue config has no handler keys and passes every other key through unchanged |
| `Config.MergeIdempotent` | index.js:49 | merging an already merged config with the same options again returns it unchanged. |
| `Config.SelectBroker` | index.js:30-38 | construction fails exactly when the app context has no broker and the options have no `beatrix` key; otherwise it picks the context's broker, else a supplied instance (one with `assertQueue`), else settings to build one |
| `Config.SuppliedInstanceKept` | index.js:30-34 | with no broker on the app context, a broker instance passed as `options.beatrix` (an object whose `assertQueue` is a method) is kept as the broker itself |
| `Config.SourceIgnoresOtherKeys` | index.js:30-38 | the broker source depends only on the app context and the options' `beatrix` entry |
| `Config.DefaultsKeepBrokerSource` | index.js:12-38 | filling in the defaults before selecting never changes which broker source is chosen |
| `QueueNames.TrimStart` | index.js:78 | the left half of `_.trim`: a suffix of the input, everything dropped is `c`, and the result does not start with `c` |
| `QueueNames.TrimEnd` | index.js:78 | the right half of `_.trim`: a prefix of the input, everything dropped is `c`, and the result does not end with `c` |
| `QueueNames.Trim` | index.js:78 | `_.trim(s, c)` is no longer than its input and has no `c` at either end |
| `QueueNames.TrimIs` | index.js:78 | `_.trim` yields exactly the part between the leading run and the trailing run of `c` |
| `QueueNames.ReplaceAll` | index.js:78 | `replace(/\//g, '-')`: same length, every slash becomes a dash, every other character is kept |
| `QueueNames.ToLower` | index.js:78 | lowercasing keeps the length, lowercases each character, and yields a lowercase string |
| `QueueNames.Slug` | index.js:78 | the path part of a derived queue name is never empty, has no slash and is lowercase |
| `QueueNames.RootSlug` | index.js:78 | an empty path, or one made only of slashes, derives `index` |
| `QueueNames.SlugIdempotent` | index.js:78 | a slug turned into a slug again is unchanged |
| `QueueNames.SlugIgnoresOuterSlashes` | index.js:78 | a leading or a trailing slash never changes the derived name |
| `QueueNames.SlugIgnoresCase` | index.js:78 | paths that differ only in letter case derive the same name |
| `QueueNames.Filled` | index.js:55 | `filter(Boolean)` on strings: a part is in the result exactly when it is in the input and not empty, and the result is no longer than the input |
| `QueueNames.FilledConcat` | index.js:55 | filtering a concatenation gives the two filtered pieces in turn, so order and repetition are kept |
| `QueueNames.FilledOne` | index.js:55 | a single part is kept exactly when it is not empty |
| `QueueNames.JoinDots` | index.js:80 | `.join('.')`, as at index.js:55 and 80: no parts give the empty string, one part gives itself, and more start with the first part followed by a dot; `QueueNames.JoinPair` pins the two-part use exactly |
| `QueueNames.JoinPair` | index.js:55 | joining the non-empty parts of `[a, b]` with dots gives `b`, `a` or `a.b` |
| `QueueNames.StaticQueueName` | index.js:55 | a static name is the name alone without a prefix, the prefix alone without a name, otherwise `prefix.name` |
| `QueueNames.PathQueueName` | index.js:77-80 | a path-derived name is the slug, under `prefix.` when there is a prefix; it is never empty |
| `NamingExamples.NestedSlug` | index.js:78 | `/Foo/Bar/` derives `foo-bar` |
| `NamingExamples.NestedQueueName` | index.js:77-80 | under the prefix `api`, `/Foo/Bar/` is served by the queue `api.foo-bar` |
| `NamingExamples.RootSlugExample` | index.js:78 | `/` and `///` derive `index` |
| `NamingExamples.RootQueueName` | index.js:77-80 | the root path `/` is served by `api.index` under the prefix `api`, and by `index` without a prefix |
| `NamingExamples.UnderPrefix` | index.js:77-80 | an instance of `QueueNames.PathQueueName`'s contract for a non-empty prefix, with the slug given by name; the two queue-name examples above use it |
| `NamingExamples.StaticNames` | index.js:55 | `jobs` without a prefix stays `jobs`; with prefix `api` it is `api.jobs` |
| `NamingExamples.SlashDashCollide` | index.js:78 | `/a/b` and `/a-b` derive the same name `a-b` |
| `Snapshot.SnapshotOf` | index.js:69-74 | a snapshot holds exactly those of the ten request fields the request has, copied, plus the socket stand-in and the state |
| `Snapshot.Reconstruct` | index.js:108-113 | the rebuilt request has the body's values over the blank request's, the job, and the body's `state` as replay marker |
| `Snapshot.ReplayRoundTrip` | index.js:69-113 | capture then rebuild: every snapshot field and every captured request field arrives unchanged, the marker is the captured state, and other blank fields show through |
| `Snapshot.MarkerFromState` | index.js:113 | the rebuilt request's marker is truthy exactly when the captured state is |
| `Reconcile.IsTimeout` | index.js:86 | a rejection is a timeout exactly when it is an object whose `code` field is the string `ETIMEOUT` |
| `Reconcile.ResultHeaders` | index.js:18 | the headers `_.forEach(result.headers, …)` walks: the fields of `result.headers` when it is an object, none otherwise, and none for a result that is not an object |
| `Reconcile.Succeeded` | index.js:16-20 | the default `onSuccess` sets the status (default 200); it throws exactly on a nullish result, leaving headers and body; otherwise it adds the result's headers and sets the result's body |
| `Reconcile.TimedOut` | index.js:21-23 | the default `onTimeout` sets 202 and keeps headers and body |
| `Reconcile.Errored` | index.js:24-27 | the default `onError` sets the error's status (default 500) and its message (default the error itself), and keeps the headers |
| `Reconcile.Caught` | index.js:85-91 | an `ETIMEOUT` error gets 202 with body and headers kept; any other goes to `onError` |
| `Reconcile.WorkerResult` | index.js:123-127 | the value the worker resolves has exactly the fields `headers`, `status` and `body`, holding the replayed headers, status and body text |
| `Reconcile.Reconciled` | index.js:83-91 | success: status (default 200), headers copied over, body. Timeout: 202 with nothing else changed. Other errors: status (default 500) and body (message, else the error). A nullish result is answered as an error. Headers only grow |
| `Reconcile.ResolvedRoundTrip` | index.js:123-127 | what the worker resolves comes back as the replayed status (200 if none), its headers added and its body |
| `Reconcile.BareMessageRejection` | index.js:130 | a rejection carrying only a message is answered with 500 and that message |
| `Koa.Context.Set` | index.js:18 | `ctx.set` changes that header only |
| `Koa.Context.SetEach` | index.js:18 | the header loop sets every field of the result's headers and keeps the other headers |
| `Koa.Context.OnSuccess` | index.js:16-20 | the default `onSuccess` leaves the response, and throws the error, that `Reconcile.Succeeded` gives |
| `Koa.Context.OnTimeout` | index.js:21-23 | the default `onTimeout` sets 202 and nothing else |
| `Koa.Context.OnError` | index.js:24-27 | the default `onError` sets status and body as `Reconcile.Errored` gives |
| `Koa.Context.Settle` | index.js:83-91 | the `then`/`catch` chain leaves the response that `Reconcile.Reconciled` gives |
| `Koa.Context.EnterReplay` | index.js:63-66 | the guard turns error diversion on, restores the state from the marker and calls `next` once |
| `Koa.Context.RaiseError` | index.js:63 | with diversion on, an error lands in `req.jobRunError` and no error response is produced; otherwise it becomes an error response and the request is untouched |
| `Bridge.CaptureSnapshot` | index.js:69-74 | the captured snapshot equals `Snapshot.SnapshotOf` of the live request, its socket flag and its state |
| `Bridge.Middleware.PathMode` | index.js:76 | `config.nameFromPath === true`, as at index.js:54 and 76: path mode exactly when the key holds the boolean `true`, so a merely truthy value does not count |
| `Bridge.BeatrixBridge.Create` | index.js:6-38 | the options are updated to their defaults; construction fails with the configuration error exactly when no broker source exists, else yields a fresh bridge with the selected source and empty logs |
| `Bridge.BeatrixBridge.MakeQueue` | index.js:48-57 | the config (a fresh one when none is given) is merged in place; the queue config drops the handlers; a static queue is asserted once under its joined name, a path-mode queue not at all |
| `Bridge.BeatrixBridge.Handle` | index.js:58-92 | a marked request is neither declared nor dispatched and gets its state from the marker with errors diverted; any other request is captured, its queue resolved, and then either sent (response reconciled from the outcome) or failed with the missing-queue error |
| `Bridge.BeatrixBridge.ResolveQueue` | index.js:76-81 | in path mode the path-derived queue is asserted and becomes the middleware's queue; otherwise nothing changes |
| `Bridge.BeatrixBridge.DispatchLive` | index.js:69-91 | the live branch: at most one declaration, exactly one dispatch of the captured snapshot with the merged config when a queue exists, and the response that `Reconcile.Reconciled` gives |
| `Bridge.BeatrixBridge.Route` | index.js:76-91 | the captured request's queue is resolved (one declaration in path mode), then the request is delivered or fails with the missing-queue error |
| `Bridge.BeatrixBridge.Deliver` | index.js:83-91 | with a queue: one dispatch and the reconciled response; without one: no dispatch, the response untouched, the TypeError raised |
| `Bridge.BeatrixBridge.Send` | index.js:83-91 | `queue.request` is logged once with the snapshot and config, and the response is reconciled from its outcome |
| `Worker.Job.Resolve` | index.js:123 | `job.resolve` is appended to the job's calls |
| `Worker.Job.Retry` | index.js:129 | `job.retry` is appended to the job's calls |
| `Worker.Job.Reject` | index.js:130 | `job.reject` is appended to the job's calls |
| `Worker.Replayed` | index.js:63 | an error the diverted `onerror` stored becomes the request's `jobRunError`, and the only key ever added; without one the request is unchanged |
| `Worker.RunFailure` | index.js:115-121 | the `try` block fails exactly when the callback threw or `req.jobRunError` is truthy; a thrown error takes precedence |
| `Worker.RetryFlag` | index.js:129 | the retry flag is the error's `retry` field, or true when it has none |
| `Worker.RejectReason` | index.js:130 | the rejection reason is the error's `message` field, or the error itself when it has none |
| `Worker.Settled` | index.js:119-131 | the job is resolved exactly when nothing failed, with the replayed response; on failure it is told once whether to retry and then rejected |
| `Worker.Process` | index.js:102-132 | the processor builds the rebuilt request, plus any diverted error, and makes exactly the calls `Worker.Settled` gives |
| `Worker.DivertedErrorFails` | index.js:119-121 | a diverted truthy error fails the job although the callback returned normally |
| `Worker.FailureScenario` | index.js:128-130 | `{status: 400, message: "bad", retry: false}` gives `retry(false)` then `reject("bad")` |
| `Worker.RetryByDefault` | index.js:129-130 | an error without `retry` is retried; a non-object error is its own rejection reason |
| `Worker.NoRequeue` | index.js:59-113 | a request rebuilt from a capture whose state is an object (Koa starts every context with `{}`) carries a truthy marker before the replay starts, so the guard lets it through and it is not captured and sent again |

## Left out

- The broker: queue registration, message transport, timeouts, redelivery
  and `Beatrix(options.beatrix)` construction. `assertQueue` and
  `queue.request` are logged calls, and a request's settlement is an input.
- The Koa pipeline, `next()`, `app.callback()`, and the internals of
  mock-req and mock-res. The replayed application's effect is an input to
  `Worker.Process`.
- Asynchrony: promises and the interleaving of concurrent requests. Each
  request is handled as one uninterrupted step.
- `_.uniqueId` and `self.id` (index.js:8), which nothing reads.
- The exact texts of the V8 TypeErrors (a nullish result, a missing queue).
  They are fixed placeholder values.
- Handler overrides supplied by the caller are foreign code, so only the
  default handlers are modelled.
- Koa.Context.Settle: always runs the default handlers, not ones a caller
  put in the options or the queue config.
- Lodash.Get: reads no property of a `Ref`. A host object whose
  properties the code reads must be encoded as an `Obj`. A broker instance
  passed as `options.beatrix` is an `Obj` whose `assertQueue` field holds a
  `Ref` (`Config.SuppliedInstanceKept`). Encoded as a bare `Ref`, it would
  be taken for broker settings.
- Reconcile.Reconciled: keeps `_.get(result, 'status', 200)` as given. It
  does not apply JavaScript's `Number()` coercion (index.js:17). The status
  is not a JS number in every case. Koa's status setter is not modelled
  either: it throws on a status that is not an integer in range, and the
  model stores any status. The side effects of Koa's body setter (content
  type, 204 for a null or undefined body) are not modelled either. Node's
  `res.setHeader`, behind `ctx.set`, throws on an empty or invalid header
  name or on a value holding CR or LF. The source's `onSuccess` then stops
  partway through the header loop (index.js:18) with the body unset, and
  `.catch` answers with `onError`. The model sets every header and the
  body.
- Reconcile.Succeeded: the same as `Reconcile.Reconciled`. The status is
  kept without `Number()` and without the checks of Koa's status setter.
  The body setter's side effects, such as 204 for a null or undefined
  body, are not modelled. A header that Node's `res.setHeader` refuses
  does not make it throw.
- Reconcile.Errored: the error's status is kept as given, without the
  checks of Koa's status setter. The body setter's side effects are not
  modelled.
- Koa.Context.OnSuccess: same as above, no `Number()` coercion of the
  status and no check by Koa's status setter. The side effects of Koa's
  status and body setters (content type, 204 for a null or undefined body)
  are not modelled. A header that Node's `res.setHeader` refuses does not
  make it throw.
- Koa.Context.OnError: the error's status is stored as given. Koa's status
  setter, which throws on a non-integer or out-of-range status, is not
  modelled, and neither are the body setter's side effects.
- Koa.Context.Set: header names are kept as given, though Node compares
  them case-insensitively. The value is kept as a raw `Value`. Koa stores
  `String(val)`, or a string for each element of an array. Node's
  `res.setHeader` throws on an empty or invalid header name, or on a value
  holding CR or LF. The model's `Set` never fails.
- Reconcile.ResultHeaders: a `headers` value that is not a plain object
  counts as no headers. `_.forEach` would walk a string's characters or an
  array's indices.
- QueueNames.ToLower: lowercases ASCII letters only, not the full Unicode
  case mapping of `toLowerCase`.
- Bridge.BeatrixBridge.MakeQueue: a name or prefix that is not a string
  counts as empty (`Config.Text`). JavaScript would stringify a truthy
  non-string, such as a number, and join it.
- Bridge.BeatrixBridge.Create: needs an options object. Without one, the
  source fills the defaults into a discarded object. If the app context has
  no broker, reading `options.beatrix` (index.js:32) then throws a
  TypeError during construction. If it has one, construction succeeds. The
  TypeError comes later: at `makeQueue` when it reads `self.options.prefix`
  for a static queue (index.js:55), or on the first request in path mode
  (index.js:77).
- Snapshot.ReplayRoundTrip: feeds the snapshot straight into the
  rebuilding step. It assumes that the broker hands the job body back
  unchanged, with no serialization round trip, which would drop functions
  and undefined values and turn the live objects into copies.
- `ctx.socket.encrypted` is taken as given.
- A `job.resolve`, `job.retry` or `job.reject` that throws.
- Errors thrown by the broker's `request` call itself are not modelled,
  other than through the settlement.
- The value returned by the middleware and the processor (their promises).
