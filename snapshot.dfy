/** Capturing a request into a job body (index.js:69-74) and rebuilding a
    request from it on the worker (index.js:108-113). */
module Snapshot {
  import opened JsValues
  import Lodash

  /** The request fields a snapshot carries (index.js:69-72). */
  const RequestKeys: set<string> :=
    {"url", "method", "protocol", "origin", "href", "path", "headers", "body", "query", "params"}

  /** The socket stand-in: only whether the connection was encrypted. */
  function SocketInfo(encrypted: Value): Value {
    Obj(map["encrypted" := encrypted])
  }

  /** The snapshot of a request: those of the ten fields the request holds,
      plus the socket stand-in and the context state; nothing else. */
  function SnapshotOf(req: map<string, Value>, encrypted: Value, state: Value): (snap: map<string, Value>)
    ensures snap.Keys == (req.Keys * RequestKeys) + {"socket", "state"}
    ensures forall k :: k in req && k in RequestKeys ==> snap[k] == req[k]
    ensures snap["socket"] == SocketInfo(encrypted)
    ensures snap["state"] == state
  {
    Lodash.Pick(req, RequestKeys)["socket" := SocketInfo(encrypted)]["state" := state]
  }

  /** The worker's synthetic request (index.js:108-113): a blank request with
      the job body assigned over it, then the job itself and the replay
      marker, which is the body's `state`. The body wins over the blank
      request on every key it holds; the blank request shows through on every
      other key. */
  function Reconstruct(blank: map<string, Value>, body: map<string, Value>, job: Value): (r: map<string, Value>)
    ensures r.Keys == blank.Keys + body.Keys + {"job", "fromBeatrix"}
    ensures r["fromBeatrix"] == Lookup(body, "state") && r["job"] == job
    ensures forall k :: k in body && k != "job" && k != "fromBeatrix" ==> r[k] == body[k]
    ensures forall k :: k in blank && k !in body && k != "job" && k != "fromBeatrix" ==> r[k] == blank[k]
  {
    Lodash.Assign(blank, body)["job" := job]["fromBeatrix" := Lookup(body, "state")]
  }

  /** Capture followed by replay: the rebuilt request holds every snapshot
      field as captured (in particular the ten request fields the live
      request had), carries the captured state as its replay marker, and
      keeps the blank request's value on every key outside the snapshot. */
  lemma ReplayRoundTrip(req: map<string, Value>, encrypted: Value, state: Value, blank: map<string, Value>, job: Value)
    ensures var snap := SnapshotOf(req, encrypted, state);
            var r := Reconstruct(blank, snap, job);
            && (forall k :: k in snap ==> k in r && r[k] == snap[k])
            && (forall k :: k in req && k in RequestKeys ==> k in r && r[k] == req[k])
            && r["fromBeatrix"] == state
            && (forall k :: k in blank && k !in snap && k != "job" && k != "fromBeatrix" ==> r[k] == blank[k])
  {
    ReservedKeys();
    var snap := SnapshotOf(req, encrypted, state);
    assert "job" !in snap.Keys && "fromBeatrix" !in snap.Keys;
  }

  /** The two fields the worker sets itself are not snapshot fields. */
  lemma ReservedKeys()
    ensures "job" !in RequestKeys && "fromBeatrix" !in RequestKeys
    ensures "job" !in {"socket", "state"} && "fromBeatrix" !in {"socket", "state"}
  {
  }

  /** The replay marker is set exactly when the captured state is truthy.
      Koa starts every context with an empty object as its state, which is
      truthy, so only a handler that replaces the state with a falsy value
      lets a replayed request through to dispatch again. */
  lemma MarkerFromState(req: map<string, Value>, encrypted: Value, state: Value, blank: map<string, Value>, job: Value)
    ensures Truthy(Reconstruct(blank, SnapshotOf(req, encrypted, state), job)["fromBeatrix"]) <==> Truthy(state)
  {
  }
}
