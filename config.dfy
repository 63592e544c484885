/** Option and configuration merging (index.js:12-28, index.js:49-52) and the
    choice of the broker source (index.js:30-38). */
module Config {
  import opened JsValues
  import Lodash

  /** The default handlers, known only by identity. */
  const DefaultOnSuccess := Ref("default onSuccess")
  const DefaultOnTimeout := Ref("default onTimeout")
  const DefaultOnError := Ref("default onError")

  /** The three reconciliation entries, kept out of the broker's queue config. */
  const HandlerKeys: set<string> := {"onSuccess", "onTimeout", "onError"}

  /** The defaults filled into the instance options (index.js:12-28);
      `processor` is the job processor built from the app's callback. */
  function DefaultOptions(processor: Value): (d: map<string, Value>)
    ensures d.Keys == {"prefix", "nameFromPath", "process"} + HandlerKeys
    ensures "beatrix" !in d
  {
    map[
      "prefix" := Str(""),
      "nameFromPath" := Bool(false),
      "process" := processor,
      "onSuccess" := DefaultOnSuccess,
      "onTimeout" := DefaultOnTimeout,
      "onError" := DefaultOnError
    ]
  }

  /** A queue's config after `_.defaults(config, _.omit(options, 'beatrix'))`
      (index.js:49): what the caller supplied is kept, the instance options
      fill the gaps, and the broker settings are never inherited. */
  function MergedConfig(config: map<string, Value>, options: map<string, Value>): (r: map<string, Value>)
    ensures r.Keys == config.Keys + (options.Keys - {"beatrix"})
    ensures forall k :: k in config && config[k] != Undefined ==> r[k] == config[k]
    ensures forall k :: k in options && k != "beatrix" && Lodash.Unset(config, k) ==> r[k] == options[k]
    ensures forall k :: k in config && (k !in options || k == "beatrix") ==> r[k] == config[k]
    ensures "beatrix" in r ==> "beatrix" in config && r["beatrix"] == config["beatrix"]
  {
    Lodash.Defaults(config, Lodash.Omit(options, {"beatrix"}))
  }

  /** The config handed to the broker (index.js:52): the merged config minus
      the three handlers, every other key passed through unchanged. */
  function QueueConfig(merged: map<string, Value>): (q: map<string, Value>)
    ensures "onSuccess" !in q && "onTimeout" !in q && "onError" !in q
    ensures forall k :: k in merged && k !in HandlerKeys ==> k in q && q[k] == merged[k]
    ensures q.Keys <= merged.Keys
  {
    Lodash.Omit(merged, HandlerKeys)
  }

  /** A queue's config, merged once more from the same options, is unchanged:
      the merge is idempotent. */
  lemma MergeIdempotent(config: map<string, Value>, options: map<string, Value>)
    ensures MergedConfig(MergedConfig(config, options), options) == MergedConfig(config, options)
  {
    Lodash.DefaultsIdempotent(config, Lodash.Omit(options, {"beatrix"}));
  }

  /** Where the broker comes from. */
  datatype BrokerSource =
    | FromAppContext(broker: Value)   // `app.context.beatrix`
    | Supplied(broker: Value)         // an instance passed as `options.beatrix`
    | Constructed(settings: Value)    // `Beatrix(options.beatrix)`

  const NoBrokerSource := "Unable to find a Beatrix source"

  /** The broker source (index.js:30-38): the app context's broker first, then
      an options value that has an `assertQueue`, then a fresh broker built
      from any `beatrix` key, present even when undefined; failing all three,
      construction fails. */
  function SelectBroker(contextBeatrix: Value, options: map<string, Value>): (r: Result<BrokerSource, string>)
    ensures r.Failure? <==> !Truthy(contextBeatrix) && "beatrix" !in options
    ensures r.Failure? ==> r.error == NoBrokerSource
    ensures Truthy(contextBeatrix) ==> r == Success(FromAppContext(contextBeatrix))
    ensures !Truthy(contextBeatrix) && "beatrix" in options ==>
      r == Success(
        if Truthy(Lodash.Get(options["beatrix"], "assertQueue"))
        then Supplied(options["beatrix"])
        else Constructed(options["beatrix"]))
  {
    if Truthy(contextBeatrix) then Success(FromAppContext(contextBeatrix))
    else if Truthy(Lodash.Get(Lookup(options, "beatrix"), "assertQueue")) then Success(Supplied(options["beatrix"]))
    else if "beatrix" in options then Success(Constructed(options["beatrix"]))
    else Failure(NoBrokerSource)
  }

  /** A broker instance passed in, whose `assertQueue` is a method, is kept
      as the broker itself, unless the app context already has one. */
  lemma SuppliedInstanceKept(contextBeatrix: Value, options: map<string, Value>, methods: map<string, Value>, tag: string)
    requires !Truthy(contextBeatrix)
    requires "beatrix" in options && options["beatrix"] == Obj(methods)
    requires "assertQueue" in methods && methods["assertQueue"] == Ref(tag)
    ensures SelectBroker(contextBeatrix, options) == Success(Supplied(Obj(methods)))
  {
    assert Lodash.Get(options["beatrix"], "assertQueue") == Ref(tag);
  }

  /** Filling in the defaults never changes the broker source: the defaults
      hold no `beatrix` key. */
  lemma DefaultsKeepBrokerSource(contextBeatrix: Value, options: map<string, Value>, processor: Value)
    ensures SelectBroker(contextBeatrix, Lodash.Defaults(options, DefaultOptions(processor)))
         == SelectBroker(contextBeatrix, options)
  {
    SourceIgnoresOtherKeys(contextBeatrix, options, Lodash.Defaults(options, DefaultOptions(processor)));
  }

  /** The broker source depends on the `beatrix` key alone. */
  lemma SourceIgnoresOtherKeys(contextBeatrix: Value, a: map<string, Value>, b: map<string, Value>)
    requires ("beatrix" in a <==> "beatrix" in b) && ("beatrix" in a ==> a["beatrix"] == b["beatrix"])
    ensures SelectBroker(contextBeatrix, a) == SelectBroker(contextBeatrix, b)
  {
    assert Lookup(a, "beatrix") == Lookup(b, "beatrix");
  }

  /** The text of a queue-name part. A non-string part counts as empty. */
  function Text(v: Value): string {
    if v.Str? then v.s else ""
  }
}
