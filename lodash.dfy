/** The lodash helpers that index.js relies on, as functions on property maps. */
module Lodash {
  import opened JsValues

  /** `_.get(v, key)`: the property of an object, undefined for anything else. */
  function Get(v: Value, key: string): (r: Value)
    ensures v.Obj? && key in v.fields ==> r == v.fields[key]
    ensures !v.Obj? || key !in v.fields ==> r == Undefined
  {
    if v.Obj? then Lookup(v.fields, key) else Undefined
  }

  /** `_.get(v, key, d)`: the default replaces an undefined result only. */
  function GetOr(v: Value, key: string, d: Value): (r: Value)
    ensures Get(v, key) != Undefined ==> r == Get(v, key)
    ensures Get(v, key) == Undefined ==> r == d
  {
    var x := Get(v, key);
    if x == Undefined then d else x
  }

  /** True when `_.defaults` would assign key `k` of a source onto `obj`. */
  predicate Unset(obj: map<string, Value>, k: string) {
    Lookup(obj, k) == Undefined
  }

  /** `_.defaults(obj, src)`: fill in the keys of `src` that `obj` lacks or
      holds as undefined; every other key of `obj` is kept. */
  function Defaults(obj: map<string, Value>, src: map<string, Value>): (r: map<string, Value>)
    ensures r.Keys == obj.Keys + src.Keys
    ensures forall k :: k in obj && obj[k] != Undefined ==> r[k] == obj[k]
    ensures forall k :: k in obj && k !in src ==> r[k] == obj[k]
    ensures forall k :: k in src && Unset(obj, k) ==> r[k] == src[k]
  {
    map k | k in obj.Keys + src.Keys :: if k in src && Unset(obj, k) then src[k] else obj[k]
  }

  /** Running `_.defaults` twice with the same source changes nothing more. */
  lemma DefaultsIdempotent(obj: map<string, Value>, src: map<string, Value>)
    ensures Defaults(Defaults(obj, src), src) == Defaults(obj, src)
  {
    var d := Defaults(obj, src);
    var dd := Defaults(d, src);
    forall k | k in dd.Keys
      ensures k in d && dd[k] == d[k]
    {
      if k in src && Unset(d, k) {
        if k in obj && obj[k] != Undefined {
          assert d[k] == obj[k];
        } else {
          assert d[k] == src[k];
        }
      }
    }
  }

  /** `_.omit(m, keys)`: a copy without the given keys. */
  function Omit(m: map<string, Value>, keys: set<string>): (r: map<string, Value>)
    ensures r.Keys == m.Keys - keys
    ensures forall k :: k in r ==> r[k] == m[k]
  {
    map k | k in m && k !in keys :: m[k]
  }

  /** `_.pick(m, keys)`: a copy of the given keys that `m` holds. */
  function Pick(m: map<string, Value>, keys: set<string>): (r: map<string, Value>)
    ensures r.Keys == m.Keys * keys
    ensures forall k :: k in r ==> r[k] == m[k]
  {
    map k | k in m && k in keys :: m[k]
  }

  /** `_.assign(target, src)`: every own key of `src` overwrites `target`. */
  function Assign(target: map<string, Value>, src: map<string, Value>): (r: map<string, Value>)
    ensures r.Keys == target.Keys + src.Keys
    ensures forall k :: k in src ==> r[k] == src[k]
    ensures forall k :: k in target && k !in src ==> r[k] == target[k]
  {
    target + src
  }
}
