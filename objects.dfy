/** A mutable JavaScript object: the options object, a queue's config and the
    worker's synthetic request are all updated in place. */
module Objects {
  import opened JsValues
  import Lodash

  class JsObject {
    var props: map<string, Value>

    constructor (init: map<string, Value>)
      ensures props == init
    {
      props := init;
    }

    /** `o.key` */
    function Get(key: string): Value
      reads this
    {
      Lookup(props, key)
    }

    /** `o.key = v` */
    method Set(key: string, v: Value)
      modifies this
      ensures props == old(props)[key := v]
    {
      props := props[key := v];
    }

    /** `_.assign(o, src)` */
    method Assign(src: map<string, Value>)
      modifies this
      ensures props == Lodash.Assign(old(props), src)
    {
      props := Lodash.Assign(props, src);
    }

    /** `_.defaults(o, src)` */
    method Defaults(src: map<string, Value>)
      modifies this
      ensures props == Lodash.Defaults(old(props), src)
    {
      props := Lodash.Defaults(props, src);
    }
  }
}
