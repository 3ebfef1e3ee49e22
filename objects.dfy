/** Plain JavaScript objects that the handlers change in place: the
    `args.query` of the search handlers and the `args.dojo` of `create` and
    `update`. An object is its own properties; a property whose value is
    `undefined` is still present. */
module Objects {
  import opened Records

  class JsObject {
    var props: map<string, Value>

    constructor(props: map<string, Value>)
      ensures this.props == props
    {
      this.props := props;
    }

    /** `o[key]` */
    function Get(key: string): Value
      reads this
    {
      Lookup(props, key)
    }

    /** `o[key] = v` */
    method Set(key: string, v: Value)
      modifies this
      ensures props == old(props)[key := v]
    {
      props := props[key := v];
    }

    /** `delete o[key]` */
    method Delete(key: string)
      modifies this
      ensures props == old(props) - {key}
    {
      props := props - {key};
    }
  }
}
