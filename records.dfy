/** The values and records the handlers inspect. */
module Records {
  import opened Order

  /** A JavaScript value as the handlers see it. Numbers are integers;
      arrays, objects and regular expressions are `Other`, which the handlers
      only pass along. */
  datatype Value = Undefined | Null | Bool(b: bool) | Num(n: int) | Str(s: string) | Other

  /** JavaScript truthiness (`if (v)`): the falsy values are exactly
      `undefined`, `null`, `false`, `0` and the empty string. */
  predicate Truthy(v: Value): (truthy: bool)
    ensures !truthy <==> v == Undefined || v == Null || v == Bool(false) || v == Num(0) || v == Str([])
  {
    match v
    case Undefined => false
    case Null => false
    case Bool(b) => b
    case Num(n) => n != 0
    case Str(s) => s != []
    case Other => true
  }

  /** `o[key]` on a plain object: `undefined` when the property is absent. */
  function Lookup(props: map<string, Value>, key: string): Value
  {
    if key in props then props[key] else Undefined
  }

  /** A dojo record as the store returns it. The text fields the handlers use
      as object keys or sort keys are strings; the flags the live test and the
      coordinates test read are arbitrary values, compared with `===`; `rest`
      holds every other property, which the handlers pass along untouched. */
  datatype Dojo = Dojo(
    id: Value,
    name: string,
    alpha2: string,
    countryName: string,
    admin1Name: string,
    coordinates: Value,
    stage: Value,
    verified: Value,
    deleted: Value,
    rest: map<string, Value>)

  /** A dojo is live when it is not soft-deleted, not unverified and
      published: `deleted !== 1 && verified !== 0 && stage === 2`. */
  predicate IsLive(d: Dojo): (live: bool)
    // `getDojos` writes the same test as its negation:
    // `deleted === 1 || verified === 0 || stage !== 2` rejects a dojo.
    ensures live <==> !(d.deleted == Num(1) || d.verified == Num(0) || d.stage != Num(2))
  {
    d.deleted != Num(1) && d.verified != Num(0) && d.stage == Num(2)
  }

  function CountryNameOf(d: Dojo): string { d.countryName }
  function Admin1NameOf(d: Dojo): string { d.admin1Name }
  function Alpha2Of(d: Dojo): string { d.alpha2 }

  /** The iteratee `'countryName'` of `_.sortBy`. */
  function CountryNameKey(d: Dojo): SortKey { Defined(d.countryName) }

  /** The iteratee `function(dojo) { return dojo.name; }`. */
  function NameKey(d: Dojo): SortKey { Defined(d.name) }

  /** A precomputed statistics record, tagged with its continent. */
  datatype Stat = Stat(continent: string, fields: map<string, Value>)

  function ContinentOf(s: Stat): string { s.continent }
}
