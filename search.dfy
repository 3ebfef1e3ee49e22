/** The query normalisation of `search` and `my_dojos_search`, and the reply
    of `search_count`. */
module Search {
  import opened Records
  import opened Objects
  import opened Wrappers

  /** The keys the normalisation reads or writes. */
  const ControlKeys: set<string> := {"skip", "skip$", "limit", "limit$", "sort", "sort$"}

  /** `if (o[from] !== undefined) { o[to] = o[from]; delete o[from]; }` */
  function MoveKey(m: map<string, Value>, from: string, to: string): (r: map<string, Value>)
    requires from != to
    ensures Lookup(m, from) != Undefined ==> from !in r && to in r && r[to] == m[from]
    ensures Lookup(m, from) == Undefined ==> r == m
    ensures forall k :: k != from && k != to ==> Lookup(r, k) == Lookup(m, k)
    ensures forall k :: k != from && k != to ==> (k in r <==> k in m)
  {
    if Lookup(m, from) != Undefined then m[to := m[from]] - {from} else m
  }

  /** The query after the three renaming blocks. */
  function Normalised(m: map<string, Value>): map<string, Value>
  {
    MoveKey(MoveKey(MoveKey(m, "skip", "skip$"), "limit", "limit$"), "sort", "sort$")
  }

  /** `from` was renamed to `to` exactly when it held a value other than
      `undefined`; otherwise both are as before. */
  predicate Moved(m: map<string, Value>, r: map<string, Value>, from: string, to: string)
  {
    && (Lookup(m, from) != Undefined ==> from !in r && to in r && r[to] == m[from])
    && (Lookup(m, from) == Undefined ==>
          && Lookup(r, from) == Lookup(m, from) && Lookup(r, to) == Lookup(m, to)
          && (from in r <==> from in m) && (to in r <==> to in m))
  }

  /** Each of `skip`, `limit` and `sort` moves to its `$` form when it is
      defined, and every other property keeps its value and its presence. */
  lemma NormalisedMeaning(m: map<string, Value>)
    ensures Moved(m, Normalised(m), "skip", "skip$")
    ensures Moved(m, Normalised(m), "limit", "limit$")
    ensures Moved(m, Normalised(m), "sort", "sort$")
    ensures forall k :: k !in ControlKeys ==> Lookup(Normalised(m), k) == Lookup(m, k)
    ensures forall k :: k !in ControlKeys ==> (k in Normalised(m) <==> k in m)
  {
    var m1 := MoveKey(m, "skip", "skip$");
    var m2 := MoveKey(m1, "limit", "limit$");
    assert Lookup(m1, "limit") == Lookup(m, "limit") && Lookup(m1, "limit$") == Lookup(m, "limit$");
    assert Lookup(m1, "sort") == Lookup(m, "sort") && Lookup(m1, "sort$") == Lookup(m, "sort$");
    assert Lookup(m2, "sort") == Lookup(m, "sort") && Lookup(m2, "sort$") == Lookup(m, "sort$");
  }

  /** The renaming blocks of `search` and `my_dojos_search`, applied to
      `args.query` in place. */
  method NormaliseQuery(query: JsObject)
    modifies query
    ensures query.props == Normalised(old(query.props))
  {
    if query.Get("skip") != Undefined {
      query.Set("skip$", query.Get("skip"));
      query.Delete("skip");
    }
    if query.Get("limit") != Undefined {
      query.Set("limit$", query.Get("limit"));
      query.Delete("limit");
    }
    if query.Get("sort") != Undefined {
      query.Set("sort$", query.Get("sort"));
      query.Delete("sort");
    }
  }

  /** `{totalItems: dojos.length}` */
  datatype CountReply = CountReply(totalItems: nat)

  /** `search_count`'s reply to the store's answer: the store's error, or
      the number of records listed. */
  function SearchCount(listed: Result<seq<Dojo>>): (reply: Result<CountReply>)
    ensures listed.Failure? <==> reply.Failure?
    ensures listed.Failure? ==> reply.error == listed.error
    ensures listed.Ok? ==> reply.value.totalItems == |listed.value|
  {
    match listed
    case Failure(e) => Failure(e)
    case Ok(dojos) => Ok(CountReply(|dojos|))
  }
}
