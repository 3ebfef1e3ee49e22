/** The final step of `dojos_by_country`: the replies of `list`, one per
    requested country in the order they arrived, sorted by their first
    country key. The arrival order is an input. */
module ByCountry {
  import opened Order
  import opened Seqs
  import opened Groups
  import opened Listing

  /** `Object.keys(reply)[0]`: `undefined` for an empty reply. */
  function FirstKey(reply: OrderedMap<CountryGroup>): SortKey
  {
    if reply.keys != [] then Defined(reply.keys[0]) else NoKey
  }

  /** `_.sortBy(dojos, function(dojo) { return Object.keys(dojo)[0]; })` */
  function DojosByCountry(replies: seq<OrderedMap<CountryGroup>>): (sorted: seq<OrderedMap<CountryGroup>>)
    ensures multiset(sorted) == multiset(replies)
    ensures forall i, j :: 0 <= i < j < |sorted| ==> !KeyLess(FirstKey(sorted[j]), FirstKey(sorted[i]))
  {
    SortBySorted(replies, FirstKey);
    SortBy(replies, FirstKey)
  }

  /** Replies with the same first country, and the empty replies, keep their
      arrival order. */
  lemma DojosByCountryStable(replies: seq<OrderedMap<CountryGroup>>, k: SortKey)
    ensures Filter(DojosByCountry(replies), HasKey(FirstKey, k)) == Filter(replies, HasKey(FirstKey, k))
  {
    SortByStable(replies, FirstKey, k);
  }

  /** The empty replies come after every non-empty one, and the first
      countries of the non-empty ones ascend. */
  lemma DojosByCountryOrder(replies: seq<OrderedMap<CountryGroup>>)
    ensures forall i, j :: 0 <= i < j < |DojosByCountry(replies)| && DojosByCountry(replies)[i].keys == [] ==>
              DojosByCountry(replies)[j].keys == []
    ensures forall i, j ::
              0 <= i < j < |DojosByCountry(replies)| &&
              DojosByCountry(replies)[i].keys != [] && DojosByCountry(replies)[j].keys != [] ==>
              !Less(DojosByCountry(replies)[j].keys[0], DojosByCountry(replies)[i].keys[0])
  {
  }
}
