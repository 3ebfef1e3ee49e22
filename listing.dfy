/** The `list` handler: the live dojos of the store's reply, grouped by
    country name and then by state (`admin1Name`), each state's dojos
    sorted by name. The store's reply is the input. */
module Listing {
  import opened Order
  import opened Seqs
  import opened Groups
  import opened Records

  /** `dojosByCountry[countryName]`, the object `{states: {...}}`. */
  datatype CountryGroup = CountryGroup(states: OrderedMap<seq<Dojo>>)

  /** The live dojos of `response` in country `c` and state `st`, in reply order. */
  function LiveIn(response: seq<Dojo>, c: string, st: string): seq<Dojo>
  {
    Filter(Filter(Filter(response, IsLive), HasKey(CountryNameOf, c)), HasKey(Admin1NameOf, st))
  }

  /** The object the first loop builds from the live dojos `live`: every dojo
      pushed onto `states[admin1Name]` of its own `countryName`. */
  function Nest(live: seq<Dojo>): OrderedMap<CountryGroup>
  {
    var g := Group(live, CountryNameOf);
    OrderedMap(g.keys, map c | c in g.values :: CountryGroup(Group(g.values[c], Admin1NameOf)))
  }

  /** One iteration of the first loop on a live dojo. */
  function PushDojo(n: OrderedMap<CountryGroup>, d: Dojo): OrderedMap<CountryGroup>
  {
    var c := d.countryName;
    if c in n.values then OrderedMap(n.keys, n.values[c := CountryGroup(Push(n.values[c].states, d.admin1Name, d))])
    else OrderedMap(n.keys + [c], n.values[c := CountryGroup(Push(Empty(), d.admin1Name, d))])
  }

  /** Every state's dojos sorted by name. */
  function SortLeaves(states: OrderedMap<seq<Dojo>>): OrderedMap<seq<Dojo>>
  {
    OrderedMap(states.keys, map st | st in states.values :: SortBy(states.values[st], NameKey))
  }

  function SortAllLeaves(n: OrderedMap<CountryGroup>): OrderedMap<CountryGroup>
  {
    OrderedMap(n.keys, map c | c in n.values :: CountryGroup(SortLeaves(n.values[c].states)))
  }

  /** The reply of `list` to the store's records `response`. */
  function Listing(response: seq<Dojo>): OrderedMap<CountryGroup>
  {
    SortAllLeaves(Nest(Filter(SortBy(response, CountryNameKey), IsLive)))
  }

  /** The number of dojos in each country's states together. */
  function CountryTotals(n: OrderedMap<CountryGroup>): OrderedMap<nat>
  {
    OrderedMap(n.keys, map c | c in n.values :: Total(Counts(n.values[c].states)))
  }

  lemma NestPushStep(live: seq<Dojo>, d: Dojo)
    ensures Nest(live + [d]) == PushDojo(Nest(live), d)
  {
    var c := d.countryName;
    assert (live + [d])[..|live|] == live;
    assert Group(live + [d], CountryNameOf) == Push(Group(live, CountryNameOf), c, d);
    var pushed, stepped := Nest(live + [d]).values, PushDojo(Nest(live), d).values;
    assert pushed.Keys == stepped.Keys;
    forall k | k in pushed
      ensures pushed[k] == stepped[k]
    {
      if k == c {
        NestCell(live, d);
      }
    }
    assert pushed == stepped;
  }

  /** The country of the pushed dojo gets the dojo pushed onto its state. */
  lemma NestCell(live: seq<Dojo>, d: Dojo)
    requires Group(live + [d], CountryNameOf) == Push(Group(live, CountryNameOf), d.countryName, d)
    ensures Nest(live + [d]).values[d.countryName] == PushDojo(Nest(live), d).values[d.countryName]
  {
    var c := d.countryName;
    var g := Group(live, CountryNameOf);
    var g' := Group(live + [d], CountryNameOf);
    if c in g.values {
      assert g'.values[c] == g.values[c] + [d];
      assert (g.values[c] + [d])[..|g.values[c]|] == g.values[c];
      assert Group(g'.values[c], Admin1NameOf) == Push(Group(g.values[c], Admin1NameOf), d.admin1Name, d);
    } else {
      assert g'.values[c] == [d];
      assert [d][..0] == [];
      assert Group(g'.values[c], Admin1NameOf) == Push(Empty(), d.admin1Name, d);
    }
  }

  /** The states object after the arrays of the states `done` are sorted. */
  function SortedSoFar(states: OrderedMap<seq<Dojo>>, done: seq<string>): OrderedMap<seq<Dojo>>
  {
    OrderedMap(states.keys, map st | st in states.values ::
      if st in done then SortBy(states.values[st], NameKey) else states.values[st])
  }

  lemma SortedSoFarStep(states: OrderedMap<seq<Dojo>>, done: seq<string>, st: string)
    requires st in states.values && st !in done
    ensures SortedSoFar(states, done + [st])
         == OrderedMap(states.keys, SortedSoFar(states, done).values[st := SortBy(states.values[st], NameKey)])
  {
    var next := SortedSoFar(states, done + [st]).values;
    var step := SortedSoFar(states, done).values[st := SortBy(states.values[st], NameKey)];
    assert next.Keys == step.Keys;
    forall k | k in next
      ensures next[k] == step[k]
    {
      assert (k in done + [st]) == (k in done || k == st);
    }
    assert next == step;
  }

  /** The key after the first `j` of distinct keys is not among them. */
  lemma NextState(names: seq<string>, j: nat)
    requires j < |names|
    requires forall a, b :: 0 <= a < b < |names| ==> names[a] != names[b]
    ensures names[..j + 1] == names[..j] + [names[j]]
    ensures names[j] !in names[..j]
  {
    forall m | 0 <= m < j
      ensures names[..j][m] != names[j]
    {
      assert names[m] != names[j];
    }
  }

  lemma SortedSoFarAll(states: OrderedMap<seq<Dojo>>)
    requires states.Valid()
    ensures SortedSoFar(states, states.keys) == SortLeaves(states)
  {
    assert SortedSoFar(states, states.keys).values == SortLeaves(states).values;
  }

  /** The second loop's inner step: sort each state's dojos by name. */
  method SortStates(states: OrderedMap<seq<Dojo>>) returns (sorted: OrderedMap<seq<Dojo>>)
    requires states.Valid()
    ensures sorted == SortLeaves(states)
  {
    var names := states.keys;
    sorted := states;
    var j := 0;
    assert sorted.values == SortedSoFar(states, []).values;
    while j < |names|
      invariant 0 <= j <= |names|
      invariant sorted == SortedSoFar(states, names[..j])
    {
      var st := names[j];
      NextState(names, j);
      SortedSoFarStep(states, names[..j], st);
      sorted := OrderedMap(sorted.keys, sorted.values[st := SortBy(sorted.values[st], NameKey)]);
      j := j + 1;
    }
    assert names[..j] == names;
    SortedSoFarAll(states);
  }

  /** The body of the first loop for a live dojo: create the country's
      `{states: {}}` and the state's array when missing, then push. */
  method AddDojo(byCountry: OrderedMap<CountryGroup>, d: Dojo) returns (next: OrderedMap<CountryGroup>)
    ensures next == PushDojo(byCountry, d)
  {
    next := byCountry;
    if d.countryName !in next.values {
      next := OrderedMap(next.keys + [d.countryName], next.values[d.countryName := CountryGroup(Empty())]);
    }
    var states := next.values[d.countryName].states;
    ghost var found := states;
    if d.admin1Name !in states.values {
      states := OrderedMap(states.keys + [d.admin1Name], states.values[d.admin1Name := []]);
    }
    assert states.values[d.admin1Name] + [d] == if d.admin1Name in found.values then found.values[d.admin1Name] + [d] else [d];
    states := OrderedMap(states.keys, states.values[d.admin1Name := states.values[d.admin1Name] + [d]]);
    assert states.values == Push(found, d.admin1Name, d).values;
    next := OrderedMap(next.keys, next.values[d.countryName := CountryGroup(states)]);
  }

  /** The first loop of `cmd_list`: push every live dojo of the sorted reply
      onto `states[admin1Name]` of its country. */
  method GroupLive(sorted: seq<Dojo>) returns (byCountry: OrderedMap<CountryGroup>)
    ensures byCountry == Nest(Filter(sorted, IsLive))
  {
    byCountry := Empty();
    var i := 0;
    while i < |sorted|
      invariant 0 <= i <= |sorted|
      invariant byCountry == Nest(Filter(sorted[..i], IsLive))
    {
      var d := sorted[i];
      ghost var live := Filter(sorted[..i], IsLive);
      assert sorted[..i + 1] == sorted[..i] + [d];
      FilterSnoc(sorted[..i], d, IsLive);
      assert Filter(sorted[..i + 1], IsLive) == if IsLive(d) then live + [d] else live;
      NestPushStep(live, d);
      if d.deleted != Num(1) && d.verified != Num(0) && d.stage == Num(2) {
        byCountry := AddDojo(byCountry, d);
      }
      i := i + 1;
    }
    assert sorted[..i] == sorted;
  }

  /** The countries object after the states of the countries `done` are sorted. */
  function CountriesSortedSoFar(grouped: OrderedMap<CountryGroup>, done: seq<string>): OrderedMap<CountryGroup>
  {
    OrderedMap(grouped.keys, map c | c in grouped.values ::
      if c in done then CountryGroup(SortLeaves(grouped.values[c].states)) else grouped.values[c])
  }

  lemma CountriesSortedSoFarStep(grouped: OrderedMap<CountryGroup>, done: seq<string>, c: string)
    requires c in grouped.values && c !in done
    ensures CountriesSortedSoFar(grouped, done + [c])
         == OrderedMap(grouped.keys, CountriesSortedSoFar(grouped, done).values[c := CountryGroup(SortLeaves(grouped.values[c].states))])
  {
    var next := CountriesSortedSoFar(grouped, done + [c]).values;
    var step := CountriesSortedSoFar(grouped, done).values[c := CountryGroup(SortLeaves(grouped.values[c].states))];
    assert next.Keys == step.Keys;
    forall k | k in next
      ensures next[k] == step[k]
    {
      assert (k in done + [c]) == (k in done || k == c);
    }
    assert next == step;
  }

  lemma CountriesSortedSoFarAll(grouped: OrderedMap<CountryGroup>)
    requires grouped.Valid()
    ensures CountriesSortedSoFar(grouped, grouped.keys) == SortAllLeaves(grouped)
  {
    assert CountriesSortedSoFar(grouped, grouped.keys).values == SortAllLeaves(grouped).values;
  }

  /** The second loop of `cmd_list`: sort every state's dojos by name. */
  method SortCountries(grouped: OrderedMap<CountryGroup>) returns (byCountry: OrderedMap<CountryGroup>)
    requires grouped.Valid()
    requires forall c :: c in grouped.values ==> grouped.values[c].states.Valid()
    ensures byCountry == SortAllLeaves(grouped)
  {
    byCountry := grouped;
    var countries := grouped.keys;
    var ci := 0;
    assert byCountry.values == CountriesSortedSoFar(grouped, []).values;
    while ci < |countries|
      invariant 0 <= ci <= |countries|
      invariant byCountry == CountriesSortedSoFar(grouped, countries[..ci])
    {
      var c := countries[ci];
      NextState(countries, ci);
      CountriesSortedSoFarStep(grouped, countries[..ci], c);
      var sortedStates := SortStates(byCountry.values[c].states);
      byCountry := OrderedMap(byCountry.keys, byCountry.values[c := CountryGroup(sortedStates)]);
      ci := ci + 1;
    }
    assert countries[..ci] == countries;
    CountriesSortedSoFarAll(grouped);
  }

  /** Every object the first loop builds is well formed. */
  lemma NestValid(live: seq<Dojo>)
    ensures Nest(live).Valid()
    ensures forall c :: c in Nest(live).values ==> Nest(live).values[c].states.Valid()
  {
    var g := Group(live, CountryNameOf);
    GroupMeaning(live, CountryNameOf);
    forall c | c in g.values
      ensures Group(g.values[c], Admin1NameOf).Valid()
    {
      GroupMeaning(g.values[c], Admin1NameOf);
    }
  }

  /** `cmd_list` after the store has replied with `response`. */
  method List(response: seq<Dojo>) returns (byCountry: OrderedMap<CountryGroup>)
    ensures byCountry == Listing(response)
  {
    var sorted := SortBy(response, CountryNameKey);
    var grouped := GroupLive(sorted);
    NestValid(Filter(sorted, IsLive));
    byCountry := SortCountries(grouped);
  }

  /** Within one country the live dojos keep their reply order: sorting by
      country name is stable. */
  lemma CountryInReplyOrder(response: seq<Dojo>, c: string)
    ensures Filter(Filter(SortBy(response, CountryNameKey), IsLive), HasKey(CountryNameOf, c))
         == Filter(Filter(response, IsLive), HasKey(CountryNameOf, c))
  {
    var sorted := SortBy(response, CountryNameKey);
    var byName, byKey := HasKey(CountryNameOf, c), HasKey(CountryNameKey, Defined(c));
    SameCountry(sorted, c);
    SameCountry(response, c);
    SortByStable(response, CountryNameKey, Defined(c));
    calc {
      Filter(Filter(sorted, IsLive), byName);
      { FilterCommute(sorted, IsLive, byName); }
      Filter(Filter(sorted, byName), IsLive);
      Filter(Filter(sorted, byKey), IsLive);
      Filter(Filter(response, byKey), IsLive);
      Filter(Filter(response, byName), IsLive);
      { FilterCommute(response, IsLive, byName); }
      Filter(Filter(response, IsLive), byName);
    }
  }

  /** Selecting by country name and by the country-name sort key agree. */
  lemma SameCountry(s: seq<Dojo>, c: string)
    ensures Filter(s, HasKey(CountryNameOf, c)) == Filter(s, HasKey(CountryNameKey, Defined(c)))
  {
    forall i | 0 <= i < |s|
      ensures HasKey(CountryNameOf, c)(s[i]) == HasKey(CountryNameKey, Defined(c))(s[i])
    {
      HasKeyAt(CountryNameOf, c, s[i]);
      HasKeyAt(CountryNameKey, Defined(c), s[i]);
    }
    FilterSame(s, HasKey(CountryNameOf, c), HasKey(CountryNameKey, Defined(c)));
  }

  /** The live dojos of the sorted reply are the live dojos of the reply. */
  lemma LiveOfSorted(response: seq<Dojo>)
    ensures forall d :: d in Filter(SortBy(response, CountryNameKey), IsLive) ==> d in response && IsLive(d)
    ensures forall d :: d in response && IsLive(d) ==> d in Filter(SortBy(response, CountryNameKey), IsLive)
  {
    var sorted := SortBy(response, CountryNameKey);
    FilterMultiset(sorted, IsLive);
    forall d ensures d in sorted <==> d in response {
      assert d in sorted <==> d in multiset(sorted);
      assert d in response <==> d in multiset(response);
    }
  }

  /** The countries of the reply of `list` are the country names of the live
      dojos, in strictly ascending order. */
  lemma ListingCountries(response: seq<Dojo>)
    ensures Listing(response).Valid()
    ensures forall c :: c in Listing(response).values ==>
              exists d :: d in response && IsLive(d) && d.countryName == c
    ensures forall d :: d in response && IsLive(d) ==> d.countryName in Listing(response).values
    ensures forall i, j :: 0 <= i < j < |Listing(response).keys| ==>
              Less(Listing(response).keys[i], Listing(response).keys[j])
  {
    var sorted := SortBy(response, CountryNameKey);
    var live := Filter(sorted, IsLive);
    GroupMeaning(live, CountryNameOf);
    LiveOfSorted(response);
    SortBySorted(response, CountryNameKey);
    FilterSorted(sorted, IsLive, CountryNameKey);
    GroupKeysAscending(live, CountryNameOf);
  }

  /** The live dojos of one country, in reply order. */
  function LiveInCountry(response: seq<Dojo>, c: string): seq<Dojo>
  {
    Filter(Filter(response, IsLive), HasKey(CountryNameOf, c))
  }

  lemma LiveInCountryMembers(response: seq<Dojo>, c: string)
    ensures forall d :: d in LiveInCountry(response, c) ==> d in response && IsLive(d) && d.countryName == c
    ensures forall d :: d in response && IsLive(d) && d.countryName == c ==> d in LiveInCountry(response, c)
  {
    FilterMultiset(response, IsLive);
    FilterMultiset(Filter(response, IsLive), HasKey(CountryNameOf, c));
    forall d | d in LiveInCountry(response, c)
      ensures d.countryName == c
    {
      HasKeyAt(CountryNameOf, c, d);
    }
    forall d | d in response && IsLive(d) && d.countryName == c
      ensures d in LiveInCountry(response, c)
    {
      HasKeyAt(CountryNameOf, c, d);
    }
  }

  /** What `list` stores under a country: the states of its live dojos, in
      reply order, each sorted by name. */
  lemma ListingAt(response: seq<Dojo>, c: string)
    requires c in Listing(response).values
    ensures Listing(response).values[c].states == SortLeaves(Group(LiveInCountry(response, c), Admin1NameOf))
  {
    var live := Filter(SortBy(response, CountryNameKey), IsLive);
    GroupMeaning(live, CountryNameOf);
    CountryInReplyOrder(response, c);
  }

  /** Sorting every state's dojos keeps what grouping represents, up to order
      within each state. */
  lemma SortLeavesMeaning(g: OrderedMap<seq<Dojo>>, s: seq<Dojo>)
    requires Represents(g, s, Admin1NameOf)
    ensures SortLeaves(g).Valid()
    ensures forall st :: st in SortLeaves(g).values ==> exists d :: d in s && d.admin1Name == st
    ensures forall d :: d in s ==> d.admin1Name in SortLeaves(g).values
    ensures forall st :: st in SortLeaves(g).values ==>
              SortLeaves(g).values[st] == SortBy(Filter(s, HasKey(Admin1NameOf, st)), NameKey)
  {
  }

  /** Under each country, the states are the states of its live dojos, and
      each state holds exactly its live dojos sorted by name. */
  lemma ListingStates(response: seq<Dojo>, c: string)
    requires c in Listing(response).values
    ensures Listing(response).values[c].states.Valid()
    ensures forall st :: st in Listing(response).values[c].states.values ==>
              exists d :: d in response && IsLive(d) && d.countryName == c && d.admin1Name == st
    ensures forall d :: d in response && IsLive(d) && d.countryName == c ==>
              d.admin1Name in Listing(response).values[c].states.values
    ensures forall st :: st in Listing(response).values[c].states.values ==>
              Listing(response).values[c].states.values[st] == SortBy(LiveIn(response, c, st), NameKey)
  {
    var inCountry := LiveInCountry(response, c);
    ListingAt(response, c);
    GroupMeaning(inCountry, Admin1NameOf);
    SortLeavesMeaning(Group(inCountry, Admin1NameOf), inCountry);
    LiveInCountryMembers(response, c);
  }

  /** Each state's array is sorted by name and holds every live dojo of that
      country and state exactly as often as the reply does, and nothing else. */
  lemma ListingStateContents(response: seq<Dojo>, c: string, st: string)
    requires c in Listing(response).values
    requires st in Listing(response).values[c].states.values
    ensures SortedBy(Listing(response).values[c].states.values[st], NameKey)
    ensures multiset(Listing(response).values[c].states.values[st]) == multiset(LiveIn(response, c, st))
    ensures forall d :: d in Listing(response).values[c].states.values[st] ==>
              IsLive(d) && d.countryName == c && d.admin1Name == st
    ensures forall d :: d in response && IsLive(d) && d.countryName == c && d.admin1Name == st ==>
              multiset(Listing(response).values[c].states.values[st])[d] == multiset(response)[d]
  {
    ListingStates(response, c);
    var leaf := Listing(response).values[c].states.values[st];
    var cell := LiveIn(response, c, st);
    assert leaf == SortBy(cell, NameKey);
    SortBySorted(cell, NameKey);
    LiveInCounts(response, c, st);
    forall d | d in leaf
      ensures IsLive(d) && d.countryName == c && d.admin1Name == st
    {
      assert d in multiset(leaf);
      assert d in cell;
    }
  }

  /** The dojos of one country and state, and how often each occurs. */
  lemma LiveInCounts(response: seq<Dojo>, c: string, st: string)
    ensures forall d :: d in LiveIn(response, c, st) ==> IsLive(d) && d.countryName == c && d.admin1Name == st
    ensures forall d :: d in response && IsLive(d) && d.countryName == c && d.admin1Name == st ==>
              multiset(LiveIn(response, c, st))[d] == multiset(response)[d]
  {
    forall d | d in LiveIn(response, c, st)
      ensures IsLive(d) && d.countryName == c && d.admin1Name == st
    {
      LiveInMember(response, c, st, d);
    }
    forall d | d in response && IsLive(d) && d.countryName == c && d.admin1Name == st
      ensures multiset(LiveIn(response, c, st))[d] == multiset(response)[d]
    {
      LiveInCount(response, c, st, d);
    }
  }

  lemma LiveInMember(response: seq<Dojo>, c: string, st: string, d: Dojo)
    requires d in LiveIn(response, c, st)
    ensures IsLive(d) && d.countryName == c && d.admin1Name == st
  {
    var live := Filter(response, IsLive);
    var inCountry := Filter(live, HasKey(CountryNameOf, c));
    FilterMultiset(inCountry, HasKey(Admin1NameOf, st));
    assert d in inCountry && d.admin1Name == st;
    FilterMultiset(live, HasKey(CountryNameOf, c));
    assert d in live && d.countryName == c;
    FilterMultiset(response, IsLive);
  }

  lemma LiveInCount(response: seq<Dojo>, c: string, st: string, d: Dojo)
    requires IsLive(d) && d.countryName == c && d.admin1Name == st
    ensures multiset(LiveIn(response, c, st))[d] == multiset(response)[d]
  {
    var live := Filter(response, IsLive);
    var inCountry := Filter(live, HasKey(CountryNameOf, c));
    HasKeyAt(CountryNameOf, c, d);
    HasKeyAt(Admin1NameOf, st, d);
    FilterKeeps(response, IsLive, d);
    FilterKeeps(live, HasKey(CountryNameOf, c), d);
    FilterKeeps(inCountry, HasKey(Admin1NameOf, st), d);
  }

  lemma CountsSortLeaves(states: OrderedMap<seq<Dojo>>)
    ensures Counts(SortLeaves(states)) == Counts(states)
  {
    assert Counts(SortLeaves(states)).values == Counts(states).values;
  }

  /** Each country's total is the number of its live dojos. */
  lemma CountryTotalsOfListing(response: seq<Dojo>)
    ensures CountryTotals(Listing(response)) == Counts(Group(Filter(SortBy(response, CountryNameKey), IsLive), CountryNameOf))
  {
    var live := Filter(SortBy(response, CountryNameKey), IsLive);
    var g := Group(live, CountryNameOf);
    var n := SortAllLeaves(Nest(live));
    assert Listing(response) == n;
    assert n.keys == g.keys;
    assert forall c :: c in n.values <==> c in g.values;
    forall c | c in g.values
      ensures CountryTotals(n).values[c] == Counts(g).values[c]
    {
      CountryTotalAt(live, c);
    }
    assert CountryTotals(n).values == Counts(g).values;
  }

  lemma CountryTotalAt(live: seq<Dojo>, c: string)
    requires c in Group(live, CountryNameOf).values
    ensures Total(Counts(SortAllLeaves(Nest(live)).values[c].states)) == |Group(live, CountryNameOf).values[c]|
  {
    var cell := Group(live, CountryNameOf).values[c];
    assert SortAllLeaves(Nest(live)).values[c].states == SortLeaves(Group(cell, Admin1NameOf));
    CountsSortLeaves(Group(cell, Admin1NameOf));
    GroupTotal(cell, Admin1NameOf);
  }

  /** Count conservation: the state arrays together hold as many dojos as
      the reply has live dojos. */
  lemma ListingTotal(response: seq<Dojo>)
    ensures Total(CountryTotals(Listing(response))) == |Filter(response, IsLive)|
  {
    var sorted := SortBy(response, CountryNameKey);
    CountryTotalsOfListing(response);
    GroupTotal(Filter(sorted, IsLive), CountryNameOf);
    FilterPermutation(sorted, response, IsLive);
  }
}
