/** The `dojos_count` handler: the live dojos counted per continent and,
    within each continent, per country code. The store's reply and the
    countries service's continent map are inputs. */
module DojoCount {
  import opened Seqs
  import opened Groups
  import opened Records
  import opened Wrappers

  /** `{total, countries: {[alpha2]: {total}}}`; a country's `{total}` is
      modelled by its number. */
  datatype ContinentCount = ContinentCount(total: nat, countries: OrderedMap<nat>)

  /** "`countries.countries[dojo.alpha2]` is present": the continent map
      from country code to continent name. */
  function MappedIn(continentOf: map<string, string>): Dojo -> bool
  {
    (d: Dojo) => d.alpha2 in continentOf
  }

  /** The continent of a mapped dojo. */
  function ContinentKey(continentOf: map<string, string>): Dojo -> string
  {
    (d: Dojo) => if d.alpha2 in continentOf then continentOf[d.alpha2] else ""
  }

  /** The counts of the dojos `cell` of one continent. */
  function CellCount(cell: seq<Dojo>): ContinentCount
  {
    ContinentCount(|cell|, Counts(Group(cell, Alpha2Of)))
  }

  /** The counts of every continent of a grouping by continent. */
  function Summarise(g: OrderedMap<seq<Dojo>>): OrderedMap<ContinentCount>
  {
    OrderedMap(g.keys, map k | k in g.values :: CellCount(g.values[k]))
  }

  /** `countData.dojos.continents` for the dojos `dojos`. */
  function ContinentCounts(dojos: seq<Dojo>, continentOf: map<string, string>): OrderedMap<ContinentCount>
  {
    Summarise(Group(Filter(dojos, MappedIn(continentOf)), ContinentKey(continentOf)))
  }

  /** `if (!m[k]) m[k] = {total: 0}; m[k].total += 1;` */
  function Bump(m: OrderedMap<nat>, k: string): OrderedMap<nat>
  {
    if k in m.values then OrderedMap(m.keys, m.values[k := m.values[k] + 1])
    else OrderedMap(m.keys + [k], m.values[k := 1])
  }

  /** A continent counted for the first time. */
  function Fresh(): ContinentCount
  {
    ContinentCount(0, Empty())
  }

  /** One iteration of `getDojoCount`'s loop on a dojo of continent
      `continent`. */
  function CountDojo(c: OrderedMap<ContinentCount>, d: Dojo, continent: string): OrderedMap<ContinentCount>
  {
    var cc := if continent in c.values then c.values[continent] else Fresh();
    var keys := if continent in c.values then c.keys else c.keys + [continent];
    OrderedMap(keys, c.values[continent := ContinentCount(cc.total + 1, Bump(cc.countries, d.alpha2))])
  }

  lemma CellCountSnoc(cell: seq<Dojo>, d: Dojo)
    ensures CellCount(cell + [d]) == ContinentCount(|cell| + 1, Bump(CellCount(cell).countries, d.alpha2))
  {
    assert (cell + [d])[..|cell|] == cell;
    CountsPush(Group(cell, Alpha2Of), d.alpha2, d);
  }

  lemma SummarisePush(g: OrderedMap<seq<Dojo>>, k: string, d: Dojo)
    ensures Summarise(Push(g, k, d)) == CountDojo(Summarise(g), d, k)
  {
    var cell := if k in g.values then g.values[k] else [];
    CellCountSnoc(cell, d);
    var pushed := Summarise(Push(g, k, d));
    var counted := CountDojo(Summarise(g), d, k);
    assert pushed.keys == counted.keys;
    SummarisePushValues(g, k, d, cell);
    assert pushed.values == counted.values;
  }

  lemma SummarisePushValues(g: OrderedMap<seq<Dojo>>, k: string, d: Dojo, cell: seq<Dojo>)
    requires cell == if k in g.values then g.values[k] else []
    requires CellCount(cell + [d]) == ContinentCount(|cell| + 1, Bump(CellCount(cell).countries, d.alpha2))
    ensures Summarise(Push(g, k, d)).values == CountDojo(Summarise(g), d, k).values
  {
    var pushed := Summarise(Push(g, k, d)).values;
    var counted := CountDojo(Summarise(g), d, k).values;
    SummarisePushed(g, k, d, cell);
    CountDojoCell(g, k, d, cell);
    assert pushed.Keys == counted.Keys;
    forall j | j in pushed
      ensures pushed[j] == counted[j]
    {
      if j != k {
        SummariseOther(g, k, d, j);
      }
    }
  }

  /** Pushing onto `k` recounts only `k`. */
  lemma SummariseOther(g: OrderedMap<seq<Dojo>>, k: string, d: Dojo, j: string)
    requires j != k && j in g.values
    ensures j in Summarise(Push(g, k, d)).values && j in CountDojo(Summarise(g), d, k).values
    ensures Summarise(Push(g, k, d)).values[j] == CountDojo(Summarise(g), d, k).values[j]
  {
    assert Push(g, k, d).values[j] == g.values[j];
  }

  lemma SummarisePushed(g: OrderedMap<seq<Dojo>>, k: string, d: Dojo, cell: seq<Dojo>)
    requires cell == if k in g.values then g.values[k] else []
    ensures Summarise(Push(g, k, d)).values.Keys == g.values.Keys + {k}
    ensures Summarise(Push(g, k, d)).values[k] == CellCount(cell + [d])
  {
    if k !in g.values {
      assert cell + [d] == [d];
    }
    assert Push(g, k, d).values == g.values[k := cell + [d]];
  }

  lemma CountDojoCell(g: OrderedMap<seq<Dojo>>, k: string, d: Dojo, cell: seq<Dojo>)
    requires cell == if k in g.values then g.values[k] else []
    requires CellCount(cell + [d]) == ContinentCount(|cell| + 1, Bump(CellCount(cell).countries, d.alpha2))
    ensures CountDojo(Summarise(g), d, k).values.Keys == g.values.Keys + {k}
    ensures CountDojo(Summarise(g), d, k).values[k] == CellCount(cell + [d])
  {
    var before := if k in g.values then Summarise(g).values[k] else Fresh();
    assert before == CellCount(cell);
  }

  lemma CountDojoStep(dojos: seq<Dojo>, d: Dojo, continentOf: map<string, string>)
    requires d.alpha2 in continentOf
    ensures ContinentCounts(dojos + [d], continentOf)
         == CountDojo(ContinentCounts(dojos, continentOf), d, continentOf[d.alpha2])
  {
    var mapped := Filter(dojos, MappedIn(continentOf));
    FilterSnoc(dojos, d, MappedIn(continentOf));
    assert (mapped + [d])[..|mapped|] == mapped;
    SummarisePush(Group(mapped, ContinentKey(continentOf)), continentOf[d.alpha2], d);
  }

  lemma SkipDojoStep(dojos: seq<Dojo>, d: Dojo, continentOf: map<string, string>)
    requires d.alpha2 !in continentOf
    ensures ContinentCounts(dojos + [d], continentOf) == ContinentCounts(dojos, continentOf)
  {
    FilterSnoc(dojos, d, MappedIn(continentOf));
    assert Filter(dojos, MappedIn(continentOf)) + [] == Filter(dojos, MappedIn(continentOf));
  }

  /** `getDojos`: the loop keeps the records the live test does not reject. */
  method LiveDojos(response: seq<Dojo>) returns (dojos: seq<Dojo>)
    ensures dojos == Filter(response, IsLive)
  {
    dojos := [];
    var i := 0;
    while i < |response|
      invariant i <= |response|
      invariant dojos == Filter(response[..i], IsLive)
    {
      var dojo := response[i];
      assert response[..i + 1] == response[..i] + [dojo];
      FilterSnoc(response[..i], dojo, IsLive);
      if dojo.deleted == Num(1) || dojo.verified == Num(0) || dojo.stage != Num(2) {
        assert dojos + [] == dojos;
      } else {
        dojos := dojos + [dojo];
      }
      i := i + 1;
    }
    assert response[..i] == response;
  }

  /** `getDojoCount`: count every dojo whose country has a continent. */
  method CountDojos(dojos: seq<Dojo>, continentOf: map<string, string>) returns (continents: OrderedMap<ContinentCount>)
    ensures continents == ContinentCounts(dojos, continentOf)
  {
    continents := Empty();
    var i := 0;
    while i < |dojos|
      invariant i <= |dojos|
      invariant continents == ContinentCounts(dojos[..i], continentOf)
    {
      var dojo := dojos[i];
      assert dojos[..i + 1] == dojos[..i] + [dojo];
      if dojo.alpha2 in continentOf {
        CountDojoStep(dojos[..i], dojo, continentOf);
        continents := CountOne(continents, dojo, continentOf[dojo.alpha2]);
      } else {
        SkipDojoStep(dojos[..i], dojo, continentOf);
      }
      i := i + 1;
    }
    assert dojos[..i] == dojos;
  }

  /** The body of `getDojoCount`'s loop for a dojo of continent `continent`. */
  method CountOne(continents: OrderedMap<ContinentCount>, dojo: Dojo, continent: string)
    returns (next: OrderedMap<ContinentCount>)
    ensures next == CountDojo(continents, dojo, continent)
  {
    next := continents;
    if continent !in next.values {
      next := OrderedMap(next.keys + [continent], next.values[continent := Fresh()]);
    }
    var count := next.values[continent];
    count := count.(total := count.total + 1);
    var byCountry := count.countries;
    if dojo.alpha2 !in byCountry.values {
      byCountry := OrderedMap(byCountry.keys + [dojo.alpha2], byCountry.values[dojo.alpha2 := 0]);
    }
    byCountry := byCountry.(values := byCountry.values[dojo.alpha2 := byCountry.values[dojo.alpha2] + 1]);
    count := count.(countries := byCountry);
    var cc := if continent in continents.values then continents.values[continent] else Fresh();
    assert byCountry == Bump(cc.countries, dojo.alpha2);
    next := OrderedMap(next.keys, next.values[continent := count]);
    assert next.values == CountDojo(continents, dojo, continent).values;
  }

  /** The waterfall `getDojos`, `getCountries`, `getDojoCount`: the live
      dojos counted against the continent map, or the countries service's
      error. */
  method DojosCount(response: seq<Dojo>, countries: Result<map<string, string>>)
    returns (reply: Result<OrderedMap<ContinentCount>>)
    ensures countries.Failure? ==> reply == Failure(countries.error)
    ensures countries.Ok? ==> reply == Ok(ContinentCounts(Filter(response, IsLive), countries.value))
  {
    var dojos := LiveDojos(response);
    if countries.Failure? {
      return Failure(countries.error);
    }
    var continents := CountDojos(dojos, countries.value);
    return Ok(continents);
  }

  /** The continents are exactly the continents of the mapped dojos, in the
      order of each continent's first mapped dojo. */
  lemma ContinentsPresent(dojos: seq<Dojo>, continentOf: map<string, string>)
    ensures ContinentCounts(dojos, continentOf).Valid()
    ensures forall k :: k in ContinentCounts(dojos, continentOf).values ==>
              exists d :: d in dojos && d.alpha2 in continentOf && continentOf[d.alpha2] == k
    ensures forall d :: d in dojos && d.alpha2 in continentOf ==>
              continentOf[d.alpha2] in ContinentCounts(dojos, continentOf).values
    ensures FirstSeenOrder(ContinentCounts(dojos, continentOf).keys, dojos, MappedIn(continentOf), ContinentKey(continentOf))
  {
    var mapped := Filter(dojos, MappedIn(continentOf));
    GroupMeaning(mapped, ContinentKey(continentOf));
    GroupFirstSeen(dojos, MappedIn(continentOf), ContinentKey(continentOf));
    FilterMultiset(dojos, MappedIn(continentOf));
  }

  /** Each continent's total is the sum of its countries' totals. */
  lemma ContinentTotalIsSum(dojos: seq<Dojo>, continentOf: map<string, string>)
    ensures forall k :: k in ContinentCounts(dojos, continentOf).values ==>
              ContinentCounts(dojos, continentOf).values[k].total
              == Total(ContinentCounts(dojos, continentOf).values[k].countries)
  {
    var g := Group(Filter(dojos, MappedIn(continentOf)), ContinentKey(continentOf));
    forall k | k in g.values
      ensures CellCount(g.values[k]).total == Total(CellCount(g.values[k]).countries)
    {
      GroupTotal(g.values[k], Alpha2Of);
    }
  }

  /** Under each continent, a country code's total is the number of dojos
      with that code, and only codes of that continent appear. */
  lemma CountryTotals(dojos: seq<Dojo>, continentOf: map<string, string>, k: string, a: string)
    requires k in ContinentCounts(dojos, continentOf).values
    requires a in ContinentCounts(dojos, continentOf).values[k].countries.values
    ensures a in continentOf && continentOf[a] == k
    ensures ContinentCounts(dojos, continentOf).values[k].countries.values[a] == |Filter(dojos, HasKey(Alpha2Of, a))|
  {
    var mapped := Filter(dojos, MappedIn(continentOf));
    var key := ContinentKey(continentOf);
    var cell := Group(mapped, key).values[k];
    CountryOfContinent(dojos, continentOf, k, a);
    GroupMeaning(cell, Alpha2Of);
    CountryCell(dojos, continentOf, k, a);
  }

  /** Every continent's `countries` object has distinct keys that all hold a
      count, and every mapped dojo's code is listed under its continent. */
  lemma CountriesListed(dojos: seq<Dojo>, continentOf: map<string, string>)
    ensures forall k :: k in ContinentCounts(dojos, continentOf).values ==>
              ContinentCounts(dojos, continentOf).values[k].countries.Valid()
    ensures forall d :: d in dojos && d.alpha2 in continentOf ==>
              && continentOf[d.alpha2] in ContinentCounts(dojos, continentOf).values
              && d.alpha2 in ContinentCounts(dojos, continentOf).values[continentOf[d.alpha2]].countries.values
  {
    var mapped := Filter(dojos, MappedIn(continentOf));
    var key := ContinentKey(continentOf);
    var g := Group(mapped, key);
    GroupMeaning(mapped, key);
    FilterMultiset(dojos, MappedIn(continentOf));
    forall k | k in g.values
      ensures CellCount(g.values[k]).countries.Valid()
    {
      GroupMeaning(g.values[k], Alpha2Of);
    }
    forall d | d in dojos && d.alpha2 in continentOf
      ensures continentOf[d.alpha2] in g.values
      ensures d.alpha2 in CellCount(g.values[continentOf[d.alpha2]]).countries.values
    {
      var k := continentOf[d.alpha2];
      assert d in mapped && key(d) == k;
      assert k in g.values;
      var cell := g.values[k];
      assert cell == Filter(mapped, HasKey(key, k));
      HasKeyAt(key, k, d);
      FilterMultiset(mapped, HasKey(key, k));
      assert d in cell;
      GroupMeaning(cell, Alpha2Of);
    }
  }

  lemma CountryOfContinent(dojos: seq<Dojo>, continentOf: map<string, string>, k: string, a: string)
    requires k in Group(Filter(dojos, MappedIn(continentOf)), ContinentKey(continentOf)).values
    requires a in Group(Group(Filter(dojos, MappedIn(continentOf)), ContinentKey(continentOf)).values[k], Alpha2Of).values
    ensures Group(Filter(dojos, MappedIn(continentOf)), ContinentKey(continentOf)).values[k]
         == Filter(Filter(dojos, MappedIn(continentOf)), HasKey(ContinentKey(continentOf), k))
    ensures a in continentOf && continentOf[a] == k
  {
    var mapped := Filter(dojos, MappedIn(continentOf));
    var key := ContinentKey(continentOf);
    GroupMeaning(mapped, key);
    var cell := Group(mapped, key).values[k];
    GroupMeaning(cell, Alpha2Of);
    var x :| x in cell && x.alpha2 == a;
    FilterMultiset(mapped, HasKey(key, k));
    assert x in mapped && key(x) == k;
    FilterMultiset(dojos, MappedIn(continentOf));
  }

  /** The dojos of continent `k` with country code `a` of that continent are
      all the dojos with code `a`. */
  lemma CountryCell(dojos: seq<Dojo>, continentOf: map<string, string>, k: string, a: string)
    requires a in continentOf && continentOf[a] == k
    ensures Filter(Filter(Filter(dojos, MappedIn(continentOf)), HasKey(ContinentKey(continentOf), k)), HasKey(Alpha2Of, a))
         == Filter(dojos, HasKey(Alpha2Of, a))
  {
    var mapped := Filter(dojos, MappedIn(continentOf));
    var key := ContinentKey(continentOf);
    forall i | 0 <= i < |mapped| ensures HasKey(Alpha2Of, a)(mapped[i]) ==> HasKey(key, k)(mapped[i]) {
      var x := mapped[i];
      assert MappedIn(continentOf)(x);
      HasKeyAt(Alpha2Of, a, x);
      HasKeyAt(key, k, x);
    }
    FilterImplied(mapped, HasKey(key, k), HasKey(Alpha2Of, a));
    forall i | 0 <= i < |dojos| ensures HasKey(Alpha2Of, a)(dojos[i]) ==> MappedIn(continentOf)(dojos[i]) {
      HasKeyAt(Alpha2Of, a, dojos[i]);
    }
    FilterImplied(dojos, MappedIn(continentOf), HasKey(Alpha2Of, a));
  }

  /** The total of every continent. */
  function Totals(c: OrderedMap<ContinentCount>): OrderedMap<nat>
  {
    OrderedMap(c.keys, map k | k in c.values :: c.values[k].total)
  }

  /** The continents together count exactly the mapped dojos: a dojo whose
      country code has no continent is not counted anywhere. */
  lemma MappedCounted(dojos: seq<Dojo>, continentOf: map<string, string>)
    ensures Total(Totals(ContinentCounts(dojos, continentOf))) == |Filter(dojos, MappedIn(continentOf))|
  {
    var g := Group(Filter(dojos, MappedIn(continentOf)), ContinentKey(continentOf));
    assert Totals(Summarise(g)) == Counts(g);
    GroupTotal(Filter(dojos, MappedIn(continentOf)), ContinentKey(continentOf));
  }

  /** A reply of `dojos_count` counts live dojos only, and all the live
      dojos of mapped countries. */
  lemma DojosCountLive(response: seq<Dojo>, continentOf: map<string, string>)
    ensures Total(Totals(ContinentCounts(Filter(response, IsLive), continentOf)))
         == |Filter(response, (d: Dojo) => IsLive(d) && d.alpha2 in continentOf)|
  {
    MappedCounted(Filter(response, IsLive), continentOf);
    FilterImplied(response, IsLive, (d: Dojo) => IsLive(d) && d.alpha2 in continentOf);
    var live := Filter(response, IsLive);
    forall i | 0 <= i < |live|
      ensures MappedIn(continentOf)(live[i]) == ((d: Dojo) => IsLive(d) && d.alpha2 in continentOf)(live[i])
    {
    }
    FilterSame(live, MappedIn(continentOf), (d: Dojo) => IsLive(d) && d.alpha2 in continentOf);
  }
}
