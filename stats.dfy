/** The `get_stats` handler: the statistics records grouped by continent. */
module Stats {
  import opened Seqs
  import opened Groups
  import opened Records

  /** The loop of `get_stats`: push every record onto the array stored
      under its continent, creating the array on first use. */
  method GetStats(stats: seq<Stat>) returns (byContinent: OrderedMap<seq<Stat>>)
    ensures byContinent == Group(stats, ContinentOf)
  {
    byContinent := Empty();
    var i := 0;
    while i < |stats|
      invariant i <= |stats|
      invariant byContinent == Group(stats[..i], ContinentOf)
    {
      var stat := stats[i];
      assert stats[..i + 1][..i] == stats[..i];
      var continent := stat.continent;
      var arrays := byContinent.values;
      if continent !in arrays {
        byContinent := OrderedMap(byContinent.keys + [continent], arrays[continent := []]);
      }
      assert byContinent.values[continent] + [stat]
          == if continent in arrays then arrays[continent] + [stat] else [stat];
      byContinent := OrderedMap(byContinent.keys, byContinent.values[continent := byContinent.values[continent] + [stat]]);
      i := i + 1;
    }
    assert stats[..i] == stats;
  }

  /** Each continent holds exactly the records of that continent in input
      order, a continent is present exactly when some record has it, the
      continents are listed in the order of their first records, and the
      group sizes add up to the number of records. */
  lemma GetStatsMeaning(stats: seq<Stat>)
    ensures Group(stats, ContinentOf).Valid()
    ensures forall c :: c in Group(stats, ContinentOf).values ==> exists s :: s in stats && s.continent == c
    ensures forall s :: s in stats ==> s.continent in Group(stats, ContinentOf).values
    ensures forall c :: c in Group(stats, ContinentOf).values ==>
              Group(stats, ContinentOf).values[c] == Filter(stats, HasKey(ContinentOf, c))
    ensures KeysFirstSeen(Group(stats, ContinentOf).keys, stats, ContinentOf)
    ensures Total(Counts(Group(stats, ContinentOf))) == |stats|
  {
    GroupMeaning(stats, ContinentOf);
    GroupKeysFirstSeen(stats, ContinentOf);
    GroupTotal(stats, ContinentOf);
  }
}
