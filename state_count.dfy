/** The `dojos_state_count` handler: for the requested country, the number
    of live dojos with coordinates in each state, and the coordinates of the
    last such dojo. The store's reply is the input. */
module StateCount {
  import opened Seqs
  import opened Groups
  import opened Records
  import opened Text

  /** `{total, latitude, longitude}` of one state. Before any coordinates
      are stored, `latitude` and `longitude` are `undefined`. */
  datatype Tally = Tally(total: nat, latitude: Value, longitude: Value)

  /** The reply: `countData` is `{[country]: states}`, or the loop throws a
      `TypeError` and the handler never replies. */
  datatype Reply = Counted(states: OrderedMap<Tally>) | Thrown

  /** The loop's condition: truthy `coordinates`, and live. */
  predicate Tallied(d: Dojo)
  {
    Truthy(d.coordinates) && IsLive(d)
  }

  /** A counted dojo the loop can process: its `alpha2` names the one entry
      of `countData`, and its coordinates are a string that `split` applies
      to. Any other counted dojo makes the loop throw. */
  predicate Processable(country: string, d: Dojo)
  {
    d.alpha2 == country && d.coordinates.Str?
  }

  /** `coordinates.split(',')[i]`: `undefined` past the last field. */
  function Coordinate(d: Dojo, i: nat): (v: Value)
    ensures d.coordinates.Str? && i < |Split(d.coordinates.s, ',')| ==> v.Str? && ',' !in v.s
  {
    if d.coordinates.Str? then
      var fields := Split(d.coordinates.s, ',');
      if i < |fields| then Str(fields[i]) else Undefined
    else Undefined
  }

  /** The tally of the counted dojos `s` of one state, in input order. */
  function TallyOf(s: seq<Dojo>): Tally
  {
    if s == [] then Tally(0, Undefined, Undefined)
    else Tally(|s|, Coordinate(s[|s| - 1], 0), Coordinate(s[|s| - 1], 1))
  }

  /** The states object the loop builds from the counted dojos `s`. */
  function Tallies(s: seq<Dojo>): OrderedMap<Tally>
  {
    var g := Group(s, Admin1NameOf);
    OrderedMap(g.keys, map st | st in g.values :: TallyOf(g.values[st]))
  }

  /** What `dojos_state_count` replies for `country` to the store's records. */
  function StateCountOf(country: string, response: seq<Dojo>): Reply
  {
    if exists i :: 0 <= i < |response| && Tallied(response[i]) && !Processable(country, response[i]) then Thrown
    else Counted(Tallies(Filter(response, Tallied)))
  }

  /** One iteration of the loop on a counted dojo. */
  function Bump(states: OrderedMap<Tally>, d: Dojo): OrderedMap<Tally>
  {
    var st := d.admin1Name;
    var t := if st in states.values then states.values[st] else Tally(0, Undefined, Undefined);
    var keys := if st in states.values then states.keys else states.keys + [st];
    OrderedMap(keys, states.values[st := Tally(t.total + 1, Coordinate(d, 0), Coordinate(d, 1))])
  }

  lemma TalliesStep(s: seq<Dojo>, d: Dojo)
    ensures Tallies(s + [d]) == Bump(Tallies(s), d)
  {
    var st := d.admin1Name;
    var g := Group(s, Admin1NameOf);
    assert (s + [d])[..|s|] == s;
    var g' := Group(s + [d], Admin1NameOf);
    assert g' == Push(g, st, d);
    var t := Tallies(s);
    var b := Bump(t, d);
    var t' := Tallies(s + [d]);
    forall k | k in t'.values
      ensures k in b.values && t'.values[k] == b.values[k]
    {
      if k == st {
        var cell := if st in g.values then g.values[st] + [d] else [d];
        assert g'.values[st] == cell;
        assert cell[|cell| - 1] == d;
      }
    }
    assert t'.values == b.values;
  }

  /** Counting one more record: a counted dojo is one more `Bump`, any
      other record changes nothing. */
  lemma TalliesSnoc(s: seq<Dojo>, d: Dojo)
    ensures Tallies(Filter(s + [d], Tallied))
         == if Tallied(d) then Bump(Tallies(Filter(s, Tallied)), d) else Tallies(Filter(s, Tallied))
  {
    FilterSnoc(s, d, Tallied);
    if Tallied(d) {
      TalliesStep(Filter(s, Tallied), d);
    } else {
      assert Filter(s, Tallied) + [] == Filter(s, Tallied);
    }
  }

  /** The handler's loop over the store's records. */
  method StateCount(country: string, response: seq<Dojo>) returns (reply: Reply)
    ensures reply == StateCountOf(country, response)
  {
    var states: OrderedMap<Tally> := Empty();
    var i := 0;
    while i < |response|
      invariant i <= |response|
      invariant forall j :: 0 <= j < i && Tallied(response[j]) ==> Processable(country, response[j])
      invariant states == Tallies(Filter(response[..i], Tallied))
    {
      var dojo := response[i];
      assert response[..i + 1] == response[..i] + [dojo];
      TalliesSnoc(response[..i], dojo);
      if Truthy(dojo.coordinates) && dojo.deleted != Num(1) && dojo.verified != Num(0) && dojo.stage == Num(2) {
        if dojo.alpha2 != country {
          assert Tallied(response[i]) && !Processable(country, response[i]);
          return Thrown;
        }
        // The entry is created and its total bumped before `split` throws;
        // a thrown loop makes neither visible.
        if !dojo.coordinates.Str? {
          assert Tallied(response[i]) && !Processable(country, response[i]);
          return Thrown;
        }
        states := TallyDojo(states, dojo);
      }
      i := i + 1;
    }
    assert response[..i] == response;
    return Counted(states);
  }

  /** The body of the loop for a counted dojo of the requested country
      whose coordinates are a string. */
  method TallyDojo(states: OrderedMap<Tally>, dojo: Dojo) returns (next: OrderedMap<Tally>)
    requires dojo.coordinates.Str?
    ensures next == Bump(states, dojo)
  {
    next := states;
    var tally := if dojo.admin1Name in next.values then next.values[dojo.admin1Name] else Tally(0, Undefined, Undefined);
    if dojo.admin1Name !in next.values {
      next := OrderedMap(next.keys + [dojo.admin1Name], next.values[dojo.admin1Name := tally]);
    }
    tally := tally.(total := tally.total + 1);
    var fields := Split(dojo.coordinates.s, ',');
    tally := tally.(latitude := Str(fields[0]));
    tally := tally.(longitude := if 1 < |fields| then Str(fields[1]) else Undefined);
    next := OrderedMap(next.keys, next.values[dojo.admin1Name := tally]);
    assert tally == Tally(tally.total, Coordinate(dojo, 0), Coordinate(dojo, 1));
    assert next.values == Bump(states, dojo).values;
  }

  /** "Live, with coordinates, in state `st`". */
  function TalliedAt(st: string): Dojo -> bool
  {
    d => Tallied(d) && d.admin1Name == st
  }

  /** `response[i]` is the last live dojo with coordinates in state `st`. */
  predicate LastIn(response: seq<Dojo>, st: string, i: int)
  {
    0 <= i < |response| && TalliedAt(st)(response[i]) &&
    forall j :: i < j < |response| ==> !TalliedAt(st)(response[j])
  }

  /** The states are exactly those of the live dojos with coordinates, in the
      order of each state's first such dojo. */
  lemma TalliesStates(response: seq<Dojo>)
    ensures Tallies(Filter(response, Tallied)).Valid()
    ensures forall st :: st in Tallies(Filter(response, Tallied)).values ==>
              exists d :: d in response && Tallied(d) && d.admin1Name == st
    ensures forall d :: d in response && Tallied(d) ==> d.admin1Name in Tallies(Filter(response, Tallied)).values
    ensures FirstSeenOrder(Tallies(Filter(response, Tallied)).keys, response, Tallied, Admin1NameOf)
  {
    GroupMeaning(Filter(response, Tallied), Admin1NameOf);
    GroupFirstSeen(response, Tallied, Admin1NameOf);
    FilterMultiset(response, Tallied);
  }

  /** Each state's total counts exactly its live dojos with coordinates. */
  lemma TalliesTotals(response: seq<Dojo>)
    ensures forall st :: st in Tallies(Filter(response, Tallied)).values ==>
              Tallies(Filter(response, Tallied)).values[st].total == |Filter(response, TalliedAt(st))|
  {
    var counted := Filter(response, Tallied);
    var g := Group(counted, Admin1NameOf);
    GroupMeaning(counted, Admin1NameOf);
    forall st | st in g.values
      ensures Tallies(counted).values[st].total == |Filter(response, TalliedAt(st))|
    {
      CellTallied(response, st);
    }
  }

  /** Each state's latitude and longitude are fields 0 and 1 of the
      coordinates of its last live dojo with coordinates. */
  lemma TalliesCoordinates(response: seq<Dojo>, st: string)
    requires st in Tallies(Filter(response, Tallied)).values
    ensures exists i :: LastIn(response, st, i) &&
              Tallies(Filter(response, Tallied)).values[st].latitude == Coordinate(response[i], 0) &&
              Tallies(Filter(response, Tallied)).values[st].longitude == Coordinate(response[i], 1)
  {
    var counted := Filter(response, Tallied);
    var cell := Filter(response, TalliedAt(st));
    CellOfState(response, st);
    FilterLast(response, TalliedAt(st));
    var i :| 0 <= i < |response| && TalliedAt(st)(response[i]) && response[i] == cell[|cell| - 1] &&
              forall j :: i < j < |response| ==> !TalliedAt(st)(response[j]);
    assert LastIn(response, st, i);
  }

  /** A present state's group is its non-empty run of live dojos with
      coordinates. */
  lemma CellOfState(response: seq<Dojo>, st: string)
    requires st in Group(Filter(response, Tallied), Admin1NameOf).values
    ensures Group(Filter(response, Tallied), Admin1NameOf).values[st] == Filter(response, TalliedAt(st))
    ensures Filter(response, TalliedAt(st)) != []
  {
    var counted := Filter(response, Tallied);
    var g := Group(counted, Admin1NameOf);
    GroupMeaning(counted, Admin1NameOf);
    CellTallied(response, st);
    var x :| x in counted && x.admin1Name == st;
    FilterMultiset(counted, HasKey(Admin1NameOf, st));
    assert x in g.values[st];
  }

  /** A state's group holds the live dojos with coordinates in that state. */
  lemma CellTallied(response: seq<Dojo>, st: string)
    ensures Filter(Filter(response, Tallied), HasKey(Admin1NameOf, st)) == Filter(response, TalliedAt(st))
  {
    var counted := Filter(response, Tallied);
    forall k | 0 <= k < |counted|
      ensures HasKey(Admin1NameOf, st)(counted[k]) == TalliedAt(st)(counted[k])
    {
      var x := counted[k];
      assert Tallied(x);
      HasKeyAt(Admin1NameOf, st, x);
      assert TalliedAt(st)(x) == (Tallied(x) && x.admin1Name == st);
    }
    FilterSame(counted, HasKey(Admin1NameOf, st), TalliedAt(st));
    forall k | 0 <= k < |response|
      ensures TalliedAt(st)(response[k]) ==> Tallied(response[k])
    {
    }
    FilterImplied(response, Tallied, TalliedAt(st));
  }

  /** Every state's total together make up the number of live dojos with
      coordinates. */
  lemma StateCountTotal(response: seq<Dojo>)
    ensures SumKeys(Tallies(Filter(response, Tallied)).keys,
                    map st | st in Tallies(Filter(response, Tallied)).values :: Tallies(Filter(response, Tallied)).values[st].total)
         == |Filter(response, Tallied)|
  {
    var counted := Filter(response, Tallied);
    var t := Tallies(counted);
    var g := Group(counted, Admin1NameOf);
    assert (map st | st in t.values :: t.values[st].total) == Counts(g).values;
    GroupTotal(counted, Admin1NameOf);
  }

  /** When every record is of the requested country (the store was asked for
      exactly those) and has string or absent coordinates, the loop does not
      throw. */
  lemma StateCountReplies(country: string, response: seq<Dojo>)
    requires forall i :: 0 <= i < |response| ==>
               response[i].alpha2 == country && (response[i].coordinates.Str? || !Truthy(response[i].coordinates))
    ensures StateCountOf(country, response).Counted?
  {
  }
}
