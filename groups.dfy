/** JavaScript objects used as dictionaries, and the grouping loops the
    handlers run over them. An object is modelled by its own keys in
    insertion order (the order `Object.keys` reports) and the value stored
    under each key. */
module Groups {
  import opened Order
  import opened Seqs

  datatype OrderedMap<V> = OrderedMap(keys: seq<string>, values: map<string, V>)
  {
    /** The keys are distinct and are exactly the keys that hold a value. */
    predicate Valid()
    {
      && (forall i, j :: 0 <= i < j < |keys| ==> keys[i] != keys[j])
      && (forall k :: k in keys ==> k in values)
      && (forall k :: k in values ==> k in keys)
    }
  }

  /** `{}` */
  function Empty<V>(): OrderedMap<V>
  {
    OrderedMap([], map[])
  }

  /** `if (!g[k]) g[k] = []; g[k].push(x);` */
  function Push<T>(g: OrderedMap<seq<T>>, k: string, x: T): OrderedMap<seq<T>>
  {
    if k in g.values then OrderedMap(g.keys, g.values[k := g.values[k] + [x]])
    else OrderedMap(g.keys + [k], g.values[k := [x]])
  }

  /** The object a loop builds by pushing every element of `s`, in order,
      onto the array stored under its key. */
  function Group<T>(s: seq<T>, key: T -> string): OrderedMap<seq<T>>
  {
    if s == [] then Empty()
    else Push(Group(s[..|s| - 1], key), key(s[|s| - 1]), s[|s| - 1])
  }

  /** `g` holds, under each key, exactly the elements of `s` with that key
      in input order; a key is present exactly when some element has it. */
  ghost predicate Represents<T>(g: OrderedMap<seq<T>>, s: seq<T>, key: T -> string)
  {
    && g.Valid()
    && (forall k :: k in g.values ==> exists x :: x in s && key(x) == k)
    && (forall x :: x in s ==> key(x) in g.values)
    && (forall k :: k in g.values ==> g.values[k] == Filter(s, HasKey(key, k)))
  }

  lemma PushRepresents<T>(g: OrderedMap<seq<T>>, s: seq<T>, x: T, key: T -> string)
    requires Represents(g, s, key)
    ensures Represents(Push(g, key(x), x), s + [x], key)
  {
    var g', s' := Push(g, key(x), x), s + [x];
    PushValues(g, s, x, key);
    forall k | k in g'.values
      ensures exists y :: y in s' && key(y) == k
    {
      if k != key(x) {
        var y :| y in s && key(y) == k;
        assert y in s';
      } else {
        assert x in s';
      }
    }
    if key(x) !in g.values {
      forall i, j | 0 <= i < j < |g'.keys|
        ensures g'.keys[i] != g'.keys[j]
      {
        if j == |g.keys| {
          assert g.keys[i] in g.values;
        }
      }
    }
  }

  lemma PushValues<T>(g: OrderedMap<seq<T>>, s: seq<T>, x: T, key: T -> string)
    requires Represents(g, s, key)
    ensures forall k :: k in Push(g, key(x), x).values ==>
              Push(g, key(x), x).values[k] == Filter(s + [x], HasKey(key, k))
  {
    var g' := Push(g, key(x), x);
    forall k | k in g'.values
      ensures g'.values[k] == Filter(s + [x], HasKey(key, k))
    {
      FilterSnoc(s, x, HasKey(key, k));
      if k == key(x) && k !in g.values {
        forall i | 0 <= i < |s| ensures !HasKey(key, k)(s[i]) {
          assert s[i] in s;
        }
        FilterNone(s, HasKey(key, k));
      }
    }
  }

  /** Grouping builds the object that represents its input. */
  lemma {:induction false} GroupMeaning<T>(s: seq<T>, key: T -> string)
    ensures Represents(Group(s, key), s, key)
  {
    if s != [] {
      var init, x := s[..|s| - 1], s[|s| - 1];
      GroupMeaning(init, key);
      assert s == init + [x];
      PushRepresents(Group(init, key), init, x, key);
    }
  }

  /** The keys are in the order in which each key first occurs among the
      selected elements of `s`: wherever a selected element has a later key,
      a selected element with the earlier key occurs before it. */
  ghost predicate FirstSeenOrder<T>(keys: seq<string>, s: seq<T>, sel: T -> bool, key: T -> string)
  {
    forall i, j, q :: 0 <= i < j < |keys| && 0 <= q < |s| && sel(s[q]) && key(s[q]) == keys[j] ==>
      exists p :: 0 <= p < q && sel(s[p]) && key(s[p]) == keys[i]
  }

  /** Grouping the selected elements creates their keys in the order in
      which each key first occurs (the order `Object.keys` reports). */
  lemma {:induction false} GroupFirstSeen<T>(s: seq<T>, sel: T -> bool, key: T -> string)
    ensures FirstSeenOrder(Group(Filter(s, sel), key).keys, s, sel, key)
  {
    if s != [] {
      var init, x := s[..|s| - 1], s[|s| - 1];
      assert s == init + [x];
      GroupFirstSeen(init, sel, key);
      FilterSnoc(init, x, sel);
      var f := Filter(init, sel);
      if sel(x) {
        assert (f + [x])[..|f|] == f;
        GroupedKeys(init, sel, key);
        FirstSeenPush(Group(f, key), init, x, sel, key);
      } else {
        assert f + [] == f;
        FirstSeenSkip(Group(f, key).keys, init, x, sel, key);
      }
    }
  }

  /** The keys of the grouping of the selected elements are exactly the keys
      some selected element has. */
  lemma GroupedKeys<T>(s: seq<T>, sel: T -> bool, key: T -> string)
    ensures forall k :: k in Group(Filter(s, sel), key).keys ==> k in Group(Filter(s, sel), key).values
    ensures forall k :: k in Group(Filter(s, sel), key).values ==>
              exists m :: 0 <= m < |s| && sel(s[m]) && key(s[m]) == k
    ensures forall m :: 0 <= m < |s| && sel(s[m]) ==> key(s[m]) in Group(Filter(s, sel), key).values
  {
    var f := Filter(s, sel);
    GroupMeaning(f, key);
    FilterMultiset(s, sel);
    forall k | k in Group(f, key).values
      ensures exists m :: 0 <= m < |s| && sel(s[m]) && key(s[m]) == k
    {
      var y :| y in f && key(y) == k;
      var m :| 0 <= m < |s| && s[m] == y;
    }
    forall m | 0 <= m < |s| && sel(s[m])
      ensures key(s[m]) in Group(f, key).values
    {
      assert s[m] in f;
    }
  }

  lemma FirstSeenAt<T>(keys: seq<string>, s: seq<T>, sel: T -> bool, key: T -> string, i: nat, j: nat, q: nat)
    requires FirstSeenOrder(keys, s, sel, key)
    requires i < j < |keys| && q < |s| && sel(s[q]) && key(s[q]) == keys[j]
    ensures exists p :: 0 <= p < q && sel(s[p]) && key(s[p]) == keys[i]
  {
    assert keys[i] in keys;
  }

  lemma FirstSeenSkip<T>(keys: seq<string>, init: seq<T>, x: T, sel: T -> bool, key: T -> string)
    requires FirstSeenOrder(keys, init, sel, key)
    requires !sel(x)
    ensures FirstSeenOrder(keys, init + [x], sel, key)
  {
    var s := init + [x];
    forall i, j, q | 0 <= i < j < |keys| && 0 <= q < |s| && sel(s[q]) && key(s[q]) == keys[j]
      ensures exists p :: 0 <= p < q && sel(s[p]) && key(s[p]) == keys[i]
    {
      assert q < |init| && init[q] == s[q];
      FirstSeenAt(keys, init, sel, key, i, j, q);
      var p :| 0 <= p < q && sel(init[p]) && key(init[p]) == keys[i];
      assert s[p] == init[p];
    }
  }

  lemma FirstSeenPush<T>(g: OrderedMap<seq<T>>, init: seq<T>, x: T, sel: T -> bool, key: T -> string)
    requires FirstSeenOrder(g.keys, init, sel, key)
    requires forall k :: k in g.keys ==> k in g.values
    requires forall k :: k in g.values ==> exists m :: 0 <= m < |init| && sel(init[m]) && key(init[m]) == k
    requires forall m :: 0 <= m < |init| && sel(init[m]) ==> key(init[m]) in g.values
    requires sel(x)
    ensures FirstSeenOrder(Push(g, key(x), x).keys, init + [x], sel, key)
  {
    var s, keys := init + [x], Push(g, key(x), x).keys;
    forall i, j, q | 0 <= i < j < |keys| && 0 <= q < |s| && sel(s[q]) && key(s[q]) == keys[j]
      ensures exists p :: 0 <= p < q && sel(s[p]) && key(s[p]) == keys[i]
    {
      if q < |init| {
        // an element of `init`: its key is an old key
        assert init[q] == s[q];
        assert key(init[q]) in g.values;
        assert j < |g.keys|;
        FirstSeenAt(g.keys, init, sel, key, i, j, q);
        var p :| 0 <= p < q && sel(init[p]) && key(init[p]) == keys[i];
        assert s[p] == init[p];
      } else if key(x) in g.values {
        // `x` adds no key: an earlier occurrence of its key has its witness
        var m :| 0 <= m < |init| && sel(init[m]) && key(init[m]) == keys[j];
        FirstSeenAt(g.keys, init, sel, key, i, j, m);
        var p :| 0 <= p < m && sel(init[p]) && key(init[p]) == keys[i];
        assert s[p] == init[p];
      } else {
        // `x` creates the last key: every older key occurred in `init`
        assert keys[i] == g.keys[i] && g.keys[i] in g.keys;
        var p :| 0 <= p < |init| && sel(init[p]) && key(init[p]) == keys[i];
        assert s[p] == init[p];
      }
    }
    assert FirstSeenOrder(keys, s, sel, key);
  }

  /** The keys are in the order in which each key first occurs in `s`. */
  ghost predicate KeysFirstSeen<T>(keys: seq<string>, s: seq<T>, key: T -> string)
  {
    forall i, j, q :: 0 <= i < j < |keys| && 0 <= q < |s| && key(s[q]) == keys[j] ==>
      exists p :: 0 <= p < q && key(s[p]) == keys[i]
  }

  /** The selection of every element. */
  predicate Every<T>(x: T) { true }

  /** Grouping creates the keys in the order in which each key first
      occurs in the input. */
  lemma GroupKeysFirstSeen<T>(s: seq<T>, key: T -> string)
    ensures KeysFirstSeen(Group(s, key).keys, s, key)
  {
    var every := Every<T>;
    FilterAll(s, every);
    GroupFirstSeen(s, every, key);
    var keys := Group(s, key).keys;
    forall i, j, q | 0 <= i < j < |keys| && 0 <= q < |s| && key(s[q]) == keys[j]
      ensures exists p :: 0 <= p < q && key(s[p]) == keys[i]
    {
      assert every(s[q]);
      FirstSeenAt(keys, s, every, key, i, j, q);
      var p :| 0 <= p < q && every(s[p]) && key(s[p]) == keys[i];
    }
    assert KeysFirstSeen(keys, s, key);
  }

  /** On input sorted by key, the keys are inserted in strictly ascending order. */
  lemma {:induction false} GroupKeysAscending<T>(s: seq<T>, key: T -> string)
    requires forall i, j :: 0 <= i < j < |s| ==> !Less(key(s[j]), key(s[i]))
    ensures forall i, j :: 0 <= i < j < |Group(s, key).keys| ==>
              Less(Group(s, key).keys[i], Group(s, key).keys[j])
  {
    if s != [] {
      var init, x := s[..|s| - 1], s[|s| - 1];
      GroupKeysAscending(init, key);
      GroupMeaning(init, key);
      var g := Group(init, key);
      if key(x) !in g.values {
        forall i | 0 <= i < |g.keys|
          ensures Less(g.keys[i], key(x))
        {
          assert g.keys[i] in g.values;
          var y :| y in init && key(y) == g.keys[i];
          var m :| 0 <= m < |init| && init[m] == y;
          assert s[m] == y;
          LessTotal(g.keys[i], key(x));
        }
      }
    }
  }

  /** The sum of the counts stored under `keys`. */
  function SumKeys(keys: seq<string>, m: map<string, nat>): nat
  {
    if keys == [] then 0
    else SumKeys(keys[..|keys| - 1], m) + (if keys[|keys| - 1] in m then m[keys[|keys| - 1]] else 0)
  }

  function Total(c: OrderedMap<nat>): nat
  {
    SumKeys(c.keys, c.values)
  }

  /** The size of each group. */
  function Counts<T>(g: OrderedMap<seq<T>>): OrderedMap<nat>
  {
    OrderedMap(g.keys, map k | k in g.values :: |g.values[k]|)
  }

  lemma {:induction false} SumKeysFrame(keys: seq<string>, m: map<string, nat>, k: string, v: nat)
    requires k !in keys
    ensures SumKeys(keys, m[k := v]) == SumKeys(keys, m)
  {
    if keys != [] {
      SumKeysFrame(keys[..|keys| - 1], m, k, v);
    }
  }

  lemma {:induction false} SumKeysUpdate(keys: seq<string>, m: map<string, nat>, k: string, v: nat)
    requires forall i, j :: 0 <= i < j < |keys| ==> keys[i] != keys[j]
    requires k in keys && k in m
    ensures SumKeys(keys, m[k := v]) + m[k] == SumKeys(keys, m) + v
  {
    var init, last := keys[..|keys| - 1], keys[|keys| - 1];
    if last == k {
      assert k !in init by {
        forall i | 0 <= i < |init| ensures init[i] != k {
          assert keys[i] == init[i];
        }
      }
      SumKeysFrame(init, m, k, v);
    } else {
      assert k in init by {
        var i :| 0 <= i < |keys| && keys[i] == k;
        assert init[i] == k;
      }
      SumKeysUpdate(init, m, k, v);
    }
  }

  /** Pushing onto a group adds one to its count, or starts a count of one. */
  lemma CountsPush<T>(g: OrderedMap<seq<T>>, k: string, x: T)
    ensures Counts(Push(g, k, x)) ==
      if k in g.values then OrderedMap(g.keys, Counts(g).values[k := |g.values[k]| + 1])
      else OrderedMap(g.keys + [k], Counts(g).values[k := 1])
  {
    var c' := Counts(Push(g, k, x)).values;
    if k in g.values {
      assert c' == Counts(g).values[k := |g.values[k]| + 1];
    } else {
      assert c' == Counts(g).values[k := 1];
    }
  }

  /** Count conservation: the group sizes add up to the number of elements. */
  lemma {:induction false} GroupTotal<T>(s: seq<T>, key: T -> string)
    ensures Total(Counts(Group(s, key))) == |s|
  {
    if s != [] {
      var init, x := s[..|s| - 1], s[|s| - 1];
      GroupTotal(init, key);
      GroupMeaning(init, key);
      var g, k := Group(init, key), key(x);
      var c := Counts(g);
      CountsPush(g, k, x);
      if k in g.values {
        SumKeysUpdate(g.keys, c.values, k, |g.values[k]| + 1);
      } else {
        assert (g.keys + [k])[..|g.keys|] == g.keys;
        SumKeysFrame(g.keys, c.values, k, 1);
      }
    }
  }
}
