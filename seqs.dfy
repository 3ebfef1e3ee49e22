/** Filtering and lodash's stable `sortBy` over sequences. */
module Seqs {
  import opened Order

  /** The elements of `s` that satisfy `p`, in their order in `s`. */
  function Filter<T>(s: seq<T>, p: T -> bool): (r: seq<T>)
    ensures |r| <= |s|
    ensures forall i :: 0 <= i < |r| ==> p(r[i])
  {
    if s == [] then []
    else (if p(s[0]) then [s[0]] else []) + Filter(s[1..], p)
  }

  /** `Filter` keeps exactly the occurrences of the elements satisfying `p`. */
  lemma {:induction false} FilterMultiset<T>(s: seq<T>, p: T -> bool)
    ensures forall x :: x in Filter(s, p) ==> x in s && p(x)
    ensures forall x :: x in s && p(x) ==> x in Filter(s, p)
    ensures forall x :: x in s ==> multiset(Filter(s, p))[x] == if p(x) then multiset(s)[x] else 0
  {
    if s != [] {
      FilterMultiset(s[1..], p);
      assert s == [s[0]] + s[1..];
    }
  }

  /** One element at a time: `Filter` keeps every occurrence of `x` when `x`
      satisfies `p`. */
  lemma FilterKeeps<T>(s: seq<T>, p: T -> bool, x: T)
    requires p(x)
    ensures multiset(Filter(s, p))[x] == multiset(s)[x]
  {
    FilterMultiset(s, p);
    if x !in s {
      assert x !in Filter(s, p);
    }
  }

  /** The predicate "the key of this element is `k`". */
  function HasKey<T, K(==)>(key: T -> K, k: K): T -> bool
  {
    x => key(x) == k
  }

  lemma HasKeyAt<T, K>(key: T -> K, k: K, x: T)
    ensures HasKey(key, k)(x) == (key(x) == k)
  {
  }

  lemma {:induction false} FilterAppend<T>(a: seq<T>, b: seq<T>, p: T -> bool)
    ensures Filter(a + b, p) == Filter(a, p) + Filter(b, p)
  {
    if a == [] {
      assert a + b == b;
    } else {
      var h := if p(a[0]) then [a[0]] else [];
      assert (a + b)[0] == a[0] && (a + b)[1..] == a[1..] + b;
      FilterAppend(a[1..], b, p);
      calc {
        Filter(a + b, p);
        h + Filter(a[1..] + b, p);
        h + (Filter(a[1..], p) + Filter(b, p));
        (h + Filter(a[1..], p)) + Filter(b, p);
        Filter(a, p) + Filter(b, p);
      }
    }
  }

  /** Filtering a sequence extended by one element. */
  lemma FilterSnoc<T>(s: seq<T>, x: T, p: T -> bool)
    ensures Filter(s + [x], p) == Filter(s, p) + (if p(x) then [x] else [])
  {
    FilterAppend(s, [x], p);
    assert Filter([x], p) == (if p(x) then [x] else []) + Filter([], p);
  }

  lemma {:induction false} FilterCommute<T>(s: seq<T>, p: T -> bool, q: T -> bool)
    ensures Filter(Filter(s, p), q) == Filter(Filter(s, q), p)
  {
    if s != [] {
      FilterCommute(s[1..], p, q);
      var x := s[0];
      var tp := Filter(s[1..], p);
      var tq := Filter(s[1..], q);
      FilterAppend(if p(x) then [x] else [], tp, q);
      FilterAppend(if q(x) then [x] else [], tq, p);
      assert Filter([x], q) == (if q(x) then [x] else []) + Filter([], q);
      assert Filter([x], p) == (if p(x) then [x] else []) + Filter([], p);
    }
  }

  /** Filtering two permutations of each other gives permutations of each other. */
  lemma FilterPermutation<T>(a: seq<T>, b: seq<T>, p: T -> bool)
    requires multiset(a) == multiset(b)
    ensures multiset(Filter(a, p)) == multiset(Filter(b, p))
    ensures |Filter(a, p)| == |Filter(b, p)|
  {
    FilterMultiset(a, p);
    FilterMultiset(b, p);
    forall x
      ensures multiset(Filter(a, p))[x] == multiset(Filter(b, p))[x]
    {
      if x !in a {
        assert x !in b;
        assert x !in Filter(a, p) && x !in Filter(b, p);
      } else {
        assert x in multiset(b);
      }
    }
    assert multiset(Filter(a, p)) == multiset(Filter(b, p));
    assert |multiset(Filter(a, p))| == |multiset(Filter(b, p))|;
  }

  lemma {:induction false} FilterNone<T>(s: seq<T>, p: T -> bool)
    requires forall i :: 0 <= i < |s| ==> !p(s[i])
    ensures Filter(s, p) == []
  {
    if s != [] {
      FilterNone(s[1..], p);
    }
  }

  /** Two predicates that agree on every element select the same elements. */
  lemma {:induction false} FilterAll<T>(s: seq<T>, p: T -> bool)
    requires forall i :: 0 <= i < |s| ==> p(s[i])
    ensures Filter(s, p) == s
  {
    if s != [] {
      FilterAll(s[1..], p);
    }
  }

  lemma {:induction false} FilterSame<T>(s: seq<T>, p: T -> bool, q: T -> bool)
    requires forall i :: 0 <= i < |s| ==> p(s[i]) == q(s[i])
    ensures Filter(s, p) == Filter(s, q)
  {
    if s != [] {
      FilterSame(s[1..], p, q);
    }
  }

  /** When `q` implies `p` on `s`, filtering by `p` first changes nothing. */
  lemma {:induction false} FilterImplied<T>(s: seq<T>, p: T -> bool, q: T -> bool)
    requires forall i :: 0 <= i < |s| ==> q(s[i]) ==> p(s[i])
    ensures Filter(Filter(s, p), q) == Filter(s, q)
  {
    if s != [] {
      FilterImplied(s[1..], p, q);
      var x := s[0];
      FilterAppend(if p(x) then [x] else [], Filter(s[1..], p), q);
      assert Filter([x], q) == (if q(x) then [x] else []) + Filter([], q);
    }
  }

  /** `s` is ordered by `key`: no element has a key below an earlier one's. */
  predicate SortedBy<T>(s: seq<T>, key: T -> SortKey)
  {
    forall i, j :: 0 <= i < j < |s| ==> !KeyLess(key(s[j]), key(s[i]))
  }

  /** Insert `x` before the first element whose key is not below `x`'s. */
  function Insert<T>(x: T, s: seq<T>, key: T -> SortKey): (r: seq<T>)
    ensures |r| == |s| + 1
    ensures multiset(r) == multiset(s) + multiset{x}
  {
    if s == [] then [x]
    else if KeyLess(key(s[0]), key(x)) then
      assert s == [s[0]] + s[1..];
      [s[0]] + Insert(x, s[1..], key)
    else [x] + s
  }

  /** `_.sortBy(s, key)`: a stable sort by key. */
  function SortBy<T>(s: seq<T>, key: T -> SortKey): (r: seq<T>)
    ensures |r| == |s|
    ensures multiset(r) == multiset(s)
  {
    if s == [] then []
    else
      assert s == [s[0]] + s[1..];
      Insert(s[0], SortBy(s[1..], key), key)
  }

  lemma {:induction false} InsertSorted<T>(x: T, s: seq<T>, key: T -> SortKey)
    requires SortedBy(s, key)
    ensures SortedBy(Insert(x, s, key), key)
  {
    if s == [] {
    } else if KeyLess(key(s[0]), key(x)) {
      var t := Insert(x, s[1..], key);
      InsertSorted(x, s[1..], key);
      forall j | 0 <= j < |t|
        ensures !KeyLess(key(t[j]), key(s[0]))
      {
        assert t[j] in multiset(t);
        if t[j] == x {
          KeyLessAsymmetric(key(s[0]), key(x));
        } else {
          assert t[j] in multiset(s[1..]);
          var m :| 0 <= m < |s[1..]| && s[1..][m] == t[j];
          assert s[m + 1] == t[j];
        }
      }
      assert Insert(x, s, key) == [s[0]] + t;
    } else {
      forall j | 0 <= j < |s|
        ensures !KeyLess(key(s[j]), key(x))
      {
        if j > 0 {
          KeyLeqTransitive(key(x), key(s[0]), key(s[j]));
        }
      }
      assert Insert(x, s, key) == [x] + s;
    }
  }

  lemma {:induction false} SortBySorted<T>(s: seq<T>, key: T -> SortKey)
    ensures SortedBy(SortBy(s, key), key)
  {
    if s != [] {
      SortBySorted(s[1..], key);
      InsertSorted(s[0], SortBy(s[1..], key), key);
    }
  }

  /** Inserting `x` leaves the relative order of the elements sharing any key
      unchanged, and puts `x` before the others with its key. */
  lemma {:induction false} InsertStable<T>(x: T, s: seq<T>, key: T -> SortKey, k: SortKey)
    ensures Filter(Insert(x, s, key), HasKey(key, k))
         == (if key(x) == k then [x] else []) + Filter(s, HasKey(key, k))
  {
    var p := HasKey(key, k);
    HasKeyAt(key, k, x);
    if s == [] {
      assert Filter([x], p) == (if p(x) then [x] else []) + Filter([], p);
    } else if KeyLess(key(s[0]), key(x)) {
      InsertStable(x, s[1..], key, k);
      InsertPastHead(x, s, key, k);
    } else {
      assert Insert(x, s, key) == [x] + s;
      assert ([x] + s)[1..] == s;
    }
  }

  /** The step of `InsertStable` where `x` goes past the first element. */
  lemma InsertPastHead<T>(x: T, s: seq<T>, key: T -> SortKey, k: SortKey)
    requires s != [] && KeyLess(key(s[0]), key(x))
    requires Filter(Insert(x, s[1..], key), HasKey(key, k))
          == (if key(x) == k then [x] else []) + Filter(s[1..], HasKey(key, k))
    ensures Filter(Insert(x, s, key), HasKey(key, k))
         == (if key(x) == k then [x] else []) + Filter(s, HasKey(key, k))
  {
    var p := HasKey(key, k);
    KeyLessIrreflexive(key(x));
    HasKeyAt(key, k, s[0]);
    HasKeyAt(key, k, x);
    var y, rest := s[0], s[1..];
    var t := Insert(x, rest, key);
    assert Insert(x, s, key) == [y] + t;
    FilterCons(y, t, p);
    assert s == [y] + rest;
    FilterCons(y, rest, p);
    var mine := if key(x) == k then [x] else [];
    var fr := Filter(rest, p);
    if p(y) {
      assert key(x) != k;
      assert [] + fr == fr;
      assert Filter(t, p) == fr;
    } else {
      assert [] + (mine + fr) == mine + fr;
      assert [] + fr == fr;
    }
  }

  lemma FilterCons<T>(y: T, t: seq<T>, p: T -> bool)
    ensures Filter([y] + t, p) == (if p(y) then [y] else []) + Filter(t, p)
  {
    assert ([y] + t)[0] == y;
    assert ([y] + t)[1..] == t;
  }

  /** `sortBy` is stable: for every key, the elements with that key keep their
      input order. */
  lemma {:induction false} SortByStable<T>(s: seq<T>, key: T -> SortKey, k: SortKey)
    ensures Filter(SortBy(s, key), HasKey(key, k)) == Filter(s, HasKey(key, k))
  {
    if s != [] {
      SortByStable(s[1..], key, k);
      InsertStable(s[0], SortBy(s[1..], key), key, k);
    }
  }

  /** A subsequence of a sorted sequence is sorted. */
  lemma {:induction false} FilterSorted<T>(s: seq<T>, p: T -> bool, key: T -> SortKey)
    requires SortedBy(s, key)
    ensures SortedBy(Filter(s, p), key)
  {
    if s != [] {
      FilterSorted(s[1..], p, key);
      var rest := s[1..];
      var t := Filter(rest, p);
      FilterMultiset(rest, p);
      if p(s[0]) {
        forall j | 0 <= j < |t|
          ensures !KeyLess(key(t[j]), key(s[0]))
        {
          assert t[j] in t;
          var m :| 0 <= m < |rest| && rest[m] == t[j];
          assert s[m + 1] == t[j];
        }
        assert Filter(s, p) == [s[0]] + t;
      } else {
        assert Filter(s, p) == t;
      }
    }
  }

  /** The last element `Filter` keeps is the last element of `s` that
      satisfies `p`. */
  lemma {:induction false} FilterLast<T>(s: seq<T>, p: T -> bool)
    requires Filter(s, p) != []
    ensures exists i :: 0 <= i < |s| && p(s[i]) && s[i] == Filter(s, p)[|Filter(s, p)| - 1] &&
              forall j :: i < j < |s| ==> !p(s[j])
  {
    var init, x := s[..|s| - 1], s[|s| - 1];
    assert s == init + [x];
    FilterSnoc(init, x, p);
    if p(x) {
      assert p(s[|s| - 1]) && s[|s| - 1] == Filter(s, p)[|Filter(s, p)| - 1];
    } else {
      assert Filter(init, p) + [] == Filter(init, p);
      FilterLast(init, p);
      var i :| 0 <= i < |init| && p(init[i]) && init[i] == Filter(init, p)[|Filter(init, p)| - 1] &&
                forall j :: i < j < |init| ==> !p(init[j]);
      assert s[i] == init[i];
      forall j | i < j < |s| ensures !p(s[j]) {
        if j < |init| {
          assert s[j] == init[j];
        }
      }
    }
  }
}
