/** The ordering lodash's `sortBy` applies to its keys: strings compare
    lexicographically character by character, and an undefined key sorts
    after every defined one. */
module Order {

  /** `a < b` on strings, as JavaScript's relational operator compares them. */
  predicate Less(a: string, b: string)
    decreases |a|
  {
    if a == [] then b != []
    else if b == [] then false
    else if a[0] != b[0] then a[0] < b[0]
    else Less(a[1..], b[1..])
  }

  lemma {:induction false} LessIrreflexive(a: string)
    ensures !Less(a, a)
    decreases |a|
  {
    if a != [] {
      LessIrreflexive(a[1..]);
    }
  }

  lemma {:induction false} LessTransitive(a: string, b: string, c: string)
    requires Less(a, b) && Less(b, c)
    ensures Less(a, c)
    decreases |a|
  {
    if a != [] && a[0] == b[0] && b[0] == c[0] {
      LessTransitive(a[1..], b[1..], c[1..]);
    }
  }

  lemma {:induction false} LessTotal(a: string, b: string)
    ensures a == b || Less(a, b) || Less(b, a)
    decreases |a|
  {
    if a != [] && b != [] && a[0] == b[0] {
      LessTotal(a[1..], b[1..]);
      assert a == [a[0]] + a[1..] && b == [b[0]] + b[1..];
    }
  }

  /** `Less` is the string comparison of section 7.2.13 of ECMA-262
      (IsLessThan): a proper prefix is smaller, and otherwise the first
      differing character decides. */
  lemma LessMeaning(a: string, b: string)
    ensures Less(a, b) ==>
              (|a| < |b| && a == b[..|a|]) || (exists k :: 0 <= k < |a| && k < |b| && a[..k] == b[..k] && a[k] < b[k])
    ensures (|a| < |b| && a == b[..|a|]) ==> Less(a, b)
    ensures (exists k :: 0 <= k < |a| && k < |b| && a[..k] == b[..k] && a[k] < b[k]) ==> Less(a, b)
  {
    if Less(a, b) {
      LessCases(a, b);
    }
    if |a| < |b| && a == b[..|a|] {
      PrefixLess(a, b);
    }
    if exists k :: 0 <= k < |a| && k < |b| && a[..k] == b[..k] && a[k] < b[k] {
      var k :| 0 <= k < |a| && k < |b| && a[..k] == b[..k] && a[k] < b[k];
      DifferenceLess(a, b, k);
    }
  }

  lemma {:induction false} LessCases(a: string, b: string)
    requires Less(a, b)
    ensures (|a| < |b| && a == b[..|a|]) || (exists k :: 0 <= k < |a| && k < |b| && a[..k] == b[..k] && a[k] < b[k])
    decreases |a|
  {
    if a == [] {
    } else if a[0] != b[0] {
      assert a[..0] == b[..0];
    } else {
      var a', b' := a[1..], b[1..];
      LessCases(a', b');
      if |a'| < |b'| && a' == b'[..|a'|] {
        assert b[..|a|] == [b[0]] + b'[..|a'|];
        assert a == [a[0]] + a';
      } else {
        var k :| 0 <= k < |a'| && k < |b'| && a'[..k] == b'[..k] && a'[k] < b'[k];
        assert a'[..k] == a[1..k + 1] && b'[..k] == b[1..k + 1];
        assert a[..k + 1] == [a[0]] + a[1..k + 1];
        assert b[..k + 1] == [b[0]] + b[1..k + 1];
        assert a[k + 1] == a'[k] && b[k + 1] == b'[k];
      }
    }
  }

  lemma {:induction false} PrefixLess(a: string, b: string)
    requires |a| < |b| && a == b[..|a|]
    ensures Less(a, b)
    decreases |a|
  {
    if a != [] {
      assert a[0] == b[0];
      assert a[1..] == b[1..][..|a| - 1];
      PrefixLess(a[1..], b[1..]);
    }
  }

  lemma {:induction false} DifferenceLess(a: string, b: string, k: nat)
    requires k < |a| && k < |b| && a[..k] == b[..k] && a[k] < b[k]
    ensures Less(a, b)
    decreases k
  {
    if k > 0 {
      assert a[0] == a[..k][0] && b[0] == b[..k][0];
      assert a[1..][..k - 1] == a[..k][1..] && b[1..][..k - 1] == b[..k][1..];
      DifferenceLess(a[1..], b[1..], k - 1);
    }
  }

  /** A sort key: the value the iteratee of `_.sortBy` returns. */
  datatype SortKey = Defined(text: string) | NoKey

  predicate KeyLess(x: SortKey, y: SortKey)
  {
    match x
    case Defined(a) => (match y case Defined(b) => Less(a, b) case NoKey => true)
    case NoKey => false
  }

  lemma KeyLessIrreflexive(x: SortKey)
    ensures !KeyLess(x, x)
  {
    if x.Defined? {
      LessIrreflexive(x.text);
    }
  }

  lemma KeyLessTransitive(x: SortKey, y: SortKey, z: SortKey)
    requires KeyLess(x, y) && KeyLess(y, z)
    ensures KeyLess(x, z)
  {
    if z.Defined? {
      LessTransitive(x.text, y.text, z.text);
    }
  }

  lemma KeyLessTotal(x: SortKey, y: SortKey)
    ensures x == y || KeyLess(x, y) || KeyLess(y, x)
  {
    if x.Defined? && y.Defined? {
      LessTotal(x.text, y.text);
    }
  }

  /** "not after": the order in which `sortBy` leaves neighbours alone. */
  lemma KeyLeqTransitive(x: SortKey, y: SortKey, z: SortKey)
    requires !KeyLess(y, x) && !KeyLess(z, y)
    ensures !KeyLess(z, x)
  {
    KeyLessTotal(x, y);
    KeyLessTotal(y, z);
    if KeyLess(x, y) && KeyLess(y, z) {
      KeyLessTransitive(x, y, z);
      KeyLessAsymmetric(x, z);
    }
  }

  lemma KeyLessAsymmetric(x: SortKey, y: SortKey)
    requires KeyLess(x, y)
    ensures !KeyLess(y, x)
  {
    if KeyLess(y, x) {
      KeyLessTransitive(x, y, x);
      KeyLessIrreflexive(x);
    }
  }
}
