/** `String.prototype.split` with a one-character separator, and its inverse. */
module Text {

  /** `s.split(sep)`: the fields between the occurrences of `sep`. The empty
      string splits into one empty field. */
  function Split(s: string, sep: char): (fields: seq<string>)
    ensures |fields| >= 1
    ensures forall i :: 0 <= i < |fields| ==> sep !in fields[i]
    decreases |s|
  {
    if s == [] then [[]]
    else
      var rest := Split(s[1..], sep);
      if s[0] == sep then [[]] + rest
      else [[s[0]] + rest[0]] + rest[1..]
  }

  /** `fields.join(sep)` */
  function Join(fields: seq<string>, sep: char): string
  {
    if fields == [] then []
    else if |fields| == 1 then fields[0]
    else fields[0] + [sep] + Join(fields[1..], sep)
  }

  /** Joining the fields back with the separator gives the original string. */
  lemma {:induction false} JoinSplit(s: string, sep: char)
    ensures Join(Split(s, sep), sep) == s
    decreases |s|
  {
    if s != [] {
      var rest := Split(s[1..], sep);
      JoinSplit(s[1..], sep);
      if s[0] == sep {
        assert ([[]] + rest)[1..] == rest;
      } else if |rest| == 1 {
        assert s == [s[0]] + s[1..];
      } else {
        var fields := [[s[0]] + rest[0]] + rest[1..];
        assert fields[1..] == rest[1..];
        assert s == [s[0]] + s[1..];
      }
    }
  }

  /** A field without the separator, followed by the separator, splits off
      as the first field. */
  lemma {:induction false} SplitField(f: string, sep: char, tail: string)
    requires sep !in f
    ensures Split(f + [sep] + tail, sep) == [f] + Split(tail, sep)
    decreases |f|
  {
    if f == [] {
      assert f + [sep] + tail == [sep] + tail;
      assert ([sep] + tail)[1..] == tail;
    } else {
      SplitField(f[1..], sep, tail);
      assert (f + [sep] + tail)[1..] == f[1..] + [sep] + tail;
      assert f == [f[0]] + f[1..];
    }
  }

  lemma {:induction false} SplitNoSeparator(f: string, sep: char)
    requires sep !in f
    ensures Split(f, sep) == [f]
    decreases |f|
  {
    if f != [] {
      SplitNoSeparator(f[1..], sep);
      assert f == [f[0]] + f[1..];
    }
  }

  /** Splitting a join of separator-free fields gives the fields back. */
  lemma {:induction false} SplitJoin(fields: seq<string>, sep: char)
    requires |fields| >= 1
    requires forall i :: 0 <= i < |fields| ==> sep !in fields[i]
    ensures Split(Join(fields, sep), sep) == fields
  {
    if |fields| == 1 {
      SplitNoSeparator(fields[0], sep);
    } else {
      SplitJoin(fields[1..], sep);
      SplitField(fields[0], sep, Join(fields[1..], sep));
      assert fields == [fields[0]] + fields[1..];
    }
  }
}
