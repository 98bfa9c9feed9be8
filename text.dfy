/** Python's `str.split(sep)` for a one-character separator and `sep.join(parts)`. */
module Text {

  /** The first index at or after `from` that holds `c`, or `|s|` when there is none. */
  function IndexOf(s: string, c: char, from: nat): (i: nat)
    requires from <= |s|
    ensures from <= i <= |s|
    ensures i < |s| ==> s[i] == c
    ensures forall k | from <= k < i :: s[k] != c
    decreases |s| - from
  {
    if from == |s| || s[from] == c then from else IndexOf(s, c, from + 1)
  }

  /** The number of occurrences of `c` in `s`. */
  function Count(s: string, c: char): nat
  {
    if s == [] then 0 else (if s[0] == c then 1 else 0) + Count(s[1..], c)
  }

  /** `s.split(sep)`: the maximal separator-free pieces between occurrences of `sep`;
      empty pieces are kept, and `""` gives `[""]`. */
  function Split(s: string, sep: char): (parts: seq<string>)
    ensures |parts| >= 1
    decreases |s|
  {
    var i := IndexOf(s, sep, 0);
    if i == |s| then [s] else [s[..i]] + Split(s[i + 1..], sep)
  }

  /** `sep.join(parts)`. */
  function Join(sep: string, parts: seq<string>): (s: string)
    ensures parts == [] ==> s == ""
    ensures |parts| == 1 ==> s == parts[0]
  {
    if parts == [] then ""
    else if |parts| == 1 then parts[0]
    else parts[0] + sep + Join(sep, parts[1..])
  }

  /** A join of two or more parts opens with the first part and the separator,
      and closes with the separator and the last part. */
  lemma {:induction false} JoinEnds(sep: string, parts: seq<string>)
    requires |parts| >= 2
    ensures var s := Join(sep, parts);
      && |s| >= |parts[0]| + |sep| + |parts[|parts| - 1]|
      && s[..|parts[0]| + |sep|] == parts[0] + sep
      && s[|s| - |sep| - |parts[|parts| - 1]|..] == sep + parts[|parts| - 1]
    decreases |parts|
  {
    var rest := Join(sep, parts[1..]);
    var last := parts[|parts| - 1];
    if |parts| > 2 {
      JoinEnds(sep, parts[1..]);
      assert rest[|rest| - |sep| - |last|..] == sep + last;
    }
    assert Join(sep, parts) == parts[0] + sep + rest;
  }

  lemma {:induction false} CountAppend(a: string, b: string, c: char)
    ensures Count(a + b, c) == Count(a, c) + Count(b, c)
  {
    if a != [] {
      assert (a + b)[1..] == a[1..] + b;
      CountAppend(a[1..], b, c);
    } else {
      assert a + b == b;
    }
  }

  lemma CountAbsent(s: string, c: char)
    requires c !in s
    ensures Count(s, c) == 0
  {
  }

  /** No piece contains the separator. */
  lemma {:induction false} SplitPiecesFree(s: string, sep: char)
    ensures forall p | p in Split(s, sep) :: sep !in p
    decreases |s|
  {
    var i := IndexOf(s, sep, 0);
    if i < |s| {
      SplitPiecesFree(s[i + 1..], sep);
      assert sep !in s[..i] by {
        forall k | 0 <= k < i ensures s[..i][k] != sep { }
      }
    } else {
      assert sep !in s by {
        forall k | 0 <= k < |s| ensures s[k] != sep { }
      }
    }
  }

  /** Joining the pieces with the separator gives back the original string. */
  lemma {:induction false} JoinSplit(s: string, sep: char)
    ensures Join([sep], Split(s, sep)) == s
    decreases |s|
  {
    var i := IndexOf(s, sep, 0);
    if i < |s| {
      var rest := Split(s[i + 1..], sep);
      JoinSplit(s[i + 1..], sep);
      assert Split(s, sep) == [s[..i]] + rest;
      assert s == s[..i] + [sep] + s[i + 1..];
    }
  }

  /** There is one more piece than there are separators. */
  lemma {:induction false} SplitCount(s: string, sep: char)
    ensures |Split(s, sep)| == Count(s, sep) + 1
    decreases |s|
  {
    var i := IndexOf(s, sep, 0);
    assert sep !in s[..i] by {
      forall k | 0 <= k < i ensures s[..i][k] != sep { }
    }
    CountAbsent(s[..i], sep);
    if i < |s| {
      SplitCount(s[i + 1..], sep);
      assert s == s[..i] + ([sep] + s[i + 1..]);
      CountAppend(s[..i], [sep] + s[i + 1..], sep);
      assert ([sep] + s[i + 1..])[1..] == s[i + 1..];
    } else {
      assert s[..i] == s;
    }
  }

  /** A string free of `c` has no occurrence to find. */
  lemma IndexOfAbsent(s: string, c: char)
    requires c !in s
    ensures IndexOf(s, c, 0) == |s|
  {
  }

  /** The first `c` of `p + [c] + t` is the one after `p`, when `p` has none. */
  lemma IndexOfAfterFree(p: string, c: char, t: string)
    requires c !in p
    ensures IndexOf(p + [c] + t, c, 0) == |p|
  {
    var s := p + [c] + t;
    assert s[|p|] == c;
    assert forall k | 0 <= k < |p| :: s[k] == p[k] && p[k] != c;
  }

  /** Splitting a join of separator-free pieces gives back the pieces. */
  lemma {:induction false} SplitJoin(parts: seq<string>, sep: char)
    requires |parts| >= 1
    requires forall p | p in parts :: sep !in p
    ensures Split(Join([sep], parts), sep) == parts
    decreases |parts|
  {
    var p := parts[0];
    assert p in parts;
    if |parts| == 1 {
      IndexOfAbsent(p, sep);
    } else {
      var tail := Join([sep], parts[1..]);
      var s := p + [sep] + tail;
      assert Join([sep], parts) == s;
      IndexOfAfterFree(p, sep, tail);
      assert s[..|p|] == p && s[|p| + 1..] == tail;
      SplitJoin(parts[1..], sep);
    }
  }

  /** The lines `sep + x` for each `x`, concatenated in order. */
  function Prefixed(sep: string, parts: seq<string>): string
  {
    if parts == [] then "" else sep + parts[0] + Prefixed(sep, parts[1..])
  }

  /** Leading with the separator and joining puts each piece after its own separator. */
  lemma {:induction false} JoinAsPrefixed(sep: string, parts: seq<string>)
    requires |parts| >= 1
    ensures sep + Join(sep, parts) == Prefixed(sep, parts)
    decreases |parts|
  {
    if |parts| > 1 {
      JoinAsPrefixed(sep, parts[1..]);
    }
  }
}
