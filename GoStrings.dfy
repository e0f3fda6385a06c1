/** Go strings as byte sequences, and the parts of Go's `strings` package the
    logger relies on: `Index`, `Split` and `Join` with a non-empty separator.

    A Go `string` and a Go `[]byte` are both sequences of bytes; `[]byte(s)`
    keeps the bytes as they are. A byte is written here as a `char` no larger
    than U+00FF so that text literals stay readable. */
module GoStrings {

  type Byte = c: char | c <= '\U{FF}'

  type GoString = seq<Byte>

  /** `sep` occurs in `s` starting at position `i`. */
  predicate IsAt(s: GoString, i: int, sep: GoString) {
    0 <= i && i + |sep| <= |s| && s[i..i + |sep|] == sep
  }

  /** `strings.Contains(s, sep)`. */
  predicate Contains(s: GoString, sep: GoString) {
    exists i | 0 <= i <= |s| :: IsAt(s, i, sep)
  }

  /** No proper non-empty suffix of `sep` is also a prefix of it, so two
      occurrences of `sep` can never overlap. */
  predicate Unbordered(sep: GoString) {
    forall d :: 0 < d < |sep| ==> sep[d..] != sep[..|sep| - d]
  }

  /** The first occurrence of `sep` at or after position `k`, or -1. */
  function IndexFrom(s: GoString, sep: GoString, k: nat): (i: int)
    requires k <= |s|
    ensures i == -1 || (k <= i && IsAt(s, i, sep))
    ensures forall j :: k <= j && (i == -1 || j < i) ==> !IsAt(s, j, sep)
    decreases |s| - k
  {
    if k + |sep| > |s| then -1
    else if s[k..k + |sep|] == sep then k
    else if k == |s| then -1
    else IndexFrom(s, sep, k + 1)
  }

  /** `strings.Index(s, sep)`: the position of the first occurrence, or -1. */
  function Index(s: GoString, sep: GoString): (i: int)
    ensures i == -1 <==> !Contains(s, sep)
    ensures i != -1 ==> IsAt(s, i, sep) && forall j :: 0 <= j < i ==> !IsAt(s, j, sep)
  {
    IndexFrom(s, sep, 0)
  }

  /** `strings.Split(s, sep)` for a non-empty `sep`: cut `s` at each
      occurrence of `sep`, scanning left to right. */
  function Split(s: GoString, sep: GoString): (parts: seq<GoString>)
    requires |sep| > 0
    ensures |parts| >= 1
    decreases |s|
  {
    var i := Index(s, sep);
    if i < 0 then [s] else [s[..i]] + Split(s[i + |sep|..], sep)
  }

  /** `strings.Join(parts, sep)`. */
  function Join(parts: seq<GoString>, sep: GoString): GoString
  {
    if |parts| == 0 then []
    else if |parts| == 1 then parts[0]
    else parts[0] + sep + Join(parts[1..], sep)
  }

  /** The number of positions at which `sep` occurs in `s`. For an
      unbordered separator this is also the number of non-overlapping
      occurrences that `strings.Count` reports. */
  function Occurrences(s: GoString, sep: GoString): nat
    requires |sep| > 0
    decreases |s|
  {
    if |s| < |sep| then 0
    else (if IsAt(s, 0, sep) then 1 else 0) + Occurrences(s[1..], sep)
  }

  lemma IsAtShift(s: GoString, k: nat, j: int, sep: GoString)
    requires k <= |s|
    ensures IsAt(s[k..], j, sep) <==> (0 <= j && IsAt(s, k + j, sep))
  {
    if 0 <= j && j + |sep| <= |s| - k {
      assert s[k..][j..j + |sep|] == s[k + j..k + j + |sep|];
    }
  }

  /** An occurrence inside a prefix or a suffix is an occurrence in the whole. */
  lemma IsAtPrefix(s: GoString, n: nat, j: int, sep: GoString)
    requires n <= |s|
    requires IsAt(s[..n], j, sep)
    ensures IsAt(s, j, sep)
  {
    assert s[..n][j..j + |sep|] == s[j..j + |sep|];
  }

  /** Two occurrences of an unbordered separator are at least its length apart. */
  lemma NoOverlap(s: GoString, sep: GoString, i: int, j: int)
    requires Unbordered(sep)
    requires IsAt(s, i, sep) && IsAt(s, j, sep) && i < j
    ensures j >= i + |sep|
  {
    if j < i + |sep| {
      OverlapIsBorder(s, sep, i, j);
    }
  }

  /** Two overlapping occurrences of `sep` exhibit a border of `sep`. */
  lemma OverlapIsBorder(s: GoString, sep: GoString, i: int, j: int)
    requires IsAt(s, i, sep) && IsAt(s, j, sep) && i < j < i + |sep|
    ensures sep[j - i..] == sep[..|sep| - (j - i)]
  {
    assert sep[j - i..] == s[j..i + |sep|];
    assert sep[..|sep| - (j - i)] == s[j..i + |sep|];
  }

  lemma JoinCons(p: GoString, tail: seq<GoString>, sep: GoString)
    requires |tail| >= 1
    ensures Join([p] + tail, sep) == p + sep + Join(tail, sep)
  {
    assert ([p] + tail)[1..] == tail;
  }

  /** Splitting and joining again gives back the original string. */
  lemma {:induction false} SplitJoin(s: GoString, sep: GoString)
    requires |sep| > 0
    ensures Join(Split(s, sep), sep) == s
    decreases |s|
  {
    var i := Index(s, sep);
    if i >= 0 {
      var head, rest := s[..i], s[i + |sep|..];
      var tail := Split(rest, sep);
      assert Split(s, sep) == [head] + tail;
      SplitJoin(rest, sep);
      JoinCons(head, tail, sep);
      Reassemble(s, i, sep);
    }
  }

  /** Cutting `s` around an occurrence of `sep` loses nothing. */
  lemma Reassemble(s: GoString, i: int, sep: GoString)
    requires IsAt(s, i, sep)
    ensures s == s[..i] + sep + s[i + |sep|..]
  {
    assert s[i..i + |sep|] == sep;
    assert s == s[..i] + s[i..i + |sep|] + s[i + |sep|..];
  }

  /** No part produced by `Split` contains the separator. */
  lemma {:induction false} SplitPartsFree(s: GoString, sep: GoString)
    requires |sep| > 0
    ensures forall k :: 0 <= k < |Split(s, sep)| ==> !Contains(Split(s, sep)[k], sep)
    decreases |s|
  {
    var i := Index(s, sep);
    if i >= 0 {
      var rest := s[i + |sep|..];
      SplitPartsFree(rest, sep);
      var parts := Split(s, sep);
      assert parts == [s[..i]] + Split(rest, sep);
      if Contains(s[..i], sep) {
        var j :| IsAt(s[..i], j, sep);
        IsAtPrefix(s, i, j, sep);
        assert false;
      }
      forall k | 0 <= k < |parts|
        ensures !Contains(parts[k], sep)
      {
        if k > 0 {
          assert parts[k] == Split(rest, sep)[k - 1];
        }
      }
    }
  }

  /** In `p + sep + t`, with `p` free of an unbordered `sep`, the first
      occurrence of `sep` is the one right after `p`. */
  lemma IndexAfterPrefix(p: GoString, sep: GoString, t: GoString)
    requires |sep| > 0 && Unbordered(sep) && !Contains(p, sep)
    ensures Index(p + sep + t, sep) == |p|
  {
    var s := p + sep + t;
    assert s[|p|..|p| + |sep|] == sep;
    assert IsAt(s, |p|, sep);
    var i := Index(s, sep);
    if i < |p| {
      if i + |sep| <= |p| {
        assert s[i..i + |sep|] == p[i..i + |sep|];
        assert IsAt(p, i, sep);
        assert false;
      } else {
        NoOverlap(s, sep, i, |p|);
        assert false;
      }
    }
  }

  /** Joining parts free of an unbordered separator and splitting again gives
      back exactly those parts. */
  lemma {:induction false} JoinSplit(parts: seq<GoString>, sep: GoString)
    requires |sep| > 0 && Unbordered(sep) && |parts| >= 1
    requires forall k :: 0 <= k < |parts| ==> !Contains(parts[k], sep)
    ensures Split(Join(parts, sep), sep) == parts
    decreases |parts|
  {
    if |parts| == 1 {
      assert Join(parts, sep) == parts[0];
    } else {
      var p, rest := parts[0], Join(parts[1..], sep);
      assert Join(parts, sep) == p + sep + rest;
      IndexAfterPrefix(p, sep, rest);
      assert (p + sep + rest)[..|p|] == p;
      assert (p + sep + rest)[|p| + |sep|..] == rest;
      JoinSplit(parts[1..], sep);
      assert parts == [p] + parts[1..];
    }
  }

  /** A string with no occurrence of `sep` has none to count. */
  lemma {:induction false} OccurrencesNone(s: GoString, sep: GoString)
    requires |sep| > 0 && !Contains(s, sep)
    ensures Occurrences(s, sep) == 0
    decreases |s|
  {
    if |s| >= |sep| {
      assert !IsAt(s, 0, sep);
      if Contains(s[1..], sep) {
        var j :| IsAt(s[1..], j, sep);
        IsAtShift(s, 1, j, sep);
        assert false;
      }
      OccurrencesNone(s[1..], sep);
    }
  }

  /** Positions before the first occurrence contribute nothing to the count. */
  lemma {:induction false} OccurrencesSkip(s: GoString, sep: GoString, k: nat)
    requires |sep| > 0 && k <= |s|
    requires forall j :: 0 <= j < k ==> !IsAt(s, j, sep)
    ensures Occurrences(s, sep) == Occurrences(s[k..], sep)
    decreases k
  {
    if k > 0 {
      assert !IsAt(s, 0, sep);
      forall j | 0 <= j < k - 1
        ensures !IsAt(s[1..], j, sep)
      {
        IsAtShift(s, 1, j, sep);
      }
      OccurrencesSkip(s[1..], sep, k - 1);
      assert s[1..][k - 1..] == s[k..];
      if |s| < |sep| {
        assert Occurrences(s[k..], sep) == 0;
      }
    }
  }

  /** For an unbordered separator, `Split` yields one part more than the
      number of occurrences of the separator. */
  lemma {:induction false} SplitCount(s: GoString, sep: GoString)
    requires |sep| > 0 && Unbordered(sep)
    ensures |Split(s, sep)| == Occurrences(s, sep) + 1
    decreases |s|
  {
    var i := Index(s, sep);
    if i < 0 {
      OccurrencesNone(s, sep);
    } else {
      var rest := s[i + |sep|..];
      OccurrencesSkip(s, sep, i);
      var t := s[i..];
      assert IsAt(t, 0, sep) by { IsAtShift(s, i, 0, sep); }
      assert Occurrences(t, sep) == 1 + Occurrences(t[1..], sep);
      forall j | 0 <= j < |sep| - 1
        ensures !IsAt(t[1..], j, sep)
      {
        IsAtShift(t, 1, j, sep);
        if IsAt(t, 1 + j, sep) {
          NoOverlap(t, sep, 0, 1 + j);
        }
      }
      OccurrencesSkip(t[1..], sep, |sep| - 1);
      assert t[1..][|sep| - 1..] == rest;
      SplitCount(rest, sep);
    }
  }
}
