/** The string and list operations of Python that the pipeline relies on:
    `str.split` on one character, `sep.join`, `str.endswith`, the ordering
    of `str` (by code point) and `list.sort()` on a list of strings. */
module Strings {
  import opened Common


  predicate EndsWith(s: string, suffix: string)
  {
    |suffix| <= |s| && s[|s| - |suffix|..] == suffix
  }

  /** A character missing from a string is missing from its suffixes. */
  lemma SuffixLacks(s: string, t: string, c: char)
    requires c !in s && EndsWith(s, t)
    ensures c !in t
  {
    forall i | 0 <= i < |t| ensures t[i] != c {
      assert t[i] == s[|s| - |t| + i];
    }
  }

  /** A character missing from a string is missing from its prefixes. */
  lemma PrefixLacks(s: string, t: string, c: char)
    requires c !in s && StartsWith(s, t)
    ensures c !in t
  {
    forall i | 0 <= i < |t| ensures t[i] != c {
      assert t[i] == s[i];
    }
  }

  lemma EndsWithConcat(a: string, b: string)
    ensures EndsWith(a + b, b)
  {
    assert (a + b)[|a + b| - |b|..] == b;
  }

  /** A name made of a prefix and a suffix, joined to a directory, still
      ends with the suffix. */
  lemma PathJoinEndsWith(dir: string, prefix: string, suffix: string)
    requires |prefix| > 0 && prefix[0] != '/'
    ensures EndsWith(PathJoin(dir, prefix + suffix), suffix)
  {
    var b := prefix + suffix;
    var p := PathJoin(dir, b);
    assert b[0] == prefix[0];
    assert p[|p| - |b|..] == b;
    assert p[|p| - |suffix|..] == b[|b| - |suffix|..];
  }

  predicate StartsWith(s: string, prefix: string)
  {
    |prefix| <= |s| && s[..|prefix|] == prefix
  }

  function Last<T>(xs: seq<T>): T
    requires |xs| > 0
  {
    xs[|xs| - 1]
  }

  // ---------------------------------------------------------------------
  // str.split(c) and sep.join(xs)
  // ---------------------------------------------------------------------

  /** `s.split(c)` for a one-character separator: the pieces between the
      occurrences of `c`. There is always at least one piece, and no piece
      contains the separator. */
  function Split(s: string, c: char): (r: seq<string>)
    ensures |r| >= 1
    ensures forall i :: 0 <= i < |r| ==> c !in r[i]
    decreases |s|
  {
    if s == [] then [[]]
    else
      var t := Split(s[1..], c);
      if s[0] == c then [[]] + t else [[s[0]] + t[0]] + t[1..]
  }

  /** `sep.join(xs)`. */
  function Join(xs: seq<string>, sep: string): string
    decreases |xs|
  {
    if xs == [] then []
    else if |xs| == 1 then xs[0]
    else xs[0] + sep + Join(xs[1..], sep)
  }

  /** Splitting and re-joining on the same character gives back the string. */
  lemma {:induction false} JoinSplit(s: string, c: char)
    ensures Join(Split(s, c), [c]) == s
    decreases |s|
  {
    if s != [] {
      var t := Split(s[1..], c);
      JoinSplit(s[1..], c);
      if s[0] == c {
        assert Split(s, c) == [[]] + t;
        assert Join([[]] + t, [c]) == [] + [c] + Join(t, [c]);
      } else if |t| == 1 {
        assert Split(s, c) == [[s[0]] + t[0]];
      } else {
        assert Split(s, c) == [[s[0]] + t[0]] + t[1..];
        assert ([[s[0]] + t[0]] + t[1..])[1..] == t[1..];
        assert Join(t, [c]) == t[0] + [c] + Join(t[1..], [c]);
      }
    }
  }

  /** A string without the separator is one piece. */
  lemma {:induction false} SplitNoSeparator(s: string, c: char)
    requires c !in s
    ensures Split(s, c) == [s]
    decreases |s|
  {
    if s != [] {
      assert s == [s[0]] + s[1..] && s[0] != c;
      SplitNoSeparator(s[1..], c);
    }
  }

  /** Splitting distributes over a separator occurrence. */
  lemma {:induction false} SplitAround(a: string, b: string, c: char)
    ensures Split(a + [c] + b, c) == Split(a, c) + Split(b, c)
    decreases |a|
  {
    if a == [] {
      assert [] + [c] + b == [c] + b;
      assert ([c] + b)[1..] == b;
    } else {
      var s := a + [c] + b;
      assert s[0] == a[0] && s[1..] == a[1..] + [c] + b;
      SplitAround(a[1..], b, c);
    }
  }

  /** Joining pieces that do not contain the separator and splitting again
      gives back the pieces. */
  lemma {:induction false} SplitJoin(xs: seq<string>, c: char)
    requires |xs| >= 1
    requires forall i :: 0 <= i < |xs| ==> c !in xs[i]
    ensures Split(Join(xs, [c]), c) == xs
    decreases |xs|
  {
    if |xs| == 1 {
      SplitNoSeparator(xs[0], c);
    } else {
      SplitNoSeparator(xs[0], c);
      SplitJoin(xs[1..], c);
      assert Join(xs, [c]) == xs[0] + [c] + Join(xs[1..], [c]);
      SplitAround(xs[0], Join(xs[1..], [c]), c);
      assert [xs[0]] + xs[1..] == xs;
    }
  }

  /** Joining two non-empty lists is joining each and putting the
      separator between the results. */
  lemma {:induction false} JoinAppend(a: seq<string>, b: seq<string>, sep: string)
    requires |a| >= 1 && |b| >= 1
    ensures Join(a + b, sep) == Join(a, sep) + sep + Join(b, sep)
    decreases |a|
  {
    if |a| == 1 {
      assert (a + b)[1..] == b;
    } else {
      JoinAppend(a[1..], b, sep);
      assert (a + b)[1..] == a[1..] + b;
    }
  }

  lemma JoinSnoc(xs: seq<string>, x: string, sep: string)
    requires |xs| >= 1
    ensures Join(xs + [x], sep) == Join(xs, sep) + sep + x
  {
    JoinAppend(xs, [x], sep);
  }

  /** `s.split(c)[-1]` is the part of `s` after its last `c`: a suffix of
      `s` without `c`, preceded by `c` unless it is the whole of `s`. */
  lemma {:induction false} SplitLastIsSuffix(s: string, c: char)
    ensures var l := Last(Split(s, c));
      |l| <= |s| && s[|s| - |l|..] == l && c !in l &&
      (|l| < |s| ==> s[|s| - |l| - 1] == c) &&
      (|l| == |s| ==> c !in s)
    decreases |s|
  {
    if s != [] {
      var t := Split(s[1..], c);
      SplitLastIsSuffix(s[1..], c);
      if s[0] != c && |t| == 1 {
        JoinSplit(s[1..], c);
        assert t[0] == s[1..];
        assert s == [s[0]] + s[1..];
        assert Split(s, c) == [s];
      } else if s[0] != c {
        assert Last(Split(s, c)) == Last(t);
        if c !in s[1..] {
          SplitNoSeparator(s[1..], c);
        }
      }
    }
  }

  /** `s.split(c)[0]` is the part of `s` before its first `c`. */
  lemma {:induction false} SplitFirstIsPrefix(s: string, c: char)
    ensures var f := Split(s, c)[0];
      |f| <= |s| && s[..|f|] == f && c !in f &&
      (|f| < |s| ==> s[|f|] == c)
    decreases |s|
  {
    if s != [] {
      SplitFirstIsPrefix(s[1..], c);
    }
  }

  /** The last piece of `a + [c] + b` is `b` when `b` has no `c`. */
  lemma LastPieceAfter(a: string, b: string, c: char)
    requires c !in b
    ensures Last(Split(a + [c] + b, c)) == b
  {
    SplitAround(a, b, c);
    SplitNoSeparator(b, c);
  }

  /** The first piece of `a + [c] + b` is `a` when `a` has no `c`. */
  lemma FirstPieceBefore(a: string, b: string, c: char)
    requires c !in a
    ensures Split(a + [c] + b, c)[0] == a
  {
    SplitAround(a, b, c);
    SplitNoSeparator(a, c);
  }

  // ---------------------------------------------------------------------
  // Ordering of Python strings and list.sort()
  // ---------------------------------------------------------------------

  /** `a <= b` on Python strings: lexicographic by code point. */
  predicate LexLe(a: string, b: string)
    decreases |a|
  {
    |a| == 0 || (|b| > 0 && (a[0] < b[0] || (a[0] == b[0] && LexLe(a[1..], b[1..]))))
  }

  lemma {:induction false} LexLeReflexive(a: string)
    ensures LexLe(a, a)
    decreases |a|
  {
    if |a| > 0 { LexLeReflexive(a[1..]); }
  }

  lemma {:induction false} LexLeTotal(a: string, b: string)
    ensures LexLe(a, b) || LexLe(b, a)
    decreases |a|
  {
    if |a| > 0 && |b| > 0 && a[0] == b[0] { LexLeTotal(a[1..], b[1..]); }
  }

  lemma {:induction false} LexLeAntisymmetric(a: string, b: string)
    requires LexLe(a, b) && LexLe(b, a)
    ensures a == b
    decreases |a|
  {
    if |a| > 0 {
      LexLeAntisymmetric(a[1..], b[1..]);
      assert a == [a[0]] + a[1..] && b == [b[0]] + b[1..];
    }
  }

  lemma {:induction false} LexLeTransitive(a: string, b: string, c: string)
    requires LexLe(a, b) && LexLe(b, c)
    ensures LexLe(a, c)
    decreases |a|
  {
    if |a| > 0 && a[0] == b[0] && b[0] == c[0] {
      LexLeTransitive(a[1..], b[1..], c[1..]);
    }
  }

  /** A common prefix does not change the order of two strings. */
  lemma {:induction false} LexLeDropPrefix(p: string, a: string, b: string)
    requires LexLe(p + a, p + b)
    ensures LexLe(a, b)
    decreases |p|
  {
    if |p| > 0 {
      assert (p + a)[1..] == p[1..] + a && (p + b)[1..] == p[1..] + b;
      LexLeDropPrefix(p[1..], a, b);
    } else {
      assert p + a == a && p + b == b;
    }
  }

  predicate Sorted(s: seq<string>)
  {
    forall i, j :: 0 <= i < j < |s| ==> LexLe(s[i], s[j])
  }

  /** A list whose neighbours are in order is sorted. */
  lemma {:induction false} AdjacentSorted(s: seq<string>)
    requires forall i :: 0 <= i < |s| - 1 ==> LexLe(s[i], s[i + 1])
    ensures Sorted(s)
    decreases |s|
  {
    if |s| > 1 {
      var t := s[1..];
      assert forall i :: 0 <= i < |t| - 1 ==> LexLe(t[i], t[i + 1]) by {
        forall i | 0 <= i < |t| - 1 ensures LexLe(t[i], t[i + 1]) {
          assert t[i] == s[i + 1] && t[i + 1] == s[i + 2];
        }
      }
      AdjacentSorted(t);
      forall i, j | 0 <= i < j < |s| ensures LexLe(s[i], s[j]) {
        if i == 0 {
          if j == 1 { } else {
            assert t[0] == s[1] && t[j - 1] == s[j];
            LexLeTransitive(s[0], s[1], s[j]);
          }
        } else {
          assert t[i - 1] == s[i] && t[j - 1] == s[j];
        }
      }
    }
  }

  /** Every element of `s` is at least `x`. */
  predicate AllAtLeast(x: string, s: seq<string>)
  {
    forall k :: 0 <= k < |s| ==> LexLe(x, s[k])
  }

  lemma AllAtLeastMultiset(x: string, s: seq<string>, t: seq<string>)
    requires AllAtLeast(x, s) && multiset(t) <= multiset(s)
    ensures AllAtLeast(x, t)
  {
    forall k | 0 <= k < |t| ensures LexLe(x, t[k]) {
      assert t[k] in multiset(t);
      assert t[k] in multiset(s);
      var j :| 0 <= j < |s| && s[j] == t[k];
    }
  }

  /** Inserts `x` into a list before the first element it does not
      exceed. */
  function Insert(x: string, s: seq<string>): (r: seq<string>)
    ensures multiset(r) == multiset(s) + multiset{x}
    decreases |s|
  {
    if s == [] then [x]
    else if LexLe(x, s[0]) then [x] + s
    else
      assert s == [s[0]] + s[1..];
      [s[0]] + Insert(x, s[1..])
  }

  /** A sorted list stays sorted with an element in front that is at most
      each of its elements. */
  lemma SortedCons(x: string, s: seq<string>)
    requires Sorted(s) && AllAtLeast(x, s)
    ensures Sorted([x] + s)
  {
    var r := [x] + s;
    forall i, j | 0 <= i < j < |r| ensures LexLe(r[i], r[j]) {
      assert r[j] == s[j - 1];
      if i > 0 { assert r[i] == s[i - 1]; }
    }
  }

  /** Inserting into a sorted list keeps it sorted. */
  lemma {:induction false} InsertSorted(x: string, s: seq<string>)
    requires Sorted(s)
    ensures Sorted(Insert(x, s))
    decreases |s|
  {
    if s == [] {
    } else if LexLe(x, s[0]) {
      forall k | 0 <= k < |s| ensures LexLe(x, s[k]) {
        if k > 0 { LexLeTransitive(x, s[0], s[k]); }
      }
      SortedCons(x, s);
    } else {
      var tail := Insert(x, s[1..]);
      SortedTail(s);
      InsertSorted(x, s[1..]);
      LexLeTotal(x, s[0]);
      forall k | 0 <= k < |s[1..]| ensures LexLe(s[0], s[1..][k]) {
        assert s[1..][k] == s[k + 1];
      }
      assert AllAtLeast(s[0], s[1..] + [x]);
      assert multiset(tail) == multiset(s[1..] + [x]);
      AllAtLeastMultiset(s[0], s[1..] + [x], tail);
      SortedCons(s[0], tail);
      assert Insert(x, s) == [s[0]] + tail;
    }
  }

  /** `list.sort()` on strings: the result is sorted and a permutation of the
      input. */
  function Sort(s: seq<string>): (r: seq<string>)
    ensures Sorted(r)
    ensures multiset(r) == multiset(s)
    ensures |r| == |s|
    decreases |s|
  {
    if s == [] then []
    else
      assert s == [s[0]] + s[1..];
      var r := Insert(s[0], Sort(s[1..]));
      InsertSorted(s[0], Sort(s[1..]));
      assert |r| == |multiset(r)| == |multiset(s)| == |s|;
      r
  }

  lemma SortedTail(a: seq<string>)
    requires Sorted(a) && |a| > 0
    ensures Sorted(a[1..])
  {
    forall i, j | 0 <= i < j < |a| - 1 ensures LexLe(a[1..][i], a[1..][j]) {
      assert a[1..][i] == a[i + 1] && a[1..][j] == a[j + 1];
    }
  }

  /** The head of a sorted list is at most every string in it. */
  lemma SortedHeadIsLeast(a: seq<string>, x: string)
    requires Sorted(a) && x in multiset(a)
    ensures LexLe(a[0], x)
  {
    var i :| 0 <= i < |a| && a[i] == x;
    if i == 0 { LexLeReflexive(x); }
  }

  lemma MultisetTail(a: seq<string>)
    requires |a| > 0
    ensures multiset(a[1..]) == multiset(a) - multiset{a[0]}
  {
    assert a == [a[0]] + a[1..];
  }

  /** A sorted permutation is unique: so `Sort` agrees with any other way of
      producing a sorted arrangement of the same strings. */
  lemma {:induction false} SortedUnique(a: seq<string>, b: seq<string>)
    requires Sorted(a) && Sorted(b) && multiset(a) == multiset(b)
    ensures a == b
    decreases |a|
  {
    if |a| == 0 {
      assert |b| == |multiset(b)| == 0;
    } else {
      assert |b| == |multiset(b)| == |multiset(a)| == |a|;
      assert a[0] in multiset(a) && b[0] in multiset(b);
      SortedHeadIsLeast(b, a[0]);
      SortedHeadIsLeast(a, b[0]);
      LexLeAntisymmetric(a[0], b[0]);
      MultisetTail(a);
      MultisetTail(b);
      SortedTail(a);
      SortedTail(b);
      SortedUnique(a[1..], b[1..]);
    }
  }

  /** Every element of `s` differs from every other. */
  predicate NoDuplicates<T(==)>(s: seq<T>)
  {
    forall i, j :: 0 <= i < j < |s| ==> s[i] != s[j]
  }

  /** A sorted list without repetitions is ascending in the strict sense. */
  lemma SortedDistinctIsStrict(s: seq<string>, i: int, j: int)
    requires Sorted(s) && NoDuplicates(s) && 0 <= i < j < |s|
    ensures LexLe(s[i], s[j]) && !LexLe(s[j], s[i])
  {
    if LexLe(s[j], s[i]) { LexLeAntisymmetric(s[i], s[j]); }
  }

  /** A list in which every element occurs at most once has no repetitions. */
  lemma SingleOccurrences<T>(s: seq<T>)
    requires forall x :: multiset(s)[x] <= 1
    ensures NoDuplicates(s)
  {
    forall i, j | 0 <= i < j < |s| ensures s[i] != s[j] {
      assert s == s[..j] + s[j..];
      assert s[i] in multiset(s[..j]) && s[j] in multiset(s[j..]);
      assert multiset(s)[s[j]] == multiset(s[..j])[s[j]] + multiset(s[j..])[s[j]];
      assert multiset(s[..j])[s[i]] >= 1 && multiset(s[j..])[s[j]] >= 1;
    }
  }
}
