/** Values shared by every part of the pipeline: the outcome of an operation
    that can raise, the errors the pipeline raises, POSIX path joining and
    the "all outputs present" test that every per-session driver uses to
    decide whether to recompute. */
module Common {

  /** The errors the pipeline raises, one constructor per distinct `raise`
      (or library exception) of the modelled code. */
  datatype Error =
    | MissingColumns(names: seq<string>)             // pandas KeyError on a column selection
    | GlobNotUnique(pattern: string, found: seq<string>)
    | NoSubjects
    | NoSessions
    | ParcellationUnknown(parc: string)
    | NotSymmetric                                   // the `allclose(m, m.T)` assertion
    | NotSquare                                      // m and m.T cannot be compared
    | ShapeMismatch                                  // DataFrame labels do not fit the values

  datatype Result<+T> = Ok(value: T) | Err(error: Error)
  {
    predicate IsFailure() { Err? }

    function PropagateFailure<U>(): Result<U>
      requires Err?
    {
      Err(error)
    }

    function Extract(): T
      requires Ok?
    {
      value
    }
  }

  /** What a per-session driver does: nothing, because every output is
      already present, or a full recomputation that writes `written`. */
  datatype Plan = AlreadyComputed | Computed(written: seq<string>, report: string)

  /** `os.path.join(a, b)` on POSIX: an absolute `b` replaces `a`; otherwise
      a single `/` is put between them unless `a` is empty or already ends
      with one. */
  function PathJoin(a: string, b: string): (p: string)
    ensures |b| > 0 && b[0] == '/' ==> p == b
    ensures (|b| == 0 || b[0] != '/') ==> |p| >= |a| + |b| && p[..|a|] == a && p[|p| - |b|..] == b
  {
    if |b| > 0 && b[0] == '/' then b
    else if a == [] || a[|a| - 1] == '/' then a + b
    else a + "/" + b
  }

  /** `os.path.join(a, b1, b2, ...)`: joins left to right. */
  function PathJoinAll(a: string, parts: seq<string>): string
    decreases |parts|
  {
    if parts == [] then a else PathJoinAll(PathJoin(a, parts[0]), parts[1..])
  }

  /** The completeness test `exists(f1) and exists(f2) and ...` over the
      expected output files of one unit of work. */
  predicate AllPresent(existing: set<string>, outputs: seq<string>)
  {
    forall i :: 0 <= i < |outputs| ==> outputs[i] in existing
  }

  /** `list(map(f, xs))`, built element by element from the front. */
  function MapSeq<A, B>(f: A -> B, xs: seq<A>): (ys: seq<B>)
    ensures |ys| == |xs|
    decreases |xs|
  {
    if xs == [] then [] else MapSeq(f, xs[..|xs| - 1]) + [f(xs[|xs| - 1])]
  }

  /** Each element of the mapped list is the image of the element at the
      same position. */
  lemma {:induction false} MapSeqAt<A, B>(f: A -> B, xs: seq<A>, k: nat)
    requires k < |xs|
    ensures MapSeq(f, xs)[k] == f(xs[k])
    decreases |xs|
  {
    var init := xs[..|xs| - 1];
    if k < |init| {
      MapSeqAt(f, init, k);
      assert init[k] == xs[k];
    }
  }

  lemma MapSeqSnoc<A, B>(f: A -> B, xs: seq<A>, i: nat)
    requires i < |xs|
    ensures MapSeq(f, xs[..i + 1]) == MapSeq(f, xs[..i]) + [f(xs[i])]
  {
    assert xs[..i + 1][..i] == xs[..i];
  }

  /** `list(filter(p, xs))`. */
  function Keep<T>(xs: seq<T>, p: T -> bool): (r: seq<T>)
    ensures |r| <= |xs|
    decreases |xs|
  {
    if xs == [] then [] else (if p(xs[0]) then [xs[0]] else []) + Keep(xs[1..], p)
  }

  /** The filter keeps exactly the elements it accepts. */
  lemma {:induction false} KeepMember<T>(xs: seq<T>, p: T -> bool, x: T)
    ensures x in Keep(xs, p) <==> x in xs && p(x)
    decreases |xs|
  {
    if xs != [] {
      KeepMember(xs[1..], p, x);
      assert xs == [xs[0]] + xs[1..];
    }
  }

  /** The filter keeps the order of what it keeps: a relation between each
      element and every later one still holds between the kept ones. */
  lemma {:induction false} KeepPairwise<T>(xs: seq<T>, p: T -> bool, rel: (T, T) -> bool)
    requires forall i, j :: 0 <= i < j < |xs| ==> rel(xs[i], xs[j])
    ensures var r := Keep(xs, p); forall i, j :: 0 <= i < j < |r| ==> rel(r[i], r[j])
    decreases |xs|
  {
    if xs != [] {
      var rest := xs[1..];
      assert forall i, j :: 0 <= i < j < |rest| ==> rel(rest[i], rest[j]) by {
        forall i, j | 0 <= i < j < |rest| ensures rel(rest[i], rest[j]) {
          assert rest[i] == xs[i + 1] && rest[j] == xs[j + 1];
        }
      }
      KeepPairwise(rest, p, rel);
      var tail := Keep(rest, p);
      var r := Keep(xs, p);
      if p(xs[0]) {
        assert r == [xs[0]] + tail;
        forall j | 0 < j < |r| ensures rel(r[0], r[j]) {
          assert r[j] == tail[j - 1];
          KeepMember(rest, p, r[j]);
          var m :| 0 <= m < |rest| && rest[m] == r[j];
          assert xs[m + 1] == r[j];
        }
        forall i, j | 0 < i < j < |r| ensures rel(r[i], r[j]) {
          assert r[i] == tail[i - 1] && r[j] == tail[j - 1];
        }
      } else {
        assert r == tail;
        forall i, j | 0 <= i < j < |r| ensures rel(r[i], r[j]) {
          assert r[i] == tail[i] && r[j] == tail[j];
        }
      }
    }
  }
}
