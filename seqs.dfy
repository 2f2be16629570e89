/** Counting and filtering over sequences: the two stream operations
    (`filter(...).count()` and `filter(...)`) the statistics are built from. */
module Seqs {

  /** Number of elements of `s` that satisfy `keep`. */
  function Count<T>(s: seq<T>, keep: T -> bool): (n: nat)
    ensures n <= |s|
  {
    if s == [] then 0
    else Count(s[..|s| - 1], keep) + (if keep(s[|s| - 1]) then 1 else 0)
  }

  /** All elements are counted exactly when all satisfy `keep`. */
  lemma {:induction false} CountAll<T>(s: seq<T>, keep: T -> bool)
    ensures Count(s, keep) == |s| <==> forall i :: 0 <= i < |s| ==> keep(s[i])
  {
    if s != [] {
      var n := |s| - 1;
      CountAll(s[..n], keep);
      if Count(s, keep) == |s| {
        assert Count(s[..n], keep) == n && keep(s[n]);
        assert forall i :: 0 <= i < n ==> keep(s[..n][i]);
      }
    }
  }

  /** Nothing is counted exactly when no element satisfies `keep`. */
  lemma {:induction false} CountNone<T>(s: seq<T>, keep: T -> bool)
    ensures Count(s, keep) == 0 <==> forall i :: 0 <= i < |s| ==> !keep(s[i])
  {
    if s != [] {
      var n := |s| - 1;
      CountNone(s[..n], keep);
      if Count(s, keep) == 0 {
        assert forall i :: 0 <= i < n ==> !keep(s[..n][i]);
      }
    }
  }

  /** The elements of `s` that satisfy `keep`, in their original order. */
  function Filter<T>(s: seq<T>, keep: T -> bool): (r: seq<T>)
    ensures |r| == Count(s, keep)
    ensures forall i :: 0 <= i < |r| ==> keep(r[i])
  {
    if s == [] then []
    else Filter(s[..|s| - 1], keep) + (if keep(s[|s| - 1]) then [s[|s| - 1]] else [])
  }

  lemma {:induction false} CountAppend<T>(a: seq<T>, b: seq<T>, keep: T -> bool)
    ensures Count(a + b, keep) == Count(a, keep) + Count(b, keep)
    decreases |b|
  {
    if b != [] {
      var b' := b[..|b| - 1];
      assert (a + b)[..|a + b| - 1] == a + b';
      CountAppend(a, b', keep);
    } else {
      assert a + b == a;
    }
  }

  lemma {:induction false} FilterAppend<T>(a: seq<T>, b: seq<T>, keep: T -> bool)
    ensures Filter(a + b, keep) == Filter(a, keep) + Filter(b, keep)
    decreases |b|
  {
    if b != [] {
      var b' := b[..|b| - 1];
      assert (a + b)[..|a + b| - 1] == a + b';
      FilterAppend(a, b', keep);
    } else {
      assert a + b == a;
    }
  }

  lemma FilterOne<T>(x: T, keep: T -> bool)
    ensures Filter([x], keep) == if keep(x) then [x] else []
  {
    assert [x][..0] == [];
  }

  lemma FilterAppend3<T>(a: seq<T>, b: seq<T>, c: seq<T>, keep: T -> bool)
    ensures Filter(a + b + c, keep) == Filter(a, keep) + Filter(b, keep) + Filter(c, keep)
  {
    FilterAppend(a + b, c, keep);
    FilterAppend(a, b, keep);
  }

  /** Filtering keeps nothing from a sequence none of whose elements is kept. */
  lemma FilterNone<T>(s: seq<T>, keep: T -> bool)
    requires forall i :: 0 <= i < |s| ==> !keep(s[i])
    ensures Filter(s, keep) == []
  {
    CountNone(s, keep);
  }

  /** Filtering is the identity on a sequence whose every element is kept. */
  lemma {:induction false} FilterAll<T>(s: seq<T>, keep: T -> bool)
    requires forall i :: 0 <= i < |s| ==> keep(s[i])
    ensures Filter(s, keep) == s
  {
    if s != [] {
      FilterAll(s[..|s| - 1], keep);
    }
  }

  /** A predicate that holds wherever another holds keeps at least as many elements. */
  lemma {:induction false} CountMonotone<T>(s: seq<T>, p: T -> bool, q: T -> bool)
    requires forall i :: 0 <= i < |s| && p(s[i]) ==> q(s[i])
    ensures Count(s, p) <= Count(s, q)
  {
    if s != [] {
      CountMonotone(s[..|s| - 1], p, q);
    }
  }

  /** Every element is counted by exactly one of `keep` and its negation. */
  lemma {:induction false} CountComplement<T>(s: seq<T>, keep: T -> bool, drop: T -> bool)
    requires forall x :: drop(x) == !keep(x)
    ensures Count(s, keep) + Count(s, drop) == |s|
  {
    if s != [] {
      CountComplement(s[..|s| - 1], keep, drop);
    }
  }

  /** The indices of `s` whose element satisfies `keep`. */
  function KeptIndices<T>(s: seq<T>, keep: T -> bool): set<nat>
  {
    set i: nat | i < |s| && keep(s[i])
  }

  /** `Count` is the cardinality of the set of kept positions. */
  lemma {:induction false} CountIsCardinality<T>(s: seq<T>, keep: T -> bool)
    ensures Count(s, keep) == |KeptIndices(s, keep)|
  {
    if s != [] {
      var n := |s| - 1;
      var s' := s[..n];
      CountIsCardinality(s', keep);
      var before := KeptIndices(s', keep);
      assert n !in before;
      if keep(s[n]) {
        assert KeptIndices(s, keep) == before + {n};
      } else {
        assert KeptIndices(s, keep) == before;
      }
    }
  }
}
