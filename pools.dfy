/**
  Candidate pools. A dimension is configured with an ordered list of include
  entries and an ordered list of exclude entries, each entry a single value or
  an inclusive range (`config.softbins.include << 3`, `... << (1..4)`). The
  values eligible for automatic allocation are those some include entry covers
  and no exclude entry covers; the pool lists them once each, in ascending order.
*/
module Pools {

  /** One include or exclude entry: a single value, or the inclusive range `lo..hi`. */
  datatype Entry = Single(n: int) | Span(lo: int, hi: int) {
    predicate Contains(v: int) {
      match this
      case Single(n) => v == n
      case Span(lo, hi) => lo <= v <= hi
    }

    /** A value no smaller than anything the entry contains could be. */
    function Bottom(): int {
      match this
      case Single(n) => n
      case Span(lo, _) => lo
    }

    function Top(): int {
      match this
      case Single(n) => n
      case Span(_, hi) => hi
    }
  }

  predicate Covers(es: seq<Entry>, v: int) {
    exists i | 0 <= i < |es| :: es[i].Contains(v)
  }

  /** `v` is a candidate: included and not excluded. */
  predicate Eligible(includes: seq<Entry>, excludes: seq<Entry>, v: int) {
    Covers(includes, v) && !Covers(excludes, v)
  }

  predicate Increasing(s: seq<int>) {
    forall i, j | 0 <= i < j < |s| :: s[i] < s[j]
  }

  /**
    `pool` is THE candidate pool of the two lists: ascending, and exactly the
    eligible values. Nothing included, or everything included also excluded,
    leaves it empty.
  */
  ghost predicate IsPoolOf(includes: seq<Entry>, excludes: seq<Entry>, pool: seq<int>): (r: bool)
    ensures r && includes == [] ==> pool == []
    ensures r && includes == excludes ==> pool == []
  {
    var ok := Increasing(pool) && forall v :: v in pool <==> Eligible(includes, excludes, v);
    assert ok && pool != [] ==> Eligible(includes, excludes, pool[0]);
    ok
  }

  function Low(es: seq<Entry>): int
    requires es != []
  {
    if |es| == 1 then es[0].Bottom()
    else var rest := Low(es[1..]); if es[0].Bottom() < rest then es[0].Bottom() else rest
  }

  function High(es: seq<Entry>): int
    requires es != []
  {
    if |es| == 1 then es[0].Top()
    else var rest := High(es[1..]); if es[0].Top() > rest then es[0].Top() else rest
  }

  /** Every covered value lies between `Low` and `High`, so a scan of that interval finds them all. */
  lemma {:induction false} CoveredWithinBounds(es: seq<Entry>, v: int)
    requires Covers(es, v)
    ensures es != [] && Low(es) <= v <= High(es)
  {
    var i :| 0 <= i < |es| && es[i].Contains(v);
    if |es| > 1 {
      if i == 0 {
        assert es[0].Bottom() <= v <= es[0].Top();
      } else {
        assert es[1..][i - 1] == es[i];
        CoveredWithinBounds(es[1..], v);
      }
    }
  }

  /** Builds the candidate pool by scanning the interval spanned by the include entries. */
  method BuildPool(includes: seq<Entry>, excludes: seq<Entry>) returns (pool: seq<int>)
    ensures IsPoolOf(includes, excludes, pool)
  {
    pool := [];
    if includes == [] {
      return;
    }
    var lo, hi := Low(includes), High(includes);
    var v := lo;
    while v <= hi
      invariant lo <= v
      invariant Increasing(pool)
      invariant forall u :: u in pool ==> lo <= u < v
      invariant forall u :: u in pool <==> lo <= u < v && Eligible(includes, excludes, u)
    {
      if Eligible(includes, excludes, v) {
        assert forall i | 0 <= i < |pool| :: pool[i] in pool;
        pool := pool + [v];
      }
      v := v + 1;
    }
    forall u | Eligible(includes, excludes, u)
      ensures u in pool
    {
      CoveredWithinBounds(includes, u);
    }
  }

  /** Two ascending sequences with the same elements are equal. */
  lemma {:induction false} IncreasingUnique(p: seq<int>, q: seq<int>)
    requires Increasing(p) && Increasing(q)
    requires forall v :: v in p <==> v in q
    ensures p == q
  {
    if p != [] {
      assert p[0] in p;
    }
    if q != [] {
      assert q[0] in q;
    }
    if p != [] {
      assert p[0] == q[0];
      forall v
        ensures v in p[1..] <==> v in q[1..]
      {
        if v in p[1..] {
          assert v in p && v != p[0];
          assert v in q;
        }
        if v in q[1..] {
          assert v in q && v != q[0];
          assert v in p;
        }
      }
      IncreasingUnique(p[1..], q[1..]);
    }
  }

  /** The pool of a configuration is unique, so exhibiting one sequence pins it down. */
  lemma PoolUnique(includes: seq<Entry>, excludes: seq<Entry>, p: seq<int>, q: seq<int>)
    requires IsPoolOf(includes, excludes, p) && IsPoolOf(includes, excludes, q)
    ensures p == q
  {
    IncreasingUnique(p, q);
  }
}
