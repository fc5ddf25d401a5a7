// Inclusive height intervals: the representation shared by the DEX runtime
// coverage and the Across runtime coverage.
//
// A list is `Normal` when it is sorted, disjoint and non-adjacent. Normal lists
// are canonical: two of them that hold the same heights are the same list.

module Intervals {

  const MAX_UINT64: nat := 0xFFFF_FFFF_FFFF_FFFF

  type uint64 = n: nat | n <= MAX_UINT64

  datatype Interval = Interval(from: uint64, to: uint64)

  predicate Normal(ranges: seq<Interval>) {
    && (forall i :: 0 <= i < |ranges| ==> ranges[i].from <= ranges[i].to)
    && (forall i, j :: 0 <= i < j < |ranges| ==> ranges[i].to + 1 < ranges[j].from)
  }

  ghost predicate Has(ranges: seq<Interval>, n: int) {
    exists i :: 0 <= i < |ranges| && ranges[i].from <= n <= ranges[i].to
  }

  /** The set of heights that a list of intervals holds. */
  ghost function Elements(ranges: seq<Interval>): (s: set<nat>)
    ensures forall n: nat :: n in s <==> Has(ranges, n)
  {
    set n: nat | 0 <= n <= MAX_UINT64 && Has(ranges, n)
  }

  lemma HasTail(ranges: seq<Interval>, n: int)
    requires |ranges| > 0
    ensures Has(ranges, n) <==> ranges[0].from <= n <= ranges[0].to || Has(ranges[1..], n)
  {
    if Has(ranges[1..], n) {
      var i :| 0 <= i < |ranges[1..]| && ranges[1..][i].from <= n <= ranges[1..][i].to;
      assert ranges[i + 1].from <= n <= ranges[i + 1].to;
    }
    if Has(ranges, n) && !(ranges[0].from <= n <= ranges[0].to) {
      var i :| 0 <= i < |ranges| && ranges[i].from <= n <= ranges[i].to;
      assert ranges[1..][i - 1] == ranges[i];
    }
  }

  lemma HasConcat(a: seq<Interval>, b: seq<Interval>, n: int)
    ensures Has(a + b, n) <==> Has(a, n) || Has(b, n)
  {
    if Has(a, n) {
      var i :| 0 <= i < |a| && a[i].from <= n <= a[i].to;
      assert (a + b)[i] == a[i];
    }
    if Has(b, n) {
      var i :| 0 <= i < |b| && b[i].from <= n <= b[i].to;
      assert (a + b)[|a| + i] == b[i];
    }
  }

  lemma NormalConcat(a: seq<Interval>, b: seq<Interval>)
    requires Normal(a) && Normal(b)
    requires a != [] && b != [] ==> a[|a| - 1].to + 1 < b[0].from
    ensures Normal(a + b)
  {
    var c := a + b;
    forall i, j | 0 <= i < j < |c| ensures c[i].to + 1 < c[j].from {
      if i < |a| <= j {
        assert a[i].to <= a[|a| - 1].to && b[0].from <= b[j - |a|].from;
      }
    }
  }

  lemma HasOne(r: Interval, n: int)
    ensures Has([r], n) <==> r.from <= n <= r.to
  {
    HasTail([r], n);
  }

  lemma HasTwo(r: Interval, s: Interval, n: int)
    ensures Has([r, s], n) <==> r.from <= n <= r.to || s.from <= n <= s.to
  {
    HasTail([r, s], n);
    assert [r, s][1..] == [s];
    HasOne(s, n);
  }

  /** The first interval of one normal list cannot be shorter than that of
      another with the same heights. */
  lemma HeadAgrees(a: seq<Interval>, b: seq<Interval>)
    requires Normal(a) && Normal(b) && |a| > 0
    requires forall n :: Has(a, n) <==> Has(b, n)
    ensures |b| > 0 && b[0].from <= a[0].from && (b[0].from == a[0].from ==> a[0].to <= b[0].to)
  {
    assert Has(a, a[0].from);
    assert Has(b, a[0].from);
    if b[0].from == a[0].from && b[0].to < a[0].to {
      var n := b[0].to + 1;
      assert a[0].from <= n <= a[0].to;
      assert Has(a, n);
      assert false;
    }
  }

  /** Normal lists are canonical. */
  lemma {:induction false} NormalIsCanonical(a: seq<Interval>, b: seq<Interval>)
    requires Normal(a) && Normal(b)
    requires forall n :: Has(a, n) <==> Has(b, n)
    ensures a == b
    decreases |a|
  {
    if a == [] {
      if b != [] {
        HeadAgrees(b, a);
      }
    } else {
      HeadAgrees(a, b);
      HeadAgrees(b, a);
      assert a[0] == b[0];
      forall n ensures Has(a[1..], n) <==> Has(b[1..], n) {
        HasTail(a, n);
        HasTail(b, n);
      }
      NormalIsCanonical(a[1..], b[1..]);
      assert a == [a[0]] + a[1..];
      assert b == [b[0]] + b[1..];
    }
  }

  /** The same fact in terms of sets. */
  lemma SameElementsSameList(a: seq<Interval>, b: seq<Interval>)
    requires Normal(a) && Normal(b)
    requires Elements(a) == Elements(b)
    ensures a == b
  {
    forall n ensures Has(a, n) <==> Has(b, n) {
      if n >= 0 {
        assert n in Elements(a) <==> n in Elements(b);
      }
    }
    NormalIsCanonical(a, b);
  }
}
