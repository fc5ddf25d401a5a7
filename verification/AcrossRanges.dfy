// Block ranges of the Across runtime: the in-place merge that normalises a list,
// the first block that a list does not cover, and the bounded repair windows.

module AcrossRanges {
  import opened Intervals

  predicate WellFormed(ranges: seq<Interval>) {
    forall i :: 0 <= i < |ranges| ==> ranges[i].from <= ranges[i].to
  }

  /** `a` and `b` hold the same intervals, in whatever order and number. */
  ghost predicate SameIntervals(a: seq<Interval>, b: seq<Interval>) {
    forall r :: r in a <==> r in b
  }

  lemma HasMember(ranges: seq<Interval>, n: int)
    ensures Has(ranges, n) <==> exists r :: r in ranges && r.from <= n <= r.to
  {
  }

  lemma SameIntervalsSameElements(a: seq<Interval>, b: seq<Interval>)
    requires SameIntervals(a, b)
    ensures Elements(a) == Elements(b) && (WellFormed(a) <==> WellFormed(b))
  {
    forall n: nat ensures n in Elements(a) <==> n in Elements(b) {
      HasMember(a, n);
      HasMember(b, n);
    }
    assert WellFormed(a) <==> forall r :: r in a ==> r.from <= r.to;
    assert WellFormed(b) <==> forall r :: r in b ==> r.from <= r.to;
  }

  predicate Before(a: Interval, b: Interval) {
    a.from < b.from || (a.from == b.from && a.to <= b.to)
  }

  predicate SortedRanges(ranges: seq<Interval>) {
    forall i, j :: 0 <= i < j < |ranges| ==> Before(ranges[i], ranges[j])
  }

  /** The library sort by first and then last block. */
  method Sort(a: array<Interval>)
    modifies a
    ensures SortedRanges(a[..]) && SameIntervals(a[..], old(a[..]))
  {
    var i := 0;
    while i < a.Length
      invariant i <= a.Length
      invariant SortedRanges(a[..i]) && SameIntervals(a[..], old(a[..]))
    {
      var j := i;
      while j > 0 && !Before(a[j - 1], a[j])
        invariant 0 <= j <= i < a.Length
        invariant forall k, l :: 0 <= k < l <= i && l != j ==> Before(a[k], a[l])
        invariant SameIntervals(a[..], old(a[..]))
      {
        SwapSame(a[..], j - 1);
        a[j - 1], a[j] := a[j], a[j - 1];
        j := j - 1;
      }
      i := i + 1;
    }
    assert a[..i] == a[..];
  }

  lemma SwapSame(s: seq<Interval>, i: nat)
    requires i + 1 < |s|
    ensures SameIntervals(s[i := s[i + 1]][i + 1 := s[i]], s)
  {
    var t := s[i := s[i + 1]][i + 1 := s[i]];
    forall r | r in s ensures r in t {
      var k :| 0 <= k < |s| && s[k] == r;
      assert t[if k == i then i + 1 else if k == i + 1 then i else k] == r;
    }
    forall r | r in t ensures r in s {
      var k :| 0 <= k < |t| && t[k] == r;
      assert s[if k == i then i + 1 else if k == i + 1 then i else k] == r;
    }
  }

  lemma HasExtended(ranges: seq<Interval>, r: Interval, n: int)
    requires ranges != [] && ranges[|ranges| - 1].from <= r.from <= r.to
    requires r.from <= ranges[|ranges| - 1].to + 1 && ranges[|ranges| - 1].from <= ranges[|ranges| - 1].to
    ensures var last := ranges[|ranges| - 1];
      var wide := Interval(last.from, if r.to > last.to then r.to else last.to);
      Has(ranges[..|ranges| - 1] + [wide], n) <==> Has(ranges, n) || r.from <= n <= r.to
  {
    var last := ranges[|ranges| - 1];
    var wide := Interval(last.from, if r.to > last.to then r.to else last.to);
    HasConcat(ranges[..|ranges| - 1], [wide], n);
    HasOne(wide, n);
    assert ranges == ranges[..|ranges| - 1] + [last];
    HasConcat(ranges[..|ranges| - 1], [last], n);
    HasOne(last, n);
  }

  /** One step of the compaction, on values. */
  function Absorb(out: seq<Interval>, r: Interval): seq<Interval> {
    if out == [] || (out[|out| - 1].to != MAX_UINT64 && r.from > out[|out| - 1].to + 1) then out + [r]
    else out[..|out| - 1] + [Interval(out[|out| - 1].from,
                                      if r.to > out[|out| - 1].to then r.to else out[|out| - 1].to)]
  }

  lemma AbsorbNormal(out: seq<Interval>, r: Interval)
    requires Normal(out) && r.from <= r.to && (out != [] ==> out[|out| - 1].from <= r.from)
    ensures Normal(Absorb(out, r)) && Absorb(out, r) != []
    ensures Absorb(out, r)[|Absorb(out, r)| - 1].from <= r.from
    ensures forall n :: Has(Absorb(out, r), n) <==> Has(out, n) || r.from <= n <= r.to
  {
    if out == [] || (out[|out| - 1].to != MAX_UINT64 && r.from > out[|out| - 1].to + 1) {
      NormalConcat(out, [r]);
      forall n ensures Has(Absorb(out, r), n) <==> Has(out, n) || r.from <= n <= r.to {
        HasConcat(out, [r], n);
        HasOne(r, n);
      }
    } else {
      forall n ensures Has(Absorb(out, r), n) <==> Has(out, n) || r.from <= n <= r.to {
        HasExtended(out, r, n);
      }
    }
  }

  function Compact(s: seq<Interval>): seq<Interval> {
    if s == [] then [] else Absorb(Compact(s[..|s| - 1]), s[|s| - 1])
  }

  lemma {:induction false} CompactNormal(s: seq<Interval>)
    requires SortedRanges(s) && WellFormed(s)
    ensures Normal(Compact(s)) && (s == [] <==> Compact(s) == [])
    ensures s != [] ==> Compact(s)[|Compact(s)| - 1].from <= s[|s| - 1].from
    ensures forall m :: Has(Compact(s), m) <==> Has(s, m)
  {
    if s != [] {
      var front, r := s[..|s| - 1], s[|s| - 1];
      SortedFront(s);
      hide *;
      CompactNormal(front);
      CompactMore(front, r);
    }
  }

  lemma SortedFront(s: seq<Interval>)
    requires SortedRanges(s) && WellFormed(s) && s != []
    ensures var front, r := s[..|s| - 1], s[|s| - 1];
      && SortedRanges(front) && WellFormed(front) && r.from <= r.to && s == front + [r]
      && (front != [] ==> front[|front| - 1].from <= r.from)
  {
  }

  lemma CompactMore(front: seq<Interval>, r: Interval)
    requires r.from <= r.to && Normal(Compact(front)) && (front == [] <==> Compact(front) == [])
    requires front != [] ==> Compact(front)[|Compact(front)| - 1].from <= front[|front| - 1].from <= r.from
    requires forall m :: Has(Compact(front), m) <==> Has(front, m)
    ensures var s := front + [r];
      && Normal(Compact(s)) && Compact(s) != [] && Compact(s)[|Compact(s)| - 1].from <= r.from
      && forall m :: Has(Compact(s), m) <==> Has(s, m)
  {
    var s := front + [r];
    assert s[..|s| - 1] == front && Compact(s) == Absorb(Compact(front), r);
    hide *;
    AbsorbNormal(Compact(front), r);
    forall m ensures Has(Compact(s), m) <==> Has(s, m) {
      HasConcat(front, [r], m);
      HasOne(r, m);
    }
  }

  /** The output shares the array: it never runs past the entry being read. */
  method AbsorbAt(a: array<Interval>, out: nat, r: Interval) returns (n: nat)
    requires out < a.Length
    modifies a
    ensures n <= out + 1 && a[..n] == Absorb(old(a[..out]), r)
    ensures forall k :: out < k < a.Length ==> a[k] == old(a[k])
  {
    n := out;
    ghost var before := a[..n];
    if n == 0 || (a[n - 1].to != MAX_UINT64 && r.from > a[n - 1].to + 1) {
      a[n] := r;
      n := n + 1;
      assert a[..n] == before + [r];
    } else {
      if r.to > a[n - 1].to {
        a[n - 1] := Interval(a[n - 1].from, r.to);
      }
      assert a[..n] == before[..n - 1] + [a[n - 1]];
    }
  }

  method CompactInPlace(a: array<Interval>) returns (n: nat)
    modifies a
    ensures n <= a.Length && a[..n] == Compact(old(a[..]))
  {
    ghost var whole := a[..];
    n := 0;
    var i := 0;
    hide Absorb;
    while i < a.Length
      invariant n <= i <= a.Length && |whole| == a.Length
      invariant forall k :: i <= k < a.Length ==> a[k] == whole[k]
      invariant a[..n] == Compact(whole[..i])
    {
      n := AbsorbAt(a, n, a[i]);
      assert whole[..i + 1][..i] == whole[..i];
      i := i + 1;
    }
    assert whole[..i] == whole;
  }

  /** Sorts, then compacts the array onto its own front: the first `n` entries are
      the one normal list with the same blocks. */
  method Merge(a: array<Interval>) returns (n: nat)
    requires WellFormed(a[..])
    modifies a
    ensures n <= a.Length && Normal(a[..n])
    ensures Elements(a[..n]) == old(Elements(a[..]))
  {
    Sort(a);
    SameIntervalsSameElements(a[..], old(a[..]));
    CompactNormal(a[..]);
    n := CompactInPlace(a);
  }

  /** The normal list of the blocks of any list of ranges, on a private copy. */
  method Normalise(ranges: seq<Interval>) returns (merged: seq<Interval>)
    requires WellFormed(ranges)
    ensures Normal(merged) && Elements(merged) == Elements(ranges)
  {
    var work := new Interval[|ranges|](i requires 0 <= i < |ranges| => ranges[i]);
    assert work[..] == ranges;
    var n := Merge(work);
    merged := work[..n];
  }

  // --------------------------------------------------------- uncovered blocks

  /** `n` is the first block from `from` on that is not covered, if one is left up
      to `to`; otherwise it is past `to`. */
  ghost predicate IsFirstUncovered(from: nat, to: nat, covered: set<nat>, n: nat) {
    && n >= from
    && (forall m: nat :: from <= m < n && m <= to ==> m in covered)
    && (n <= to ==> n !in covered)
  }

  /** Sorted by the first block; the ranges may overlap. */
  predicate IsOrdered(ranges: seq<Interval>) {
    WellFormed(ranges) && forall i, j :: 0 <= i < j < |ranges| ==> ranges[i].from <= ranges[j].from
  }

  method FirstUncovered(from: uint64, to: uint64, ranges: seq<Interval>) returns (n: nat)
    requires IsOrdered(ranges)
    ensures IsFirstUncovered(from, to, Elements(ranges), n)
    ensures n == from || Has(ranges, n - 1)
  {
    n := from;
    for i := 0 to |ranges|
      invariant n >= from && (n == from || Has(ranges, n - 1))
      invariant forall m: nat :: from <= m < n && m <= to ==> Has(ranges, m)
      invariant forall j :: 0 <= j < i ==> ranges[j].to < n
    {
      var r := ranges[i];
      if r.to >= n {
        if r.from > n {
          assert forall j :: i <= j < |ranges| ==> ranges[j].from > n;
          return n;
        }
        n := r.to + 1;
        if n > to {
          return n;
        }
      }
    }
  }}
