// The conversion of the stored header table into a coverage state, and the second
// traversal that must reproduce it: the same rows, the same first gap by the old
// rule over sorted heights, the same number of unfinalized keys.

module DexConversion {
  import opened DexState

  const PAGE_ROWS := 500

  /** The database pages its header table by number, then by hash. */
  predicate Sorted(rows: seq<Block>) {
    forall i, j :: 0 <= i < j < |rows| ==>
      rows[i].number < rows[j].number || (rows[i].number == rows[j].number && rows[i].hash < rows[j].hash)
  }

  function Page(table: seq<Block>, after: nat): (page: seq<Block>)
    requires after <= |table|
    ensures page == [] <==> after == |table|
    ensures after + |page| <= |table| && page == table[after..after + |page|]
  {
    if |table| - after <= PAGE_ROWS then table[after..] else table[after..after + PAGE_ROWS]
  }

  /** Heights at which the table holds a canonical block. */
  ghost function CanonicalHeights(rows: seq<Block>): set<nat> {
    set b | b in rows && b.canonical :: b.number as nat
  }

  ghost function LiveKeys(rows: seq<Block>): set<Key> {
    set b | b in rows && b.Live() :: b.Id()
  }

  /** `gap` is the least height missing between present ones, 0 if none is. */
  ghost predicate IsGap(heights: set<nat>, gap: nat) {
    && (gap == 0 ==> forall n :: !Hole(heights, n))
    && (gap != 0 ==> Hole(heights, gap) && forall n: nat :: n < gap ==> !Hole(heights, n))
  }

  datatype Scan = Scan(active: nat, previous: nat, havePrevious: bool, gap: nat)

  /** What the running variables of the second traversal say about the rows seen. */
  ghost predicate Scanned(seen: seq<Block>, s: Scan) {
    var Scan(active, previous, havePrevious, gap) := s;
    && active == |LiveKeys(seen)|
    && (havePrevious <==> CanonicalHeights(seen) != {})
    && (havePrevious ==> previous in CanonicalHeights(seen))
    && (forall h :: h in CanonicalHeights(seen) ==> h <= previous)
    && IsGap(CanonicalHeights(seen), gap)
  }

  lemma SeenOneMore(seen: seq<Block>, b: Block)
    ensures CanonicalHeights(seen + [b]) == CanonicalHeights(seen) + if b.canonical then {b.number as nat} else {}
    ensures LiveKeys(seen + [b]) == LiveKeys(seen) + if b.Live() then {b.Id()} else {}
  {
    assert forall c :: c in seen + [b] <==> c in seen || c == b;
  }

  /** The adjacency rule, one greatest height at a time. */
  lemma GapGrows(heights: set<nat>, previous: nat, next: nat, gap: nat)
    requires previous in heights && (forall h :: h in heights ==> h <= previous) && previous <= next
    requires IsGap(heights, gap)
    ensures IsGap(heights + {next}, if gap == 0 && next > previous + 1 then previous + 1 else gap)
  {
    var more := heights + {next};
    forall n: nat | n < previous ensures Hole(more, n) <==> Hole(heights, n) {
    }
    assert forall n: nat :: Hole(heights, n) ==> n < previous;
    assert forall n: nat :: Hole(more, n) ==> n < next;
  }

  lemma FirstHeight(heights: set<nat>, gap: nat, next: nat)
    requires heights == {} && IsGap(heights, gap)
    ensures gap == 0 && IsGap(heights + {next}, 0)
  {
  }

  lemma NotSeenBefore(rows: seq<Block>, n: nat)
    requires Sorted(rows) && n < |rows|
    ensures rows[n].Id() !in LiveKeys(rows[..n])
    ensures forall h :: h in CanonicalHeights(rows[..n]) ==> h <= rows[n].number as nat
  {
    forall b | b in rows[..n] ensures b.Id() != rows[n].Id() && b.number <= rows[n].number {
      var i :| 0 <= i < n && rows[i] == b;
    }
  }

  /** The state built from a sorted table of acceptable rows: its keys are the
      unfinalized canonical ones, its coverage all canonical heights. */
  lemma BuiltState(manifest: Hash, rows: seq<Block>)
    requires Sorted(rows) && forall b :: b in rows ==> Accepts(manifest, b)
    ensures ApplyAll(manifest, Meaning(map[], {}), rows).Success?
    ensures Pictures(rows, ApplyAll(manifest, Meaning(map[], {}), rows).value)
  {
    var empty := Meaning(map[], {});
    ApplyAllOutcome(manifest, empty, rows);
    OutcomePictures(rows, ApplyAll(manifest, empty, rows).value);
  }

  lemma OutcomePictures(rows: seq<Block>, v: Meaning)
    requires IsOutcome(Meaning(map[], {}), rows, v)
    ensures Pictures(rows, v)
  {
    forall k ensures k in v.active <==> k in LiveKeys(rows) {
    }
    assert v.active.Keys == LiveKeys(rows);
    forall n ensures n in v.finalized <==> exists b :: b in rows && b.Final() && b.number == n {
    }
    hide IsOutcome;
    forall h ensures h in Covered(v) <==> h in CanonicalHeights(rows) {
      if b :| b in rows && b.canonical && b.number == h {
        assert b.Live() ==> b.Id() in v.active;
      }
    }
  }

  lemma GapIsUnique(heights: set<nat>, a: nat, b: nat)
    requires IsGap(heights, a) && IsGap(heights, b)
    ensures a == b
  {
  }

  /** The state holds exactly what the rows of the table say. */
  ghost predicate Pictures(table: seq<Block>, v: Meaning) {
    && Covered(v) == CanonicalHeights(table) && v.active.Keys == LiveKeys(table)
    && forall b :: b in table && b.Live() ==> b.Id() in v.active && v.active[b.Id()] == b.State()
  }

  lemma NothingScanned()
    ensures Scanned([], Scan(0, 0, false, 0))
  {
    assert CanonicalHeights([]) == {} && LiveKeys([]) == {};
  }

  /** The adjacency rule: what one row does to the running variables. */
  function Next(s: Scan, b: Block): Scan {
    if !b.canonical then s
    else Scan(
      if b.Live() then s.active + 1 else s.active, b.number, true,
      if s.havePrevious && s.gap == 0 && b.number > s.previous + 1 then s.previous + 1 else s.gap)
  }

  /** One more row, at or above all heights seen. */
  lemma ScanOne(seen: seq<Block>, b: Block, s: Scan)
    requires Scanned(seen, s)
    requires b.Id() !in LiveKeys(seen) && forall h :: h in CanonicalHeights(seen) ==> h <= b.number as nat
    ensures !(b.canonical && s.havePrevious && b.number < s.previous)
    ensures Scanned(seen + [b], Next(s, b))
  {
    hide IsGap, CanonicalHeights, LiveKeys;
    SeenOneMore(seen, b);
    if b.canonical {
      if s.havePrevious {
        GapGrows(CanonicalHeights(seen), s.previous, b.number, s.gap);
      } else {
        FirstHeight(CanonicalHeights(seen), s.gap, b.number);
      }
    } else {
      assert CanonicalHeights(seen + [b]) == CanonicalHeights(seen);
      assert LiveKeys(seen + [b]) == LiveKeys(seen);
    }
  }

  lemma ScanStep(table: seq<Block>, n: nat, s: Scan)
    requires n < |table| && (Sorted(table) ==> Scanned(table[..n], s))
    ensures Sorted(table) ==>
      && !(table[n].canonical && s.havePrevious && table[n].number < s.previous)
      && Scanned(table[..n + 1], Next(s, table[n]))
  {
    if Sorted(table) {
      assert table[..n + 1] == table[..n] + [table[n]];
      NotSeenBefore(table, n);
      hide *;
      ScanOne(table[..n], table[n], s);
    }
  }

  lemma ScanEnds(table: seq<Block>, v: Meaning, s: Scan, first: nat)
    requires Scanned(table, s) && Pictures(table, v) && IsGap(Covered(v), first)
    ensures s.gap == first && s.active == |v.active|
  {
    GapIsUnique(CanonicalHeights(table), s.gap, first);
  }

  lemma {:induction false} ApplyAllConcat(manifest: Hash, v: Meaning, a: seq<Block>, b: seq<Block>)
    ensures ApplyAll(manifest, v, a + b) ==
      if ApplyAll(manifest, v, a).Failure? then ApplyAll(manifest, v, a)
      else ApplyAll(manifest, ApplyAll(manifest, v, a).value, b)
    decreases |a|
  {
    if a == [] {
      assert a + b == b;
    } else {
      assert (a + b)[1..] == a[1..] + b;
      if ApplyBlock(manifest, v, a[0]).Success? {
        ApplyAllConcat(manifest, ApplyBlock(manifest, v, a[0]).value, a[1..], b);
      }
    }
  }

  datatype Report =
    | Refused(error: Error)
    | Conflicting
    | ComparisonFailed
    | Verified(headers: nat, unfinalized: nat, firstGap: nat)

  /** `digest` stands for the running input digest: it names the rows hashed so
      far, page boundaries not included. */
  class Conversion {
    const state: State
    var headers: nat
    var digest: seq<Block>

    ghost predicate Valid()
      reads this, state
    {
      state.Valid()
    }

    constructor (manifest: Hash)
      ensures Valid() && fresh(state) && state.manifest == manifest
      ensures state.View() == Meaning(map[], {}) && headers == 0 && digest == []
    {
      state := new State(manifest);
      headers, digest := 0, [];
    }

    method ApplyPage(page: seq<Block>) returns (r: Result<()>)
      requires Valid()
      modifies state, this`headers
      ensures Valid()
      ensures r.Failure? == ApplyAll(state.manifest, old(state.View()), page).Failure?
      ensures r.Success? ==> ApplyAll(state.manifest, old(state.View()), page) == Success(state.View())
      ensures r.Success? ==> headers == old(headers) + |page|
    {
      var i := 0;
      while i < |page|
        invariant i <= |page| && Valid() && headers == old(headers) + i
        invariant ApplyAll(state.manifest, old(state.View()), page) == ApplyAll(state.manifest, state.View(), page[i..])
      {
        assert page[i..][0] == page[i] && page[i..][1..] == page[i + 1..];
        var applied := state.Apply(page[i]);
        if applied.Failure? {
          return Failure(applied.error);
        }
        headers := headers + 1;
        i := i + 1;
      }
      r := Success(());
    }

    /** The first traversal. */
    method Build(table: seq<Block>) returns (r: Result<()>)
      requires Valid() && headers == 0 && digest == []
      modifies this, state
      ensures Valid()
      ensures r.Failure? == ApplyAll(state.manifest, old(state.View()), table).Failure?
      ensures r.Success? ==> ApplyAll(state.manifest, old(state.View()), table) == Success(state.View())
      ensures r.Success? ==> headers == |table| && digest == table
    {
      hide State.Valid;
      var after := 0;
      assert table[0..] == table;
      while true
        invariant after <= |table| && Valid() && headers == after && digest == table[..after]
        invariant ApplyAll(state.manifest, old(state.View()), table) == ApplyAll(state.manifest, state.View(),
            table[after..])
        decreases |table| - after
      {
        var page := Page(table, after);
        if page == [] {
          return Success(());
        }
        assert table[after..] == page + table[after + |page|..];
        ApplyAllConcat(state.manifest, state.View(), page, table[after + |page|..]);
        r := ApplyPage(page);
        if r.Failure? {
          return;
        }
        digest := digest + page;
        after := after + |page|;
      }
    }

    /** One page of the second traversal, `table[n..n + |page|]`. */
    method ComparePage(ghost table: seq<Block>, ghost n: nat, page: seq<Block>, s: Scan) returns (ok: bool, t: Scan)
      requires n + |page| <= |table| && page == table[n..n + |page|]
      requires Sorted(table) ==> Scanned(table[..n], s)
      ensures Sorted(table) && Pictures(table, state.View()) ==> ok
      ensures ok && Sorted(table) ==> Scanned(table[..n + |page|], t)
    {
      hide Scanned, Sorted, State.Valid, Covered, CanonicalHeights;
      t := s;
      for i := 0 to |page|
        invariant Sorted(table) ==> Scanned(table[..n + i], t)
      {
        var b := page[i];
        assert b == table[n + i];
        ScanStep(table, n + i, t);
        if b.canonical {
          if t.havePrevious && b.number < t.previous {
            return false, t;
          }
          if b.Live() && (b.Id() !in state.active || state.active[b.Id()] != b.State()) {
            return false, t;
          }
        }
        t := Next(t, b);
      }
      ok := true;
    }

    /** The second traversal; it ends early at a row that the state contradicts. */
    method Rescan(table: seq<Block>) returns (ok: bool, count: nat, hashed: seq<Block>, s: Scan)
      ensures Sorted(table) && Pictures(table, state.View()) ==> ok
      ensures ok ==> count == |table| && hashed == table && (Sorted(table) ==> Scanned(table, s))
    {
      count, hashed, s := 0, [], Scan(0, 0, false, 0);
      NothingScanned();
      assert table[..0] == [];
      hide *;
      while true
        invariant count <= |table| && hashed == table[..count]
        invariant Sorted(table) ==> Scanned(table[..count], s)
        decreases |table| - count
      {
        var page := Page(table, count);
        if page == [] {
          assert table[..count] == table;
          return true, count, hashed, s;
        }
        ok, s := ComparePage(table, count, page, s);
        if !ok {
          return;
        }
        hashed := hashed + page;
        count := count + |page|;
      }
    }

    /** The second traversal and the final comparison. */
    method Compare(table: seq<Block>) returns (report: Report)
      requires Valid()
      ensures !report.Refused?
      ensures report.Verified? ==>
        && table == digest && |table| == headers && report.headers == headers
        && report.unfinalized == |state.active| && IsGap(Covered(state.View()), report.firstGap)
      ensures Sorted(table) && table == digest && |table| == headers && Pictures(table, state.View()) ==>
        report.Verified?
    {
      var ok, count, hashed, s := Rescan(table);
      if !ok {
        return Conflicting;
      }
      var first := state.Gap();
      hide Scanned, Sorted, Pictures, Covered, Hole, State.Valid;
      if Sorted(table) && Pictures(table, state.View()) {
        ScanEnds(table, state.View(), s, first);
      }
      if count != headers || hashed != digest || s.gap != first || s.active != |state.active| {
        return ComparisonFailed;
      }
      report := Verified(headers, s.active, s.gap);
    }
  }

  /** The conversion succeeds on a frozen table that the state can absorb, and
      succeeds on no other: if the two traversals differ, it fails. */
  method Convert(manifest: Hash, first: seq<Block>, second: seq<Block>) returns (report: Report)
    ensures report.Refused? <==> ApplyAll(manifest, Meaning(map[], {}), first).Failure?
    ensures report.Verified? ==> second == first && report.headers == |first|
    ensures Sorted(first) && (forall b :: b in first ==> Accepts(manifest, b)) ==>
      && (report.Verified? <==> second == first)
      && (report.Verified? ==>
          report.unfinalized == |LiveKeys(first)| && IsGap(CanonicalHeights(first), report.firstGap))
  {
    var conversion := new Conversion(manifest);
    var built := conversion.Build(first);
    if Sorted(first) && forall b :: b in first ==> Accepts(manifest, b) {
      BuiltState(manifest, first);
    }
    if built.Failure? {
      return Refused(built.error);
    }
    report := conversion.Compare(second);
  }
}
