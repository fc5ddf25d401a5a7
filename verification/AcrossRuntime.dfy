// The working state of the Across runtime, and the operations that change its
// coverage: captures, confirmed revisions, reorganisation marks.

module AcrossRuntime {
  import opened AcrossCaptures
  import opened AcrossCoverage
  import opened AcrossRanges
  import opened Intervals
  import opened Options

  datatype Problem =
    | ScopeOrCommit | FinalizedConflict | RevisionConflict
    | UnknownIdentity | ContentConflict | PredecessorMissing | AnchorChanged

  /** One of the rows contributes the block. */
  ghost predicate Among(rows: seq<Capture>, jobs: set<Job>, chain: uint64, decoded: bool, n: nat) {
    exists i :: 0 <= i < |rows| && Counts(rows[i], jobs, chain, decoded) && rows[i].Touches(n)
  }

  lemma AmongOneMore(rows: seq<Capture>, c: Capture, jobs: set<Job>, chain: uint64, decoded: bool, n: nat)
    ensures Among(rows + [c], jobs, chain, decoded, n)
      <==> Among(rows, jobs, chain, decoded, n) || (Counts(c, jobs, chain, decoded) && c.Touches(n))
  {
    var more := rows + [c];
    assert more[|rows|] == c;
    if Among(rows, jobs, chain, decoded, n) {
      var i :| 0 <= i < |rows| && Counts(rows[i], jobs, chain, decoded) && rows[i].Touches(n);
      assert more[i] == rows[i];
    }
  }

  /** The ranges of the rows that count, appended to a base list. */
  ghost predicate IsGathered(list: seq<Interval>, base: seq<Interval>, rows: seq<Capture>,
                             jobs: set<Job>, chain: uint64, decoded: bool)
  {
    WellFormed(list) && forall n: nat :: Has(list, n) <==> Has(base, n) || Among(rows, jobs, chain, decoded, n)
  }

  lemma GatheredOneMore(list: seq<Interval>, base: seq<Interval>, rows: seq<Capture>, c: Capture,
                        jobs: set<Job>, chain: uint64, decoded: bool)
    requires IsGathered(list, base, rows, jobs, chain, decoded) && c.Anchored() && c.From() <= c.To()
    ensures IsGathered(if Counts(c, jobs, chain, decoded) then list + [Interval(c.From(), c.To())] else list,
                       base, rows + [c], jobs, chain, decoded)
  {
    var range := Interval(c.From(), c.To());
    forall n: nat ensures Has(list + [range], n) <==> Has(list, n) || c.Touches(n) {
      HasConcat(list, [range], n);
      HasOne(range, n);
    }
    forall n: nat {
      AmongOneMore(rows, c, jobs, chain, decoded, n);
    }
  }

  lemma GatheredAll(list: seq<Interval>, base: seq<Interval>, rows: seq<Capture>, active: map<Hash, Capture>,
                    jobs: set<Job>, chain: uint64, decoded: bool)
    requires IsGathered(list, base, rows, jobs, chain, decoded)
    requires AreAll(active, rows)
    requires forall id :: id in active ==> active[id].id == id
    ensures Elements(list) == Elements(base) + Contributed(active, jobs, chain, decoded)
  {
  }

  method Gather(rows: seq<Capture>, ch: Chain, jobs: set<Job>, chain: uint64)
    returns (raw: seq<Interval>, decoded: seq<Interval>)
    requires WellFormed(ch.raw) && WellFormed(ch.decoded)
    requires forall c :: c in rows ==> c.Anchored() && c.From() <= c.To()
    ensures IsGathered(raw, ch.raw, rows, jobs, chain, false)
    ensures IsGathered(decoded, ch.decoded, rows, jobs, chain, true)
  {
    raw, decoded := ch.raw, ch.decoded;
    assert rows[..0] == [];
    for i := 0 to |rows|
      invariant IsGathered(raw, ch.raw, rows[..i], jobs, chain, false)
      invariant IsGathered(decoded, ch.decoded, rows[..i], jobs, chain, true)
    {
      var c := rows[i];
      assert rows[..i + 1] == rows[..i] + [c];
      GatheredOneMore(raw, ch.raw, rows[..i], c, jobs, chain, false);
      GatheredOneMore(decoded, ch.decoded, rows[..i], c, jobs, chain, true);
      hide IsGathered;
      if c.chain == chain && c.Raw() && !Invalidated(jobs, c) {
        raw := raw + [Interval(c.From(), c.To())];
        if c.Decoded() {
          decoded := decoded + [Interval(c.From(), c.To())];
        }
      }
    }
    assert rows[..|rows|] == rows;
  }

  lemma CurrentWithin(ch: Chain, active: map<Hash, Capture>, jobs: set<Job>, chain: uint64)
    requires BaseOk(ch, active, jobs, chain) && CurrentOk(ch, active, jobs, chain)
    ensures Within(ch, Elements(ch.currentRaw))
  {
    forall n | n in Contributed(active, jobs, chain, false) ensures ch.started && ch.start <= n <= ch.end {
      var id :| id in active && Counts(active[id], jobs, chain, false) && active[id].Touches(n);
      assert n in Blocks(active[id]);
    }
  }

  ghost predicate OnlyAt(before: map<uint64, Chain>, after: map<uint64, Chain>, k: uint64) {
    k in before && k in after && after == before[k := after[k]]
  }

  /** Of one chain the current lists changed, and nothing else. */
  ghost predicate OnlyLists(before: map<uint64, Chain>, after: map<uint64, Chain>, k: uint64) {
    && OnlyAt(before, after, k)
    && after[k] == before[k].(currentRaw := after[k].currentRaw, currentDecoded := after[k].currentDecoded)
  }

  ghost predicate SameBut(before: map<uint64, int>, after: map<uint64, int>, k: uint64) {
    before - {k} == after - {k}
  }

  /** What one capture does to the chains. */
  ghost predicate IsFolded(before: map<uint64, Chain>, after: map<uint64, Chain>, c: Capture) {
    && OnlyAt(before, after, c.chain)
    && IsPlaced(before[c.chain], after[c.chain], c)
    && (!c.Decoded() ==> Elements(after[c.chain].currentDecoded) <= Elements(before[c.chain].currentDecoded))
  }

  lemma OnlyAtTwice(a: map<uint64, Chain>, b: map<uint64, Chain>, c: map<uint64, Chain>, k: uint64)
    requires OnlyAt(a, b, k) && OnlyAt(b, c, k)
    ensures OnlyAt(a, c, k)
  {
  }

  lemma SameButTwice(a: map<uint64, int>, b: map<uint64, int>, c: map<uint64, int>, k: uint64)
    requires SameBut(a, b, k) && SameBut(b, c, k)
    ensures SameBut(a, c, k)
  {
  }

  /** Only the capture's own blocks are missing from the current lists. */
  ghost predicate IsReady(ch: Chain, active: map<Hash, Capture>, jobs: set<Job>, c: Capture) {
    && Normal(ch.currentRaw) && Normal(ch.currentDecoded)
    && Elements(ch.currentRaw) + (if Counts(c, jobs, c.chain, false) then Blocks(c) else {})
      == Elements(ch.raw) + Contributed(active, jobs, c.chain, false)
    && Elements(ch.currentDecoded) + (if Counts(c, jobs, c.chain, true) then Blocks(c) else {})
      == Elements(ch.decoded) + Contributed(active, jobs, c.chain, true)
  }

  ghost predicate AllActive(active: map<Hash, Capture>, manifest: Hash, chains: map<uint64, Chain>) {
    forall id :: id in active ==> ActiveOk(active[id], manifest) && active[id].chain in chains
  }

  ghost predicate AllCurrent(chains: map<uint64, Chain>, active: map<Hash, Capture>, jobs: set<Job>) {
    forall k :: k in chains ==> BaseOk(chains[k], active, jobs, k) && CurrentOk(chains[k], active, jobs, k)
  }

  ghost predicate AllLists(manifest: Hash, chains: map<uint64, Chain>, active: map<Hash, Capture>, jobs: set<Job>) {
    AllActive(active, manifest, chains) && AllCurrent(chains, active, jobs)
  }

  ghost predicate AllFiled(partial: map<Hash, Capture>, manifest: Hash, chains: map<uint64, Chain>) {
    forall id :: id in partial ==> IsFiled(partial[id], manifest, chains)
  }

  ghost predicate AllOpen(partial: map<Hash, Capture>, manifest: Hash, chains: map<uint64, Chain>) {
    forall id :: id in partial ==> IsOpen(partial[id], manifest, chains)
  }

  ghost predicate AllCursors(chains: map<uint64, Chain>, cursors: map<uint64, int>) {
    forall k :: k in chains && chains[k].started ==> k in cursors && IsCursor(chains[k], cursors[k])
  }

  // ---------------------------------------------------------- partial captures

  lemma UncoveredTells(p: Capture, ch: Chain, n: nat)
    requires p.Anchored() && p.From() <= p.To()
    requires IsFirstUncovered(p.From(), p.To(), Elements(ch.currentDecoded), n)
    ensures n > p.To() <==> IsCovered(p, ch)
  {
  }

  ghost function Filed(partial: map<Hash, Capture>, c: Capture, ch: Chain): map<Hash, Capture> {
    if c.Repairable() then (if IsCovered(c, ch) then partial else partial[c.id := c]) else partial - {c.id}
  }

  /** The partial captures after `c`: it is filed or struck out itself, and if it
      decodes its range then whatever it completes is struck out too. */
  ghost function PartialAfter(partial: map<Hash, Capture>, c: Capture, ch: Chain): map<Hash, Capture> {
    var filed := Filed(partial, c, ch);
    if c.Decoded() then map id | id in filed && !(filed[id].chain == c.chain && IsCovered(filed[id], ch)) :: filed[id]
    else filed
  }

  ghost function Struck(rows: seq<Capture>, chain: uint64, ch: Chain): set<Hash> {
    set p | p in rows && p.chain == chain && IsCovered(p, ch) :: p.id
  }

  ghost predicate IsStruck(all: map<Hash, Capture>, left: map<Hash, Capture>, rows: seq<Capture>, chain: uint64,
                           ch: Chain)
  {
    left == all - Struck(rows, chain, ch)
  }

  lemma StruckOneMore(all: map<Hash, Capture>, left: map<Hash, Capture>, rows: seq<Capture>, p: Capture, chain: uint64,
                      ch: Chain)
    requires IsStruck(all, left, rows, chain, ch)
    ensures IsStruck(all, if p.chain == chain && IsCovered(p, ch) then left - {p.id} else left, rows + [p], chain, ch)
  {
  }

  lemma PartialStaysFiled(partial: map<Hash, Capture>, c: Capture, manifest: Hash,
                          before: map<uint64, Chain>, after: map<uint64, Chain>)
    requires IsFolded(before, after, c) && AllFiled(partial, manifest, before) && c.manifest == manifest && InScope(c)
    ensures AllFiled(PartialAfter(partial, c, after[c.chain]), manifest, after)
  {
  }

  /** An open partial capture stays open while it is kept: decoded coverage grows only
      under a decoded capture, and then everything that it completes is struck out. */
  lemma PartialStaysOpen(partial: map<Hash, Capture>, c: Capture, manifest: Hash,
                         before: map<uint64, Chain>, after: map<uint64, Chain>, id: Hash)
    requires IsFolded(before, after, c) && AllFiled(partial, manifest, before) && c.manifest == manifest && InScope(c)
    requires id in PartialAfter(partial, c, after[c.chain])
    requires id in partial ==> IsOpen(partial[id], manifest, before)
    ensures IsOpen(PartialAfter(partial, c, after[c.chain])[id], manifest, after)
  {
    var p := PartialAfter(partial, c, after[c.chain])[id];
    PartialStaysFiled(partial, c, manifest, before, after);
    if id in partial && p == partial[id] {
      var n :| n in Blocks(p) && n !in Elements(before[p.chain].currentDecoded);
      assert p.chain != c.chain ==> after[p.chain] == before[p.chain];
      assert c.Decoded() || n !in Elements(after[p.chain].currentDecoded);
    }
  }

  lemma AllStayOpen(partial: map<Hash, Capture>, c: Capture, manifest: Hash,
                    before: map<uint64, Chain>, after: map<uint64, Chain>)
    requires IsFolded(before, after, c) && AllFiled(partial, manifest, before) && c.manifest == manifest && InScope(c)
    ensures AllOpen(partial, manifest, before) ==> AllOpen(PartialAfter(partial, c, after[c.chain]), manifest, after)
  {
    assert c.chain in after;
    hide IsFolded, IsOpen, InScope, PartialAfter;
    if AllOpen(partial, manifest, before) {
      forall id | id in PartialAfter(partial, c, after[c.chain])
        ensures IsOpen(PartialAfter(partial, c, after[c.chain])[id], manifest, after)
      {
        PartialStaysOpen(partial, c, manifest, before, after, id);
      }
    }
  }

  /** A decoded capture strikes out whatever is complete on its chain, however that came
      about. */
  lemma DecodedLeavesOpen(partial: map<Hash, Capture>, c: Capture, manifest: Hash,
                          before: map<uint64, Chain>, after: map<uint64, Chain>, id: Hash)
    requires IsFolded(before, after, c) && AllFiled(partial, manifest, before) && c.manifest == manifest && InScope(c)
    requires c.Decoded() && id in PartialAfter(partial, c, after[c.chain])
    requires PartialAfter(partial, c, after[c.chain])[id].chain == c.chain
    ensures IsOpen(PartialAfter(partial, c, after[c.chain])[id], manifest, after)
  {
    PartialStaysFiled(partial, c, manifest, before, after);
  }

  // -------------------------------------------------------------- one capture

  /** A capture that passed the checks. */
  ghost predicate IsDue(c: Capture, manifest: Hash, chains: map<uint64, Chain>, active: map<Hash, Capture>,
                        jobs: set<Job>)
  {
    && c.chain in chains && InScope(c) && c.manifest == manifest && c.committed && c.revision != 0
    && (Finalizes(c) ==> !Invalidated(jobs, c))
    && KeepsMembers(active, c)
  }

  predicate IsBefore(active: map<Hash, Capture>, c: Capture, before: Option<Capture>) {
    before == if c.id in active then Some(active[c.id]) else None
  }

  /** Why a capture is turned away, in the order of the checks. */
  function Refusal(manifest: Hash, chains: map<uint64, Chain>, jobs: set<Job>, active: map<Hash, Capture>,
                   c: Capture): Option<Problem>
  {
    if c.manifest != manifest || c.chain !in chains || !c.committed || c.revision == 0 || !InScope(c) then
      Some(ScopeOrCommit)
    else if c.canonical && c.finality == "finalized" && Invalidated(jobs, c) then Some(FinalizedConflict)
    else if c.id in active && c.revision == active[c.id].revision && c != active[c.id] then Some(RevisionConflict)
    else None
  }

  ghost predicate IsRefreshable(manifest: Hash, jobs: set<Job>, chains: map<uint64, Chain>, active: map<Hash, Capture>,
                                c: Capture, before: Option<Capture>)
  {
    && AllActive(active, manifest, chains) && InScope(c)
    && c.chain in chains && BaseOk(chains[c.chain], active, jobs, c.chain)
    && (before.Some? ==> before.value.Fixed() == c.Fixed() && before.value.canonical)
    && (c.canonical ==> IsReady(chains[c.chain], active, jobs, c))
  }

  ghost predicate IsRefreshed(was: map<uint64, Chain>, now: map<uint64, Chain>, active: map<Hash, Capture>,
                              jobs: set<Job>, c: Capture)
  {
    OnlyLists(was, now, c.chain) && BaseOk(now[c.chain], active, jobs, c.chain)
        && CurrentOk(now[c.chain], active, jobs, c.chain)
  }

  /** The capture is in its place; the current lists do not know it yet. */
  ghost predicate IsHalfWay(manifest: Hash, jobs: set<Job>, was: map<uint64, Chain>, wasActive: map<Hash, Capture>,
                            now: map<uint64, Chain>, active: map<Hash, Capture>, c: Capture)
  {
    && AllLists(manifest, was, wasActive, jobs) && IsDue(c, manifest, was, wasActive, jobs)
    && OnlyAt(was, now, c.chain) && active == ActiveAfter(wasActive, c) && IsPlaced(was[c.chain], now[c.chain], c)
    && AllActive(active, manifest, now) && BaseOk(now[c.chain], active, jobs, c.chain)
    && (c.canonical ==> IsReady(now[c.chain], active, jobs, c))
  }

  predicate IsStale(active: map<Hash, Capture>, c: Capture) { c.id in active && c.revision < active[c.id].revision }

  /** The full effect of a capture that is let in. */
  ghost predicate IsCaptured(
    chains: map<uint64, Chain>, active: map<Hash, Capture>, partial: map<Hash, Capture>,
    newChains: map<uint64, Chain>, newActive: map<Hash, Capture>, newPartial: map<Hash, Capture>, c: Capture)
  {
    && IsFolded(chains, newChains, c)
    && newActive == ActiveAfter(active, c)
    && newPartial == PartialAfter(partial, c, newChains[c.chain])
  }

  class Runtime {
    const manifest: Hash
    const active: CapturePages
    const partial: CapturePages
    var chains: map<uint64, Chain>
    var jobs: set<Job>
    var cursors: map<uint64, int>
    var retired: map<Hash, Capture>

    ghost predicate Pages()
      reads active, partial
    {
      active != partial && !active.partial && partial.partial && active.Valid() && partial.Valid()
    }

    /** Coverage and cursors equal their recomputation; every stored partial capture is
        a repairable one of a known chain. */
    ghost predicate Steady()
      reads this`chains, this`jobs, this`cursors, active, partial
    {
      && Pages()
      && AllLists(manifest, chains, active.records, jobs)
      && AllCursors(chains, cursors)
      && AllFiled(partial.records, manifest, chains)
    }

    /** Besides, every stored partial capture still has a block to decode. */
    ghost predicate Valid()
      reads this`chains, this`jobs, this`cursors, active, partial
    {
      Steady() && AllOpen(partial.records, manifest, chains)
    }

    constructor (manifest: Hash, known: set<uint64>)
      ensures Valid() && fresh(active) && fresh(partial) && this.manifest == manifest
      ensures active.records == map[] && partial.records == map[] && jobs == {} && retired == map[]
      ensures chains == map k | k in known :: Chain([], [], [], [], None, false, 0, 0)
    {
      this.manifest := manifest;
      active := new CapturePages(false);
      partial := new CapturePages(true);
      chains := map k | k in known :: Chain([], [], [], [], None, false, 0, 0);
      jobs, cursors, retired := {}, map[], map[];
    }

    method Settle(k: uint64)
      requires k in chains && BaseOk(chains[k], active.records, jobs, k)
      requires CurrentOk(chains[k], active.records, jobs, k)
      modifies this`cursors
      ensures chains[k].started ==> k in cursors && IsCursor(chains[k], cursors[k])
      ensures SameBut(old(cursors), cursors, k)
    {
      var ch := chains[k];
      if ch.started {
        CurrentWithin(ch, active.records, jobs, k);
        var next := FirstUncovered(ch.start, ch.end, ch.currentRaw);
        assert next > ch.start ==> next - 1 in Elements(ch.currentRaw);
        cursors := cursors[k := if next > 0 then next - 1 else 0];
      }
    }

    /** The plain recomputation of one chain's current lists and its cursor. */
    method Rebuild(k: uint64)
      requires Pages() && AllActive(active.records, manifest, chains)
      requires k in chains && BaseOk(chains[k], active.records, jobs, k)
      modifies this`chains, this`cursors
      ensures OnlyLists(old(chains), chains, k)
      ensures BaseOk(chains[k], active.records, jobs, k) && CurrentOk(chains[k], active.records, jobs, k)
      ensures chains[k].started ==> k in cursors && IsCursor(chains[k], cursors[k])
      ensures SameBut(old(cursors), cursors, k)
    {
      var ch := chains[k];
      var rows := active.All();
      var raw, decoded := Gather(rows, ch, jobs, k);
      GatheredAll(raw, ch.raw, rows, active.records, jobs, k, false);
      GatheredAll(decoded, ch.decoded, rows, active.records, jobs, k, true);
      raw := Normalise(raw);
      decoded := Normalise(decoded);
      chains := chains[k := ch.(currentRaw := raw, currentDecoded := decoded)];
      assert BaseOk(chains[k], active.records, jobs, k) && CurrentOk(chains[k], active.records, jobs, k);
      Settle(k);
    }

    /** Bounds, finalized unions, anchor and the set of active captures. */
    method Place(c: Capture)
      requires Pages() && InScope(c) && c.chain in chains && BaseOk(chains[c.chain], active.records, jobs, c.chain)
      requires c.manifest == manifest && c.committed && c.revision != 0
      modifies this`chains, active
      ensures OnlyAt(old(chains), chains, c.chain)
      ensures Pages() && active.records == ActiveAfter(old(active.records), c)
      ensures IsPlaced(old(chains)[c.chain], chains[c.chain], c)
      ensures chains[c.chain].currentRaw == old(chains)[c.chain].currentRaw
      ensures chains[c.chain].currentDecoded == old(chains)[c.chain].currentDecoded
    {
      hide AllLists, Contributed, Within, Invalidated, CapturePages.Valid;
      var ch := Widened(chains[c.chain], c);
      if c.canonical && c.finality == "finalized" && c.Anchored() {
        if c.Raw() {
          var raw := AddRange(ch.raw, c);
          ch := ch.(raw := raw);
        }
        if c.Decoded() {
          var decoded := AddRange(ch.decoded, c);
          ch := ch.(decoded := decoded);
        }
        if Replaces(c, ch.anchor) {
          ch := ch.(anchor := Some(c));
        }
        active.Remove(c.id);
      } else if c.canonical && c.Anchored() {
        active.Set(c);
      } else {
        active.Remove(c.id);
      }
      chains := chains[c.chain := ch];
    }

    /** Brings the current lists up to date after `c` was placed. */
    method Refresh(c: Capture, before: Option<Capture>)
      requires Pages() && IsRefreshable(manifest, jobs, chains, active.records, c, before)
      modifies this`chains, this`cursors
      ensures IsRefreshed(old(chains), chains, active.records, jobs, c)
      ensures SameBut(old(cursors), cursors, c.chain)
    {
      if !c.canonical
        || (before.Some? && ((before.value.Raw() && !c.Raw()) || (before.value.Decoded() && !c.Decoded())))
      {
        RefreshChecks(manifest, jobs, chains, active.records, c, before);
        hide IsRefreshable;
        Rebuild(c.chain);
      } else {
        Extend(c);
      }
    }

    /** The incremental step for a canonical capture. */
    method Extend(c: Capture)
      requires c.canonical && InScope(c) && c.chain in chains
      requires BaseOk(chains[c.chain], active.records, jobs, c.chain)
      requires IsReady(chains[c.chain], active.records, jobs, c)
      modifies this`chains
      ensures IsRefreshed(old(chains), chains, active.records, jobs, c)
    {
      hide Contributed, Blocks, Elements, Normal, Invalidated;
      var ch := chains[c.chain];
      if !Invalidated(jobs, c) {
        if c.Raw() {
          var raw := AddRange(ch.currentRaw, c);
          ch := ch.(currentRaw := raw);
        }
        if c.Decoded() {
          var decoded := AddRange(ch.currentDecoded, c);
          ch := ch.(currentDecoded := decoded);
        }
      }
      chains := chains[c.chain := ch];
    }

    method FilePartial(c: Capture)
      requires c.chain in chains && Pages() && InScope(c) && Normal(chains[c.chain].currentDecoded)
      requires forall id :: id in partial.records ==> partial.records[id].From() <= partial.records[id].To()
      modifies partial
      ensures Pages() && partial.records == PartialAfter(old(partial.records), c, chains[c.chain])
    {
      var ch := chains[c.chain];
      if c.Repairable() {
        var n := FirstUncovered(c.From(), c.To(), ch.currentDecoded);
        UncoveredTells(c, ch, n);
        if n <= c.To() {
          partial.Set(c);
        }
      } else {
        partial.Remove(c.id);
      }
      if c.Decoded() {
        StrikeOut(c.chain);
      }
    }

    /** Strikes out every partial capture of the chain that is decoded by now. */
    method StrikeOut(k: uint64)
      requires k in chains && Normal(chains[k].currentDecoded) && partial.Valid()
      requires forall id :: id in partial.records ==> partial.records[id].From() <= partial.records[id].To()
      modifies partial
      ensures partial.Valid()
      ensures partial.records == map id | id in old(partial.records)
        && !(old(partial.records)[id].chain == k
             && IsCovered(old(partial.records)[id], chains[k])) :: old(partial.records)[id]
    {
      var ch := chains[k];
      var rows := partial.All();
      ghost var all := partial.records;
      assert rows[..0] == [] && IsStruck(all, all, [], k, ch);
      hide IsStruck, IsCovered, Normal, CapturePages.Valid;
      for i := 0 to |rows|
        invariant partial.Valid() && IsStruck(all, partial.records, rows[..i], k, ch)
      {
        var p := rows[i];
        assert p in rows && rows[..i + 1] == rows[..i] + [p];
        StruckOneMore(all, partial.records, rows[..i], p, k, ch);
        if p.chain == k {
          var n := FirstUncovered(p.From(), p.To(), ch.currentDecoded);
          UncoveredTells(p, ch, n);
          if n > p.To() {
            partial.Remove(p.id);
          }
        }
      }
      assert rows[..|rows|] == rows;
      StruckAll(all, partial.records, rows, k, ch);
    }

    method PlaceReady(c: Capture)
      requires Pages() && AllLists(manifest, chains, active.records, jobs)
      requires IsDue(c, manifest, chains, active.records, jobs)
      modifies this`chains, active
      ensures Pages() && IsHalfWay(manifest, jobs, old(chains), old(active.records), chains, active.records, c)
    {
      ghost var was, before := active.records, chains;
      assert BaseOk(chains[c.chain], was, jobs, c.chain) && CurrentOk(chains[c.chain], was, jobs, c.chain);
      Place(c);
      hide *;
      PlacedHalfWay(manifest, jobs, before, was, chains, active.records, c);
    }

    method RefreshReady(c: Capture, before: Option<Capture>, ghost was: map<uint64, Chain>,
                        ghost wasActive: map<Hash, Capture>)
      requires Pages() && IsHalfWay(manifest, jobs, was, wasActive, chains, active.records, c)
      requires IsBefore(wasActive, c, before)
      modifies this`chains, this`cursors
      ensures Pages() && AllLists(manifest, chains, active.records, jobs) && active.records == ActiveAfter(wasActive, c)
      ensures IsFolded(was, chains, c) && SameBut(old(cursors), cursors, c.chain)
    {
      hide *;
      ghost var placed := chains;
      HalfWayGives(manifest, jobs, was, wasActive, chains, active.records, c, before);
      Refresh(c, before);
      FoldHolds(was, wasActive, placed, active.records, chains, manifest, jobs, c);
    }

    /** Puts the capture in its place and brings the lists up to date. */
    method Fold(c: Capture, before: Option<Capture>)
      requires Pages() && AllLists(manifest, chains, active.records, jobs)
      requires IsDue(c, manifest, chains, active.records, jobs) && IsBefore(active.records, c, before)
      modifies this`chains, this`cursors, active
      ensures Pages() && AllLists(manifest, chains, active.records, jobs)
      ensures IsFolded(old(chains), chains, c) && SameBut(old(cursors), cursors, c.chain)
      ensures active.records == ActiveAfter(old(active.records), c)
    {
      hide *;
      ghost var was, wasActive := chains, active.records;
      PlaceReady(c);
      RefreshReady(c, before, was, wasActive);
    }

    method FileAfter(c: Capture, ghost was: map<uint64, Chain>)
      requires Pages() && AllLists(manifest, chains, active.records, jobs) && IsFolded(was, chains, c)
      requires AllFiled(partial.records, manifest, was) && c.manifest == manifest && InScope(c)
      modifies partial
      ensures Pages() && active.records == old(active.records) && AllFiled(partial.records, manifest, chains)
      ensures AllOpen(old(partial.records), manifest, was) ==> AllOpen(partial.records, manifest, chains)
      ensures partial.records == PartialAfter(old(partial.records), c, chains[c.chain])
    {
      hide *;
      Listed(manifest, was, chains, active.records, jobs, partial.records, c);
      PartialStaysFiled(partial.records, c, manifest, was, chains);
      AllStayOpen(partial.records, c, manifest, was, chains);
      FilePartial(c);
    }

    method SettleAfter(k: uint64, ghost was: map<uint64, Chain>, ghost wasCursors: map<uint64, int>)
      requires AllLists(manifest, chains, active.records, jobs)
      requires OnlyAt(was, chains, k) && SameBut(wasCursors, cursors, k) && AllCursors(was, wasCursors)
      modifies this`cursors
      ensures AllCursors(chains, cursors)
    {
      hide AllCursors, SameBut, IsCursor;
      ghost var folded := cursors;
      Settle(k);
      SameButTwice(wasCursors, folded, cursors, k);
      CursorsStillOk(k, was, chains, wasCursors, cursors);
    }

    method Absorb(c: Capture, before: Option<Capture>)
      requires Steady() && IsDue(c, manifest, chains, active.records, jobs) && IsBefore(active.records, c, before)
      modifies this`chains, this`cursors, active, partial
      ensures Steady() && (old(Valid()) ==> Valid())
      ensures IsCaptured(old(chains), old(active.records), old(partial.records), chains, active.records,
                         partial.records, c)
    {
      hide AllLists, AllCursors, AllOpen, AllFiled, IsPlaced, PartialAfter, ActiveAfter, KeepsMembers, Invalidated,
        SameBut,
        CapturePages.Valid;
      ghost var was, wasCursors := chains, cursors;
      Fold(c, before);
      FileAfter(c, was);
      SettleAfter(c.chain, was, wasCursors);
    }

    /** A committed capture. Under one capture identity only canonicity, finality,
        reason and revision may differ, which the owner checks before. */
    method Capture(c: Capture) returns (problem: Option<Problem>)
      requires Steady() && (c.id in active.records ==> active.records[c.id].Fixed() == c.Fixed())
      modifies this`chains, this`cursors, active, partial
      ensures Steady() && (old(Valid()) ==> Valid())
      ensures problem == Refusal(manifest, old(chains), jobs, old(active.records), c)
      ensures problem.Some? || IsStale(old(active.records), c) ==>
        chains == old(chains) && cursors == old(cursors) && active.records == old(active.records)
            && partial.records == old(partial.records)
      ensures problem.None? && !IsStale(old(active.records), c) ==>
        IsCaptured(old(chains), old(active.records), old(partial.records), chains, active.records, partial.records, c)
      ensures NoneGoesBack(old(active.records), active.records)
      ensures c.id in old(active.records) && c.revision < old(active.records)[c.id].revision ==>
        && chains == old(chains) && cursors == old(cursors) && active.records == old(active.records)
        && partial.records == old(partial.records)
        && (problem.None? <==>
            c.revision != 0 && (c.canonical && c.finality == "finalized" ==> forall j :: j in jobs ==> !j.Hits(c)))
    {
      OlderIsInScope(manifest, chains, active.records, jobs, c);
      hide AllLists, AllCursors, AllFiled, AllOpen, IsCaptured, IsDue, Pages, Invalidated;
      var before := if c.id in active.records then Some(active.records[c.id]) else None;
      problem := None;
      if c.manifest != manifest || c.chain !in chains || !c.committed || c.revision == 0
        || (c.Anchored() && (c.From() > c.To() || c.To() == MAX_UINT64))
      {
        problem := Some(ScopeOrCommit);
      } else if c.canonical && c.finality == "finalized" && Invalidated(jobs, c) {
        problem := Some(FinalizedConflict);
      } else if before.Some? && c.revision < before.value.revision {
        assert IsStale(active.records, c);
      } else if before.Some? && c.revision == before.value.revision && c != before.value {
        problem := Some(RevisionConflict);
      } else {
        LetIn(c, manifest, chains, active.records, jobs);
        ghost var was := active.records;
        Absorb(c, before);
        TakenNoneGoesBack(was, active.records, c);
      }
    }
  }

  /** What stays active keeps its revision and content or gets a newer one. */
  ghost predicate NoneGoesBack(was: map<Hash, Capture>, now: map<Hash, Capture>) {
    forall id :: id in was && id in now ==> IsNoOlder(was[id], now[id])
  }

  predicate IsNoOlder(before: Capture, after: Capture) { before == after || before.revision < after.revision }

  lemma TakenNoneGoesBack(was: map<Hash, Capture>, now: map<Hash, Capture>, c: Capture)
    requires now == ActiveAfter(was, c)
    requires c.id in was ==> IsNoOlder(was[c.id], c)
    ensures NoneGoesBack(was, now)
  {
  }

  lemma OlderIsInScope(manifest: Hash, chains: map<uint64, Chain>, active: map<Hash, Capture>, jobs: set<Job>,
                       c: Capture)
    requires AllLists(manifest, chains, active, jobs) && (c.id in active ==> active[c.id].Fixed() == c.Fixed())
    ensures c.id in active ==> c.manifest == manifest && c.chain in chains && c.committed && InScope(c)
  {
    if c.id in active {
      SameFixed(active[c.id], c, jobs);
    }
  }

  lemma RefreshChecks(manifest: Hash, jobs: set<Job>, chains: map<uint64, Chain>, active: map<Hash, Capture>,
                      c: Capture,
                      before: Option<Capture>)
    requires IsRefreshable(manifest, jobs, chains, active, c, before)
    ensures AllActive(active, manifest, chains) && c.chain in chains && BaseOk(chains[c.chain], active, jobs, c.chain)
  {
  }

  lemma LetIn(c: Capture, manifest: Hash, chains: map<uint64, Chain>, active: map<Hash, Capture>, jobs: set<Job>)
    requires AllLists(manifest, chains, active, jobs) && Refusal(manifest, chains, jobs, active, c).None?
    requires c.id in active ==> active[c.id].Fixed() == c.Fixed()
    ensures IsDue(c, manifest, chains, active, jobs)
  {
  }

  /** What the filing of a capture needs of the lists. */
  lemma Listed(manifest: Hash, was: map<uint64, Chain>, chains: map<uint64, Chain>, active: map<Hash, Capture>,
               jobs: set<Job>,
               partial: map<Hash, Capture>, c: Capture)
    requires AllLists(manifest, chains, active, jobs) && IsFolded(was, chains, c) && AllFiled(partial, manifest, was)
    ensures c.chain in chains && Normal(chains[c.chain].currentDecoded)
    ensures forall id :: id in partial ==> partial[id].Anchored() && partial[id].From() <= partial[id].To()
  {
    assert CurrentOk(chains[c.chain], active, jobs, c.chain);
  }

  lemma CursorsStillOk(k: uint64, before: map<uint64, Chain>, after: map<uint64, Chain>, was: map<uint64, int>,
                       now: map<uint64, int>)
    requires OnlyAt(before, after, k) && SameBut(was, now, k) && AllCursors(before, was)
    requires after[k].started ==> k in now && IsCursor(after[k], now[k])
    ensures AllCursors(after, now)
  {
    forall j | j in after && j != k && after[j].started ensures j in now && IsCursor(after[j], now[j]) {
      assert j in was - {k} && j in now - {k};
      assert (was - {k})[j] == (now - {k})[j];
    }
  }

  lemma PlacedHalfWay(manifest: Hash, jobs: set<Job>, was: map<uint64, Chain>, wasActive: map<Hash, Capture>,
                      now: map<uint64, Chain>, active: map<Hash, Capture>, c: Capture)
    requires AllLists(manifest, was, wasActive, jobs) && IsDue(c, manifest, was, wasActive, jobs)
    requires OnlyAt(was, now, c.chain) && active == ActiveAfter(wasActive, c) && IsPlaced(was[c.chain], now[c.chain], c)
    requires now[c.chain].currentRaw == was[c.chain].currentRaw
    requires now[c.chain].currentDecoded == was[c.chain].currentDecoded
    ensures IsHalfWay(manifest, jobs, was, wasActive, now, active, c)
  {
    PlacedActive(was, now, wasActive, manifest, jobs, c);
    assert BaseOk(was[c.chain], wasActive, jobs, c.chain) && CurrentOk(was[c.chain], wasActive, jobs, c.chain);
    PlacedBase(was[c.chain], now[c.chain], wasActive, jobs, c);
    if c.canonical {
      PlacedReady(was[c.chain], now[c.chain], wasActive, jobs, c);
    }
  }

  lemma PlacedActive(was: map<uint64, Chain>, now: map<uint64, Chain>, active: map<Hash, Capture>, manifest: Hash,
                     jobs: set<Job>, c: Capture)
    requires AllActive(active, manifest, was) && OnlyAt(was, now, c.chain) && IsDue(c, manifest, was, active, jobs)
    ensures AllActive(ActiveAfter(active, c), manifest, now)
  {
  }

  lemma OtherChains(chains: map<uint64, Chain>, active: map<Hash, Capture>, jobs: set<Job>, c: Capture)
    requires forall k :: k in chains ==> BaseOk(chains[k], active, jobs, k) && CurrentOk(chains[k], active, jobs, k)
    requires KeepsMembers(active, c)
    ensures forall k :: k in chains && k != c.chain ==>
      BaseOk(chains[k], ActiveAfter(active, c), jobs, k) && CurrentOk(chains[k], ActiveAfter(active, c), jobs, k)
  {
    forall k | k in chains && k != c.chain
      ensures BaseOk(chains[k], ActiveAfter(active, c), jobs, k)
      ensures CurrentOk(chains[k], ActiveAfter(active, c), jobs, k)
    {
      OtherChain(chains[k], active, jobs, c, k);
    }
  }

  lemma PlacedReady(was: Chain, placed: Chain, active: map<Hash, Capture>, jobs: set<Job>, c: Capture)
    requires CurrentOk(was, active, jobs, c.chain) && IsPlaced(was, placed, c)
    requires placed.currentRaw == was.currentRaw && placed.currentDecoded == was.currentDecoded
    requires KeepsMembers(active, c) && c.canonical && (Finalizes(c) ==> !Invalidated(jobs, c))
    ensures IsReady(placed, ActiveAfter(active, c), jobs, c)
  {
    IncrementIsExact(was, placed, active, jobs, c);
  }

  lemma FoldHolds(was: map<uint64, Chain>, wasActive: map<Hash, Capture>, placed: map<uint64, Chain>,
                  active: map<Hash, Capture>,
                  now: map<uint64, Chain>, manifest: Hash, jobs: set<Job>, c: Capture)
    requires IsHalfWay(manifest, jobs, was, wasActive, placed, active, c) && IsRefreshed(placed, now, active, jobs, c)
    ensures IsFolded(was, now, c) && AllLists(manifest, now, active, jobs)
  {
    FoldKeepsLists(was, wasActive, placed, active, now, manifest, jobs, c);
    OnlyAtTwice(was, placed, now, c.chain);
    assert BaseOk(was[c.chain], wasActive, jobs, c.chain) && CurrentOk(was[c.chain], wasActive, jobs, c.chain);
    assert IsPlaced(was[c.chain], now[c.chain], c);
    hide IsHalfWay, AllLists, BaseOk, Contributed, Elements, Blocks;
    if c.canonical {
      IncrementIsExact(was[c.chain], now[c.chain], wasActive, jobs, c);
    } else {
      RebuildShrinks(was[c.chain], now[c.chain], wasActive, jobs, c);
    }
  }

  lemma FoldKeepsLists(was: map<uint64, Chain>, wasActive: map<Hash, Capture>, placed: map<uint64, Chain>,
                       active: map<Hash, Capture>,
                       now: map<uint64, Chain>, manifest: Hash, jobs: set<Job>, c: Capture)
    requires IsHalfWay(manifest, jobs, was, wasActive, placed, active, c) && IsRefreshed(placed, now, active, jobs, c)
    ensures AllLists(manifest, now, active, jobs)
  {
    hide BaseOk, CurrentOk, IsPlaced, IsReady, ActiveOk;
    OnlyAtTwice(was, placed, now, c.chain);
    OtherChains(was, wasActive, jobs, c);
  }

  lemma HalfWayGives(manifest: Hash, jobs: set<Job>, was: map<uint64, Chain>, wasActive: map<Hash, Capture>,
                     now: map<uint64, Chain>, active: map<Hash, Capture>, c: Capture, before: Option<Capture>)
    requires IsHalfWay(manifest, jobs, was, wasActive, now, active, c) && IsBefore(wasActive, c, before)
    ensures IsRefreshable(manifest, jobs, now, active, c, before) && active == ActiveAfter(wasActive, c)
  {
  }

  lemma StruckAll(all: map<Hash, Capture>, left: map<Hash, Capture>, rows: seq<Capture>, chain: uint64, ch: Chain)
    requires AreAll(all, rows)
    requires IsStruck(all, left, rows, chain, ch) && forall id :: id in all ==> all[id].id == id
    ensures left == map id | id in all && !(all[id].chain == chain && IsCovered(all[id], ch)) :: all[id]
  {
  }

  method AddRange(ranges: seq<Interval>, c: Capture) returns (merged: seq<Interval>)
    requires Normal(ranges) && c.Anchored() && c.From() <= c.To()
    ensures Normal(merged) && Elements(merged) == Elements(ranges) + Blocks(c)
  {
    var range := Interval(c.From(), c.To());
    merged := Normalise(ranges + [range]);
    forall n: nat ensures n in Elements(merged) <==> n in Elements(ranges) + Blocks(c) {
      HasConcat(ranges, [range], n);
      HasOne(range, n);
    }
  }
}
