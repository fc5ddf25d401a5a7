// The Across runtime's incremental block coverage. Finalized ranges are folded
// into unions; unfinalized captures stay exact, so that a reorganisation can take
// one of them back.

module AcrossCoverage {
  import opened AcrossCaptures
  import opened AcrossRanges
  import opened Intervals
  import opened Options

  /** A discovered reorganisation whose captures are still being revised. */
  datatype Job = Job(chain: uint64, bad: seq<uint64>, reason: string)
  {
    predicate Hits(c: Capture) { chain == c.chain && exists i | 0 <= i < |bad| :: c.Touches(bad[i]) }
  }

  datatype Chain = Chain(
    raw: seq<Interval>, decoded: seq<Interval>,
    currentRaw: seq<Interval>, currentDecoded: seq<Interval>,
    anchor: Option<Capture>, started: bool, start: uint64, end: uint64)

  predicate Invalidated(jobs: set<Job>, c: Capture) {
    exists j | j in jobs :: j.Hits(c)
  }

  /** Does an active capture contribute its range? */
  predicate Counts(c: Capture, jobs: set<Job>, chain: uint64, decoded: bool) {
    c.chain == chain && c.Raw() && (decoded ==> c.Decoded()) && !Invalidated(jobs, c)
  }

  ghost function Blocks(c: Capture): set<nat> { set n: nat | 0 <= n <= MAX_UINT64 && c.Touches(n) }

  ghost predicate IsContributed(active: map<Hash, Capture>, jobs: set<Job>, chain: uint64, decoded: bool, n: nat) {
    exists id :: id in active && Counts(active[id], jobs, chain, decoded) && active[id].Touches(n)
  }

  /** The plain recomputation: everything that the active captures contribute. */
  ghost function Contributed(active: map<Hash, Capture>, jobs: set<Job>, chain: uint64, decoded: bool): set<nat> {
    set n: nat | 0 <= n <= MAX_UINT64 && IsContributed(active, jobs, chain, decoded, n)
  }

  ghost predicate Within(ch: Chain, blocks: set<nat>) {
    forall n :: n in blocks ==> ch.started && ch.start <= n <= ch.end
  }

  /** Finalized coverage, its bounds and its anchor. No height that a pending job
      calls bad is finalized. */
  ghost predicate BaseOk(ch: Chain, active: map<Hash, Capture>, jobs: set<Job>, chain: uint64) {
    && Normal(ch.raw) && Normal(ch.decoded) && Elements(ch.decoded) <= Elements(ch.raw)
    && (ch.started ==> ch.start <= ch.end < MAX_UINT64)
    && Within(ch, Elements(ch.raw))
    && (forall id :: id in active && active[id].chain == chain && active[id].Raw() ==> Within(ch, Blocks(active[id])))
    && (ch.raw != [] ==> ch.anchor.Some?)
    && (ch.anchor.Some? ==>
        ch.anchor.value.Anchored() && forall n :: n in Elements(ch.raw) ==> n <= ch.anchor.value.To())
    && (forall j, i :: j in jobs && j.chain == chain && 0 <= i < |j.bad| ==> j.bad[i] !in Elements(ch.raw))
  }

  /** The incremental lists are the normalised recomputation. */
  ghost predicate CurrentOk(ch: Chain, active: map<Hash, Capture>, jobs: set<Job>, chain: uint64) {
    && Normal(ch.currentRaw) && Elements(ch.currentRaw) == Elements(ch.raw) + Contributed(active, jobs, chain, false)
    && Normal(ch.currentDecoded)
    && Elements(ch.currentDecoded) == Elements(ch.decoded) + Contributed(active, jobs, chain, true)
  }

  /** One before the first uncovered block of the chain's bounds, but not below 0. */
  ghost predicate IsCursor(ch: Chain, cursor: int) {
    exists n: nat :: n <= ch.end + 1 && IsFirstUncovered(ch.start, ch.end, Elements(ch.currentRaw), n)
      && cursor == if n > 0 then n - 1 else 0
  }

  predicate ActiveOk(c: Capture, manifest: Hash) {
    && c.manifest == manifest && c.Anchored() && c.committed && c.canonical && c.finality != "finalized"
    && c.revision != 0
    && c.From() <= c.To() < MAX_UINT64
  }

  /** Nothing of the capture is left to decode. */
  ghost predicate IsCovered(p: Capture, ch: Chain) { Blocks(p) <= Elements(ch.currentDecoded) }

  /** What is kept of every stored partial capture. */
  ghost predicate IsFiled(p: Capture, manifest: Hash, chains: map<uint64, Chain>) {
    && p.manifest == manifest && p.chain in chains && p.Raw() && p.status == "partial"
    && p.From() <= p.To() < MAX_UINT64
  }

  /** A stored partial capture that still has a block to decode. */
  ghost predicate IsOpen(p: Capture, manifest: Hash, chains: map<uint64, Chain>) {
    IsFiled(p, manifest, chains) && !IsCovered(p, chains[p.chain])
  }

  // -------------------------------------------------- how contributions change

  lemma SameFixed(a: Capture, b: Capture, jobs: set<Job>)
    requires a.Fixed() == b.Fixed()
    ensures a.chain == b.chain && a.span == b.span && a.id == b.id && a.committed == b.committed
    ensures Invalidated(jobs, a) == Invalidated(jobs, b) && Blocks(a) == Blocks(b)
    ensures a.canonical == b.canonical ==> a.Raw() == b.Raw() && a.Decoded() == b.Decoded()
  {
  }

  ghost predicate KeepsMembers(active: map<Hash, Capture>, c: Capture) {
    c.id in active ==> active[c.id].Fixed() == c.Fixed() && active[c.id].canonical
  }

  lemma PlacedContributes(active: map<Hash, Capture>, jobs: set<Job>, c: Capture, chain: uint64, decoded: bool)
    requires KeepsMembers(active, c) && c.canonical
    ensures Contributed(active[c.id := c], jobs, chain, decoded)
         == Contributed(active, jobs, chain, decoded) + if Counts(c, jobs, chain, decoded) then Blocks(c) else {}
  {
    var after := active[c.id := c];
    if c.id in active {
      SameFixed(active[c.id], c, jobs);
    }
    forall n: nat | n <= MAX_UINT64
      ensures IsContributed(after, jobs, chain, decoded, n)
        <==> IsContributed(active, jobs, chain, decoded, n) || (Counts(c, jobs, chain, decoded) && c.Touches(n))
    {
      if IsContributed(active, jobs, chain, decoded, n) {
        var id :| id in active && Counts(active[id], jobs, chain, decoded) && active[id].Touches(n);
        assert id in after && Counts(after[id], jobs, chain, decoded) && after[id].Touches(n);
      }
      if Counts(c, jobs, chain, decoded) && c.Touches(n) {
        assert c.id in after && after[c.id] == c;
      }
    }
  }

  lemma RemovedContributes(active: map<Hash, Capture>, jobs: set<Job>, c: Capture, chain: uint64, decoded: bool)
    requires KeepsMembers(active, c)
    ensures var after := Contributed(active - {c.id}, jobs, chain, decoded);
      && after <= Contributed(active, jobs, chain, decoded)
      && Contributed(active, jobs, chain, decoded) <= after + Blocks(c)
      && (c.canonical && !Counts(c, jobs, chain, decoded) ==> after == Contributed(active, jobs, chain, decoded))
  {
    var after := active - {c.id};
    if c.id in active {
      SameFixed(active[c.id], c, jobs);
    }
    forall n: nat | n <= MAX_UINT64
      ensures IsContributed(after, jobs, chain, decoded, n) ==> IsContributed(active, jobs, chain, decoded, n)
      ensures IsContributed(active, jobs, chain, decoded, n) ==>
        IsContributed(after, jobs, chain, decoded, n)
            || (c.Touches(n) && (c.canonical ==> Counts(c, jobs, chain, decoded)))
    {
      if IsContributed(after, jobs, chain, decoded, n) {
        var id :| id in after && Counts(after[id], jobs, chain, decoded) && after[id].Touches(n);
        assert id in active && active[id] == after[id];
      }
      if IsContributed(active, jobs, chain, decoded, n) {
        var id :| id in active && Counts(active[id], jobs, chain, decoded) && active[id].Touches(n);
        if id == c.id {
          assert c.Touches(n);
        } else {
          assert id in after && after[id] == active[id];
        }
      }
    }
  }

  // -------------------------------------------------- one capture, as a relation

  predicate Finalizes(c: Capture) { c.canonical && c.finality == "finalized" && c.Anchored() }

  function ActiveAfter(active: map<Hash, Capture>, c: Capture): map<Hash, Capture> {
    if c.canonical && c.Anchored() && !Finalizes(c) then active[c.id := c] else active - {c.id}
  }

  function Widened(ch: Chain, c: Capture): Chain {
    if !c.Raw() then ch
    else if !ch.started then ch.(start := c.From(), end := c.To(), started := true)
    else ch.(start := if c.From() < ch.start then c.From() else ch.start,
             end := if c.To() > ch.end then c.To() else ch.end)
  }

  /** The newest finalized capture; among equals the one started first, then the
      one with the least id. */
  predicate Replaces(c: Capture, anchor: Option<Capture>)
    requires c.Anchored() && (anchor.Some? ==> anchor.value.Anchored())
  {
    || anchor.None?
    || c.To() > anchor.value.To()
    || (c.To() == anchor.value.To()
        && (c.startedAt < anchor.value.startedAt || (c.startedAt == anchor.value.startedAt && c.id < anchor.value.id)))
  }

  /** What a capture does to its chain, apart from the incremental lists. */
  ghost predicate IsPlaced(before: Chain, after: Chain, c: Capture) {
    && (before.anchor.Some? ==> before.anchor.value.Anchored())
    && Normal(after.raw)
    && Elements(after.raw) == Elements(before.raw) + (if Finalizes(c) && c.Raw() then Blocks(c) else {})
    && Normal(after.decoded)
    && Elements(after.decoded) == Elements(before.decoded) + (if Finalizes(c) && c.Decoded() then Blocks(c) else {})
    && after.anchor == (if Finalizes(c) && Replaces(c, before.anchor) then Some(c) else before.anchor)
    && after == Widened(before, c).(raw := after.raw, decoded := after.decoded, anchor := after.anchor,
        currentRaw := after.currentRaw, currentDecoded := after.currentDecoded)
  }

  predicate InScope(c: Capture) { c.Anchored() ==> c.From() <= c.To() < MAX_UINT64 }

  lemma WidenedHolds(ch: Chain, c: Capture)
    requires InScope(c) && (ch.started ==> ch.start <= ch.end < MAX_UINT64)
    ensures var w := Widened(ch, c);
      && (w.started ==> w.start <= w.end < MAX_UINT64)
      && (forall s :: Within(ch, s) ==> Within(w, s))
      && (c.Raw() ==> Within(w, Blocks(c)))
  {
  }

  lemma PlacedBase(before: Chain, after: Chain, active: map<Hash, Capture>, jobs: set<Job>, c: Capture)
    requires BaseOk(before, active, jobs, c.chain) && IsPlaced(before, after, c) && InScope(c)
    requires Finalizes(c) ==> !Invalidated(jobs, c)
    ensures BaseOk(after, ActiveAfter(active, c), jobs, c.chain)
  {
    WidenedHolds(before, c);
    var w := Widened(before, c);
    assert forall s :: Within(w, s) ==> Within(after, s);
    assert Within(after, Elements(after.raw)) by {
      assert Within(w, Elements(before.raw));
    }
    forall id | id in ActiveAfter(active, c) && ActiveAfter(active, c)[id].chain == c.chain
        && ActiveAfter(active, c)[id].Raw()
      ensures Within(after, Blocks(ActiveAfter(active, c)[id]))
    {
      if id != c.id {
        assert Within(w, Blocks(active[id]));
      }
    }
    AnchorHolds(before, after, c);
    forall j, i | j in jobs && j.chain == c.chain && 0 <= i < |j.bad| ensures j.bad[i] !in Elements(after.raw) {
      if Finalizes(c) && j.bad[i] in Blocks(c) {
        assert j.Hits(c);
      }
    }
  }

  lemma AnchorHolds(before: Chain, after: Chain, c: Capture)
    requires before.raw != [] ==> before.anchor.Some?
    requires before.anchor.Some? ==>
      before.anchor.value.Anchored() && forall n :: n in Elements(before.raw) ==> n <= before.anchor.value.To()
    requires Normal(before.raw) && IsPlaced(before, after, c)
    ensures after.raw != [] ==> after.anchor.Some?
    ensures after.anchor.Some? ==>
      after.anchor.value.Anchored() && forall n :: n in Elements(after.raw) ==> n <= after.anchor.value.To()
  {
    if after.raw != [] {
      assert Has(after.raw, after.raw[0].from);
      assert after.raw[0].from in Elements(after.raw);
    }
    if before.raw == [] {
      assert Elements(before.raw) == {};
    }
  }

  /** The other chains do not notice. */
  lemma OtherChain(ch: Chain, active: map<Hash, Capture>, jobs: set<Job>, c: Capture, chain: uint64)
    requires BaseOk(ch, active, jobs, chain) && CurrentOk(ch, active, jobs, chain)
    requires chain != c.chain && KeepsMembers(active, c)
    ensures BaseOk(ch, ActiveAfter(active, c), jobs, chain) && CurrentOk(ch, ActiveAfter(active, c), jobs, chain)
  {
    forall decoded: bool
      ensures Contributed(ActiveAfter(active, c), jobs, chain, decoded) == Contributed(active, jobs, chain, decoded)
    {
      NotCounting(active, jobs, c, chain, decoded);
    }
  }

  lemma NotCounting(active: map<Hash, Capture>, jobs: set<Job>, c: Capture, chain: uint64, decoded: bool)
    requires KeepsMembers(active, c) && chain != c.chain
    ensures Contributed(ActiveAfter(active, c), jobs, chain, decoded) == Contributed(active, jobs, chain, decoded)
  {
    if c.id in active {
      SameFixed(active[c.id], c, jobs);
    }
    if c.canonical {
      PlacedContributes(active, jobs, c, chain, decoded);
      RemovedContributes(active, jobs, c, chain, decoded);
    } else {
      RemovedContributes(active, jobs, c, chain, decoded);
      forall n: nat | n <= MAX_UINT64 && IsContributed(active, jobs, chain, decoded, n)
        ensures IsContributed(active - {c.id}, jobs, chain, decoded, n)
      {
        var id :| id in active && Counts(active[id], jobs, chain, decoded) && active[id].Touches(n);
        assert id in active - {c.id};
      }
    }
  }

  /** The incremental step: the new capture's own blocks are all that a canonical
      capture adds to the current lists. */
  lemma IncrementIsExact(before: Chain, after: Chain, active: map<Hash, Capture>, jobs: set<Job>, c: Capture)
    requires CurrentOk(before, active, jobs, c.chain) && IsPlaced(before, after, c)
    requires KeepsMembers(active, c) && c.canonical && (Finalizes(c) ==> !Invalidated(jobs, c))
    ensures Elements(before.currentRaw) + (if Counts(c, jobs, c.chain, false) then Blocks(c) else {})
      == Elements(after.raw) + Contributed(ActiveAfter(active, c), jobs, c.chain, false)
    ensures Elements(before.currentDecoded) + (if Counts(c, jobs, c.chain, true) then Blocks(c) else {})
      == Elements(after.decoded) + Contributed(ActiveAfter(active, c), jobs, c.chain, true)
  {
    hide Contributed, Blocks, Elements, Invalidated, Normal;
    PlacedContributes(active, jobs, c, c.chain, false);
    RemovedContributes(active, jobs, c, c.chain, false);
    PlacedContributes(active, jobs, c, c.chain, true);
    RemovedContributes(active, jobs, c, c.chain, true);
  }

  /** Taking a capture back never adds a block. */
  lemma RebuildShrinks(before: Chain, after: Chain, active: map<Hash, Capture>, jobs: set<Job>, c: Capture)
    requires CurrentOk(before, active, jobs, c.chain) && CurrentOk(after, ActiveAfter(active, c), jobs, c.chain)
    requires IsPlaced(before, after, c) && KeepsMembers(active, c) && !c.canonical
    ensures Elements(after.currentDecoded) <= Elements(before.currentDecoded)
    ensures Elements(after.currentRaw) <= Elements(before.currentRaw)
  {
    RemovedContributes(active, jobs, c, c.chain, false);
    RemovedContributes(active, jobs, c, c.chain, true);
  }

  // ------------------------------------------------------------- reorganisations

  lemma MoreJobsFewerBlocks(active: map<Hash, Capture>, jobs: set<Job>, job: Job, chain: uint64, decoded: bool)
    ensures Contributed(active, jobs + {job}, chain, decoded) <= Contributed(active, jobs, chain, decoded)
    ensures job.chain != chain || (forall id :: id in active ==> !job.Hits(active[id])) ==>
      Contributed(active, jobs + {job}, chain, decoded) == Contributed(active, jobs, chain, decoded)
  {
    forall n: nat | n <= MAX_UINT64
      ensures IsContributed(active, jobs + {job}, chain, decoded, n) ==> IsContributed(active, jobs, chain, decoded, n)
      ensures job.chain != chain || (forall id :: id in active ==> !job.Hits(active[id])) ==>
        (IsContributed(active, jobs, chain, decoded, n) ==> IsContributed(active, jobs + {job}, chain, decoded, n))
    {
      if id :| id in active && Counts(active[id], jobs + {job}, chain, decoded) && active[id].Touches(n) {
        assert forall j :: j in jobs ==> j in jobs + {job};
        assert Counts(active[id], jobs, chain, decoded);
      }
      if (job.chain != chain || (forall id :: id in active ==> !job.Hits(active[id])))
         && IsContributed(active, jobs, chain, decoded, n)
      {
        var id :| id in active && Counts(active[id], jobs, chain, decoded) && active[id].Touches(n);
        assert !job.Hits(active[id]);
        assert Counts(active[id], jobs + {job}, chain, decoded);
      }
    }
  }
}
