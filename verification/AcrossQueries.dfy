// What the coverage answers, and what its readers may rely on.

module AcrossQueries {
  import opened AcrossCaptures
  import opened AcrossCoverage
  import opened AcrossRanges
  import opened AcrossRevisions
  import opened AcrossRuntime
  import opened Intervals
  import opened Options

  /** The list that a recomputation from the stored captures would give, which is
      what the conversion and the legacy path use. */
  method PlainCoverage(r: Runtime, k: uint64, decoded: bool) returns (ranges: seq<Interval>)
    requires r.Steady() && k in r.chains
    ensures ranges == if decoded then r.chains[k].currentDecoded else r.chains[k].currentRaw
  {
    var ch := r.chains[k];
    assert BaseOk(ch, r.active.records, r.jobs, k) && CurrentOk(ch, r.active.records, r.jobs, k);
    var rows := r.active.All();
    assert forall c :: c in rows ==> ActiveOk(c, r.manifest);
    var raw, all := Gather(rows, ch, r.jobs, k);
    hide BaseOk, AllLists, AllCursors, AllFiled;
    if decoded {
      GatheredAll(all, ch.decoded, rows, r.active.records, r.jobs, k, true);
      ranges := Normalise(all);
      SameElementsSameList(ranges, ch.currentDecoded);
    } else {
      GatheredAll(raw, ch.raw, rows, r.active.records, r.jobs, k, false);
      ranges := Normalise(raw);
      SameElementsSameList(ranges, ch.currentRaw);
    }
  }

  /** An active capture that holds a block on its own: canonical, committed, of logs, with its one
      task done, over a range that no pending reorganisation of the chain has a bad height in;
      decoded, besides, if it is complete and knew every event. */
  ghost predicate HoldsBlock(active: map<Hash, Capture>, jobs: set<Job>, id: Hash, k: uint64, n: nat, decoded: bool) {
    && id in active && active[id].chain == k && active[id].canonical && active[id].committed
    && active[id].kind == "logs" && active[id].completedTasks == 1
    && active[id].span.Some? && active[id].span.value.from <= n <= active[id].span.value.to
    && (decoded ==> active[id].status == "complete" && active[id].unknownEvents == 0)
    && forall j, i :: j in jobs && j.chain == k && 0 <= i < |j.bad| ==>
      j.bad[i] < active[id].span.value.from || active[id].span.value.to < j.bad[i]
  }

  /** What coverage means on the fields: a block is covered if and only if it is finalized or
      some active capture holds it. */
  lemma CoverageMeans(r: Runtime, k: uint64, n: nat)
    requires r.Steady() && k in r.chains
    ensures n in Elements(r.chains[k].currentRaw) <==>
      n in Elements(r.chains[k].raw) || exists id :: HoldsBlock(r.active.records, r.jobs, id, k, n, false)
    ensures n in Elements(r.chains[k].currentDecoded) <==>
      n in Elements(r.chains[k].decoded) || exists id :: HoldsBlock(r.active.records, r.jobs, id, k, n, true)
  {
    var active, jobs, ch := r.active.records, r.jobs, r.chains[k];
    CurrentIs(r, k);
    hide Elements, Contributed;
    HoldingMeans(active, jobs, k, n, false);
    HoldingMeans(active, jobs, k, n, true);
  }

  lemma CurrentIs(r: Runtime, k: uint64)
    requires r.Steady() && k in r.chains
    ensures var ch := r.chains[k];
      && Elements(ch.currentRaw) == Elements(ch.raw) + Contributed(r.active.records, r.jobs, k, false)
      && Elements(ch.currentDecoded) == Elements(ch.decoded) + Contributed(r.active.records, r.jobs, k, true)
  {
    assert CurrentOk(r.chains[k], r.active.records, r.jobs, k);
  }

  lemma HoldingMeans(active: map<Hash, Capture>, jobs: set<Job>, k: uint64, n: nat, decoded: bool)
    ensures n in Contributed(active, jobs, k, decoded) <==>
      exists id :: HoldsBlock(active, jobs, id, k, n, decoded)
  {
    forall id | id in active
      ensures Counts(active[id], jobs, k, decoded) && active[id].Touches(n) <==>
        HoldsBlock(active, jobs, id, k, n, decoded)
    {
      UnhitMeans(active[id], jobs);
      hide Invalidated;
    }
    hide Counts, Capture.Touches, HoldsBlock;
    if id :| HoldsBlock(active, jobs, id, k, n, decoded) {
      HeldIsSmall(active, jobs, id, k, n, decoded);
      assert Counts(active[id], jobs, k, decoded) && active[id].Touches(n);
    }
  }

  lemma HeldIsSmall(active: map<Hash, Capture>, jobs: set<Job>, id: Hash, k: uint64, n: nat, decoded: bool)
    requires HoldsBlock(active, jobs, id, k, n, decoded)
    ensures id in active && n <= MAX_UINT64
  {
  }

  lemma UnhitMeans(c: Capture, jobs: set<Job>)
    ensures c.span.Some? ==>
      (!Invalidated(jobs, c) <==> forall j, i :: j in jobs && j.chain == c.chain && 0 <= i < |j.bad| ==>
        j.bad[i] < c.span.value.from || c.span.value.to < j.bad[i])
  {
    if c.span.Some? && !Invalidated(jobs, c) {
      forall j, i | j in jobs && j.chain == c.chain && 0 <= i < |j.bad|
        ensures j.bad[i] < c.span.value.from || c.span.value.to < j.bad[i]
      {
        assert !j.Hits(c);
        assert !c.Touches(j.bad[i]);
      }
    }
  }

  /** What becomes final, on the fields: exactly the blocks of a canonical and finalized capture
      of logs with its one task done, and for the decoded list a complete one that knew every
      event. */
  lemma FinalizedMeans(was: Snapshot, now: Snapshot, c: Capture, n: nat)
    requires IsTaken(was, now, c)
    ensures c.chain in was.chains && c.chain in now.chains
    ensures var here := c.canonical && c.finality == "finalized" && c.committed && c.kind == "logs"
        && c.completedTasks == 1 && c.span.Some? && c.span.value.from <= n <= c.span.value.to;
      && (n in Elements(now.chains[c.chain].raw) <==> n in Elements(was.chains[c.chain].raw) || here)
      && (n in Elements(now.chains[c.chain].decoded) <==>
          n in Elements(was.chains[c.chain].decoded) || (here && c.status == "complete" && c.unknownEvents == 0))
  {
    assert IsPlaced(was.chains[c.chain], now.chains[c.chain], c);
  }

  /** Ends higher, or at the same block and was started earlier, or has the smaller identity. */
  ghost predicate IsAhead(a: Capture, b: Capture)
    requires a.span.Some? && b.span.Some?
  {
    || b.span.value.to < a.span.value.to
    || (a.span.value.to == b.span.value.to && a.startedAt < b.startedAt)
    || (a.span.value.to == b.span.value.to && a.startedAt == b.startedAt && a.id <= b.id)
  }

  /** The anchor of a chain is the finalized capture that is ahead of all others. */
  lemma AnchorIsAhead(was: Snapshot, now: Snapshot, c: Capture)
    requires IsTaken(was, now, c)
    ensures c.chain in was.chains && c.chain in now.chains
    ensures var before, after := was.chains[c.chain].anchor, now.chains[c.chain].anchor;
      (before.Some? ==> before.value.span.Some?) &&
      if c.canonical && c.finality == "finalized" && c.span.Some? then
        && after.Some? && (after == Some(c) || after == before)
        && after.value.span.Some? && IsAhead(after.value, c) && (before.Some? ==> IsAhead(after.value, before.value))
      else after == before
  {
    assert IsPlaced(was.chains[c.chain], now.chains[c.chain], c);
  }

  /** Whatever is decoded is covered, whatever is finalized stays in the current
      lists, and no recorded bad height is finalized. */
  lemma CoverageIsNested(r: Runtime, k: uint64)
    requires r.Steady() && k in r.chains
    ensures var ch := r.chains[k];
      && Elements(ch.currentDecoded) <= Elements(ch.currentRaw)
      && Elements(ch.raw) <= Elements(ch.currentRaw) && Elements(ch.decoded) <= Elements(ch.currentDecoded)
      && forall j, i :: j in r.jobs && j.chain == k && 0 <= i < |j.bad| ==> j.bad[i] !in Elements(ch.raw)
  {
    var ch := r.chains[k];
    assert BaseOk(ch, r.active.records, r.jobs, k) && CurrentOk(ch, r.active.records, r.jobs, k);
    forall n | n in Contributed(r.active.records, r.jobs, k, true)
      ensures n in Contributed(r.active.records, r.jobs, k, false)
    {
      var id :| id in r.active.records && Counts(r.active.records[id], r.jobs, k, true)
          && r.active.records[id].Touches(n);
      assert Counts(r.active.records[id], r.jobs, k, false);
    }
  }

  /** Finalized blocks never leave the coverage of any chain. */
  lemma FinalizedStays(was: Snapshot, now: Snapshot, c: Capture, k: uint64)
    requires IsTaken(was, now, c) && k in was.chains
    ensures k in now.chains && Elements(was.chains[k].raw) <= Elements(now.chains[k].raw)
      && Elements(was.chains[k].decoded) <= Elements(now.chains[k].decoded)
  {
    assert IsPlaced(was.chains[c.chain], now.chains[c.chain], c);
  }

  /** Every partial capture that is kept still has a block left to decode, and one
      that a repair could work on was never dropped while that was so. */
  lemma PartialsAreOpen(was: Snapshot, now: Snapshot, c: Capture, id: Hash)
    requires IsTaken(was, now, c) && id in was.partial && id != c.id
    ensures id in now.partial <==>
      !(c.Decoded() && was.partial[id].chain == c.chain && IsCovered(was.partial[id], now.chains[c.chain]))
    ensures id in now.partial ==> now.partial[id] == was.partial[id]
  {
  }

  /** The stored partials on the fields: a capture is filed as one if and only if it is a partial
      capture of logs whose repair nobody has given up and some block of it is not decoded; when
      all of it is, the form that was filed before stays, if there is one; a complete one that
      knew every event strikes out what lies decoded on its chain. */
  lemma PartialsMean(was: Snapshot, now: Snapshot, c: Capture, id: Hash)
    requires IsTaken(was, now, c) && c.chain in now.chains
    ensures var logs := c.canonical && c.committed && c.kind == "logs" && c.completedTasks == 1 && c.span.Some?;
      var done := Elements(now.chains[c.chain].currentDecoded);
      var partly := logs && c.status == "partial"
        && !Mentions(c.reason, "repair_abandoned=user_requested_historical_state_unavailable");
      var open := partly && exists n: nat :: c.span.value.from <= n <= c.span.value.to && n !in done;
      && (c.id in now.partial <==> open || (partly && c.id in was.partial))
      && (c.id in now.partial ==> now.partial[c.id] == if open then c else was.partial[c.id])
      && (id in was.partial && id != c.id && was.partial[id].span.Some? ==>
        var p := was.partial[id];
        id !in now.partial <==>
          && logs && c.status == "complete" && c.unknownEvents == 0 && p.chain == c.chain
          && forall n: nat :: p.span.value.from <= n <= p.span.value.to ==> n in done)
      && (id !in was.partial && id != c.id ==> id !in now.partial)
  {
    var ch := now.chains[c.chain];
    if c.span.Some? {
      CoveredMeans(c, ch);
    }
    if id in was.partial && was.partial[id].span.Some? {
      CoveredMeans(was.partial[id], ch);
    }
    hide IsFolded, IsCovered, Elements;
  }

  lemma CoveredMeans(c: Capture, ch: Chain)
    requires c.span.Some?
    ensures IsCovered(c, ch) <==>
      forall n: nat :: c.span.value.from <= n <= c.span.value.to ==> n in Elements(ch.currentDecoded)
  {
    if IsCovered(c, ch) {
      forall n: nat | c.span.value.from <= n <= c.span.value.to ensures n in Elements(ch.currentDecoded) {
        assert n in Blocks(c);
      }
    }
  }

  /** Whatever made a stored partial capture complete, the next decoded capture of its chain
      strikes it out: what the chain keeps is open again. */
  lemma DecodedHealsTheChain(was: Snapshot, now: Snapshot, manifest: Hash, jobs: set<Job>, c: Capture, id: Hash)
    requires AllFiled(was.partial, manifest, was.chains) && c.Decoded()
    requires id in now.partial && now.partial[id].chain == c.chain
    requires Answers(was, manifest, jobs, c, None, now) && !IsStale(was.active, c)
    ensures IsOpen(now.partial[id], manifest, now.chains)
  {
    assert IsTaken(was, now, c);
    DecodedLeavesOpen(was.partial, c, manifest, was.chains, now.chains, id);
  }

  datatype Gap = Gap(from: uint64, to: uint64)

  ghost predicate IsUncovered(ch: Chain, n: nat) { ch.start <= n <= ch.end && n !in Elements(ch.currentRaw) }

  /** The newest gap: it ends at the last uncovered block and cannot be extended
      to the left. */
  ghost predicate IsNewestGap(ch: Chain, gap: Gap) {
    && gap.from <= gap.to
    && (forall n: nat :: gap.from <= n <= gap.to ==> IsUncovered(ch, n))
    && (forall n: nat :: n > gap.to ==> !IsUncovered(ch, n))
    && (gap.from > 0 ==> !IsUncovered(ch, gap.from - 1))
  }

  /** What the walk knows once everything below `next` was looked at. */
  ghost predicate IsWalked(ch: Chain, next: nat, gap: Option<Gap>) {
    && next >= ch.start && (next > ch.start ==> next - 1 in Elements(ch.currentRaw))
    && match gap
       case None => forall n: nat :: n < next ==> !IsUncovered(ch, n)
       case Some(g) =>
         && g.from <= g.to < next
         && (forall n: nat :: g.from <= n <= g.to ==> IsUncovered(ch, n))
         && (forall n: nat :: g.to < n < next ==> !IsUncovered(ch, n))
         && (g.from > 0 ==> !IsUncovered(ch, g.from - 1))
  }

  method NewestRawGap(ch: Chain) returns (gap: Option<Gap>)
    requires Normal(ch.currentRaw) && ch.started && ch.start <= ch.end < MAX_UINT64
    requires Within(ch, Elements(ch.currentRaw))
    ensures gap.None? ==> forall n: nat :: !IsUncovered(ch, n)
    ensures gap.Some? ==> IsNewestGap(ch, gap.value)
  {
    hide Elements, Within, Normal, IsWalked, IsNewestGap, IsUncovered;
    var next: nat := ch.start;
    gap := None;
    var i := 0;
    WalkStarts(ch);
    while i < |ch.currentRaw|
      invariant i <= |ch.currentRaw| && IsWalked(ch, next, gap)
      invariant forall j :: 0 <= j < i ==> ch.currentRaw[j].to < next
    {
      var r := ch.currentRaw[i];
      RangeInside(ch, i);
      if r.to >= next {
        WalkOn(ch, next, gap, i);
        if r.from > next {
          gap := Some(Gap(next, r.from - 1));
        }
        next := r.to + 1;
      }
      i := i + 1;
    }
    WalkEnds(ch, next, gap);
    if next <= ch.end {
      gap := Some(Gap(next, ch.end));
    }
  }

  lemma WalkStarts(ch: Chain)
    requires ch.start <= ch.end
    ensures IsWalked(ch, ch.start, None)
  {
  }

  lemma WalkEnds(ch: Chain, next: nat, gap: Option<Gap>)
    requires IsWalked(ch, next, gap) && Within(ch, Elements(ch.currentRaw))
    requires forall j :: 0 <= j < |ch.currentRaw| ==> ch.currentRaw[j].to < next
    ensures next <= ch.end ==> IsNewestGap(ch, Gap(next, ch.end))
    ensures next > ch.end && gap.Some? ==> IsNewestGap(ch, gap.value)
    ensures next > ch.end && gap.None? ==> forall n: nat :: !IsUncovered(ch, n)
  {
  }

  lemma RangeInside(ch: Chain, i: nat)
    requires Normal(ch.currentRaw) && i < |ch.currentRaw| && Within(ch, Elements(ch.currentRaw))
    ensures ch.start <= ch.currentRaw[i].from <= ch.currentRaw[i].to <= ch.end
    ensures forall n: nat :: ch.currentRaw[i].from <= n <= ch.currentRaw[i].to ==> n in Elements(ch.currentRaw)
  {
    var r := ch.currentRaw[i];
    assert Has(ch.currentRaw, r.from) && Has(ch.currentRaw, r.to);
    assert r.from as nat in Elements(ch.currentRaw) && r.to as nat in Elements(ch.currentRaw);
  }

  lemma WalkOn(ch: Chain, next: nat, gap: Option<Gap>, i: nat)
    requires Normal(ch.currentRaw) && i < |ch.currentRaw|
    requires Within(ch, Elements(ch.currentRaw)) && IsWalked(ch, next, gap)
    requires ch.currentRaw[i].to >= next && forall j :: 0 <= j < i ==> ch.currentRaw[j].to < next
    ensures var r := ch.currentRaw[i];
      IsWalked(ch, r.to + 1, if r.from > next then Some(Gap(next, r.from - 1)) else gap)
  {
  }
}
