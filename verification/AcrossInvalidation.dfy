// The record of a discovered reorganisation, and its end.

module AcrossInvalidation {
  import opened AcrossCaptures
  import opened AcrossCoverage
  import opened AcrossRevisions
  import opened AcrossRuntime
  import opened Intervals
  import opened Options

  datatype MarkProblem = UnknownChain | FinalizedHashConflict

  /** One chain's current lists were recomputed. */
  ghost predicate IsRelisted(was: map<uint64, Chain>, now: map<uint64, Chain>, k: uint64,
                             active: map<Hash, Capture>, jobs: set<Job>)
  {
    OnlyLists(was, now, k) && BaseOk(now[k], active, jobs, k) && CurrentOk(now[k], active, jobs, k)
  }

  /** A job only hides blocks of its own chain. */
  lemma MarkedLists(manifest: Hash, chains: map<uint64, Chain>, active: map<Hash, Capture>, jobs: set<Job>, job: Job,
                    now: map<uint64, Chain>)
    requires AllLists(manifest, chains, active, jobs) && IsRelisted(chains, now, job.chain, active, jobs + {job})
    ensures AllLists(manifest, now, active, jobs + {job})
    ensures Elements(now[job.chain].currentDecoded) <= Elements(chains[job.chain].currentDecoded)
  {
    forall k | k in now ensures BaseOk(now[k], active, jobs + {job}, k) && CurrentOk(now[k], active, jobs + {job}, k) {
      if k != job.chain {
        assert BaseOk(chains[k], active, jobs, k) && CurrentOk(chains[k], active, jobs, k);
        MoreJobsFewerBlocks(active, jobs, job, k, false);
        MoreJobsFewerBlocks(active, jobs, job, k, true);
      }
    }
    assert CurrentOk(chains[job.chain], active, jobs, job.chain);
    MoreJobsFewerBlocks(active, jobs, job, job.chain, true);
  }

  lemma MarkedBase(ch: Chain, active: map<Hash, Capture>, jobs: set<Job>, job: Job)
    requires BaseOk(ch, active, jobs, job.chain) && BelowAll(ch, job.bad)
    ensures BaseOk(ch, active, jobs + {job}, job.chain)
  {
  }

  /** Fewer covered blocks: whatever was open stays open. */
  lemma ShrunkStaysOpen(manifest: Hash, chains: map<uint64, Chain>, now: map<uint64, Chain>, k: uint64,
                        partial: map<Hash, Capture>)
    requires OnlyLists(chains, now, k) && Elements(now[k].currentDecoded) <= Elements(chains[k].currentDecoded)
    requires AllOpen(partial, manifest, chains)
    ensures AllOpen(partial, manifest, now)
  {
    forall id | id in partial ensures IsOpen(partial[id], manifest, now) {
      var n :| n in Blocks(partial[id]) && n !in Elements(chains[partial[id].chain].currentDecoded);
      assert n !in Elements(now[partial[id].chain].currentDecoded);
    }
  }

  lemma SameChainsStayFiled(manifest: Hash, chains: map<uint64, Chain>, now: map<uint64, Chain>, k: uint64,
                            partial: map<Hash, Capture>)
    requires OnlyLists(chains, now, k) && AllFiled(partial, manifest, chains)
    ensures AllFiled(partial, manifest, now)
  {
  }

  lemma SameBoundsStayBounded(chains: map<uint64, Chain>, now: map<uint64, Chain>, k: uint64,
                              partial: map<Hash, Capture>, retired: map<Hash, Capture>)
    requires OnlyLists(chains, now, k) && AllBounded(chains, partial, retired)
    ensures AllBounded(now, partial, retired)
  {
    forall c: Capture ensures IsBounded(c, chains) ==> IsBounded(c, now) {
    }
    hide IsBounded;
    forall j | j in now && now[j].anchor.Some? ensures IsBounded(now[j].anchor.value, now) {
      assert now[j].anchor == chains[j].anchor;
    }
  }

  method RebuildSteady(r: Runtime, k: uint64, ghost was: map<uint64, Chain>, ghost wasCursors: map<uint64, int>)
    requires r.Pages() && AllActive(r.active.records, r.manifest, r.chains) && AllCursors(was, wasCursors)
    requires k in r.chains && r.chains == was && r.cursors == wasCursors && BaseOk(was[k], r.active.records, r.jobs, k)
    modifies r`chains, r`cursors
    ensures IsRelisted(was, r.chains, k, r.active.records, r.jobs) && AllCursors(r.chains, r.cursors)
    ensures k in r.chains
  {
    r.Rebuild(k);
    hide BaseOk, CurrentOk, IsCursor, AllActive;
    CursorsStillOk(k, was, r.chains, wasCursors, r.cursors);
  }

  ghost predicate BelowAll(ch: Chain, bad: seq<uint64>) {
    ch.anchor.Some? ==> ch.anchor.value.Anchored() && forall i :: 0 <= i < |bad| ==> ch.anchor.value.To() < bad[i]
  }

  method AboveAnchor(ch: Chain, bad: seq<uint64>) returns (ok: bool)
    requires ch.anchor.Some? ==> ch.anchor.value.Anchored()
    ensures ok <==> BelowAll(ch, bad)
  {
    for i := 0 to |bad|
      invariant forall j :: 0 <= j < i && ch.anchor.Some? ==> ch.anchor.value.To() < bad[j]
    {
      if ch.anchor.Some? && bad[i] <= ch.anchor.value.To() {
        return false;
      }
    }
    ok := true;
  }

  lemma ChainOk(manifest: Hash, chains: map<uint64, Chain>, active: map<Hash, Capture>, jobs: set<Job>, k: uint64)
    requires AllLists(manifest, chains, active, jobs) && k in chains
    ensures AllActive(active, manifest, chains)
    ensures BaseOk(chains[k], active, jobs, k) && CurrentOk(chains[k], active, jobs, k)
    ensures chains[k].anchor.Some? ==> chains[k].anchor.value.Anchored()
  {
  }

  /** The record of a discovered reorganisation. A bad height at or below the finalized
      anchor is a conflict; from then on the bad heights' captures no longer count, although
      none of them has been revised yet. */
  method Mark(r: Runtime, job: Job) returns (problem: Option<MarkProblem>)
    requires IsSteady(r)
    modifies r`chains, r`cursors, r`jobs
    ensures IsSteady(r) && (old(IsSound(r)) ==> IsSound(r))
    ensures problem == if job.chain !in old(r.chains) then Some(UnknownChain)
                       else if !BelowAll(old(r.chains)[job.chain], job.bad) then Some(FinalizedHashConflict) else None
    ensures r.jobs == if problem.None? then old(r.jobs) + {job} else old(r.jobs)
    ensures problem.Some? ==> r.chains == old(r.chains) && r.cursors == old(r.cursors)
    ensures problem.None? ==> OnlyLists(old(r.chains), r.chains, job.chain)
  {
    hide IsSteady, IsSound, BelowAll;
    problem := None;
    if job.chain !in r.chains {
      problem := Some(UnknownChain);
    } else {
      SteadyParts(r);
      ChainOk(r.manifest, r.chains, r.active.records, r.jobs, job.chain);
      hide *;
      var ok := AboveAnchor(r.chains[job.chain], job.bad);
      if !ok {
        problem := Some(FinalizedHashConflict);
      } else if job in r.jobs {
        assert r.jobs + {job} == r.jobs;
        SameLists(r.chains, job.chain);
      } else {
        AddJob(r, job);
      }
    }
  }

  lemma SameLists(chains: map<uint64, Chain>, k: uint64)
    requires k in chains
    ensures OnlyLists(chains, chains, k)
  {
  }

  method AddJob(r: Runtime, job: Job)
    requires IsSteady(r) && job.chain in r.chains && BelowAll(r.chains[job.chain], job.bad)
    modifies r`chains, r`cursors, r`jobs
    ensures IsSteady(r) && (old(IsSound(r)) ==> IsSound(r))
    ensures r.jobs == old(r.jobs) + {job} && OnlyLists(old(r.chains), r.chains, job.chain)
  {
    hide *;
    ghost var was, cursors, jobs, active, partial := r.chains, r.cursors, r.jobs, r.active.records, r.partial.records;
    SoundIs(r);
    SteadyParts(r);
    ChainOk(r.manifest, was, active, jobs, job.chain);
    MarkedBase(was[job.chain], active, jobs, job);
    r.jobs := r.jobs + {job};
    RebuildSteady(r, job.chain, was, cursors);
    MarkHolds(r.manifest, was, active, jobs, job, r.chains, partial, r.retired);
    SteadyFromParts(r);
    SoundIs(r);
  }

  lemma MarkHolds(manifest: Hash, was: map<uint64, Chain>, active: map<Hash, Capture>, jobs: set<Job>, job: Job,
                  now: map<uint64, Chain>, partial: map<Hash, Capture>, retired: map<Hash, Capture>)
    requires AllLists(manifest, was, active, jobs) && IsRelisted(was, now, job.chain, active, jobs + {job})
    requires AllFiled(partial, manifest, was) && AllBounded(was, partial, retired)
    ensures AllLists(manifest, now, active, jobs + {job}) && OnlyLists(was, now, job.chain)
    ensures AllFiled(partial, manifest, now) && AllBounded(now, partial, retired)
    ensures AllOpen(partial, manifest, was) ==> AllOpen(partial, manifest, now)
  {
    MarkedLists(manifest, was, active, jobs, job, now);
    hide AllLists, AllOpen, AllFiled, AllBounded, CurrentOk, BaseOk;
    SameBoundsStayBounded(was, now, job.chain, partial, retired);
    SameChainsStayFiled(manifest, was, now, job.chain, partial);
    if AllOpen(partial, manifest, was) {
      ShrunkStaysOpen(manifest, was, now, job.chain, partial);
    }
  }

  // ------------------------------------------------------------------- clearing

  /** Finalized coverage and the anchors are untouched. */
  ghost predicate SameFinalized(was: map<uint64, Chain>, now: map<uint64, Chain>) {
    && was.Keys == now.Keys
    && forall k :: k in was ==>
        Elements(was[k].raw) == Elements(now[k].raw) && Elements(was[k].decoded) == Elements(now[k].decoded)
        && was[k].anchor == now[k].anchor
  }

  ghost predicate IsHit(active: map<Hash, Capture>, job: Job) {
    exists id :: id in active && job.Hits(active[id])
  }

  /** An active capture of the chain that only this job keeps from counting holds the block. */
  ghost predicate IsReleased(active: map<Hash, Capture>, jobs: set<Job>, job: Job, decoded: bool, n: nat) {
    exists id :: id in active && Counts(active[id], jobs - {job}, job.chain, decoded) && job.Hits(active[id])
                 && active[id].Touches(n)
  }

  ghost function Released(active: map<Hash, Capture>, jobs: set<Job>, job: Job, decoded: bool): set<nat> {
    set n: nat | 0 <= n <= MAX_UINT64 && IsReleased(active, jobs, job, decoded, n)
  }

  lemma ReleasedIsExact(active: map<Hash, Capture>, jobs: set<Job>, job: Job, decoded: bool)
    requires job in jobs
    ensures Contributed(active, jobs - {job}, job.chain, decoded)
         == Contributed(active, jobs, job.chain, decoded) + Released(active, jobs, job, decoded)
  {
    forall n: nat
      ensures IsContributed(active, jobs - {job}, job.chain, decoded, n)
        <==> IsContributed(active, jobs, job.chain, decoded, n) || IsReleased(active, jobs, job, decoded, n)
    {
      if IsContributed(active, jobs - {job}, job.chain, decoded, n) {
        var id :| id in active && Counts(active[id], jobs - {job}, job.chain, decoded) && active[id].Touches(n);
        assert job.Hits(active[id]) || Counts(active[id], jobs, job.chain, decoded);
      }
      if IsContributed(active, jobs, job.chain, decoded, n) {
        var id :| id in active && Counts(active[id], jobs, job.chain, decoded) && active[id].Touches(n);
        assert Counts(active[id], jobs - {job}, job.chain, decoded);
      }
    }
  }

  lemma NothingReleased(active: map<Hash, Capture>, jobs: set<Job>, job: Job, decoded: bool)
    requires !IsHit(active, job)
    ensures Released(active, jobs, job, decoded) == {}
  {
  }

  /** No stored partial capture of the chain lies inside the blocks. */
  ghost predicate NoneCompleted(partial: map<Hash, Capture>, chain: uint64, blocks: set<nat>) {
    forall id :: id in partial && partial[id].chain == chain ==> !(Blocks(partial[id]) <= blocks)
  }

  /** The chain's lists have grown by exactly the released blocks. */
  ghost predicate IsGrown(before: Chain, after: Chain, active: map<Hash, Capture>, jobs: set<Job>, job: Job) {
    && Elements(after.currentRaw) == Elements(before.currentRaw) + Released(active, jobs, job, false)
    && Elements(after.currentDecoded) == Elements(before.currentDecoded) + Released(active, jobs, job, true)
  }

  /** Whatever the job kept from counting was covered anyway. */
  ghost predicate AddsNothing(ch: Chain, active: map<Hash, Capture>, jobs: set<Job>, job: Job) {
    && Released(active, jobs, job, false) <= Elements(ch.currentRaw)
    && Released(active, jobs, job, true) <= Elements(ch.currentDecoded)
  }

  lemma FewerJobsBase(ch: Chain, active: map<Hash, Capture>, jobs: set<Job>, job: Job, k: uint64)
    requires BaseOk(ch, active, jobs, k)
    ensures BaseOk(ch, active, jobs - {job}, k)
  {
  }

  lemma ClearedElsewhere(ch: Chain, active: map<Hash, Capture>, jobs: set<Job>, job: Job, k: uint64)
    requires BaseOk(ch, active, jobs, k) && CurrentOk(ch, active, jobs, k) && job in jobs && job.chain != k
    ensures BaseOk(ch, active, jobs - {job}, k) && CurrentOk(ch, active, jobs - {job}, k)
  {
    assert jobs - {job} + {job} == jobs;
    FewerJobsBase(ch, active, jobs, job, k);
    MoreJobsFewerBlocks(active, jobs - {job}, job, k, false);
    MoreJobsFewerBlocks(active, jobs - {job}, job, k, true);
  }

  lemma ClearedAt(manifest: Hash, was: map<uint64, Chain>, active: map<Hash, Capture>, jobs: set<Job>, job: Job,
                  now: map<uint64, Chain>, k: uint64)
    requires AllLists(manifest, was, active, jobs) && job in jobs && k in now
    requires IsRelisted(was, now, job.chain, active, jobs - {job})
    ensures BaseOk(now[k], active, jobs - {job}, k) && CurrentOk(now[k], active, jobs - {job}, k)
  {
    if k != job.chain {
      assert BaseOk(was[k], active, jobs, k) && CurrentOk(was[k], active, jobs, k) && now[k] == was[k];
      hide BaseOk, CurrentOk;
      ClearedElsewhere(was[k], active, jobs, job, k);
    }
  }

  lemma ClearedLists(manifest: Hash, was: map<uint64, Chain>, active: map<Hash, Capture>, jobs: set<Job>, job: Job,
                     now: map<uint64, Chain>)
    requires AllLists(manifest, was, active, jobs) && job in jobs
    requires IsRelisted(was, now, job.chain, active, jobs - {job})
    ensures AllLists(manifest, now, active, jobs - {job})
  {
    hide *;
    forall k | k in now
      ensures BaseOk(now[k], active, jobs - {job}, k) && CurrentOk(now[k], active, jobs - {job}, k)
    {
      ClearedAt(manifest, was, active, jobs, job, now, k);
    }
    ListsOf(manifest, was, active, jobs, job, now);
  }

  lemma ListsOf(manifest: Hash, was: map<uint64, Chain>, active: map<Hash, Capture>, jobs: set<Job>, job: Job,
                now: map<uint64, Chain>)
    requires AllLists(manifest, was, active, jobs) && IsRelisted(was, now, job.chain, active, jobs - {job})
    requires forall k :: k in now ==>
      BaseOk(now[k], active, jobs - {job}, k) && CurrentOk(now[k], active, jobs - {job}, k)
    ensures AllLists(manifest, now, active, jobs - {job})
  {
    hide BaseOk, CurrentOk;
  }

  lemma OneListGrows(before: seq<Interval>, after: seq<Interval>, base: set<nat>, counted: set<nat>, released: set<nat>)
    requires Normal(before) && Elements(before) == base + counted
    requires Normal(after) && Elements(after) == base + (counted + released)
    ensures Elements(after) == Elements(before) + released
    ensures after == before <==> released <= Elements(before)
  {
    hide Elements, Normal;
    if released <= Elements(before) {
      SameElementsSameList(before, after);
    }
  }

  lemma ClearedChain(before: Chain, after: Chain, active: map<Hash, Capture>, jobs: set<Job>, job: Job)
    requires CurrentOk(before, active, jobs, job.chain)
    requires CurrentOk(after, active, jobs - {job}, job.chain) && job in jobs
    requires after == before.(currentRaw := after.currentRaw, currentDecoded := after.currentDecoded)
    ensures IsGrown(before, after, active, jobs, job)
    ensures after == before <==> AddsNothing(before, active, jobs, job)
  {
    hide Contributed, Released, Elements, Normal;
    ReleasedIsExact(active, jobs, job, false);
    ReleasedIsExact(active, jobs, job, true);
    OneListGrows(before.currentRaw, after.currentRaw, Elements(before.raw),
                 Contributed(active, jobs, job.chain, false), Released(active, jobs, job, false));
    OneListGrows(before.currentDecoded, after.currentDecoded, Elements(before.decoded),
                 Contributed(active, jobs, job.chain, true), Released(active, jobs, job, true));
  }

  lemma RelistedChain(was: map<uint64, Chain>, now: map<uint64, Chain>, k: uint64, active: map<Hash, Capture>,
                      jobs: set<Job>)
    requires IsRelisted(was, now, k, active, jobs)
    ensures SameFinalized(was, now) && OnlyLists(was, now, k) && CurrentOk(now[k], active, jobs, k)
    ensures now[k] == was[k].(currentRaw := now[k].currentRaw, currentDecoded := now[k].currentDecoded)
    ensures now == was <==> now[k] == was[k]
  {
    hide BaseOk, CurrentOk, Elements;
  }

  lemma ClearHolds(manifest: Hash, was: map<uint64, Chain>, active: map<Hash, Capture>, jobs: set<Job>, job: Job,
                   now: map<uint64, Chain>)
    requires AllLists(manifest, was, active, jobs) && job in jobs && job.chain in was && job.chain in now
    requires IsRelisted(was, now, job.chain, active, jobs - {job})
    ensures AllLists(manifest, now, active, jobs - {job}) && SameFinalized(was, now) && OnlyLists(was, now, job.chain)
    ensures IsGrown(was[job.chain], now[job.chain], active, jobs, job)
    ensures now == was <==> AddsNothing(was[job.chain], active, jobs, job)
  {
    hide *;
    ClearedLists(manifest, was, active, jobs, job, now);
    ChainOk(manifest, was, active, jobs, job.chain);
    RelistedChain(was, now, job.chain, active, jobs - {job});
    ClearedChain(was[job.chain], now[job.chain], active, jobs, job);
  }

  /** Which partial captures are open once the lists have grown. */
  lemma OpenAfterGrowth(manifest: Hash, was: map<uint64, Chain>, now: map<uint64, Chain>, partial: map<Hash, Capture>,
                        active: map<Hash, Capture>, jobs: set<Job>, job: Job)
    requires OnlyLists(was, now, job.chain) && IsGrown(was[job.chain], now[job.chain], active, jobs, job)
    requires AllOpen(partial, manifest, was)
    ensures AllOpen(partial, manifest, now) <==>
      NoneCompleted(partial, job.chain, Elements(was[job.chain].currentDecoded) + Released(active, jobs, job, true))
  {
    hide Blocks, Elements, Released;
    forall id | id in partial && partial[id].chain != job.chain ensures IsOpen(partial[id], manifest, now) {
      assert IsOpen(partial[id], manifest, was) && now[partial[id].chain] == was[partial[id].chain];
    }
    forall id | id in partial && partial[id].chain == job.chain
      ensures IsOpen(partial[id], manifest, now) <==>
        !(Blocks(partial[id]) <= Elements(was[job.chain].currentDecoded) + Released(active, jobs, job, true))
    {
      assert IsOpen(partial[id], manifest, was);
    }
  }

  /** The end of a job: the captures that only it kept from counting count again. The lists
      stay as they are exactly if those were covered anyway, and a sound state stays sound
      exactly if no stored partial capture is completed by them. */
  method Clear(r: Runtime, job: Job)
    requires IsSteady(r) && job in r.jobs && job.chain in r.chains
    modifies r`chains, r`cursors, r`jobs
    ensures IsSteady(r) && r.jobs == old(r.jobs) - {job}
    ensures SameFinalized(old(r.chains), r.chains) && OnlyLists(old(r.chains), r.chains, job.chain)
    ensures IsGrown(old(r.chains)[job.chain], r.chains[job.chain], r.active.records, old(r.jobs), job)
    ensures r.chains == old(r.chains) <==> AddsNothing(old(r.chains)[job.chain], r.active.records, old(r.jobs), job)
    ensures old(IsSound(r)) ==>
      (IsSound(r) <==> NoneCompleted(r.partial.records, job.chain,
        Elements(old(r.chains)[job.chain].currentDecoded) + Released(r.active.records, old(r.jobs), job, true)))
  {
    hide *;
    ghost var was, cursors, jobs, active, partial := r.chains, r.cursors, r.jobs, r.active.records, r.partial.records;
    SoundIs(r);
    SteadyParts(r);
    ChainOk(r.manifest, was, active, jobs, job.chain);
    FewerJobsBase(was[job.chain], active, jobs, job, job.chain);
    r.jobs := r.jobs - {job};
    RebuildSteady(r, job.chain, was, cursors);
    ClearHolds(r.manifest, was, active, jobs, job, r.chains);
    SameBoundsStayBounded(was, r.chains, job.chain, partial, r.retired);
    SameChainsStayFiled(r.manifest, was, r.chains, job.chain, partial);
    SteadyFromParts(r);
    SoundIs(r);
    if AllOpen(partial, r.manifest, was) {
      OpenAfterGrowth(r.manifest, was, r.chains, partial, active, jobs, job);
    }
  }

  /** Without an affected capture nothing moves. */
  lemma ClearIsQuiet(ch: Chain, active: map<Hash, Capture>, jobs: set<Job>, job: Job, manifest: Hash,
                     chains: map<uint64, Chain>, partial: map<Hash, Capture>)
    requires !IsHit(active, job) && job.chain in chains && chains[job.chain] == ch
    ensures AddsNothing(ch, active, jobs, job)
    ensures AllOpen(partial, manifest, chains) ==>
      NoneCompleted(partial, job.chain, Elements(ch.currentDecoded) + Released(active, jobs, job, true))
  {
    NothingReleased(active, jobs, job, false);
    NothingReleased(active, jobs, job, true);
    hide Blocks, Elements, Released;
    forall id | AllOpen(partial, manifest, chains) && id in partial && partial[id].chain == job.chain
      ensures !(Blocks(partial[id]) <= Elements(ch.currentDecoded) + {})
    {
      assert IsOpen(partial[id], manifest, chains);
    }
  }
}
