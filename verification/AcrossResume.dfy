// Working off the recorded reorganisations. The owner serves other callers between the
// steps of this loop, so that captures may arrive at every point in between.

module AcrossResume {
  import opened AcrossCaptures
  import opened AcrossCoverage
  import opened AcrossInvalidation
  import opened AcrossReorg
  import opened AcrossRevisions
  import opened AcrossRuntime
  import opened Intervals
  import opened Options

  // ------------------------------------------------------------ one step at a time

  function Orphaned(c: Capture, reason: string): Capture
    requires c.revision < MAX_UINT64
  {
    c.(revision := c.revision + 1, canonical := false, finality := "orphaned", reason := "reorg_invalidated; " + reason)
  }

  /** What the orphaning revision of an active capture runs into: nothing. */
  lemma OrphaningIsTaken(was: Snapshot, retired: map<Hash, Capture>, manifest: Hash, jobs: set<Job>,
                         c: Capture, reason: string, problem: Option<Problem>, now: Snapshot)
    requires AllActive(was.active, manifest, was.chains) && c.id in was.active && was.active[c.id] == c
    requires c.revision < MAX_UINT64
    requires IsRevised(was, retired, manifest, jobs, c.revision, Orphaned(c, reason), problem, now)
    ensures problem.None? && now.active == was.active - {c.id} && SameFinalized(was.chains, now.chains)
  {
  }

  lemma OrphanIsKnown(s: Snapshot, retired: map<Hash, Capture>, c: Capture, reason: string)
    requires c.id in s.active && s.active[c.id] == c && c.revision < MAX_UINT64
    ensures IsContinuedIn(s, retired, Orphaned(c, reason)) && Orphaned(c, reason).id == c.id
    ensures forall chains :: IsBounded(Orphaned(c, reason), chains)
  {
  }

  lemma StillBounded(chains: map<uint64, Chain>, partial: map<Hash, Capture>, retired: map<Hash, Capture>, o: Capture)
    requires AllBounded(chains, partial, retired) && IsBounded(o, chains)
    ensures AllBounded(chains, partial, retired[o.id := o])
  {
  }

  /** The owner keeps the newest confirmed form of a capture for its log tail. */
  method Retire(r: Runtime, o: Capture)
    requires IsSteady(r) && IsBounded(o, r.chains)
    modifies r`retired
    ensures IsSteady(r) && (old(IsSound(r)) ==> IsSound(r)) && Snap(r) == old(Snap(r))
    ensures r.retired == old(r.retired)[o.id := o]
  {
    hide *;
    SoundIs(r);
    SteadyParts(r);
    StillBounded(r.chains, r.partial.records, r.retired, o);
    r.retired := r.retired[o.id := o];
    SteadyFromParts(r);
    SoundIs(r);
  }

  lemma ActiveFacts(r: Runtime)
    requires IsSteady(r)
    ensures AllActive(r.active.records, r.manifest, r.chains) && HasIds(r.active.records)
  {
  }

  /** One affected capture: the proposed revision is stored and comes back as it was
      proposed. */
  method TakeBack(r: Runtime, c: Capture, reason: string)
    requires IsSteady(r) && c.id in r.active.records && r.active.records[c.id] == c && c.revision < MAX_UINT64
    modifies r`chains, r`cursors, r`retired, r.active, r.partial
    ensures IsSteady(r) && (old(IsSound(r)) ==> IsSound(r))
    ensures r.active.records == old(r.active.records) - {c.id} && SameFinalized(old(r.chains), r.chains)
  {
    hide *;
    ghost var was := Snap(r);
    SnapShows(r);
    ActiveFacts(r);
    OrphanIsKnown(Snap(r), r.retired, c, reason);
    var o := Orphaned(c, reason);
    var problem := Revise(r, c.revision, o);
    SnapShows(r);
    OrphaningIsTaken(was, r.retired, r.manifest, r.jobs, c, reason, problem, Snap(r));
    Retire(r, o);
    SnapShows(r);
  }

  ghost predicate HasIds(active: map<Hash, Capture>) { forall id :: id in active ==> active[id].id == id }

  ghost predicate LowRevisions(active: map<Hash, Capture>) {
    forall id :: id in active ==> active[id].revision < MAX_UINT64
  }

  // ---------------------------------------------------------------- what survives

  /** Finalized coverage has not lost a block. */
  ghost predicate KeepsFinalized(was: map<uint64, Chain>, now: map<uint64, Chain>) {
    && was.Keys == now.Keys
    && forall k :: k in was ==>
        Elements(was[k].raw) <= Elements(now[k].raw) && Elements(was[k].decoded) <= Elements(now[k].decoded)
  }

  /** Some captures came, others were taken back for the jobs. Every active capture came or
      is an old one as it was, and no other old one is gone than those that a job hits or
      that came again. */
  ghost predicate IsAccounted(was: Snapshot, now: Snapshot, came: set<Capture>, jobs: set<Job>) {
    && HasIds(was.active) && HasIds(now.active) && LowRevisions(now.active)
    && (forall id :: id in now.active ==>
        now.active[id] in came || (id in was.active && was.active[id] == now.active[id]))
    && (forall id :: id in was.active && id !in now.active && (forall c :: c in came ==> c.id != id) ==>
        Invalidated(jobs, was.active[id]))
    && KeepsFinalized(was.chains, now.chains)
    && (came == {} ==> SameFinalized(was.chains, now.chains))
  }

  lemma NothingHappened(was: Snapshot, jobs: set<Job>)
    requires HasIds(was.active) && LowRevisions(was.active)
    ensures IsAccounted(was, was, {}, jobs)
  {
  }

  lemma FinalizedTwice(a: map<uint64, Chain>, b: map<uint64, Chain>, c: map<uint64, Chain>)
    requires KeepsFinalized(a, b) && KeepsFinalized(b, c)
    ensures KeepsFinalized(a, c)
    ensures SameFinalized(a, b) && SameFinalized(b, c) ==> SameFinalized(a, c)
  {
  }

  lemma TakenKeeps(was: Snapshot, now: Snapshot, c: Capture)
    requires IsTaken(was, now, c)
    ensures KeepsFinalized(was.chains, now.chains)
    ensures now.active == was.active[c.id := c] || now.active == was.active - {c.id}
  {
    assert IsPlaced(was.chains[c.chain], now.chains[c.chain], c);
  }

  /** A capture came, and was taken in or turned away. */
  lemma OneCame(was: Snapshot, before: Snapshot, now: Snapshot, came: set<Capture>, jobs: set<Job>, manifest: Hash,
                pending: set<Job>, c: Capture, problem: Option<Problem>)
    requires IsAccounted(was, before, came, jobs) && Answers(before, manifest, pending, c, problem, now)
    requires c.revision < MAX_UINT64
    ensures IsAccounted(was, now, came + {c}, jobs)
  {
    hide KeepsFinalized, SameFinalized, IsTaken, Refusal, Invalidated;
    if now != before {
      TakenKeeps(before, now, c);
      FinalizedTwice(was.chains, before.chains, now.chains);
    }
  }

  lemma OneRefused(was: Snapshot, now: Snapshot, came: set<Capture>, jobs: set<Job>, c: Capture)
    requires IsAccounted(was, now, came, jobs)
    ensures IsAccounted(was, now, came + {c}, jobs)
  {
  }

  lemma OneTakenBack(was: Snapshot, before: Snapshot, now: Snapshot, came: set<Capture>, job: Job, c: Capture)
    requires IsAccounted(was, before, came, {job})
    requires c.id in before.active && before.active[c.id] == c && job.Hits(c)
    requires now.active == before.active - {c.id} && SameFinalized(before.chains, now.chains)
    ensures IsAccounted(was, now, came, {job})
  {
    forall id | id in was.active && id !in now.active && (forall d :: d in came ==> d.id != id)
      ensures Invalidated({job}, was.active[id])
    {
      if id == c.id {
        assert was.active[id] == c;
      }
    }
  }

  /** Two stretches in a row. */
  lemma AccountedTwice(was: Snapshot, mid: Snapshot, now: Snapshot, first: set<Capture>, second: set<Capture>,
                       done: set<Job>, job: Job)
    requires IsAccounted(was, mid, first, done) && IsAccounted(mid, now, second, {job})
    ensures IsAccounted(was, now, first + second, done + {job})
  {
    hide SameFinalized, Elements;
    var came := first + second;
    forall id | id in was.active && id !in now.active && (forall c :: c in came ==> c.id != id)
      ensures Invalidated(done + {job}, was.active[id])
    {
      if id in mid.active {
        assert mid.active[id] == was.active[id];
        assert Invalidated({job}, mid.active[id]);
      }
    }
    FinalizedTwice(was.chains, mid.chains, now.chains);
  }

  lemma SameIsAccounted(was: Snapshot, before: Snapshot, now: Snapshot, came: set<Capture>, jobs: set<Job>)
    requires IsAccounted(was, before, came, jobs)
    requires now.active == before.active && SameFinalized(before.chains, now.chains)
    ensures IsAccounted(was, now, came, jobs)
  {
  }

  // --------------------------------------------------------------------- arrivals

  /** Who comes when the owner is free: captures up to the next `None`. */
  type Arrivals = seq<Option<Capture>>

  ghost predicate AreLow(arrivals: Arrivals) {
    forall i :: 0 <= i < |arrivals| && arrivals[i].Some? ==> arrivals[i].value.revision < MAX_UINT64
  }

  ghost function Coming(arrivals: Arrivals): set<Capture> { set a | a in arrivals && a.Some? :: a.value }

  lemma NextArrival(arrivals: Arrivals)
    requires arrivals != [] && AreLow(arrivals)
    ensures AreLow(arrivals[1..]) && Coming(arrivals[1..]) <= Coming(arrivals)
    ensures arrivals[0].Some? ==> arrivals[0].value.revision < MAX_UINT64 && arrivals[0].value in Coming(arrivals)
  {
    assert arrivals[0] in arrivals;
  }

  /** One arrival. A known identity with other members is turned away by the owner. */
  method Deliver(r: Runtime, c: Capture, ghost was: Snapshot, ghost came: set<Capture>, ghost jobs: set<Job>)
    requires IsSteady(r) && c.revision < MAX_UINT64 && IsAccounted(was, Snap(r), came, jobs)
    modifies r`chains, r`cursors, r.active, r.partial
    ensures IsSteady(r) && (old(IsSound(r)) ==> IsSound(r)) && IsAccounted(was, Snap(r), came + {c}, jobs)
  {
    hide *;
    ghost var before := Snap(r);
    if IsContinued(r.active.records, c) {
      var problem := TakeIn(r, c);
      OneCame(was, before, Snap(r), came, jobs, r.manifest, r.jobs, c, problem);
    } else {
      OneRefused(was, Snap(r), came, jobs, c);
    }
  }

  /** The owner is free for others. */
  method Interlude(r: Runtime, arrivals: Arrivals, ghost was: Snapshot, ghost came: set<Capture>, ghost jobs: set<Job>)
    returns (rest: Arrivals, ghost more: set<Capture>)
    requires IsSteady(r) && AreLow(arrivals) && IsAccounted(was, Snap(r), came, jobs)
    modifies r`chains, r`cursors, r.active, r.partial
    ensures IsSteady(r) && (old(IsSound(r)) ==> IsSound(r)) && IsAccounted(was, Snap(r), came + more, jobs)
    ensures AreLow(rest) && |rest| <= |arrivals| && Coming(rest) + more <= Coming(arrivals)
    ensures |rest| == |arrivals| ==> Snap(r) == old(Snap(r)) && more == {}
  {
    hide *;
    rest, more := arrivals, {};
    assert came + more == came;
    var free := true;
    while free && rest != []
      invariant IsSteady(r) && (old(IsSound(r)) ==> IsSound(r)) && IsAccounted(was, Snap(r), came + more, jobs)
      invariant AreLow(rest) && |rest| <= |arrivals| && Coming(rest) + more <= Coming(arrivals)
      invariant |rest| == |arrivals| ==> Snap(r) == old(Snap(r)) && more == {}
      decreases |rest|
    {
      NextArrival(rest);
      if rest[0].Some? {
        Deliver(r, rest[0].value, was, came + more, jobs);
        assert came + more + {rest[0].value} == came + (more + {rest[0].value});
        more := more + {rest[0].value};
      } else {
        free := false;
      }
      rest := rest[1..];
    }
  }

  // --------------------------------------------------------------- one job's captures

  predicate IsRowOf(active: map<Hash, Capture>, c: Capture) { c.id in active && active[c.id] == c }

  lemma RowIsLow(was: Snapshot, now: Snapshot, came: set<Capture>, jobs: set<Job>, c: Capture)
    requires IsAccounted(was, now, came, jobs) && IsRowOf(now.active, c)
    ensures c.revision < MAX_UINT64 && c.id in now.active && now.active[c.id] == c
  {
  }

  /** One capture of a page. If it was revised since the page was read, storage answers with
      the newer form, which the state knows already. */
  method TakeBackRow(r: Runtime, job: Job, c: Capture, ghost was: Snapshot, ghost came: set<Capture>)
    requires IsSteady(r) && IsAccounted(was, Snap(r), came, {job}) && job.Hits(c)
    modifies r`chains, r`cursors, r`retired, r.active, r.partial
    ensures IsSteady(r) && (old(IsSound(r)) ==> IsSound(r)) && IsAccounted(was, Snap(r), came, {job})
    ensures |Snap(r).active| <= |old(Snap(r)).active|
    ensures IsRowOf(old(Snap(r)).active, c) ==> |Snap(r).active| < |old(Snap(r)).active|
  {
    ghost var before := Snap(r);
    if IsRowOf(r.active.records, c) {
      hide *;
      SnapShows(r);
      RowIsLow(was, before, came, {job}, c);
      TakeBack(r, c, job.reason);
      SnapShows(r);
      OneTakenBack(was, before, Snap(r), came, job, c);
      Smaller(before.active, c.id);
    }
  }

  lemma Smaller(active: map<Hash, Capture>, id: Hash)
    requires id in active
    ensures |active - {id}| < |active|
  {
    assert (active - {id}).Keys == active.Keys - {id};
    assert |(active - {id}).Keys| == |active - {id}| && |active.Keys| == |active|;
  }

  ghost predicate AreHit(job: Job, rows: seq<Capture>) { forall c :: c in rows ==> job.Hits(c) }

  lemma HitAt(job: Job, rows: seq<Capture>, i: nat)
    requires AreHit(job, rows) && i < |rows|
    ensures job.Hits(rows[i])
  {
  }

  method TakeBackPage(r: Runtime, job: Job, page: seq<Capture>, arrivals: Arrivals, ghost was: Snapshot,
                      ghost came: set<Capture>)
    returns (rest: Arrivals, ghost more: set<Capture>)
    requires IsSteady(r) && AreLow(arrivals) && IsAccounted(was, Snap(r), came, {job})
    requires page != [] && AreHit(job, page) && IsRowOf(Snap(r).active, page[0])
    modifies r`chains, r`cursors, r`retired, r.active, r.partial
    ensures IsSteady(r) && (old(IsSound(r)) ==> IsSound(r)) && IsAccounted(was, Snap(r), came + more, {job})
    ensures AreLow(rest) && |rest| <= |arrivals| && Coming(rest) + more <= Coming(arrivals)
    ensures |rest| == |arrivals| ==> |Snap(r).active| < |old(Snap(r)).active|
  {
    hide *;
    rest, more := Interlude(r, arrivals, was, came, {job});
    HitAt(job, page, 0);
    TakeBackRow(r, job, page[0], was, came + more);
    var i := 1;
    while i < |page|
      invariant 1 <= i <= |page| && IsSteady(r) && (old(IsSound(r)) ==> IsSound(r))
      invariant IsAccounted(was, Snap(r), came + more, {job})
      invariant AreLow(rest) && |rest| <= |arrivals| && Coming(rest) + more <= Coming(arrivals)
      invariant |rest| == |arrivals| ==> |Snap(r).active| < |old(Snap(r)).active|
    {
      ghost var others;
      rest, others := Interlude(r, rest, was, came + more, {job});
      assert came + more + others == came + (more + others);
      more := more + others;
      HitAt(job, page, i);
      TakeBackRow(r, job, page[i], was, came + more);
      i := i + 1;
    }
  }

  method AffectedNow(r: Runtime, job: Job) returns (page: seq<Capture>)
    requires IsSteady(r)
    ensures AreHit(job, page) && (page != [] ==> IsRowOf(Snap(r).active, page[0]))
    ensures page == [] ==> !IsHit(Snap(r).active, job)
  {
    page := Affected(r.active, job, REVISION_PAGE);
    assert forall c :: c in page ==> exists i :: 0 <= i < |page| && page[i] == c;
  }

  /** All captures that one job hits, 24 at a time, until a page comes back empty. */
  method TakeBackAll(r: Runtime, job: Job, arrivals: Arrivals, ghost was: Snapshot)
    returns (rest: Arrivals, ghost came: set<Capture>)
    requires IsSteady(r) && AreLow(arrivals) && IsAccounted(was, Snap(r), {}, {job})
    modifies r`chains, r`cursors, r`retired, r.active, r.partial
    ensures IsSteady(r) && (old(IsSound(r)) ==> IsSound(r)) && IsAccounted(was, Snap(r), came, {job})
    ensures AreLow(rest) && |rest| <= |arrivals| && Coming(rest) + came <= Coming(arrivals)
    ensures !IsHit(Snap(r).active, job)
  {
    hide *;
    rest, came := arrivals, {};
    var more := true;
    while more
      invariant IsSteady(r) && (old(IsSound(r)) ==> IsSound(r)) && IsAccounted(was, Snap(r), came, {job})
      invariant AreLow(rest) && |rest| <= |arrivals| && Coming(rest) + came <= Coming(arrivals)
      invariant !more ==> !IsHit(Snap(r).active, job)
      decreases more, |rest|, |Snap(r).active|
    {
      ghost var others;
      rest, others := Interlude(r, rest, was, came, {job});
      came := came + others;
      var page := AffectedNow(r, job);
      if page == [] {
        more := false;
      } else {
        rest, others := TakeBackPage(r, job, page, rest, was, came);
        came := came + others;
      }
    }
  }

  // ------------------------------------------------------------------------ all jobs

  /** What came since the last page of each finished job. Only such a capture can hold one
      of the job's bad heights. */
  ghost predicate IsSince(active: map<Hash, Capture>, since: map<Job, set<Capture>>) {
    forall j, id :: j in since && id in active && j.Hits(active[id]) ==> active[id] in since[j]
  }

  /** No job had an affected capture that came after its last page. */
  ghost predicate NoneLate(since: map<Job, set<Capture>>) { forall j, c :: j in since && c in since[j] ==> !j.Hits(c) }

  ghost function SinceNow(since: map<Job, set<Capture>>, came: set<Capture>, job: Job, late: set<Capture>)
    : map<Job, set<Capture>>
  {
    (map j | j in since :: since[j] + came)[job := late]
  }

  ghost predicate IsWithin(since: map<Job, set<Capture>>, came: set<Capture>) {
    forall j :: j in since ==> since[j] <= came
  }

  lemma SinceGoesOn(was: Snapshot, mid: Snapshot, now: Snapshot, came: set<Capture>, late: set<Capture>, job: Job,
                    since: map<Job, set<Capture>>, earlier: set<Capture>)
    requires IsAccounted(was, now, came + late, {job}) && IsSince(was.active, since)
    requires IsAccounted(mid, now, late, {job}) && !IsHit(mid.active, job) && job !in since
    requires IsWithin(since, earlier)
    ensures IsSince(now.active, SinceNow(since, came + late, job, late))
    ensures SinceNow(since, came + late, job, late).Keys == since.Keys + {job}
    ensures IsWithin(SinceNow(since, came + late, job, late), earlier + (came + late))
    ensures NoneLate(SinceNow(since, came + late, job, late)) ==> NoneLate(since)
    ensures NoneLate(SinceNow(since, came + late, job, late)) ==> !IsHit(now.active, job)
  {
    forall j, c | NoneLate(SinceNow(since, came + late, job, late)) && j in since && c in since[j] ensures !j.Hits(c) {
      assert c in SinceNow(since, came + late, job, late)[j];
    }
  }

  lemma StillThere(was: Snapshot, now: Snapshot, came: set<Capture>, jobs: set<Job>)
    requires IsAccounted(was, now, came, jobs)
    ensures was.chains.Keys == now.chains.Keys && LowRevisions(now.active) && HasIds(now.active)
  {
  }

  /** One job from its first page to its end. */
  method ResumeJob(r: Runtime, job: Job, arrivals: Arrivals, ghost since: map<Job, set<Capture>>,
                   ghost earlier: set<Capture>)
    returns (rest: Arrivals, ghost came: set<Capture>, ghost next: map<Job, set<Capture>>)
    requires IsSteady(r) && AreLow(arrivals) && IsSince(r.active.records, since) && LowRevisions(r.active.records)
    requires job in r.jobs && job.chain in r.chains && job !in since && IsWithin(since, earlier)
    modifies r`chains, r`cursors, r`jobs, r`retired, r.active, r.partial
    ensures IsSteady(r) && r.jobs == old(r.jobs) - {job} && IsAccounted(old(Snap(r)), Snap(r), came, {job})
    ensures AreLow(rest) && |rest| <= |arrivals| && Coming(rest) + came <= Coming(arrivals)
    ensures IsSince(r.active.records, next) && next.Keys == since.Keys + {job} && IsWithin(next, earlier + came)
    ensures NoneLate(next) ==> NoneLate(since) && (old(IsSound(r)) ==> IsSound(r))
  {
    hide *;
    ghost var was := Snap(r);
    SnapShows(r);
    ActiveFacts(r);
    NothingHappened(was, {job});
    ghost var first, late;
    rest, first := TakeBackAll(r, job, arrivals, was);
    ghost var mid := Snap(r);
    StillThere(was, mid, first, {job});
    NothingHappened(mid, {job});
    rest, late := Interlude(r, rest, mid, {}, {job});
    assert {} + late == late && {job} + {job} == {job};
    ghost var before := Snap(r);
    AccountedTwice(was, mid, before, first, late, {job}, job);
    came := first + late;
    next := SinceNow(since, came, job, late);
    SnapShows(r);
    StillThere(was, before, came, {job});
    SinceGoesOn(was, mid, before, first, late, job, since, earlier);
    SoundIs(r);
    if !IsHit(r.active.records, job) {
      ClearIsQuiet(r.chains[job.chain], r.active.records, r.jobs, job, r.manifest, r.chains, r.partial.records);
    }
    Clear(r, job);
    SnapShows(r);
    SameIsAccounted(was, before, Snap(r), came, {job});
  }

  /** The captures that no job hits. */
  ghost function Survivors(active: map<Hash, Capture>, jobs: set<Job>): map<Hash, Capture> {
    map id | id in active && !Invalidated(jobs, active[id]) :: active[id]
  }

  /** If nobody came, exactly the captures that a job hits are gone. */
  lemma QuietResume(was: Snapshot, now: Snapshot, came: set<Capture>, jobs: set<Job>, since: map<Job, set<Capture>>)
    requires came == {} && IsAccounted(was, now, came, jobs) && IsSince(now.active, since) && since.Keys == jobs
    requires IsWithin(since, came)
    ensures now.active == Survivors(was.active, jobs) && SameFinalized(was.chains, now.chains) && NoneLate(since)
  {
    forall id ensures id in now.active <==> id in was.active && !Invalidated(jobs, was.active[id]) {
      if id in now.active {
        assert was.active[id] == now.active[id];
        assert forall j :: j in jobs ==> !j.Hits(now.active[id]);
      }
    }
  }

  /** `jobs` of `all` are still to be worked off. */
  ghost predicate IsResuming(was: Snapshot, now: Snapshot, came: set<Capture>, all: set<Job>, jobs: set<Job>,
                             since: map<Job, set<Capture>>)
  {
    && jobs <= all && IsAccounted(was, now, came, all - jobs)
    && IsSince(now.active, since) && since.Keys == all - jobs && IsWithin(since, came)
  }

  lemma ResumeStarts(was: Snapshot, all: set<Job>)
    requires HasIds(was.active) && LowRevisions(was.active)
    ensures IsResuming(was, was, {}, all, all, map[]) && NoneLate(map[])
  {
    NothingHappened(was, {});
    assert all - all == {};
  }

  lemma ResumeGives(was: Snapshot, now: Snapshot, came: set<Capture>, all: set<Job>, jobs: set<Job>,
                    since: map<Job, set<Capture>>, job: Job)
    requires IsResuming(was, now, came, all, jobs, since) && job in jobs
    requires forall j :: j in all ==> j.chain in was.chains
    ensures IsSince(now.active, since) && LowRevisions(now.active) && IsWithin(since, came) && job !in since
    ensures job.chain in now.chains
  {
    hide IsSince, IsWithin, SameFinalized;
  }

  lemma ResumeNext(was: Snapshot, mid: Snapshot, now: Snapshot, came: set<Capture>, more: set<Capture>, all: set<Job>,
                   jobs: set<Job>, job: Job, since: map<Job, set<Capture>>, next: map<Job, set<Capture>>)
    requires IsResuming(was, mid, came, all, jobs, since) && job in jobs
    requires IsAccounted(mid, now, more, {job}) && IsSince(now.active, next)
    requires next.Keys == since.Keys + {job} && IsWithin(next, came + more)
    ensures IsResuming(was, now, came + more, all, jobs - {job}, next)
  {
    hide IsAccounted, IsSince, IsWithin;
    AccountedTwice(was, mid, now, came, more, all - jobs, job);
    assert all - (jobs - {job}) == (all - jobs) + {job};
  }

  lemma ResumeEnds(was: Snapshot, now: Snapshot, came: set<Capture>, all: set<Job>, since: map<Job, set<Capture>>)
    requires IsResuming(was, now, came, all, {}, since)
    ensures IsAccounted(was, now, came, all) && IsSince(now.active, since) && since.Keys == all && IsWithin(since, came)
    ensures came == {} ==> now.active == Survivors(was.active, all) && SameFinalized(was.chains, now.chains)
  {
    hide IsAccounted, IsSince, IsWithin, Survivors, SameFinalized;
    assert all - {} == all;
    if came == {} {
      QuietResume(was, now, came, all, since);
    }
  }

  /** Works off every recorded job, as after a restart, while captures keep arriving. If
      they stop, it ends. Coverage and cursors are right at every point; every active capture
      arrived or is an old one as it was; no other old one is gone than those that a job hits
      or that arrived again; and a capture that still holds a bad height came after the last
      page of that job. A sound state stays sound unless such a capture came. */
  method Resume(r: Runtime, arrivals: Arrivals)
    returns (rest: Arrivals, ghost came: set<Capture>, ghost since: map<Job, set<Capture>>)
    requires IsSteady(r) && AreLow(arrivals) && LowRevisions(r.active.records)
    requires forall j :: j in r.jobs ==> j.chain in r.chains
    modifies r`chains, r`cursors, r`jobs, r`retired, r.active, r.partial
    ensures IsSteady(r) && r.jobs == {} && came <= Coming(arrivals)
    ensures IsAccounted(old(Snap(r)), Snap(r), came, old(r.jobs))
    ensures IsSince(r.active.records, since) && since.Keys == old(r.jobs) && IsWithin(since, came)
    ensures old(IsSound(r)) && NoneLate(since) ==> IsSound(r)
    ensures Coming(arrivals) == {} ==>
      r.active.records == Survivors(old(r.active.records), old(r.jobs)) && SameFinalized(old(r.chains), r.chains)
  {
    hide *;
    rest, came, since := arrivals, {}, map[];
    ghost var was, all := Snap(r), r.jobs;
    SnapShows(r);
    ActiveFacts(r);
    ResumeStarts(was, all);
    while r.jobs != {}
      invariant IsSteady(r) && AreLow(rest) && Coming(rest) + came <= Coming(arrivals)
      invariant IsResuming(was, Snap(r), came, all, r.jobs, since)
      invariant old(IsSound(r)) && NoneLate(since) ==> IsSound(r)
      decreases |r.jobs|
    {
      var job :| job in r.jobs;
      ghost var mid, others, jobs, next := Snap(r), {}, r.jobs, since;
      SnapShows(r);
      ResumeGives(was, mid, came, all, jobs, since, job);
      rest, others, next := ResumeJob(r, job, rest, since, came);
      SnapShows(r);
      ResumeNext(was, mid, Snap(r), came, others, all, jobs, job, since, next);
      came, since := came + others, next;
    }
    SnapShows(r);
    ResumeEnds(was, Snap(r), came, all, since);
  }
}
