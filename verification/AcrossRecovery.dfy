// Two of the checks that recovery makes of a stored state, and runs of the same operations
// that end in a state which fails them.

module AcrossRecovery {
  import opened AcrossCaptures
  import opened AcrossCoverage
  import opened AcrossInvalidation
  import opened AcrossRevisions
  import opened AcrossRuns
  import opened AcrossRuntime
  import opened Intervals
  import opened Options

  /** A capture that is let in leaves the bad heights above the anchor if and only if it
      does not finalize a range that ends at or above one of them. */
  lemma AnchorStaysBelow(was: Snapshot, now: Snapshot, c: Capture, job: Job)
    requires IsTaken(was, now, c) && job.chain == c.chain && BelowAll(was.chains[c.chain], job.bad)
    ensures BelowAll(now.chains[c.chain], job.bad) <==>
      !(Finalizes(c) && exists i :: 0 <= i < |job.bad| && job.bad[i] <= c.To())
  {
    var before, after := was.chains[c.chain], now.chains[c.chain];
    assert IsPlaced(before, after, c);
    if Finalizes(c) && !Replaces(c, before.anchor) {
      assert c.To() <= before.anchor.value.To();
    }
  }

  /** A recorded job for height 3, then a finalized capture of block 5 alone: the state is
      sound, and yet the job's bad height is not above the anchor. */
  method AnchorPassesABadHeight() returns (r: Runtime, job: Job)
    ensures IsSound(r) && job in r.jobs && job.chain in r.chains && !BelowAll(r.chains[job.chain], job.bad)
  {
    var c := Logs(1, 5, 5, "complete", "finalized");
    hide *;
    r, job := Marked();
    ghost var was := Snap(r);
    SnapShows(r);
    SoundGives(r);
    NothingIsKnown(was, c);
    var problem := TakeIn(r, c);
    SnapShows(r);
    HasPassed(was, r.manifest, r.jobs, Snap(r), job, c, problem);
  }

  const FIRST := Job(1, [3], "")

  method OneChain() returns (r: Runtime)
    ensures fresh(r) && fresh(r.active) && fresh(r.partial)
    ensures IsSound(r) && r.jobs == {} && r.manifest == 0 && 1 in r.chains && BelowAll(r.chains[1], FIRST.bad)
    ensures Snap(r).active == map[] && Snap(r).partial == map[]
    ensures Snap(r).chains == map[1 := Chain([], [], [], [], None, false, 0, 0)]
  {
    r := new Runtime(0, {1});
    hide AllLists, AllCursors, AllOpen, AllFiled, CapturePages.Valid;
  }

  /** A fresh state of one chain with a recorded job for height 3. */
  method Marked() returns (r: Runtime, job: Job)
    ensures fresh(r) && fresh(r.active) && fresh(r.partial)
    ensures IsSound(r) && job == FIRST && r.jobs == {job} && r.manifest == 0
    ensures IsFresh(Snap(r))
  {
    hide *;
    r := OneChain();
    job := FIRST;
    FirstIsOnOne();
    SnapShows(r);
    ghost var was := r.chains;
    SoundGives(r);
    var marked := Mark(r, job);
    assert {} + {job} == {job};
    SnapShows(r);
    SoundGives(r);
    SteadyParts(r);
    MarkedIsFresh(r.manifest, was, r.chains, Snap(r), r.jobs);
  }

  lemma FirstIsOnOne()
    ensures FIRST.chain == 1
  {
  }

  lemma MarkedIsFresh(manifest: Hash, was: map<uint64, Chain>, now: map<uint64, Chain>, s: Snapshot, jobs: set<Job>)
    requires was == map[1 := Chain([], [], [], [], None, false, 0, 0)] && OnlyLists(was, now, 1)
    requires s.chains == now && s.active == map[] && s.partial == map[] && AllLists(manifest, now, s.active, jobs)
    ensures IsFresh(s)
  {
    FreshDecodes(manifest, now, s.active, jobs);
  }

  lemma FreshDecodes(manifest: Hash, chains: map<uint64, Chain>, active: map<Hash, Capture>, jobs: set<Job>)
    requires AllLists(manifest, chains, active, jobs) && active == map[] && 1 in chains && chains[1].decoded == []
    ensures Elements(chains[1].currentDecoded) == {}
  {
    ChainOk(manifest, chains, active, jobs, 1);
  }

  ghost predicate IsFresh(s: Snapshot) {
    && s.active == map[] && s.partial == map[] && s.chains.Keys == {1}
    && s.chains[1].anchor.None? && s.chains[1].decoded == [] && Elements(s.chains[1].currentDecoded) == {}
  }

  function Logs(id: Hash, from: uint64, to: uint64, status: string, finality: string): Capture {
    Capture(0, id, 1, "logs", Some(Span(from, to, 0, 0)), 0, status, 1, 0, 0, true, finality, "", 1, true)
  }

  lemma HasPassed(was: Snapshot, manifest: Hash, jobs: set<Job>, now: Snapshot, job: Job, c: Capture,
                  problem: Option<Problem>)
    requires IsFresh(was) && job == FIRST && jobs == {job} && manifest == 0
    requires c == Logs(1, 5, 5, "complete", "finalized") && Answers(was, manifest, jobs, c, problem, now)
    ensures job in jobs && job.chain in now.chains && !BelowAll(now.chains[job.chain], job.bad)
  {
    hide IsTaken;
    assert !Invalidated(jobs, c);
    assert IsTaken(was, now, c);
    TakenChains(was, now, c);
    AnchorStaysBelow(was, now, c, job);
    assert job.bad[0] <= c.To();
  }

  lemma TakenChains(was: Snapshot, now: Snapshot, c: Capture)
    requires IsTaken(was, now, c)
    ensures c.chain in was.chains && c.chain in now.chains
  {
  }

  /** Besides, a partial capture of block 4. */
  method WithPartial() returns (r: Runtime, job: Job)
    ensures fresh(r) && fresh(r.active) && fresh(r.partial)
    ensures IsSound(r) && job == FIRST && r.jobs == {job} && r.manifest == 0
    ensures HasPartial(Snap(r), Logs(2, 4, 4, "partial", "head"))
  {
    var p := Logs(2, 4, 4, "partial", "head");
    hide *;
    r, job := Marked();
    ghost var was := Snap(r);
    SnapShows(r);
    SoundGives(r);
    NothingIsKnown(was, p);
    var problem := TakeIn(r, p);
    PartialIsFiled(was, r.manifest, r.jobs, Snap(r), job, p, problem);
  }

  lemma NothingIsKnown(s: Snapshot, c: Capture)
    requires IsFresh(s)
    ensures IsContinued(s.active, c)
  {
  }

  /** A partial capture of block 4, then a complete one of blocks 3 and 4, which holds the bad
      height and so does not count while the job is pending. The state is sound, but the end
      of the job completes the stored partial capture. */
  method LateCapture() returns (r: Runtime, job: Job)
    ensures IsSound(r) && job in r.jobs && job.chain in r.chains
    ensures !NoneCompleted(r.partial.records, job.chain,
      Elements(r.chains[job.chain].currentDecoded) + Released(r.active.records, r.jobs, job, true))
    ensures fresh(r) && fresh(r.active) && fresh(r.partial)
  {
    var p, c := Logs(2, 4, 4, "partial", "head"), Logs(3, 3, 4, "complete", "head");
    hide *;
    r, job := WithPartial();
    ghost var was := Snap(r);
    SnapShows(r);
    SoundGives(r);
    AnotherIdentity(was, p, c);
    var problem := TakeIn(r, c);
    SnapShows(r);
    SoundGives(r);
    SteadyParts(r);
    PartialIsKept(was, r.manifest, r.jobs, Snap(r), job, p, c, problem);
  }

  lemma AnotherIdentity(s: Snapshot, p: Capture, c: Capture)
    requires HasPartial(s, p) && p == Logs(2, 4, 4, "partial", "head") && c == Logs(3, 3, 4, "complete", "head")
    ensures IsContinued(s.active, c)
  {
  }

  ghost predicate HasPartial(s: Snapshot, p: Capture) {
    && s.active == map[p.id := p] && s.partial == map[p.id := p]
    && s.chains.Keys == {1} && Elements(s.chains[1].decoded) == {}
  }

  lemma PartialIsFiled(was: Snapshot, manifest: Hash, jobs: set<Job>, now: Snapshot, job: Job, p: Capture,
                       problem: Option<Problem>)
    requires IsFresh(was) && job == FIRST && jobs == {job} && manifest == 0
    requires p == Logs(2, 4, 4, "partial", "head") && Answers(was, manifest, jobs, p, problem, now)
    ensures HasPartial(now, p)
  {
    assert !Invalidated(jobs, p);
    assert IsPlaced(was.chains[1], now.chains[1], p);
    assert 4 in Blocks(p);
    assert p.Repairable();
  }

  lemma PartialIsKept(was: Snapshot, manifest: Hash, jobs: set<Job>, now: Snapshot, job: Job, p: Capture, c: Capture,
                      problem: Option<Problem>)
    requires HasPartial(was, p) && job == FIRST && jobs == {job} && manifest == 0
    requires p == Logs(2, 4, 4, "partial", "head") && c == Logs(3, 3, 4, "complete", "head")
    requires Answers(was, manifest, jobs, c, problem, now) && AllLists(manifest, now.chains, now.active, jobs)
    ensures job.chain in now.chains
    ensures !NoneCompleted(now.partial, job.chain,
      Elements(now.chains[job.chain].currentDecoded) + Released(now.active, jobs, job, true))
  {
    assert c.Touches(job.bad[0]) && job.Hits(c) && !Invalidated(jobs - {job}, c);
    PartialIsTaken(was, jobs, now, p, c, problem, manifest);
    ChainOk(manifest, now.chains, now.active, jobs, 1);
    hide IsTaken, AllLists, BaseOk, Invalidated;
    NothingCounts(now.active, jobs, job, p, c);
    ReleasedBlock(now.active, jobs, job, c);
    StillOpen(was, now, p, c);
    hide Elements, Released, Contributed;
    assert p.id in now.partial && now.partial[p.id] == p;
  }

  lemma PartialIsTaken(was: Snapshot, jobs: set<Job>, now: Snapshot, p: Capture, c: Capture, problem: Option<Problem>,
                       manifest: Hash)
    requires HasPartial(was, p) && Answers(was, manifest, jobs, c, problem, now) && manifest == 0
    requires p == Logs(2, 4, 4, "partial", "head") && c == Logs(3, 3, 4, "complete", "head")
    ensures IsTaken(was, now, c) && now.active == map[2 := p, 3 := c] && now.chains.Keys == {1}
    ensures Elements(now.chains[1].decoded) == {}
    ensures now.partial == PartialAfter(was.partial, c, now.chains[1])
  {
    assert IsPlaced(was.chains[1], now.chains[1], c);
  }

  lemma StillOpen(was: Snapshot, now: Snapshot, p: Capture, c: Capture)
    requires was.partial == map[p.id := p] && 1 in now.chains && c.id != p.id && c.Decoded()
    requires now.partial == PartialAfter(was.partial, c, now.chains[1])
    requires p == Logs(2, 4, 4, "partial", "head") && Elements(now.chains[1].currentDecoded) == {}
    ensures p.id in now.partial && now.partial[p.id] == p
  {
    assert 4 in Blocks(p);
  }

  lemma ReleasedBlock(active: map<Hash, Capture>, jobs: set<Job>, job: Job, c: Capture)
    requires c.id in active && active[c.id] == c && c == Logs(3, 3, 4, "complete", "head") && job.chain == 1
    requires job.Hits(c) && !Invalidated(jobs - {job}, c)
    ensures forall p :: p == Logs(2, 4, 4, "partial", "head") ==> Blocks(p) <= Released(active, jobs, job, true)
  {
    assert Counts(c, jobs - {job}, job.chain, true) && c.Touches(4);
    assert IsReleased(active, jobs, job, true, 4);
  }

  lemma NothingCounts(active: map<Hash, Capture>, jobs: set<Job>, job: Job, p: Capture, c: Capture)
    requires active == map[2 := p, 3 := c] && job in jobs && job.Hits(c) && !p.Decoded()
    ensures Contributed(active, jobs, 1, true) == {}
  {
  }

  /** So the end of a job can take a sound state to one that recovery refuses. */
  method ClearCanBreakRecovery() returns (r: Runtime)
    ensures IsSteady(r) && !IsSound(r)
  {
    var job;
    r, job := LateCapture();
    hide *;
    SoundGives(r);
    Clear(r, job);
  }

  // ------------------------------------------------- a capture that comes back

  function Version(revision: uint64, canonical: bool): Capture {
    Logs(1, 5, 5, "complete", "head").(revision := revision, canonical := canonical)
  }

  ghost predicate ComesBack(past: seq<map<Hash, Capture>>, last: map<Hash, Capture>) {
    && IsTrace(past, [Version(5, true), Version(6, false), Version(4, true)], map[], last)
    && past[1] == map[1 := Version(5, true)] && last == map[1 := Version(4, true)]
  }

  /** Revision 5, the orphaned revision 6 and then revision 4, each accepted: the capture was
      active at revision 5 and ends active at revision 4. */
  method CaptureComesBack() returns (r: Runtime, ghost past: seq<map<Hash, Capture>>)
    ensures IsSound(r) && ComesBack(past, r.active.records)
  {
    var four: uint64, five: uint64, six: uint64 := 4, 5, 6;
    hide *;
    r := OneChain();
    ghost var s0, s1, s2, s3 := Snap(r), Snap(r), Snap(r), Snap(r);
    ActiveOne(s0, five, true);
    s1 := TakeVersion(r, s0, five, true);
    ActiveOne(s1, six, false);
    s2 := TakeVersion(r, s1, six, false);
    ActiveOne(s2, four, true);
    s3 := TakeVersion(r, s2, four, true);
    past := [s0.active, s1.active, s2.active, s3.active];
    ThreeSteps(s0, s1, s2, s3, past);
  }

  lemma ActiveIs(r: Runtime)
    ensures Snap(r).active == r.active.records
  {
  }

  /** The active captures are none or one version, which the next one replaces or ends. */
  ghost predicate IsOpenTo(s: Snapshot, revision: uint64) {
    && 1 in s.chains && revision != 0
    && (s.active == map[] || exists v: uint64 :: v < revision && s.active == map[1 := Version(v, true)])
  }

  lemma ActiveOne(s: Snapshot, revision: uint64, canonical: bool)
    requires 1 in s.chains && revision != 0
    requires s.active == map[] || (s.active == map[1 := Version(5, true)] && revision == 6)
    ensures IsOpenTo(s, revision) && IsContinued(s.active, Version(revision, canonical))
  {
  }

  method TakeVersion(r: Runtime, ghost was: Snapshot, revision: uint64, canonical: bool) returns (ghost now: Snapshot)
    requires IsSound(r) && r.jobs == {} && r.manifest == 0 && was == Snap(r) && IsOpenTo(was, revision)
    requires IsContinued(was.active, Version(revision, canonical))
    modifies r`chains, r`cursors, r.active, r.partial
    ensures IsSound(r) && now == Snap(r) && now.active == r.active.records && 1 in now.chains
    ensures now.active == if canonical then map[1 := Version(revision, true)] else map[]
    ensures IsAnswered(was.active, now.active, Version(revision, canonical))
  {
    hide *;
    SoundGives(r);
    ActiveIs(r);
    var problem := TakeIn(r, Version(revision, canonical));
    now := Snap(r);
    ActiveIs(r);
    Took(was, revision, canonical, problem, now);
    CommitAnswers(was, r.manifest, r.jobs, Version(revision, canonical), now);
  }

  lemma Took(was: Snapshot, revision: uint64, canonical: bool, problem: Option<Problem>, now: Snapshot)
    requires IsOpenTo(was, revision) && Answers(was, 0, {}, Version(revision, canonical), problem, now)
    ensures problem.None? && 1 in now.chains
    ensures now.active == if canonical then map[1 := Version(revision, true)] else map[]
  {
  }

  lemma ThreeSteps(s0: Snapshot, s1: Snapshot, s2: Snapshot, s3: Snapshot, past: seq<map<Hash, Capture>>)
    requires past == [s0.active, s1.active, s2.active, s3.active]
    requires IsAnswered(s0.active, s1.active, Version(5, true)) && IsAnswered(s1.active, s2.active, Version(6, false))
    requires IsAnswered(s2.active, s3.active, Version(4, true))
    requires s0.active == map[] && s1.active == map[1 := Version(5, true)] && s3.active == map[1 := Version(4, true)]
    ensures ComesBack(past, s3.active)
  {
  }

  lemma SoundGives(r: Runtime)
    requires IsSound(r)
    ensures IsSteady(r)
  {
  }
}
