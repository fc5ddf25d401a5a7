// Whole runs: whatever sequence of requests the owner serves, coverage and cursors stay equal
// to their recomputation, no finalized block is lost, and no capture goes back to an older
// revision while it stays active.

module AcrossRuns {
  import opened AcrossCaptures
  import opened AcrossCoverage
  import opened AcrossInvalidation
  import opened AcrossResume
  import opened AcrossRevisions
  import opened AcrossRuntime
  import opened Intervals
  import opened Options

  /** `actual` is what storage holds by then, which may be newer than what was written. */
  datatype Request =
    | Commit(capture: Capture, actual: Option<Capture>)
    | Confirm(expected: uint64, revision: Capture, actual: Option<Capture>)
    | Reorganise(job: Job)
    | Finish(job: Job)

  /** An answer that may stand for what was written. */
  predicate Matches(written: Capture, actual: Capture) {
    actual.Fixed() == written.Fixed() && written.revision <= actual.revision
  }

  /** What storage answered is what was written or a newer form of it, and a confirmation has an
      answer. */
  ghost predicate IsAnsweredRight(q: Request) {
    match q
    case Commit(c, actual) =>
      actual.Some? ==>
        && actual.value.Fixed() == c.Fixed() && !(actual.value.revision < c.revision)
        && (actual.value.revision == c.revision ==> actual.value == c)
    case Confirm(_, written, actual) =>
      actual.Some? && actual.value.Fixed() == written.Fixed() && !(actual.value.revision < written.revision)
    case _ => true
  }

  lemma AnsweredRight(q: Request)
    requires q.Commit? && q.actual.Some? ==>
      && Matches(q.capture, q.actual.value)
      && (q.actual.value.revision == q.capture.revision ==> q.actual.value == q.capture)
    requires q.Confirm? ==> q.actual.Some? && Matches(q.revision, q.actual.value)
    ensures IsAnsweredRight(q)
  {
  }

  /** The captures that a request hands to the state. */
  function AnswersTo(q: Request): seq<Capture> {
    match q
    case Commit(c, actual) =>
      if actual.Some? && c.revision < actual.value.revision then [c, actual.value] else [c]
    case Confirm(_, _, actual) => if actual.Some? then [actual.value] else []
    case _ => []
  }

  function AllAnswers(requests: seq<Request>): seq<Capture> {
    if requests == [] then [] else AllAnswers(requests[..|requests| - 1]) + AnswersTo(requests[|requests| - 1])
  }

  // ------------------------------------------------------- the active captures

  /** What an accepted answer does to the active captures. An older one than the active
      capture changes nothing, a newer one takes its place or ends it. */
  ghost predicate IsAnswered(was: map<Hash, Capture>, now: map<Hash, Capture>, a: Capture) {
    && (forall id :: id != a.id ==> (id in was <==> id in now) && (id in was ==> now[id] == was[id]))
    && (a.id in was && a.revision < was[a.id].revision ==> now == was)
    && (a.id in was && was[a.id].revision < a.revision ==>
        (a.id in now <==> a.canonical && a.Anchored() && a.finality != "finalized"))
    && (a.id in now ==> now[a.id] == if a.id in was && a.revision <= was[a.id].revision then was[a.id] else a)
  }

  /** The sets of active captures, one before each answer and one after the last. */
  ghost predicate IsTrace(past: seq<map<Hash, Capture>>, answers: seq<Capture>, first: map<Hash, Capture>,
                          last: map<Hash, Capture>)
  {
    && |past| == |answers| + 1 && past[0] == first && past[|answers|] == last
    && forall i :: 0 <= i < |answers| ==> IsAnswered(past[i], past[i + 1], answers[i])
  }

  /** While an identity stays active, its capture never gets an older revision, and under
      the same revision it stays the same. */
  lemma {:induction false} ActiveNeverGoesBack(
    past: seq<map<Hash, Capture>>, answers: seq<Capture>, first: map<Hash, Capture>, last: map<Hash, Capture>, i: nat,
    j: nat, id: Hash)
    requires IsTrace(past, answers, first, last) && i <= j < |past| && forall k :: i <= k <= j ==> id in past[k]
    ensures IsNoOlder(past[i][id], past[j][id])
  {
    if i < j {
      ActiveNeverGoesBack(past, answers, first, last, i, j - 1, id);
      assert IsAnswered(past[j - 1], past[j], answers[j - 1]);
      assert id in past[j - 1];
    }
  }

  /** An active capture was active at first or came with an answer. */
  lemma {:induction false} ActiveWasAnswered(
    past: seq<map<Hash, Capture>>, answers: seq<Capture>, first: map<Hash, Capture>, last: map<Hash, Capture>, n: nat,
    id: Hash)
    requires IsTrace(past, answers, first, last) && n < |past| && id in past[n]
    ensures (id in first && past[n][id] == first[id]) || (past[n][id] in answers && past[n][id].id == id)
  {
    if n > 0 {
      assert IsAnswered(past[n - 1], past[n], answers[n - 1]);
      if id in past[n - 1] {
        ActiveWasAnswered(past, answers, first, last, n - 1, id);
      }
    }
  }

  /** None of the answers is older than the capture that was active at first. */
  ghost predicate NoneIsOlder(was: map<Hash, Capture>, answers: seq<Capture>) {
    forall a :: a in answers && a.id in was ==> IsNoOlder(was[a.id], a)
  }

  /** So over a whole run nothing goes back if no answer is older than what was active at
      first; otherwise a capture may leave and come back as it was before. */
  lemma RunNeverGoesBack(past: seq<map<Hash, Capture>>, answers: seq<Capture>, first: map<Hash, Capture>,
                         last: map<Hash, Capture>)
    requires IsTrace(past, answers, first, last) && NoneIsOlder(first, answers)
    ensures NoneGoesBack(first, last)
  {
    forall id | id in first && id in last ensures IsNoOlder(first[id], last[id]) {
      ActiveWasAnswered(past, answers, first, last, |answers|, id);
    }
  }

  lemma TracesJoin(past: seq<map<Hash, Capture>>, answers: seq<Capture>, first: map<Hash, Capture>,
                   middle: map<Hash, Capture>, later: seq<map<Hash, Capture>>, more: seq<Capture>,
                   last: map<Hash, Capture>)
    requires IsTrace(past, answers, first, middle) && IsTrace(later, more, middle, last)
    ensures |later| > 0 && IsTrace(past + later[1..], answers + more, first, last)
  {
    var p, a := past + later[1..], answers + more;
    forall i | 0 <= i < |a| ensures IsAnswered(p[i], p[i + 1], a[i]) {
      if |answers| <= i {
        assert IsAnswered(later[i - |answers|], later[i - |answers| + 1], more[i - |answers|]);
      } else {
        assert IsAnswered(past[i], past[i + 1], answers[i]);
      }
    }
  }

  // ------------------------------------------------------- the failing requests

  ghost predicate CommitFails(s: Snapshot, manifest: Hash, jobs: set<Job>, c: Capture) {
    !IsContinued(s.active, c) || Refusal(manifest, s.chains, jobs, s.active, c).Some?
  }

  ghost predicate ConfirmFails(s: Snapshot, retired: map<Hash, Capture>, manifest: Hash, jobs: set<Job>,
                               expected: uint64, c: Capture)
  {
    || !IsContinuedIn(s, retired, c)
    || exists problem: Option<Problem> :: problem.Some?
        && IsRevised(s, retired, manifest, jobs, expected, c, problem, s)
  }

  /** A batch can also fail after its own capture was taken in. */
  ghost predicate Fails(s: Snapshot, retired: map<Hash, Capture>, manifest: Hash, jobs: set<Job>, q: Request) {
    match q
    case Commit(c, actual) =>
      || CommitFails(s, manifest, jobs, c)
      || (actual.Some? && !Matches(c, actual.value))
      || (actual.Some? && actual.value.revision == c.revision && actual.value != c)
      || (actual.Some? && c.revision < actual.value.revision
          && ConfirmFails(s, retired, manifest, jobs, c.revision, actual.value))
    case Confirm(expected, revision, actual) =>
      || actual.None? || !Matches(revision, actual.value)
      || ConfirmFails(s, retired, manifest, jobs, expected, actual.value)
    case Reorganise(job) => job.chain !in s.chains || !BelowAll(s.chains[job.chain], job.bad)
    case Finish(_) => false
  }

  /** With right answers a request fails only for what the state holds. */
  lemma FailsForAReason(s: Snapshot, retired: map<Hash, Capture>, manifest: Hash, jobs: set<Job>, q: Request)
    requires Fails(s, retired, manifest, jobs, q) && IsAnsweredRight(q)
    ensures match q
      case Commit(c, actual) =>
        || CommitFails(s, manifest, jobs, c)
        || (actual.Some? && c.revision < actual.value.revision
            && ConfirmFails(s, retired, manifest, jobs, c.revision, actual.value))
      case Confirm(expected, _, actual) => ConfirmFails(s, retired, manifest, jobs, expected, actual.value)
      case Reorganise(job) => job.chain !in s.chains || !BelowAll(s.chains[job.chain], job.bad)
      case Finish(_) => false
  {
    hide CommitFails, ConfirmFails;
  }

  lemma CommitAnswers(was: Snapshot, manifest: Hash, jobs: set<Job>, c: Capture, now: Snapshot)
    requires Answers(was, manifest, jobs, c, None, now)
    ensures IsAnswered(was.active, now.active, c)
  {
  }

  lemma ConfirmAnswers(was: Snapshot, retired: map<Hash, Capture>, manifest: Hash, jobs: set<Job>, expected: uint64,
                       c: Capture, now: Snapshot)
    requires IsRevised(was, retired, manifest, jobs, expected, c, None, now)
    ensures IsAnswered(was.active, now.active, c)
  {
    if now != was {
      CommitAnswers(was, manifest, jobs, c, now);
    }
  }

  // ------------------------------------------------------- what the requests keep

  /** The newest form of a capture that the owner keeps lies inside its chain's bounds. */
  lemma KeptIsBounded(was: Snapshot, manifest: Hash, jobs: set<Job>, c: Capture, now: Snapshot)
    requires Answers(was, manifest, jobs, c, None, now) && IsContinued(was.active, c)
    requires AllActiveCanonical(was.active) && AllActiveBounded(was.active, was.chains)
    requires c.chain in was.chains ==> IsInOrder(was.chains[c.chain])
    ensures IsBounded(c, now.chains)
  {
    if IsStale(was.active, c) {
      SameFixed(was.active[c.id], c, jobs);
      assert IsBounded(was.active[c.id], was.chains);
    } else {
      StaysBounded(was.chains, now.chains, c, c);
    }
  }

  ghost predicate AllActiveCanonical(active: map<Hash, Capture>) { forall id :: id in active ==> active[id].canonical }

  lemma CommitGives(r: Runtime, c: Capture)
    requires IsSteady(r)
    ensures AllActiveCanonical(r.active.records) && AllActiveBounded(r.active.records, r.chains)
    ensures c.chain in r.chains ==> IsInOrder(r.chains[c.chain])
  {
    if c.chain in r.chains {
      ChainFacts(r, c.chain);
    }
    forall id | id in r.active.records ensures IsBounded(r.active.records[id], r.chains) {
      ChainOk(r.manifest, r.chains, r.active.records, r.jobs, r.active.records[id].chain);
    }
  }

  lemma AnsweredKeeps(was: Snapshot, manifest: Hash, jobs: set<Job>, c: Capture, problem: Option<Problem>,
                      now: Snapshot)
    requires Answers(was, manifest, jobs, c, problem, now)
    ensures KeepsFinalized(was.chains, now.chains)
  {
    hide Refusal, KeepsFinalized;
    if now == was {
      FinalizedIsKept(was.chains);
    } else {
      TakenKeeps(was, now, c);
    }
  }

  lemma FinalizedIsKept(chains: map<uint64, Chain>)
    ensures KeepsFinalized(chains, chains)
  {
  }

  lemma RevisedKeeps(was: Snapshot, retired: map<Hash, Capture>, manifest: Hash, jobs: set<Job>, expected: uint64,
                     c: Capture, problem: Option<Problem>, now: Snapshot)
    requires IsRevised(was, retired, manifest, jobs, expected, c, problem, now)
    ensures KeepsFinalized(was.chains, now.chains)
  {
    if now == was {
      FinalizedIsKept(was.chains);
    } else {
      AnsweredKeeps(was, manifest, jobs, c, problem, now);
    }
  }

  lemma ListsKeep(was: map<uint64, Chain>, now: map<uint64, Chain>, k: uint64)
    requires OnlyLists(was, now, k)
    ensures KeepsFinalized(was, now)
  {
  }

  lemma SameKeeps(was: map<uint64, Chain>, now: map<uint64, Chain>)
    requires SameFinalized(was, now)
    ensures KeepsFinalized(was, now)
  {
  }

  /** A committed capture. One that changes the members of a known identity is turned away;
      otherwise the owner keeps its newest form. */
  method ServeCommit(r: Runtime, c: Capture) returns (ok: bool)
    requires IsSteady(r)
    modifies r`chains, r`cursors, r`retired, r.active, r.partial
    ensures IsSteady(r) && (old(IsSound(r)) ==> IsSound(r)) && KeepsFinalized(old(r.chains), r.chains)
    ensures if ok then IsAnswered(old(r.active.records), r.active.records, c)
      else r.active.records == old(r.active.records)
    ensures r.retired == if ok then old(r.retired)[c.id := c] else old(r.retired)
    ensures !ok ==> Snap(r) == old(Snap(r)) && CommitFails(Snap(r), r.manifest, r.jobs, c)
  {
    hide *;
    ghost var was := Snap(r);
    SnapShows(r);
    FinalizedIsKept(r.chains);
    ok := false;
    if !IsContinued(r.active.records, c) {
      AnotherCapture(was, r.manifest, r.jobs, c);
    } else {
      CommitGives(r, c);
      var problem := TakeIn(r, c);
      SnapShows(r);
      AnsweredKeeps(was, r.manifest, r.jobs, c, problem, Snap(r));
      ok := problem.None?;
      if ok {
        KeptIsBounded(was, r.manifest, r.jobs, c, Snap(r));
        CommitAnswers(was, r.manifest, r.jobs, c, Snap(r));
        Retire(r, c);
      } else {
        RefusedIsSame(was, r.manifest, r.jobs, c, problem, Snap(r));
      }
    }
  }

  lemma RefusedIsSame(was: Snapshot, manifest: Hash, jobs: set<Job>, c: Capture, problem: Option<Problem>,
                      now: Snapshot)
    requires Answers(was, manifest, jobs, c, problem, now) && problem.Some?
    ensures now == was && CommitFails(now, manifest, jobs, c)
  {
  }

  lemma AnotherCapture(s: Snapshot, manifest: Hash, jobs: set<Job>, c: Capture)
    requires !IsContinued(s.active, c)
    ensures CommitFails(s, manifest, jobs, c)
  {
  }

  lemma UnrevisedIsSame(was: Snapshot, retired: map<Hash, Capture>, manifest: Hash, jobs: set<Job>, expected: uint64,
                        c: Capture, problem: Option<Problem>, now: Snapshot)
    requires IsRevised(was, retired, manifest, jobs, expected, c, problem, now) && problem.Some?
    ensures now == was && ConfirmFails(now, retired, manifest, jobs, expected, c)
  {
  }

  lemma AnotherIdentity(s: Snapshot, retired: map<Hash, Capture>, manifest: Hash, jobs: set<Job>, expected: uint64,
                        c: Capture)
    requires var known := Known(s.chains, s.active, s.partial, retired, c);
      known.Some? && known.value.Fixed() != c.Fixed()
    ensures ConfirmFails(s, retired, manifest, jobs, expected, c)
  {
  }

  method ServeConfirm(r: Runtime, expected: uint64, c: Capture) returns (ok: bool)
    requires IsSteady(r)
    modifies r`chains, r`cursors, r`retired, r.active, r.partial
    ensures IsSteady(r) && (old(IsSound(r)) ==> IsSound(r)) && KeepsFinalized(old(r.chains), r.chains)
    ensures if ok then IsAnswered(old(r.active.records), r.active.records, c)
      else r.active.records == old(r.active.records)
    ensures r.retired == if ok then RetiredAfter(old(Snap(r)), old(r.retired), expected, c) else old(r.retired)
    ensures !ok ==> Snap(r) == old(Snap(r)) && ConfirmFails(Snap(r), r.retired, r.manifest, r.jobs, expected, c)
  {
    hide *;
    ghost var was := Snap(r);
    SnapShows(r);
    FinalizedIsKept(r.chains);
    ok := false;
    var known := Known(r.chains, r.active.records, r.partial.records, r.retired, c);
    if known.None? || known.value.Fixed() == c.Fixed() {
      Continued(was, r.retired, c);
      CommitGives(r, c);
      var problem := Revise(r, expected, c);
      SnapShows(r);
      RevisedKeeps(was, r.retired, r.manifest, r.jobs, expected, c, problem, Snap(r));
      ok := problem.None?;
      Refiled(was, r.retired, expected, c);
      if ok {
        ConfirmAnswers(was, r.retired, r.manifest, r.jobs, expected, c, Snap(r));
      } else {
        UnrevisedIsSame(was, r.retired, r.manifest, r.jobs, expected, c, problem, Snap(r));
      }
      if ok && known.Some? && Accepts(known.value, expected, c) {
        Accepted(was, r.retired, r.manifest, r.jobs, expected, c, Snap(r));
        KeptIsBounded(was, r.manifest, r.jobs, c, Snap(r));
        Retire(r, c);
      }
    } else {
      AnotherIdentity(was, r.retired, r.manifest, r.jobs, expected, c);
    }
  }

  /** An accepted revision becomes the newest known form. */
  function RetiredAfter(s: Snapshot, retired: map<Hash, Capture>, expected: uint64, c: Capture): map<Hash, Capture> {
    var known := Known(s.chains, s.active, s.partial, retired, c);
    if known.Some? && Accepts(known.value, expected, c) then retired[c.id := c] else retired
  }

  lemma Refiled(s: Snapshot, retired: map<Hash, Capture>, expected: uint64, c: Capture)
    ensures var known := Known(s.chains, s.active, s.partial, retired, c);
      RetiredAfter(s, retired, expected, c) ==
      if known.Some? && Accepts(known.value, expected, c) then retired[c.id := c] else retired
  {
  }

  lemma Continued(s: Snapshot, retired: map<Hash, Capture>, c: Capture)
    requires var known := Known(s.chains, s.active, s.partial, retired, c);
      known.None? || known.value.Fixed() == c.Fixed()
    ensures IsContinuedIn(s, retired, c)
  {
  }

  lemma Accepted(was: Snapshot, retired: map<Hash, Capture>, manifest: Hash, jobs: set<Job>, expected: uint64,
                 c: Capture,
                 now: Snapshot)
    requires IsRevised(was, retired, manifest, jobs, expected, c, None, now) && IsContinuedIn(was, retired, c)
    requires var known := Known(was.chains, was.active, was.partial, retired, c);
      known.Some? && Accepts(known.value, expected, c)
    ensures Answers(was, manifest, jobs, c, None, now) && IsContinued(was.active, c)
  {
  }

  /** Every recorded job is one of a known chain. */
  ghost predicate AreKnown(jobs: set<Job>, chains: map<uint64, Chain>) { forall j :: j in jobs ==> j.chain in chains }

  lemma StayKnown(jobs: set<Job>, was: map<uint64, Chain>, now: map<uint64, Chain>)
    requires AreKnown(jobs, was) && KeepsFinalized(was, now)
    ensures AreKnown(jobs, now)
  {
  }

  method ServeReorganise(r: Runtime, job: Job) returns (ok: bool)
    requires IsSteady(r) && AreKnown(r.jobs, r.chains)
    modifies r`chains, r`cursors, r`jobs
    ensures IsSteady(r) && (old(IsSound(r)) ==> IsSound(r)) && KeepsFinalized(old(r.chains), r.chains)
    ensures AreKnown(r.jobs, r.chains) && r.jobs == if ok then old(r.jobs) + {job} else old(r.jobs)
    ensures !ok ==> Fails(Snap(r), r.retired, r.manifest, r.jobs, Reorganise(job))
  {
    hide *;
    ghost var was, jobs := r.chains, r.jobs;
    FinalizedIsKept(r.chains);
    var problem := Mark(r, job);
    ok := problem.None?;
    if ok {
      ListsKeep(was, r.chains, job.chain);
      StayKnown(jobs, was, r.chains);
      OneMoreKnown(jobs, job, was, r.chains);
    } else {
      SnapShows(r);
      BadHeight(Snap(r), r.retired, r.manifest, r.jobs, job);
    }
  }

  lemma BadHeight(s: Snapshot, retired: map<Hash, Capture>, manifest: Hash, jobs: set<Job>, job: Job)
    requires job.chain !in s.chains || !BelowAll(s.chains[job.chain], job.bad)
    ensures Fails(s, retired, manifest, jobs, Reorganise(job))
  {
  }

  lemma OneMoreKnown(jobs: set<Job>, job: Job, was: map<uint64, Chain>, now: map<uint64, Chain>)
    requires AreKnown(jobs, now) && OnlyLists(was, now, job.chain)
    ensures AreKnown(jobs + {job}, now)
  {
  }

  method ServeFinish(r: Runtime, job: Job)
    requires IsSteady(r) && AreKnown(r.jobs, r.chains)
    modifies r`chains, r`cursors, r`jobs
    ensures IsSteady(r) && KeepsFinalized(old(r.chains), r.chains) && AreKnown(r.jobs, r.chains)
    ensures r.jobs == old(r.jobs) - {job}
  {
    hide *;
    ghost var was, jobs := r.chains, r.jobs;
    FinalizedIsKept(r.chains);
    if job in r.jobs {
      KnownAt(r.jobs, r.chains, job);
      Clear(r, job);
      SameKeeps(was, r.chains);
      StayKnown(jobs, was, r.chains);
      OneLessKnown(jobs, job, r.chains);
    }
  }

  lemma KnownAt(jobs: set<Job>, chains: map<uint64, Chain>, job: Job)
    requires AreKnown(jobs, chains) && job in jobs
    ensures job.chain in chains
  {
  }

  lemma OneLessKnown(jobs: set<Job>, job: Job, chains: map<uint64, Chain>)
    requires AreKnown(jobs, chains)
    ensures AreKnown(jobs - {job}, chains)
  {
  }

  /** A batch, and after it the newer form that storage already holds. */
  method ServeBatch(r: Runtime, c: Capture, actual: Option<Capture>)
    returns (ok: bool, ghost answers: seq<Capture>, ghost past: seq<map<Hash, Capture>>)
    requires IsSteady(r)
    modifies r`chains, r`cursors, r`retired, r.active, r.partial
    ensures IsSteady(r) && (old(IsSound(r)) ==> IsSound(r)) && KeepsFinalized(old(r.chains), r.chains)
    ensures IsTrace(past, answers, old(r.active.records), r.active.records)
    ensures answers <= AnswersTo(Commit(c, actual)) && (ok ==> answers == AnswersTo(Commit(c, actual)))
    ensures !ok ==> Fails(Snap(r), r.retired, r.manifest, r.jobs, Commit(c, actual))
    ensures ok ==> IsAnsweredRight(Commit(c, actual))
  {
    hide *;
    ghost var was, first := r.chains, r.active.records;
    FinalizedIsKept(was);
    answers, past, ok := [], [first], false;
    NothingAnswered(first);
    BatchFails(Snap(r), r.retired, r.manifest, r.jobs, c, actual);
    if actual.None? || (Matches(c, actual.value) && (actual.value.revision == c.revision ==> actual.value == c)) {
      AnsweredRight(Commit(c, actual));
      ok := ServeCommit(r, c);
      BatchFails(Snap(r), r.retired, r.manifest, r.jobs, c, actual);
      if ok {
        ghost var now, middle := r.chains, r.active.records;
        OneAnswered(first, middle, c);
        answers, past := [c], [first, middle];
        BatchAnswers(c, actual);
        if actual.Some? && c.revision < actual.value.revision {
          ok := ServeConfirm(r, c.revision, actual.value);
          BatchFails(Snap(r), r.retired, r.manifest, r.jobs, c, actual);
          FinalizedTwice(was, now, r.chains);
          if ok {
            OneAnswered(middle, r.active.records, actual.value);
            ghost var later := [middle, r.active.records];
            TracesJoin(past, answers, first, middle, later, [actual.value], r.active.records);
            answers, past := answers + [actual.value], past + later[1..];
          }
        }
      }
    }
  }

  lemma NothingAnswered(active: map<Hash, Capture>)
    ensures IsTrace([active], [], active, active)
  {
  }

  lemma OneAnswered(was: map<Hash, Capture>, now: map<Hash, Capture>, a: Capture)
    requires IsAnswered(was, now, a)
    ensures IsTrace([was, now], [a], was, now)
  {
  }

  lemma BatchFails(s: Snapshot, retired: map<Hash, Capture>, manifest: Hash, jobs: set<Job>, c: Capture,
                   actual: Option<Capture>)
    ensures CommitFails(s, manifest, jobs, c) ==> Fails(s, retired, manifest, jobs, Commit(c, actual))
    ensures actual.Some? && !Matches(c, actual.value) ==> Fails(s, retired, manifest, jobs, Commit(c, actual))
    ensures actual.Some? && actual.value.revision == c.revision && actual.value != c ==>
      Fails(s, retired, manifest, jobs, Commit(c, actual))
    ensures actual.Some? && c.revision < actual.value.revision ==>
      ConfirmFails(s, retired, manifest, jobs, c.revision, actual.value) ==>
        Fails(s, retired, manifest, jobs, Commit(c, actual))
  {
  }

  lemma BatchAnswers(c: Capture, actual: Option<Capture>)
    ensures [c] <= AnswersTo(Commit(c, actual))
    ensures actual.Some? && c.revision < actual.value.revision ==>
      AnswersTo(Commit(c, actual)) == [c] + [actual.value]
    ensures !(actual.Some? && c.revision < actual.value.revision) ==> AnswersTo(Commit(c, actual)) == [c]
  {
  }

  method ServeOne(r: Runtime, q: Request)
    returns (ok: bool, ghost answers: seq<Capture>, ghost past: seq<map<Hash, Capture>>)
    requires IsSteady(r) && AreKnown(r.jobs, r.chains)
    modifies r`chains, r`cursors, r`jobs, r`retired, r.active, r.partial
    ensures IsSteady(r) && AreKnown(r.jobs, r.chains) && KeepsFinalized(old(r.chains), r.chains)
    ensures old(IsSound(r)) && !q.Finish? ==> IsSound(r)
    ensures IsTrace(past, answers, old(r.active.records), r.active.records)
    ensures answers <= AnswersTo(q) && (ok ==> answers == AnswersTo(q))
    ensures !ok ==> Fails(Snap(r), r.retired, r.manifest, r.jobs, q)
    ensures ok ==> IsAnsweredRight(q)
  {
    hide *;
    ghost var was, jobs, first := r.chains, r.jobs, r.active.records;
    FinalizedIsKept(was);
    StayKnown(jobs, was, was);
    answers, past, ok := [], [first], false;
    NothingAnswered(first);
    match q {
      case Commit(c, actual) =>
        ok, answers, past := ServeBatch(r, c, actual);
        StayKnown(jobs, was, r.chains);
      case Confirm(expected, revision, actual) =>
        Unconfirmed(Snap(r), r.retired, r.manifest, r.jobs, q);
        if actual.Some? && Matches(revision, actual.value) {
          AnsweredRight(q);
          ok := ServeConfirm(r, expected, actual.value);
          Unconfirmed(Snap(r), r.retired, r.manifest, r.jobs, q);
          StayKnown(jobs, was, r.chains);
          if ok {
            OneAnswered(first, r.active.records, actual.value);
            ConfirmHands(expected, revision, actual.value);
            answers, past := [actual.value], [first, r.active.records];
          }
        }
      case Reorganise(job) =>
        AnsweredRight(q);
        ok := ServeReorganise(r, job);
        NothingHanded(q);
      case Finish(job) =>
        AnsweredRight(q);
        ServeFinish(r, job);
        ok := true;
        NothingHanded(q);
    }
  }

  lemma Unconfirmed(s: Snapshot, retired: map<Hash, Capture>, manifest: Hash, jobs: set<Job>, q: Request)
    requires q.Confirm?
    ensures q.actual.None? || !Matches(q.revision, q.actual.value) ==> Fails(s, retired, manifest, jobs, q)
    ensures q.actual.Some? && ConfirmFails(s, retired, manifest, jobs, q.expected, q.actual.value) ==>
      Fails(s, retired, manifest, jobs, q)
  {
  }

  lemma ConfirmHands(expected: uint64, revision: Capture, actual: Capture)
    ensures AnswersTo(Confirm(expected, revision, Some(actual))) == [actual]
  {
  }

  lemma NothingHanded(q: Request)
    requires q.Reorganise? || q.Finish?
    ensures AnswersTo(q) == []
  {
  }

  /** Every sequence of requests, in particular every interleaving of the steps that work off
      a reorganisation with captures that arrive meanwhile; the first one that fails ends it.
      Only the end of a job can take soundness away. */
  method Serve(r: Runtime, requests: seq<Request>)
    returns (served: nat, ghost answers: seq<Capture>, ghost past: seq<map<Hash, Capture>>)
    requires IsSteady(r) && AreKnown(r.jobs, r.chains)
    modifies r`chains, r`cursors, r`jobs, r`retired, r.active, r.partial
    ensures served <= |requests|
    ensures forall i :: 0 <= i < served ==> IsAnsweredRight(requests[i])
    ensures served < |requests| ==> Fails(Snap(r), r.retired, r.manifest, r.jobs, requests[served])
    ensures IsSteady(r) && AreKnown(r.jobs, r.chains) && KeepsFinalized(old(r.chains), r.chains)
    ensures old(IsSound(r)) && (forall q :: q in requests ==> !q.Finish?) ==> IsSound(r)
    ensures IsTrace(past, answers, old(r.active.records), r.active.records)
    ensures AllAnswers(requests[..served]) <= answers <= AllAnswers(requests)
    ensures NoneIsOlder(old(r.active.records), AllAnswers(requests)) ==>
      NoneGoesBack(old(r.active.records), r.active.records)
  {
    hide *;
    ghost var first := r.active.records;
    FinalizedIsKept(r.chains);
    answers, past, served := [], [first], 0;
    var ok := true;
    NothingAnswered(first);
    AllFrom(requests, 0);
    while ok && served < |requests|
      invariant served <= |requests| && forall i :: 0 <= i < served ==> IsAnsweredRight(requests[i])
      invariant !ok ==> served < |requests| && Fails(Snap(r), r.retired, r.manifest, r.jobs, requests[served])
      invariant IsSteady(r) && AreKnown(r.jobs, r.chains) && KeepsFinalized(old(r.chains), r.chains)
      invariant old(IsSound(r)) && (forall q :: q in requests ==> !q.Finish?) ==> IsSound(r)
      invariant IsTrace(past, answers, first, r.active.records)
      invariant AllAnswers(requests[..served]) <= answers <= AllAnswers(requests)
      invariant ok ==> answers == AllAnswers(requests[..served])
      decreases |requests| - served, ok
    {
      ghost var was, middle := r.chains, r.active.records;
      assert requests[served] in requests;
      ghost var more, later;
      ok, more, later := ServeOne(r, requests[served]);
      FinalizedTwice(old(r.chains), was, r.chains);
      AllFrom(requests, served);
      AllFrom(requests, served + 1);
      TracesJoin(past, answers, first, middle, later, more, r.active.records);
      answers, past := answers + more, past + later[1..];
      if ok {
        served := served + 1;
      }
    }
    if NoneIsOlder(first, AllAnswers(requests)) {
      FewerAreNoOlder(first, answers, AllAnswers(requests));
      RunNeverGoesBack(past, answers, first, r.active.records);
    }
  }

  /** The answers to a longer beginning are those to a shorter one and more. */
  lemma {:induction false} AllFrom(requests: seq<Request>, i: nat)
    requires i <= |requests|
    ensures AllAnswers(requests[..i]) <= AllAnswers(requests)
    ensures i == 0 ==> AllAnswers(requests[..i]) == []
    ensures i < |requests| ==> AllAnswers(requests[..i + 1]) == AllAnswers(requests[..i]) + AnswersTo(requests[i])
    decreases |requests| - i
  {
    if i == |requests| {
      assert requests[..i] == requests;
    } else {
      assert requests[..i + 1][..i] == requests[..i];
      AllFrom(requests, i + 1);
    }
  }

  lemma FewerAreNoOlder(was: map<Hash, Capture>, some: seq<Capture>, answers: seq<Capture>)
    requires NoneIsOlder(was, answers) && some <= answers
    ensures NoneIsOlder(was, some)
  {
  }
}
