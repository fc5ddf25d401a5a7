// Confirmed revisions of captures, and the owner's application of them.

module AcrossRevisions {
  import opened AcrossCaptures
  import opened AcrossCoverage
  import opened AcrossRanges
  import opened AcrossRuntime
  import opened Intervals
  import opened Options

  /** The identity that a confirmed revision must continue. */
  function Known(chains: map<uint64, Chain>, active: map<Hash, Capture>, partial: map<Hash, Capture>,
                 retired: map<Hash, Capture>, c: Capture): Option<Capture>
  {
    if c.id in active then Some(active[c.id])
    else if c.id in partial then Some(partial[c.id])
    else if c.id in retired then Some(retired[c.id])
    else if c.chain in chains && chains[c.chain].anchor.Some? && chains[c.chain].anchor.value.id == c.id then
      chains[c.chain].anchor
    else None
  }

  /** What is known is known under the capture's own identity, and nothing is known only if none
      of the places that are searched has it. */
  lemma KnownIsItself(chains: map<uint64, Chain>, active: map<Hash, Capture>, partial: map<Hash, Capture>,
                      retired: map<Hash, Capture>, c: Capture)
    requires forall id :: id in active ==> active[id].id == id
    requires forall id :: id in partial ==> partial[id].id == id
    requires forall id :: id in retired ==> retired[id].id == id
    ensures var known := Known(chains, active, partial, retired, c);
      && (known.Some? ==> known.value.id == c.id)
      && (c.id in active ==> known == Some(active[c.id]))
      && (known.None? <==>
          && c.id !in active && c.id !in partial && c.id !in retired
          && (c.chain in chains && chains[c.chain].anchor.Some? ==> chains[c.chain].anchor.value.id != c.id))
  {
  }

  predicate SameHashes(before: Capture, c: Capture) {
    before.span.Some? ==>
      c.span.Some? && before.span.value.fromHash == c.span.value.fromHash
          && before.span.value.toHash == c.span.value.toHash
  }

  /** What was finalized stays canonical and finalized. */
  predicate KeepsFinality(before: Capture, c: Capture) {
    before.finality == "finalized" ==> c.canonical && c.finality == "finalized"
  }

  /** A confirmed revision that may continue `before`: it is newer, its predecessor is
      known, and it takes neither finality nor block hashes back. */
  predicate Accepts(before: Capture, expected: uint64, c: Capture) {
    && expected <= before.revision < c.revision && KeepsFinality(before, c) && SameHashes(before, c)
  }

  /** Why a revision does not get that far; `None` for an old or a repeated one, which is
      no error. */
  predicate IsTurnedAway(known: Option<Capture>, expected: uint64, c: Capture, problem: Option<Problem>) {
    match problem
    case Some(UnknownIdentity) => known.None?
    case None => known.Some? && (c.revision < known.value.revision || c == known.value)
    case Some(ContentConflict) => known.Some? && c.revision == known.value.revision && c != known.value
    case Some(PredecessorMissing) => known.Some? && known.value.revision < c.revision && known.value.revision < expected
    case Some(FinalizedConflict) =>
      known.Some? && expected <= known.value.revision < c.revision && !KeepsFinality(known.value, c)
    case Some(AnchorChanged) =>
      && known.Some? && expected <= known.value.revision < c.revision
      && KeepsFinality(known.value, c) && !SameHashes(known.value, c)
    case _ => false
  }

  /** Every raw capture that the state still knows lies inside its chain's bounds. */
  ghost predicate IsBounded(c: Capture, chains: map<uint64, Chain>) {
    c.Raw() ==> c.chain in chains && c.From() <= c.To() && Within(chains[c.chain], Blocks(c))
  }

  ghost predicate AllBounded(chains: map<uint64, Chain>, partial: map<Hash, Capture>, retired: map<Hash, Capture>) {
    && (forall id :: id in partial ==> IsBounded(partial[id], chains))
    && (forall id :: id in retired ==> IsBounded(retired[id], chains))
    && (forall k :: k in chains && chains[k].anchor.Some? ==> IsBounded(chains[k].anchor.value, chains))
  }

  /** Bounds only ever widen. */
  lemma StaysBounded(before: map<uint64, Chain>, after: map<uint64, Chain>, c: Capture, x: Capture)
    requires IsFolded(before, after, c) && InScope(c)
    requires before[c.chain].started ==> before[c.chain].start <= before[c.chain].end < MAX_UINT64
    ensures IsBounded(x, before) ==> IsBounded(x, after)
    ensures IsBounded(c, after)
  {
  }

  lemma CapturedStaysBounded(
    chains: map<uint64, Chain>, active: map<Hash, Capture>, partial: map<Hash, Capture>, retired: map<Hash, Capture>,
    newChains: map<uint64, Chain>, newActive: map<Hash, Capture>, newPartial: map<Hash, Capture>, c: Capture)
    requires IsCaptured(chains, active, partial, newChains, newActive, newPartial, c) && InScope(c)
    requires AllBounded(chains, partial, retired)
    requires chains[c.chain].started ==> chains[c.chain].start <= chains[c.chain].end < MAX_UINT64
    ensures AllBounded(newChains, newPartial, retired) && IsBounded(c, newChains)
  {
    forall x ensures IsBounded(x, chains) ==> IsBounded(x, newChains) {
      StaysBounded(chains, newChains, c, x);
    }
    StaysBounded(chains, newChains, c, c);
    hide IsBounded;
    forall k | k in newChains && newChains[k].anchor.Some? ensures IsBounded(newChains[k].anchor.value, newChains) {
      if k != c.chain {
        assert newChains[k] == chains[k];
      }
    }
  }

  /** When a capture is taken back, the cursor already stands before every block
      that is no longer covered: there is nothing left to rewind. */
  lemma NothingToRewind(ch: Chain, c: Capture, cursor: int, n: nat)
    requires IsCursor(ch, cursor) && c.Anchored() && c.From() <= c.To() && Within(ch, Blocks(c))
    requires IsFirstUncovered(c.From(), c.To(), Elements(ch.currentRaw), n)
    ensures !(n <= c.To() && n > 0 && n <= cursor)
  {
    var first: nat :| first <= ch.end + 1 && IsFirstUncovered(ch.start, ch.end, Elements(ch.currentRaw), first)
      && cursor == if first > 0 then first - 1 else 0;
    if n <= c.To() {
      assert n in Blocks(c);
      assert ch.start <= n <= ch.end && n !in Elements(ch.currentRaw);
      assert first <= n;
    }
  }

  /** The chain of a captured range is one the state knows, with sane bounds. */
  lemma ChainFacts(r: Runtime, k: uint64)
    requires r.Steady() && k in r.chains
    ensures Normal(r.chains[k].currentRaw)
    ensures r.chains[k].started ==>
      r.chains[k].start <= r.chains[k].end < MAX_UINT64 && k in r.cursors && IsCursor(r.chains[k], r.cursors[k])
  {
  }

  /** What the operations of this module may change. */
  datatype Snapshot = Snapshot(chains: map<uint64, Chain>, cursors: map<uint64, int>,
                               active: map<Hash, Capture>, partial: map<Hash, Capture>)

  function Snap(r: Runtime): Snapshot
    reads r`chains, r`cursors, r.active, r.partial
  {
    Snapshot(r.chains, r.cursors, r.active.records, r.partial.records)
  }

  ghost predicate IsTaken(was: Snapshot, now: Snapshot, c: Capture) {
    IsCaptured(was.chains, was.active, was.partial, now.chains, now.active, now.partial, c)
  }

  /** What the state answers to a capture, and what becomes of it. */
  ghost predicate Answers(was: Snapshot, manifest: Hash, jobs: set<Job>, c: Capture, problem: Option<Problem>,
                          now: Snapshot)
  {
    && problem == Refusal(manifest, was.chains, jobs, was.active, c)
    && if problem.Some? || IsStale(was.active, c) then now == was else IsTaken(was, now, c)
  }

  /** Coverage, cursors and bounds are right. */
  ghost predicate IsSteady(r: Runtime)
    reads r, r.active, r.partial
  {
    r.Steady() && AllBounded(r.chains, r.partial.records, r.retired)
  }

  /** Besides, every stored partial capture is open, as recovery demands. */
  ghost predicate IsSound(r: Runtime)
    reads r, r.active, r.partial
  {
    IsSteady(r) && AllOpen(r.partial.records, r.manifest, r.chains)
  }

  predicate IsContinued(active: map<Hash, Capture>, c: Capture) {
    c.id in active ==> active[c.id].Fixed() == c.Fixed()
  }

  /** Under one identity the members never change. */
  predicate IsContinuedIn(s: Snapshot, retired: map<Hash, Capture>, c: Capture) {
    var known := Known(s.chains, s.active, s.partial, retired, c);
    known.Some? ==> known.value.Fixed() == c.Fixed()
  }

  method TakeIn(r: Runtime, c: Capture) returns (problem: Option<Problem>)
    requires IsSteady(r) && IsContinued(r.active.records, c)
    modifies r`chains, r`cursors, r.active, r.partial
    ensures IsSteady(r) && (old(IsSound(r)) ==> IsSound(r))
    ensures Answers(old(Snap(r)), r.manifest, r.jobs, c, problem, Snap(r))
    ensures NoneGoesBack(old(Snap(r)).active, Snap(r).active)
    ensures c.id in old(Snap(r)).active && c.revision < old(Snap(r)).active[c.id].revision ==>
      && Snap(r) == old(Snap(r))
      && (problem.None? <==>
          c.revision != 0 && (c.canonical && c.finality == "finalized" ==> forall j :: j in r.jobs ==> !j.Hits(c)))
  {
    hide *;
    ghost var was := Snap(r);
    SnapShows(r);
    SteadyGives(r, c);
    problem := r.Capture(c);
    SnapShows(r);
    TakenIn(was, Snap(r), r.retired, r.manifest, r.jobs, c, problem);
    SteadyFrom(r);
  }

  lemma SnapShows(r: Runtime)
    ensures Snap(r).chains == r.chains && Snap(r).cursors == r.cursors
    ensures Snap(r).active == r.active.records && Snap(r).partial == r.partial.records
  {
  }

  ghost predicate IsInOrder(ch: Chain) { ch.started ==> ch.start <= ch.end < MAX_UINT64 }

  lemma SteadyGives(r: Runtime, c: Capture)
    requires IsSteady(r) && IsContinued(r.active.records, c)
    ensures r.Steady() && (c.id in r.active.records ==> r.active.records[c.id].Fixed() == c.Fixed())
    ensures IsSound(r) ==> r.Valid()
    ensures AllBounded(r.chains, r.partial.records, r.retired) && (c.chain in r.chains ==> IsInOrder(r.chains[c.chain]))
  {
    if c.chain in r.chains {
      ChainFacts(r, c.chain);
    }
  }

  lemma SteadyFrom(r: Runtime)
    requires r.Steady() && AllBounded(r.chains, r.partial.records, r.retired)
    ensures IsSteady(r) && (r.Valid() ==> IsSound(r))
  {
  }

  lemma TakenIn(was: Snapshot, now: Snapshot, retired: map<Hash, Capture>, manifest: Hash, jobs: set<Job>,
                c: Capture, problem: Option<Problem>)
    requires problem == Refusal(manifest, was.chains, jobs, was.active, c)
    requires problem.Some? || IsStale(was.active, c) ==>
      now.chains == was.chains && now.cursors == was.cursors && now.active == was.active && now.partial == was.partial
    requires problem.None? && !IsStale(was.active, c) ==>
      IsCaptured(was.chains, was.active, was.partial, now.chains, now.active, now.partial, c)
    requires AllBounded(was.chains, was.partial, retired)
    requires c.chain in was.chains ==> IsInOrder(was.chains[c.chain])
    ensures Answers(was, manifest, jobs, c, problem, now) && AllBounded(now.chains, now.partial, retired)
  {
    if problem.None? && !IsStale(was.active, c) {
      CapturedStaysBounded(was.chains, was.active, was.partial, retired, now.chains, now.active, now.partial, c);
    }
  }

  /** Would move the cursor back to the first block that `before` alone covered, if the
      cursor were past it. It never is. */
  method Rewind(r: Runtime, before: Capture)
    requires IsSteady(r) && before.Raw() && IsBounded(before, r.chains)
    modifies r`cursors
    ensures IsSteady(r) && r.cursors == old(r.cursors)
  {
    hide *;
    RewindGives(r, before);
    SteadyParts(r);
    var ch := r.chains[before.chain];
    var n: int := FirstUncovered(before.From(), before.To(), ch.currentRaw);
    NothingToRewind(ch, before, r.cursors[before.chain], n);
    var late := n <= before.To() && n > 0 && n <= r.cursors[before.chain];
    r.cursors := r.cursors[before.chain := if late then n - 1 else r.cursors[before.chain]];
    SteadyFromParts(r);
  }

  lemma SteadyParts(r: Runtime)
    requires IsSteady(r)
    ensures r.Pages() && AllLists(r.manifest, r.chains, r.active.records, r.jobs) && AllCursors(r.chains, r.cursors)
    ensures AllFiled(r.partial.records, r.manifest, r.chains) && AllBounded(r.chains, r.partial.records, r.retired)
  {
  }

  lemma SteadyFromParts(r: Runtime)
    requires r.Pages() && AllLists(r.manifest, r.chains, r.active.records, r.jobs) && AllCursors(r.chains, r.cursors)
    requires AllFiled(r.partial.records, r.manifest, r.chains) && AllBounded(r.chains, r.partial.records, r.retired)
    ensures IsSteady(r)
  {
  }

  lemma RewindGives(r: Runtime, before: Capture)
    requires IsSteady(r) && before.Raw() && IsBounded(before, r.chains)
    ensures before.Anchored() && before.From() <= before.To() && before.chain in r.chains && before.chain in r.cursors
    ensures var ch := r.chains[before.chain];
      Normal(ch.currentRaw) && IsCursor(ch, r.cursors[before.chain]) && Within(ch, Blocks(before))
  {
    ChainFacts(r, before.chain);
    StartedBy(r.chains[before.chain], before);
  }

  lemma StartedBy(ch: Chain, c: Capture)
    requires c.Anchored() && c.From() <= c.To() && Within(ch, Blocks(c))
    ensures ch.started
  {
    assert c.From() as nat in Blocks(c);
  }

  /** The checks before the capture: `take` tells whether it comes to that. */
  method CheckRevision(known: Option<Capture>, expected: uint64, c: Capture)
    returns (problem: Option<Problem>, take: bool)
    ensures take <==> known.Some? && Accepts(known.value, expected, c)
    ensures take ==> problem.None?
    ensures !take ==> IsTurnedAway(known, expected, c, problem)
  {
    problem, take := None, false;
    if known.None? {
      problem := Some(UnknownIdentity);
    } else if c.revision < known.value.revision {
    } else if c.revision == known.value.revision {
      if c != known.value {
        problem := Some(ContentConflict);
      }
    } else if expected > known.value.revision {
      problem := Some(PredecessorMissing);
    } else if known.value.finality == "finalized" && (!c.canonical || c.finality != "finalized") {
      problem := Some(FinalizedConflict);
    } else if !SameHashes(known.value, c) {
      problem := Some(AnchorChanged);
    } else {
      take := true;
    }
  }

  /** A revision that storage confirmed, possibly newer than the proposed one. */
  ghost predicate IsRevised(was: Snapshot, retired: map<Hash, Capture>, manifest: Hash, jobs: set<Job>,
                            expected: uint64, c: Capture, problem: Option<Problem>, now: Snapshot)
  {
    var known := Known(was.chains, was.active, was.partial, retired, c);
    if known.Some? && Accepts(known.value, expected, c) then Answers(was, manifest, jobs, c, problem, now)
    else now == was && IsTurnedAway(known, expected, c, problem)
  }

  method Revise(r: Runtime, expected: uint64, c: Capture) returns (problem: Option<Problem>)
    requires IsSteady(r) && IsContinuedIn(Snap(r), r.retired, c)
    modifies r`chains, r`cursors, r.active, r.partial
    ensures IsSteady(r) && (old(IsSound(r)) ==> IsSound(r))
    ensures IsRevised(old(Snap(r)), r.retired, r.manifest, r.jobs, expected, c, problem, Snap(r))
    ensures NoneGoesBack(old(r.active.records), r.active.records)
    ensures c.id in old(r.active.records) && c.revision < old(r.active.records)[c.id].revision ==>
      problem.None? && Snap(r) == old(Snap(r))
  {
    hide *;
    ghost var was := Snap(r);
    SnapShows(r);
    SameGoesNotBack(was.active);
    if c.id in was.active && c.revision < was.active[c.id].revision {
      OlderIsNotTaken(was, r.retired, expected, c);
    }
    var known := Known(r.chains, r.active.records, r.partial.records, r.retired, c);
    var take;
    problem, take := CheckRevision(known, expected, c);
    if take {
      ReviseGives(r, c);
      problem := TakeIn(r, c);
      SnapShows(r);
      KnownIsBounded(was, r.retired, r.manifest, r.jobs, c, problem, Snap(r));
      if problem.None? && !c.canonical && known.value.Raw() {
        SoundIs(r);
        Rewind(r, known.value);
        SoundIs(r);
        SnapShows(r);
      }
    }
    Revised(was, r.retired, r.manifest, r.jobs, expected, c, problem, Snap(r), take);
  }

  lemma SoundIs(r: Runtime)
    requires IsSteady(r)
    ensures IsSound(r) <==> AllOpen(r.partial.records, r.manifest, r.chains)
  {
  }

  lemma SameGoesNotBack(active: map<Hash, Capture>)
    ensures NoneGoesBack(active, active)
  {
  }

  lemma OlderIsNotTaken(s: Snapshot, retired: map<Hash, Capture>, expected: uint64, c: Capture)
    requires c.id in s.active && c.revision < s.active[c.id].revision
    ensures var known := Known(s.chains, s.active, s.partial, retired, c);
      && known.Some? && !Accepts(known.value, expected, c)
      && forall problem :: IsTurnedAway(known, expected, c, problem) ==> problem.None?
  {
  }

  ghost predicate AllActiveBounded(active: map<Hash, Capture>, chains: map<uint64, Chain>) {
    forall id :: id in active ==> IsBounded(active[id], chains)
  }

  lemma ReviseGives(r: Runtime, c: Capture)
    requires IsSteady(r) && IsContinuedIn(Snap(r), r.retired, c)
    ensures IsContinued(r.active.records, c)
    ensures AllBounded(r.chains, r.partial.records, r.retired) && AllActiveBounded(r.active.records, r.chains)
    ensures c.chain in r.chains ==> IsInOrder(r.chains[c.chain])
  {
    ActiveIsBounded(r.manifest, r.chains, r.active.records, r.jobs);
    hide AllLists, AllFiled, AllCursors, AllActiveBounded;
    if c.chain in r.chains {
      ChainFacts(r, c.chain);
    }
  }

  lemma ActiveIsBounded(manifest: Hash, chains: map<uint64, Chain>, active: map<Hash, Capture>, jobs: set<Job>)
    requires AllLists(manifest, chains, active, jobs)
    ensures AllActiveBounded(active, chains)
  {
    forall id | id in active ensures IsBounded(active[id], chains) {
      assert ActiveOk(active[id], manifest) && BaseOk(chains[active[id].chain], active, jobs, active[id].chain);
    }
  }

  lemma KnownIsBounded(was: Snapshot, retired: map<Hash, Capture>, manifest: Hash, jobs: set<Job>,
                       c: Capture, problem: Option<Problem>, now: Snapshot)
    requires AllBounded(was.chains, was.partial, retired) && AllActiveBounded(was.active, was.chains)
    requires Answers(was, manifest, jobs, c, problem, now) && (c.chain in was.chains ==> IsInOrder(was.chains[c.chain]))
    ensures var known := Known(was.chains, was.active, was.partial, retired, c);
      problem.None? && known.Some? && known.value.Raw() ==> IsBounded(known.value, now.chains)
  {
    var known := Known(was.chains, was.active, was.partial, retired, c);
    if problem.None? && known.Some? && known.value.Raw() && !IsStale(was.active, c) {
      assert IsBounded(known.value, was.chains);
      StaysBounded(was.chains, now.chains, c, known.value);
    }
  }

  lemma Revised(was: Snapshot, retired: map<Hash, Capture>, manifest: Hash, jobs: set<Job>,
                expected: uint64, c: Capture, problem: Option<Problem>, now: Snapshot, take: bool)
    requires var known := Known(was.chains, was.active, was.partial, retired, c);
      && (take <==> known.Some? && Accepts(known.value, expected, c))
      && (take ==> Answers(was, manifest, jobs, c, problem, now))
      && (!take ==> now == was && IsTurnedAway(known, expected, c, problem))
    ensures IsRevised(was, retired, manifest, jobs, expected, c, problem, now)
  {
  }

  /** A revision that changes anything is newer than what was known, takes neither finality
      nor hashes back, and leaves every other active capture as it was. */
  lemma RevisionOnlyAdvances(was: Snapshot, retired: map<Hash, Capture>, manifest: Hash, jobs: set<Job>,
                             expected: uint64, c: Capture, problem: Option<Problem>, now: Snapshot)
    requires IsRevised(was, retired, manifest, jobs, expected, c, problem, now) && now != was
    ensures problem.None?
    ensures var known := Known(was.chains, was.active, was.partial, retired, c);
      && known.Some? && expected <= known.value.revision < c.revision
      && (known.value.finality == "finalized" ==> c.canonical && c.finality == "finalized")
      && (known.value.span.Some? ==>
        && c.span.Some? && c.span.value.fromHash == known.value.span.value.fromHash
        && c.span.value.toHash == known.value.span.value.toHash)
    ensures forall id :: id != c.id ==>
      && (id in was.active <==> id in now.active)
      && (id in was.active ==> now.active[id] == was.active[id])
    ensures c.id in now.active ==> now.active[c.id] == c
    ensures Finalizes(c) ==>
      && c.chain in now.chains
      && (c.Raw() ==> Blocks(c) <= Elements(now.chains[c.chain].raw))
      && (c.Decoded() ==> Blocks(c) <= Elements(now.chains[c.chain].decoded))
  {
    assert IsTaken(was, now, c);
    assert IsPlaced(was.chains[c.chain], now.chains[c.chain], c);
  }

  /** Whatever is newer, follows what is known and takes nothing back, gets as far as the
      capture itself. */
  lemma RevisionIsTaken(was: Snapshot, retired: map<Hash, Capture>, manifest: Hash, jobs: set<Job>, expected: uint64,
                        c: Capture, problem: Option<Problem>, now: Snapshot)
    requires IsRevised(was, retired, manifest, jobs, expected, c, problem, now)
    requires var known := Known(was.chains, was.active, was.partial, retired, c);
      && known.Some? && expected <= known.value.revision < c.revision
      && (known.value.finality != "finalized" || (c.canonical && c.finality == "finalized"))
      && (known.value.span.None? || (c.span.Some? && c.span.value.fromHash == known.value.span.value.fromHash
                                     && c.span.value.toHash == known.value.span.value.toHash))
    ensures Answers(was, manifest, jobs, c, problem, now)
  {
  }
}
