// The keeper's checkpoint on disk: a primary file that names two content-addressed
// caches. A save writes the changed caches, then the primary file, then prunes.

module Checkpoint {
  import opened Options

  datatype Result<T> = Ok(value: T) | Err(error: Fault)

  datatype Fault = Missing | BadReference | BadChecksum | Corrupt | BadVersion

  datatype Scheduler = Scheduler(version: nat, rest: nat)

  datatype State = State(rest: nat, candidates: seq<nat>, scheduler: Option<Scheduler>)

  /** What the primary file holds: the state without its cached parts. */
  datatype Record = Record(state: State, candidateHash: Digest, schedulerHash: Option<Digest>)

  /** The bytes of a file. The encoder may write one value in several forms. */
  datatype Body = Cold(candidates: seq<nat>, form: nat) | Timed(scheduler: Scheduler, form: nat)
                | Commit(record: Record, form: nat) | Plain(state: State) | Junk(bytes: nat)

  /** A digest stands for exactly one content. */
  datatype Digest = Digest(of: Body)

  datatype Name =
    | Primary(path: nat)
    | CandidateCache(path: nat, digest: Digest)
    | SchedulerCache(path: nat, digest: Digest)
    | OtherFile(id: nat)

  type Files = map<Name, Body>

  // ------------------------------------------------------------------ restoring

  function Decode(f: Files, path: nat): Result<State> {
    if Primary(path) !in f then Err(Missing)
    else match f[Primary(path)]
      case Plain(s) => Ok(s)
      case Commit(record, _) => DecodeRecord(f, path, record)
      case _ => Err(Corrupt)
  }

  function DecodeRecord(f: Files, path: nat, record: Record): Result<State> {
    var cold := CandidateCache(path, record.candidateHash);
    if record.state.candidates != [] then Err(BadReference)
    else if cold !in f then Err(Missing)
    else if Digest(f[cold]) != record.candidateHash then Err(BadChecksum)
    else if !f[cold].Cold? then Err(Corrupt)
    else if record.state.scheduler.Some? then Err(BadReference)
    else if record.schedulerHash.None? then Ok(record.state.(candidates := f[cold].candidates))
    else
      var timed := SchedulerCache(path, record.schedulerHash.value);
      if timed !in f then Err(Missing)
      else if Digest(f[timed]) != record.schedulerHash.value then Err(BadChecksum)
      else if !f[timed].Timed? then Err(Corrupt)
      else if f[timed].scheduler.version != 1 then Err(BadVersion)
      else Ok(record.state.(candidates := f[cold].candidates, scheduler := Some(f[timed].scheduler)))
  }

  /** What a saved state is restored as. */
  function Restored(s: State): Result<State> {
    if s.scheduler.Some? && s.scheduler.value.version != 1 then Err(BadVersion) else Ok(s)
  }

  // --------------------------------------------------------- one point in time

  function Lookup(f: Files, n: Name): Option<Body> { if n in f then Some(f[n]) else None }

  /** The primary file is still the former one and restores as it did, or the new
      state is restored. */
  ghost predicate IsSafe(f: Files, before: Files, path: nat, s: State) {
    || Decode(f, path) == Restored(s)
    || (&& Lookup(f, Primary(path)) == Lookup(before, Primary(path))
        && (Decode(before, path).Ok? ==> Decode(f, path) == Decode(before, path)))
  }

  /** Nothing but the files of this checkpoint was touched. */
  ghost predicate IsLocal(f: Files, before: Files, path: nat) {
    forall n :: !IsOf(n, path) ==> Lookup(f, n) == Lookup(before, n)
  }

  predicate IsOf(n: Name, path: nat) { !n.OtherFile? && n.path == path }

  /** The record names these caches, and they hold these parts of the state. */
  ghost predicate Names(record: Record, f: Files, path: nat, s: State) {
    && record.state == s.(candidates := [], scheduler := None)
    && record.candidateHash.of.Cold? && record.candidateHash.of.candidates == s.candidates
    && Lookup(f, CandidateCache(path, record.candidateHash)) == Some(record.candidateHash.of)
    && record.schedulerHash.Some? == s.scheduler.Some?
    && (record.schedulerHash.Some? ==>
      && record.schedulerHash.value.of.Timed? && record.schedulerHash.value.of.scheduler == s.scheduler.value
      && Lookup(f, SchedulerCache(path, record.schedulerHash.value)) == Some(record.schedulerHash.value.of))
  }

  /** A checkpoint whose caches are missing or altered is refused, never guessed. */
  lemma OnlyIntactCachesAreRead(f: Files, path: nat, record: Record, form: nat)
    requires Lookup(f, Primary(path)) == Some(Commit(record, form)) && Decode(f, path).Ok?
    ensures Names(record, f, path, Decode(f, path).value)
  {
  }

  /** A cache under its own digest leaves what is restored alone. */
  lemma CacheIsHarmless(f: Files, path: nat, n: Name, body: Body)
    requires n == CandidateCache(path, Digest(body)) || n == SchedulerCache(path, Digest(body))
    requires Decode(f, path).Ok?
    ensures Decode(f[n := body], path) == Decode(f, path)
  {
  }

  // -------------------------------------------------------------------- the disk

  /** A directory whose operations may fail, before or after they took effect. */
  class Disk {
    var files: Files
    /** Every content the directory has had: a crash leaves one of them. */
    ghost var history: seq<Files>

    constructor (files: Files)
      ensures this.files == files && history == [files] && Valid()
    {
      this.files, history := files, [files];
    }

    ghost predicate Valid()
      reads this
    {
      history != [] && history[|history| - 1] == files
    }

    method Write(n: Name, body: Body) returns (ok: bool)
      modifies this
      ensures files == old(files)[n := body] || (!ok && files == old(files))
      ensures history == old(history) + [files] && Valid()
    {
      ok := *;
      var lands: bool := *;
      if ok || lands {
        files := files[n := body];
      }
      history := history + [files];
    }

    method Remove(n: Name) returns (ok: bool)
      modifies this
      ensures files == old(files) - {n} || (!ok && files == old(files))
      ensures history == old(history) + [files] && Valid()
    {
      ok := *;
      var lands: bool := *;
      if ok || lands {
        files := files - {n};
      }
      history := history + [files];
    }
  }

  /** Whatever the directory held from some point on was safe. */
  ghost predicate AllSafe(past: seq<Files>, history: seq<Files>, before: Files, path: nat, s: State) {
    && past <= history
    && forall k :: |past| <= k < |history| ==> IsSafe(history[k], before, path, s) && IsLocal(history[k], before, path)
  }

  lemma OneMoreSafe(past: seq<Files>, history: seq<Files>, before: Files, path: nat, s: State, f: Files)
    requires AllSafe(past, history, before, path, s) && IsSafe(f, before, path, s) && IsLocal(f, before, path)
    ensures AllSafe(past, history + [f], before, path, s)
  {
  }

  /** Before the commit: the former state is still what is restored. */
  ghost predicate IsFormer(f: Files, before: Files, path: nat) {
    && IsLocal(f, before, path) && Lookup(f, Primary(path)) == Lookup(before, Primary(path))
    && (Decode(before, path).Ok? ==> Decode(f, path) == Decode(before, path))
  }

  /** After the commit: the new state is restored from the record. */
  ghost predicate IsCommitted(f: Files, before: Files, path: nat, record: Record, s: State) {
    && IsLocal(f, before, path) && Names(record, f, path, s)
    && exists form: nat :: Lookup(f, Primary(path)) == Some(Commit(record, form))
  }

  lemma FormerIsSafe(f: Files, before: Files, path: nat, s: State)
    requires IsFormer(f, before, path)
    ensures IsSafe(f, before, path, s) && IsLocal(f, before, path)
  {
  }

  lemma CommittedIsSafe(f: Files, before: Files, path: nat, record: Record, s: State)
    requires IsCommitted(f, before, path, record, s)
    ensures IsSafe(f, before, path, s) && IsLocal(f, before, path) && Decode(f, path) == Restored(s)
  {
  }

  lemma CacheKeepsFormer(f: Files, before: Files, path: nat, n: Name, body: Body)
    requires IsFormer(f, before, path)
    requires n == CandidateCache(path, Digest(body)) || n == SchedulerCache(path, Digest(body))
    ensures IsFormer(f[n := body], before, path)
  {
  }

  lemma CommitCommits(f: Files, before: Files, path: nat, record: Record, form: nat, s: State)
    requires IsFormer(f, before, path) && Names(record, f, path, s)
    ensures IsCommitted(f[Primary(path) := Commit(record, form)], before, path, record, s)
  {
  }

  /** Whether the commit lands or not. */
  lemma CommitIsSafe(f: Files, g: Files, before: Files, path: nat, record: Record, form: nat, s: State)
    requires IsFormer(f, before, path) && Names(record, f, path, s)
    requires g == f || g == f[Primary(path) := Commit(record, form)]
    ensures IsSafe(g, before, path, s) && IsLocal(g, before, path)
  {
  }

  /** A cache file of this checkpoint that the new record does not name. */
  predicate IsStale(n: Name, path: nat, timed: bool, keep: Option<Digest>) {
    (if timed then n.SchedulerCache? else n.CandidateCache?) && n.path == path && keep != Some(n.digest)
  }

  function Kept(record: Record, timed: bool): Option<Digest> {
    if timed then record.schedulerHash else Some(record.candidateHash)
  }

  lemma PruneKeepsCommit(f: Files, before: Files, path: nat, record: Record, s: State, n: Name, timed: bool)
    requires IsCommitted(f, before, path, record, s) && IsStale(n, path, timed, Kept(record, timed))
    ensures IsCommitted(f - {n}, before, path, record, s)
  {
  }

  /** No cache of this checkpoint is left that the record does not name. */
  ghost predicate IsTidy(f: Files, path: nat, timed: bool, keep: Option<Digest>) {
    forall n :: n in f ==> !IsStale(n, path, timed, keep)
  }

  /** Writes a cache ahead of the commit. */
  method PutCache(d: Disk, n: Name, body: Body, ghost past: seq<Files>, ghost before: Files, path: nat, s: State)
    returns (ok: bool)
    requires n == CandidateCache(path, Digest(body)) || n == SchedulerCache(path, Digest(body))
    requires IsFormer(d.files, before, path) && d.Valid() && AllSafe(past, d.history, before, path, s)
    modifies d
    ensures IsFormer(d.files, before, path) && d.Valid() && AllSafe(past, d.history, before, path, s)
    ensures ok ==> d.files == old(d.files)[n := body]
  {
    hide *;
    CacheKeepsFormer(d.files, before, path, n, body);
    ok := d.Write(n, body);
    FormerIsSafe(d.files, before, path, s);
    OneMoreSafe(past, old(d.history), before, path, s, d.files);
  }

  /** Removes the caches of one kind that the record does not name. */
  method Prune(d: Disk, timed: bool, record: Record, ghost past: seq<Files>, ghost before: Files, path: nat, s: State)
    returns (ok: bool)
    requires IsCommitted(d.files, before, path, record, s) && d.Valid() && AllSafe(past, d.history, before, path, s)
    modifies d
    ensures IsCommitted(d.files, before, path, record, s) && d.Valid() && AllSafe(past, d.history, before, path, s)
    ensures ok ==> IsTidy(d.files, path, timed, Kept(record, timed))
    ensures forall n :: n in d.files ==> n in old(d.files)
  {
    hide *;
    var stale := set n | n in d.files && IsStale(n, path, timed, Kept(record, timed));
    ok := true;
    while ok && stale != {}
      invariant IsCommitted(d.files, before, path, record, s) && d.Valid() && AllSafe(past, d.history, before, path, s)
      invariant forall n :: n in stale ==> IsStale(n, path, timed, Kept(record, timed))
      invariant ok ==> forall n :: n in d.files && IsStale(n, path, timed, Kept(record, timed)) ==> n in stale
      invariant forall n :: n in d.files ==> n in old(d.files)
      decreases ok, stale
    {
      var n :| n in stale;
      PruneKeepsCommit(d.files, before, path, record, s, n, timed);
      ghost var history := d.history;
      ok := d.Remove(n);
      CommittedIsSafe(d.files, before, path, record, s);
      OneMoreSafe(past, history, before, path, s, d.files);
      stale := stale - {n};
    }
    if ok {
      TidyNow(d.files, path, timed, Kept(record, timed));
    }
  }

  lemma TidyNow(f: Files, path: nat, timed: bool, keep: Option<Digest>)
    requires forall n :: n in f ==> !IsStale(n, path, timed, keep)
    ensures IsTidy(f, path, timed, keep)
  {
  }

  // ------------------------------------------------------------------- the writer

  class StateWriter {
    var path: nat
    var last: Option<Record>
    var candidates: seq<nat>
    var scheduler: Option<Scheduler>

    /** The writer of a process that has just started remembers nothing. */
    constructor ()
      ensures last.None?
    {
      path, last, candidates, scheduler := 0, None, [], None;
    }

    /** What the writer remembers is what the directory holds. */
    ghost predicate Agrees(f: Files)
      reads this
    {
      last.Some? ==>
        && IsCommitted(f, f, path, last.value, Remembered())
        && IsTidy(f, path, false, Kept(last.value, false)) && IsTidy(f, path, true, Kept(last.value, true))
    }

    ghost function Remembered(): State
      requires last.Some?
      reads this
    {
      last.value.state.(candidates := candidates, scheduler := scheduler)
    }

    /** Writes the caches that changed and returns the record that names them. */
    method Stage(d: Disk, target: nat, s: State, coldForm: nat, timedForm: nat, coldChanged: bool, timedChanged: bool,
                 ghost past: seq<Files>, ghost before: Files)
      returns (ok: bool, next: Record)
      requires coldChanged || (last.Some? && path == target && s.candidates == candidates)
      requires timedChanged || (last.Some? && path == target && s.scheduler == scheduler)
      requires Agrees(d.files) && d.files == before && d.Valid() && AllSafe(past, d.history, before, target, s)
      modifies d
      ensures IsFormer(d.files, before, target) && d.Valid() && AllSafe(past, d.history, before, target, s)
      ensures ok ==> Names(next, d.files, target, s)
      ensures ok && !coldChanged ==>
        next.candidateHash == last.value.candidateHash && IsTidy(d.files, target, false, Kept(next, false))
      ensures ok && !timedChanged ==>
        next.schedulerHash == last.value.schedulerHash && IsTidy(d.files, target, true, Kept(next, true))
      ensures ok && !coldChanged && !timedChanged ==> d.files == before
    {
      next := Record(s.(candidates := [], scheduler := None), Digest(Cold(s.candidates, coldForm)), None);
      ok := true;
      if coldChanged {
        ok := PutCache(d, CandidateCache(target, next.candidateHash), Cold(s.candidates, coldForm), past, before,
                       target, s);
      } else {
        next := next.(candidateHash := last.value.candidateHash);
      }
      if ok && s.scheduler.Some? {
        if timedChanged {
          var body := Timed(s.scheduler.value, timedForm);
          next := next.(schedulerHash := Some(Digest(body)));
          ok := PutCache(d, SchedulerCache(target, Digest(body)), body, past, before, target, s);
        } else {
          next := next.(schedulerHash := last.value.schedulerHash);
        }
      }
    }

    /** Saves a state. A failure, like a crash, can end it after any disk operation. */
    method Save(d: Disk, target: nat, s: State, coldForm: nat, timedForm: nat, form: nat) returns (ok: bool)
      requires d.Valid() && Agrees(d.files)
      modifies this, d
      ensures d.Valid() && AllSafe(old(d.history), d.history, old(d.files), target, s)
      ensures ok ==> Agrees(d.files) && last.Some? && path == target && Remembered() == s
      ensures ok ==> Decode(d.files, target) == Restored(s)
    {
      ghost var past, before := d.history, d.files;
      var coldChanged := path != target || last.None? || s.candidates != candidates;
      var timedChanged := path != target || last.None? || s.scheduler != scheduler;
      var next: Record;
      ok, next := Stage(d, target, s, coldForm, timedForm, coldChanged, timedChanged, past, before);
      if ok && !(path == target && last == Some(next)) {
        ok := Finish(d, target, s, next, form, coldChanged, timedChanged, past, before);
        if ok {
          path, last, candidates, scheduler := target, Some(next), s.candidates, s.scheduler;
        }
      }
      if ok {
        CommittedIsSafe(d.files, d.files, path, last.value, s);
      }
    }

    /** The commit, and only then the removal of what it made obsolete. */
    static method Finish(d: Disk, target: nat, s: State, next: Record, form: nat, coldChanged: bool, timedChanged: bool,
                  ghost past: seq<Files>, ghost before: Files)
      returns (ok: bool)
      requires IsFormer(d.files, before, target) && Names(next, d.files, target, s)
      requires d.Valid() && AllSafe(past, d.history, before, target, s)
      requires coldChanged || IsTidy(d.files, target, false, Kept(next, false))
      requires timedChanged || IsTidy(d.files, target, true, Kept(next, true))
      modifies d
      ensures d.Valid() && AllSafe(past, d.history, before, target, s)
      ensures ok ==> IsCommitted(d.files, before, target, next, s)
      ensures ok ==>
        IsTidy(d.files, target, false, Kept(next, false)) && IsTidy(d.files, target, true, Kept(next, true))
    {
      CommitCommits(d.files, before, target, next, form, s);
      ok := d.Write(Primary(target), Commit(next, form));
      CommitIsSafe(old(d.files), d.files, before, target, next, form, s);
      OneMoreSafe(past, old(d.history), before, target, s, d.files);
      if ok && coldChanged {
        ok := Prune(d, false, next, past, before, target, s);
      }
      if ok && timedChanged {
        ok := Prune(d, true, next, past, before, target, s);
      }
    }
  }

  // ----------------------------------------------------------------- whole runs

  /** There is no checkpoint yet, or it can be restored. */
  ghost predicate IsIntact(f: Files, path: nat) { Primary(path) !in f || Decode(f, path).Ok? }

  ghost predicate AllRestorable(states: seq<State>) { forall i :: 0 <= i < |states| ==> Restored(states[i]).Ok? }

  /** What is restored once `j` of the states have been committed. */
  ghost function Outcome(before: Files, path: nat, states: seq<State>, j: nat): Result<State>
    requires j <= |states|
  {
    if j == 0 then Decode(before, path) else Restored(states[j - 1])
  }

  ghost predicate IsOneOf(f: Files, before: Files, path: nat, states: seq<State>, n: nat) {
    exists j: nat :: j <= n && j <= |states| && Decode(f, path) == Outcome(before, path, states, j)
  }

  lemma SafeIsOneOf(f: Files, now: Files, before: Files, path: nat, states: seq<State>, n: nat)
    requires n < |states| && IsIntact(now, path) && Decode(now, path) == Outcome(before, path, states, n)
    requires IsSafe(f, now, path, states[n])
    ensures Decode(f, path) == Outcome(before, path, states, n)
        || Decode(f, path) == Outcome(before, path, states, n + 1)
    ensures IsOneOf(f, before, path, states, n + 1)
    ensures Restored(states[n]).Ok? ==> IsIntact(f, path)
  {
  }

  /** All that a save went through, and where it ended. */
  lemma SaveIsOneOf(past: seq<Files>, history: seq<Files>, now: Files, f: Files, before: Files, path: nat,
                    states: seq<State>, n: nat)
    requires n < |states| && IsIntact(now, path) && Decode(now, path) == Outcome(before, path, states, n)
    requires AllSafe(past, history, now, path, states[n])
    requires past != [] && past[|past| - 1] == now && history[|history| - 1] == f && Restored(states[n]).Ok?
    ensures forall k :: |past| <= k < |history| ==> IsOneOf(history[k], before, path, states, |states|)
    ensures Decode(f, path) == Outcome(before, path, states, n)
        || Decode(f, path) == Outcome(before, path, states, n + 1)
    ensures IsIntact(f, path)
  {
    forall k | |past| <= k < |history| ensures IsOneOf(history[k], before, path, states, |states|) {
      SafeIsOneOf(history[k], now, before, path, states, n);
    }
    if |past| < |history| {
      SafeIsOneOf(f, now, before, path, states, n);
    } else {
      assert history == past;
    }
  }

  /** One process: it saves one state after the other until a save fails. Wherever it
      dies, the former checkpoint, one of the saved states or the one being saved is
      what the next process restores. */
  method Session(d: Disk, path: nat, states: seq<State>) returns (saved: nat, alive: bool)
    requires d.Valid() && IsIntact(d.files, path) && AllRestorable(states)
    modifies d
    ensures saved <= |states| && (alive <==> saved == |states|)
    ensures Decode(d.files, path) == Outcome(old(d.files), path, states, saved)
         || (!alive && Decode(d.files, path) == Outcome(old(d.files), path, states, saved + 1))
    ensures d.Valid() && IsIntact(d.files, path) && old(d.history) <= d.history
    ensures forall k :: |old(d.history)| <= k < |d.history| ==>
      IsOneOf(d.history[k], old(d.files), path, states, |states|)
  {
    hide *;
    var w := new StateWriter();
    FreshAgrees(w, d.files);
    saved, alive := 0, true;
    ghost var before, past := d.files, d.history;
    AtStart(before, path, states);
    while alive && saved < |states|
      invariant fresh(w) && saved <= |states| && d.Valid() && past <= d.history && IsIntact(d.files, path)
      invariant alive ==> w.Agrees(d.files) && Decode(d.files, path) == Outcome(before, path, states, saved)
      invariant !alive ==>
        && saved < |states|
        && (Decode(d.files, path) == Outcome(before, path, states, saved + 1)
            || Decode(d.files, path) == Outcome(before, path, states, saved))
      invariant forall k :: |past| <= k < |d.history| ==> IsOneOf(d.history[k], before, path, states, |states|)
      decreases alive, |states| - saved
    {
      ghost var now, at := d.files, d.history;
      LastIsNow(d);
      var coldForm: nat, timedForm: nat, form: nat := *, *, *;
      alive := w.Save(d, path, states[saved], coldForm, timedForm, form);
      LastIsNow(d);
      AllMayBeRestored(states, saved);
      SaveIsOneOf(at, d.history, now, d.files, before, path, states, saved);
      SafeGrows(at, d.history, now, path, states[saved]);
      OutcomeIsRestored(before, path, states, saved);
      if alive {
        saved := saved + 1;
      }
    }
  }

  lemma FreshAgrees(w: StateWriter, f: Files)
    requires w.last.None?
    ensures w.Agrees(f)
  {
  }

  lemma AtStart(before: Files, path: nat, states: seq<State>)
    ensures Decode(before, path) == Outcome(before, path, states, 0)
  {
  }

  lemma LastIsNow(d: Disk)
    requires d.Valid()
    ensures d.history != [] && d.history[|d.history| - 1] == d.files
  {
  }

  lemma AllMayBeRestored(states: seq<State>, n: nat)
    requires AllRestorable(states) && n < |states|
    ensures Restored(states[n]).Ok?
  {
  }

  lemma SafeGrows(past: seq<Files>, history: seq<Files>, before: Files, path: nat, s: State)
    requires AllSafe(past, history, before, path, s)
    ensures past <= history
  {
  }

  lemma OutcomeIsRestored(before: Files, path: nat, states: seq<State>, n: nat)
    requires n < |states|
    ensures Outcome(before, path, states, n + 1) == Restored(states[n])
  {
  }
}
