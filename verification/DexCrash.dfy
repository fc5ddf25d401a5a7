// What a crash can do to the revision of an active key. Only another writer makes
// a difference: a proposal that is already applied is then executed again under
// its old log entry, and the newer row that it reads back is not logged anew.

module DexCrash {
  import opened Intervals
  import opened DexState
  import opened DexOwner
  import opened DexProtocol
  import opened Options

  /** While one owner lives, no step lowers the revision of an active key. */
  lemma LiveRevisionsNeverGoBack(s: Sys, a: Action, k: Key)
    requires Healthy(s) && Healthy(Do(s, a)) && k in s.core.state.active && k in Do(s, a).core.state.active
    ensures s.core.state.active[k].revision <= Do(s, a).core.state.active[k].revision
  {
    hide DoLease, DoCheck, DoBegin, DoReply, DoReadBack, DoFinish, DoReplay;
    match a
    case AskFinish(c) =>
      if c in s.callers && (s.callers[c].Got? || s.callers[c].Failed?) {
        FinishKeeps(s, c, s.callers[c], k);
      }
    case _ =>
  }

  lemma FinishKeeps(s: Sys, c: nat, p: Phase, k: Key)
    requires p.Got? || p.Failed?
    requires k in s.core.state.active && k in DoFinish(s, c, p).core.state.active
    ensures s.core.state.active[k].revision <= DoFinish(s, c, p).core.state.active[k].revision
  {
  }

  /** Some logged operation of the key is not known to the checkpoint as applied. */
  ghost predicate Unsaved(c: Core, k: Key) {
    exists i :: i in Unresolved(c.entries, Settled(c)) && c.entries[i].id.key == k
  }

  ghost predicate KeptByCrash(c: Core, k: Key)
    requires k in c.state.active
  {
    Unsaved(c, k) || (k in c.saved.state.active && c.state.active[k].revision <= c.saved.state.active[k].revision)
  }

  /** Anything may happen until service starts again: reopenings, replays that succeed or fail,
      checkpoints, late commits, other writers, further crashes. */
  ghost predicate IsRecovery(actions: seq<Action>) { forall a :: a in actions ==> !a.StartServing? }

  /** What a log and a state say of one key: whether it still owes an operation, and how it
      stands. */
  datatype Look = Look(owes: bool, stands: Option<BlockState>)

  ghost function LookAt(entries: map<nat, Operation>, applied: set<nat>, m: Meaning, k: Key): Look {
    Look(!Resolved(entries, applied, k), if k in m.active then Some(m.active[k]) else None)
  }

  ghost function SavedLook(s: Sys, k: Key): Look { LookAt(s.core.entries, Settled(s.core), s.core.saved.state, k) }

  ghost function LiveLook(s: Sys, k: Key): Look { LookAt(s.core.entries, s.core.applied, s.core.state, k) }

  ghost predicate StandsAtRow(look: Look, rows: map<Key, Block>, k: Key) {
    look.stands.Some? ==> k in rows && look.stands.value.revision == rows[k].revision
  }

  /** One step of a recovery: the checkpoint takes over what memory says, or memory what the
      checkpoint says, and only a key that owes an operation gets its stored row. */
  ghost predicate IsKeyStep(s: Sys, t: Sys, k: Key) {
    && !t.mode.Serving? && Grew(s.rows, t.rows)
    && (SavedLook(t, k) == SavedLook(s, k) || (s.mode.Recovering? && SavedLook(t, k) == LiveLook(s, k)))
    && (t.mode.Recovering? ==>
        || LiveLook(t, k) == SavedLook(s, k)
        || (s.mode.Recovering?
            && (LiveLook(t, k) == LiveLook(s, k) || (LiveLook(s, k).owes && StandsAtRow(LiveLook(t, k), t.rows, k)))))
  }

  /** A replay either stops the recovery or installs the stored row of its key. */
  ghost predicate Installs(s: Sys, t: Sys, k: Key) {
    && t.mode == s.mode && t.core.entries == s.core.entries && t.core.saved == s.core.saved && Grew(s.rows, t.rows)
    && (forall i :: i in t.core.entries && t.core.entries[i].id.key != k ==>
        (i in t.core.applied <==> i in s.core.applied))
    && (forall h :: h != k ==> (h in t.core.state.active <==> h in s.core.state.active))
    && (forall h :: h != k && h in s.core.state.active ==> t.core.state.active[h] == s.core.state.active[h])
    && k in t.rows && (k in t.core.state.active ==> t.core.state.active[k].revision == t.rows[k].revision)
  }

  lemma ReplayedOneKey(c: Core, i: nat, b: Block)
    requires Replayed(c, i, b).Success?
    ensures var d := Replayed(c, i, b).value;
      && d == c.(state := d.state, applied := c.applied + {i})
      && (forall h :: h != b.Id() ==> (h in d.state.active <==> h in c.state.active))
      && (forall h :: h != b.Id() && h in c.state.active ==> d.state.active[h] == c.state.active[h])
      && (b.Id() in d.state.active ==> d.state.active[b.Id()].revision == b.revision)
  {
  }

  lemma ReplayInstallsRow(s: Sys, i: nat, ok: bool)
    requires i in s.core.entries && Intact(s.core.manifest, s.core.entries[i]) && s.mode.Recovering?
    requires forall h :: h in s.rows ==> s.rows[h].Id() == h
    ensures var t := DoReplay(s, i, ok);
      if t.mode.Down? then t.core == s.core && Grew(s.rows, t.rows) else Installs(s, t, s.core.entries[i].id.key)
  {
    var b := s.core.entries[i].payload.block;
    PutGrows(s.rows, b);
    if b.Id() in AfterPut(s.rows, b) && Replayed(s.core, i, AfterPut(s.rows, b)[b.Id()]).Success? {
      ReplayedOneKey(s.core, i, AfterPut(s.rows, b)[b.Id()]);
      assert AfterPut(s.rows, b)[b.Id()].Id() == b.Id();
    }
    hide AfterPut, Put, Replayed, Grew;
  }

  lemma InstallsOne(s: Sys, t: Sys, h: Key, k: Key)
    requires Installs(s, t, h) && s.mode.Recovering? && !Resolved(s.core.entries, s.core.applied, h)
    ensures IsKeyStep(s, t, k)
  {
    assert Settled(t.core) == Settled(s.core);
    if h != k {
      SameKey(s, t, h, k);
    }
  }

  lemma SameKey(s: Sys, t: Sys, h: Key, k: Key)
    requires Installs(s, t, h) && h != k
    ensures LiveLook(t, k) == LiveLook(s, k)
  {
    if !Resolved(s.core.entries, s.core.applied, k) {
      var j :| j in s.core.entries && j !in s.core.applied && s.core.entries[j].id.key == k;
      assert j in t.core.entries && j !in t.core.applied;
    }
  }

  lemma ReplayIsKeyStep(s: Sys, i: nat, ok: bool, k: Key)
    requires Inv(s) && !s.mode.Serving?
    ensures IsKeyStep(s, Do(s, Replay(i, ok)), k)
  {
    if s.mode.Recovering? && IsNext(s.core, i) {
      NextIsOwed(s, i);
      ReplayInstallsRow(s, i, ok);
      hide Inv, DoReplay, IsNext, Resolved, Intact, Installs, IsKeyStep;
      var t := DoReplay(s, i, ok);
      if t.mode.Down? {
        StoppedIsKeyStep(s, t, k);
      } else {
        InstallsOne(s, t, s.core.entries[i].id.key, k);
      }
    } else {
      RowsAreKeyStep(s, s, k);
    }
  }

  lemma NextIsOwed(s: Sys, i: nat)
    requires Inv(s) && IsNext(s.core, i)
    ensures i in s.core.entries && Intact(s.core.manifest, s.core.entries[i])
    ensures !Resolved(s.core.entries, s.core.applied, s.core.entries[i].id.key)
    ensures forall h :: h in s.rows ==> s.rows[h].Id() == h
  {
  }

  lemma StoppedIsKeyStep(s: Sys, t: Sys, k: Key)
    requires t.mode.Down? && t.core == s.core && Grew(s.rows, t.rows)
    ensures IsKeyStep(s, t, k)
  {
  }

  lemma CheckpointIsKeyStep(s: Sys, k: Key)
    requires Inv(s) && !s.mode.Serving?
    ensures IsKeyStep(s, Do(s, SaveCheckpoint), k)
  {
    var c, d := s.core, Checkpoint(s.core);
    assert LogOk(c, s.begun) && (s.mode.Recovering? ==> !c.poison);
    hide Inv;
    if s.mode.Recovering? {
      TrimKeepsOwed(c, s.begun);
      CheckpointSaves(c);
      hide LogOk, Checkpoint;
      assert Resolved(d.entries, Settled(d), k) <==> Resolved(c.entries, c.applied, k);
      assert Resolved(d.entries, d.applied, k) <==> Resolved(c.entries, c.applied, k);
    }
  }

  lemma CheckpointSaves(c: Core)
    requires !c.poison
    ensures Checkpoint(c).saved.state == c.state && Checkpoint(c).state == c.state && Checkpoint(c).applied == c.applied
  {
  }

  lemma RowsAreKeyStep(s: Sys, t: Sys, k: Key)
    requires t.core == s.core && t.mode == s.mode && !s.mode.Serving? && Grew(s.rows, t.rows)
    ensures IsKeyStep(s, t, k)
  {
  }

  /** Without callers and service only the database, the files and recovery move. */
  predicate IsMove(a: Action) {
    a.LateCommit? || a.OtherWriter? || a.SaveCheckpoint? || a.Crash? || a.Reopen? || a.Replay? || a.StartServing?
  }

  lemma NobodyActs(s: Sys, a: Action, k: Key)
    requires s.callers == map[] && !s.mode.Serving? && !IsMove(a)
    ensures IsKeyStep(s, Do(s, a), k)
  {
    hide DoLease, DoCheck, DoBegin, DoReply, DoReadBack, DoFinish;
    assert Do(s, a) == s;
    hide Do;
  }

  lemma CommitIsKeyStep(s: Sys, a: Action, k: Key)
    requires !s.mode.Serving? && (a.LateCommit? || a.OtherWriter?)
    ensures IsKeyStep(s, Do(s, a), k)
  {
    hide IsKeyStep, AfterPut, Grew;
    PutGrows(s.rows, if a.LateCommit? then a.late.block else a.b);
    RowsAreKeyStep(s, s, k);
    RowsAreKeyStep(s, Do(s, a), k);
  }

  lemma KeyStep(s: Sys, a: Action, k: Key)
    requires Inv(s) && !s.mode.Serving? && !a.StartServing?
    ensures IsKeyStep(s, Do(s, a), k)
  {
    assert s.callers == map[];
    hide Inv, IsKeyStep, Do;
    match a
    case LateCommit(late) => CommitIsKeyStep(s, a, k);
    case OtherWriter(b) => CommitIsKeyStep(s, a, k);
    case SaveCheckpoint => CheckpointIsKeyStep(s, k);
    case Crash => CrashIsKeyStep(s, k);
    case Reopen => ReopenIsKeyStep(s, k);
    case Replay(i, ok) => ReplayIsKeyStep(s, i, ok, k);
    case _ => NobodyActs(s, a, k);
  }

  lemma CrashIsKeyStep(s: Sys, k: Key)
    ensures IsKeyStep(s, Do(s, Crash), k)
  {
  }

  lemma ReopenIsKeyStep(s: Sys, k: Key)
    requires !s.mode.Serving?
    ensures IsKeyStep(s, Do(s, Reopen), k)
  {
    assert Settled(Reopened(s.core)) == Settled(s.core);
  }

  /** The key still owes an operation or stands at `floor` at least. */
  ghost predicate IsHigh(look: Look, floor: nat) {
    look.owes || (look.stands.Some? ==> floor <= look.stands.value.revision)
  }

  ghost predicate StaysHigh(s: Sys, k: Key, floor: nat) {
    && k in s.rows && floor <= s.rows[k].revision
    && IsHigh(SavedLook(s, k), floor) && (s.mode.Recovering? ==> IsHigh(LiveLook(s, k), floor))
  }

  /** The key owes nothing and stands as it did. */
  ghost predicate StaysPut(s: Sys, k: Key, look: Look) {
    !look.owes && SavedLook(s, k) == look && (s.mode.Recovering? ==> LiveLook(s, k) == look)
  }

  lemma KeyStepKeeps(s: Sys, t: Sys, k: Key, floor: nat, look: Look)
    requires IsKeyStep(s, t, k)
    ensures StaysHigh(s, k, floor) ==> StaysHigh(t, k, floor)
    ensures StaysPut(s, k, look) ==> StaysPut(t, k, look)
  {
    hide LookAt;
  }

  lemma {:induction false} RecoveryKeepsKey(s: Sys, actions: seq<Action>, k: Key, floor: nat, look: Look)
    requires Inv(s) && !s.mode.Serving? && IsRecovery(actions)
    ensures StaysHigh(s, k, floor) ==> StaysHigh(Run(s, actions), k, floor)
    ensures StaysPut(s, k, look) ==> StaysPut(Run(s, actions), k, look)
    decreases |actions|
  {
    if actions != [] {
      assert !actions[0].StartServing?;
      var t := Do(s, actions[0]);
      KeyStep(s, actions[0], k);
      KeyStepKeeps(s, t, k, floor, look);
      InvDo(s, actions[0]);
      hide Inv, Do, StaysHigh, StaysPut, SavedLook, LiveLook;
      RecoveryKeepsKey(t, actions[1..], k, floor, look);
    }
  }

  /** The system after a crash and whatever happens until service starts again. */
  ghost function Recovery(s: Sys, actions: seq<Action>): Sys { Run(Do(s, Crash), actions) }

  /** A healthy owner crashes and serves again some time later: the exact condition under
      which an active key comes back at no lower revision. The condition can be read off the
      log and the checkpoint before the crash. */
  lemma CrashKeepsRevision(start: Sys, actions: seq<Action>, recovery: seq<Action>, save: bool, k: Key)
    requires Start(start) && IsRecovery(recovery)
    requires Healthy(Run(start, actions)) && k in Run(start, actions).core.state.active
    requires var u := Recovery(Run(start, actions), recovery);
      Do(u, StartServing(save)).mode.Serving? && k in Do(u, StartServing(save)).core.state.active
    ensures var s := Run(start, actions);
      var t := Do(Recovery(s, recovery), StartServing(save));
      s.core.state.active[k].revision <= t.core.state.active[k].revision <==> KeptByCrash(s.core, k)
  {
    hide *;
    StartInv(start);
    InvRun(start, actions);
    RecoveryKeeps(Run(start, actions), recovery, save, k);
  }

  lemma ServesAgain(u: Sys, save: bool, k: Key)
    requires !u.mode.Serving? && Do(u, StartServing(save)).mode.Serving?
    requires k in Do(u, StartServing(save)).core.state.active
    ensures u.mode.Recovering? && !LiveLook(u, k).owes && LiveLook(u, k).stands.Some?
    ensures Do(u, StartServing(save)).core.state.active[k] == LiveLook(u, k).stands.value
  {
    assert Unresolved(u.core.entries, u.core.applied) == {};
    assert forall i :: i in u.core.entries && i !in u.core.applied ==> i in Unresolved(u.core.entries, u.core.applied);
  }

  lemma NeverServes(s: Sys, actions: seq<Action>)
    requires Inv(s) && !s.mode.Serving? && IsRecovery(actions)
    ensures !Run(s, actions).mode.Serving?
    decreases |actions|
  {
    if actions != [] {
      assert !actions[0].StartServing?;
      KeyStep(s, actions[0], KEY);
      InvDo(s, actions[0]);
      hide Inv, Do;
      NeverServes(Do(s, actions[0]), actions[1..]);
    }
  }

  lemma LooksAtCrash(s: Sys, k: Key)
    requires Inv(s) && Healthy(s) && k in s.core.state.active
    ensures var d, floor := Do(s, Crash), s.core.state.active[k].revision;
      && Inv(d) && d.mode.Down? && k in d.rows && floor <= d.rows[k].revision
      && (KeptByCrash(s.core, k) ==> IsHigh(SavedLook(d, k), floor))
      && (KeptByCrash(s.core, k) || (!SavedLook(d, k).owes
          && (SavedLook(d, k).stands.Some? ==> SavedLook(d, k).stands.value.revision < floor)))
  {
    InvCrash(s);
    assert Image(s.core.entries, s.core.applied, s.core.state, s.rows, s.sent, s.high, s.foreign);
    hide Inv, Image;
    assert Unsaved(s.core, k) <==> !Resolved(s.core.entries, Settled(s.core), k) by {
      assert forall i :: i in s.core.entries && i !in Settled(s.core) <==>
        i in Unresolved(s.core.entries, Settled(s.core));
    }
  }

  lemma RecoveryKeeps(s: Sys, recovery: seq<Action>, save: bool, k: Key)
    requires IsRecovery(recovery) && Inv(s) && Healthy(s) && k in s.core.state.active
    requires var t := Do(Recovery(s, recovery), StartServing(save)); t.mode.Serving? && k in t.core.state.active
    ensures var t := Do(Recovery(s, recovery), StartServing(save));
      s.core.state.active[k].revision <= t.core.state.active[k].revision <==> KeptByCrash(s.core, k)
  {
    var d, u, floor := Do(s, Crash), Recovery(s, recovery), s.core.state.active[k].revision;
    LooksAtCrash(s, k);
    hide Inv, Run, Do, KeptByCrash, SavedLook, LiveLook;
    NeverServes(d, recovery);
    ServesAgain(u, save, k);
    RecoveryKeepsKey(d, recovery, k, floor, SavedLook(d, k));
  }

  // ------------------------------------------------- the condition is not idle

  /** One more action of a run. */
  lemma Extend(start: Sys, actions: seq<Action>, a: Action) returns (longer: seq<Action>)
    ensures longer == actions + [a] && Run(start, longer) == Do(Run(start, actions), a)
  {
    longer := actions + [a];
    RunConcat(start, actions, [a]);
    assert [a][1..] == [];
  }

  const KEY := Key(5, 7)

  function Revised(revision: uint64): Block {
    Block(1, 1, 5, 7, 9, revision, true, "head", true, 0, 0)
  }

  const PROPOSAL := Frozen(1, BatchKind, Revised(1), BatchBody(Revised(1), 0), 0)

  const LOGGED := Operation(1, Id(BatchKind, KEY, 1, 9), PROPOSAL)

  ghost function EmptySys(): Sys {
    var empty := Meaning(map[], {});
    Sys(Down, Core(1, map[], 0, Saved(empty, 0, {}), empty, {}, {}, map[], false), map[], map[], {}, {}, map[], {})
  }

  ghost function ServingEmpty(): Sys { EmptySys().(mode := Serving) }

  /** The same owner with the proposal's lease granted, and its caller at `p`. */
  ghost function Holding(s: Sys, p: Phase): Sys {
    At(s.(core := s.core.(inflight := s.core.inflight + {KEY})), 0, p)
  }

  ghost function LoggedEmpty(): Sys {
    var s := ServingEmpty();
    s.(core := s.core.(entries := map[1 := LOGGED], issued := 1, pending := map[KEY := LOGGED.id]), begun := {PROPOSAL})
  }

  lemma Opened()
    ensures Do(Do(EmptySys(), Reopen), StartServing(true)) == ServingEmpty()
  {
    var c := Reopened(EmptySys().core);
    assert Settled(c) == {} && Checkpoint(c) == c;
  }

  lemma Leased0()
    ensures Do(Do(ServingEmpty(), Propose(0, PROPOSAL)), AskLease(0)) == Holding(ServingEmpty(), Leased(PROPOSAL))
  {
  }

  lemma Begun0()
    ensures Do(Do(Holding(ServingEmpty(), Leased(PROPOSAL)), CheckRevision(0, true)), AskBegin(0, Done))
      == Holding(LoggedEmpty(), Writing(PROPOSAL, LOGGED))
  {
    var s := Holding(ServingEmpty(), Checked(PROPOSAL, PROPOSAL));
    assert Do(Holding(ServingEmpty(), Leased(PROPOSAL)), CheckRevision(0, true)) == s;
    var core := Begin(s.core, LOGGED.id, PROPOSAL, Done).0;
    assert core.entries == map[1 := LOGGED];
    assert 1 in core.entries && core.entries[1].payload == PROPOSAL;
    assert (set i | i in core.entries :: core.entries[i].payload) == {PROPOSAL};
  }

  /** The write, its read-back and the finish, when the key's stored row is `b`
      after the write. */
  ghost function Finished(s: Sys, b: Block): Sys {
    s.(rows := map[KEY := b], sent := s.sent + {PROPOSAL}, high := s.high[KEY := b.revision],
       core := s.core.(state := Meaning(s.core.state.active[KEY := b.State()], s.core.state.finalized),
                       applied := s.core.applied + {1}, pending := s.core.pending - {KEY}))
  }

  lemma SendOut(s: Sys)
    requires s.callers == map[] && s.core.inflight == {}
    ensures Do(Holding(s, Writing(PROPOSAL, LOGGED)), Send(0))
      == Holding(s.(sent := s.sent + {PROPOSAL}), Phase.Sent(PROPOSAL, LOGGED))
  {
  }

  lemma ReplyOut(s: Sys, b: Block)
    requires s.callers == map[] && s.core.inflight == {}
    requires (s.rows == map[] && b == Revised(1)) || (s.rows == map[KEY := Revised(2)] && b == Revised(2))
    ensures Do(Holding(s, Phase.Sent(PROPOSAL, LOGGED)), Reply(0, true))
      == Holding(s.(rows := map[KEY := b]), Acked(PROPOSAL, LOGGED))
  {
    assert AfterPut(s.rows, Revised(1)) == map[KEY := b];
  }

  lemma ReadOut(s: Sys, b: Block)
    requires s.callers == map[] && s.core.inflight == {} && s.rows == map[KEY := b]
    ensures Do(Holding(s, Acked(PROPOSAL, LOGGED)), ReadBack(0, true)) == Holding(s, Got(PROPOSAL, LOGGED, b))
  {
  }

  ghost function Written(s: Sys, b: Block): Sys { s.(sent := s.sent + {PROPOSAL}).(rows := map[KEY := b]) }

  lemma WriteOut(s: Sys, b: Block)
    requires s.callers == map[] && s.core.inflight == {}
    requires (s.rows == map[] && b == Revised(1)) || (s.rows == map[KEY := Revised(2)] && b == Revised(2))
    ensures Do(Do(Do(Holding(s, Writing(PROPOSAL, LOGGED)), Send(0)), Reply(0, true)), ReadBack(0, true))
      == Holding(Written(s, b), Got(PROPOSAL, LOGGED, b))
  {
    hide Do, Holding;
    SendOut(s);
    ReplyOut(s.(sent := s.sent + {PROPOSAL}), b);
    ReadOut(Written(s, b), b);
  }

  ghost function AppliedCore(c: Core, b: Block): Core {
    c.(state := Meaning(c.state.active[KEY := b.State()], c.state.finalized), applied := c.applied + {1},
       pending := c.pending - {KEY})
  }

  lemma FinishesCore(c: Core, b: Block)
    requires c.inflight == {} && !c.poison && c.manifest == 1 && c.entries == map[1 := LOGGED]
    requires b == Revised(1) || b == Revised(2)
    requires KEY in c.state.active ==> c.state.active[KEY].revision == 1
    ensures Finish(c.(inflight := c.inflight + {KEY}), KEY, LOGGED, Some(b)) == (AppliedCore(c, b), true)
  {
    assert ApplyBlock(1, c.state, b) == Success(Meaning(c.state.active[KEY := b.State()], c.state.finalized));
    hide ApplyBlock;
  }

  lemma Finish0(s: Sys, b: Block)
    requires s.callers == map[] && s.core.inflight == {} && !s.core.poison && s.core.manifest == 1
    requires s.core.entries == map[1 := LOGGED]
    requires b == Revised(1) || b == Revised(2)
    requires KEY in s.core.state.active ==> s.core.state.active[KEY].revision == 1
    requires s.rows == map[KEY := b] && PROPOSAL in s.sent
    ensures Do(Holding(s, Got(PROPOSAL, LOGGED, b)), AskFinish(0)) == Finished(s, b)
  {
    FinishesCore(s.core, b);
    hide Finish;
    var p := Got(PROPOSAL, LOGGED, b);
    assert s.sent + {PROPOSAL} == s.sent;
    assert DoFinish(Holding(s, p), 0, p) == Finished(s, b);
  }

  ghost function Opened1(): Sys { Finished(LoggedEmpty(), Revised(1)) }

  ghost function Saved1(): Sys {
    Opened1().(core := Opened1().core.(saved := Saved(Opened1().core.state, 1, {})))
  }

  ghost function Overtaken(): Sys {
    Saved1().(rows := map[KEY := Revised(2)], foreign := {KEY})
  }

  lemma SavedIs()
    ensures Do(Do(Opened1(), SaveCheckpoint), OtherWriter(Revised(2))) == Overtaken()
  {
    assert Do(Opened1(), SaveCheckpoint) == Saved1() by {
      assert Unresolved(Opened1().core.entries, Opened1().core.applied) == {};
      assert Checkpoint(Opened1().core).entries == Opened1().core.entries;
    }
  }

  lemma LeasedAgain()
    ensures Do(Do(Overtaken(), Propose(0, PROPOSAL)), AskLease(0)) == Holding(Overtaken(), Writing(PROPOSAL, LOGGED))
  {
    FindFinds(Overtaken().core.entries, LOGGED.id);
    assert Overtaken().core.entries[1].id == LOGGED.id;
  }

  lemma RecoveredIs()
    ensures var s := Finished(Overtaken(), Revised(2));
      var t := Do(Recovery(s, [Reopen]), StartServing(true));
      Healthy(s) && s.core.state.active == map[KEY := Revised(2).State()]
      && Healthy(t) && t.core.state.active == map[KEY := Revised(1).State()]
  {
    var s := Finished(Overtaken(), Revised(2));
    var r := Do(Do(s, Crash), Reopen);
    assert Run(Do(s, Crash), [Reopen]) == r by {
      hide Do, Finished, Overtaken;
      assert [Reopen][1..] == [];
    }
    ReopenedIs(s.core);
    hide Finished, Settled, Reopened, Run, Saved1, Opened1, Unresolved;
  }

  lemma ReopenedIs(c: Core)
    requires c.entries == map[1 := LOGGED] && c.saved == Saved(Meaning(map[KEY := Revised(1).State()], {}), 1, {})
    ensures var r := Reopened(c);
      !r.poison && r.state.active == map[KEY := Revised(1).State()] && Unresolved(r.entries, r.applied) == {}
  {
    assert Settled(c) == {1};
  }

  lemma PublishAgain(start: Sys, actions: seq<Action>, s: Sys, b: Block) returns (longer: seq<Action>)
    requires Run(start, actions) == Holding(s, Writing(PROPOSAL, LOGGED))
    requires s.callers == map[] && s.core.inflight == {} && !s.core.poison && s.core.manifest == 1
    requires s.core.entries == map[1 := LOGGED]
    requires (s.rows == map[] && b == Revised(1)) || (s.rows == map[KEY := Revised(2)] && b == Revised(2))
    requires KEY in s.core.state.active ==> s.core.state.active[KEY].revision == 1
    ensures Run(start, longer) == Finished(s, b)
  {
    WriteOut(s, b);
    Finish0(Written(s, b), b);
    assert Finished(Written(s, b), b) == Finished(s, b) by {
      assert Written(s, b).sent + {PROPOSAL} == Written(s, b).sent;
    }
    hide *;
    longer := Extend(start, actions, Send(0));
    longer := Extend(start, longer, Reply(0, true));
    longer := Extend(start, longer, ReadBack(0, true));
    longer := Extend(start, longer, AskFinish(0));
  }

  /** A run in which a crash takes an active key back from revision 2 to 1: another
      writer stored revision 2, a repeated proposal of the applied revision 1 made
      the owner adopt it, and neither the log nor the checkpoint ever knew. */
  lemma CrashCanLowerARevision() returns (start: Sys, actions: seq<Action>)
    ensures Start(start) && Healthy(Run(start, actions)) && KEY in Run(start, actions).core.state.active
    ensures var s := Run(start, actions);
      var t := Do(Recovery(s, [Reopen]), StartServing(true));
      Healthy(t) && KEY in t.core.state.active && t.core.state.active[KEY].revision < s.core.state.active[KEY].revision
  {
    start := EmptySys();
    assert Start(start);
    Opened();
    Leased0();
    Begun0();
    SavedIs();
    LeasedAgain();
    RecoveredIs();
    assert Run(start, []) == start;
    hide Run, Do, Recovery, Start;
    actions := Extend(start, [], Reopen);
    actions := Extend(start, actions, StartServing(true));
    actions := Extend(start, actions, Propose(0, PROPOSAL));
    actions := Extend(start, actions, AskLease(0));
    actions := Extend(start, actions, CheckRevision(0, true));
    actions := Extend(start, actions, AskBegin(0, Done));
    actions := PublishAgain(start, actions, LoggedEmpty(), Revised(1));
    actions := Extend(start, actions, SaveCheckpoint);
    actions := Extend(start, actions, OtherWriter(Revised(2)));
    actions := Extend(start, actions, Propose(0, PROPOSAL));
    actions := Extend(start, actions, AskLease(0));
    actions := PublishAgain(start, actions, Overtaken(), Revised(2));
  }
}
