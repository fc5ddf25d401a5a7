// Publication of DEX block revisions: any number of callers, one owner, a
// database that may lose replies, late commits, other writers, crashes.

module DexProtocol {
  import opened DexState
  import opened DexOwner
  import opened Options

  // ------------------------------------------------------------------ database

  predicate Storable(b: Block) {
    b.chainId == 1 && b.number != 0 && b.hash != 0 && b.manifest != 0 && b.batch != 0 && b.revision != 0 && b.committed
  }

  /** The write of one block row: an older revision is a successful no-op, equal
      revisions must be equal rows, a finalized row is never downgraded. */
  function Put(rows: map<Key, Block>, b: Block): Option<map<Key, Block>> {
    if !Storable(b) then None
    else if b.Id() !in rows then Some(rows[b.Id() := b])
    else
      var prior := rows[b.Id()];
      if b.revision < prior.revision then Some(rows)
      else if b.revision == prior.revision then (if b == prior then Some(rows) else None)
      else if prior.finality == "finalized" && !b.Final() then None
      else if prior.manifest != b.manifest then None
      else Some(rows[b.Id() := b])
  }

  function AfterPut(rows: map<Key, Block>, b: Block): map<Key, Block> {
    match Put(rows, b) case None => rows case Some(r) => r
  }

  // --------------------------------------------------------------------- steps

  datatype Phase =
    | Proposing(w: Frozen)
    | Leased(w: Frozen)
    | Checked(w: Frozen, selected: Frozen)
    | Writing(w: Frozen, op: Operation)
    | Sent(w: Frozen, op: Operation)
    | Acked(w: Frozen, op: Operation)
    | Got(w: Frozen, op: Operation, actual: Block)
    | Failed(w: Frozen, op: Operation)
  {
    function K(): Key { w.block.Id() }

    predicate HasOp() { Writing? || Sent? || Acked? || Got? || Failed? }
  }

  datatype Mode = Down | Recovering | Serving

  /** `begun`, `sent`, `high` and `foreign` are histories: every payload ever
      logged, every SQL write ever sent, the newest revision ever installed for a
      key, and the keys that some other writer touched. */
  datatype Sys = Sys(
    mode: Mode, core: Core, callers: map<nat, Phase>, rows: map<Key, Block>,
    begun: set<Frozen>, sent: set<Frozen>, high: map<Key, nat>, foreign: set<Key>)

  datatype Action =
    | Propose(c: nat, w: Frozen)
    | AskLease(c: nat)
    | CheckRevision(c: nat, readable: bool)
    | AskBegin(c: nat, fate: Fate)
    | Send(c: nat)
    | Reply(c: nat, ok: bool)
    | ReadBack(c: nat, ok: bool)
    | AskFinish(c: nat)
    | LateCommit(late: Frozen)
    | OtherWriter(b: Block)
    | SaveCheckpoint
    | OwnerFails
    | Crash
    | Reopen
    | Replay(i: nat, ok: bool)
    | StartServing(save: bool)

  ghost function At(s: Sys, c: nat, p: Phase): Sys { s.(callers := s.callers[c := p]) }

  ghost function Leave(s: Sys, c: nat): Sys { s.(callers := s.callers - {c}) }

  /** The log, the state, the sent writes and the other histories are untouched. */
  ghost predicate SameHistories(s: Sys, t: Sys) {
    t.core.entries == s.core.entries && t.core.state == s.core.state && t.sent == s.sent && t.high == s.high
        && t.foreign == s.foreign
  }

  ghost function GiveUp(s: Sys, c: nat): (t: Sys)
    requires c in s.callers
    ensures SameHistories(s, t)
  {
    Leave(s.(core := Release(s.core, s.callers[c].K())), c)
  }

  /** The exact revision is checked under the lease. */
  ghost function DoCheck(s: Sys, c: nat, w: Frozen, readable: bool): (t: Sys)
    requires c in s.callers
    ensures SameHistories(s, t)
  {
    var k := w.block.Id();
    if !readable then GiveUp(s, c)
    else if w.kind == BatchKind then At(s, c, Checked(w, w))
    else if k !in s.rows then GiveUp(s, c)
    else if w.expected == 0 then At(s, c, Checked(w, w.(expected := s.rows[k].revision)))
    else if s.rows[k].revision != w.expected && s.rows[k].revision < w.block.revision then GiveUp(s, c)
    else At(s, c, Checked(w, w))
  }

  ghost function DoLease(s: Sys, c: nat, w: Frozen): (t: Sys)
    requires Identity(w).Some?
    ensures SameHistories(s, t)
  {
    var (core, grant) := Lease(s.core, w, Identity(w).value);
    var t := s.(core := core);
    match grant
    case Refused => Leave(t, c)
    case Busy => Leave(t, c)
    case Granted(None) => At(t, c, Leased(w))
    case Granted(Some(op)) => At(t, c, Writing(w, op))
  }

  ghost function DoBegin(s: Sys, c: nat, w: Frozen, selected: Frozen, fate: Fate): (t: Sys)
    requires Identity(w).Some?
    ensures t.sent == s.sent && t.high == s.high && t.foreign == s.foreign && t.core.state == s.core.state
    ensures t.core.entries == s.core.entries
      || (!s.core.poison && t.core.entries
            == s.core.entries[s.core.issued + 1 := Operation(s.core.issued + 1, Identity(w).value, selected)])
  {
    var (core, begun) := Begin(s.core, Identity(w).value, selected, fate);
    var t := s.(core := core, begun := s.begun + set i | i in core.entries :: core.entries[i].payload);
    match begun
    case None => Leave(t.(core := Release(core, w.block.Id())), c)
    case Some(op) => At(t, c, Writing(w, op))
  }

  ghost function DoReply(s: Sys, c: nat, p: Phase, ok: bool): (t: Sys)
    requires p.Sent?
    ensures SameHistories(s, t)
  {
    if ok && Put(s.rows, p.op.payload.block).Some?
    then At(s.(rows := AfterPut(s.rows, p.op.payload.block)), c, Acked(p.w, p.op))
    else At(s, c, Failed(p.w, p.op))
  }

  ghost function DoReadBack(s: Sys, c: nat, p: Phase, ok: bool): (t: Sys)
    requires p.Acked?
    ensures SameHistories(s, t)
  {
    var k := p.op.payload.block.Id();
    if ok && k in s.rows then At(s, c, Got(p.w, p.op, s.rows[k])) else At(s, c, Failed(p.w, p.op))
  }

  ghost function Installed(s: Sys, k: Key, core: Core, actual: Block): Sys {
    s.(core := core, high := s.high[k := actual.revision])
  }

  ghost function DoFinish(s: Sys, c: nat, p: Phase): (t: Sys)
    requires p.Got? || p.Failed?
    ensures t.core.entries == s.core.entries && t.sent == s.sent && t.foreign == s.foreign
    ensures t.high == s.high || (p.Got? && !s.core.poison && t.high == s.high[p.K() := p.actual.revision])
  {
    var (core, ok) := Finish(s.core, p.K(), p.op, if p.Got? then Some(p.actual) else None);
    var t := if ok then Installed(s, p.K(), core, p.actual) else s.(core := core);
    if ok && Some(p.op.id) != Identity(p.w) then At(t, c, Proposing(p.w)) else Leave(t, c)
  }

  ghost function DoReplay(s: Sys, i: nat, ok: bool): (t: Sys)
    requires i in s.core.entries
    ensures t.core.entries == s.core.entries && t.foreign == s.foreign
    ensures t.sent == s.sent || t.sent == s.sent + {s.core.entries[i].payload}
    ensures t.high == s.high || var b := s.core.entries[i].payload.block;
      Put(s.rows, b).Some? && b.Id() in AfterPut(s.rows, b)
          && t.high == s.high[b.Id() := AfterPut(s.rows, b)[b.Id()].revision]
  {
    var op := s.core.entries[i];
    var t := s.(sent := s.sent + {op.payload});
    if !Intact(s.core.manifest, op) then s.(mode := Down)
    else if !ok || Put(s.rows, op.payload.block).None? then t.(mode := Down)
    else
      var rows := AfterPut(s.rows, op.payload.block);
      var k := op.payload.block.Id();
      match Replayed(s.core, i, rows[k])
      case Failure(_) => t.(mode := Down, rows := rows)
      case Success(core) => Installed(t.(rows := rows), k, core, rows[k])
  }

  /** One step; an action that does not apply changes nothing. */
  ghost function Do(s: Sys, a: Action): Sys {
    match a
    case Propose(c, w) =>
      if s.mode.Serving? && c !in s.callers && Identity(w).Some? then At(s, c, Proposing(w)) else s
    case AskLease(c) =>
      if c in s.callers && s.callers[c].Proposing? && Identity(s.callers[c].w).Some? then DoLease(s, c, s.callers[c].w)
      else s
    case CheckRevision(c, readable) =>
      if c in s.callers && s.callers[c].Leased? then DoCheck(s, c, s.callers[c].w, readable) else s
    case AskBegin(c, fate) =>
      if c in s.callers && s.callers[c].Checked? && Identity(s.callers[c].w).Some?
      then DoBegin(s, c, s.callers[c].w, s.callers[c].selected, fate) else s
    case Send(c) =>
      if c in s.callers && s.callers[c].Writing?
      then At(s.(sent := s.sent + {s.callers[c].op.payload}), c, Phase.Sent(s.callers[c].w, s.callers[c].op)) else s
    case Reply(c, ok) =>
      if c in s.callers && s.callers[c].Sent? then DoReply(s, c, s.callers[c], ok) else s
    case ReadBack(c, ok) =>
      if c in s.callers && s.callers[c].Acked? then DoReadBack(s, c, s.callers[c], ok) else s
    case AskFinish(c) =>
      if c in s.callers && (s.callers[c].Got? || s.callers[c].Failed?) then DoFinish(s, c, s.callers[c]) else s
    case LateCommit(late) =>
      if late in s.sent then s.(rows := AfterPut(s.rows, late.block)) else s
    case OtherWriter(b) =>
      if b.manifest == s.core.manifest
      then s.(rows := AfterPut(s.rows, b), foreign := s.foreign + {b.Id()}) else s
    case SaveCheckpoint =>
      if !s.mode.Down? then s.(core := Checkpoint(s.core)) else s
    case OwnerFails =>
      if s.mode.Serving? then s.(core := s.core.(poison := true)) else s
    case Crash => s.(mode := Down, callers := map[])
    case Reopen =>
      if s.mode.Down? then s.(mode := Recovering, core := Reopened(s.core)) else s
    case Replay(i, ok) =>
      if s.mode.Recovering? && IsNext(s.core, i) then DoReplay(s, i, ok) else s
    case StartServing(save) =>
      if s.mode.Recovering? && Unresolved(s.core.entries, s.core.applied) == {}
      then s.(mode := Serving, core := if save then Checkpoint(s.core) else s.core) else s
  }

  ghost function Run(s: Sys, actions: seq<Action>): Sys
    decreases |actions|
  {
    if actions == [] then s else Run(Do(s, actions[0]), actions[1..])
  }

  // ----------------------------------------------------------------- invariant

  /** Committing this write again cannot change the database any more. */
  predicate Inert(rows: map<Key, Block>, f: Frozen) {
    var k := f.block.Id();
    || !Storable(f.block)
    || (k in rows && (rows[k].revision >= f.block.revision || (rows[k].finality == "finalized" && !f.block.Final())))
  }

  ghost predicate Agrees(m: Meaning, rows: map<Key, Block>, k: Key) {
    && (k in m.active <==> k in rows && rows[k].Live())
    && (k in m.active ==> m.active[k] == rows[k].State())
    && (k in rows && rows[k].Final() ==> k.number in m.finalized)
  }

  ghost predicate AtHigh(m: Meaning, high: map<Key, nat>, k: Key) {
    k in m.active ==> k in high && m.active[k].revision == high[k]
  }

  ghost predicate Resolved(entries: map<nat, Operation>, applied: set<nat>, k: Key) {
    forall i :: i in entries && i !in applied ==> entries[i].id.key != k
  }

  ghost predicate Owed(entries: map<nat, Operation>, applied: set<nat>, f: Frozen) {
    exists i :: i in entries && i !in applied && entries[i].payload == f
  }

  /** A pair of a state and the set of operations it has absorbed. It holds of
      the checkpoint and of the memory of a live owner. */
  ghost predicate Image(entries: map<nat, Operation>, applied: set<nat>, m: Meaning,
                        rows: map<Key, Block>, sent: set<Frozen>, high: map<Key, nat>, foreign: set<Key>)
  {
    && (forall k :: Resolved(entries, applied, k) && k !in foreign ==> AtHigh(m, high, k) && Agrees(m, rows, k))
    && (forall f :: f in sent ==> Inert(rows, f) || Owed(entries, applied, f))
    && (forall i :: i in entries && i in applied ==> Inert(rows, entries[i].payload))
    && (forall k :: k in m.active ==>
        k in rows && m.active[k].number == k.number && m.active[k].revision <= rows[k].revision)
    && (forall n :: n in m.finalized ==> exists k :: k in rows && k.number == n && rows[k].Final())
  }

  ghost predicate RowsOk(rows: map<Key, Block>, manifest: Hash, high: map<Key, nat>) {
    && manifest != 0
    && (forall k :: k in rows ==> rows[k].Id() == k && Accepts(manifest, rows[k]))
    && (forall k :: k in high ==> k in rows && high[k] <= rows[k].revision)
  }

  ghost predicate LogOk(c: Core, begun: set<Frozen>) {
    && UniqueIds(c.entries)
    && c.saved.through <= c.issued
    && (forall i :: i in c.entries ==>
        && i == c.entries[i].sequence <= c.issued
        && Intact(c.manifest, c.entries[i]) && c.entries[i].payload.block.chainId == 1
        && c.entries[i].payload in begun)
  }

  /** The bookkeeping of a serving owner. */
  ghost predicate ServingOk(c: Core, high: map<Key, nat>, foreign: set<Key>) {
    && (forall k :: k in c.pending ==> c.pending[k].key == k)
    && (forall i :: i in c.entries && i !in c.applied ==>
        c.entries[i].id.key in c.pending && c.pending[c.entries[i].id.key] == c.entries[i].id)
    && (forall k :: k !in foreign ==> AtHigh(c.state, high, k))
  }

  /** The expected revision is the caller's own or stands in for none. */
  predicate IsOwnPlan(w: Frozen, f: Frozen) { f.expected == w.expected || (f.kind != BatchKind && w.expected == 0) }

  /** The plan was made against the stored row, or its outcome is stored already. */
  predicate IsExact(rows: map<Key, Block>, w: Frozen, f: Frozen) {
    f.kind != BatchKind ==>
      && f.block.Id() in rows
      && (rows[f.block.Id()].revision == f.expected || rows[f.block.Id()].revision >= f.block.revision)
      && (w.expected == 0 ==> rows[f.block.Id()].revision == f.expected)
  }

  ghost predicate CallerOk(s: Sys, p: Phase) {
    && Identity(p.w).Some?
    && (!p.Proposing? ==> p.K() in s.core.inflight && p.w.block.manifest == s.core.manifest && p.w.block.chainId == 1)
    && (p.Checked? ==> p.selected == p.w.(expected := p.selected.expected) && IsOwnPlan(p.w, p.selected))
    && (p.Checked? && !s.core.poison && p.K() !in s.foreign ==> IsExact(s.rows, p.w, p.selected))
    && ((p.Leased? || p.Checked?) && !s.core.poison ==> Resolved(s.core.entries, s.core.applied, p.K()))
    && (p.HasOp() ==>
      && p.op.payload.block.Id() == p.K()
      && p.op.id.key == p.K()
      && p.op.payload.block.manifest == s.core.manifest
      && p.op.payload in s.begun
      && (Inert(s.rows, p.op.payload) || Owed(s.core.entries, s.core.applied, p.op.payload))
      && (!s.core.poison ==> OnlyOwed(s.core.entries, s.core.applied, p.op)))
    && (p.Sent? ==> p.op.payload in s.sent)
    && (p.Acked? || p.Got? ==> Inert(s.rows, p.op.payload))
    && (p.Acked? ==> p.K() in s.rows)
    && (p.Got? ==>
      && p.actual.Id() == p.K() && Accepts(s.core.manifest, p.actual)
      && p.K() in s.rows && p.actual.revision <= s.rows[p.K()].revision
      && (p.actual.Final() ==> s.rows[p.K()].Final())
      && (!s.core.poison ==>
        && (p.K() in s.core.state.active ==> s.core.state.active[p.K()].revision <= p.actual.revision)
        && (p.K() !in s.foreign ==> p.actual == s.rows[p.K()])))
  }

  /** The only operation of this key that can still be unresolved is `op`. */
  ghost predicate OnlyOwed(entries: map<nat, Operation>, applied: set<nat>, op: Operation) {
    forall i :: i in entries && i !in applied && entries[i].id.key == op.id.key ==> entries[i] == op
  }

  /** At most one caller holds the lease of a block key. */
  ghost predicate Exclusive(callers: map<nat, Phase>) {
    forall c, d :: c in callers && d in callers && c != d && !callers[c].Proposing? && !callers[d].Proposing?
      ==> callers[c].K() != callers[d].K()
  }

  /** A publication of this manifest on the first chain, of the known version, with the body that
      its kind calls for. */
  predicate IsProper(manifest: Hash, f: Frozen) {
    && f.version == 1 && f.block.revision != 0 && f.block.manifest == manifest && f.block.chainId == 1
    && (f.kind == BatchKind ==> f.body.BatchBody? && f.body.block == f.block)
    && (f.kind == BlockKind ==> f.body.NoBody?)
    && (f.kind == LogsKind ==> !f.body.BatchBody?)
  }

  ghost predicate CoreInv(s: Sys) {
    && RowsOk(s.rows, s.core.manifest, s.high)
    && LogOk(s.core, s.begun)
    && s.sent <= s.begun
    && (forall f :: f in s.begun ==> IsProper(s.core.manifest, f))
    && Image(s.core.entries, Settled(s.core), s.core.saved.state, s.rows, s.sent, s.high, s.foreign)
    && (!s.mode.Down? ==> Settled(s.core) <= s.core.applied && forall i :: i in s.core.applied ==> i <= s.core.issued)
    && (!s.mode.Down? && !s.core.poison ==>
        Image(s.core.entries, s.core.applied, s.core.state, s.rows, s.sent, s.high, s.foreign))
    && (s.mode.Serving? && !s.core.poison ==> ServingOk(s.core, s.high, s.foreign))
    && (s.mode.Recovering? ==> !s.core.poison && s.core.pending == map[])
  }

  ghost predicate Inv(s: Sys) {
    && CoreInv(s)
    && (!s.mode.Serving? ==> s.callers == map[])
    && Exclusive(s.callers)
    && (forall c :: c in s.callers ==> CallerOk(s, s.callers[c]))
  }

  // ------------------------------------------------------------- database steps

  ghost predicate Grew(a: map<Key, Block>, b: map<Key, Block>) {
    forall k :: k in a ==>
      && k in b && a[k].revision <= b[k].revision
      && (a[k].Final() ==> b[k].Final())
      && (a[k].finality == "finalized" ==> b[k].finality == "finalized")
  }

  lemma PutGrows(rows: map<Key, Block>, b: Block)
    ensures Grew(rows, AfterPut(rows, b))
    ensures forall k :: k != b.Id() ==>
      (k in AfterPut(rows, b) <==> k in rows) && (k in rows ==> AfterPut(rows, b)[k] == rows[k])
    ensures forall f: Frozen :: f.block == b && Inert(rows, f) ==> AfterPut(rows, b) == rows
    ensures forall f: Frozen :: f.block == b && Put(rows, b).Some? ==>
      Inert(AfterPut(rows, b), f) && b.Id() in AfterPut(rows, b)
  {
  }

  lemma InertForever(a: map<Key, Block>, b: map<Key, Block>, f: Frozen)
    requires Grew(a, b) && Inert(a, f)
    ensures Inert(b, f)
  {
  }

  /** Changing the database under an image: only a write that is still owed, or
      another writer, can make the image of a key stale. */
  lemma ImageOverRows(s: Sys, applied: set<nat>, m: Meaning, b: Block, foreign: set<Key>)
    requires LogOk(s.core, s.begun) && RowsOk(s.rows, s.core.manifest, s.high)
    requires Image(s.core.entries, applied, m, s.rows, s.sent, s.high, s.foreign)
    requires s.foreign <= foreign && (b.Id() in foreign || exists f :: f in s.sent && f.block == b)
    ensures Image(s.core.entries, applied, m, AfterPut(s.rows, b), s.sent, s.high, foreign)
  {
    var entries := s.core.entries;
    var rows := AfterPut(s.rows, b);
    PutGrows(s.rows, b);
    forall k | Resolved(entries, applied, k) && k !in foreign ensures Agrees(m, rows, k) {
      assert Agrees(m, s.rows, k);
      if k == b.Id() {
        var f :| f in s.sent && f.block == b;
        assert Inert(s.rows, f);
        assert rows == s.rows;
      }
    }
    forall f | f in s.sent ensures Inert(rows, f) || Owed(entries, applied, f) {
      if Inert(s.rows, f) {
        InertForever(s.rows, rows, f);
      }
    }
    forall i | i in entries && i in applied ensures Inert(rows, entries[i].payload) {
      InertForever(s.rows, rows, entries[i].payload);
    }
    forall n | n in m.finalized ensures exists k :: k in rows && k.number == n && rows[k].Final() {
      var k :| k in s.rows && k.number == n && s.rows[k].Final();
      assert k in rows && rows[k].Final();
    }
  }

  /** Under a lease nobody but a declared other writer moves the row of the key. */
  lemma LeasedRowStays(s: Sys, p: Phase, b: Block, foreign: set<Key>)
    requires Inv(s) && CallerOk(s, p) && (p.Got? || p.Checked?) && !s.core.poison && !s.mode.Down?
    requires b.Id() in foreign || exists f :: f in s.sent && f.block == b
    requires p.K() !in foreign
    ensures p.K() in AfterPut(s.rows, b) <==> p.K() in s.rows
    ensures p.K() in s.rows ==> AfterPut(s.rows, b)[p.K()] == s.rows[p.K()]
  {
    PutGrows(s.rows, b);
    if p.K() == b.Id() {
      var f :| f in s.sent && f.block == b;
      assert Inert(s.rows, f);
    }
  }

  lemma CallerOverRows(s: Sys, p: Phase, b: Block, foreign: set<Key>)
    requires Inv(s) && s.mode.Serving? && CallerOk(s, p)
    requires s.foreign <= foreign && (b.Id() in foreign || exists f :: f in s.sent && f.block == b)
    ensures CallerOk(s.(rows := AfterPut(s.rows, b), foreign := foreign), p)
  {
    PutGrows(s.rows, b);
    if p.HasOp() && Inert(s.rows, p.op.payload) {
      InertForever(s.rows, AfterPut(s.rows, b), p.op.payload);
    }
    if (p.Got? || p.Checked?) && !s.core.poison && p.K() !in foreign {
      LeasedRowStays(s, p, b, foreign);
    }
    hide Inv, AfterPut, Inert, Owed, OnlyOwed, Resolved, Identity;
  }

  lemma CoreOverRows(s: Sys, b: Block, foreign: set<Key>)
    requires CoreInv(s) && b.manifest == s.core.manifest
    requires s.foreign <= foreign && (b.Id() in foreign || exists f :: f in s.sent && f.block == b)
    ensures CoreInv(s.(rows := AfterPut(s.rows, b), foreign := foreign))
  {
    hide Image;
    PutGrows(s.rows, b);
    ImageOverRows(s, Settled(s.core), s.core.saved.state, b, foreign);
    if !s.mode.Down? && !s.core.poison {
      ImageOverRows(s, s.core.applied, s.core.state, b, foreign);
    }
  }

  lemma InvOverRows(s: Sys, b: Block, foreign: set<Key>)
    requires Inv(s) && b.manifest == s.core.manifest
    requires s.foreign <= foreign && (b.Id() in foreign || exists f :: f in s.sent && f.block == b)
    ensures Inv(s.(rows := AfterPut(s.rows, b), foreign := foreign))
  {
    CoreOverRows(s, b, foreign);
    hide CoreInv, CallerOk;
    forall c | c in s.callers ensures CallerOk(s.(rows := AfterPut(s.rows, b), foreign := foreign), s.callers[c]) {
      CallerOverRows(s, s.callers[c], b, foreign);
    }
  }

  // --------------------------------------------------------------- caller steps

  lemma InvMove(s: Sys, c: nat, p: Phase)
    requires Inv(s) && s.mode.Serving? && CallerOk(s, p)
    requires p.Proposing? || (c in s.callers && !s.callers[c].Proposing? && s.callers[c].K() == p.K())
    ensures Inv(At(s, c, p))
  {
    hide Image;
    var t := At(s, c, p);
    forall d | d in t.callers ensures CallerOk(t, t.callers[d]) {
      assert d != c ==> CallerOk(s, s.callers[d]);
    }
  }

  lemma InvLeave(s: Sys, c: nat)
    requires Inv(s)
    ensures Inv(Leave(s, c))
  {
    hide Image;
    var t := Leave(s, c);
    forall d | d in t.callers ensures CallerOk(t, t.callers[d]) {
      assert CallerOk(s, s.callers[d]);
    }
  }

  lemma InvPoison(s: Sys)
    requires Inv(s) && s.mode.Serving?
    ensures Inv(s.(core := s.core.(poison := true)))
  {
    hide Image;
    var t := s.(core := s.core.(poison := true));
    assert Settled(t.core) == Settled(s.core);
    forall d | d in t.callers ensures CallerOk(t, t.callers[d]) {
      assert CallerOk(s, s.callers[d]);
    }
  }

  /** Dropping a lease is safe for the caller that holds it. */
  lemma InvGiveUp(s: Sys, c: nat)
    requires Inv(s) && c in s.callers && !s.callers[c].Proposing?
    ensures Inv(GiveUp(s, c))
  {
    hide Image;
    var t := GiveUp(s, c);
    assert Settled(t.core) == Settled(s.core);
    forall d | d in t.callers ensures CallerOk(t, t.callers[d]) {
      assert d != c && CallerOk(s, s.callers[d]);
      assert !s.callers[d].Proposing? ==> s.callers[d].K() != s.callers[c].K();
    }
  }

  lemma InvCheck(s: Sys, c: nat, w: Frozen, readable: bool)
    requires Inv(s) && c in s.callers && s.callers[c] == Leased(w)
    ensures Inv(DoCheck(s, c, w, readable))
  {
    var t := DoCheck(s, c, w, readable);
    InvGiveUp(s, c);
    if c in t.callers {
      CheckedOk(s, c, w, readable);
      hide Inv, CallerOk;
      InvMove(s, c, t.callers[c]);
    }
  }

  lemma CheckedOk(s: Sys, c: nat, w: Frozen, readable: bool)
    requires Inv(s) && c in s.callers && s.callers[c] == Leased(w) && c in DoCheck(s, c, w, readable).callers
    ensures var p := DoCheck(s, c, w, readable).callers[c];
      p.Checked? && p.w == w && CallerOk(s, p) && DoCheck(s, c, w, readable) == At(s, c, p)
  {
    assert CallerOk(s, s.callers[c]);
    hide Image, LogOk;
  }

  lemma ImageSend(s: Sys, applied: set<nat>, m: Meaning, f: Frozen)
    requires Image(s.core.entries, applied, m, s.rows, s.sent, s.high, s.foreign)
    requires Inert(s.rows, f) || Owed(s.core.entries, applied, f)
    ensures Image(s.core.entries, applied, m, s.rows, s.sent + {f}, s.high, s.foreign)
  {
  }

  lemma InvSend(s: Sys, f: Frozen)
    requires Inv(s) && !s.mode.Down? && f in s.begun
    requires Inert(s.rows, f) || Owed(s.core.entries, s.core.applied, f)
    ensures Inv(s.(sent := s.sent + {f}))
  {
    hide Image;
    var t := s.(sent := s.sent + {f});
    if Owed(s.core.entries, s.core.applied, f) {
      var i :| i in s.core.entries && i !in s.core.applied && s.core.entries[i].payload == f;
      assert i !in Settled(s.core);
    }
    ImageSend(s, Settled(s.core), s.core.saved.state, f);
    if !s.core.poison {
      ImageSend(s, s.core.applied, s.core.state, f);
    }
    forall d | d in t.callers ensures CallerOk(t, t.callers[d]) {
      assert CallerOk(s, s.callers[d]);
    }
  }

  lemma AckedOk(s: Sys, p: Phase)
    requires CallerOk(s, p) && p.Sent? && Put(s.rows, p.op.payload.block).Some?
    ensures CallerOk(s.(rows := AfterPut(s.rows, p.op.payload.block)), Acked(p.w, p.op))
  {
  }

  lemma InvReply(s: Sys, c: nat, p: Phase, ok: bool)
    requires Inv(s) && s.mode.Serving? && c in s.callers && s.callers[c] == p && p.Sent?
    requires CallerOk(s, p) && p.op.payload in s.sent && p.op.payload.block.manifest == s.core.manifest
    ensures Inv(DoReply(s, c, p, ok))
  {
    hide Inv;
    if ok && Put(s.rows, p.op.payload.block).Some? {
      InvOverRows(s, p.op.payload.block, s.foreign);
      AckedOk(s, p);
      InvMove(s.(rows := AfterPut(s.rows, p.op.payload.block)), c, Acked(p.w, p.op));
    } else {
      InvMove(s, c, Failed(p.w, p.op));
    }
  }

  lemma InvReadBack(s: Sys, c: nat, p: Phase, ok: bool)
    requires Inv(s) && c in s.callers && s.callers[c] == p && p.Acked?
    ensures Inv(DoReadBack(s, c, p, ok))
  {
    assert CallerOk(s, p);
    if ok && p.K() in s.rows {
      InvMove(s, c, Got(p.w, p.op, s.rows[p.K()]));
    } else {
      InvMove(s, c, Failed(p.w, p.op));
    }
  }

  // ---------------------------------------------------------------- owner steps

  lemma FindFinds(entries: map<nat, Operation>, id: Id)
    ensures var r := Find(entries, id);
      if r.Some? then (exists i :: i in entries && entries[i] == r.value && entries[i].id == id)
      else forall i :: i in entries ==> entries[i].id != id
  {
  }

  /** A granted lease either finds the operation that the key still owes, or the
      key owes nothing. */
  lemma LeaseFindsOwed(s: Sys, w: Frozen)
    requires Inv(s) && s.mode.Serving? && !s.core.poison && Identity(w).Some?
    ensures var grant := Lease(s.core, w, Identity(w).value).1;
      grant.Granted? ==>
        match grant.found
        case None => Resolved(s.core.entries, s.core.applied, w.block.Id())
        case Some(op) =>
          && OnlyOwed(s.core.entries, s.core.applied, op)
          && op.id.key == w.block.Id()
          && exists i :: i in s.core.entries && s.core.entries[i] == op
  {
    var k := w.block.Id();
    var previous := if k in s.core.pending then s.core.pending[k] else Identity(w).value;
    assert previous.key == k;
    FindFinds(s.core.entries, previous);
    forall i | i in s.core.entries && i !in s.core.applied && s.core.entries[i].id.key == k
      ensures s.core.entries[i].id == previous
    {
    }
  }

  lemma OtherKeys(s: Sys, k: Key)
    requires Inv(s) && k !in s.core.inflight
    ensures forall d :: d in s.callers && !s.callers[d].Proposing? ==> s.callers[d].K() != k
  {
  }

  ghost function WithLease(s: Sys, k: Key): Sys { s.(core := s.core.(inflight := s.core.inflight + {k})) }

  lemma InvInflight(s: Sys, k: Key)
    requires Inv(s) && s.mode.Serving?
    ensures Inv(WithLease(s, k))
  {
    hide Image;
    var t := WithLease(s, k);
    assert Settled(t.core) == Settled(s.core);
    forall d | d in s.callers ensures CallerOk(t, s.callers[d]) {
      assert CallerOk(s, s.callers[d]);
    }
  }

  lemma InvJoin(s: Sys, c: nat, p: Phase)
    requires Inv(s) && s.mode.Serving? && CallerOk(s, p) && c in s.callers && s.callers[c].Proposing?
    requires forall d :: d in s.callers && !s.callers[d].Proposing? ==> s.callers[d].K() != p.K()
    ensures Inv(At(s, c, p))
  {
    hide Image;
    var t := At(s, c, p);
    forall d | d in t.callers ensures CallerOk(t, t.callers[d]) {
      assert d != c ==> CallerOk(s, s.callers[d]);
    }
  }

  lemma InvAddLease(s: Sys, c: nat, p: Phase)
    requires Inv(s) && s.mode.Serving? && !p.Proposing? && p.K() !in s.core.inflight
    requires c in s.callers && s.callers[c].Proposing?
    requires CallerOk(WithLease(s, p.K()), p)
    ensures Inv(At(WithLease(s, p.K()), c, p))
  {
    hide Inv, CallerOk;
    OtherKeys(s, p.K());
    InvInflight(s, p.K());
    InvJoin(WithLease(s, p.K()), c, p);
  }

  lemma GrantOk(s: Sys, w: Frozen, p: Phase)
    requires Inv(s) && s.mode.Serving? && !s.core.poison && Identity(w).Some?
    requires Lease(s.core, w, Identity(w).value).1.Granted?
    requires var found := Lease(s.core, w, Identity(w).value).1.found;
      p == if found.Some? then Writing(w, found.value) else Leased(w)
    ensures CallerOk(WithLease(s, w.block.Id()), p)
  {
    LeaseFindsOwed(s, w);
    if p.Writing? {
      var i :| i in s.core.entries && s.core.entries[i] == p.op;
      assert i in s.core.applied ==> Inert(s.rows, p.op.payload);
    }
  }

  lemma InvLeaseGranted(s: Sys, c: nat, w: Frozen)
    requires Inv(s) && s.mode.Serving? && c in s.callers && s.callers[c] == Proposing(w) && Identity(w).Some?
    requires Lease(s.core, w, Identity(w).value).1.Granted?
    ensures Inv(DoLease(s, c, w))
  {
    hide Inv;
    var found := Lease(s.core, w, Identity(w).value).1.found;
    var p := if found.Some? then Writing(w, found.value) else Leased(w);
    GrantOk(s, w, p);
    InvAddLease(s, c, p);
  }

  lemma InvLease(s: Sys, c: nat, w: Frozen)
    requires Inv(s) && s.mode.Serving? && c in s.callers && s.callers[c] == Proposing(w) && Identity(w).Some?
    ensures Inv(DoLease(s, c, w))
  {
    hide Inv;
    var (core, grant) := Lease(s.core, w, Identity(w).value);
    if grant.Granted? {
      InvLeaseGranted(s, c, w);
    } else if core == s.core {
      InvLeave(s, c);
    } else {
      InvPoison(s);
      InvLeave(s.(core := s.core.(poison := true)), c);
    }
  }

  // -- logging a new operation

  ghost function Logged(c: Core, id: Id, w: Frozen): Core {
    c.(entries := c.entries[c.issued + 1 := Operation(c.issued + 1, id, w)], issued := c.issued + 1)
  }

  lemma ImageLogged(s: Sys, applied: set<nat>, m: Meaning, id: Id, w: Frozen)
    requires LogOk(s.core, s.begun) && s.core.issued + 1 !in applied
    requires Image(s.core.entries, applied, m, s.rows, s.sent, s.high, s.foreign)
    ensures Image(Logged(s.core, id, w).entries, applied, m, s.rows, s.sent, s.high, s.foreign)
  {
    var entries := Logged(s.core, id, w).entries;
    assert s.core.issued + 1 !in s.core.entries;
    forall k | Resolved(entries, applied, k) ensures Resolved(s.core.entries, applied, k) {
      forall i | i in s.core.entries && i !in applied ensures s.core.entries[i].id.key != k {
        assert entries[i] == s.core.entries[i];
      }
    }
    forall f | f in s.sent && Owed(s.core.entries, applied, f) ensures Owed(entries, applied, f) {
      var i :| i in s.core.entries && i !in applied && s.core.entries[i].payload == f;
      assert entries[i].payload == f;
    }
  }

  /** What a caller relies on survives the logging of an operation of a key that
      it does not hold, and of any key once the owner is poisoned. */
  lemma CallerLogged(s: Sys, t: Sys, p: Phase, id: Id, w: Frozen)
    requires LogOk(s.core, s.begun) && CallerOk(s, p)
    requires s.begun <= t.begun && t.rows == s.rows && t.sent == s.sent && t.foreign == s.foreign && t.high == s.high
    requires t.core == Logged(s.core, id, w).(pending := t.core.pending, poison := t.core.poison)
    requires s.core.poison ==> t.core.poison
    requires t.core.poison || p.Proposing? || p.K() != id.key
    requires s.core.issued + 1 !in s.core.applied
    ensures CallerOk(t, p)
  {
    assert s.core.issued + 1 !in s.core.entries;
    if p.HasOp() && Owed(s.core.entries, s.core.applied, p.op.payload) {
      var i :| i in s.core.entries && i !in s.core.applied && s.core.entries[i].payload == p.op.payload;
      assert t.core.entries[i].payload == p.op.payload;
    }
  }

  /** The operation that a caller logs is the only one its key owes. */
  lemma LogOkAfter(s: Sys, id: Id, w: Frozen)
    requires LogOk(s.core, s.begun) && Find(s.core.entries, id).None?
    requires Identity(w) == Some(id) && w.block.manifest == s.core.manifest && w.block.chainId == 1
    ensures LogOk(Logged(s.core, id, w), s.begun + {w})
  {
  }

  lemma InvBeginLost(s: Sys, c: nat, w: Frozen, selected: Frozen)
    requires Inv(s) && c in s.callers && s.callers[c] == Checked(w, selected) && !s.core.poison
    requires Identity(w).Some? && Find(s.core.entries, Identity(w).value).None?
    ensures Inv(DoBegin(s, c, w, selected, IntentInstalled))
  {
    hide Image, DoBegin;
    var id := Identity(w).value;
    assert CallerOk(s, s.callers[c]);
    var t := DoBegin(s, c, w, selected, IntentInstalled);
    BeginIsLost(s, c, w, selected, id);
    LogOkAfter(s, id, selected);
    ImageLogged(s, Settled(s.core), s.core.saved.state, id, selected);
    forall d | d in t.callers ensures CallerOk(t, t.callers[d]) {
      CallerLogged(s, t, s.callers[d], id, selected);
    }
  }

  /** The intent is logged, and the owner has stopped. */
  lemma BeginIsLost(s: Sys, c: nat, w: Frozen, selected: Frozen, id: Id)
    requires LogOk(s.core, s.begun) && !s.core.poison && Identity(w) == Some(id) && Find(s.core.entries, id).None?
    ensures var core := Logged(s.core, id, selected).(poison := true);
      && DoBegin(s, c, w, selected, IntentInstalled)
        == s.(core := core, begun := s.begun + {selected}, callers := s.callers - {c})
      && Settled(core) == Settled(s.core)
  {
    var core := Logged(s.core, id, selected).(poison := true);
    BegunIsLogged(s, core, id, selected);
    assert Settled(core) == Settled(s.core);
  }

  lemma BegunIsLogged(s: Sys, core: Core, id: Id, w: Frozen)
    requires LogOk(s.core, s.begun) && core.entries == Logged(s.core, id, w).entries
    ensures s.begun + (set i | i in core.entries :: core.entries[i].payload) == s.begun + {w}
  {
    assert s.core.issued + 1 in core.entries;
    forall i | i in core.entries ensures core.entries[i].payload in s.begun + {w} {
      assert i != s.core.issued + 1 ==> core.entries[i] == s.core.entries[i];
    }
  }

  lemma BegunCovers(s: Sys)
    requires LogOk(s.core, s.begun)
    ensures s.begun + (set i | i in s.core.entries :: s.core.entries[i].payload) == s.begun
  {
  }

  lemma ServingLogged(s: Sys, id: Id, w: Frozen)
    requires LogOk(s.core, s.begun) && ServingOk(s.core, s.high, s.foreign)
    requires Resolved(s.core.entries, s.core.applied, id.key)
    ensures ServingOk(Logged(s.core, id, w).(pending := s.core.pending[id.key := id]), s.high, s.foreign)
  {
  }

  lemma WriterLogged(s: Sys, t: Sys, p: Phase, id: Id)
    requires Inv(s) && CallerOk(s, p) && p.Checked? && !s.core.poison && s.mode.Serving?
    requires Identity(p.w) == Some(id)
    requires t.core == Logged(s.core, id, p.selected).(pending := s.core.pending[id.key := id])
    requires t == s.(core := t.core, begun := s.begun + {p.selected})
    ensures CallerOk(t, Writing(p.w, Operation(s.core.issued + 1, id, p.selected)))
  {
    var op := Operation(s.core.issued + 1, id, p.selected);
    assert t.core.entries[s.core.issued + 1] == op;
    assert Owed(t.core.entries, t.core.applied, op.payload);
  }

  lemma CoreLogged(s: Sys, id: Id, w: Frozen)
    requires CoreInv(s) && s.mode.Serving? && !s.core.poison
    requires Find(s.core.entries, id).None? && Resolved(s.core.entries, s.core.applied, id.key)
    requires Identity(w) == Some(id) && w.block.manifest == s.core.manifest && w.block.chainId == 1
    ensures CoreInv(s.(core := Logged(s.core, id, w).(pending := s.core.pending[id.key := id]), begun := s.begun + {w}))
  {
    hide Image;
    var core := Logged(s.core, id, w).(pending := s.core.pending[id.key := id]);
    LogOkAfter(s, id, w);
    assert Settled(core) == Settled(s.core);
    ImageLogged(s, Settled(s.core), s.core.saved.state, id, w);
    ImageLogged(s, s.core.applied, s.core.state, id, w);
    ServingLogged(s, id, w);
  }

  /** Assembles the invariant after one caller moved and the core changed. */
  lemma InvMoveTo(s: Sys, t: Sys, c: nat, p: Phase)
    requires Inv(s) && s.mode.Serving? && t.mode.Serving? && t.callers == s.callers && CoreInv(t)
    requires c in s.callers && !s.callers[c].Proposing? && s.callers[c].K() == p.K() && CallerOk(t, p)
    requires forall d :: d in s.callers && d != c ==> CallerOk(t, s.callers[d])
    ensures Inv(At(t, c, p))
  {
    hide CoreInv, CallerOk, Resolved, OnlyOwed;
    AtSameOk(t, c, p, p);
    var u := At(t, c, p);
    forall d | d in u.callers ensures CallerOk(u, u.callers[d]) {
      if d != c {
        AtSameOk(t, c, p, s.callers[d]);
      }
    }
    assert CoreInv(u) by {
      CoreInvAt(t, c, p);
    }
  }

  /** Who the callers are does not matter to what one caller, or the core, needs. */
  lemma AtSameOk(s: Sys, c: nat, p: Phase, q: Phase)
    ensures CallerOk(At(s, c, p), q) <==> CallerOk(s, q)
  {
  }

  lemma CoreInvAt(s: Sys, c: nat, p: Phase)
    requires CoreInv(s)
    ensures CoreInv(At(s, c, p))
  {
  }

  lemma CallersLogged(s: Sys, t: Sys, c: nat, id: Id, w: Frozen)
    requires Inv(s) && c in s.callers && s.callers[c].Checked? && s.callers[c].K() == id.key
    requires !s.core.poison && t.core == Logged(s.core, id, w).(pending := t.core.pending)
    requires t == s.(core := t.core, begun := s.begun + {w})
    ensures forall d :: d in s.callers && d != c ==> CallerOk(t, s.callers[d])
  {
    forall d | d in s.callers && d != c ensures CallerOk(t, s.callers[d]) {
      CallerLogged(s, t, s.callers[d], id, w);
    }
  }

  ghost function LoggedFor(s: Sys, id: Id, w: Frozen): Sys {
    s.(core := Logged(s.core, id, w).(pending := s.core.pending[id.key := id]), begun := s.begun + {w})
  }

  lemma BeginLogs(s: Sys, c: nat, w: Frozen, selected: Frozen, id: Id)
    requires LogOk(s.core, s.begun) && !s.core.poison
    requires Identity(w) == Some(id) && Find(s.core.entries, id).None?
    ensures DoBegin(s, c, w, selected, Done)
         == At(LoggedFor(s, id, selected), c, Writing(w, Operation(s.core.issued + 1, id, selected)))
  {
    hide LogOk, Find;
    BegunIsLogged(s, LoggedFor(s, id, selected).core, id, selected);
  }

  lemma InvBeginDone(s: Sys, c: nat, p: Phase, id: Id)
    requires Inv(s) && s.mode.Serving? && c in s.callers && s.callers[c] == p && p.Checked? && !s.core.poison
    requires Identity(p.w) == Some(id) && Find(s.core.entries, id).None?
    ensures Inv(DoBegin(s, c, p.w, p.selected, Done))
  {
    assert CallerOk(s, p) && LogOk(s.core, s.begun) && CoreInv(s);
    hide Inv, CoreInv, LogOk, DoBegin, Find;
    var t := LoggedFor(s, id, p.selected);
    BeginLogs(s, c, p.w, p.selected, id);
    CoreLogged(s, id, p.selected);
    WriterLogged(s, t, p, id);
    CallersLogged(s, t, c, id, p.selected);
    InvMoveTo(s, t, c, Writing(p.w, Operation(s.core.issued + 1, id, p.selected)));
  }

  /** The log already knows this identity, so its operation was applied; it is
      taken up again unchanged. */
  lemma AgainOk(s: Sys, p: Phase, id: Id, op: Operation)
    requires Inv(s) && s.mode.Serving? && CallerOk(s, p) && p.Checked? && !s.core.poison
    requires Identity(p.w) == Some(id) && Find(s.core.entries, id) == Some(op) && op.payload == p.selected
    ensures CallerOk(s.(core := s.core.(pending := s.core.pending[id.key := id])), Writing(p.w, op))
  {
  }

  lemma InvPending(s: Sys, k: Key, id: Id)
    requires Inv(s) && s.mode.Serving? && !s.core.poison && id.key == k
    requires forall i :: i in s.core.entries && i !in s.core.applied && s.core.entries[i].id.key == k ==>
      s.core.entries[i].id == id
    ensures Inv(s.(core := s.core.(pending := s.core.pending[k := id])))
  {
    hide Image;
    var t := s.(core := s.core.(pending := s.core.pending[k := id]));
    assert Settled(t.core) == Settled(s.core);
    forall d | d in s.callers ensures CallerOk(t, s.callers[d]) {
      assert CallerOk(s, s.callers[d]);
    }
  }

  lemma BeginAgainIs(s: Sys, c: nat, w: Frozen, selected: Frozen, id: Id, op: Operation)
    requires LogOk(s.core, s.begun) && !s.core.poison
    requires Identity(w) == Some(id) && Find(s.core.entries, id) == Some(op) && op.payload == selected
    ensures DoBegin(s, c, w, selected, Done)
         == At(s.(core := s.core.(pending := s.core.pending[id.key := id])), c, Writing(w, op))
  {
  }

  lemma InvBeginAgain(s: Sys, c: nat, w: Frozen, selected: Frozen, op: Operation)
    requires Inv(s) && s.mode.Serving? && c in s.callers && s.callers[c] == Checked(w, selected) && !s.core.poison
    requires Identity(w).Some? && Find(s.core.entries, Identity(w).value) == Some(op) && op.payload == selected
    ensures Inv(DoBegin(s, c, w, selected, Done))
  {
    var id := Identity(w).value;
    assert CallerOk(s, s.callers[c]) && LogOk(s.core, s.begun);
    assert id.key == w.block.Id() && Resolved(s.core.entries, s.core.applied, id.key);
    AgainOk(s, s.callers[c], id, op);
    BeginAgainIs(s, c, w, selected, id, op);
    hide Inv, CallerOk, LogOk, DoBegin, Find;
    InvPending(s, id.key, id);
    InvMove(s.(core := s.core.(pending := s.core.pending[id.key := id])), c, Writing(w, op));
  }

  lemma InvBegin(s: Sys, c: nat, w: Frozen, selected: Frozen, fate: Fate)
    requires Inv(s) && s.mode.Serving? && c in s.callers && s.callers[c] == Checked(w, selected) && Identity(w).Some?
    ensures Inv(DoBegin(s, c, w, selected, fate))
  {
    assert LogOk(s.core, s.begun);
    hide Inv;
    BegunCovers(s);
    if s.core.poison {
      InvLeave(s, c);
    } else if fate == NothingInstalled || (Find(s.core.entries, Identity(w).value).Some?
        && !(fate == Done && Find(s.core.entries, Identity(w).value).value.payload == selected)) {
      InvPoison(s);
      InvLeave(s.(core := s.core.(poison := true)), c);
    } else if Find(s.core.entries, Identity(w).value).Some? {
      InvBeginAgain(s, c, w, selected, Find(s.core.entries, Identity(w).value).value);
    } else if fate == Done {
      InvBeginDone(s, c, s.callers[c], Identity(w).value);
    } else {
      InvBeginLost(s, c, w, selected);
    }
  }

  // -- installing a stored row in the state

  ghost predicate Installable(s: Sys, i: nat, k: Key, actual: Block) {
    && i in s.core.entries && s.core.entries[i].id.key == k && Inert(s.rows, s.core.entries[i].payload)
    && actual.Id() == k && Accepts(s.core.manifest, actual)
    && k in s.rows && actual.revision <= s.rows[k].revision && (actual.Final() ==> s.rows[k].Final())
    && (k !in s.foreign ==> actual == s.rows[k])
  }

  lemma ImageInstalled(s: Sys, i: nat, k: Key, actual: Block, m: Meaning)
    requires Image(s.core.entries, s.core.applied, s.core.state, s.rows, s.sent, s.high, s.foreign)
    requires Installable(s, i, k, actual) && ApplyBlock(s.core.manifest, s.core.state, actual) == Success(m)
    ensures Image(s.core.entries, s.core.applied + {i}, m, s.rows, s.sent, s.high[k := actual.revision], s.foreign)
  {
    var entries, applied := s.core.entries, s.core.applied + {i};
    forall h | Resolved(entries, applied, h) && h !in s.foreign
      ensures AtHigh(m, s.high[k := actual.revision], h) && Agrees(m, s.rows, h)
    {
      if h != k {
        assert Resolved(entries, s.core.applied, h);
        assert Agrees(s.core.state, s.rows, h);
      }
    }
    forall f | f in s.sent ensures Inert(s.rows, f) || Owed(entries, applied, f) {
      if !Inert(s.rows, f) {
        var j :| j in entries && j !in s.core.applied && entries[j].payload == f;
        assert j != i;
      }
    }
  }

  /** The checkpoint is not made stale by it: a key that the checkpoint knows as
      resolved, and that nobody else writes, already stood at this revision. */
  lemma SavedInstalled(s: Sys, i: nat, k: Key, actual: Block)
    requires Image(s.core.entries, Settled(s.core), s.core.saved.state, s.rows, s.sent, s.high, s.foreign)
    requires Installable(s, i, k, actual)
    ensures Image(s.core.entries, Settled(s.core), s.core.saved.state, s.rows, s.sent, s.high[k := actual.revision],
                  s.foreign)
  {
  }

  /** The state after the owner recorded the row of operation `i`. */
  ghost function Recorded(s: Sys, i: nat, k: Key, actual: Block, m: Meaning): Sys {
    s.(core := s.core.(state := m, applied := s.core.applied + {i}, pending := s.core.pending - {k}),
       high := s.high[k := actual.revision])
  }

  lemma CoreRecorded(s: Sys, i: nat, k: Key, actual: Block, m: Meaning)
    requires CoreInv(s) && !s.mode.Down? && !s.core.poison
    requires Installable(s, i, k, actual) && ApplyBlock(s.core.manifest, s.core.state, actual) == Success(m)
    requires s.mode.Serving? ==> OnlyOwed(s.core.entries, s.core.applied, s.core.entries[i])
    ensures CoreInv(Recorded(s, i, k, actual, m))
  {
    hide Image;
    var t := Recorded(s, i, k, actual, m);
    assert Settled(t.core) == Settled(s.core);
    ImageInstalled(s, i, k, actual, m);
    SavedInstalled(s, i, k, actual);
    if s.mode.Serving? {
      ServingRecorded(s, i, k, actual, m);
    }
  }

  lemma ServingRecorded(s: Sys, i: nat, k: Key, actual: Block, m: Meaning)
    requires ServingOk(s.core, s.high, s.foreign) && UniqueIds(s.core.entries)
    requires Installable(s, i, k, actual) && ApplyBlock(s.core.manifest, s.core.state, actual) == Success(m)
    requires OnlyOwed(s.core.entries, s.core.applied, s.core.entries[i])
    ensures var t := Recorded(s, i, k, actual, m); ServingOk(t.core, t.high, t.foreign)
  {
  }

  lemma CallerRecorded(s: Sys, i: nat, k: Key, actual: Block, m: Meaning, p: Phase)
    requires Installable(s, i, k, actual) && ApplyBlock(s.core.manifest, s.core.state, actual) == Success(m)
    requires CallerOk(s, p) && !s.core.poison
    requires p.Got? && p.K() == k ==> p.actual == actual
    ensures CallerOk(Recorded(s, i, k, actual, m), p)
  {
  }

  /** No stored row is ever refused: leases keep the owner's state at or below
      every row that a caller has read back. */
  lemma FinishIsNeverRefused(s: Sys, c: nat)
    requires Inv(s) && c in s.callers && s.callers[c].Got? && !s.core.poison
    ensures ApplyBlock(s.core.manifest, s.core.state, s.callers[c].actual).Success?
  {
  }

  lemma InvRecorded(s: Sys, c: nat, p: Phase, m: Meaning)
    requires Inv(s) && s.mode.Serving? && !s.core.poison && c in s.callers && s.callers[c] == p && p.Got?
    requires ApplyBlock(s.core.manifest, s.core.state, p.actual) == Success(m)
    requires p.op.sequence in s.core.entries && s.core.entries[p.op.sequence] == p.op
    ensures Inv(Recorded(s, p.op.sequence, p.K(), p.actual, m))
  {
    hide Image;
    assert CallerOk(s, p);
    var t := Recorded(s, p.op.sequence, p.K(), p.actual, m);
    CoreRecorded(s, p.op.sequence, p.K(), p.actual, m);
    forall d | d in s.callers ensures CallerOk(t, s.callers[d]) {
      assert d != c && !s.callers[d].Proposing? ==> s.callers[d].K() != p.K();
      CallerRecorded(s, p.op.sequence, p.K(), p.actual, m, s.callers[d]);
    }
  }

  lemma InvStateLost(s: Sys, m: Meaning)
    requires Inv(s) && s.mode.Serving?
    ensures Inv(s.(core := s.core.(state := m, poison := true)))
  {
    hide Image;
    var t := s.(core := s.core.(state := m, poison := true));
    assert Settled(t.core) == Settled(s.core);
    forall d | d in s.callers ensures CallerOk(t, s.callers[d]) {
      assert CallerOk(s, s.callers[d]);
    }
  }

  lemma InvFinishFailed(s: Sys, c: nat, p: Phase)
    requires Inv(s) && s.mode.Serving? && !s.core.poison && c in s.callers && s.callers[c] == p && p.Failed?
    ensures Inv(DoFinish(s, c, p))
  {
    FailedOwes(s, c, p);
    FailedGivesUp(s, c, p);
    hide *;
    InvPending(s, p.K(), p.op.id);
    InvGiveUp(s.(core := s.core.(pending := s.core.pending[p.K() := p.op.id])), c);
  }

  lemma FailedOwes(s: Sys, c: nat, p: Phase)
    requires Inv(s) && !s.core.poison && c in s.callers && s.callers[c] == p && p.Failed?
    ensures p.op.id.key == p.K()
    ensures forall i :: i in s.core.entries && i !in s.core.applied && s.core.entries[i].id.key == p.K() ==>
      s.core.entries[i].id == p.op.id
  {
    assert CallerOk(s, p);
  }

  lemma FailedGivesUp(s: Sys, c: nat, p: Phase)
    requires !s.core.poison && c in s.callers && s.callers[c] == p && p.Failed?
    ensures DoFinish(s, c, p) == GiveUp(s.(core := s.core.(pending := s.core.pending[p.K() := p.op.id])), c)
  {
  }

  lemma InvFinishRecorded(s: Sys, c: nat, p: Phase, m: Meaning)
    requires Inv(s) && s.mode.Serving? && !s.core.poison && c in s.callers && s.callers[c] == p && p.Got?
    requires ApplyBlock(s.core.manifest, s.core.state, p.actual) == Success(m) && Identity(p.w).Some?
    requires p.op.sequence in s.core.entries && s.core.entries[p.op.sequence] == p.op
    ensures Inv(DoFinish(s, c, p))
  {
    hide Inv;
    InvRecorded(s, c, p, m);
    var t := Recorded(s, p.op.sequence, p.K(), p.actual, m);
    InvGiveUp(t, c);
    var u := GiveUp(t, c);
    if Some(p.op.id) != Identity(p.w) {
      InvPropose(u, c, p.w);
      assert At(u, c, Proposing(p.w)).callers == s.callers[c := Proposing(p.w)];
      assert DoFinish(s, c, p) == At(u, c, Proposing(p.w));
    } else {
      assert DoFinish(s, c, p) == u;
    }
  }

  lemma InvFinishGot(s: Sys, c: nat, p: Phase)
    requires Inv(s) && s.mode.Serving? && !s.core.poison && c in s.callers && s.callers[c] == p && p.Got?
    ensures Inv(DoFinish(s, c, p))
  {
    FinishIsNeverRefused(s, c);
    assert Identity(p.w).Some? by {
      assert CallerOk(s, p);
    }
    hide Inv, CallerOk, DoFinish;
    var m := ApplyBlock(s.core.manifest, s.core.state, p.actual).value;
    if p.op.sequence in s.core.entries && s.core.entries[p.op.sequence] == p.op {
      InvFinishRecorded(s, c, p, m);
    } else {
      InvFinishUnknown(s, c, p, m);
    }
  }

  lemma InvPropose(s: Sys, c: nat, w: Frozen)
    requires Inv(s) && s.mode.Serving? && c !in s.callers && Identity(w).Some?
    ensures Inv(At(s, c, Proposing(w)))
  {
    InvMove(s, c, Proposing(w));
  }

  /** The operation was trimmed from the log meanwhile: the owner stops. */
  lemma InvFinishUnknown(s: Sys, c: nat, p: Phase, m: Meaning)
    requires Inv(s) && s.mode.Serving? && !s.core.poison && c in s.callers && s.callers[c] == p && p.Got?
    requires ApplyBlock(s.core.manifest, s.core.state, p.actual) == Success(m)
    requires !(p.op.sequence in s.core.entries && s.core.entries[p.op.sequence] == p.op)
    ensures Inv(DoFinish(s, c, p))
  {
    InvGiveUp(s, c);
    hide Inv;
    InvStateLost(GiveUp(s, c), m);
  }

  lemma InvFinish(s: Sys, c: nat, p: Phase)
    requires Inv(s) && s.mode.Serving? && c in s.callers && s.callers[c] == p && (p.Got? || p.Failed?)
    ensures Inv(DoFinish(s, c, p))
  {
    hide Inv;
    if s.core.poison {
      InvLeave(s, c);
    } else if p.Failed? {
      InvFinishFailed(s, c, p);
    } else {
      InvFinishGot(s, c, p);
    }
  }

  // -- checkpoints, crashes and recovery

  /** Trimming never drops an unresolved operation. */
  lemma TrimKeepsOwed(c: Core, begun: set<Frozen>)
    requires LogOk(c, begun) && !c.poison
    ensures var d := Checkpoint(c);
      && (forall i :: i in c.entries && i !in c.applied ==> i in d.entries && d.entries[i] == c.entries[i])
      && (forall i :: i in d.entries ==> i in c.entries && d.entries[i] == c.entries[i])
      && Settled(d) == (set i | i in d.entries && i in c.applied)
  {
  }

  lemma ImageTrimmed(s: Sys, applied: set<nat>)
    requires LogOk(s.core, s.begun) && !s.core.poison
    requires Image(s.core.entries, s.core.applied, s.core.state, s.rows, s.sent, s.high, s.foreign)
    requires applied == s.core.applied || applied == Settled(Checkpoint(s.core))
    ensures Image(Checkpoint(s.core).entries, applied, s.core.state, s.rows, s.sent, s.high, s.foreign)
  {
    var d := Checkpoint(s.core);
    TrimKeepsOwed(s.core, s.begun);
    forall k | Resolved(d.entries, applied, k) ensures Resolved(s.core.entries, s.core.applied, k) {
    }
    forall f | f in s.sent && Owed(s.core.entries, s.core.applied, f) ensures Owed(d.entries, applied, f) {
      var i :| i in s.core.entries && i !in s.core.applied && s.core.entries[i].payload == f;
      assert i in d.entries && i !in applied;
    }
  }

  lemma CallerTrimmed(s: Sys, p: Phase)
    requires LogOk(s.core, s.begun) && !s.core.poison && CallerOk(s, p)
    ensures CallerOk(s.(core := Checkpoint(s.core)), p)
  {
    TrimKeepsOwed(s.core, s.begun);
    var d := Checkpoint(s.core);
    if p.HasOp() && Owed(s.core.entries, s.core.applied, p.op.payload) {
      var i :| i in s.core.entries && i !in s.core.applied && s.core.entries[i].payload == p.op.payload;
      assert i in d.entries && d.entries[i].payload == p.op.payload;
    }
  }

  lemma CoreCheckpoint(s: Sys)
    requires CoreInv(s) && !s.mode.Down? && !s.core.poison
    ensures CoreInv(s.(core := Checkpoint(s.core)))
  {
    TrimKeepsOwed(s.core, s.begun);
    ImageTrimmed(s, s.core.applied);
    ImageTrimmed(s, Settled(Checkpoint(s.core)));
    hide Image;
  }

  lemma InvCheckpoint(s: Sys)
    requires Inv(s) && !s.mode.Down?
    ensures Inv(s.(core := Checkpoint(s.core)))
  {
    if !s.core.poison {
      CoreCheckpoint(s);
      var t := s.(core := Checkpoint(s.core));
      forall d | d in t.callers ensures CallerOk(t, t.callers[d]) {
        CallerTrimmed(s, s.callers[d]);
      }
      hide CoreInv, CallerOk;
    }
  }

  lemma InvCrash(s: Sys)
    requires Inv(s)
    ensures Inv(s.(mode := Down, callers := map[]))
  {
  }

  lemma InvReopen(s: Sys)
    requires Inv(s) && s.mode.Down?
    ensures Inv(s.(mode := Recovering, core := Reopened(s.core)))
  {
  }

  lemma ReplayInstalls(s: Sys, i: nat, m: Meaning)
    requires CoreInv(s) && s.mode.Recovering? && i in s.core.entries && i !in s.core.applied
    requires Inert(s.rows, s.core.entries[i].payload) && s.core.entries[i].id.key in s.rows
    ensures var k := s.core.entries[i].id.key;
      && Installable(s, i, k, s.rows[k])
      && ApplyBlock(s.core.manifest, s.core.state, s.rows[k]).Success?
  {
  }

  lemma InvReplayed(s: Sys, i: nat)
    requires Inv(s) && s.mode.Recovering? && i in s.core.entries && i !in s.core.applied
    requires Inert(s.rows, s.core.entries[i].payload) && s.core.entries[i].id.key in s.rows
    ensures var k := s.core.entries[i].id.key;
      var r := Replayed(s.core, i, s.rows[k]);
      r.Success? && Inv(Installed(s, k, r.value, s.rows[k]))
  {
    var k := s.core.entries[i].id.key;
    ReplayInstalls(s, i, ApplyBlock(s.core.manifest, s.core.state, s.rows[k]).value);
    var m := ApplyBlock(s.core.manifest, s.core.state, s.rows[k]).value;
    CoreRecorded(s, i, k, s.rows[k], m);
    assert Settled(Recorded(s, i, k, s.rows[k], m).core) == Settled(Replayed(s.core, i, s.rows[k]).value);
    hide Image;
  }

  lemma InvReplay(s: Sys, i: nat, ok: bool)
    requires Inv(s) && s.mode.Recovering? && IsNext(s.core, i)
    ensures Inv(DoReplay(s, i, ok))
  {
    var f := s.core.entries[i].payload;
    assert Owed(s.core.entries, s.core.applied, f);
    assert Intact(s.core.manifest, s.core.entries[i]) && f in s.begun;
    InvSend(s, f);
    var t := s.(sent := s.sent + {f});
    InvOverRows(t, f.block, t.foreign);
    PutGrows(s.rows, f.block);
    if ok && Put(s.rows, f.block).Some? {
      InvReplayed(t.(rows := AfterPut(s.rows, f.block)), i);
    } else {
      InvCrash(t);
    }
  }

  lemma ReplayGoesOn(s: Sys, i: nat)
    requires Inv(s) && s.mode.Recovering? && IsNext(s.core, i) && Put(s.rows, s.core.entries[i].payload.block).Some?
    ensures var t := DoReplay(s, i, true);
      && t.mode.Recovering? && t.core.applied == s.core.applied + {i}
      && t.rows == AfterPut(s.rows, s.core.entries[i].payload.block) && s.core.entries[i].payload in t.sent
  {
    var f := s.core.entries[i].payload;
    assert Owed(s.core.entries, s.core.applied, f);
    assert Intact(s.core.manifest, s.core.entries[i]) && f in s.begun;
    InvSend(s, f);
    var t := s.(sent := s.sent + {f});
    InvOverRows(t, f.block, t.foreign);
    PutGrows(s.rows, f.block);
    InvReplayed(t.(rows := AfterPut(s.rows, f.block)), i);
    hide Inv, Put, AfterPut;
  }

  lemma InvStart(s: Sys, save: bool)
    requires Inv(s) && s.mode.Recovering? && Unresolved(s.core.entries, s.core.applied) == {}
    ensures Inv(s.(mode := Serving, core := if save then Checkpoint(s.core) else s.core))
  {
    if save {
      InvCheckpoint(s);
      TrimKeepsOwed(s.core, s.begun);
    }
    var t := s.(core := if save then Checkpoint(s.core) else s.core);
    assert forall i :: i in s.core.entries && i !in s.core.applied ==> i in Unresolved(s.core.entries, s.core.applied);
    assert forall i :: i in t.core.entries ==> i in s.core.applied;
    hide Settled;
    InvServes(t);
  }

  /** When nothing is owed, every key is resolved. */
  lemma InvServes(t: Sys)
    requires Inv(t) && t.mode.Recovering? && forall i :: i in t.core.entries ==> i in t.core.applied
    ensures Inv(t.(mode := Serving))
  {
    assert forall k :: Resolved(t.core.entries, t.core.applied, k);
    assert Settled(t.(mode := Serving).core) == Settled(t.core);
  }

  // ------------------------------------------------------------------- all runs

  ghost predicate AreServing(s: Sys) { s.callers != map[] ==> s.mode.Serving? }

  lemma CallerFacts(s: Sys, c: nat)
    requires Inv(s) && c in s.callers
    ensures var p := s.callers[c];
      && CallerOk(s, p) && Identity(p.w).Some?
      && (p.HasOp() ==>
        && p.op.payload in s.begun && p.op.payload.block.manifest == s.core.manifest
        && (Inert(s.rows, p.op.payload) || Owed(s.core.entries, s.core.applied, p.op.payload)))
      && (p.Sent? ==> p.op.payload in s.sent)
  {
  }

  lemma InvCallerStep(s: Sys, a: Action)
    requires Inv(s) && s.mode.Serving?
    requires a.AskLease? || a.CheckRevision? || a.AskBegin? || a.Send? || a.Reply? || a.ReadBack? || a.AskFinish?
    requires a.c in s.callers
    ensures Inv(Do(s, a))
  {
    hide Inv, CallerOk, DoLease, DoCheck, DoBegin, DoReply, DoReadBack, DoFinish;
    var p := s.callers[a.c];
    CallerFacts(s, a.c);
    match a
    case AskLease(c) => if p.Proposing? { InvLease(s, c, p.w); }
    case CheckRevision(c, readable) => if p.Leased? { InvCheck(s, c, p.w, readable); }
    case AskBegin(c, fate) => if p.Checked? { InvBegin(s, c, p.w, p.selected, fate); }
    case Send(c) => if p.Writing? {
      InvSend(s, p.op.payload);
      SentOk(s, p);
      InvMove(s.(sent := s.sent + {p.op.payload}), c, Phase.Sent(p.w, p.op));
    }
    case Reply(c, ok) => if p.Sent? { InvReply(s, c, p, ok); }
    case ReadBack(c, ok) => if p.Acked? { InvReadBack(s, c, p, ok); }
    case AskFinish(c) => if p.Got? || p.Failed? { InvFinish(s, c, p); }
  }

  lemma SentOk(s: Sys, p: Phase)
    requires CallerOk(s, p) && p.Writing?
    ensures CallerOk(s.(sent := s.sent + {p.op.payload}), Phase.Sent(p.w, p.op))
  {
  }

  lemma InvDo(s: Sys, a: Action)
    requires Inv(s)
    ensures Inv(Do(s, a))
  {
    assert AreServing(s);
    assert forall f :: f in s.sent ==> f.block.manifest == s.core.manifest;
    hide Inv;
    match a
    case Propose(c, w) =>
      if s.mode.Serving? && c !in s.callers && Identity(w).Some? {
        InvPropose(s, c, w);
      }
    case LateCommit(late) =>
      if late in s.sent {
        InvOverRows(s, late.block, s.foreign);
      }
    case OtherWriter(b) =>
      if b.manifest == s.core.manifest {
        InvOverRows(s, b, s.foreign + {b.Id()});
      }
    case SaveCheckpoint => if !s.mode.Down? { InvCheckpoint(s); }
    case OwnerFails => if s.mode.Serving? { InvPoison(s); }
    case Crash => InvCrash(s);
    case Reopen => if s.mode.Down? { InvReopen(s); }
    case Replay(i, ok) => if s.mode.Recovering? && IsNext(s.core, i) { InvReplay(s, i, ok); }
    case StartServing(save) =>
      if s.mode.Recovering? && Unresolved(s.core.entries, s.core.applied) == {} { InvStart(s, save); }
    case _ =>
      if a.c in s.callers {
        InvCallerStep(s, a);
      }
  }

  lemma {:induction false} InvRun(s: Sys, actions: seq<Action>)
    requires Inv(s)
    ensures Inv(Run(s, actions))
    decreases |actions|
  {
    hide Inv, Do;
    if actions != [] {
      InvDo(s, actions[0]);
      InvRun(Do(s, actions[0]), actions[1..]);
    }
  }

  /** What a converted state must be: the picture of the stored rows. */
  ghost function Picture(rows: map<Key, Block>): Meaning {
    Meaning(
      map k | k in rows && rows[k].Live() :: rows[k].State(),
      set k | k in rows && rows[k].Final() :: k.number as nat)
  }

  /** Right after the verified conversion: nothing was ever published. */
  ghost predicate Start(s: Sys) {
    && s.mode.Down? && s.callers == map[] && s.begun == {} && s.sent == {} && s.foreign == {}
    && s.core.manifest != 0 && (forall k :: k in s.rows ==> s.rows[k].Id() == k && Accepts(s.core.manifest, s.rows[k]))
    && s.core.entries == map[] && s.core.saved == Saved(Picture(s.rows), 0, {})
    && s.high == map k | k in s.rows && s.rows[k].Live() :: s.rows[k].revision as nat
  }

  lemma StartInv(s: Sys)
    requires Start(s)
    ensures Inv(s)
  {
  }

  /** Which steps touch which histories. */
  lemma SentFrame(s: Sys, a: Action)
    ensures s.foreign <= Do(s, a).foreign
    ensures Do(s, a).sent == s.sent
      || (a.Send? && a.c in s.callers && s.callers[a.c].Writing?
          && Do(s, a).sent == s.sent + {s.callers[a.c].op.payload})
      || (a.Replay? && a.i in s.core.entries && Do(s, a).sent == s.sent + {s.core.entries[a.i].payload})
  {
  }

  /** Only a begin adds to the log; a checkpoint may only drop operations. */
  lemma NoNewEntries(s: Sys, a: Action)
    requires !a.AskBegin?
    ensures forall i :: i in Do(s, a).core.entries ==>
      i in s.core.entries && Do(s, a).core.entries[i] == s.core.entries[i]
  {
  }

  lemma EntriesFrame(s: Sys, a: Action)
    requires LogOk(s.core, s.begun)
    ensures forall i :: i in Do(s, a).core.entries && i in s.core.entries ==>
      Do(s, a).core.entries[i] == s.core.entries[i]
    ensures forall i :: i in Do(s, a).core.entries && i !in s.core.entries ==>
      && a.AskBegin? && a.c in s.callers && s.callers[a.c].Checked? && !s.core.poison
      && Some(Do(s, a).core.entries[i].id) == Identity(s.callers[a.c].w)
  {
    if a.AskBegin? {
      assert s.core.issued + 1 !in s.core.entries;
      hide LogOk, DoBegin;
    } else {
      NoNewEntries(s, a);
      hide LogOk, Do;
    }
  }

  lemma HighFrame(s: Sys, a: Action)
    ensures Do(s, a).high == s.high
      || (a.AskFinish? && a.c in s.callers && s.callers[a.c].Got? && !s.core.poison
          && Do(s, a).high == s.high[s.callers[a.c].K() := s.callers[a.c].actual.revision])
      || (a.Replay? && a.i in s.core.entries && s.mode.Recovering? && IsNext(s.core, a.i)
          && var b := s.core.entries[a.i].payload.block;
             b.Id() in AfterPut(s.rows, b)
             && Do(s, a).high == s.high[b.Id() := AfterPut(s.rows, b)[b.Id()].revision])
  {
    hide DoLease, DoCheck, DoBegin, DoReply, DoReadBack, DoFinish, DoReplay;
    match a
    case AskFinish(c) =>
    case Replay(i, ok) =>
    case _ =>
  }

  // ------------------------------------------------------------------- theorems

  /** Over every run, two callers never hold the lease of the same block key, so
      at most one publication of a key is in flight. */
  lemma OnePublicationInFlight(start: Sys, actions: seq<Action>)
    requires Start(start)
    ensures Exclusive(Run(start, actions).callers)
  {
    StartInv(start);
    InvRun(start, actions);
  }

  /** Whatever step sends a SQL write sends a payload that was durably logged
      before that step. */
  lemma NothingIsSentBeforeItIsLogged(start: Sys, actions: seq<Action>, a: Action, f: Frozen)
    requires Start(start)
    requires var s := Run(start, actions); f in Do(s, a).sent && f !in s.sent
    ensures f in Run(start, actions).begun
  {
    StartInv(start);
    InvRun(start, actions);
    var s := Run(start, actions);
    SentFrame(s, a);
    hide Do;
    if a.Send? {
      assert CallerOk(s, s.callers[a.c]);
    }
  }

  /** Over every run: the replay of an operation succeeds if and only if the database answers and
      takes the row; its answer is never refused, and recovery goes on with one operation less. */
  lemma RecoveryGoesOn(start: Sys, actions: seq<Action>, i: nat, ok: bool)
    requires Start(start)
    requires var s := Run(start, actions); s.mode.Recovering? && IsNext(s.core, i)
    ensures var s := Run(start, actions);
      var t, f := Do(s, Replay(i, ok)), s.core.entries[i].payload;
      && (t.mode.Recovering? <==> ok && Put(s.rows, f.block).Some?)
      && (t.mode.Recovering? ==>
        && t.core.applied == s.core.applied + {i} && t.rows == AfterPut(s.rows, f.block) && f in t.sent)
      && (!t.mode.Recovering? ==> t.mode.Down? && t.core.applied == s.core.applied && t.rows == s.rows)
  {
    hide Put, Do, Run, Inv, AfterPut;
    StartInv(start);
    InvRun(start, actions);
    var s := Run(start, actions);
    ReplayIsDone(s, i, ok);
    if ok && Put(s.rows, s.core.entries[i].payload.block).Some? {
      ReplayGoesOn(s, i);
    } else {
      ReplayStops(s, i, ok);
    }
  }

  lemma ReplayIsDone(s: Sys, i: nat, ok: bool)
    requires s.mode.Recovering? && IsNext(s.core, i)
    ensures Do(s, Replay(i, ok)) == DoReplay(s, i, ok)
  {
  }

  lemma ReplayStops(s: Sys, i: nat, ok: bool)
    requires i in s.core.entries && !(ok && Put(s.rows, s.core.entries[i].payload.block).Some?)
    ensures var t := DoReplay(s, i, ok); t.mode.Down? && t.core == s.core && t.rows == s.rows
  {
  }

  // -- no lease is lost

  ghost predicate IsHeld(callers: map<nat, Phase>, k: Key) {
    exists c :: c in callers && !callers[c].Proposing? && callers[c].K() == k
  }

  ghost predicate AreHeld(s: Sys) {
    !s.mode.Down? && !s.core.poison ==> forall k :: k in s.core.inflight ==> IsHeld(s.callers, k)
  }

  /** The caller that moved holds what it held or was lent, or its lease is gone. */
  lemma HeldMove(s: Sys, t: Sys, c: nat)
    requires AreHeld(s) && !s.mode.Down? && !s.core.poison && c in s.callers
    requires forall d :: d != c ==>
      (d in t.callers <==> d in s.callers) && (d in s.callers ==> t.callers[d] == s.callers[d])
    requires var k := s.callers[c].K();
      && (forall j :: j in t.core.inflight ==> j in s.core.inflight || j == k)
      && (k in t.core.inflight && !(k in s.core.inflight && s.callers[c].Proposing?) ==>
        c in t.callers && !t.callers[c].Proposing? && t.callers[c].K() == k)
    ensures AreHeld(t)
  {
    var k := s.callers[c].K();
    forall j | j in t.core.inflight ensures IsHeld(t.callers, j) {
      if j in s.core.inflight {
        var d :| d in s.callers && !s.callers[d].Proposing? && s.callers[d].K() == j;
        assert d != c ==> t.callers[d] == s.callers[d];
      }
    }
  }

  lemma HeldLease(s: Sys, c: nat, w: Frozen)
    requires AreHeld(s) && !s.mode.Down? && !s.core.poison && c in s.callers && s.callers[c] == Proposing(w)
    requires Identity(w).Some?
    ensures AreHeld(DoLease(s, c, w))
  {
    var t := DoLease(s, c, w);
    if !t.core.poison {
      HeldMove(s, t, c);
    }
  }

  lemma HeldCheck(s: Sys, c: nat, w: Frozen, readable: bool)
    requires AreHeld(s) && !s.mode.Down? && !s.core.poison && c in s.callers && s.callers[c] == Leased(w)
    ensures AreHeld(DoCheck(s, c, w, readable))
  {
    HeldMove(s, DoCheck(s, c, w, readable), c);
  }

  lemma HeldBegin(s: Sys, c: nat, w: Frozen, selected: Frozen, fate: Fate)
    requires AreHeld(s) && !s.mode.Down? && !s.core.poison && c in s.callers && s.callers[c] == Checked(w, selected)
    requires Identity(w).Some?
    ensures AreHeld(DoBegin(s, c, w, selected, fate))
  {
    var t := DoBegin(s, c, w, selected, fate);
    if !t.core.poison {
      assert t.core.inflight == s.core.inflight;
      HeldMove(s, t, c);
    }
  }

  lemma HeldFinish(s: Sys, c: nat, p: Phase)
    requires AreHeld(s) && !s.mode.Down? && !s.core.poison && c in s.callers && s.callers[c] == p
    requires p.Got? || p.Failed?
    ensures AreHeld(DoFinish(s, c, p))
  {
    var t := DoFinish(s, c, p);
    assert t.core.inflight == s.core.inflight - {p.K()};
    if !t.core.poison {
      HeldMove(s, t, c);
    }
  }

  /** The caller goes on with its lease, whatever happens to the database. */
  lemma HeldOn(s: Sys, t: Sys, c: nat)
    requires AreHeld(s) && !s.mode.Down? && !s.core.poison && c in s.callers && !s.callers[c].Proposing?
    requires c in t.callers && t == t.(callers := s.callers[c := t.callers[c]]) && t.core == s.core
    requires !t.callers[c].Proposing? && t.callers[c].K() == s.callers[c].K()
    ensures AreHeld(t)
  {
    HeldMove(s, t, c);
  }

  lemma HeldCaller(s: Sys, a: Action)
    requires AreHeld(s) && !s.mode.Down? && !s.core.poison
    ensures AreHeld(Do(s, a))
  {
    var t := Do(s, a);
    if t != s {
      hide DoLease, DoCheck, DoBegin, DoFinish, AreHeld, Identity;
      match a
      case AskLease(c) => HeldLease(s, c, s.callers[c].w);
      case CheckRevision(c, readable) => HeldCheck(s, c, s.callers[c].w, readable);
      case AskBegin(c, fate) => HeldBegin(s, c, s.callers[c].w, s.callers[c].selected, fate);
      case Send(c) => HeldOn(s, t, c);
      case Reply(c, _) => HeldOn(s, t, c);
      case ReadBack(c, _) => HeldOn(s, t, c);
      case AskFinish(c) => HeldFinish(s, c, s.callers[c]);
      case Propose(c, w) => HeldPropose(s, c, w);
      case _ => HeldElse(s, a);
    }
  }

  lemma HeldPropose(s: Sys, c: nat, w: Frozen)
    requires AreHeld(s) && c !in s.callers
    ensures AreHeld(At(s, c, Proposing(w)))
  {
    forall k | IsHeld(s.callers, k) ensures IsHeld(s.callers[c := Proposing(w)], k) {
      var d :| d in s.callers && !s.callers[d].Proposing? && s.callers[d].K() == k;
      assert s.callers[c := Proposing(w)][d] == s.callers[d];
    }
  }

  lemma HeldElse(s: Sys, a: Action)
    requires AreHeld(s) && !s.mode.Down? && !s.core.poison
    requires a.LateCommit? || a.OtherWriter? || a.SaveCheckpoint? || a.OwnerFails? || a.Crash? || a.Reopen? || a.Replay?
      || a.StartServing?
    ensures AreHeld(Do(s, a))
  {
  }

  lemma HeldStep(s: Sys, a: Action)
    requires AreHeld(s) && Inv(s)
    ensures AreHeld(Do(s, a))
  {
    hide Do;
    if !s.mode.Down? && !s.core.poison {
      HeldCaller(s, a);
    } else {
      HeldStopped(s, a);
    }
  }

  lemma HeldStopped(s: Sys, a: Action)
    requires Inv(s) && (s.mode.Down? || s.core.poison)
    ensures AreHeld(Do(s, a))
  {
  }

  /** Over every run: an owner that serves has lent every lease to some caller, so a key is never
      blocked by a lease that nobody can give back. */
  lemma {:induction false} NoLeaseIsLost(start: Sys, actions: seq<Action>, k: Key)
    requires Start(start)
    ensures AreHeld(Run(start, actions))
    ensures var s := Run(start, actions);
      !s.mode.Down? && !s.core.poison && k in s.core.inflight ==>
        exists c :: c in s.callers && !s.callers[c].Proposing? && s.callers[c].K() == k
    decreases |actions|
  {
    StartInv(start);
    HeldRun(start, actions);
    hide Do, Run;
  }

  lemma {:induction false} HeldRun(s: Sys, actions: seq<Action>)
    requires AreHeld(s) && Inv(s)
    ensures AreHeld(Run(s, actions))
    decreases |actions|
  {
    if actions != [] {
      HeldStep(s, actions[0]);
      InvDo(s, actions[0]);
      hide Do, Inv;
      HeldRun(Do(s, actions[0]), actions[1..]);
    }
  }

  /** Over every run: whatever was sent is a proper publication. */
  lemma OnlyProperWritesAreSent(start: Sys, actions: seq<Action>, f: Frozen)
    requires Start(start) && f in Run(start, actions).sent
    ensures IsProper(Run(start, actions).core.manifest, f)
  {
    StartInv(start);
    InvRun(start, actions);
    hide Do, Run;
  }

  /** A key owes at most one operation, logged operations never change, and a new
      operation is logged only for a key that owes none. */
  lemma OldWorkComesFirst(start: Sys, actions: seq<Action>, a: Action, i: nat)
    requires Start(start)
    requires var s := Run(start, actions);
      s.mode.Serving? && !s.core.poison && i in Do(s, a).core.entries
    ensures var s := Run(start, actions);
      if i in s.core.entries
      then Do(s, a).core.entries[i] == s.core.entries[i]
        && (i !in s.core.applied ==> OnlyOwed(s.core.entries, s.core.applied, s.core.entries[i]))
      else Resolved(s.core.entries, s.core.applied, Do(s, a).core.entries[i].id.key)
  {
    StartInv(start);
    InvRun(start, actions);
    var s := Run(start, actions);
    EntriesFrame(s, a);
    hide Do;
    if i !in s.core.entries {
      assert CallerOk(s, s.callers[a.c]);
    }
  }

  /** Under the lease a plan goes on exactly if it can be read against the stored row: a
      batch always, another write if the row exists and stands at the expected revision, or
      at the planned one or beyond; without an expectation it expects what it read. */
  lemma PlansAreChecked(s: Sys, c: nat, readable: bool)
    requires c in s.callers && s.callers[c].Leased?
    ensures var t, w := Do(s, CheckRevision(c, readable)), s.callers[c].w;
      var k := w.block.Id();
      && t.core.entries == s.core.entries && t.rows == s.rows
      && (c in t.callers <==>
          && readable
          && (w.kind == BatchKind
              || (k in s.rows
                  && (w.expected == 0 || s.rows[k].revision == w.expected || s.rows[k].revision >= w.block.revision))))
      && (c in t.callers ==> t.callers[c] == Checked(w,
            if w.kind != BatchKind && w.expected == 0 then w.(expected := s.rows[k].revision) else w))
  {
  }

  /** Over every run: what a step logs, other than a batch, of a key that nobody else writes
      was planned against the row that is stored at that moment, or is stored already. */
  lemma NoStalePlanIsLogged(start: Sys, actions: seq<Action>, a: Action, i: nat)
    requires Start(start)
    requires var s := Run(start, actions); i in Do(s, a).core.entries && i !in s.core.entries
    ensures var s := Run(start, actions);
      var f := Do(s, a).core.entries[i].payload;
      && a.AskBegin? && a.c in s.callers
      && (f.kind != BatchKind && f.block.Id() !in s.foreign ==>
          && f.block.Id() in s.rows
          && (s.rows[f.block.Id()].revision == f.expected || s.rows[f.block.Id()].revision >= f.block.revision))
      && var w := s.callers[a.c].w;
         && f == w.(expected := f.expected)
         && (f.expected != w.expected ==> w.expected == 0)
         && (f.kind != BatchKind && w.expected == 0 && f.block.Id() !in s.foreign ==>
             s.rows[f.block.Id()].revision == f.expected)
  {
    StartInv(start);
    InvRun(start, actions);
    var s := Run(start, actions);
    NewEntry(s, a, i);
    assert CallerOk(s, s.callers[a.c]);
    hide Do, Run;
  }

  /** What a begin logs is what its caller had checked. */
  lemma NewEntry(s: Sys, a: Action, i: nat)
    requires LogOk(s.core, s.begun) && i in Do(s, a).core.entries && i !in s.core.entries
    ensures a.AskBegin? && a.c in s.callers && s.callers[a.c].Checked? && !s.core.poison
    ensures Do(s, a).core.entries[i].payload == s.callers[a.c].selected
  {
    EntriesFrame(s, a);
    hide LogOk, DoBegin;
  }

  /** A caller that is about to write, or has written, holds the only operation
      that its key can still owe: an unresolved operation is retried unchanged. */
  lemma RetriesAreUnchanged(start: Sys, actions: seq<Action>, c: nat, i: nat)
    requires Start(start)
    requires var s := Run(start, actions);
      && !s.core.poison && c in s.callers && s.callers[c].HasOp()
      && i in Unresolved(s.core.entries, s.core.applied) && s.core.entries[i].id.key == s.callers[c].K()
    ensures var s := Run(start, actions); s.callers[c].op == s.core.entries[i]
  {
    StartInv(start);
    InvRun(start, actions);
    assert CallerOk(Run(start, actions), Run(start, actions).callers[c]);
  }

  lemma NoRowIsRefused(start: Sys, actions: seq<Action>, c: nat)
    requires Start(start)
    requires var s := Run(start, actions); !s.core.poison && c in s.callers && s.callers[c].Got?
    ensures var s := Run(start, actions); ApplyBlock(s.core.manifest, s.core.state, s.callers[c].actual).Success?
  {
    StartInv(start);
    InvRun(start, actions);
    FinishIsNeverRefused(Run(start, actions), c);
  }

  // -- revisions never go back, also across crashes

  lemma HighGrows(s: Sys, a: Action, k: Key)
    requires Inv(s) && k in s.high && k !in Do(s, a).foreign
    ensures k !in s.foreign && k in Do(s, a).high && s.high[k] <= Do(s, a).high[k]
  {
    SentFrame(s, a);
    HighFrame(s, a);
    hide Do, Image;
    if a.AskFinish? && a.c in s.callers && s.callers[a.c].Got? {
      assert CallerOk(s, s.callers[a.c]);
    }
    if a.Replay? && s.mode.Recovering? && IsNext(s.core, a.i) {
      PutGrows(s.rows, s.core.entries[a.i].payload.block);
    }
  }

  lemma {:induction false} HighGrowsOverRuns(s: Sys, actions: seq<Action>, k: Key)
    requires Inv(s) && k in s.high && k !in Run(s, actions).foreign
    ensures k !in s.foreign && k in Run(s, actions).high && s.high[k] <= Run(s, actions).high[k]
    decreases |actions|
  {
    hide Do, Inv;
    if actions != [] {
      InvDo(s, actions[0]);
      ForeignOnlyGrows(Do(s, actions[0]), actions[1..], k);
      HighGrows(s, actions[0], k);
      HighGrowsOverRuns(Do(s, actions[0]), actions[1..], k);
    }
  }

  lemma {:induction false} ForeignOnlyGrows(s: Sys, actions: seq<Action>, k: Key)
    requires k !in Run(s, actions).foreign
    ensures k !in s.foreign
    decreases |actions|
  {
    hide Do;
    if actions != [] {
      SentFrame(s, actions[0]);
      ForeignOnlyGrows(Do(s, actions[0]), actions[1..], k);
    }
  }

  lemma {:induction false} RunConcat(s: Sys, first: seq<Action>, second: seq<Action>)
    ensures Run(s, first + second) == Run(Run(s, first), second)
    decreases |first|
  {
    if first == [] {
      assert first + second == second;
    } else {
      assert (first + second)[1..] == first[1..] + second;
      RunConcat(Do(s, first[0]), first[1..], second);
    }
  }

  ghost predicate Healthy(s: Sys) { s.mode.Serving? && !s.core.poison }

  /** If no other writer touched a key, its revision never goes back between two
      moments of healthy service, whatever happened in between. */
  lemma RevisionsNeverGoBack(start: Sys, first: seq<Action>, second: seq<Action>, k: Key)
    requires Start(start)
    requires var s, t := Run(start, first), Run(start, first + second);
      Healthy(s) && Healthy(t) && k !in t.foreign && k in s.core.state.active && k in t.core.state.active
    ensures Run(start, first).core.state.active[k].revision <= Run(start, first + second).core.state.active[k].revision
  {
    StartInv(start);
    RunConcat(start, first, second);
    InvRun(start, first);
    InvRun(start, first + second);
    var s, t := Run(start, first), Run(start, first + second);
    ForeignOnlyGrows(s, second, k);
    assert AtHigh(s.core.state, s.high, k) && AtHigh(t.core.state, t.high, k);
    HighGrowsOverRuns(s, second, k);
  }

  /** When nothing is owed and nobody else writes, the owner's state is exactly
      the picture of the stored rows, late commits and crashes notwithstanding. */
  lemma StateAgreesWithDatabase(start: Sys, actions: seq<Action>)
    requires Start(start)
    requires var s := Run(start, actions);
      Healthy(s) && s.foreign == {} && Unresolved(s.core.entries, s.core.applied) == {}
    ensures Run(start, actions).core.state == Picture(Run(start, actions).rows)
  {
    StartInv(start);
    InvRun(start, actions);
    ResolvedAgrees(Run(start, actions));
  }

  lemma ResolvedAgrees(s: Sys)
    requires CoreInv(s) && Healthy(s) && s.foreign == {} && Unresolved(s.core.entries, s.core.applied) == {}
    ensures s.core.state == Picture(s.rows)
  {
    assert forall i :: i in s.core.entries ==> i in s.core.applied by {
      assert forall i :: i in s.core.entries && i !in s.core.applied ==>
        i in Unresolved(s.core.entries, s.core.applied);
    }
    forall k ensures Agrees(s.core.state, s.rows, k) {
      assert Resolved(s.core.entries, s.core.applied, k);
    }
    assert forall n :: n in s.core.state.finalized ==> exists k :: k in s.rows && k.number == n && s.rows[k].Final();
    hide CoreInv;
    AgreesEverywhere(s.core.state, s.rows);
  }

  lemma AgreesEverywhere(m: Meaning, rows: map<Key, Block>)
    requires forall k :: Agrees(m, rows, k)
    requires forall n :: n in m.finalized ==> exists k :: k in rows && k.number == n && rows[k].Final()
    ensures m == Picture(rows)
  {
    assert forall k :: k in m.active <==> k in Picture(rows).active by {
      forall k ensures k in m.active <==> k in Picture(rows).active {
        assert Agrees(m, rows, k);
      }
    }
    assert m.active == Picture(rows).active by {
      forall k | k in m.active ensures m.active[k] == Picture(rows).active[k] {
        assert Agrees(m, rows, k);
      }
    }
    forall n ensures n in Picture(rows).finalized <==> n in m.finalized {
      if n in Picture(rows).finalized {
        var k :| k in rows && rows[k].Final() && k.number == n;
        assert Agrees(m, rows, k);
      }
    }
  }
}
