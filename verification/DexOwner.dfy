// The single owner of the DEX runtime: block leases, the durable operation log
// with its checkpoints, and the recovery replay.
//
// The requests that the owner serves are given twice: as functions on `Core`,
// the owner's whole memory, which the protocol model runs, and as methods of the
// class `Owner`, which updates its fields and is proved to do what they say.

module DexOwner {
  import opened DexState
  import opened Intervals
  import opened Options
  import opened OrderedScan

  datatype Kind = BatchKind | BlockKind | LogsKind

  datatype Body = NoBody | BatchBody(block: Block, rows: nat) | LogRows(rows: nat)

  /** An immutable publication, as it is frozen before anything is sent. */
  datatype Frozen = Frozen(version: nat, kind: Kind, block: Block, body: Body, expected: nat)

  datatype Id = Id(kind: Kind, key: Key, revision: uint64, batch: Hash)

  function Identity(w: Frozen): Option<Id> {
    if w.version != 1 || w.block.revision == 0 then None
    else if match w.kind
      case BatchKind => !w.body.BatchBody? || w.body.block != w.block
      case BlockKind => !w.body.NoBody?
      case LogsKind => w.body.BatchBody?
    then None
    else Some(Id(w.kind, w.block.Id(), w.block.revision, w.block.batch))
  }

  datatype Operation = Operation(sequence: nat, id: Id, payload: Frozen)

  /** A checkpoint: the state, the last sequence it knows, and the operations
      that were unresolved when it was taken. */
  datatype Saved = Saved(state: Meaning, through: nat, pending: set<nat>)

  datatype Core = Core(
    manifest: Hash,
    // durable
    entries: map<nat, Operation>, issued: nat, saved: Saved,
    // in memory only
    state: Meaning, applied: set<nat>, inflight: set<Key>, pending: map<Key, Id>, poison: bool)

  /** The logged operations that a reopened log treats as applied. */
  ghost function Settled(c: Core): set<nat> {
    set i | i in c.entries && i <= c.saved.through && i !in c.saved.pending
  }

  ghost function Unresolved(entries: map<nat, Operation>, applied: set<nat>): set<nat> {
    entries.Keys - applied
  }

  ghost predicate UniqueIds(entries: map<nat, Operation>) {
    forall i, j :: i in entries && j in entries && entries[i].id == entries[j].id ==> i == j
  }

  ghost function Find(entries: map<nat, Operation>, id: Id): Option<Operation> {
    if i :| i in entries && entries[i].id == id then Some(entries[i]) else None
  }

  // ------------------------------------------------------------ owner requests

  datatype Grant = Refused | Busy | Granted(found: Option<Operation>)

  ghost function Lease(c: Core, w: Frozen, id: Id): (Core, Grant) {
    var k := w.block.Id();
    if c.poison then (c, Refused)
    else if w.block.manifest != c.manifest || w.block.chainId != 1 then (c.(poison := true), Refused)
    else if k in c.inflight then (c, Busy)
    else
      var previous := if k in c.pending then c.pending[k] else id;
      match Find(c.entries, previous)
      case None => (c.(inflight := c.inflight + {k}), Granted(None))
      case Some(op) =>
        if !Intact(c.manifest, op) || (previous == id && op.payload != w.(expected := op.payload.expected))
        then (c.(poison := true), Refused)
        else (c.(inflight := c.inflight + {k}), Granted(Some(op)))
  }

  /** A logged operation still names the payload that it froze. */
  predicate Intact(manifest: Hash, op: Operation) {
    Identity(op.payload) == Some(op.id) && op.payload.block.manifest == manifest
  }

  ghost function Release(c: Core, k: Key): Core {
    if c.poison then c else c.(inflight := c.inflight - {k})
  }

  /** How the durable part of a Begin can end: completed, failed with nothing
      installed, or failed after the intent was installed. */
  datatype Fate = Done | NothingInstalled | IntentInstalled

  ghost function Begin(c: Core, id: Id, w: Frozen, fate: Fate): (Core, Option<Operation>) {
    if c.poison then (c, None)
    else if fate == NothingInstalled then (c.(poison := true), None)
    else match Find(c.entries, id)
      case Some(op) =>
        if op.payload == w && fate == Done then (c.(pending := c.pending[id.key := id]), Some(op))
        else (c.(poison := true), None)
      case None =>
        var op := Operation(c.issued + 1, id, w);
        var logged := c.(entries := c.entries[c.issued + 1 := op], issued := c.issued + 1);
        if fate == Done then (logged.(pending := c.pending[id.key := id]), Some(op))
        else (logged.(poison := true), None)
  }

  ghost function Finish(c: Core, k: Key, op: Operation, actual: Option<Block>): (Core, bool) {
    if c.poison then (c, false)
    else
      var d := c.(inflight := c.inflight - {k});
      match actual
      case None => (d.(pending := c.pending[k := op.id]), false)
      case Some(b) => match ApplyBlock(c.manifest, c.state, b)
        case Failure(_) => (d.(poison := true), false)
        case Success(m) =>
          if op.sequence !in c.entries || c.entries[op.sequence] != op then (d.(state := m, poison := true), false)
          else (d.(state := m, applied := c.applied + {op.sequence}, pending := c.pending - {k}), true)
  }

  /** Saves the state, then drops operations that the checkpoint before this one
      already knew as applied. */
  ghost function Checkpoint(c: Core): Core {
    if c.poison then c
    else c.(
      saved := Saved(c.state, c.issued, Unresolved(c.entries, c.applied)),
      entries := map i | i in c.entries && !(i in Settled(c) && i in c.applied) :: c.entries[i])
  }

  /** What memory holds right after the files are opened again. */
  ghost function Reopened(c: Core): Core {
    c.(state := c.saved.state, applied := Settled(c), inflight := {}, pending := map[], poison := false)
  }

  ghost predicate IsNext(c: Core, i: nat) {
    i in Unresolved(c.entries, c.applied) && forall j :: j in Unresolved(c.entries, c.applied) ==> i <= j
  }

  /** Replaying one operation whose stored row turned out to be `actual`. */
  ghost function Replayed(c: Core, i: nat, actual: Block): Result<Core> {
    match ApplyBlock(c.manifest, c.state, actual)
    case Failure(e) => Failure(e)
    case Success(m) => Success(c.(state := m, applied := c.applied + {i}))
  }

  lemma ReplayShrinks(c: Core, i: nat, actual: Block)
    requires i in Unresolved(c.entries, c.applied) && Replayed(c, i, actual).Success?
    ensures var d := Replayed(c, i, actual).value;
      Unresolved(d.entries, d.applied) == Unresolved(c.entries, c.applied) - {i}
  {
  }

  /** Recovery replays the unresolved operations in the order of their sequence;
      `answers` are the rows that the rewritten operations turn out to have, if
      the database answers. The first failure ends it. */
  ghost function ReplayAll(c: Core, answers: map<nat, Block>): (Core, bool)
    decreases |Unresolved(c.entries, c.applied)|
  {
    if i :| IsNext(c, i) then
      if !Intact(c.manifest, c.entries[i]) || i !in answers || Replayed(c, i, answers[i]).Failure? then (c, false)
      else
        ReplayShrinks(c, i, answers[i]);
        ReplayAll(Replayed(c, i, answers[i]).value, answers)
    else (c, true)
  }

  lemma ReplayNext(c: Core, answers: map<nat, Block>, i: nat)
    requires IsNext(c, i)
    ensures ReplayAll(c, answers) ==
      if !Intact(c.manifest, c.entries[i]) || i !in answers || Replayed(c, i, answers[i]).Failure? then (c, false)
      else ReplayAll(Replayed(c, i, answers[i]).value, answers)
  {
    forall j | IsNext(c, j) ensures j == i {
    }
  }

  lemma ReplayNothing(c: Core, answers: map<nat, Block>)
    requires Unresolved(c.entries, c.applied) == {}
    ensures ReplayAll(c, answers) == (c, true)
  {
  }

  predicate Earlier(a: nat, b: nat) { a < b }

  lemma AllLater(owed: set<nat>, after: nat)
    requires forall i :: i in owed ==> i > after
    ensures After(owed, after, Earlier) == owed
    ensures Members<nat>([]) == {}
  {
  }

  lemma PageShrinks(entries: map<nat, Operation>, applied: set<nat>, page: seq<nat>)
    requires IsLeast(Unresolved(entries, applied), page, Earlier) && page != []
    ensures var after := applied + Members(page);
      |entries.Keys - after| < |entries.Keys - applied|
      && forall i :: i in Unresolved(entries, after) ==> i > page[|page| - 1]
  {
    var owed := Unresolved(entries, applied);
    LeastRest(owed, page, Earlier);
    assert Unresolved(entries, applied + Members(page)) == After(owed, page[|page| - 1], Earlier);
    Smaller(entries.Keys - (applied + Members(page)), entries.Keys - applied, page[0]);
  }

  lemma Smaller(a: set<nat>, b: set<nat>, x: nat)
    requires a <= b && x in b && x !in a
    ensures |a| < |b|
  {
    assert b == a + (b - a);
    assert x in b - a;
  }

  /** A recovery that succeeds leaves nothing unresolved. */
  lemma {:induction false} ReplayAllResolves(c: Core, answers: map<nat, Block>)
    requires ReplayAll(c, answers).1
    ensures var d := ReplayAll(c, answers).0; Unresolved(d.entries, d.applied) == {} && d.entries == c.entries
    decreases |Unresolved(c.entries, c.applied)|
  {
    if Unresolved(c.entries, c.applied) != {} {
      var i := Least(Unresolved(c.entries, c.applied));
      ReplayNext(c, answers, i);
      ReplayShrinks(c, i, answers[i]);
      ReplayAllResolves(Replayed(c, i, answers[i]).value, answers);
    }
  }

  lemma {:induction false} Least(s: set<nat>) returns (i: nat)
    requires s != {}
    ensures i in s && forall j :: j in s ==> i <= j
    decreases |s|
  {
    var first :| first in s;
    var rest := s - {first};
    assert forall j :: j in s ==> j == first || j in rest;
    if rest == {} {
      i := first;
    } else {
      var j := Least(rest);
      i := if j < first then j else first;
    }
  }

  class Owner {
    const manifest: Hash
    const state: State
    // the durable log, and what its last checkpoint says
    var entries: map<nat, Operation>
    var issued: nat
    var through: nat
    var owed: set<nat>
    ghost var savedState: Meaning
    // memory only
    var applied: set<nat>
    var inflight: set<Key>
    var pending: map<Key, Id>
    var poison: bool

    ghost function Memory(): (c: Core)
      reads this, state
      ensures c.entries == entries && c.applied == applied
    {
      Core(manifest, entries, issued, Saved(savedState, through, owed), state.View(), applied, inflight, pending,
           poison)
    }

    ghost predicate Valid()
      reads this, state
    {
      && state.Valid() && state.manifest == manifest
      && UniqueIds(entries) && 0 !in entries && forall i :: i in entries ==> i <= issued
    }

    constructor (manifest: Hash)
      ensures Valid() && fresh(state)
      ensures Memory() == Core(manifest, map[], 0, Saved(Meaning(map[], {}), 0, {}), Meaning(map[], {}), {}, {}, map[],
                               false)
    {
      this.manifest := manifest;
      state := new State(manifest);
      entries, issued, through, owed, savedState := map[], 0, 0, {}, Meaning(map[], {});
      applied, inflight, pending, poison := {}, {}, map[], false;
    }

    method Lookup(id: Id) returns (r: Option<Operation>)
      requires Valid()
      ensures r == Find(entries, id)
    {
      var left := entries.Keys;
      while left != {}
        invariant left <= entries.Keys
        invariant forall i :: i in entries && i !in left ==> entries[i].id != id
        decreases |left|
      {
        var i :| i in left;
        if entries[i].id == id {
          return Some(entries[i]);
        }
        left := left - {i};
      }
      r := None;
    }

    method AskLease(w: Frozen, id: Id) returns (grant: Grant)
      requires Valid()
      modifies this`inflight, this`poison
      ensures Valid()
      ensures (Memory(), grant) == Lease(old(Memory()), w, id)
    {
      var k := w.block.Id();
      if poison {
        return Refused;
      }
      if w.block.manifest != manifest || w.block.chainId != 1 {
        poison := true;
        return Refused;
      }
      if k in inflight {
        return Busy;
      }
      var previous := if k in pending then pending[k] else id;
      var found := Lookup(previous);
      if found.Some? {
        if !Intact(manifest, found.value)
          || (previous == id && found.value.payload != w.(expected := found.value.payload.expected))
        {
          poison := true;
          return Refused;
        }
      }
      inflight := inflight + {k};
      grant := Granted(found);
    }

    method Drop(k: Key)
      requires Valid()
      modifies this`inflight
      ensures Valid()
      ensures Memory() == Release(old(Memory()), k)
    {
      if !poison {
        inflight := inflight - {k};
      }
    }

    method AskBegin(id: Id, w: Frozen, fate: Fate) returns (op: Option<Operation>)
      requires Valid()
      modifies this`entries, this`issued, this`pending, this`poison
      ensures Valid()
      ensures (Memory(), op) == Begin(old(Memory()), id, w, fate)
    {
      if poison {
        return None;
      }
      if fate == NothingInstalled {
        poison := true;
        return None;
      }
      op := Lookup(id);
      if op.Some? {
        if op.value.payload != w || fate != Done {
          poison := true;
          return None;
        }
      } else {
        assert forall i :: i in entries ==> entries[i].id != id;
        issued := issued + 1;
        op := Some(Operation(issued, id, w));
        entries := entries[issued := op.value];
        if fate != Done {
          poison := true;
          return None;
        }
      }
      pending := pending[id.key := id];
    }

    method AskFinish(k: Key, op: Operation, actual: Option<Block>) returns (ok: bool)
      requires Valid()
      modifies this`inflight, this`pending, this`poison, this`applied, state
      ensures Valid()
      ensures (Memory(), ok) == Finish(old(Memory()), k, op, actual)
    {
      if poison {
        return false;
      }
      inflight := inflight - {k};
      if actual.None? {
        pending := pending[k := op.id];
        return false;
      }
      var r := state.Apply(actual.value);
      if r.Failure? || op.sequence !in entries || entries[op.sequence] != op {
        poison := true;
        return false;
      }
      applied := applied + {op.sequence};
      pending := pending - {k};
      ok := true;
    }

    method Save()
      requires Valid()
      modifies this`entries, this`through, this`owed, this`savedState
      ensures Valid()
      ensures Memory() == Checkpoint(old(Memory()))
    {
      ghost var was := Memory();
      hide State.Valid, UniqueIds, Settled;
      if !poison {
        var known := set i | i in entries && i <= through && i !in owed && i in applied;
        KnownIsSettled(was, known);
        owed := entries.Keys - applied;
        through, savedState := issued, state.View();
        entries := map i | i in entries && i !in known :: entries[i];
        FewerUniqueIds(was.entries, entries);
      }
    }

    /** At most `limit` of the unresolved operations after `after`, the oldest first. */
    method Pending(after: nat, limit: nat) returns (page: seq<nat>)
      requires Valid()
      ensures IsLeast(After(Unresolved(entries, applied), after, Earlier), page, Earlier)
      ensures |page| < limit ==> After(Unresolved(entries, applied), after, Earlier) == Members(page)
    {
      page := Page(After(entries.Keys - applied, after, Earlier), limit, Earlier);
    }

    method ReplayOne(i: nat, answers: map<nat, Block>) returns (ok: bool)
      requires Valid() && IsNext(Memory(), i)
      modifies this`applied, state
      ensures Valid()
      ensures ok ==> applied == old(applied) + {i} && ReplayAll(Memory(), answers) == ReplayAll(old(Memory()), answers)
      ensures !ok ==> (Memory(), ok) == ReplayAll(old(Memory()), answers)
    {
      ReplayNext(Memory(), answers, i);
      if !Intact(manifest, entries[i]) || i !in answers {
        return false;
      }
      var r := state.Apply(answers[i]);
      if r.Failure? {
        return false;
      }
      applied := applied + {i};
      ok := true;
    }

    method ReplayPage(page: seq<nat>, answers: map<nat, Block>) returns (ok: bool)
      requires Valid() && IsLeast(Unresolved(entries, applied), page, Earlier)
      modifies this`applied, state
      ensures Valid()
      ensures ok ==> applied == old(applied) + Members(page)
      ensures ok ==> ReplayAll(Memory(), answers) == ReplayAll(old(Memory()), answers)
      ensures !ok ==> (Memory(), ok) == ReplayAll(old(Memory()), answers)
    {
      hide IsLeast, ReplayAll, State.Valid;
      var n := 0;
      ok := true;
      while n < |page|
        invariant n <= |page| && Valid() && IsLeast(Unresolved(entries, applied), page[n..], Earlier)
        invariant applied + Members(page[n..]) == old(applied) + Members(page)
        invariant ReplayAll(Memory(), answers) == ReplayAll(old(Memory()), answers)
      {
        LeastFirst(Unresolved(entries, applied), page[n..], Earlier);
        assert page[n..][1..] == page[n + 1..];
        ghost var owing := Unresolved(entries, applied);
        ok := ReplayOne(page[n], answers);
        if !ok {
          return;
        }
        assert Unresolved(entries, applied) == owing - {page[n]};
        n := n + 1;
      }
    }

    /** The replay of everything unresolved when the files are opened. */
    method Recover(answers: map<nat, Block>) returns (ok: bool)
      requires Valid()
      modifies this`applied, state
      ensures Valid()
      ensures (Memory(), ok) == ReplayAll(old(Memory()), answers)
    {
      hide *;
      NumberedFromOne(this);
      var after := 0;
      while true
        invariant Valid()
        invariant forall i :: i in Unresolved(entries, applied) ==> i > after
        invariant ReplayAll(Memory(), answers) == ReplayAll(old(Memory()), answers)
        decreases |entries.Keys - applied|
      {
        var page := Pending(after, 16);
        AllLater(Unresolved(entries, applied), after);
        if page == [] {
          ReplayNothing(Memory(), answers);
          return true;
        }
        PageShrinks(entries, applied, page);
        ok := ReplayPage(page, answers);
        if !ok {
          return;
        }
        after := page[|page| - 1];
      }
    }
  }

  lemma KnownIsSettled(c: Core, known: set<nat>)
    requires known == set i | i in c.entries && i <= c.saved.through && i !in c.saved.pending && i in c.applied
    ensures forall i :: i in known <==> i in Settled(c) && i in c.applied
  {
  }

  lemma FewerUniqueIds(entries: map<nat, Operation>, fewer: map<nat, Operation>)
    requires UniqueIds(entries) && forall i :: i in fewer ==> i in entries && fewer[i] == entries[i]
    ensures UniqueIds(fewer)
  {
  }

  lemma NumberedFromOne(o: Owner)
    requires o.Valid()
    ensures forall i :: i in Unresolved(o.entries, o.applied) ==> i > 0
  {
  }
}
