// Receipts that still have to be fetched: the records, a schedule ordered by
// urgency and last attempt, and a reverse index from captures to the receipts that
// depend on them. The three change together.

module Receipts {
  import opened Options
  import opened OrderedScan

  type Hash = nat

  const MINUTE := 60_000_000_000

  datatype Bit = Event | Refund | Known | Fee | Transfers

  datatype Task = Task(chain: nat, block: Hash, tx: Hash)

  /** The parent `None` holds what finalized captures contributed. Times are in
      nanoseconds; 0 is the zero time. */
  datatype Receipt = Receipt(
    task: Task, block: nat, refund: bool, known: bool, feeComplete: bool, transfers: bool, pending: bool,
    retryUnknown: bool,
    parents: map<Option<Hash>, set<Bit>>, firstObserved: nat, lastAttempt: nat)
  {
    predicate Urgent() { refund && !transfers }
  }

  // -------------------------------------------------------------------- flags

  /** Some parent contributed the bit. */
  predicate HasBit(parents: map<Option<Hash>, set<Bit>>, b: Bit) {
    exists p | p in parents :: b in parents[p]
  }

  /** The flags are exactly the union of the parents' bits. */
  predicate FlagsOk(r: Receipt) {
    && r.refund == HasBit(r.parents, Refund) && r.known == HasBit(r.parents, Known)
    && r.feeComplete == HasBit(r.parents, Fee) && r.transfers == HasBit(r.parents, Transfers)
    && r.pending == ((HasBit(r.parents, Event) && !r.known) || (r.refund && !r.transfers) || r.retryUnknown)
  }

  method Union(parents: map<Option<Hash>, set<Bit>>) returns (bits: set<Bit>)
    ensures forall b :: b in bits <==> HasBit(parents, b)
  {
    bits := {};
    var left := parents.Keys;
    while left != {}
      invariant left <= parents.Keys
      invariant forall b :: b in bits <==> exists p :: p in parents && p !in left && b in parents[p]
      decreases |left|
    {
      var p :| p in left;
      left := left - {p};
      bits := bits + parents[p];
    }
  }

  method Recompute(r: Receipt) returns (s: Receipt)
    ensures FlagsOk(s)
    ensures s == r.(refund := s.refund, known := s.known, feeComplete := s.feeComplete, transfers := s.transfers,
                    pending := s.pending)
  {
    var bits := Union(r.parents);
    var known, refund, transfers := Known in bits, Refund in bits, Transfers in bits;
    s := r.(refund := refund, known := known, feeComplete := Fee in bits, transfers := transfers,
            pending := (Event in bits && !known) || (refund && !transfers) || r.retryUnknown);
  }

  /** The flags are determined by the parents: recomputing is idempotent. */
  lemma FlagsAreUnique(r: Receipt, s: Receipt)
    requires FlagsOk(r) && FlagsOk(s) && r.parents == s.parents && r.retryUnknown == s.retryUnknown
    ensures r.refund == s.refund && r.known == s.known && r.feeComplete == s.feeComplete
      && r.transfers == s.transfers && r.pending == s.pending
  {
  }

  function BitsOf(parents: map<Option<Hash>, set<Bit>>, p: Option<Hash>): set<Bit> {
    if p in parents then parents[p] else {}
  }

  /** A finalized parent's bits move under `None`. */
  function SealedParents(parents: map<Option<Hash>, set<Bit>>, p: Hash): map<Option<Hash>, set<Bit>> {
    if Some(p) in parents then (parents - {Some(p)})[None := BitsOf(parents, None) + parents[Some(p)]] else parents
  }

  /** Sealing loses no bit and adds none. */
  lemma SealingKeepsBits(parents: map<Option<Hash>, set<Bit>>, p: Hash, b: Bit)
    ensures HasBit(SealedParents(parents, p), b) <==> HasBit(parents, b)
  {
    var after := SealedParents(parents, p);
    if q :| q in parents && b in parents[q] {
      assert if q == Some(p) || q == None then b in after[if Some(p) in parents then None else q] else b in after[q];
    }
    if q :| q in after && b in after[q] {
      assert Some(p) in parents && q == None ==> b in BitsOf(parents, None) || b in parents[Some(p)];
    }
  }

  lemma SealingKeepsFlags(r: Receipt, p: Hash)
    requires FlagsOk(r)
    ensures FlagsOk(r.(parents := SealedParents(r.parents, p)))
  {
    forall b {
      SealingKeepsBits(r.parents, p, b);
    }
    SealingKeepsBits(r.parents, p, Event);
    SealingKeepsBits(r.parents, p, Refund);
    SealingKeepsBits(r.parents, p, Known);
    SealingKeepsBits(r.parents, p, Fee);
    SealingKeepsBits(r.parents, p, Transfers);
  }

  // ----------------------------------------------------------------- schedule

  datatype ScheduleKey = ScheduleKey(urgent: nat, stamp: nat, id: Hash)

  function KeyOf(id: Hash, r: Receipt): ScheduleKey {
    ScheduleKey(if r.Urgent() then 0 else 1, r.lastAttempt, id)
  }

  predicate Sooner(a: ScheduleKey, b: ScheduleKey) {
    || a.urgent < b.urgent
    || (a.urgent == b.urgent && (a.stamp < b.stamp || (a.stamp == b.stamp && a.id < b.id)))
  }

  lemma SoonerOrders()
    ensures Orders(Sooner)
  {
  }

  /** The schedule is the key image of the pending records. */
  ghost predicate IsSchedule(pages: map<Hash, Receipt>, schedule: map<ScheduleKey, Hash>) {
    && (forall id :: id in pages && pages[id].pending ==>
        KeyOf(id, pages[id]) in schedule && schedule[KeyOf(id, pages[id])] == id)
    && (forall k :: k in schedule ==>
        schedule[k] in pages && pages[schedule[k]].pending && KeyOf(schedule[k], pages[schedule[k]]) == k)
  }

  ghost predicate IsLinked(parents: map<Hash, set<Hash>>, p: Hash, id: Hash) { p in parents && id in parents[p] }

  /** The index is the inverse of the records' parents. */
  ghost predicate IsInverse(pages: map<Hash, Receipt>, parents: map<Hash, set<Hash>>) {
    && (forall p: Hash, id: Hash :: IsLinked(parents, p, id) <==> id in pages && Some(p) in pages[id].parents)
    && (forall p :: p in parents ==> parents[p] != {})
  }

  /** `links` without, or with, the links of one receipt to a set of parents. */
  ghost predicate IsUnlinked(before: map<Hash, set<Hash>>, after: map<Hash, set<Hash>>, id: Hash, ps: set<Option<Hash>>)
  {
    && (forall p: Hash, i: Hash :: IsLinked(after, p, i) <==> IsLinked(before, p, i) && !(i == id && Some(p) in ps))
    && (forall p :: p in after ==> after[p] != {})
  }

  ghost predicate IsRelinked(before: map<Hash, set<Hash>>, after: map<Hash, set<Hash>>, id: Hash, ps: set<Option<Hash>>)
  {
    && (forall p: Hash, i: Hash :: IsLinked(after, p, i) <==> IsLinked(before, p, i) || (i == id && Some(p) in ps))
    && (forall p :: p in after ==> after[p] != {})
  }

  method Unlink(parents: map<Hash, set<Hash>>, id: Hash, ps: set<Option<Hash>>) returns (after: map<Hash, set<Hash>>)
    requires forall p :: p in parents ==> parents[p] != {}
    ensures IsUnlinked(parents, after, id, ps)
  {
    after := parents;
    var left := ps;
    while left != {}
      invariant left <= ps && IsUnlinked(parents, after, id, ps - left)
      decreases |left|
    {
      var p :| p in left;
      left := left - {p};
      if p.Some? && p.value in after {
        var rest := after[p.value] - {id};
        after := if rest == {} then after - {p.value} else after[p.value := rest];
      }
    }
  }

  method Relink(parents: map<Hash, set<Hash>>, id: Hash, ps: set<Option<Hash>>) returns (after: map<Hash, set<Hash>>)
    requires forall p :: p in parents ==> parents[p] != {}
    ensures IsRelinked(parents, after, id, ps)
  {
    after := parents;
    var left := ps;
    while left != {}
      invariant left <= ps && IsRelinked(parents, after, id, ps - left)
      decreases |left|
    {
      var p :| p in left;
      left := left - {p};
      RelinkOne(parents, after, id, ps - (left + {p}), p);
      if p.Some? {
        after := after[p.value := (if p.value in after then after[p.value] else {}) + {id}];
      }
      assert ps - left == (ps - (left + {p})) + {p};
    }
  }

  lemma RelinkOne(before: map<Hash, set<Hash>>, now: map<Hash, set<Hash>>, id: Hash, done: set<Option<Hash>>,
                  p: Option<Hash>)
    requires IsRelinked(before, now, id, done)
    ensures p.None? ==> IsRelinked(before, now, id, done + {p})
    ensures p.Some? ==>
      IsRelinked(before, now[p.value := (if p.value in now then now[p.value] else {}) + {id}], id, done + {p})
  {
    if p.Some? {
      var after := now[p.value := (if p.value in now then now[p.value] else {}) + {id}];
      forall q: Hash, i: Hash
        ensures IsLinked(after, q, i) <==> IsLinked(before, q, i) || (i == id && Some(q) in done + {p})
      {
        assert IsLinked(now, q, i) <==> IsLinked(before, q, i) || (i == id && Some(q) in done);
      }
      assert after[p.value] != {} by {
        assert id in after[p.value];
      }
    }
  }

  function Noted(r: Receipt, task: Task, block: nat, parent: Hash, bits: set<Bit>, observed: nat): Receipt {
    r.(task := task, block := block, firstObserved := if r.firstObserved == 0 then observed else r.firstObserved,
       retryUnknown := if Known in bits then false else r.retryUnknown,
       parents := r.parents[Some(parent) := BitsOf(r.parents, Some(parent)) + bits])
  }

  lemma NotedIs(r: Receipt, task: Task, block: nat, parent: Hash, bits: set<Bit>, observed: nat)
    ensures var n := Noted(r, task, block, parent, bits, observed);
      && n.task == task && n.block == block && n.lastAttempt == r.lastAttempt
      && n.parents == r.parents[Some(parent) := BitsOf(r.parents, Some(parent)) + bits]
      && n.retryUnknown == (r.retryUnknown && Known !in bits)
      && n.firstObserved == if r.firstObserved == 0 then observed else r.firstObserved
  {
  }

  // ------------------------------------------------------------------ the store

  class Store {
    var pages: map<Hash, Receipt>
    var schedule: map<ScheduleKey, Hash>
    var parents: map<Hash, set<Hash>>

    ghost predicate Valid()
      reads this
    {
      && IsSchedule(pages, schedule) && IsInverse(pages, parents)
      && forall id :: id in pages ==> FlagsOk(pages[id])
    }

    constructor ()
      ensures Valid() && pages == map[]
    {
      pages, schedule, parents := map[], map[], map[];
    }

    method Set(id: Hash, r: Receipt)
      requires Valid() && FlagsOk(r)
      modifies this
      ensures Valid() && pages == old(pages)[id := r]
    {
      var former := if id in pages then pages[id].parents.Keys else {};
      if id in pages && pages[id].pending {
        schedule := schedule - {KeyOf(id, pages[id])};
      }
      if r.pending {
        schedule := schedule[KeyOf(id, r) := id];
      }
      parents := Unlink(parents, id, former);
      parents := Relink(parents, id, r.parents.Keys);
      pages := pages[id := r];
    }

    method Delete(id: Hash)
      requires Valid()
      modifies this
      ensures Valid() && pages == old(pages) - {id}
    {
      if id !in pages {
        assert pages - {id} == pages;
        return;
      }
      if pages[id].pending {
        schedule := schedule - {KeyOf(id, pages[id])};
      }
      parents := Unlink(parents, id, pages[id].parents.Keys);
      pages := pages - {id};
    }

    /** One observed fact about a receipt, under the capture that it came from. */
    method Fact(id: Hash, task: Task, block: nat, parent: Hash, bits: set<Bit>, observed: nat)
      requires Valid()
      modifies this
      ensures Valid() && id in pages && pages == old(pages)[id := pages[id]]
      ensures var before := if id in old(pages) then old(pages)[id] else Blank(task);
        && pages[id].parents == before.parents[Some(parent) := BitsOf(before.parents, Some(parent)) + bits]
        && pages[id].task == task && pages[id].block == block && pages[id].lastAttempt == before.lastAttempt
        && pages[id].retryUnknown == (before.retryUnknown && Known !in bits)
        && pages[id].firstObserved == if before.firstObserved == 0 then observed else before.firstObserved
      ensures id !in old(pages) ==>
        && pages[id].parents == map[Some(parent) := bits] && pages[id].firstObserved == observed
        && pages[id].lastAttempt == 0 && !pages[id].retryUnknown
    {
      hide *;
      var r := Noted(if id in pages then pages[id] else Blank(task), task, block, parent, bits, observed);
      NotedIs(if id in pages then pages[id] else Blank(task), task, block, parent, bits, observed);
      BlankIs(task, parent, bits);
      r := Recompute(r);
      Set(id, r);
    }

    /** The receipts that depend on a capture, read off the index. */
    function ParentReceipts(parent: Hash): (ids: set<Hash>)
      requires Valid()
      reads this
      ensures forall id :: id in ids <==> id in pages && Some(parent) in pages[id].parents
    {
      assert forall id :: IsLinked(parents, parent, id) <==> id in pages && Some(parent) in pages[id].parents;
      if parent in parents then parents[parent] else {}
    }

    /** A capture became final: its bits stay although the capture is forgotten. */
    method Seal(parent: Hash)
      requires Valid()
      modifies this
      ensures Valid() && pages == Sealed(old(pages), parent)
      ensures pages.Keys == old(pages).Keys
      ensures forall id :: id in pages ==> IsSealedFrom(old(pages)[id], parent, pages[id])
    {
      var left := ParentReceipts(parent);
      ghost var all, was := left, pages;
      SealNone(was, parent, all);
      hide *;
      while left != {}
        invariant Valid() && left <= all && IsSealing(was, pages, parent, all, left)
        decreases |left|
      {
        var id :| id in left;
        SealOne(was, pages, parent, all, left, id);
        FlagsAreOk(id);
        SealingKeepsFlags(pages[id], parent);
        left := left - {id};
        Set(id, pages[id].(parents := SealedParents(pages[id].parents, parent)));
      }
      SealAll(was, pages, parent, all);
      SealedMeans(was, parent);
    }

    lemma FlagsAreOk(id: Hash)
      requires Valid() && id in pages
      ensures FlagsOk(pages[id])
    {
    }

    /** A capture was orphaned: what only it had contributed is gone. */
    method DropParent(parent: Hash)
      requires Valid()
      modifies this
      ensures Valid() && IsDropped(old(pages), pages, parent)
    {
      var left := ParentReceipts(parent);
      ghost var all, was := left, pages;
      while left != {}
        invariant Valid() && left <= all && IsDropping(was, pages, parent, all, left)
        decreases |left|
      {
        var id :| id in left;
        ghost var before, former := pages, left;
        assert id in pages;
        var r := Recompute(pages[id].(parents := pages[id].parents - {Some(parent)}));
        hide IsDropping, IsSchedule, IsInverse, FlagsOk;
        if r.parents == map[] {
          Delete(id);
        } else {
          Set(id, r);
        }
        left := left - {id};
        DropOne(was, before, pages, parent, all, former, id, r);
      }
    }

    /** The attempt itself changes the place in the schedule. */
    method Attempt(id: Hash, at: nat)
      requires Valid()
      modifies this
      ensures Valid()
      ensures pages ==
        if id in old(pages) && old(pages)[id].pending then old(pages)[id := old(pages)[id].(lastAttempt := at)]
        else old(pages)
    {
      if id in pages && pages[id].pending && pages[id].lastAttempt != at {
        Set(id, pages[id].(lastAttempt := at));
      } else {
        assert id in pages && pages[id].pending ==> pages[id].(lastAttempt := at) == pages[id];
      }
    }

    /** The first key of a prefix after a given one. */
    method ScanOne(after: Option<ScheduleKey>, urgent: nat) returns (k: Option<ScheduleKey>)
      requires Valid() && (after.Some? ==> after.value.urgent == urgent)
      ensures k.None? ==> forall j :: j in schedule && j.urgent == urgent ==> !IsAfter(after, j)
      ensures k.Some? ==>
        && k.value in schedule && k.value.urgent == urgent && IsAfter(after, k.value)
        && forall j :: j in schedule && j.urgent == urgent && IsAfter(after, j) ==> j == k.value || Sooner(k.value, j)
    {
      SoonerOrders();
      var rest := set j | j in schedule && j.urgent >= urgent && IsAfter(after, j);
      var page := Page(rest, 1, Sooner);
      if page != [] {
        LeastFirst(rest, page, Sooner);
      } else {
        assert rest == Members<ScheduleKey>([]);
      }
      assert forall j :: j in schedule && j.urgent == urgent && IsAfter(after, j) ==> j in rest;
      k := if page == [] || page[0].urgent != urgent then None else Some(page[0]);
    }
  }

  lemma BlankIs(task: Task, parent: Hash, bits: set<Bit>)
    ensures var b := Blank(task);
      && b.lastAttempt == 0 && !b.retryUnknown && b.firstObserved == 0
      && b.parents[Some(parent) := BitsOf(b.parents, Some(parent)) + bits] == map[Some(parent) := bits]
  {
    assert BitsOf(Blank(task).parents, Some(parent)) + bits == bits;
  }

  function Blank(task: Task): Receipt {
    Receipt(task, 0, false, false, false, false, false, false, map[], 0, 0)
  }

  ghost function Sealed(pages: map<Hash, Receipt>, parent: Hash): map<Hash, Receipt> {
    map id | id in pages :: pages[id].(parents := SealedParents(pages[id].parents, parent))
  }

  /** All but the receipts in `left` have been sealed. */
  ghost predicate IsSealing(was: map<Hash, Receipt>, now: map<Hash, Receipt>, parent: Hash, all: set<Hash>,
                            left: set<Hash>)
  {
    && now.Keys == was.Keys && (forall id :: id in all <==> id in was && Some(parent) in was[id].parents)
    && forall id :: id in now ==>
        now[id] == if id in all && id !in left then was[id].(parents := SealedParents(was[id].parents, parent))
          else was[id]
  }

  lemma SealNone(was: map<Hash, Receipt>, parent: Hash, all: set<Hash>)
    requires forall id :: id in all <==> id in was && Some(parent) in was[id].parents
    ensures IsSealing(was, was, parent, all, all)
  {
  }

  lemma SealOne(was: map<Hash, Receipt>, now: map<Hash, Receipt>, parent: Hash, all: set<Hash>, left: set<Hash>,
                id: Hash)
    requires IsSealing(was, now, parent, all, left) && id in left && left <= all
    ensures id in now
    ensures IsSealing(was, now[id := now[id].(parents := SealedParents(now[id].parents, parent))], parent, all,
                      left - {id})
  {
  }

  /** Whatever a parent had contributed counts without it from now on. */
  ghost predicate IsSealedFrom(before: Receipt, parent: Hash, after: Receipt) {
    && after == before.(parents := after.parents)
    && Some(parent) !in after.parents
    && (forall p :: p != None && p != Some(parent) ==>
      (p in after.parents <==> p in before.parents) && (p in before.parents ==> after.parents[p] == before.parents[p]))
    && (None in after.parents <==> None in before.parents || Some(parent) in before.parents)
    && (forall b :: (None in after.parents && b in after.parents[None]) <==>
      (None in before.parents && b in before.parents[None])
      || (Some(parent) in before.parents && b in before.parents[Some(parent)]))
  }

  lemma SealedMeans(pages: map<Hash, Receipt>, parent: Hash)
    ensures Sealed(pages, parent).Keys == pages.Keys
    ensures forall id :: id in pages ==> IsSealedFrom(pages[id], parent, Sealed(pages, parent)[id])
  {
  }

  lemma SealAll(was: map<Hash, Receipt>, now: map<Hash, Receipt>, parent: Hash, all: set<Hash>)
    requires IsSealing(was, now, parent, all, {})
    ensures now == Sealed(was, parent)
  {
  }

  ghost predicate IsDroppedAt(before: map<Hash, Receipt>, after: map<Hash, Receipt>, parent: Hash, id: Hash)
    requires id in before
  {
    var rest := before[id].parents - {Some(parent)};
    && (id in after <==> rest != map[])
    && (id in after ==> after[id].parents == rest && FlagsOk(after[id]) && Bare(after[id]) == Bare(before[id]))
  }

  /** What a receipt is apart from its parents and their flags. */
  function Bare(r: Receipt): Receipt {
    r.(parents := map[], refund := false, known := false, feeComplete := false, transfers := false, pending := false)
  }

  /** Receipts of other branches are untouched. */
  ghost predicate IsDropped(before: map<Hash, Receipt>, after: map<Hash, Receipt>, parent: Hash) {
    && (forall id :: id in after ==> id in before)
    && (forall id :: id in before && Some(parent) in before[id].parents ==> IsDroppedAt(before, after, parent, id))
    && (forall id :: id in before && Some(parent) !in before[id].parents ==> id in after && after[id] == before[id])
  }

  ghost predicate IsDropping(was: map<Hash, Receipt>, now: map<Hash, Receipt>, parent: Hash, all: set<Hash>,
                             left: set<Hash>)
  {
    && (forall id :: id in all <==> id in was && Some(parent) in was[id].parents)
    && (forall id :: id in was && !(id in all && id !in left) ==> id in now && now[id] == was[id])
    && (forall id :: id in now ==> id in was)
    && (forall id :: id in all && id !in left ==> IsDroppedAt(was, now, parent, id))
  }

  lemma DropOne(was: map<Hash, Receipt>, before: map<Hash, Receipt>, now: map<Hash, Receipt>, parent: Hash,
                all: set<Hash>, left: set<Hash>, id: Hash, r: Receipt)
    requires IsDropping(was, before, parent, all, left) && id in left && left <= all && FlagsOk(r)
    requires r == was[id].(parents := was[id].parents - {Some(parent)}, refund := r.refund, known := r.known,
                           feeComplete := r.feeComplete, transfers := r.transfers, pending := r.pending)
    requires now == if r.parents == map[] then before - {id} else before[id := r]
    ensures IsDropping(was, now, parent, all, left - {id})
  {
    forall i | i in all && i !in left - {id} ensures IsDroppedAt(was, now, parent, i) {
      if i != id {
        assert IsDroppedAt(was, before, parent, i);
      }
    }
  }

  predicate IsAfter(after: Option<ScheduleKey>, k: ScheduleKey) { after.Some? ==> Sooner(after.value, k) }

  // ------------------------------------------------------------------ selection

  predicate IsCool(r: Receipt, at: int) { r.lastAttempt == 0 || at - r.lastAttempt >= MINUTE }

  predicate IsEligible(pages: map<Hash, Receipt>, readers: set<nat>, at: int, id: Hash) {
    id in pages && pages[id].pending && pages[id].task.chain in readers && IsCool(pages[id], at)
  }

  /** The definition by scanning everything: the least schedule key among the
      receipts that could be fetched now. */
  ghost predicate IsFirstEligible(pages: map<Hash, Receipt>, readers: set<nat>, at: int, id: Hash) {
    && IsEligible(pages, readers, at, id)
    && forall j :: IsEligible(pages, readers, at, j) ==> j == id || Sooner(KeyOf(id, pages[id]), KeyOf(j, pages[j]))
  }

  /** On the records: a refund whose transfers are not known yet comes before everything else,
      then the receipt that was left alone longest, then the smaller identifier. */
  ghost predicate ComesFirst(id: Hash, r: Receipt, other: Hash, s: Receipt) {
    if (r.refund && !r.transfers) != (s.refund && !s.transfers) then r.refund && !r.transfers
    else r.lastAttempt < s.lastAttempt || (r.lastAttempt == s.lastAttempt && id < other)
  }

  /** Pending, of a chain that can be read, and not tried within the last minute. */
  ghost predicate IsOpenNow(pages: map<Hash, Receipt>, readers: set<nat>, at: int, id: Hash) {
    && id in pages && pages[id].pending && pages[id].task.chain in readers
    && (pages[id].lastAttempt != 0 ==> pages[id].lastAttempt + 60_000_000_000 <= at)
  }

  ghost predicate IsSelection(found: Option<Hash>, pages: map<Hash, Receipt>, readers: set<nat>, at: int) {
    match found
    case None => forall id :: !IsOpenNow(pages, readers, at, id)
    case Some(id) =>
      && IsOpenNow(pages, readers, at, id)
      && forall j :: j != id && IsOpenNow(pages, readers, at, j) ==> ComesFirst(id, pages[id], j, pages[j])
  }

  lemma FirstIsSelected(found: Option<Hash>, pages: map<Hash, Receipt>, readers: set<nat>, at: int)
    requires found.None? ==> forall id :: !IsEligible(pages, readers, at, id)
    requires found.Some? ==> IsFirstEligible(pages, readers, at, found.value)
    ensures IsSelection(found, pages, readers, at)
  {
    forall j | IsOpenNow(pages, readers, at, j) ensures IsEligible(pages, readers, at, j) {
    }
  }

  ghost predicate NoneOf(pages: map<Hash, Receipt>, readers: set<nat>, at: int, urgent: nat) {
    forall id :: IsEligible(pages, readers, at, id) ==> KeyOf(id, pages[id]).urgent != urgent
  }

  /** One prefix of the schedule. It may stop at the first receipt that was tried
      less than a minute ago, for all later ones were tried even more recently. */
  method SelectPrefix(s: Store, readers: set<nat>, at: int, urgent: nat) returns (found: Option<Hash>)
    requires s.Valid()
    ensures found.None? ==> NoneOf(s.pages, readers, at, urgent)
    ensures found.Some? ==>
      IsEligible(s.pages, readers, at, found.value) && KeyOf(found.value, s.pages[found.value]).urgent == urgent
    ensures found.Some? ==> forall j :: IsEligible(s.pages, readers, at, j) && KeyOf(j, s.pages[j]).urgent == urgent ==>
      j == found.value || Sooner(KeyOf(found.value, s.pages[found.value]), KeyOf(j, s.pages[j]))
  {
    var after: Option<ScheduleKey> := None;
    while true
      invariant after.Some? ==> after.value.urgent == urgent && after.value in s.schedule
      invariant forall j :: IsEligible(s.pages, readers, at, j) && KeyOf(j, s.pages[j]).urgent == urgent ==>
        IsAfter(after, KeyOf(j, s.pages[j]))
      decreases |set j | j in s.schedule && IsAfter(after, j)|
    {
      var k := s.ScanOne(after, urgent);
      if k.None? {
        return None;
      }
      var id := s.schedule[k.value];
      var r := s.pages[id];
      if r.lastAttempt != 0 && at - r.lastAttempt < MINUTE {
        return None;
      }
      if r.task.chain in readers {
        return Some(id);
      }
      FewerAfter(s.schedule.Keys, after, k.value);
      after := k;
    }
  }

  lemma FewerAfter(keys: set<ScheduleKey>, after: Option<ScheduleKey>, k: ScheduleKey)
    requires k in keys && IsAfter(after, k)
    ensures |set j | j in keys && IsAfter(Some(k), j)| < |set j | j in keys && IsAfter(after, j)|
  {
    var more, fewer := set j | j in keys && IsAfter(after, j), set j | j in keys && IsAfter(Some(k), j);
    assert k in more && k !in fewer && fewer <= more;
    assert more == fewer + (more - fewer);
  }

  /** Urgent receipts first, then the others: the scan of the schedule finds what
      a search through everything would find. */
  method SelectReceipt(s: Store, readers: set<nat>, at: int) returns (found: Option<Hash>)
    requires s.Valid()
    ensures found.None? ==> forall id :: !IsEligible(s.pages, readers, at, id)
    ensures found.Some? ==> IsFirstEligible(s.pages, readers, at, found.value)
    ensures IsSelection(found, s.pages, readers, at)
  {
    found := SelectPrefix(s, readers, at, 0);
    if found.None? {
      found := SelectPrefix(s, readers, at, 1);
    }
    FirstIsSelected(found, s.pages, readers, at);
  }
}
