// How the keeper merges observed rental events of one renter and receiver. Events
// come in the order of their captures, not of the chain, so what is known in the
// end must not depend on that order.

module DynamicMerge {
  import opened Options

  type Key = nat

  datatype Kind = Rent | Return | Liquidate | OtherKind

  datatype Raw = Raw(block: nat, time: int, kind: Kind, index: nat, tx: string, amount: Option<int>)
  {
    predicate SameEvent(r: Raw) { tx == r.tx && index == r.index }

    predicate IsClosing() { kind == Liquidate || (kind == Return && amount == Some(0)) }
  }

  /** An observation: the event, and when it became available (0: unknown). */
  datatype Event = Event(raw: Raw, available: nat)

  /** The place of a verified event inside its block. */
  datatype Position = Position(tx: nat, log: nat)

  datatype Candidate = Candidate(
    origin: Raw, ambiguous: bool, verified: bool, closed: bool, lastNumber: nat, last: Position, lifecycle: Option<Raw>)

  datatype Order = Order(candidate: Candidate, firstSeen: nat, conflicts: seq<Raw>, closurePending: bool)

  /** The state of the checks of one order generation, which its origin identifies. */
  datatype Check = Check(generation: Raw, verified: bool, attempts: nat, fairSince: nat, lastAttempt: nat)

  // --------------------------------------------------------------- text order

  function Decimal(n: nat): string {
    if n < 10 then [Digit(n)] else Decimal(n / 10) + [Digit(n % 10)]
  }

  function Digit(d: nat): char
    requires d < 10
  {
    ['0', '1', '2', '3', '4', '5', '6', '7', '8', '9'][d]
  }

  lemma {:induction false} DecimalIsInjective(a: nat, b: nat)
    requires Decimal(a) == Decimal(b)
    ensures a == b
  {
    var s, t := Decimal(a), Decimal(b);
    assert s[|s| - 1] == Digit(a % 10) && t[|t| - 1] == Digit(b % 10);
    if a >= 10 && b >= 10 {
      assert s[..|s| - 1] == Decimal(a / 10) && t[..|t| - 1] == Decimal(b / 10);
      DecimalIsInjective(a / 10, b / 10);
    } else if a >= 10 {
      DecimalIsNotEmpty(a / 10);
    } else if b >= 10 {
      DecimalIsNotEmpty(b / 10);
    }
  }

  lemma DecimalIsNotEmpty(n: nat)
    ensures |Decimal(n)| > 0
  {
  }

  predicate TextLess(a: string, b: string) {
    if b == "" then false
    else if a == "" then true
    else a[0] < b[0] || (a[0] == b[0] && TextLess(a[1..], b[1..]))
  }

  lemma {:induction false} TextLessOrders(a: string, b: string, c: string)
    ensures !TextLess(a, a)
    ensures TextLess(a, b) || a == b || TextLess(b, a)
    ensures TextLess(a, b) && TextLess(b, c) ==> TextLess(a, c)
    decreases |a|
  {
    if a != "" {
      TextLessOrders(a[1..], if b != "" then b[1..] else b, if c != "" then c[1..] else c);
      if b != "" && a[0] == b[0] && a[1..] == b[1..] {
        assert a == [a[0]] + a[1..] && b == [b[0]] + b[1..];
      }
    }
  }

  /** The text that is smaller at the first difference, or that the other one continues. */
  lemma {:induction false} TextLessMeans(a: string, b: string)
    ensures TextLess(a, b) <==> exists i: nat :: IsSmallerAt(a, b, i)
    decreases |a|
  {
    if a != "" && b != "" && a[0] == b[0] {
      TextLessMeans(a[1..], b[1..]);
      if i: nat :| IsSmallerAt(a[1..], b[1..], i) {
        assert forall j :: 0 < j <= i ==> a[j] == a[1..][j - 1] && b[j] == b[1..][j - 1];
        assert IsSmallerAt(a, b, i + 1);
      }
      if i: nat :| IsSmallerAt(a, b, i) {
        assert i > 0;
        assert IsSmallerAt(a[1..], b[1..], i - 1);
      }
    } else if TextLess(a, b) {
      assert IsSmallerAt(a, b, 0);
    }
  }

  ghost predicate IsSmallerAt(a: string, b: string, i: nat) {
    && i <= |a| && i < |b| && (i == |a| || a[i] < b[i])
    && forall j :: 0 <= j < i ==> a[j] == b[j]
  }

  function Text(r: Raw): string { r.tx + Decimal(r.index) }

  /** Transaction identifiers have one length: equal texts are equal events. */
  lemma TextIdentifies(r: Raw, s: Raw)
    requires |r.tx| == |s.tx| && Text(r) == Text(s)
    ensures r.SameEvent(s)
  {
    assert Text(r)[..|r.tx|] == r.tx && Text(s)[..|s.tx|] == s.tx;
    assert Text(r)[|r.tx|..] == Decimal(r.index) && Text(s)[|s.tx|..] == Decimal(s.index);
    DecimalIsInjective(r.index, s.index);
  }

  // -------------------------------------------------------------------- merging

  function AppendConflict(rows: seq<Raw>, r: Raw): seq<Raw> {
    if exists i | 0 <= i < |rows| :: rows[i].SameEvent(r) then rows else rows + [r]
  }

  /** An earlier availability moves the discovery back, whatever else happens. */
  function Seen(o: Order, available: nat): Order {
    if available != 0 && (o.firstSeen == 0 || available < o.firstSeen) then o.(firstSeen := available) else o
  }

  function CheckOf(check: Option<Check>, c: Candidate): Check {
    if check.Some? && check.value.generation == c.origin then check.value
    else Check(c.origin, c.verified, 0, if check.Some? then check.value.fairSince else 0,
               if check.Some? then check.value.lastAttempt else 0)
  }

  function SeenCheck(o: Order, check: Option<Check>, available: nat): Option<Check> {
    var c := CheckOf(check, o.candidate);
    if available != 0 && (o.firstSeen == 0 || available < o.firstSeen) && c.lastAttempt == 0
      && (c.fairSince == 0 || available < c.fairSince)
    then Some(c.(fairSince := available)) else check
  }

  predicate IsBehind(p: Position, c: Candidate) { p.tx < c.last.tx || (p.tx == c.last.tx && p.log <= c.last.log) }

  /** What an earlier availability changes: the discovery time, and of an order of this generation
      that was never tried the time since which it waits, if that was later. */
  lemma SeenMeans(o: Order, check: Option<Check>, available: nat)
    ensures var sooner := available != 0 && (o.firstSeen == 0 || o.firstSeen > available);
      && Seen(o, available) == o.(firstSeen := if sooner then available else o.firstSeen)
      && (!sooner ==> SeenCheck(o, check, available) == check)
      && (sooner && check.Some? && check.value.generation == o.candidate.origin ==>
        var waits := check.value.lastAttempt == 0 && (check.value.fairSince == 0 || check.value.fairSince > available);
        SeenCheck(o, check, available)
          == Some(check.value.(fairSince := if waits then available else check.value.fairSince)))
      && (sooner && check.None? ==>
        SeenCheck(o, check, available) == Some(Check(o.candidate.origin, o.candidate.verified, 0, available, 0)))
  {
  }

  datatype Ruling = Ignore | Contest | Accept(ambiguous: bool)

  /** How an event compares with the order's present origin. */
  function Rule(was: Order, r: Raw, verified: Option<Position>): Ruling {
    var o := was.candidate.origin;
    if r.SameEvent(o) then
      (if was.candidate.verified && verified.None? then Ignore else Accept(was.candidate.ambiguous))
    else if r.block < o.block then Ignore
    else if r.block > o.block then Accept(false)
    else if verified.None? || !was.candidate.verified
    then (if TextLess(Text(r), Text(o)) then Contest else Accept(true))
    else if IsBehind(verified.value, was.candidate) then Ignore else Accept(false)
  }

  function Contested(was: Order, r: Raw): Order {
    was.(candidate := was.candidate.(ambiguous := true),
         conflicts := AppendConflict(AppendConflict(was.conflicts, was.candidate.origin), r))
  }

  /** The candidate that an accepted event makes. */
  function Accepted(was: Option<Order>, r: Raw, verified: Option<Position>, ambiguous: bool): Candidate {
    var same := was.Some? && r.SameEvent(was.value.candidate.origin);
    var lifecycle := if was.Some? then was.value.candidate.lifecycle else None;
    var base := if same then was.value.candidate.(origin := r, ambiguous := ambiguous)
                else Candidate(r, ambiguous, false, false, 0, Position(0, 0), lifecycle);
    if verified.None? then base
    else base.(verified := true, ambiguous := false, lastNumber := r.block, last := verified.value,
               closed := r.IsClosing(),
               lifecycle := if r.kind == Rent
                   && ((was.Some? && was.value.candidate.closed) || lifecycle.None?) then Some(r) else lifecycle)
  }

  function Adopted(was: Option<Order>, e: Event, verified: Option<Position>, ambiguous: bool, now: nat): Order {
    var r := e.raw;
    var can := Accepted(was, r, verified, ambiguous);
    var first := if was.Some? && was.value.firstSeen != 0 then was.value.firstSeen
      else if e.available != 0 then e.available else now;
    var o := Order(can, first, [], r.IsClosing() && !can.verified);
    if was.Some? && r.block == was.value.candidate.origin.block
      && (!r.SameEvent(was.value.candidate.origin) || was.value.conflicts != [])
    then o.(conflicts := AppendConflict(AppendConflict(was.value.conflicts, was.value.candidate.origin), r),
            candidate := can.(ambiguous := true, verified := false))
    else o
  }

  /** The whole effect of one event on an order. */
  function ApplyOrder(was: Option<Order>, e: Event, verified: Option<Position>, now: nat): Order {
    if was.None? then Adopted(None, e, verified, false, now)
    else
      var seen := Seen(was.value, e.available);
      match Rule(seen, e.raw, verified)
      case Ignore => seen
      case Contest => Contested(seen, e.raw)
      case Accept(ambiguous) => Adopted(Some(seen), e, verified, ambiguous, now)
  }

  function ApplyCheck(was: Option<Order>, check: Option<Check>, e: Event, verified: Option<Position>,
                      now: nat): Option<Check>
  {
    if was.None? then Some(AdoptedCheck(None, check, e, verified, false, now))
    else
      var seen, before := Seen(was.value, e.available), SeenCheck(was.value, check, e.available);
      match Rule(seen, e.raw, verified)
      case Accept(ambiguous) => Some(AdoptedCheck(Some(seen), before, e, verified, ambiguous, now))
      case _ => before
  }

  function AdoptedCheck(was: Option<Order>, check: Option<Check>, e: Event, verified: Option<Position>, ambiguous: bool,
                        now: nat): Check
  {
    var o := Adopted(was, e, verified, ambiguous, now);
    var c := CheckOf(check, o.candidate);
    c.(verified := Accepted(was, e.raw, verified, ambiguous).verified,
       fairSince := if c.fairSince == 0 then o.firstSeen else c.fairSince)
  }

  class Work {
    var orders: map<Key, Order>
    var checks: map<Key, Check>

    function OrderAt(k: Key): Option<Order>
      reads this
    {
      if k in orders then Some(orders[k]) else None
    }

    function CheckAt(k: Key): Option<Check>
      reads this
    {
      if k in checks then Some(checks[k]) else None
    }

    constructor ()
      ensures orders == map[] && checks == map[]
    {
      orders, checks := map[], map[];
    }

    /** An earlier availability moves the discovery back, and the fairness clock of
        an order that was never attempted with it. */
    method Observe(key: Key, available: nat)
      requires key in orders
      modifies this
      ensures orders == old(orders)[key := Seen(old(orders)[key], available)]
      ensures CheckAt(key) == SeenCheck(old(orders)[key], old(CheckAt(key)), available)
      ensures forall k :: k != key ==> CheckAt(k) == old(CheckAt(k))
    {
      var o := orders[key];
      if available != 0 && (o.firstSeen == 0 || available < o.firstSeen) {
        orders := orders[key := o.(firstSeen := available)];
        var c := CheckOf(CheckAt(key), o.candidate);
        if c.lastAttempt == 0 && (c.fairSince == 0 || available < c.fairSince) {
          checks := checks[key := c.(fairSince := available)];
        }
      } else {
        assert orders == orders[key := o];
      }
    }

    method Adopt(key: Key, was: Option<Order>, e: Event, verified: Option<Position>, ambiguous: bool, now: nat)
      modifies this
      ensures orders == old(orders)[key := Adopted(was, e, verified, ambiguous, now)]
      ensures CheckAt(key) == Some(AdoptedCheck(was, old(CheckAt(key)), e, verified, ambiguous, now))
      ensures forall k :: k != key ==> CheckAt(k) == old(CheckAt(k))
    {
      var o := Adopted(was, e, verified, ambiguous, now);
      orders := orders[key := o];
      var check := CheckOf(CheckAt(key), o.candidate);
      check := check.(verified := Accepted(was, e.raw, verified, ambiguous).verified);
      if check.fairSince == 0 {
        check := check.(fairSince := o.firstSeen);
      }
      checks := checks[key := check];
    }

    /** One observed event of a pair; `verified` is its place in the block if its
        receipt was verified. */
    method ApplyRaw(key: Key, e: Event, verified: Option<Position>, now: nat)
      modifies this
      ensures orders == old(orders)[key := ApplyOrder(old(OrderAt(key)), e, verified, now)]
      ensures CheckAt(key) == ApplyCheck(old(OrderAt(key)), old(CheckAt(key)), e, verified, now)
      ensures forall k :: k != key ==> CheckAt(k) == old(CheckAt(k))
      ensures key in orders && StaysInOrder(old(OrderAt(key)), e, verified, orders[key])
    {
      AppliedInOrder(OrderAt(key), e, verified, now);
      hide StaysInOrder, AppendConflict, TextLess, Text, Adopted, AdoptedCheck, SeenCheck, Seen;
      if key !in orders {
        Adopt(key, None, e, verified, false, now);
        return;
      }
      Observe(key, e.available);
      var o := orders[key];
      var origin := o.candidate.origin;
      var ambiguous := false;
      if !e.raw.SameEvent(origin) {
        if e.raw.block < origin.block {
          return;
        }
        if e.raw.block == origin.block {
          if verified.None? || !o.candidate.verified {
            if TextLess(Text(e.raw), Text(origin)) {
              var conflicts := AppendConflict(AppendConflict(o.conflicts, origin), e.raw);
              orders := orders[key := o.(candidate := o.candidate.(ambiguous := true), conflicts := conflicts)];
              return;
            }
            ambiguous := true;
          } else if IsBehind(verified.value, o.candidate) {
            return;
          }
        }
      } else {
        if o.candidate.verified && verified.None? {
          return;
        }
        ambiguous := o.candidate.ambiguous;
      }
      Adopt(key, Some(o), e, verified, ambiguous, now);
    }
  }

  // ----------------------------------------------------------- any order will do

  /** Observed events: transaction identifiers have the fixed length of their
      hexadecimal form, and one identity names one event. */
  ghost predicate AreEvents(es: set<Event>) {
    && (forall e :: e in es ==> |e.raw.tx| == 64 && e.available != 0)
    && (forall e, f :: e in es && f in es && e.raw.tx == f.raw.tx && e.raw.index == f.raw.index ==> e.raw == f.raw)
  }

  /** The newest event, by block and then by the text of its identity. */
  ghost predicate IsNewest(origin: Raw, es: set<Event>) {
    && (exists e :: e in es && e.raw == origin)
    && (forall e :: e in es ==> e.raw.block <= origin.block)
    && (forall e :: e in es && e.raw.block == origin.block ==> !TextLess(Text(origin), Text(e.raw)))
  }

  ghost predicate IsEarliest(seen: nat, es: set<Event>) {
    (exists e :: e in es && e.available == seen) && forall e :: e in es ==> seen <= e.available
  }

  ghost predicate IsOfBlock(x: Raw, block: nat, es: set<Event>) {
    x.block == block && exists e :: e in es && e.raw == x
  }

  ghost predicate ConflictsOk(o: Order, es: set<Event>) {
    && (o.candidate.ambiguous <==> IsContested(o.candidate.origin, es)) && AreRivals(o.conflicts)
    && (forall x :: x in o.conflicts <==>
        IsContested(o.candidate.origin, es) && IsOfBlock(x, o.candidate.origin.block, es))
  }

  /** Nothing is a rival twice. */
  ghost predicate AreRivals(rows: seq<Raw>) {
    forall i, j :: 0 <= i < j < |rows| ==> rows[i].tx != rows[j].tx || rows[i].index != rows[j].index
  }

  lemma RivalsStay(rows: seq<Raw>, r: Raw)
    requires AreRivals(rows)
    ensures AreRivals(AppendConflict(rows, r))
  {
  }

  /** What is known after a set of events, none of them verified: the origin is the
      newest one; if its block has rivals, all of them are conflicts. */
  ghost predicate IsMerged(o: Order, es: set<Event>) {
    IsNewest(o.candidate.origin, es) && IsEarliest(o.firstSeen, es) && ConflictsOk(o, es) && !o.candidate.verified
  }

  /** Another event of the same block was observed. */
  ghost predicate IsContested(origin: Raw, es: set<Event>) {
    exists e :: e in es && e.raw.block == origin.block && e.raw != origin
  }

  ghost predicate IsFair(o: Order, check: Option<Check>) {
    check.Some? && (check.value.lastAttempt == 0 ==> check.value.fairSince == o.firstSeen)
  }

  lemma ConflictAdded(rows: seq<Raw>, r: Raw, es: set<Event>, block: nat)
    requires AreEvents(es) && IsOfBlock(r, block, es) && forall x :: x in rows ==> IsOfBlock(x, block, es)
    ensures forall x :: x in AppendConflict(rows, r) <==> x in rows || x == r
  {
    if i :| 0 <= i < |rows| && rows[i].SameEvent(r) {
      assert rows[i] in rows && IsOfBlock(rows[i], block, es);
    }
  }

  /** With the origin and the new event, the conflicts are all events of the block. */
  lemma ConflictsAdded(o: Order, es: set<Event>, e: Event)
    requires AreEvents(es + {e}) && IsNewest(o.candidate.origin, es)
    requires ConflictsOk(o, es) && e.raw.block == o.candidate.origin.block
    ensures var more := AppendConflict(AppendConflict(o.conflicts, o.candidate.origin), e.raw);
      AreRivals(more) && forall x :: x in more <==> IsOfBlock(x, e.raw.block, es + {e})
  {
    RivalsStay(o.conflicts, o.candidate.origin);
    RivalsStay(AppendConflict(o.conflicts, o.candidate.origin), e.raw);
    var all, block, origin := es + {e}, e.raw.block, o.candidate.origin;
    assert IsOfBlock(origin, block, all) && IsOfBlock(e.raw, block, all);
    forall x | x in o.conflicts ensures IsOfBlock(x, block, all) {
    }
    ConflictAdded(o.conflicts, origin, all, block);
    ConflictAdded(AppendConflict(o.conflicts, origin), e.raw, all, block);
    forall x | IsOfBlock(x, block, all) && x != e.raw && x != origin ensures x in o.conflicts {
      assert IsOfBlock(x, block, es);
      assert IsContested(origin, es);
    }
  }

  lemma SeenIsEarliest(o: Order, es: set<Event>, e: Event)
    requires IsEarliest(o.firstSeen, es) && AreEvents(es + {e})
    ensures IsEarliest(Seen(o, e.available).firstSeen, es + {e})
  {
  }

  lemma NewestGrows(origin: Raw, es: set<Event>, e: Event)
    requires AreEvents(es + {e}) && IsNewest(origin, es) && !e.raw.SameEvent(origin)
    ensures if e.raw.block < origin.block || (e.raw.block == origin.block && TextLess(Text(e.raw), Text(origin)))
      then IsNewest(origin, es + {e}) else IsNewest(e.raw, es + {e})
  {
    TextLessOrders(Text(e.raw), Text(origin), Text(e.raw));
    TextLessOrders(Text(origin), Text(e.raw), Text(origin));
    if e.raw.block == origin.block && Text(e.raw) == Text(origin) {
      TextIdentifies(e.raw, origin);
    }
    if e.raw.block == origin.block && TextLess(Text(origin), Text(e.raw)) {
      forall f | f in es && f.raw.block == origin.block ensures !TextLess(Text(e.raw), Text(f.raw)) {
        TextLessOrders(Text(origin), Text(e.raw), Text(f.raw));
      }
      TextLessOrders(Text(e.raw), Text(e.raw), Text(e.raw));
    }
  }

  lemma MergeStep(o: Order, es: set<Event>, e: Event, now: nat)
    requires AreEvents(es + {e}) && IsMerged(o, es)
    ensures IsMerged(ApplyOrder(Some(o), e, None, now), es + {e})
  {
    hide AppendConflict, TextLess, Text;
    var all, origin := es + {e}, o.candidate.origin;
    SeenIsEarliest(o, es, e);
    if e.raw.SameEvent(origin) {
      MergeSame(o, es, e, now);
    } else {
      NewestGrows(origin, es, e);
      if e.raw.block == origin.block {
        ConflictsAdded(o, es, e);
        assert e in all && IsContested(origin, all);
        var f :| f in es && f.raw == origin;
        assert f in all && IsContested(e.raw, all);
      } else if e.raw.block > origin.block {
        assert !IsContested(e.raw, all);
      } else {
        SameConflicts(o, es, e);
      }
    }
  }

  lemma MergeSame(o: Order, es: set<Event>, e: Event, now: nat)
    requires AreEvents(es + {e}) && IsMerged(o, es) && e.raw.SameEvent(o.candidate.origin)
    ensures IsMerged(ApplyOrder(Some(o), e, None, now), es + {e})
  {
    var origin := o.candidate.origin;
    var f :| f in es && f.raw == origin;
    assert e.raw == origin && IsOfBlock(origin, origin.block, es);
    SeenIsEarliest(o, es, e);
    ConflictsAdded(o, es, e);
    SameConflicts(o, es, e);
    if o.conflicts != [] {
      assert o.conflicts[0] in o.conflicts;
      assert IsContested(origin, es + {e});
    } else {
      assert origin !in o.conflicts;
    }
  }

  /** An event of an older block, or the origin once more, changes no conflict. */
  lemma SameConflicts(o: Order, es: set<Event>, e: Event)
    requires AreEvents(es + {e}) && IsNewest(o.candidate.origin, es) && ConflictsOk(o, es)
    requires e.raw == o.candidate.origin || e.raw.block < o.candidate.origin.block
    ensures ConflictsOk(o, es + {e})
    ensures IsNewest(o.candidate.origin, es + {e})
  {
  }

  lemma MergeFirst(e: Event, now: nat)
    requires AreEvents({e})
    ensures IsMerged(ApplyOrder(None, e, None, now), {e})
  {
    TextLessOrders(Text(e.raw), Text(e.raw), Text(e.raw));
  }

  lemma FairStep(o: Option<Order>, check: Option<Check>, e: Event, now: nat)
    requires e.available != 0 && (o.Some? ==> IsFair(o.value, check) && o.value.firstSeen != 0)
    requires (o.None? ==> check.None?)
    ensures IsFair(ApplyOrder(o, e, None, now), ApplyCheck(o, check, e, None, now))
  {
  }

  // -- whole runs

  ghost function RunOrder(o: Option<Order>, es: seq<Event>, now: nat): Option<Order> {
    if es == [] then o else Some(ApplyOrder(RunOrder(o, es[..|es| - 1], now), es[|es| - 1], None, now))
  }

  ghost function RunCheck(o: Option<Order>, c: Option<Check>, es: seq<Event>, now: nat): Option<Check> {
    if es == [] then c
    else ApplyCheck(RunOrder(o, es[..|es| - 1], now), RunCheck(o, c, es[..|es| - 1], now), es[|es| - 1], None, now)
  }

  ghost function AsSet(es: seq<Event>): set<Event> { set e | e in es }

  lemma {:induction false} RunMerges(es: seq<Event>, now: nat)
    requires es != [] && AreEvents(AsSet(es))
    ensures var o := RunOrder(None, es, now);
      o.Some? && IsMerged(o.value, AsSet(es)) && IsFair(o.value, RunCheck(None, None, es, now))
    decreases |es|
  {
    var front, e := es[..|es| - 1], es[|es| - 1];
    assert es == front + [e];
    assert AsSet(es) == AsSet(front) + {e};
    assert e in es;
    hide IsMerged, ApplyOrder, ApplyCheck, IsFair;
    if front == [] {
      assert AsSet(front) + {e} == {e};
      MergeFirst(e, now);
      FairStep(None, None, e, now);
    } else {
      RunMerges(front, now);
      var o := RunOrder(None, front, now).value;
      MergeStep(o, AsSet(front), e, now);
      MergedWasSeen(o, AsSet(front));
      FairStep(Some(o), RunCheck(None, None, front, now), e, now);
    }
  }

  lemma MergedWasSeen(o: Order, es: set<Event>)
    requires IsMerged(o, es) && AreEvents(es)
    ensures o.firstSeen != 0
  {
  }

  lemma MergedIsUnique(a: Order, b: Order, es: set<Event>)
    requires AreEvents(es) && IsMerged(a, es) && IsMerged(b, es)
    ensures a.candidate.origin == b.candidate.origin && a.firstSeen == b.firstSeen
    ensures a.candidate.ambiguous == b.candidate.ambiguous
    ensures forall x :: x in a.conflicts <==> x in b.conflicts
  {
    var x, y := a.candidate.origin, b.candidate.origin;
    TextLessOrders(Text(x), Text(y), Text(x));
    if Text(x) == Text(y) {
      TextIdentifies(x, y);
    }
  }

  /** The same observations in any order, any number of times each, lead to the
      same origin, the same ambiguity, the same conflicts and the same discovery
      time, and to a fairness clock that starts at that time. */
  lemma OrderDoesNotMatter(xs: seq<Event>, ys: seq<Event>, now: nat, later: nat)
    requires xs != [] && AreEvents(AsSet(xs)) && AsSet(xs) == AsSet(ys)
    ensures RunOrder(None, xs, now).Some? && RunOrder(None, ys, later).Some?
    ensures var a, b := RunOrder(None, xs, now).value, RunOrder(None, ys, later).value;
      && a.candidate.origin == b.candidate.origin && a.candidate.ambiguous == b.candidate.ambiguous
      && a.firstSeen == b.firstSeen && (forall r :: r in a.conflicts <==> r in b.conflicts)
      && IsFair(a, RunCheck(None, None, xs, now)) && IsFair(b, RunCheck(None, None, ys, later))
  {
    assert xs[0] in AsSet(ys);
    RunMerges(xs, now);
    RunMerges(ys, later);
    MergedIsUnique(RunOrder(None, xs, now).value, RunOrder(None, ys, later).value, AsSet(xs));
  }

  // ------------------------------------------------- verified events, chain order

  datatype Verified = Verified(event: Event, place: Position)

  predicate IsLater(v: Verified, w: Verified) {
    || v.event.raw.block > w.event.raw.block
    || (v.event.raw.block == w.event.raw.block
        && (v.place.tx > w.place.tx || (v.place.tx == w.place.tx && v.place.log > w.place.log)))
  }

  /** The place of a verified event is a later one than that of the verified origin. */
  ghost predicate ComesAfter(block: nat, p: Position, c: Candidate) {
    || block > c.origin.block
    || (block == c.origin.block && p.tx > c.last.tx)
    || (block == c.origin.block && p.tx == c.last.tx && p.log > c.last.log)
  }

  /** A verified origin gives way to a verified event of another identity if and only if
      that one has the later place. In another block the new origin is settled; in the
      same block the two are rivals until one batch verifies both. */
  ghost predicate KeepsChainOrder(was: Order, e: Event, p: Position, o: Order) {
    if ComesAfter(e.raw.block, p, was.candidate) then
      && o.candidate.origin == e.raw && o.candidate.lastNumber == e.raw.block && o.candidate.last == p
      && (o.candidate.closed <==> e.raw.kind == Liquidate || (e.raw.kind == Return && e.raw.amount == Some(0)))
      && (o.candidate.verified <==> e.raw.block != was.candidate.origin.block)
      && (o.candidate.ambiguous <==> e.raw.block == was.candidate.origin.block)
      && (e.raw.block == was.candidate.origin.block ==> was.candidate.origin in o.conflicts || was.conflicts != [])
      && o.candidate.lifecycle == (
          if e.raw.kind == Rent && (was.candidate.closed || was.candidate.lifecycle.None?) then Some(e.raw)
          else was.candidate.lifecycle)
    else o == was.(firstSeen := o.firstSeen)
  }

  lemma LaterEventIsTaken(was: Order, e: Event, p: Position, now: nat)
    requires was.candidate.verified
    requires e.raw.tx != was.candidate.origin.tx || e.raw.index != was.candidate.origin.index
    ensures KeepsChainOrder(was, e, p, ApplyOrder(Some(was), e, Some(p), now))
  {
  }

  ghost predicate StaysInOrder(was: Option<Order>, e: Event, verified: Option<Position>, o: Order) {
    && was.Some? && was.value.candidate.verified && verified.Some?
    && (e.raw.tx != was.value.candidate.origin.tx || e.raw.index != was.value.candidate.origin.index) ==>
      KeepsChainOrder(was.value, e, verified.value, o)
  }

  lemma AppliedInOrder(was: Option<Order>, e: Event, verified: Option<Position>, now: nat)
    ensures StaysInOrder(was, e, verified, ApplyOrder(was, e, verified, now))
  {
    hide KeepsChainOrder, ApplyOrder;
    if was.Some? && was.value.candidate.verified && verified.Some?
      && (e.raw.tx != was.value.candidate.origin.tx || e.raw.index != was.value.candidate.origin.index)
    {
      LaterEventIsTaken(was.value, e, verified.value, now);
    }
  }

  /** The checks follow the origin: a new one starts a new generation, verified at once. */
  lemma LaterEventIsChecked(was: Order, check: Option<Check>, e: Event, p: Position, now: nat)
    requires was.candidate.verified && !e.raw.SameEvent(was.candidate.origin)
    requires check.Some? ==> check.value.generation == was.candidate.origin
    ensures var c := ApplyCheck(Some(was), check, e, Some(p), now);
      if ComesAfter(e.raw.block, p, was.candidate) then
        && c.Some? && c.value.generation == e.raw && c.value.verified && c.value.attempts == 0
        && c.value.lastAttempt == (if check.Some? then check.value.lastAttempt else 0)
      else if c.Some? && check.Some? then c.value == check.value.(fairSince := c.value.fairSince)
      else c.Some? ==> c.value.generation == was.candidate.origin && c.value.verified && c.value.attempts == 0
  {
  }

  /** One identity is one event at one place. */
  ghost predicate AreReceipts(vs: seq<Verified>) {
    forall v, w | v in vs && w in vs && v.event.raw.tx == w.event.raw.tx && v.event.raw.index == w.event.raw.index ::
      v.event.raw == w.event.raw && v.place == w.place
  }

  ghost function RunVerified(vs: seq<Verified>, now: nat): Option<Order> {
    if vs == [] then None
    else
      var v := vs[|vs| - 1];
      Some(ApplyOrder(RunVerified(vs[..|vs| - 1], now), v.event, Some(v.place), now))
  }

  ghost function FirstOfNewest(vs: seq<Verified>): Verified
    requires vs != []
  {
    var front, v := vs[..|vs| - 1], vs[|vs| - 1];
    if front == [] || v.event.raw.block > FirstOfNewest(front).event.raw.block then v else FirstOfNewest(front)
  }

  /** The first to arrive of the events of the newest block. */
  lemma {:induction false} FirstIsFirst(vs: seq<Verified>) returns (i: nat)
    requires vs != []
    ensures i < |vs| && vs[i] == FirstOfNewest(vs)
    ensures forall j :: 0 <= j < i ==> vs[j].event.raw.block < vs[i].event.raw.block
    ensures forall j :: 0 <= j < |vs| ==> vs[j].event.raw.block <= vs[i].event.raw.block
  {
    var front, v := vs[..|vs| - 1], vs[|vs| - 1];
    assert vs == front + [v];
    if front == [] {
      i := 0;
    } else {
      i := FirstIsFirst(front);
      if v.event.raw.block > FirstOfNewest(front).event.raw.block {
        i := |front|;
      }
    }
  }

  /** No event of the run comes after it in the order of the chain. */
  ghost predicate IsLast(vs: seq<Verified>, v: Verified) { forall w :: w in vs ==> !IsLater(w, v) }

  ghost predicate IsOrigin(o: Order, v: Verified) {
    o.candidate.origin == v.event.raw && o.candidate.last == v.place
  }

  /** What is known after verified events alone: the origin is one of the newest block, at its
      own place. It counts as verified if and only if the first one of that block to arrive is
      the last one in the order of the chain, and then it is that one. */
  ghost predicate IsVerifiedRun(o: Order, vs: seq<Verified>)
    requires vs != []
  {
    var f := FirstOfNewest(vs);
    && (exists v :: v in vs && IsOrigin(o, v))
    && o.candidate.lastNumber == o.candidate.origin.block == f.event.raw.block
    && (o.candidate.verified <==> IsLast(vs, f))
    && (o.candidate.verified ==> IsOrigin(o, f))
    && (o.candidate.verified <==> o.conflicts == [])
    && (o.candidate.closed <==> o.candidate.origin.IsClosing())
  }

  lemma FirstVerified(v: Verified, now: nat)
    ensures IsVerifiedRun(ApplyOrder(None, v.event, Some(v.place), now), [v])
  {
    var o := ApplyOrder(None, v.event, Some(v.place), now);
    assert o.candidate.origin == v.event.raw && o.candidate.verified && o.conflicts == [];
    assert o.candidate.lastNumber == v.event.raw.block && o.candidate.last == v.place;
    assert o.candidate.closed == v.event.raw.IsClosing();
    hide ApplyOrder;
    assert FirstOfNewest([v]) == v && v in [v] && IsOrigin(o, v);
    assert IsLast([v], v);
  }

  /** One more verified event, as far as a run of them is concerned. */
  ghost predicate IsVerifiedStep(o: Order, v: Verified, next: Order) {
    var r := v.event.raw;
    if r.SameEvent(o.candidate.origin) then
      && IsTakenUp(v, next)
      && (r.block == o.candidate.origin.block ==>
          (next.candidate.verified <==> o.conflicts == []) && (next.conflicts == [] <==> o.conflicts == []))
    else if r.block < o.candidate.origin.block then next.candidate == o.candidate && next.conflicts == o.conflicts
    else if r.block > o.candidate.origin.block then
      IsTakenUp(v, next) && next.candidate.verified && next.conflicts == []
    else if o.candidate.verified && !ComesAfter(r.block, v.place, o.candidate) then
      next.candidate == o.candidate && next.conflicts == o.conflicts
    else
      && !next.candidate.verified && next.conflicts != []
      && (IsTakenUp(v, next) || (!o.candidate.verified && next.candidate == o.candidate.(ambiguous := true)))
  }

  ghost predicate IsTakenUp(v: Verified, next: Order) {
    && IsOrigin(next, v) && next.candidate.lastNumber == v.event.raw.block
    && (next.candidate.closed <==> v.event.raw.IsClosing())
  }

  lemma StepIsVerified(o: Order, v: Verified, now: nat)
    ensures IsVerifiedStep(o, v, ApplyOrder(Some(o), v.event, Some(v.place), now))
  {
    RivalsRemain(AppendConflict(o.conflicts, o.candidate.origin), v.event.raw);
    hide TextLess, Text, AppendConflict;
  }

  lemma RivalsRemain(rows: seq<Raw>, r: Raw)
    ensures AppendConflict(rows, r) != []
  {
  }

  lemma VerifiedStep(o: Order, front: seq<Verified>, v: Verified, next: Order)
    requires front != [] && AreReceipts(front + [v]) && IsVerifiedRun(o, front) && IsVerifiedStep(o, v, next)
    ensures IsVerifiedRun(next, front + [v])
  {
    var vs, f := front + [v], FirstOfNewest(front);
    var i := FirstIsFirst(front);
    assert vs[..|vs| - 1] == front && vs[|vs| - 1] == v;
    var x :| x in front && IsOrigin(o, x);
    assert v in vs && x in vs && f in vs;
    assert IsOrigin(next, v) || IsOrigin(next, x);
    LastOf(front, v);
    assert FirstOfNewest(vs) == if v.event.raw.block > f.event.raw.block then v else f;
    hide FirstOfNewest;
    if v.event.raw.block > f.event.raw.block {
      assert forall w :: w in front ==> !IsLater(w, v);
    }
  }

  lemma LastOf(front: seq<Verified>, v: Verified)
    ensures forall f :: IsLast(front + [v], f) <==> IsLast(front, f) && !IsLater(v, f)
  {
    forall w ensures w in front + [v] <==> w in front || w == v {
    }
  }

  lemma FewerReceipts(vs: seq<Verified>, n: nat)
    requires n <= |vs| && AreReceipts(vs)
    ensures AreReceipts(vs[..n])
  {
  }

  lemma {:induction false} RunKeepsChainOrder(vs: seq<Verified>, now: nat)
    requires vs != [] && AreReceipts(vs)
    ensures RunVerified(vs, now).Some? && IsVerifiedRun(RunVerified(vs, now).value, vs)
  {
    var front, v := vs[..|vs| - 1], vs[|vs| - 1];
    assert vs == front + [v];
    hide ApplyOrder, IsVerifiedRun, IsVerifiedStep, AreReceipts;
    if front == [] {
      FirstVerified(v, now);
    } else {
      FewerReceipts(vs, |front|);
      RunKeepsChainOrder(front, now);
      StepIsVerified(RunVerified(front, now).value, v, now);
      VerifiedStep(RunVerified(front, now).value, front, v, RunVerified(vs, now).value);
    }
  }

  /** So no origin that still counts as verified is before one that did. */
  lemma VerifiedNeverGoesBack(vs: seq<Verified>, n: nat, now: nat)
    requires 0 < n <= |vs| && AreReceipts(vs)
    ensures RunVerified(vs[..n], now).Some? && RunVerified(vs, now).Some?
    ensures var was, o := RunVerified(vs[..n], now).value.candidate, RunVerified(vs, now).value.candidate;
      && was.origin.block <= o.origin.block
      && (was.verified && o.verified && was.origin.block == o.origin.block ==>
          was.origin == o.origin && was.last == o.last)
  {
    FewerReceipts(vs, n);
    RunKeepsChainOrder(vs[..n], now);
    RunKeepsChainOrder(vs, now);
    FirstIsKept(vs, n);
    hide ApplyOrder, RunVerified, FirstOfNewest, AreReceipts;
  }

  lemma FirstIsKept(vs: seq<Verified>, n: nat)
    requires 0 < n <= |vs|
    ensures var was, f := FirstOfNewest(vs[..n]), FirstOfNewest(vs);
      was.event.raw.block < f.event.raw.block || was == f
  {
    if n < |vs| {
      var front := vs[..|vs| - 1];
      assert front[..n] == vs[..n];
      FirstIsKept(front, n);
    } else {
      assert vs[..n] == vs;
    }
  }

  // ---------------------------------------------------------------- resolving

  /** The first verified event of a batch with the identity of `r`. */
  ghost predicate IsFound(vs: seq<Verified>, r: Raw, v: Verified) {
    exists i ::
      && 0 <= i < |vs| && vs[i] == v && v.event.raw.SameEvent(r)
      && forall j :: 0 <= j < i ==> !vs[j].event.raw.SameEvent(r)
  }

  /** The latest of the events found for some conflicts. */
  ghost predicate IsLatest(conflicts: seq<Raw>, vs: seq<Verified>, v: Verified) {
    && (exists r :: r in conflicts && IsFound(vs, r, v))
    && (forall r, w :: r in conflicts && IsFound(vs, r, w) ==> !IsLater(w, v))
  }

  method Find(vs: seq<Verified>, r: Raw) returns (found: Option<Verified>)
    ensures found.None? ==> forall v :: !IsFound(vs, r, v)
    ensures found.Some? ==> forall v :: IsFound(vs, r, v) <==> v == found.value
  {
    for i := 0 to |vs|
      invariant forall j :: 0 <= j < i ==> !vs[j].event.raw.SameEvent(r)
    {
      if vs[i].event.raw.SameEvent(r) {
        assert IsFound(vs, r, vs[i]);
        return Some(vs[i]);
      }
    }
    found := None;
  }

  /** Looks every conflict up among the verified events of one batch. */
  method Newest(conflicts: seq<Raw>, vs: seq<Verified>) returns (newest: Option<Verified>)
    requires conflicts != []
    ensures newest.None? <==> exists r :: r in conflicts && forall v :: !IsFound(vs, r, v)
    ensures newest.Some? ==> IsLatest(conflicts, vs, newest.value)
  {
    newest := None;
    for i := 0 to |conflicts|
      invariant i == 0 <==> newest.None?
      invariant newest.Some? ==> IsLatest(conflicts[..i], vs, newest.value)
      invariant forall r :: r in conflicts[..i] ==> exists v :: IsFound(vs, r, v)
    {
      var r := conflicts[i];
      var found := Find(vs, r);
      if found.None? {
        assert r in conflicts;
        return None;
      }
      assert IsFound(vs, r, found.value);
      assert conflicts[..i + 1] == conflicts[..i] + [r];
      if newest.None? || IsLater(found.value, newest.value) {
        newest := found;
      }
      assert r in conflicts[..i + 1];
    }
    assert conflicts[..|conflicts|] == conflicts;
  }

  /** There are rivals, and the batch verifies each of them. */
  ghost predicate AreVerified(conflicts: seq<Raw>, vs: seq<Verified>) {
    conflicts != [] && forall r :: r in conflicts ==> exists v :: IsFound(vs, r, v)
  }

  /** Same-block uncertainty ends only when one batch verifies every rival: then
      the receipts' positions, never the texts, decide which one is the newest. */
  method ResolveConflicts(w: Work, key: Key, vs: seq<Verified>, now: nat)
    modifies w
    ensures !(key in old(w.orders) && AreVerified(old(w.orders)[key].conflicts, vs)) ==>
      w.orders == old(w.orders) && w.checks == old(w.checks)
    ensures key in old(w.orders) && AreVerified(old(w.orders)[key].conflicts, vs) ==>
      && key in w.orders
      && exists v :: IsLatest(old(w.orders)[key].conflicts, vs, v) && IsSettled(w.orders[key], w.CheckAt(key), v)
  {
    if key !in w.orders || w.orders[key].conflicts == [] {
      return;
    }
    var o := w.orders[key];
    var newest := Newest(o.conflicts, vs);
    if newest.None? {
      return;
    }
    var v := newest.value;
    o := o.(conflicts := [], candidate := o.candidate.(ambiguous := false, verified := false, origin := v.event.raw));
    w.orders := w.orders[key := o];
    SettledBy(o, w.CheckAt(key), v, now);
    w.ApplyRaw(key, v.event, Some(v.place), now);
  }

  ghost predicate IsSettled(o: Order, check: Option<Check>, v: Verified) {
    && o.candidate.origin == v.event.raw && o.candidate.verified && !o.candidate.ambiguous && o.conflicts == []
    && o.candidate.last == v.place && o.candidate.lastNumber == v.event.raw.block && !o.closurePending
    && check.Some? && check.value.verified && check.value.generation == v.event.raw
  }

  lemma SettledBy(o: Order, check: Option<Check>, v: Verified, now: nat)
    requires o.conflicts == [] && !o.candidate.verified && o.candidate.origin == v.event.raw
    ensures IsSettled(ApplyOrder(Some(o), v.event, Some(v.place), now),
                      ApplyCheck(Some(o), check, v.event, Some(v.place), now), v)
  {
  }
}
