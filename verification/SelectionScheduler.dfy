// The scheduler that fills the selection rounds, one slot at a time, over whole runs.

module SelectionScheduler {
  import opened Options
  import opened SelectionFairness
  import opened SelectionRounds

  // ----------------------------------------------------- waiting times over a run

  ghost function FairOf(checks: map<Key, Check>): map<Key, int> { map k | k in checks :: checks[k].fairSince }

  /** The checks go on where the admissions left them. */
  ghost predicate IsTracked(turns: seq<Turn>, checks: map<Key, Check>, clock: int) {
    && clock > 0 && IsHistory(turns) && IsWaiting(FairOf(checks), clock)
    && (turns != [] ==>
        turns[|turns| - 1].now <= clock && IsDrift(AfterTurn(turns[|turns| - 1]), FairOf(checks), Taken(turns)))
    && (forall k :: k in Taken(turns) ==> k in checks && checks[k].lastAttempt > 0)
  }

  lemma TrackedInTime(turns: seq<Turn>, checks: map<Key, Check>, clock: int, now: int)
    requires IsTracked(turns, checks, clock) && clock <= now
    ensures IsTracked(turns, checks, now)
  {
    hide IsHistory;
  }

  /** Nothing was heard of any order since the turn `from`. */
  ghost predicate IsUndisturbed(turns: seq<Turn>, from: nat, checks: map<Key, Check>) {
    && IsQuiet(turns, from, |turns|)
    && (from < |turns| ==> FairOf(checks) == AfterTurn(turns[|turns| - 1]))
  }

  lemma UndisturbedTurn(turns: seq<Turn>, from: nat, checks: map<Key, Check>, t: Turn, after: map<Key, Check>)
    requires IsUndisturbed(turns, from, checks) && t.fair == FairOf(checks) && FairOf(after) == AfterTurn(t)
    ensures IsUndisturbed(turns + [t], from, after)
  {
  }

  lemma UndisturbedTheSame(turns: seq<Turn>, from: nat, before: map<Key, Check>, after: map<Key, Check>)
    requires IsUndisturbed(turns, from, before) && FairOf(after) == FairOf(before)
    ensures IsUndisturbed(turns, from, after)
  {
  }

  lemma UndisturbedNow(turns: seq<Turn>, checks: map<Key, Check>)
    ensures IsUndisturbed(turns, |turns|, checks)
  {
  }

  /** Whatever else is noted of an order. */
  ghost predicate SameWaits(before: map<Key, Check>, after: map<Key, Check>) {
    before.Keys == after.Keys
    && forall k :: k in before ==>
        before[k].fairSince == after[k].fairSince && before[k].lastAttempt == after[k].lastAttempt
  }

  lemma TrackedTheSame(turns: seq<Turn>, before: map<Key, Check>, after: map<Key, Check>, clock: int)
    requires IsTracked(turns, before, clock) && SameWaits(before, after)
    ensures IsTracked(turns, after, clock) && FairOf(after) == FairOf(before)
  {
    assert FairOf(after) == FairOf(before);
    hide IsHistory;
  }

  function Attempted(e: Check, now: int): Check { e.(lastAttempt := now, fairSince := now) }

  lemma TrackedTurn(turns: seq<Turn>, checks: map<Key, Check>, t: Turn)
    requires IsTracked(turns, checks, t.now) && IsTurn(t) && t.fair == FairOf(checks) && t.key in checks
    requires turns != [] ==> turns[|turns| - 1].now < t.now
    ensures IsTracked(turns + [t], checks[t.key := Attempted(checks[t.key], t.now)], t.now)
    ensures FairOf(checks[t.key := Attempted(checks[t.key], t.now)]) == AfterTurn(t)
  {
    var more, after := turns + [t], checks[t.key := Attempted(checks[t.key], t.now)];
    assert FairOf(after) == AfterTurn(t);
    forall i | 0 < i < |more| ensures IsNext(more, i) {
      assert more[..i] == turns[..i];
      if i < |turns| {
        assert IsNext(turns, i);
      } else {
        assert turns[..i] == turns;
      }
    }
    forall k | k in Taken(more) ensures k in after && after[k].lastAttempt > 0 {
      assert k in Taken(turns) || k == t.key;
    }
  }

  /** The waiting time of an order that was never taken may be put forward; that of a new
      order starts. */
  ghost predicate IsHeard(before: map<Key, Check>, after: map<Key, Check>, key: Key, now: int) {
    && key in after && after.Keys == before.Keys + {key} && 0 < after[key].fairSince <= now
    && (forall k :: k in before && k != key ==> after[k] == before[k])
    && (key in before ==>
        && after[key].lastAttempt == before[key].lastAttempt && after[key].fairSince <= before[key].fairSince
        && (before[key].lastAttempt != 0 ==> after[key].fairSince == before[key].fairSince))
  }

  lemma TrackedHeard(turns: seq<Turn>, before: map<Key, Check>, after: map<Key, Check>, key: Key, now: int)
    requires IsTracked(turns, before, now) && IsHeard(before, after, key, now)
    ensures IsTracked(turns, after, now)
  {
    if turns != [] {
      DriftsOn(AfterTurn(turns[|turns| - 1]), Taken(turns), before, after, key, now);
    }
    hide IsHistory, IsDrift, Taken, AfterTurn;
    forall k | k in FairOf(after) ensures 0 < FairOf(after)[k] <= now {
      assert k != key ==> FairOf(before)[k] == FairOf(after)[k];
    }
  }

  lemma DriftsOn(from: map<Key, int>, taken: set<Key>, before: map<Key, Check>, after: map<Key, Check>, key: Key,
                 now: int)
    requires IsDrift(from, FairOf(before), taken) && IsHeard(before, after, key, now)
    requires forall k :: k in taken ==> k in before && before[k].lastAttempt > 0
    ensures IsDrift(from, FairOf(after), taken)
  {
    forall k | k in from
      ensures k in FairOf(after) && FairOf(after)[k] <= from[k] && (k in taken ==> FairOf(after)[k] == from[k])
    {
      assert FairOf(before)[k] == before[k].fairSince && FairOf(after)[k] == after[k].fairSince;
    }
  }

  // ---------------------------------------------------------------- the scheduler

  /** What the scheduler finds around it: whether nothing else is running, the sources are
      current, the daily budget lasts, and the rate is one of the running implementation. */
  datatype Gate = Gate(idle: bool, current: bool, budget: bool, sound: bool)

  function Known(rate: Option<Rate>, sound: bool): Option<Rate> { if sound then rate else None }

  ghost function EligibleOf(orders: map<Key, Order>, checks: map<Key, Check>, selected: set<Key>, now: int): set<Key> {
    set k | k in orders && k in checks && k !in selected && IsEligible(orders[k], checks[k], now)
  }

  function Selected(r: Option<Round>): set<Key> { if r.Some? then set k | k in r.value.selected else {} }

  ghost function TurnOf(orders: map<Key, Order>, checks: map<Key, Check>, selected: set<Key>, c: Choice, now: int): Turn
  {
    Turn(FairOf(checks), EligibleOf(orders, checks, selected, now), c.lane, c.key, now)
  }

  lemma ChoiceIsATurn(c: Choice, lane: Lane, orders: map<Key, Order>, checks: map<Key, Check>, selected: set<Key>,
                      now: int, rate: Option<Rate>)
    requires orders.Keys == checks.Keys && IsWaiting(FairOf(checks), now)
    requires IsChoice(Some(c), lane, orders, checks, orders.Keys, selected, now, rate)
    ensures IsTurn(TurnOf(orders, checks, selected, c, now)) && c.lane == lane && c.key in orders && c.key !in selected
  {
    var t := TurnOf(orders, checks, selected, c, now);
    forall k | lane == Explore && k in t.eligible && k != c.key ensures WaitsBefore(t.fair, c.key, k) {
      var d := Offer(lane, k, orders[k], checks[k], now, rate).value;
      assert IsOffered(d, lane, orders, checks, selected, now, rate);
    }
  }

  /** Nobody is eligible for exploration when neither lane has an offer. */
  lemma NoOfferMeansNobody(orders: map<Key, Order>, checks: map<Key, Check>, selected: set<Key>, now: int,
                           rate: Option<Rate>)
    requires IsChoice(None, Explore, orders, checks, orders.Keys, selected, now, rate)
    ensures EligibleOf(orders, checks, selected, now) == {}
  {
    forall k | k in EligibleOf(orders, checks, selected, now) ensures false {
      assert IsOffered(Offer(Explore, k, orders[k], checks[k], now, rate).value, Explore, orders, checks, selected, now,
                       rate);
    }
  }

  function Other(lane: Lane): Lane { if lane == Explore then Focus else Explore }

  predicate IsOwn(choice: Option<Choice>, lane: Lane) { choice.Some? && choice.value.lane == lane }

  /** The best offer of the lane or, if it has none, of the other lane. */
  ghost predicate IsPicked(choice: Option<Choice>, lane: Lane, orders: map<Key, Order>, checks: map<Key, Check>,
                           selected: set<Key>, now: int, rate: Option<Rate>)
  {
    if IsOwn(choice, lane) then IsChoice(choice, lane, orders, checks, orders.Keys, selected, now, rate)
    else
      && IsChoice(None, lane, orders, checks, orders.Keys, selected, now, rate)
      && IsChoice(choice, Other(lane), orders, checks, orders.Keys, selected, now, rate)
  }

  lemma Offered(choice: Option<Choice>, lane: Lane, orders: map<Key, Order>, checks: map<Key, Check>, among: set<Key>,
                selected: set<Key>, now: int, rate: Option<Rate>)
    requires IsChoice(choice, lane, orders, checks, among, selected, now, rate)
    ensures choice.Some? ==> choice.value.lane == lane
  {
  }

  /** What is picked is a fair turn, and nobody is eligible if nothing is picked. */
  lemma PickIsATurn(choice: Option<Choice>, lane: Lane, orders: map<Key, Order>, checks: map<Key, Check>,
                    selected: set<Key>, now: int, rate: Option<Rate>)
    requires orders.Keys == checks.Keys && IsWaiting(FairOf(checks), now)
    requires IsPicked(choice, lane, orders, checks, selected, now, rate)
    ensures choice.Some? ==>
      IsTurn(TurnOf(orders, checks, selected, choice.value, now)) && choice.value.key in orders
          && choice.value.key !in selected
    ensures choice.None? ==> EligibleOf(orders, checks, selected, now) == {}
  {
    hide IsChoice, EligibleOf, IsWaiting, IsTurn;
    if choice.Some? {
      ChoiceIsATurn(choice.value, if IsOwn(choice, lane) then lane else Other(lane), orders, checks, selected, now,
                    rate);
    } else {
      NoOfferMeansNobody(orders, checks, selected, now, rate);
    }
  }

  /** The round in which the slot is given: the running one or a new one. */
  lemma RoundStarts(round: Option<Round>, r: Round, now: int)
    requires round.Some? ==> IsRound(round.value, now)
    requires r == if round.Some? then round.value else Round(now, 0, [], [], None, false, "")
    ensures IsRound(r, now)
  {
  }

  /** An unverified or unclear order is seeded before its state is read. */
  function Started(o: Order, e: Check, now: int): Check {
    if !e.verified || o.ambiguous || o.closurePending then e.(attempts := e.attempts + 1, nextSeed := now + 30 * MINUTE)
    else e
  }

  // ------------------------------------------------------------- ends of operations

  /** A state that was read under the verified implementation. `certified`: besides, a
      reward was simulated. */
  datatype Reading = Reading(deposit: Option<int>, liquidatable: bool, observedAt: int, certified: bool)

  datatype Result = Seeded(failed: bool) | Read(reading: Option<Reading>)

  function FailureDelay(failures: nat): int {
    if failures <= 1 then 5 * MINUTE else if failures == 2 then 10 * MINUTE else if failures == 3 then 20 * MINUTE
    else 30 * MINUTE
  }

  predicate IsSoonDue(p: Option<Pressure>) { p.Some? && p.value.numerator <= p.value.denominator * 1800 }

  /** The check after its order's state was read, or was not. The count of failures is a
      byte. */
  function AfterRead(o: Order, e: Check, reading: Option<Reading>, now: int, rate: Option<Rate>): Check {
    var failures := (e.failures + 1) % 256;
    var missed := e.(latest := "unknown", failures := failures, nextCheck := now + FailureDelay(failures));
    match reading
    case None => missed
    case Some(r) =>
      var seen := missed.(latest := "ok", deposit := r.deposit, liquidatable := Some(r.liquidatable),
                          observedAt := r.observedAt);
      if !r.liquidatable then
        seen.(failures := 0,
              nextCheck := now + if IsSoonDue(PressureFor(o, seen, now, rate)) then 5 * MINUTE else 30 * MINUTE)
      else if r.certified then seen.(failures := 0, nextCheck := now + MINUTE)
      else seen.(latest := "simulation_unconfirmed")
  }

  /** Does the slot's order stand as it was when the slot was given? */
  predicate StillStands(orders: map<Key, Order>, m: Member) {
    m.key in orders && orders[m.key].generation == m.generation && !orders[m.key].closed
  }

  predicate IsClear(o: Order) { !o.ambiguous && !o.closurePending }

  predicate SeedIsGood(o: Order, result: Result) { result.Seeded? && !result.failed && o.verified && IsClear(o) }

  function AfterResult(o: Order, e: Check, result: Result, now: int, rate: Option<Rate>): Check {
    match result
    case Seeded(_) =>
      if SeedIsGood(o, result) then e.(verified := true)
      else e.(latest := "seed_failed", nextCheck := now + 30 * MINUTE)
    case Read(reading) => AfterRead(o, e, reading, now, rate)
  }

  /** A slot that has ended leaves its order out for a minute at least, and no operation for
      more than half an hour. */
  lemma RestsAWhile(o: Order, e: Check, result: Result, now: int, rate: Option<Rate>)
    ensures SeedIsGood(o, result) || now + MINUTE <= AfterResult(o, e, result, now, rate).nextCheck <= now + 30 * MINUTE
    ensures AfterResult(o, e, result, now, rate).fairSince == e.fairSince
    ensures AfterResult(o, e, result, now, rate).lastAttempt == e.lastAttempt
  {
    hide PressureFor;
  }

  const UNKNOWN := Check(false, 0, 0, 0, 0, 0, 0, "", None, None, 0)

  /** An order that was never tried has waited since it was first heard of. */
  function Forward(e: Check, available: int): Check {
    if e.lastAttempt == 0 && (e.fairSince == 0 || available < e.fairSince) then e.(fairSince := available) else e
  }

  /** Another generation of an order begins afresh, but does not lose its place. */
  function ForGeneration(e: Check, same: bool): Check {
    if same then e else UNKNOWN.(fairSince := e.fairSince, lastAttempt := e.lastAttempt)
  }

  /** A slot's operation is running. */
  predicate IsBusy(round: Option<Round>) { round.Some? && round.value.active.Some? && !round.value.continuing }

  ghost predicate IsRunning(round: Option<Round>, clock: int) {
    round.Some? ==> IsRound(round.value, clock) && round.value.slots > 0
  }

  ghost predicate AreValid(batches: seq<Batch>) { forall b :: b in batches ==> IsValidBatch(b) }

  /** Until the next check, if no slot is at work, time has passed since the last admission. */
  ghost predicate IsPaced(turns: seq<Turn>, round: Option<Round>, nextCheck: int) {
    turns != [] && !IsBusy(round) ==> turns[|turns| - 1].now < nextCheck
  }

  function NextLane(round: Option<Round>): Lane { LaneOf(if round.Some? then round.value.slots + 1 else 1) }

  /** The slot was given to the choice, whose wait starts again; no other wait moved. */
  ghost predicate IsGiven(c: Choice, orders: map<Key, Order>, wasChecks: map<Key, Check>, wasRound: Option<Round>,
                          wasTurns: seq<Turn>, now: int, checks: map<Key, Check>, round: Option<Round>,
                          turns: seq<Turn>)
  {
    && c.key in orders && c.key in wasChecks && c.key !in Selected(wasRound)
    && turns == wasTurns + [TurnOf(orders, wasChecks, Selected(wasRound), c, now)]
    && checks == wasChecks[c.key := Started(orders[c.key], Attempted(wasChecks[c.key], now), now)]
    && round.Some? && round.value.active.Some? && !round.value.continuing
    && round.value.active.value.key == c.key && round.value.active.value.actual == c.lane
    && round.value.active.value.generation == orders[c.key].generation
    && round.value.active.value.selectedAt == now && round.value.active.value.requested == NextLane(wasRound)
    && round.value.slots == round.value.active.value.slot == (if wasRound.Some? then wasRound.value.slots + 1 else 1)
    && round.value.members == (if wasRound.Some? then wasRound.value.members else [])
    && round.value.started == (if wasRound.Some? then wasRound.value.started else now)
    && round.value.selected == (if wasRound.Some? then wasRound.value.selected else []) + [c.key]
  }

  lemma GivenKeepsSelected(c: Choice, orders: map<Key, Order>, wasChecks: map<Key, Check>, wasRound: Option<Round>,
                           wasTurns: seq<Turn>, now: int, checks: map<Key, Check>, round: Option<Round>,
                           turns: seq<Turn>,
                           batches: seq<Batch>)
    requires IsGiven(c, orders, wasChecks, wasRound, wasTurns, now, checks, round, turns)
    ensures IsPublished(wasRound, batches, round, batches)
  {
  }

  lemma OneMoreTurn(c: Choice, orders: map<Key, Order>, wasChecks: map<Key, Check>, wasRound: Option<Round>,
                    wasTurns: seq<Turn>, now: int, checks: map<Key, Check>, round: Option<Round>, turns: seq<Turn>)
    requires IsGiven(c, orders, wasChecks, wasRound, wasTurns, now, checks, round, turns)
    ensures |turns| == |wasTurns| + 1
  {
  }

  /** Either nothing is published and no given slot is lost, or the round is published with
      every slot given. */
  ghost predicate IsPublished(wasRound: Option<Round>, wasBatches: seq<Batch>, round: Option<Round>,
                              batches: seq<Batch>)
  {
    if batches == wasBatches then wasRound.Some? ==> round.Some? && wasRound.value.selected <= round.value.selected
    else
      && wasRound.Some? && round.None? && |batches| == |wasBatches| + 1 && batches[..|wasBatches|] == wasBatches
      && KeysOf(batches[|wasBatches|].members) == wasRound.value.selected
  }

  /** The checks of one order before and after an event. */
  ghost predicate IsHeardOne(before: Option<Check>, e: Check, now: int) {
    && 0 < e.fairSince <= now
    && (before.Some? ==>
        && e.lastAttempt == before.value.lastAttempt && e.fairSince <= before.value.fairSince
        && (e.lastAttempt != 0 ==> e.fairSince == before.value.fairSince))
  }

  lemma IsHeardAt(before: map<Key, Check>, key: Key, e: Check, now: int)
    requires IsHeardOne(if key in before then Some(before[key]) else None, e, now)
    ensures IsHeard(before, before[key := e], key, now)
  {
  }

  lemma ForwardIsHeard(before: Check, available: int, now: int)
    requires 0 < before.fairSince <= now && 0 < available <= now
    ensures IsHeardOne(Some(before), Forward(before, available), now)
  {
  }

  lemma MergedIsHeard(before: Option<Check>, e: Check, same: bool, verified: bool, first: int, now: int)
    requires if before.Some? then IsHeardOne(before, e, now) else e == UNKNOWN
    requires before.None? ==> 0 < first <= now
    ensures IsHeardOne(before, Merged(e, same, verified, first), now)
    ensures Merged(e, same, verified, first).verified == verified
  {
  }

  function Merged(e: Check, same: bool, verified: bool, first: int): Check {
    var f := ForGeneration(e, same);
    f.(verified := verified, fairSince := if f.fairSince == 0 then first else f.fairSince)
  }

  /** What is known after an event: the order was seen no later than the event; another
      generation begins with nothing but its place in the queue, and only an order that was
      never tried can be put forward. */
  ghost predicate IsNoted(wasOrder: Option<Order>, was: Option<Check>, merged: Option<Order>, available: int, now: int,
                          o: Order, e: Check)
  {
    var sooner := wasOrder.Some? && available != 0
      && (wasOrder.value.firstSeen == 0 || available < wasOrder.value.firstSeen);
    && (sooner ==> o.firstSeen == available)
    && (!sooner && wasOrder.Some? && wasOrder.value.firstSeen != 0 ==> o.firstSeen == wasOrder.value.firstSeen)
    && (merged.Some? && (wasOrder.None? || wasOrder.value.firstSeen == 0) ==>
        o.firstSeen == if available != 0 then available else now)
    && (merged.None? && was.Some? ==> e.verified == was.value.verified)
    && (merged.Some? ==> e.verified == merged.value.verified)
    && (was.None? ==> e.lastAttempt == 0 && e.fairSince == o.firstSeen)
    && (was.Some? ==>
        && e.lastAttempt == was.value.lastAttempt
        && e.fairSince == if sooner && was.value.lastAttempt == 0 && available < was.value.fairSince then available
          else was.value.fairSince)
    && if was.Some? && wasOrder.Some? && (merged.None? || wasOrder.value.generation == merged.value.generation) then
      e == was.value.(verified := e.verified, fairSince := e.fairSince)
    else
      && e.attempts == 0 && e.failures == 0 && e.nextSeed == 0 && e.nextCheck == 0 && e.latest == ""
      && e.liquidatable.None? && e.deposit.None? && e.observedAt == 0
  }

  lemma LearnedIsNoted(wasOrder: Option<Order>, was: Option<Check>, merged: Option<Order>, available: int, now: int,
                       o: Option<Order>, e: Check)
    requires (wasOrder.Some? <==> was.Some?) && (was.Some? ==> was.value.fairSince > 0) && 0 <= available
    requires var f := if was.Some? then was.value else UNKNOWN;
      if wasOrder.Some? && available != 0 && (wasOrder.value.firstSeen == 0 || available < wasOrder.value.firstSeen)
      then o == Some(wasOrder.value.(firstSeen := available)) && e == Forward(f, available)
      else o == wasOrder && e == f
    ensures merged.None? && wasOrder.Some? ==> IsNoted(wasOrder, was, merged, available, now, o.value, e)
    ensures merged.Some? ==>
      var first := if o.Some? && o.value.firstSeen != 0 then o.value.firstSeen else if available != 0 then available
        else now;
      var same := o.Some? && o.value.generation == merged.value.generation;
      first != 0 ==> IsNoted(wasOrder, was, merged, available, now, merged.value.(firstSeen := first),
                             Merged(e, same, merged.value.verified, first))
  {
  }

  lemma NothingHeard(was: Option<Check>, e: Check, now: int)
    requires was == Some(e) || (was.None? && e == UNKNOWN)
    requires was.Some? ==> 0 < e.fairSince <= now
    ensures was.Some? ==> IsHeardOne(was, e, now)
  {
  }

  lemma FairTimes(turns: seq<Turn>, checks: map<Key, Check>, clock: int)
    requires IsTracked(turns, checks, clock)
    ensures IsWaiting(FairOf(checks), clock)
    ensures clock > 0 && forall k :: k in checks ==> 0 < checks[k].fairSince <= clock
  {
    assert forall k :: k in checks ==> FairOf(checks)[k] == checks[k].fairSince;
  }

  lemma GivenRuns(round: Option<Round>, r: Round, m: Member, now: int)
    requires IsRunning(round, now) && (round.Some? ==> round.value.active.None? && round.value.slots < 50)
    requires r == if round.Some? then round.value else Round(now, 0, [], [], None, false, "")
    requires m.slot == (if round.Some? then round.value.slots + 1 else 1)
    requires m.requested == NextLane(round) && m.selectedAt == now
    requires m.key !in Selected(round)
    ensures IsRunning(Some(Given(r, m)), now) && Given(r, m).active == Some(m)
    ensures !Given(r, m).continuing && !r.continuing
    ensures Given(r, m).selected == r.selected + [m.key]
  {
    RoundStarts(round, r, now);
    assert m.key !in r.selected;
    GivenIsRound(r, m, now);
    hide IsRound;
  }

  lemma TurnShows(orders: map<Key, Order>, checks: map<Key, Check>, selected: set<Key>, c: Choice, now: int)
    ensures var t := TurnOf(orders, checks, selected, c, now);
      t.fair == FairOf(checks) && t.key == c.key && t.now == now && t.lane == c.lane
      && t.eligible == EligibleOf(orders, checks, selected, now)
  {
  }

  lemma Paced(turns: seq<Turn>, round: Option<Round>, nextCheck: int)
    requires IsPaced(turns, round, nextCheck) && (round.Some? ==> round.value.active.None?)
    ensures turns != [] ==> turns[|turns| - 1].now < nextCheck
  {
  }

  lemma BusyIsPaced(turns: seq<Turn>, r: Round, nextCheck: int)
    requires r.active.Some? && !r.continuing
    ensures IsPaced(turns, Some(r), nextCheck)
  {
  }

  lemma StartKeepsWaits(checks: map<Key, Check>, key: Key, o: Order, now: int)
    requires key in checks
    ensures SameWaits(checks, checks[key := Started(o, checks[key], now)])
  {
  }

  lemma GivenHolds(c: Choice, orders: map<Key, Order>, wasChecks: map<Key, Check>, wasRound: Option<Round>,
                   wasTurns: seq<Turn>,
                   now: int, checks: map<Key, Check>, r: Round, m: Member, turns: seq<Turn>)
    requires c.key in orders && c.key in wasChecks && c.key !in Selected(wasRound)
    requires turns == wasTurns + [TurnOf(orders, wasChecks, Selected(wasRound), c, now)]
    requires checks == wasChecks[c.key := Attempted(wasChecks[c.key], now)]
      [c.key := Started(orders[c.key], Attempted(wasChecks[c.key], now), now)]
    requires m.key == c.key && m.actual == c.lane && m.generation == orders[c.key].generation && !r.continuing
    requires m.selectedAt == now && m.requested == NextLane(wasRound)
    requires m.slot == if wasRound.Some? then wasRound.value.slots + 1 else 1
    requires r == if wasRound.Some? then wasRound.value else Round(now, 0, [], [], None, false, "")
    ensures IsGiven(c, orders, wasChecks, wasRound, wasTurns, now, checks, Some(Given(r, m)), turns)
  {
    hide TurnOf, Started, Attempted, Selected;
  }

  lemma LastTurn(turns: seq<Turn>, checks: map<Key, Check>, clock: int)
    requires IsTracked(turns, checks, clock)
    ensures turns != [] ==> turns[|turns| - 1].now <= clock < clock + 30 * SECOND
  {
  }

  function ReasonOf(r: Round): string {
    if r.closing != "" then r.closing else if r.slots < 50 then "round_timeout" else "round_limit"
  }

  lemma AReason(r: Round)
    ensures ReasonOf(r) != ""
  {
  }

  lemma NothingPublished(round: Option<Round>, batches: seq<Batch>)
    ensures IsPublished(round, batches, round, batches)
  {
  }

  /** A round whose slot is not at work is published, one whose slot is waits. */
  ghost predicate IsAbandoned(wasRound: Option<Round>, wasBatches: seq<Batch>, wasNext: int, reason: string, now: int,
                              round: Option<Round>, batches: seq<Batch>, nextRound: int)
  {
    if wasRound.None? || IsBusy(wasRound) then round == wasRound && batches == wasBatches && nextRound == wasNext
    else
      var r := wasRound.value;
      && round.None? && nextRound == now + 30 * SECOND
      && batches == wasBatches + [Closed(if r.active.Some? then Finished(r, reason) else r, now, reason)]
  }

  /** What the end of an operation leaves behind. */
  ghost predicate IsCompleted(orders: map<Key, Order>, was: map<Key, Check>, r: Round, result: Result, now: int,
                              rate: Option<Rate>, checks: map<Key, Check>, round: Option<Round>)
    requires r.active.Some? && orders.Keys == was.Keys
  {
    var m := r.active.value;
    if StillStands(orders, m) then
      var e := AfterResult(orders[m.key], was[m.key], result, now, rate);
      && checks == was[m.key := e]
      && round == Some(if SeedIsGood(orders[m.key], result) then r.(continuing := true) else Finished(r, e.latest))
    else checks == was && round == Some(Finished(r, "superseded_or_closed"))
  }

  lemma Completed(orders: map<Key, Order>, was: map<Key, Check>, r: Round, result: Result, now: int,
                  rate: Option<Rate>, checks: map<Key, Check>, round: Option<Round>)
    requires r.active.Some? && orders.Keys == was.Keys
    requires StillStands(orders, r.active.value) ==>
      r.active.value.key in orders &&
      var o := orders[r.active.value.key];
      var e := AfterResult(o, was[r.active.value.key], result, now, rate);
      && checks == was[r.active.value.key := e]
      && round == Some(if SeedIsGood(o, result) then r.(continuing := true) else Finished(r, e.latest))
    requires !StillStands(orders, r.active.value) ==>
      checks == was && round == Some(Finished(r, "superseded_or_closed"))
    ensures IsCompleted(orders, was, r, result, now, rate, checks, round)
  {
    hide AfterResult, SeedIsGood, Finished;
  }

  lemma BusyGives(round: Option<Round>, clock: int)
    requires IsBusy(round) && IsRunning(round, clock)
    ensures round.Some? && round.value.active.Some?
  {
  }

  lemma AnyPace(turns: seq<Turn>, nextCheck: int)
    requires turns != [] ==> turns[|turns| - 1].now < nextCheck
    ensures forall round :: IsPaced(turns, round, nextCheck)
  {
  }

  lemma AtKey(orders: map<Key, Order>, checks: map<Key, Check>, m: Member)
    requires StillStands(orders, m) && orders.Keys == checks.Keys
    ensures m.key in orders && m.key in checks
  {
  }

  lemma Continues(r: Round, clock: int)
    requires IsRunning(Some(r), clock) && r.active.Some?
    ensures IsRunning(Some(r.(continuing := true)), clock)
  {
  }

  lemma ResultKeepsWaits(o: Order, checks: map<Key, Check>, key: Key, result: Result, now: int, rate: Option<Rate>)
    requires key in checks
    ensures SameWaits(checks, checks[key := AfterResult(o, checks[key], result, now, rate)])
    ensures SeedIsGood(o, result) || AfterResult(o, checks[key], result, now, rate).latest != ""
  {
    RestsAWhile(o, checks[key], result, now, rate);
    hide PressureFor;
  }

  /** Nothing runs, nothing is to be waited for, the sources are current, the budget lasts, and
      the round, if there is one, has slots and time left. */
  ghost predicate IsItsTime(round: Option<Round>, inFlight: bool, nextCheck: int, nextRound: int, now: int,
                            gate: Gate)
  {
    && gate.idle && gate.current && gate.budget && !inFlight && nextCheck <= now && nextRound <= now
    && (round.Some? ==>
        && round.value.active.None? && round.value.closing == ""
        && !(round.value.slots >= 50) && now < round.value.started + 7200 * SECOND)
  }

  class Scheduler {
    var orders: map<Key, Order>
    var checks: map<Key, Check>
    var round: Option<Round>
    var rate: Option<Rate>
    var nextRate: int
    var nextRound: int
    var nextCheck: int
    var inFlight: bool
    var batches: seq<Batch>
    ghost var clock: int
    ghost var turns: seq<Turn>
    ghost var heard: nat

    /** The round in progress is sound, and so is all that was published. Before the next
        admission time has passed since the last one. */
    ghost predicate Valid()
      reads this
    {
      && orders.Keys == checks.Keys && IsRunning(round, clock) && AreValid(batches)
      && IsTracked(turns, checks, clock) && IsUndisturbed(turns, heard, checks) && IsPaced(turns, round, nextCheck)
    }

    lemma Parts()
      requires Valid()
      ensures orders.Keys == checks.Keys && IsRunning(round, clock) && AreValid(batches)
      ensures IsTracked(turns, checks, clock) && IsUndisturbed(turns, heard, checks) && IsPaced(turns, round, nextCheck)
    {
    }

    lemma Whole()
      requires orders.Keys == checks.Keys && IsRunning(round, clock) && AreValid(batches)
      requires IsTracked(turns, checks, clock) && IsUndisturbed(turns, heard, checks)
      requires IsPaced(turns, round, nextCheck)
      ensures Valid()
    {
    }

    /** A state as a checkpoint restores it, between two rounds. */
    constructor (orders: map<Key, Order>, checks: map<Key, Check>, nextRate: int, now: int)
      requires orders.Keys == checks.Keys && now > 0 && IsWaiting(FairOf(checks), now)
      ensures Valid() && this.orders == orders && this.checks == checks && round.None? && batches == []
      ensures turns == [] && heard == 0 && clock == now && !inFlight && rate.None?
      ensures nextCheck == nextRound == 0 && this.nextRate == nextRate
    {
      this.orders, this.checks, this.nextRate := orders, checks, nextRate;
      round, rate, nextRound, nextCheck, inFlight := None, None, 0, 0, false;
      batches, clock, turns, heard := [], now, [], 0;
    }

    ghost method Tick(now: int)
      requires Valid() && clock <= now
      modifies `clock
      ensures Valid() && clock == now
    {
      if round.Some? {
        RoundInTime(round.value, clock, now);
      }
      TrackedInTime(turns, checks, clock, now);
      hide IsRound, IsTracked, IsUndisturbed, IsValidBatch;
      clock := now;
    }

    /** Ends the active slot. */
    method Finish(outcome: string)
      requires Valid() && round.Some? && round.value.active.Some? && outcome != ""
      requires turns != [] ==> turns[|turns| - 1].now < nextCheck
      modifies `round
      ensures Valid() && round == Some(Finished(old(round).value, outcome))
    {
      FinishedIsRound(round.value, outcome, clock);
      hide IsRound, IsTracked, IsUndisturbed, IsValidBatch;
      round := Some(Finished(round.value, outcome));
    }

    /** Publishes the round and starts none. */
    method Close(now: int, reason: string)
      requires Valid() && round.Some? && round.value.active.None? && clock == now && reason != ""
      modifies `round, `batches, `nextRound
      ensures Valid() && round.None? && nextRound == now + 30 * SECOND
      ensures batches == old(batches) + [Closed(old(round).value, now, reason)]
      ensures IsPublished(old(round), old(batches), round, batches)
    {
      ClosedIsValid(round.value, now, reason);
      hide IsRound, IsTracked, IsUndisturbed, IsValidBatch, KeysOf;
      batches := batches + [Closed(round.value, now, reason)];
      round, nextRound := None, now + 30 * SECOND;
    }

    method StartOperation(key: Key, now: int)
      requires key in orders && key in checks
      modifies `checks, `inFlight
      ensures checks == old(checks)[key := Started(orders[key], old(checks)[key], now)] && inFlight
    {
      var o, e := orders[key], checks[key];
      if !e.verified || o.ambiguous || o.closurePending {
        checks := checks[key := e.(attempts := e.attempts + 1, nextSeed := now + 30 * MINUTE)];
      } else {
        checks := checks[key := e];
      }
      inFlight := true;
    }

    /** The best offer of the lane or, if it has none, of the other lane. */
    method Pick(lane: Lane, now: int, rate: Option<Rate>) returns (choice: Option<Choice>, reason: string)
      requires Valid()
      ensures IsPicked(choice, lane, orders, checks, Selected(round), now, rate)
    {
      hide IsChoice;
      choice := Choose(lane, orders, checks, Selected(round), now, rate);
      reason := if lane == Explore then "explore" else "focus";
      if choice.Some? {
        Offered(choice, lane, orders, checks, orders.Keys, Selected(round), now, rate);
      } else {
        choice := Choose(Other(lane), orders, checks, Selected(round), now, rate);
        Offered(choice, Other(lane), orders, checks, orders.Keys, Selected(round), now, rate);
        reason := reason + "_empty";
      }
    }

    /** Gives the next slot to an order. */
    method Give(c: Choice, reason: string, now: int)
      requires Valid() && clock == now && nextCheck <= now
      requires round.Some? ==> round.value.active.None? && round.value.slots < 50
      requires c.key in orders && c.key !in Selected(round) && IsTurn(TurnOf(orders, checks, Selected(round), c, now))
      modifies `round, `checks, `turns, `inFlight
      ensures Valid() && inFlight
      ensures IsGiven(c, orders, old(checks), old(round), old(turns), now, checks, round, turns)
    {
      hide *;
      Parts();
      var slot := if round.Some? then round.value.slots + 1 else 1;
      var m := Member(slot, c.key, orders[c.key].generation, NextLane(round), c.lane, now, reason, "");
      var r := if round.Some? then round.value else Round(now, 0, [], [], None, false, "");
      GivenRuns(round, r, m, now);
      ghost var t, was, before, wasTurns := TurnOf(orders, checks, Selected(round), c, now), round, checks, turns;
      TurnShows(orders, checks, Selected(round), c, now);
      Paced(turns, round, nextCheck);
      TrackedTurn(turns, checks, t);
      turns := turns + [t];
      round := Some(Given(r, m));
      checks := checks[c.key := Attempted(checks[c.key], now)];
      ghost var attempted := checks;
      StartOperation(c.key, now);
      StartKeepsWaits(attempted, c.key, orders[c.key], now);
      TrackedTheSame(turns, attempted, checks, now);
      UndisturbedTurn(wasTurns, heard, before, t, attempted);
      UndisturbedTheSame(turns, heard, attempted, checks);
      BusyIsPaced(turns, round.value, nextCheck);
      GivenHolds(c, orders, before, was, wasTurns, now, checks, r, m, turns);
      Whole();
    }

    /** Gives the next slot to the best order of its lane, or of the other one. */
    method Admit(now: int, rate: Option<Rate>) returns (choice: Option<Choice>)
      requires Valid() && clock == now && nextCheck <= now
      requires round.Some? ==> round.value.active.None? && round.value.slots < 50
      modifies `round, `checks, `turns, `inFlight
      ensures Valid()
      ensures IsPicked(choice, NextLane(old(round)), orders, old(checks), Selected(old(round)), now, rate)
      ensures choice.Some? ==>
        inFlight && IsGiven(choice.value, orders, old(checks), old(round), old(turns), now, checks, round, turns)
      ensures choice.None? ==>
        && round == old(round) && checks == old(checks) && turns == old(turns) && inFlight == old(inFlight)
        && EligibleOf(orders, checks, Selected(round), now) == {}
    {
      hide *;
      var reason;
      choice, reason := Pick(NextLane(round), now, rate);
      Parts();
      FairTimes(turns, checks, now);
      PickIsATurn(choice, NextLane(round), orders, checks, Selected(round), now, rate);
      if choice.Some? {
        Give(choice.value, reason, now);
      }
    }

    /** An event of a pair. `merged` is what the merge rules make of the pair's order, if
        they do not leave it as it is; `available` the time at which the event was seen. */
    method Learn(key: Key, merged: Option<Order>, available: int, now: int)
      requires Valid() && clock <= now && 0 <= available <= now
      modifies `orders, `checks, `clock, `heard
      ensures Valid() && clock == now
      ensures forall k :: k != key ==>
        (k in orders <==> k in old(orders)) && (k in orders ==> orders[k] == old(orders)[k])
      ensures if key in old(orders) || merged.Some? then IsHeard(old(checks), checks, key, now)
        else checks == old(checks)
      ensures merged.Some? ==> key in orders && orders[key] == merged.value.(firstSeen := orders[key].firstSeen)
      ensures merged.Some? ==> checks[key].verified == merged.value.verified
      ensures key in old(orders) || merged.Some? ==>
        key in orders && key in checks
        && IsNoted(if key in old(orders) then Some(old(orders)[key]) else None,
                   if key in old(checks) then Some(old(checks)[key]) else None, merged, available, now,
                   orders[key], checks[key])
    {
      hide *;
      Tick(now);
      Parts();
      ghost var before := checks;
      FairTimes(turns, checks, now);
      if key in orders || merged.Some? {
        var o, e := if key in orders then Some(orders[key]) else None, if key in checks then checks[key] else UNKNOWN;
        ghost var was, wasOrder := if key in checks then Some(checks[key]) else None, o;
        NothingHeard(was, e, now);
        if o.Some? && available != 0 && (o.value.firstSeen == 0 || available < o.value.firstSeen) {
          ForwardIsHeard(e, available, now);
          o, e := Some(o.value.(firstSeen := available)), Forward(e, available);
        }
        LearnedIsNoted(wasOrder, was, merged, available, now, o, e);
        if merged.Some? {
          var first := if o.Some? && o.value.firstSeen != 0 then o.value.firstSeen else if available != 0 then available
            else now;
          var same := o.Some? && o.value.generation == merged.value.generation;
          MergedIsHeard(was, e, same, merged.value.verified, first, now);
          o, e := Some(merged.value.(firstSeen := first)), Merged(e, same, merged.value.verified, first);
        }
        IsHeardAt(before, key, e, now);
        orders, checks, heard := orders[key := o.value], checks[key := e], |turns|;
        UndisturbedNow(turns, checks);
        TrackedHeard(turns, before, checks, key, now);
        Whole();
      }
    }

    /** Goes on from the verified origin to the state of the same order. */
    method ContinueSlot(now: int)
      requires Valid() && round.Some? && round.value.active.Some? && round.value.continuing && clock == now
      modifies `round, `checks, `inFlight
      ensures Valid() && checks == old(checks)
      ensures var r := old(round).value;
        round == Some(
          if !StillStands(orders, r.active.value) || !IsClear(orders[r.active.value.key]) then
            Finished(r, "superseded_or_closed")
          else if !old(checks)[r.active.value.key].verified then Finished(r, "seed_unverified")
          else r.(continuing := false))
      ensures inFlight == (old(inFlight) || round.value.active.Some?)
      ensures var m := old(round).value.active.value;
        round.value.active.Some? <==>
          m.key in orders && orders[m.key].generation == m.generation && !orders[m.key].closed
          && !orders[m.key].ambiguous && !orders[m.key].closurePending && checks[m.key].verified
      ensures IsPublished(old(round), batches, round, batches)
    {
      var m := round.value.active.value;
      if m.key !in orders || orders[m.key].closed || orders[m.key].ambiguous || orders[m.key].closurePending
         || orders[m.key].generation != m.generation {
        Finish("superseded_or_closed");
      } else if !checks[m.key].verified {
        Finish("seed_unverified");
      } else {
        hide IsTracked, IsUndisturbed, IsValidBatch;
        round := Some(round.value.(continuing := false));
        ghost var before := checks;
        StartOperation(m.key, now);
        assert checks == before;
      }
    }

    /** The running operation has ended; the next look waits half a minute. */
    method Release(now: int)
      requires Valid() && clock <= now
      modifies `inFlight, `nextCheck, `clock
      ensures Valid() && !inFlight && clock == now && nextCheck == now + 30 * SECOND
      ensures turns != [] ==> turns[|turns| - 1].now < nextCheck
    {
      Tick(now);
      LastTurn(turns, checks, now);
      hide IsRound, IsTracked, IsUndisturbed, IsValidBatch;
      inFlight, nextCheck := false, now + 30 * SECOND;
    }

    /** The running operation of the active slot has ended. */
    method Complete(now: int, result: Result, sound: bool)
      requires Valid() && IsBusy(round) && clock <= now
      modifies `round, `checks, `inFlight, `nextCheck, `clock
      ensures Valid() && !inFlight && clock == now && nextCheck == now + 30 * SECOND
      ensures IsCompleted(orders, old(checks), old(round).value, result, now, Known(rate, sound), checks, round)
    {
      hide *;
      Release(now);
      Parts();
      BusyGives(round, now);
      AnyPace(turns, nextCheck);
      ghost var before, was := checks, round.value;
      var m := round.value.active.value;
      if StillStands(orders, m) {
        AtKey(orders, checks, m);
        var e := AfterResult(orders[m.key], checks[m.key], result, now, Known(rate, sound));
        ResultKeepsWaits(orders[m.key], checks, m.key, result, now, Known(rate, sound));
        checks := checks[m.key := e];
        TrackedTheSame(turns, before, checks, now);
        UndisturbedTheSame(turns, heard, before, checks);
        Whole();
        if SeedIsGood(orders[m.key], result) {
          round := Some(round.value.(continuing := true));
          Continues(was, now);
          Whole();
        } else {
          Finish(e.latest);
        }
      } else {
        Finish("superseded_or_closed");
      }
      Completed(orders, before, was, result, now, Known(rate, sound), checks, round);
    }

    /** The operation that asks for the rate has ended. */
    method CompleteRate(now: int, answer: Option<Rate>)
      requires Valid() && clock <= now
      modifies `rate, `inFlight, `nextCheck, `clock
      ensures Valid() && !inFlight && clock == now && nextCheck == now + 30 * SECOND
      ensures rate == if answer.Some? then answer else old(rate)
    {
      Release(now);
      hide IsRound, IsTracked, IsUndisturbed, IsValidBatch;
      rate := if answer.Some? then answer else rate;
    }

    /** Ends a round that cannot go on. */
    method Abandon(now: int, reason: string)
      requires Valid() && clock == now && reason != ""
      modifies `round, `batches, `nextRound
      ensures Valid()
      ensures IsAbandoned(old(round), old(batches), old(nextRound), reason, now, round, batches, nextRound)
      ensures IsPublished(old(round), old(batches), round, batches)
    {
      hide IsRound, IsTracked, IsUndisturbed, AreValid, KeysOf;
      if round.Some? {
        if round.value.active.Some? && round.value.continuing {
          Finish(reason);
        }
        if round.value.active.None? {
          Close(now, reason);
        }
      }
    }

    predicate IsOpen(now: int, gate: Gate)
      reads this
    {
      gate.idle && !inFlight && now >= nextCheck && now >= nextRound
    }

    /** The round has had its time or its slots. */
    predicate IsOver(now: int)
      reads this
    {
      && round.Some? && round.value.active.None?
      && (round.value.slots >= 50 || now - round.value.started >= 2 * HOUR || round.value.closing != "")
    }

    predicate IsDown(now: int, gate: Gate)
      reads this
    {
      IsOpen(now, gate) && !IsOver(now) && !(gate.current && gate.budget)
    }

    predicate IsFree(now: int, gate: Gate)
      reads this
    {
      && IsOpen(now, gate) && !IsOver(now) && gate.current && gate.budget
      && (round.Some? ==> round.value.active.None?)
    }

    predicate AsksRate(now: int, gate: Gate)
      reads this
    {
      IsFree(now, gate) && now >= nextRate
    }

    predicate MayAdmit(now: int, gate: Gate)
      reads this
    {
      IsFree(now, gate) && now < nextRate
    }

    /** One look at what could be selected next. */
    method Schedule(now: int, gate: Gate) returns (ghost choice: Option<Choice>)
      requires Valid() && clock <= now
      modifies this
      ensures Valid() && clock == now && orders == old(orders) && rate == old(rate) && nextCheck == old(nextCheck)
      ensures old(MayAdmit(now, gate)) ==>
        IsPicked(choice, NextLane(old(round)), orders, old(checks), Selected(old(round)), now, Known(rate, gate.sound))
      ensures old(MayAdmit(now, gate)) && choice.Some? ==>
        && batches == old(batches) && inFlight && nextRound == old(nextRound) && nextRate == old(nextRate)
        && IsGiven(choice.value, orders, old(checks), old(round), old(turns), now, checks, round, turns)
      ensures old(MayAdmit(now, gate)) && choice.None? ==>
        EligibleOf(orders, checks, Selected(old(round)), now) == {} && round.None? && nextRound == now + 30 * SECOND
      ensures !(old(MayAdmit(now, gate)) && choice.Some?) ==> turns == old(turns) && checks == old(checks)
      ensures old(IsDown(now, gate)) ==>
        IsAbandoned(old(round), old(batches), old(nextRound),
                    if gate.current then "daily_budget" else "source_not_current", now,
                    round, batches, nextRound)
      ensures old(IsOpen(now, gate) && IsOver(now)) ==>
        round.None? && nextRound == now + 30 * SECOND
        && batches == old(batches) + [Closed(old(round).value, now, ReasonOf(old(round).value))]
      ensures old(AsksRate(now, gate)) ==>
        && inFlight && nextRate == now + 5 * MINUTE && nextRound == old(nextRound)
        && round == old(round) && batches == old(batches)
      ensures !old(IsOpen(now, gate) && !IsOver(now)) || old(IsDown(now, gate)) ==>
        inFlight == old(inFlight) && nextRate == old(nextRate)
      ensures !old(IsOpen(now, gate)) ==> round == old(round) && batches == old(batches) && nextRound == old(nextRound)
      ensures IsPublished(old(round), old(batches), round, batches) && heard == old(heard)
      ensures turns != old(turns) ==>
        old(IsItsTime(round, inFlight, nextCheck, nextRound, now, gate)) && now < old(nextRate)
      ensures old(IsItsTime(round, inFlight, nextCheck, nextRound, now, gate)) && now < old(nextRate) ==>
        turns != old(turns) || (round.None? && EligibleOf(orders, checks, Selected(old(round)), now) == {})
    {
      hide IsRunning, IsUndisturbed, IsAbandoned, IsTracked, AreValid, IsPaced, IsPicked, EligibleOf, NextLane,
        IsGiven, IsPublished, Selected, Closed, Finished, ReasonOf;
      choice := None;
      Tick(now);
      NothingPublished(round, batches);
      if gate.idle && !inFlight && now >= nextCheck && now >= nextRound {
        if IsOver(now) {
          AReason(round.value);
          Close(now, ReasonOf(round.value));
        } else if !gate.current {
          Abandon(now, "source_not_current");
        } else if !gate.budget {
          Abandon(now, "daily_budget");
        } else if round.Some? && round.value.active.Some? {
          if round.value.continuing {
            ContinueSlot(now);
          }
        } else if now >= nextRate {
          nextRate, inFlight := now + 5 * MINUTE, true;
        } else {
          var c := Admit(now, Known(rate, gate.sound));
          choice := c;
          if c.Some? {
            GivenKeepsSelected(c.value, orders, old(checks), old(round), old(turns), now, checks, round, turns,
                               batches);
            OneMoreTurn(c.value, orders, old(checks), old(round), old(turns), now, checks, round, turns);
          } else {
            if round.Some? {
              Close(now, "no_eligible_orders");
            }
            nextRound := now + 30 * SECOND;
          }
        }
      }
    }

    /** When a look gives a slot, asks for the rate or ends the round, in plain terms. */
    lemma TimesMean(now: int, gate: Gate)
      ensures MayAdmit(now, gate) <==>
        IsItsTime(round, inFlight, nextCheck, nextRound, now, gate) && now < nextRate
      ensures AsksRate(now, gate) <==>
        IsItsTime(round, inFlight, nextCheck, nextRound, now, gate) && now >= nextRate
      ensures IsOpen(now, gate) && IsOver(now) <==>
        && gate.idle && !inFlight && nextCheck <= now && nextRound <= now && round.Some? && round.value.active.None?
        && (round.value.closing != "" || round.value.slots >= 50 || now >= round.value.started + 7200 * SECOND)
      ensures IsDown(now, gate) <==>
        && gate.idle && !inFlight && nextCheck <= now && nextRound <= now && (!gate.current || !gate.budget)
        && (round.Some? && round.value.active.None? ==>
            round.value.closing == "" && round.value.slots < 50 && now < round.value.started + 7200 * SECOND)
    {
    }

    /** In every run of the scheduler exploration is fair. */
    lemma RunIsFair(a: nat, b: nat, x: Key)
      requires Valid() && IsPassedOver(turns, a, b, x) && a < b
      ensures Explored(turns, a, b) <= |EverAhead(turns, a, b, x)| + if IsTie(turns[a], x) then 1 else 0
      ensures heard <= a ==> x in turns[a].fair && Explored(turns, a, b) <= |Ahead(turns[a].fair, x) + {x}|
      ensures heard <= a && !IsTie(turns[a], x) ==> Explored(turns, a, b) <= |Ahead(turns[a].fair, x)|
    {
      ExplorationIsFair(turns, a, b, x);
      if heard <= a {
        assert IsQuiet(turns, a, b);
        FixedPopulationIsFair(turns, a, b, x);
      }
    }
  }

  // ------------------------------------------------------------- the price of a tie

  const PLAIN := Order(true, false, false, false, 0, true, 0, None, None, 0, 1)

  predicate IsPlain(e: Check, now: int) {
    e.verified && e.fairSince == 1 && e.liquidatable.None? && e.deposit.None? && e.nextCheck <= now
  }

  ghost predicate ArePlain(orders: map<Key, Order>, checks: map<Key, Check>, now: int) {
    orders == map[0 := PLAIN, 1 := PLAIN] && checks.Keys == {0, 1} && IsPlain(checks[0], now) && IsPlain(checks[1], now)
  }

  lemma ZeroIsPicked(choice: Option<Choice>, orders: map<Key, Order>, checks: map<Key, Check>, now: int,
                     rate: Option<Rate>)
    requires ArePlain(orders, checks, now) && rate.None?
    requires IsPicked(choice, NextLane(None), orders, checks, Selected(None), now, rate)
    ensures choice.Some? && choice.value.key == 0 && choice.value.lane == Explore
    ensures EligibleOf(orders, checks, Selected(None), now) == {0, 1} && FairOf(checks) == map[0 := 1, 1 := 1]
  {
    var zero := Offer(Explore, 0, orders[0], checks[0], now, None).value;
    assert IsOffered(zero, Explore, orders, checks, {}, now, None);
    assert forall c: Choice :: !IsOffered(c, Focus, orders, checks, {}, now, None);
  }

  /** An admission of order 0 at which order 1 could have been taken. */
  ghost predicate IsZeroTurn(t: Turn) {
    t.fair == map[0 := 1, 1 := 1] && t.eligible == {0, 1} && t.lane == Explore && t.key == 0
  }

  lemma ZeroIsGiven(c: Choice, orders: map<Key, Order>, was: map<Key, Check>, wasTurns: seq<Turn>, now: int,
                    checks: map<Key, Check>, round: Option<Round>, turns: seq<Turn>, rate: Option<Rate>)
    requires ArePlain(orders, was, now) && rate.None?
    requires IsPicked(Some(c), NextLane(None), orders, was, Selected(None), now, rate)
    requires IsGiven(c, orders, was, None, wasTurns, now, checks, round, turns)
    ensures turns[..|wasTurns|] == wasTurns && |turns| == |wasTurns| + 1 && IsZeroTurn(turns[|wasTurns|])
    ensures now == 1 ==> ArePlain(orders, checks, now) && round.Some? && round.value.active.Some? && IsBusy(round)
    ensures now == 1 ==> StillStands(orders, round.value.active.value) && round.value.active.value.key == 0
  {
    ZeroIsPicked(Some(c), orders, was, now, rate);
  }

  lemma PassesTwice(turns: seq<Turn>)
    requires |turns| == 2 && IsZeroTurn(turns[0]) && IsZeroTurn(turns[1])
    ensures IsPassedOver(turns, 0, 2, 1) && 1 in turns[0].fair
    ensures |Ahead(turns[0].fair, 1)| == 1 && Explored(turns, 0, 2) == 2
  {
    assert Ahead(turns[0].fair, 1) == {0};
    assert Explored(turns, 0, 1) == 1;
  }

  /** Order 0 was taken once, at the moment at which order 1 began to wait. */
  ghost predicate IsOneUp(orders: map<Key, Order>, checks: map<Key, Check>, turns: seq<Turn>, heard: nat,
                          rate: Option<Rate>)
  {
    ArePlain(orders, checks, LATER) && |turns| == 1 && IsZeroTurn(turns[0]) && heard == 0 && rate.None?
  }

  const LATER := 2 + 30 * MINUTE

  method FirstTurn() returns (s: Scheduler)
    ensures fresh(s) && s.Valid() && s.clock == 1 && IsAtWork(s.orders, s.checks, s.round, s.turns, s.heard, s.rate)
    ensures s.nextRound == 0 && s.nextRate == 2
  {
    var e := Check(true, 0, 0, 0, 0, 1, 0, "", None, None, 0);
    s := new Scheduler(map[0 := PLAIN, 1 := PLAIN], map[0 := e, 1 := e], 2, 1);
    assert ArePlain(s.orders, s.checks, 1);
    hide Scheduler.Valid, ArePlain, IsPicked, IsGiven, IsPublished, EligibleOf, StillStands, IsAbandoned, IsZeroTurn,
      Closed, Selected, ReasonOf, NextLane;
    ghost var was, turns := s.checks, s.turns;
    ghost var choice := s.Schedule(1, Gate(true, true, true, true));
    ZeroIsPicked(choice, s.orders, was, 1, None);
    ZeroIsGiven(choice.value, s.orders, was, turns, 1, s.checks, s.round, s.turns, None);
  }

  ghost predicate IsAtWork(orders: map<Key, Order>, checks: map<Key, Check>, round: Option<Round>, turns: seq<Turn>,
                           heard: nat, rate: Option<Rate>)
  {
    && ArePlain(orders, checks, 1) && |turns| == 1 && IsZeroTurn(turns[0]) && heard == 0 && rate.None?
    && IsBusy(round) && StillStands(orders, round.value.active.value) && round.value.active.value.key == 0
  }

  lemma WorkIsDone(orders: map<Key, Order>, was: map<Key, Check>, wasRound: Option<Round>, turns: seq<Turn>, heard: nat,
                   rate: Option<Rate>, checks: map<Key, Check>, round: Option<Round>)
    requires IsAtWork(orders, was, wasRound, turns, heard, rate) && orders.Keys == was.Keys
    requires IsCompleted(orders, was, wasRound.value, Read(None), 2, Known(rate, true), checks, round)
    ensures IsOneUp(orders, checks, turns, heard, rate) && round.Some? && round.value.active.None?
  {
  }

  method FirstSlotEnds(s: Scheduler)
    requires s.Valid() && s.clock == 1 && IsAtWork(s.orders, s.checks, s.round, s.turns, s.heard, s.rate)
    modifies s
    ensures s.Valid() && s.clock == 2 && IsOneUp(s.orders, s.checks, s.turns, s.heard, s.rate)
    ensures s.round.Some? && s.round.value.active.None? && !s.inFlight && s.nextCheck == 2 + 30 * SECOND
    ensures s.nextRound == old(s.nextRound) && s.nextRate == old(s.nextRate)
  {
    ghost var was, round := s.checks, s.round;
    s.Parts();
    hide Scheduler.Valid, IsCompleted, IsOneUp, IsTracked, IsUndisturbed, IsRunning, AreValid, IsPaced, ArePlain, Known;
    s.Complete(2, Read(None), true);
    WorkIsDone(s.orders, was, round, s.turns, s.heard, s.rate, s.checks, s.round);
  }

  method RoundEnds(s: Scheduler)
    requires s.Valid() && s.clock == 2 && IsOneUp(s.orders, s.checks, s.turns, s.heard, s.rate)
    requires s.round.Some? && s.round.value.active.None? && !s.inFlight
    requires s.nextCheck == 2 + 30 * SECOND && s.nextRound == 0 && s.nextRate == 2
    modifies s
    ensures s.Valid() && s.clock == LATER && IsOneUp(s.orders, s.checks, s.turns, s.heard, s.rate)
    ensures s.round.None? && !s.inFlight
    ensures s.nextCheck == 2 + 30 * SECOND && s.nextRound == LATER + 30 * SECOND && s.nextRate == 2
  {
    hide Scheduler.Valid, IsOneUp, IsPicked, IsGiven, IsPublished, EligibleOf, Closed, Finished, Selected, ReasonOf,
      NextLane;
    ghost var choice := s.Schedule(LATER, Gate(true, false, true, true));
  }

  method RateIsAsked(s: Scheduler)
    requires s.Valid() && s.clock == LATER && IsOneUp(s.orders, s.checks, s.turns, s.heard, s.rate)
    requires s.round.None? && !s.inFlight
    requires s.nextCheck == 2 + 30 * SECOND && s.nextRound == LATER + 30 * SECOND && s.nextRate == 2
    modifies s
    ensures s.Valid() && s.clock == LATER + MINUTE && IsOneUp(s.orders, s.checks, s.turns, s.heard, s.rate)
    ensures s.round.None? && !s.inFlight
    ensures s.nextCheck == LATER + MINUTE + 30 * SECOND && s.nextRound == LATER + 30 * SECOND
    ensures s.nextRate == LATER + 30 * SECOND + 5 * MINUTE
  {
    hide Scheduler.Valid, IsOneUp, IsPicked, IsGiven, IsPublished, EligibleOf, IsAbandoned, Closed, Selected, ReasonOf,
      NextLane;
    ghost var choice := s.Schedule(LATER + 30 * SECOND, Gate(true, true, true, true));
    s.CompleteRate(LATER + MINUTE, None);
  }

  lemma TwoUp(orders: map<Key, Order>, was: map<Key, Check>, wasTurns: seq<Turn>, heard: nat, rate: Option<Rate>,
              choice: Option<Choice>, now: int, checks: map<Key, Check>, round: Option<Round>, turns: seq<Turn>)
    requires IsOneUp(orders, was, wasTurns, heard, rate) && LATER <= now
    requires IsPicked(choice, NextLane(None), orders, was, Selected(None), now, Known(rate, true))
    requires choice.Some? ==> IsGiven(choice.value, orders, was, None, wasTurns, now, checks, round, turns)
    ensures heard == 0 && |turns| == 2 && IsPassedOver(turns, 0, 2, 1) && 1 in turns[0].fair
    ensures |Ahead(turns[0].fair, 1)| == 1 && Explored(turns, 0, 2) == 2
  {
    hide IsPicked, IsGiven, NextLane, Selected, EligibleOf, IsZeroTurn, IsPassedOver, Ahead, Explored;
    ZeroIsPicked(choice, orders, was, now, Known(rate, true));
    ZeroIsGiven(choice.value, orders, was, wasTurns, now, checks, round, turns, Known(rate, true));
    PassesTwice(turns);
  }

  /** A run in which order 0 passes order 1 twice, although it alone is ahead of it: order 1
      began to wait at the very moment of the first admission. The round ends in between,
      because the sources are not current. */
  method TieCostsOne() returns (s: Scheduler)
    ensures s.Valid() && s.heard == 0 && |s.turns| == 2 && IsPassedOver(s.turns, 0, 2, 1)
    ensures 1 in s.turns[0].fair && |Ahead(s.turns[0].fair, 1)| == 1 && Explored(s.turns, 0, 2) == 2
  {
    s := FirstTurn();
    FirstSlotEnds(s);
    RoundEnds(s);
    RateIsAsked(s);
    hide Scheduler.Valid, IsOneUp, IsPicked, IsGiven, IsPublished, EligibleOf, IsAbandoned, Closed, Selected, ReasonOf,
      NextLane,
      Known, Ahead, Explored, IsPassedOver;
    ghost var was, turns := s.checks, s.turns;
    ghost var choice := s.Schedule(LATER + 2 * MINUTE, Gate(true, true, true, true));
    TwoUp(s.orders, was, turns, s.heard, s.rate, choice, LATER + 2 * MINUTE, s.checks, s.round, s.turns);
  }
}
