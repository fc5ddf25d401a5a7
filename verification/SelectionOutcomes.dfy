// What the scheduler's steps mean on the fields of orders, checks and rounds.

module SelectionOutcomes {
  import opened Options
  import opened SelectionFairness
  import opened SelectionRounds
  import opened SelectionScheduler

  // ------------------------------------------------------------ after an operation

  /** Five minutes after the first failure, doubled with each further one, half an hour at
      most. */
  lemma DelaysDouble(failures: nat)
    requires failures > 0
    ensures FailureDelay(1) == 300 * SECOND
    ensures var twice := 2 * FailureDelay(failures);
      FailureDelay(failures + 1) == if twice > 1800 * SECOND then 1800 * SECOND else twice
  {
  }

  ghost predicate IsMissed(e: Check, f: Check, now: int) {
    f.failures == (if e.failures % 256 == 255 then 0 else e.failures % 256 + 1)
    && f.nextCheck == now + FailureDelay(f.failures)
  }

  ghost predicate KeepsPlace(e: Check, f: Check) {
    && f.attempts == e.attempts && f.nextSeed == e.nextSeed
    && f.fairSince == e.fairSince && f.lastAttempt == e.lastAttempt
  }

  ghost predicate IsSeen(r: Reading, f: Check) {
    f.deposit == r.deposit && f.liquidatable == Some(r.liquidatable) && f.observedAt == r.observedAt
  }

  /** A state that was read decides when its order comes up again: in a minute if it can be
      liquidated at a gain, in five if its deposit lasts half an hour at most, else in half an
      hour. A reading that failed, or an order whose gain nothing confirms, waits longer from
      time to time, and counts as not liquidatable for the next choice. */
  lemma ReadMeans(o: Order, e: Check, reading: Option<Reading>, now: int, rate: Option<Rate>)
    ensures var f := AfterResult(o, e, Read(reading), now, rate);
      && f.verified == e.verified && KeepsPlace(e, f)
      && match reading
        case None =>
          && f.latest == "unknown" && IsMissed(e, f, now)
          && f.deposit == e.deposit && f.liquidatable == e.liquidatable && f.observedAt == e.observedAt
        case Some(r) =>
          && IsSeen(r, f)
          && (!r.liquidatable ==>
            && f.latest == "ok" && f.failures == 0
            && var short := HasSecondsLeft(o, f, now, rate) && SecondsLeft(o, f, now, rate) <= 1800.0;
              f.nextCheck == now + (if short then 300 else 1800) * SECOND)
          && (r.liquidatable && r.certified ==>
            && f.latest == "ok" && f.failures == 0 && f.nextCheck == now + 60 * SECOND
            && (e.verified && 0 < r.observedAt <= now <= r.observedAt + 300 * SECOND ==> IsRipe(f, now)))
          && (r.liquidatable && !r.certified ==> IsMissed(e, f, now) && !IsRipe(f, now))
  {
    if reading.Some? && !reading.value.liquidatable {
      var f := AfterResult(o, e, Read(reading), now, rate);
      var seen := e.(latest := "ok", deposit := f.deposit, liquidatable := f.liquidatable, observedAt := f.observedAt,
                     failures := (e.failures + 1) % 256, nextCheck := now + FailureDelay((e.failures + 1) % 256));
      PressureIsSeconds(o, f, now, rate);
      assert PressureFor(o, seen, now, rate) == PressureFor(o, f, now, rate);
      if HasSecondsLeft(o, f, now, rate) {
        var p := PressureFor(o, f, now, rate).value;
        AtMost(p.numerator, p.denominator, 1800);
      }
      hide PressureFor, HasSecondsLeft, SecondsLeft;
    }
  }

  lemma AtMost(n: int, d: int, limit: int)
    requires d > 0
    ensures n <= d * limit <==> n as real / d as real <= limit as real
  {
    var q := n as real / d as real;
    assert q * d as real == n as real;
    Product(d, limit);
    Scaled(limit as real, q, d as real);
  }

  /** A seed verifies its order if it did not fail and the order now stands verified and
      clear; otherwise the order is out for half an hour. */
  lemma SeedMeans(o: Order, e: Check, failed: bool, now: int, rate: Option<Rate>)
    ensures var f := AfterResult(o, e, Seeded(failed), now, rate);
      if !failed && o.verified && !o.ambiguous && !o.closurePending then f == e.(verified := true)
      else f == e.(latest := "seed_failed", nextCheck := now + 1800 * SECOND)
  {
  }

  /** The order of the slot is still there, of the same generation, and open. */
  ghost predicate IsThere(orders: map<Key, Order>, m: Member) {
    m.key in orders && orders[m.key].generation == m.generation && !orders[m.key].closed
  }

  /** The end of an operation concerns the order of the active slot alone, and that one only
      if it is still there. The slot goes on exactly after a good seed, and otherwise ends
      with what the check says. */
  lemma CompletedMeans(orders: map<Key, Order>, was: map<Key, Check>, r: Round, result: Result, now: int,
                       rate: Option<Rate>, checks: map<Key, Check>, round: Option<Round>)
    requires r.active.Some? && orders.Keys == was.Keys
    requires IsCompleted(orders, was, r, result, now, rate, checks, round)
    ensures checks.Keys == was.Keys && forall k :: k in was && k != r.active.value.key ==> checks[k] == was[k]
    ensures round.Some? && round.value.selected == r.selected && round.value.slots == r.slots
    ensures var m := r.active.value;
      var there := IsThere(orders, m);
      && (!there ==> checks == was)
      && (round.value.active.Some? <==>
          there && result.Seeded? && !result.failed
            && orders[m.key].verified && !orders[m.key].ambiguous && !orders[m.key].closurePending)
      && (round.value.active.Some? ==>
          round.value == r.(continuing := true) && checks[m.key] == was[m.key].(verified := true))
      && (round.value.active.None? ==>
          && !round.value.continuing && round.value.closing == r.closing && round.value.started == r.started
          && round.value.members
            == r.members + [m.(outcome := if there then checks[m.key].latest else "superseded_or_closed")])
  {
    hide PressureFor;
  }

  // ------------------------------------------------------------------ a slot given

  /** The choice of one lane, on the fields; the rate counts only while it is one of the running
      implementation. */
  ghost predicate IsLaneChoice(key: Option<Key>, lane: Lane, orders: map<Key, Order>, checks: map<Key, Check>,
                               selected: set<Key>, now: int, rate: Option<Rate>, sound: bool)
  {
    if lane == Focus then IsFocusChoice(key, orders, checks, selected, now, if sound then rate else None)
    else IsExploreChoice(key, orders, checks, selected, now)
  }

  lemma LaneMeans(best: Option<Choice>, lane: Lane, orders: map<Key, Order>, checks: map<Key, Check>,
                  selected: set<Key>, now: int, rate: Option<Rate>, sound: bool)
    requires orders.Keys <= checks.Keys
    requires IsChoice(best, lane, orders, checks, orders.Keys, selected, now, Known(rate, sound))
    ensures IsLaneChoice(if best.Some? then Some(best.value.key) else None, lane, orders, checks, selected, now, rate,
                         sound)
  {
    hide IsChoice, IsFocusChoice, IsExploreChoice;
    if lane == Focus {
      FocusMeans(best, orders, checks, selected, now, Known(rate, sound));
    } else {
      ExploreMeans(best, orders, checks, selected, now, Known(rate, sound));
    }
  }

  /** What is picked is the choice of its own lane, and the other lane is asked only when the
      wanted one has none; nothing is picked only when neither has. */
  lemma PickMeans(choice: Option<Choice>, lane: Lane, orders: map<Key, Order>, checks: map<Key, Check>,
                  selected: set<Key>, now: int, rate: Option<Rate>, sound: bool)
    requires orders.Keys <= checks.Keys
    requires IsPicked(choice, lane, orders, checks, selected, now, Known(rate, sound))
    ensures choice.Some? ==>
      && IsLaneChoice(Some(choice.value.key), choice.value.lane, orders, checks, selected, now, rate, sound)
      && (choice.value.lane != lane ==> IsLaneChoice(None, lane, orders, checks, selected, now, rate, sound))
    ensures choice.None? ==>
      && IsLaneChoice(None, Focus, orders, checks, selected, now, rate, sound)
      && IsLaneChoice(None, Explore, orders, checks, selected, now, rate, sound)
  {
    hide IsChoice, IsLaneChoice, Known;
    if choice.Some? {
      PickedFromItsLane(choice.value, lane, orders, checks, selected, now, Known(rate, sound));
      LaneMeans(choice, choice.value.lane, orders, checks, selected, now, rate, sound);
      if choice.value.lane != lane {
        LaneMeans(None, lane, orders, checks, selected, now, rate, sound);
      }
    } else {
      LaneMeans(None, Focus, orders, checks, selected, now, rate, sound);
      LaneMeans(None, Explore, orders, checks, selected, now, rate, sound);
    }
  }

  lemma PickedFromItsLane(c: Choice, lane: Lane, orders: map<Key, Order>, checks: map<Key, Check>, selected: set<Key>,
                          now: int, rate: Option<Rate>)
    requires IsPicked(Some(c), lane, orders, checks, selected, now, rate)
    ensures IsChoice(Some(c), c.lane, orders, checks, orders.Keys, selected, now, rate)
  {
    if c.lane != lane {
      Offered(Some(c), Other(lane), orders, checks, orders.Keys, selected, now, rate);
    }
    hide IsChoice;
  }

  /** The slot that is given: its number, the lane that its number asks for, the generation of
      the order; the order's wait starts again, and it is seeded if it is not verified or not
      clear. Nothing else changes. */
  lemma GivenMeans(c: Choice, orders: map<Key, Order>, was: map<Key, Check>, wasRound: Option<Round>,
                   wasTurns: seq<Turn>, now: int, checks: map<Key, Check>, round: Option<Round>,
                   turns: seq<Turn>)
    requires IsGiven(c, orders, was, wasRound, wasTurns, now, checks, round, turns)
    ensures c.key in orders && c.key in was && checks.Keys == was.Keys
    ensures forall k :: k in was && k != c.key ==> checks[k] == was[k]
    ensures var o, e, f := orders[c.key], was[c.key], checks[c.key];
      var seeds := !e.verified || o.ambiguous || o.closurePending;
      && f.fairSince == now && f.lastAttempt == now
      && f.attempts == (if seeds then e.attempts + 1 else e.attempts)
      && f.nextSeed == (if seeds then now + 1800 * SECOND else e.nextSeed)
      && f.verified == e.verified && f.failures == e.failures && f.nextCheck == e.nextCheck && f.latest == e.latest
      && f.liquidatable == e.liquidatable && f.deposit == e.deposit && f.observedAt == e.observedAt
    ensures round.Some? && round.value.active.Some?
    ensures var r, m := round.value, round.value.active.value;
      && m.key == c.key && m.actual == c.lane && m.generation == orders[c.key].generation && m.selectedAt == now
      && m.slot == r.slots == (if wasRound.Some? then wasRound.value.slots else 0) + 1
      && (m.requested == Explore <==> exists n: nat :: m.slot == Fives(n))
      && r.started == (if wasRound.Some? then wasRound.value.started else now)
  {
    EveryFifth(round.value.active.value.slot);
  }

  function Fives(n: nat): nat { 5 * n }

  lemma EveryFifth(slot: nat)
    ensures LaneOf(slot) == Explore <==> exists n: nat :: slot == Fives(n)
  {
    if LaneOf(slot) == Explore {
      assert slot == Fives(slot / 5);
    }
  }

  // ----------------------------------------------------------------- a round's end

  /** A published batch explores in every fifth slot and nowhere else, as far as the number of
      the slot decides, and counts its members by what they were taken for. */
  lemma BatchExploresEveryFifth(b: Batch, i: nat)
    requires IsValidBatch(b) && i < |b.members|
    ensures b.members[i].requested == Explore <==> exists n: nat :: i + 1 == Fives(n)
    ensures b.focusCount == |Places(b.members, Focus)|
    ensures b.exploreCount == |Places(b.members, Explore)|
    ensures b.focusCount + b.exploreCount == b.memberCount
  {
    assert IsSound(b, i);
    EveryFifth(i + 1);
    CountIs(b.members, Focus);
    CountIs(b.members, Explore);
    CountsAdd(b.members);
  }

  ghost function Places(members: seq<Member>, lane: Lane): set<nat> {
    set j: nat | j < |members| && members[j].actual == lane
  }

  lemma {:induction false} CountIs(members: seq<Member>, lane: Lane)
    ensures CountOf(members, lane) == |Places(members, lane)|
  {
    if members != [] {
      CountIs(members[..|members| - 1], lane);
      OneMorePlace(members, lane);
    } else {
      assert Places(members, lane) == {};
    }
  }

  lemma OneMorePlace(members: seq<Member>, lane: Lane)
    requires members != []
    ensures var last := |members| - 1;
      var some := Places(members[..last], lane);
      && last !in some
      && Places(members, lane) == if members[last].actual == lane then some + {last} else some
  {
  }

  lemma {:induction false} CountsAdd(members: seq<Member>)
    ensures CountOf(members, Focus) + CountOf(members, Explore) == |members|
  {
    if members != [] {
      CountsAdd(members[..|members| - 1]);
    }
  }

  /** Why a round that is over was closed: for the reason that was given before, else because
      it had all its fifty slots, else because its time was up; only with all its slots it is
      complete. */
  lemma ClosedMeans(r: Round, now: int)
    requires IsRound(r, now) && r.active.None?
    ensures var b := Closed(r, now, ReasonOf(r));
      && b.members == r.members && b.started == r.started && b.finished == now
      && (r.closing != "" ==> b.reason == r.closing)
      && (r.closing == "" ==> (b.reason == "round_limit" <==> |r.members| == 50))
      && (r.closing == "" && |r.members| < 50 ==> b.reason == "round_timeout")
      && (r.closing == "" ==> (b.partial <==> |r.members| < 50))
  {
  }
}
