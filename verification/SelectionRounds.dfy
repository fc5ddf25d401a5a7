// The keeper's selection rounds: up to fifty slots, every fifth of them reserved for
// exploration, each given to the best order of its lane.

module SelectionRounds {
  import opened Options

  /** A renter and receiver pair. */
  type Key = nat

  /** Times are whole microseconds, to which every recorded time is cut. */
  const SECOND: int := 1_000_000

  const MINUTE: int := 60 * SECOND

  const HOUR: int := 60 * MINUTE

  const SUN: int := 1_000_000_000_000_000_000

  datatype Lane = Focus | Explore

  /** `usable`: some caller may act for the pair and its origin can be read. Times count
      from an epoch; zero is no time. */
  datatype Order = Order(
    verified: bool, closed: bool, ambiguous: bool, closurePending: bool, conflicts: nat, usable: bool, generation: nat,
    amount: Option<int>, deposit: Option<int>, baseAt: int, firstSeen: int)

  /** What is known of an order's current generation, and how long it has been waiting. */
  datatype Check = Check(
    verified: bool, attempts: nat, failures: nat, nextSeed: int, nextCheck: int, fairSince: int, lastAttempt: int,
    latest: string, liquidatable: Option<bool>, deposit: Option<int>, observedAt: int)

  datatype Rate = Rate(value: int, availableAt: int)

  // -------------------------------------------------------------------- pressure

  /** A fraction: seconds until the deposit is used up. */
  datatype Pressure = Pressure(numerator: int, denominator: int)

  predicate IsCurrent(rate: Option<Rate>, now: int) {
    && rate.Some? && rate.value.value > 0
    && rate.value.availableAt <= now <= rate.value.availableAt + 5 * MINUTE
  }

  function PressureFor(o: Order, e: Check, now: int, rate: Option<Rate>): (p: Option<Pressure>)
    ensures p.Some? ==> p.value.denominator > 0 && p.value.numerator >= 0
  {
    if !IsCurrent(rate, now) then None
    else if e.deposit == Some(0) && e.liquidatable == Some(false) then None
    else
      var seen := e.deposit.Some? && e.observedAt != 0;
      var d, at := if seen then e.deposit else o.deposit, if seen then e.observedAt else o.baseAt;
      if o.amount.None? || o.amount.value <= 0 || d.None? || d.value < 0 then None
      else if at == 0 || now < at || now - at > 24 * HOUR then None
      else
        var denominator := o.amount.value * rate.value.value;
        var left := d.value * SUN - denominator * ((now - at) / SECOND);
        assert denominator > 0;
        Some(Pressure(if left < 0 then 0 else left, denominator))
  }

  predicate LessPressure(a: Pressure, b: Pressure) { a.numerator * b.denominator < b.numerator * a.denominator }

  predicate EqualPressure(a: Pressure, b: Pressure) { a.numerator * b.denominator == b.numerator * a.denominator }

  // --------------------------------------------------------------------- choosing

  datatype Choice = Choice(key: Key, lane: Lane, rank: nat, pressure: Option<Pressure>, fairSince: int,
                           lastAttempt: int)

  predicate IsEligible(o: Order, e: Check, now: int) {
    && o.conflicts <= 32 && !o.closed && now >= e.nextCheck && (e.verified || (e.attempts < 3 && now >= e.nextSeed))
    && o.usable
  }

  predicate IsFreshLiquidatable(e: Check, now: int) {
    && e.latest == "ok" && e.liquidatable == Some(true) && e.observedAt != 0
    && e.observedAt <= now <= e.observedAt + 5 * MINUTE && e.verified
  }

  /** What an order has to offer in a lane. */
  function Offer(lane: Lane, key: Key, o: Order, e: Check, now: int, rate: Option<Rate>): Option<Choice> {
    if !IsEligible(o, e, now) then None
    else if lane == Explore then Some(Choice(key, lane, 3, None, e.fairSince, e.lastAttempt))
    else if o.ambiguous || o.closurePending then None
    else if IsFreshLiquidatable(e, now) then Some(Choice(key, lane, 0, None, e.fairSince, e.lastAttempt))
    else
      var p := PressureFor(o, e, now, rate);
      if p.None? then None
      else Some(Choice(key, lane, if e.verified then 1 else 2, p, e.fairSince, e.lastAttempt))
  }

  predicate Less(a: Choice, b: Choice) {
    if a.lane == Explore then a.fairSince < b.fairSince || (a.fairSince == b.fairSince && a.key < b.key)
    else if a.rank != b.rank then a.rank < b.rank
    else if a.pressure.Some? && b.pressure.Some? && !EqualPressure(a.pressure.value, b.pressure.value) then
      LessPressure(a.pressure.value, b.pressure.value)
    else a.lastAttempt < b.lastAttempt || (a.lastAttempt == b.lastAttempt && a.key < b.key)
  }

  /** Choices of one lane: only the middle classes carry a pressure. */
  predicate IsComparable(a: Choice, lane: Lane) {
    && a.lane == lane
    && (a.pressure.Some? <==> a.rank == 1 || a.rank == 2)
    && (a.pressure.Some? ==> a.pressure.value.denominator > 0)
  }

  lemma Times(a: int, b: int, c: int)
    requires c > 0
    ensures a < b <==> a * c < b * c
    ensures a == b <==> a * c == b * c
  {
  }

  /** Cross multiplication compares three fractions consistently. */
  lemma PressuresAreOrdered(a: Pressure, b: Pressure, c: Pressure)
    requires a.denominator > 0 && b.denominator > 0 && c.denominator > 0
    requires a.numerator * b.denominator <= b.numerator * a.denominator
    requires b.numerator * c.denominator <= c.numerator * b.denominator
    ensures a.numerator * c.denominator <= c.numerator * a.denominator
    ensures LessPressure(a, b) || LessPressure(b, c) ==> LessPressure(a, c)
    ensures EqualPressure(a, b) && EqualPressure(b, c) ==> EqualPressure(a, c)
  {
    assert (a.numerator * c.denominator) * b.denominator == (a.numerator * b.denominator) * c.denominator;
    assert (c.numerator * a.denominator) * b.denominator == (c.numerator * b.denominator) * a.denominator;
    assert (b.numerator * a.denominator) * c.denominator == (b.numerator * c.denominator) * a.denominator;
    Times(a.numerator * b.denominator, b.numerator * a.denominator, c.denominator);
    Times(b.numerator * c.denominator, c.numerator * b.denominator, a.denominator);
    Times(a.numerator * c.denominator, c.numerator * a.denominator, b.denominator);
  }

  /** The choices of a lane are strictly ordered. */
  lemma LessIsTransitive(a: Choice, b: Choice, c: Choice, lane: Lane)
    requires IsComparable(a, lane) && IsComparable(b, lane) && IsComparable(c, lane)
    requires Less(a, b) && Less(b, c)
    ensures Less(a, c)
  {
    if lane == Focus && a.rank == b.rank == c.rank && a.pressure.Some? {
      PressuresAreOrdered(a.pressure.value, b.pressure.value, c.pressure.value);
    }
  }

  lemma LessIsTotal(a: Choice, b: Choice, lane: Lane)
    requires IsComparable(a, lane) && IsComparable(b, lane)
    ensures !(Less(a, b) && Less(b, a))
    ensures a.key != b.key ==> Less(a, b) || Less(b, a)
  {
  }

  ghost predicate IsOffered(c: Choice, lane: Lane, orders: map<Key, Order>, checks: map<Key, Check>, selected: set<Key>,
                            now: int, rate: Option<Rate>)
  {
    && c.key in orders && c.key in checks && c.key !in selected
    && Offer(lane, c.key, orders[c.key], checks[c.key], now, rate) == Some(c)
  }

  /** The one offer of the lane that comes before every other, if there is any. */
  ghost predicate IsChoice(best: Option<Choice>, lane: Lane, orders: map<Key, Order>, checks: map<Key, Check>,
                           among: set<Key>,
                           selected: set<Key>, now: int, rate: Option<Rate>)
  {
    match best
    case None => forall c: Choice :: c.key in among ==> !IsOffered(c, lane, orders, checks, selected, now, rate)
    case Some(b) =>
      && b.key in among && IsOffered(b, lane, orders, checks, selected, now, rate)
      && forall c: Choice :: c.key in among && c != b && IsOffered(c, lane, orders, checks, selected, now, rate) ==>
          Less(b, c)
  }

  lemma OfferIsComparable(lane: Lane, key: Key, o: Order, e: Check, now: int, rate: Option<Rate>)
    ensures Offer(lane, key, o, e, now, rate).Some? ==>
      IsComparable(Offer(lane, key, o, e, now, rate).value, lane) && Offer(lane, key, o, e, now, rate).value.key == key
  {
  }

  /** One more order looked at. */
  lemma ChoiceSteps(best: Option<Choice>, offer: Option<Choice>, next: Option<Choice>, lane: Lane,
                    orders: map<Key, Order>,
                    checks: map<Key, Check>, among: set<Key>, k: Key, selected: set<Key>, now: int, rate: Option<Rate>)
    requires IsChoice(best, lane, orders, checks, among, selected, now, rate)
    requires k !in among && k in orders && k in checks
    requires offer == if k in selected then None else Offer(lane, k, orders[k], checks[k], now, rate)
    requires next == if offer.Some? && (best.None? || Less(offer.value, best.value)) then offer else best
    ensures IsChoice(next, lane, orders, checks, among + {k}, selected, now, rate)
  {
    OfferIsComparable(lane, k, orders[k], checks[k], now, rate);
    forall c: Choice | next.Some? && c.key in among + {k} && c != next.value
        && IsOffered(c, lane, orders, checks, selected, now, rate)
      ensures Less(next.value, c)
    {
      OfferIsComparable(lane, c.key, orders[c.key], checks[c.key], now, rate);
      if best.Some? {
        OfferIsComparable(lane, best.value.key, orders[best.value.key], checks[best.value.key], now, rate);
        if offer.Some? {
          LessIsTotal(offer.value, best.value, lane);
          if next == offer && c.key in among && c != best.value {
            LessIsTransitive(offer.value, best.value, c, lane);
          }
        }
      }
    }
  }

  // ------------------------------------------------- what a choice means on the fields

  /** Neither chosen in this round nor ruled out: at most 32 rivals, not closed, past its
      next check, and either verified or with one of three attempts left and its next one
      due; and somebody may act for it. */
  ghost predicate MayBeTried(k: Key, orders: map<Key, Order>, checks: map<Key, Check>, selected: set<Key>, now: int) {
    && k in orders && k in checks && k !in selected
    && !orders[k].closed && orders[k].usable && !(orders[k].conflicts > 32) && checks[k].nextCheck <= now
    && (!checks[k].verified ==> checks[k].attempts <= 2 && checks[k].nextSeed <= now)
  }

  /** Besides, nothing about it waits for another reading of the chain. */
  ghost predicate IsCertain(k: Key, orders: map<Key, Order>, checks: map<Key, Check>, selected: set<Key>, now: int) {
    MayBeTried(k, orders, checks, selected, now) && !orders[k].ambiguous && !orders[k].closurePending
  }

  /** A verified order that was read as liquidatable within the last five minutes. */
  ghost predicate IsRipe(e: Check, now: int) {
    && e.verified && e.latest == "ok" && e.liquidatable == Some(true)
    && e.observedAt != 0 && e.observedAt <= now && now - e.observedAt <= 300 * SECOND
  }

  /** The deposit that was read last: by a check, else by the event itself. */
  ghost function LastDeposit(o: Order, e: Check): (Option<int>, int) {
    if e.deposit.Some? && e.observedAt != 0 then (e.deposit, e.observedAt) else (o.deposit, o.baseAt)
  }

  /** The rate is at most five minutes old, the deposit at most a day, and no check found an
      empty order that nobody may liquidate. */
  ghost predicate HasSecondsLeft(o: Order, e: Check, now: int, rate: Option<Rate>) {
    var (deposit, at) := LastDeposit(o, e);
    && rate.Some? && rate.value.value > 0
    && rate.value.availableAt <= now && now - rate.value.availableAt <= 300 * SECOND
    && !(e.deposit == Some(0) && e.liquidatable == Some(false))
    && o.amount.Some? && o.amount.value > 0 && deposit.Some? && deposit.value >= 0
    && at != 0 && at <= now && now - at <= 86_400 * SECOND
  }

  /** The deposit minus the consumption in the whole seconds since it was read, not below 0,
      over the consumption in a second. */
  ghost function SecondsLeft(o: Order, e: Check, now: int, rate: Option<Rate>): real
    requires HasSecondsLeft(o, e, now, rate)
  {
    var (deposit, at) := LastDeposit(o, e);
    var perSecond := o.amount.value as real * rate.value.value as real / 1_000_000_000_000_000_000.0;
    var left := deposit.value as real - perSecond * ((now - at) / SECOND) as real;
    (if left < 0.0 then 0.0 else left) / perSecond
  }

  lemma PressureIsSeconds(o: Order, e: Check, now: int, rate: Option<Rate>)
    ensures PressureFor(o, e, now, rate).Some? <==> HasSecondsLeft(o, e, now, rate)
    ensures HasSecondsLeft(o, e, now, rate) ==>
      var p := PressureFor(o, e, now, rate).value;
      p.numerator as real / p.denominator as real == SecondsLeft(o, e, now, rate)
  {
    if HasSecondsLeft(o, e, now, rate) {
      var (deposit, at) := LastDeposit(o, e);
      InSun(deposit.value, o.amount.value * rate.value.value, (now - at) / SECOND);
      Product(o.amount.value, rate.value.value);
    }
  }

  lemma Product(a: int, b: int)
    ensures (a * b) as real == a as real * b as real
  {
  }

  lemma InSun(deposit: int, consumed: int, seconds: int)
    requires consumed > 0
    ensures var perSecond := consumed as real / 1_000_000_000_000_000_000.0;
      var left, sun := deposit as real - perSecond * seconds as real, deposit * SUN - consumed * seconds;
      && perSecond > 0.0 && (left < 0.0 <==> sun < 0)
      && (if left < 0.0 then 0.0 else left) / perSecond == (if sun < 0 then 0 else sun) as real / consumed as real
  {
    var big := 1_000_000_000_000_000_000.0;
    var perSecond := consumed as real / big;
    var left, sun := deposit as real - perSecond * seconds as real, deposit * SUN - consumed * seconds;
    Product(consumed, seconds);
    assert perSecond * big == consumed as real;
    assert sun as real == left * big;
    Quotient(left, perSecond, big);
    Quotient(0.0, perSecond, big);
  }

  lemma Quotient(x: real, y: real, z: real)
    requires y > 0.0 && z > 0.0
    ensures y * z > 0.0 && (x * z) / (y * z) == x / y
  {
    var q := x / y;
    assert q * y == x;
    assert q * (y * z) == x * z;
  }

  /** Comparing fractions by cross multiplication. */
  lemma LessIsFewerSeconds(a: Pressure, b: Pressure)
    requires a.denominator > 0 && b.denominator > 0
    ensures var x, y := a.numerator as real / a.denominator as real, b.numerator as real / b.denominator as real;
      (LessPressure(a, b) <==> x < y) && (EqualPressure(a, b) <==> x == y)
  {
    var an, ad, bn, bd := a.numerator as real, a.denominator as real, b.numerator as real, b.denominator as real;
    var x, y := an / ad, bn / bd;
    Product(a.numerator, b.denominator);
    Product(b.numerator, a.denominator);
    assert x * ad == an && y * bd == bn;
    assert an * bd == x * (ad * bd) && bn * ad == y * (ad * bd);
    Scaled(x, y, ad * bd);
  }

  lemma Scaled(x: real, y: real, z: real)
    requires z > 0.0
    ensures (x * z < y * z <==> x < y) && (x * z == y * z <==> x == y)
  {
  }

  /** Longest since its last attempt, the smaller key if that is the same. */
  ghost predicate WaitsLonger(a: Key, b: Key, checks: map<Key, Check>)
    requires a in checks && b in checks
  {
    checks[a].lastAttempt < checks[b].lastAttempt || (checks[a].lastAttempt == checks[b].lastAttempt && a < b)
  }

  /** A clear order whose remaining seconds are known. */
  ghost predicate IsPressed(k: Key, orders: map<Key, Order>, checks: map<Key, Check>, selected: set<Key>, now: int,
                            rate: Option<Rate>, verified: bool)
  {
    && IsCertain(k, orders, checks, selected, now) && checks[k].verified == verified
    && HasSecondsLeft(orders[k], checks[k], now, rate)
  }

  /** The least seconds left, and of those the longest waiting. */
  ghost predicate IsMostPressed(b: Key, orders: map<Key, Order>, checks: map<Key, Check>, selected: set<Key>, now: int,
                                rate: Option<Rate>, verified: bool)
  {
    && IsPressed(b, orders, checks, selected, now, rate, verified)
    && forall k :: k != b && IsPressed(k, orders, checks, selected, now, rate, verified) ==>
      var x, y := SecondsLeft(orders[b], checks[b], now, rate), SecondsLeft(orders[k], checks[k], now, rate);
      x < y || (x == y && WaitsLonger(b, k, checks))
  }

  ghost predicate IsRipeOrder(k: Key, orders: map<Key, Order>, checks: map<Key, Check>, selected: set<Key>, now: int) {
    IsCertain(k, orders, checks, selected, now) && IsRipe(checks[k], now)
  }

  /** The focus lane: a freshly liquidatable order if there is one, the longest waiting of
      them; else the verified order with the fewest seconds left; else the unverified one. */
  ghost predicate IsFocusChoice(choice: Option<Key>, orders: map<Key, Order>, checks: map<Key, Check>,
                                selected: set<Key>, now: int, rate: Option<Rate>)
  {
    if exists k :: IsRipeOrder(k, orders, checks, selected, now) then
      && choice.Some? && IsRipeOrder(choice.value, orders, checks, selected, now)
      && forall k :: k != choice.value && IsRipeOrder(k, orders, checks, selected, now) ==>
        WaitsLonger(choice.value, k, checks)
    else if exists k :: IsPressed(k, orders, checks, selected, now, rate, true) then
      choice.Some? && IsMostPressed(choice.value, orders, checks, selected, now, rate, true)
    else if exists k :: IsPressed(k, orders, checks, selected, now, rate, false) then
      choice.Some? && IsMostPressed(choice.value, orders, checks, selected, now, rate, false)
    else
      choice.None?
  }

  /** The exploring lane: the order that has waited longest for its turn. */
  ghost predicate IsExploreChoice(choice: Option<Key>, orders: map<Key, Order>, checks: map<Key, Check>,
                                  selected: set<Key>, now: int)
  {
    match choice
    case None => forall k :: !MayBeTried(k, orders, checks, selected, now)
    case Some(b) =>
      && MayBeTried(b, orders, checks, selected, now)
      && forall k :: k != b && MayBeTried(k, orders, checks, selected, now) ==>
        checks[b].fairSince < checks[k].fairSince || (checks[b].fairSince == checks[k].fairSince && b < k)
  }

  function KeyOf(c: Option<Choice>): Option<Key> { if c.Some? then Some(c.value.key) else None }

  /** What an order offers the focus lane, on its fields. */
  lemma OfferMeans(k: Key, orders: map<Key, Order>, checks: map<Key, Check>, selected: set<Key>, now: int,
                   rate: Option<Rate>)
    requires k in orders && k in checks && k !in selected
    ensures var c, e := Offer(Focus, k, orders[k], checks[k], now, rate), checks[k];
      var ripe := IsRipeOrder(k, orders, checks, selected, now);
      && (c.Some? <==> ripe || IsPressed(k, orders, checks, selected, now, rate, e.verified))
      && (c.Some? ==>
        && c.value.rank == (if ripe then 0 else if e.verified then 1 else 2)
        && (c.value.pressure.Some? <==> !ripe) && IsComparable(c.value, Focus)
        && c.value.key == k && c.value.lastAttempt == e.lastAttempt)
      && (c.Some? && !ripe ==>
        c.value.pressure.value.numerator as real / c.value.pressure.value.denominator as real
        == SecondsLeft(orders[k], e, now, rate))
  {
    PressureIsSeconds(orders[k], checks[k], now, rate);
    OfferIsComparable(Focus, k, orders[k], checks[k], now, rate);
    hide PressureFor, HasSecondsLeft, SecondsLeft;
  }

  /** The choice beats `k`, on the fields. */
  ghost predicate IsBeaten(best: Option<Choice>, k: Key, orders: map<Key, Order>, checks: map<Key, Check>,
                           selected: set<Key>, now: int, rate: Option<Rate>)
  {
    var ripe := IsRipeOrder(k, orders, checks, selected, now);
    k in checks && (ripe || IsPressed(k, orders, checks, selected, now, rate, checks[k].verified)) ==>
      && best.Some? && best.value.key in orders && best.value.key in checks
      && var b := best.value.key;
      var first := IsRipeOrder(b, orders, checks, selected, now);
      && (ripe ==> first) && (!first ==> IsPressed(b, orders, checks, selected, now, rate, checks[b].verified))
      && (!first && checks[k].verified ==> checks[b].verified)
      && (ripe && k != b ==> WaitsLonger(b, k, checks))
      && (!first && checks[k].verified == checks[b].verified && k != b ==>
        var x, y := SecondsLeft(orders[b], checks[b], now, rate), SecondsLeft(orders[k], checks[k], now, rate);
        x < y || (x == y && WaitsLonger(b, k, checks)))
  }

  lemma CannotBeat(best: Option<Choice>, k: Key, orders: map<Key, Order>, checks: map<Key, Check>, selected: set<Key>,
                   now: int, rate: Option<Rate>)
    requires orders.Keys <= checks.Keys && IsChoice(best, Focus, orders, checks, orders.Keys, selected, now, rate)
    requires k in orders && k !in selected
    ensures IsBeaten(best, k, orders, checks, selected, now, rate)
  {
    OfferMeans(k, orders, checks, selected, now, rate);
    var c := Offer(Focus, k, orders[k], checks[k], now, rate);
    if c.Some? {
      assert IsOffered(c.value, Focus, orders, checks, selected, now, rate);
      var b := best.value;
      OfferMeans(b.key, orders, checks, selected, now, rate);
      if b.key != k {
        assert Less(b, c.value);
        if b.pressure.Some? && c.value.pressure.Some? {
          LessIsFewerSeconds(b.pressure.value, c.value.pressure.value);
        }
      }
    }
    hide Offer, IsChoice, HasSecondsLeft, SecondsLeft, IsRipe, IsCertain;
  }

  lemma FocusMeans(best: Option<Choice>, orders: map<Key, Order>, checks: map<Key, Check>, selected: set<Key>, now: int,
                   rate: Option<Rate>)
    requires orders.Keys <= checks.Keys && IsChoice(best, Focus, orders, checks, orders.Keys, selected, now, rate)
    ensures IsFocusChoice(KeyOf(best), orders, checks, selected, now, rate)
  {
    forall k | k in orders && k !in selected ensures IsBeaten(best, k, orders, checks, selected, now, rate) {
      CannotBeat(best, k, orders, checks, selected, now, rate);
    }
    if best.Some? {
      OfferMeans(best.value.key, orders, checks, selected, now, rate);
    }
    hide Offer, IsChoice, HasSecondsLeft, SecondsLeft, WaitsLonger, IsRipe;
  }

  lemma ExploreMeans(best: Option<Choice>, orders: map<Key, Order>, checks: map<Key, Check>, selected: set<Key>,
                     now: int, rate: Option<Rate>)
    requires orders.Keys <= checks.Keys && IsChoice(best, Explore, orders, checks, orders.Keys, selected, now, rate)
    ensures IsExploreChoice(KeyOf(best), orders, checks, selected, now)
  {
    forall k | MayBeTried(k, orders, checks, selected, now)
      ensures Offer(Explore, k, orders[k], checks[k], now, rate).Some?
    {
      var c := Offer(Explore, k, orders[k], checks[k], now, rate).value;
      assert IsOffered(c, Explore, orders, checks, selected, now, rate);
    }
  }

  /** Scans the orders, in whatever sequence, for the best offer of a lane. */
  method Choose(lane: Lane, orders: map<Key, Order>, checks: map<Key, Check>, selected: set<Key>, now: int,
                rate: Option<Rate>)
    returns (best: Option<Choice>)
    requires orders.Keys <= checks.Keys
    ensures IsChoice(best, lane, orders, checks, orders.Keys, selected, now, rate)
    ensures lane == Focus ==> IsFocusChoice(KeyOf(best), orders, checks, selected, now, rate)
    ensures lane == Explore ==> IsExploreChoice(KeyOf(best), orders, checks, selected, now)
  {
    hide Offer, Less, IsFocusChoice, IsExploreChoice;
    best := None;
    var rest := orders.Keys;
    while rest != {}
      invariant rest <= orders.Keys
      invariant IsChoice(best, lane, orders, checks, orders.Keys - rest, selected, now, rate)
      decreases rest
    {
      var k :| k in rest;
      var offer := if k in selected then None else Offer(lane, k, orders[k], checks[k], now, rate);
      ghost var was := best;
      if offer.Some? && (best.None? || Less(offer.value, best.value)) {
        best := offer;
      }
      ChoiceSteps(was, offer, best, lane, orders, checks, orders.Keys - rest, k, selected, now, rate);
      assert orders.Keys - rest + {k} == orders.Keys - (rest - {k});
      rest := rest - {k};
    }
    assert orders.Keys - rest == orders.Keys;
    if lane == Focus {
      FocusMeans(best, orders, checks, selected, now, rate);
    } else {
      ExploreMeans(best, orders, checks, selected, now, rate);
    }
  }

  /** The sequence of the scan does not matter. */
  lemma ChoiceIsUnique(a: Option<Choice>, b: Option<Choice>, lane: Lane, orders: map<Key, Order>,
                       checks: map<Key, Check>,
                       selected: set<Key>, now: int, rate: Option<Rate>)
    requires IsChoice(a, lane, orders, checks, orders.Keys, selected, now, rate)
    requires IsChoice(b, lane, orders, checks, orders.Keys, selected, now, rate)
    ensures a == b
  {
    if a.Some? && b.Some? && a != b {
      OfferIsComparable(lane, a.value.key, orders[a.value.key], checks[a.value.key], now, rate);
      OfferIsComparable(lane, b.value.key, orders[b.value.key], checks[b.value.key], now, rate);
      LessIsTotal(a.value, b.value, lane);
    }
  }

  // ----------------------------------------------------------------------- rounds

  datatype Member = Member(
    slot: nat, key: Key, generation: nat, requested: Lane, actual: Lane, selectedAt: int, reason: string,
    outcome: string)

  datatype Round = Round(
    started: int, slots: nat, selected: seq<Key>, members: seq<Member>, active: Option<Member>, continuing: bool,
    closing: string)

  /** What a closed round publishes. */
  datatype Batch = Batch(
    members: seq<Member>, focusCount: nat, exploreCount: nat, memberCount: nat, started: int, finished: int,
    reason: string, partial: bool)

  function LaneOf(slot: nat): Lane { if slot % 5 == 0 then Explore else Focus }

  function CountOf(members: seq<Member>, lane: Lane): nat {
    if members == [] then 0
    else CountOf(members[..|members| - 1], lane) + if members[|members| - 1].actual == lane then 1 else 0
  }

  /** What a reader of the batch checks of member `i`. */
  ghost predicate IsSound(b: Batch, i: nat)
    requires i < |b.members|
  {
    var m := b.members[i];
    && m.slot == i + 1 && m.requested == LaneOf(m.slot) && m.selectedAt >= b.started && m.outcome != ""
    && forall j :: 0 <= j < i ==> b.members[j].key != m.key
  }

  ghost predicate IsValidBatch(b: Batch) {
    && b.memberCount == |b.members| <= 50 && b.finished >= b.started && b.reason != ""
    && (forall i :: 0 <= i < |b.members| ==> IsSound(b, i))
    && b.focusCount == CountOf(b.members, Focus) && b.exploreCount == CountOf(b.members, Explore)
  }

  ghost function KeysBefore(b: Batch, i: nat): set<Key>
    requires i <= |b.members|
  {
    set j | 0 <= j < i :: b.members[j].key
  }

  lemma SoundTells(b: Batch, i: nat)
    requires i < |b.members|
    ensures var m := b.members[i];
      IsSound(b, i) <==> m.slot == i + 1 && m.selectedAt >= b.started && m.key !in KeysBefore(b, i) && m.outcome != ""
                         && m.requested == LaneOf(m.slot)
    ensures KeysBefore(b, i + 1) == KeysBefore(b, i) + {b.members[i].key}
  {
  }

  /** The reader's check. */
  method Validate(b: Batch) returns (ok: bool)
    ensures ok <==> IsValidBatch(b)
  {
    ok := b.memberCount == |b.members| <= 50 && b.finished >= b.started && b.reason != "";
    var seen: set<Key>, focus, explore, i := {}, 0, 0, 0;
    while ok && i < |b.members|
      invariant 0 <= i <= |b.members|
      invariant ok ==> b.memberCount == |b.members| <= 50 && b.finished >= b.started && b.reason != ""
      invariant !ok ==> !IsValidBatch(b)
      invariant ok ==> forall j :: 0 <= j < i ==> IsSound(b, j)
      invariant seen == KeysBefore(b, i)
      invariant focus == CountOf(b.members[..i], Focus) && explore == CountOf(b.members[..i], Explore)
      decreases |b.members| - i
    {
      var m := b.members[i];
      assert b.members[..i + 1][..i] == b.members[..i];
      SoundTells(b, i);
      hide IsSound, KeysBefore;
      if m.slot != i + 1 || m.selectedAt < b.started || m.key in seen || m.outcome == ""
         || m.requested != LaneOf(m.slot)
      {
        ok := false;
      }
      seen := seen + {m.key};
      if m.actual == Focus {
        focus := focus + 1;
      } else {
        explore := explore + 1;
      }
      i := i + 1;
    }
    if ok {
      assert b.members[..i] == b.members;
      ok := b.focusCount == focus && b.exploreCount == explore;
    }
  }

  ghost predicate AreDistinct(keys: seq<Key>) { forall i, j :: 0 <= i < j < |keys| ==> keys[i] != keys[j] }

  ghost predicate IsMember(m: Member, r: Round, slot: nat, clock: int) {
    && 0 < slot <= |r.selected| && m.slot == slot && m.key == r.selected[slot - 1]
    && m.requested == LaneOf(slot) && r.started <= m.selectedAt <= clock
  }

  /** A round in progress: every slot given so far has its member, in order. */
  ghost predicate IsRound(r: Round, clock: int) {
    && r.slots == |r.selected| <= 50 && AreDistinct(r.selected) && r.started <= clock
    && |r.members| + (if r.active.Some? then 1 else 0) == r.slots
    && (forall i :: 0 <= i < |r.members| ==> IsMember(r.members[i], r, i + 1, clock) && r.members[i].outcome != "")
    && (r.active.Some? ==> IsMember(r.active.value, r, r.slots, clock))
    && (r.continuing ==> r.active.Some?)
  }

  /** The round with one more slot given away. */
  function Given(r: Round, m: Member): Round {
    r.(slots := m.slot, selected := r.selected + [m.key], active := Some(m))
  }

  function Finished(r: Round, outcome: string): Round
    requires r.active.Some?
  {
    r.(members := r.members + [r.active.value.(outcome := outcome)], active := None, continuing := false)
  }

  function Closed(r: Round, now: int, reason: string): Batch {
    Batch(r.members, CountOf(r.members, Focus), CountOf(r.members, Explore), |r.members|, r.started, now, reason,
          reason != "round_limit")
  }

  ghost function KeysOf(members: seq<Member>): seq<Key> {
    seq(|members|, i requires 0 <= i < |members| => members[i].key)
  }

  lemma RoundInTime(r: Round, clock: int, now: int)
    requires IsRound(r, clock) && clock <= now
    ensures IsRound(r, now)
  {
  }

  lemma GivenIsRound(r: Round, m: Member, now: int)
    requires IsRound(r, now) && r.active.None? && r.slots < 50
    requires m.slot == r.slots + 1 && m.key !in r.selected
    requires m.requested == LaneOf(m.slot) && r.started <= m.selectedAt <= now
    ensures IsRound(Given(r, m), now)
  {
  }

  lemma FinishedIsRound(r: Round, outcome: string, now: int)
    requires IsRound(r, now) && r.active.Some? && outcome != ""
    ensures IsRound(Finished(r, outcome), now)
  {
  }

  /** What a round publishes when it is closed passes its readers' check. */
  lemma ClosedIsValid(r: Round, now: int, reason: string)
    requires IsRound(r, now) && r.active.None? && reason != ""
    ensures IsValidBatch(Closed(r, now, reason)) && KeysOf(r.members) == r.selected
  {
    var b := Closed(r, now, reason);
    forall i | 0 <= i < |b.members| ensures IsSound(b, i) {
      assert IsMember(r.members[i], r, i + 1, now);
      forall j | 0 <= j < i ensures b.members[j].key != b.members[i].key {
        assert IsMember(r.members[j], r, j + 1, now);
      }
    }
    forall i | 0 <= i < |r.members| ensures r.members[i].key == r.selected[i] {
      assert IsMember(r.members[i], r, i + 1, now);
    }
  }
}
