// The source quota: four integers shared by every process that uses one provider.
// They pace the admissions, hold back after failures and give live probes a short
// priority lease that must yield to background work.

module Quota {
  import opened Options

  const SECOND: int := 1_000_000_000

  const MINUTE: int := 60 * SECOND

  function Min(a: int, b: int): int { if a < b then a else b }

  function Max(a: int, b: int): int { if a > b then a else b }

  /** `next`: the earliest next admission. `cooldown`: the provider's backoff.
      `priority`: positive, the end of the running lease; negative, minus the end of the
      span in which urgent requests must yield. `failures`: the escalation. */
  datatype State = State(next: int, cooldown: int, priority: int, failures: int)

  /** The empty file. */
  const FRESH := State(0, 0, 0, 0)

  function Ready(s: State): int { Max(s.cooldown, s.next) }

  datatype Request = Request(urgent: bool, discovery: bool, members: int, deadline: Option<int>)

  datatype Answer = Refused | Wait(time: int) | Admitted

  datatype Report = Success | Local | Failure(retryAfter: Option<int>)

  /** One locked update of the file. */
  datatype Event = Try(now: int, request: Request) | Told(now: int, report: Report)

  // ------------------------------------------------------- one update of the file

  /** How an urgent request first treats a lease that is over, or a yield. */
  function Yielded(s: State, now: int, interval: int): State {
    var due := if s.priority > 0 && now >= s.priority then -(Max(now, Ready(s)) + interval) else s.priority;
    if due < 0 then
      var until := if Ready(s) >= -due then Ready(s) + interval else -due;
      s.(priority := if now < until then -until else 0)
    else
      s.(priority := due)
  }

  /** When the request could be admitted. */
  function Due(s: State, request: Request): int {
    if request.urgent then if s.priority < 0 then Max(Ready(s), -s.priority) else Ready(s)
    else if s.priority > 0 then Max(Ready(s), s.priority) else Ready(s)
  }

  function Lease(now: int, deadline: Option<int>, interval: int): int {
    var lease := Min(4 * SECOND, 10 * interval);
    if deadline.Some? then Min(lease, Max(deadline.value - now, 0)) else lease
  }

  function Take(s: State, now: int, request: Request, interval: int): State {
    State(now + request.members * interval, s.cooldown,
          if request.urgent && s.priority == 0 then now + Lease(now, request.deadline, interval)
          else if request.urgent then s.priority
          else 0,
          s.failures)
  }

  function Asked(s: State, now: int, request: Request, interval: int): (State, Answer) {
    if request.discovery && s.cooldown > now then (s, Refused)
    else
      var y := if request.urgent then Yielded(s, now, interval) else s;
      if Due(y, request) > now then (y, Wait(Due(y, request) - now))
      else (Take(y, now, request, interval), Admitted)
  }

  function Pause(failures: int, retryAfter: Option<int>): int {
    var base := 5 * SECOND * (if failures <= 1 then 1 else if failures == 2 then 2 else if failures == 3 then 4 else 8);
    if retryAfter.Some? then Max(base, Min(retryAfter.value, 5 * MINUTE)) else base
  }

  function Heard(s: State, now: int, report: Report): State {
    match report
    case Local => s
    case Success => if now >= s.cooldown + MINUTE then s.(failures := 0) else s
    case Failure(retryAfter) =>
      var failures := Min(s.failures + 1, 4);
      s.(failures := failures, cooldown := Max(s.cooldown, now + Pause(failures, retryAfter)))
  }

  function Next(s: State, e: Event, interval: int): State {
    match e
    case Try(now, request) => Asked(s, now, request, interval).0
    case Told(now, report) => Heard(s, now, report)
  }

  predicate IsAdmitted(s: State, e: Event, interval: int) {
    e.Try? && Asked(s, e.now, e.request, interval).1 == Admitted
  }

  // -------------------------------------------------------------------- the runs

  /** A run from the empty file, by a clock that never goes back. */
  datatype Run = Run(states: seq<State>, events: seq<Event>, interval: int)
  {
    ghost predicate Valid() {
      && interval > 0 && |states| == |events| + 1 && states[0] == FRESH
      && (forall k :: 0 <= k < |events| ==> states[k + 1] == Next(states[k], events[k], interval))
      && (forall k :: 0 <= k < |events| ==> events[k].now > 0 && (events[k].Try? ==> events[k].request.members >= 1))
      && (forall k, l :: 0 <= k < l < |events| ==> events[k].now <= events[l].now)
    }

    predicate Admits(k: nat)
      requires k < |events| < |states|
    {
      IsAdmitted(states[k], events[k], interval)
    }

    predicate AdmitsBackground(k: nat)
      requires k < |events| < |states|
    {
      Admits(k) && !events[k].request.urgent
    }

    predicate AdmitsUrgent(k: nat)
      requires k < |events| < |states|
    {
      Admits(k) && events[k].request.urgent
    }

    /** An urgent admission that is not covered by a running lease opens one. */
    predicate Opens(k: nat)
      requires k < |events| < |states|
    {
      AdmitsUrgent(k) && !(0 < states[k].priority && events[k].now < states[k].priority)
    }

    /** The end of the lease opened at `k`. */
    function End(k: nat): int
      requires k < |events| && events[k].Try?
    {
      events[k].now + Lease(events[k].now, events[k].request.deadline, interval)
    }
  }

  // ------------------------------------------------------------ pacing and backoff

  lemma StepKeepsPace(s: State, e: Event, interval: int)
    requires interval > 0 && (e.Try? ==> e.request.members >= 1)
    ensures Next(s, e, interval).next >= s.next && Next(s, e, interval).cooldown >= s.cooldown
    ensures IsAdmitted(s, e, interval) ==>
      e.now >= Ready(s) && Next(s, e, interval).next == e.now + e.request.members * interval
  {
    if e.Try? && IsAdmitted(s, e, interval) {
      assert e.request.members * interval >= 0;
    }
  }

  lemma {:induction false} PaceGrows(r: Run, k: nat, l: nat)
    requires r.Valid() && k <= l <= |r.events|
    ensures r.states[k].next <= r.states[l].next && r.states[k].cooldown <= r.states[l].cooldown
    decreases l - k
  {
    if k < l {
      PaceGrows(r, k, l - 1);
      StepKeepsPace(r.states[l - 1], r.events[l - 1], r.interval);
    }
  }

  /** An admission follows every earlier one by at least its members' intervals. */
  lemma AdmissionsAreSpaced(r: Run, k: nat, l: nat)
    requires r.Valid() && k < l < |r.events| && r.Admits(k) && r.Admits(l)
    ensures r.events[l].now >= r.events[k].now + r.events[k].request.members * r.interval
  {
    StepKeepsPace(r.states[k], r.events[k], r.interval);
    StepKeepsPace(r.states[l], r.events[l], r.interval);
    PaceGrows(r, k + 1, l);
  }

  /** No admission before the pause that any earlier failure imposed is over. */
  lemma NoneWhileCoolingDown(r: Run, k: nat, l: nat)
    requires r.Valid() && k < l < |r.events| && r.events[k].Told? && r.events[k].report.Failure? && r.Admits(l)
    ensures r.events[l].now >= r.states[l].cooldown
    ensures r.events[l].now >= r.events[k].now + Pause(r.states[k + 1].failures, r.events[k].report.retryAfter)
  {
    StepKeepsPace(r.states[l], r.events[l], r.interval);
    PaceGrows(r, k + 1, l);
  }

  /** The pause after the first failure is five seconds and doubles with each further one, up
      to forty; the provider may ask for more, up to five minutes. */
  lemma PauseDoubles(failures: nat, retryAfter: Option<int>)
    requires 1 <= failures <= 4
    ensures Pause(1, None) == 5 * SECOND
    ensures failures < 4 ==> Pause(failures + 1, None) == 2 * Pause(failures, None)
    ensures retryAfter.Some? ==>
      var pause := Pause(failures, retryAfter);
      && pause >= Pause(failures, None) && (pause >= retryAfter.value || pause == 5 * MINUTE)
      && (pause == Pause(failures, None) || pause == 5 * MINUTE < retryAfter.value || pause == retryAfter.value)
  {
  }

  /** Only a success a full minute after the backoff resets the escalation. */
  predicate IsReset(s: State, e: Event) { e.Told? && e.report.Success? && e.now >= s.cooldown + MINUTE }

  function FailuresIn(events: seq<Event>, k: nat, l: nat): nat
    requires k <= l <= |events|
    decreases l - k
  {
    if k == l then 0
    else FailuresIn(events, k, l - 1) + if events[l - 1].Told? && events[l - 1].report.Failure? then 1 else 0
  }

  lemma StepEscalates(s: State, e: Event, interval: int)
    requires s.failures <= 4 && !IsReset(s, e)
    ensures Next(s, e, interval).failures == if e.Told? && e.report.Failure? then Min(s.failures + 1, 4) else s.failures
  {
  }

  /** A success a full minute past the backoff starts the count afresh. */
  lemma ResetStartsAfresh(r: Run, k: nat)
    requires r.Valid() && k < |r.events| && IsReset(r.states[k], r.events[k])
    ensures r.states[k + 1].failures == 0
  {
  }

  lemma {:induction false} FailuresEscalate(r: Run, k: nat, l: nat)
    requires r.Valid() && k <= l <= |r.events| && 0 <= r.states[k].failures <= 4
    requires forall m :: k <= m < l ==> !IsReset(r.states[m], r.events[m])
    ensures r.states[l].failures == Min(r.states[k].failures + FailuresIn(r.events, k, l), 4)
    decreases l - k
  {
    if k < l {
      FailuresEscalate(r, k, l - 1);
      assert r.states[l - 1 + 1] == Next(r.states[l - 1], r.events[l - 1], r.interval);
      StepEscalates(r.states[l - 1], r.events[l - 1], r.interval);
      hide Next, IsReset, Run.Valid;
    }
  }

  // --------------------------------------------------------------- priority leases

  /** A step that opens no lease leaves the running one as it is, or ends it. */
  lemma StepKeepsLease(s: State, e: Event, interval: int)
    requires interval > 0 && e.now > 0
    requires Next(s, e, interval).priority > 0
    ensures IsAdmitted(s, e, interval) && e.request.urgent && !(0 < s.priority && e.now < s.priority) ==>
      Next(s, e, interval).priority == e.now + Lease(e.now, e.request.deadline, interval)
    ensures !(IsAdmitted(s, e, interval) && e.request.urgent && !(0 < s.priority && e.now < s.priority)) ==>
      Next(s, e, interval).priority == s.priority && !(IsAdmitted(s, e, interval) && !e.request.urgent)
  {
  }

  lemma LeaseStep(r: Run, k: nat)
    requires r.Valid() && k < |r.events| && r.states[k + 1].priority > 0
    ensures r.Opens(k) ==> r.states[k + 1].priority == r.End(k)
    ensures !r.Opens(k) ==> r.states[k].priority == r.states[k + 1].priority && !r.AdmitsBackground(k)
  {
    StepKeepsLease(r.states[k], r.events[k], r.interval);
  }

  /** Event `i` opened the lease that is running before event `m`. */
  ghost predicate IsLeaseOf(r: Run, i: nat, m: nat)
    requires r.Valid() && m <= |r.events|
  {
    && i < m && r.Opens(i) && r.states[m].priority == r.End(i)
    && forall k :: i < k < m ==> !r.AdmitsBackground(k) && !r.Opens(k)
  }

  lemma LeaseGoesOn(r: Run, i: nat, m: nat)
    requires r.Valid() && m < |r.events| && IsLeaseOf(r, i, m) && r.states[m + 1].priority > 0 && !r.Opens(m)
    ensures IsLeaseOf(r, i, m + 1)
  {
    LeaseStep(r, m);
  }

  lemma LeaseStarts(r: Run, m: nat)
    requires r.Valid() && m < |r.events| && r.Opens(m) && r.states[m + 1].priority > 0
    ensures IsLeaseOf(r, m, m + 1)
  {
    LeaseStep(r, m);
  }

  /** A running lease was opened by some admission. */
  lemma {:induction false} LeaseOf(r: Run, m: nat) returns (i: nat)
    requires r.Valid() && m <= |r.events| && r.states[m].priority > 0
    ensures IsLeaseOf(r, i, m)
    decreases m
  {
    hide IsLeaseOf, Run.Opens;
    i := m - 1;
    if r.Opens(m - 1) {
      LeaseStarts(r, m - 1);
    } else {
      LeaseStep(r, m - 1);
      i := LeaseOf(r, m - 1);
      LeaseGoesOn(r, i, m - 1);
    }
  }

  /** Four seconds, ten intervals or the caller's own deadline, whichever is first. */
  ghost predicate IsLeaseEnd(now: int, deadline: Option<int>, interval: int, end: int) {
    && end <= now + 4 * SECOND && end <= now + 10 * interval
    && (deadline.Some? ==> end <= deadline.value || end == now)
    && (end == now + 4 * SECOND || end == now + 10 * interval
        || (deadline.Some? && (end == deadline.value || (end == now && deadline.value <= now))))
  }

  /** Every urgent admission lies in a lease of bounded length, whose end was fixed when
      it was opened. */
  lemma UrgentIsInALease(r: Run, k: nat) returns (i: nat)
    requires r.Valid() && k < |r.events| && r.AdmitsUrgent(k)
    ensures i <= k && r.Opens(i) && r.events[i].now <= r.events[k].now
    ensures i < k ==> r.events[k].now < r.End(i)
    ensures IsLeaseEnd(r.events[i].now, r.events[i].request.deadline, r.interval, r.End(i))
    ensures forall l :: i < l < k ==> !r.AdmitsBackground(l) && !r.Opens(l)
  {
    i := k;
    if !r.Opens(k) {
      i := LeaseOf(r, k);
    }
  }

  // ------------------------------------------------------ what the lease is good for

  /** No time before `until` is one at which the caller is to look again. */
  ghost predicate IsHeldBack(answer: Answer, now: int, until: int) {
    answer.Refused? || (answer.Wait? && now + answer.time >= until)
  }

  /** The answer to a request that no lease and no yield concerns, or that is to wait for the
      end of one: `held`. */
  ghost predicate IsPaced(s: State, now: int, q: Request, held: int, answer: Answer) {
    if q.discovery && now < s.cooldown then answer == Refused
    else if now >= s.next && now >= s.cooldown && now >= held then answer == Admitted
    else
      && answer.Wait? && now + answer.time >= s.next && now + answer.time >= s.cooldown && now + answer.time >= held
      && (now + answer.time == s.next || now + answer.time == s.cooldown || now + answer.time == held)
  }

  /** What a background request is told: it waits for the pace, for the backoff and for
      the end of a running lease. */
  lemma BackgroundIsAnswered(s: State, now: int, q: Request, interval: int)
    requires !q.urgent && now > 0
    ensures IsPaced(s, now, q, if s.priority > 0 then s.priority else s.next, Asked(s, now, q, interval).1)
  {
  }

  /** What an urgent request is told: inside a lease, or if there is none, it waits for the
      pace and the backoff alone. Past the end of a lease it yields for an interval, and once
      more for an interval when the quota was not available in the meantime. */
  lemma UrgentIsAnswered(s: State, now: int, q: Request, interval: int)
    requires q.urgent && now > 0 && interval > 0
    ensures var answer := Asked(s, now, q, interval).1;
      && (s.priority == 0 || now < s.priority ==> IsPaced(s, now, q, s.next, answer))
      && (0 < s.priority <= now ==>
          && IsHeldBack(answer, now, now + interval)
          && IsHeldBack(answer, now, s.next + interval) && IsHeldBack(answer, now, s.cooldown + interval))
      && (s.priority < 0 && s.next < -s.priority && s.cooldown < -s.priority ==>
          IsPaced(s, now, q, -s.priority, answer))
      && (s.priority < 0 && (s.next >= -s.priority || s.cooldown >= -s.priority) ==>
          IsPaced(s, now, q, Max(s.next, s.cooldown) + interval, answer))
  {
  }

  /** Until its end a lease stays as it was opened. */
  lemma {:induction false} LeaseRuns(r: Run, i: nat, m: nat)
    requires r.Valid() && i < m < |r.events| && r.Opens(i) && r.events[m].now < r.End(i)
    requires forall k :: i < k < m ==> !r.Opens(k)
    ensures r.states[m].priority == r.End(i) > r.events[m].now > 0
    decreases m
  {
    if m == i + 1 {
      OpenedUntil(r, i);
    } else {
      LeaseRuns(r, i, m - 1);
      LeaseIsKept(r.states[m - 1], r.events[m - 1], r.interval);
      assert r.states[m] == Next(r.states[m - 1], r.events[m - 1], r.interval);
    }
  }

  lemma OpenedUntil(r: Run, i: nat)
    requires r.Valid() && i < |r.events| && r.Opens(i)
    ensures r.states[i + 1].priority == r.End(i)
  {
  }

  lemma LeaseIsKept(s: State, e: Event, interval: int)
    requires 0 < e.now < s.priority
    ensures Next(s, e, interval).priority == s.priority
  {
  }

  /** Over every run: until a lease ends no background request is admitted, and whoever asks
      is told to wait at least to its end; urgent requests wait for the pace and the backoff
      alone. */
  lemma LeaseGivesPriority(r: Run, i: nat, l: nat)
    requires r.Valid() && i < l < |r.events| && r.Opens(i) && r.events[l].now < r.End(i)
    requires forall k :: i < k < l ==> !r.Opens(k)
    ensures !r.AdmitsBackground(l)
    ensures var s, e := r.states[l], r.events[l];
      e.Try? ==>
        var answer := Asked(s, e.now, e.request, r.interval).1;
        if e.request.urgent then IsPaced(s, e.now, e.request, s.next, answer)
        else IsHeldBack(answer, e.now, r.End(i))
  {
    LeaseRuns(r, i, l);
    var s, e := r.states[l], r.events[l];
    if e.Try? {
      if e.request.urgent {
        UrgentIsAnswered(s, e.now, e.request, r.interval);
      } else {
        BackgroundIsAnswered(s, e.now, e.request, r.interval);
      }
    }
    hide Asked, Run.End, Run.Opens;
  }

  /** A provider failure after `i` that pushed the next admission beyond `a`. */
  ghost predicate Crossed(r: Run, i: nat, m: nat, a: int)
    requires r.Valid() && m <= |r.events|
  {
    exists k :: i < k < m && r.events[k].Told? && r.events[k].report.Failure?
        && Ready(r.states[k]) <= a < Ready(r.states[k + 1])
  }

  /** Since the lease opened at `i`, urgent requests have either lived on it or been
      yielding from a point on at which background work was free to go. */
  ghost predicate IsSpell(r: Run, i: nat, m: nat)
    requires r.Valid() && i < m <= |r.events| && r.events[i].Try?
  {
    || r.states[m].priority == r.End(i)
    || (var a := -r.states[m].priority - r.interval;
        r.states[m].priority < 0 && r.End(i) <= a && (Ready(r.states[m]) <= a || Crossed(r, i, m, a)))
  }

  lemma {:induction false} SpellHolds(r: Run, i: nat, m: nat)
    requires r.Valid() && i < m <= |r.events| && r.Opens(i)
    requires forall k :: i < k < m ==> !r.AdmitsBackground(k) && !r.Opens(k)
    ensures IsSpell(r, i, m)
    decreases m
  {
    if m > i + 1 {
      SpellHolds(r, i, m - 1);
      SpellSteps(r, i, m - 1);
    }
  }

  lemma SpellSteps(r: Run, i: nat, m: nat)
    requires r.Valid() && i < m < |r.events| && r.Opens(i) && IsSpell(r, i, m)
    requires !r.AdmitsBackground(m) && !r.Opens(m)
    ensures IsSpell(r, i, m + 1)
  {
    var s, e := r.states[m], r.events[m];
    var t := Next(s, e, r.interval);
    assert r.states[m + 1] == t;
    var a := -s.priority - r.interval;
    if s.priority < 0 && t.priority == s.priority {
      if Crossed(r, i, m, a) {
        var k :| i < k < m && r.events[k].Told? && r.events[k].report.Failure?
            && Ready(r.states[k]) <= a < Ready(r.states[k + 1]);
        assert Crossed(r, i, m + 1, a);
      } else if Ready(t) > a {
        assert e.Told? && e.report.Failure?;
        assert Crossed(r, i, m + 1, a);
      }
    }
  }

  /** Where the span before a new lease starts. */
  lemma YieldedBefore(s: State, now: int, q: Request, interval: int) returns (a: int)
    requires interval > 0 && q.urgent && Asked(s, now, q, interval).1 == Admitted
    requires !(0 < s.priority && now < s.priority)
    ensures s.priority < 0 ==>
      a + interval <= now && -s.priority - interval <= a && (Ready(s) <= a || a == -s.priority - interval)
    ensures s.priority <= 0
  {
    a := if Ready(s) < -s.priority then -s.priority - interval else Ready(s);
  }

  lemma UrgentUsesTheLease(r: Run, i: nat, k: nat)
    requires r.Valid() && i < k < |r.events| && r.Opens(i) && r.AdmitsUrgent(k) && !r.Opens(k) && IsSpell(r, i, k)
    ensures r.events[k].now < r.End(i)
  {
  }

  lemma BackgroundMayGo(s: State, now: int, q: Request, interval: int)
    requires Ready(s) <= now && s.priority <= now && !q.urgent
    ensures Asked(s, now, q, interval).1 == Admitted
  {
  }

  /** Successive leases are separated by a background admission, or by a span of at
      least one interval with no urgent admission, in which a background request would
      have been admitted at once unless a provider failure fell into it. */
  lemma LeasesAreApart(r: Run, i: nat, j: nat) returns (a: int)
    requires r.Valid() && i < j < |r.events| && r.Opens(i) && r.Opens(j)
    requires forall k :: i < k < j ==> !r.Opens(k)
    requires forall k :: i < k < j ==> !r.AdmitsBackground(k)
    ensures r.End(i) <= a && a + r.interval <= r.events[j].now
    ensures forall k :: i < k < j && r.AdmitsUrgent(k) ==> r.events[k].now < a
    ensures
      || (forall k, now: int, q: Request :: i < k <= j && a <= now && !q.urgent ==>
            Asked(r.states[k], now, q, r.interval).1 == Admitted)
      || Crossed(r, i, j, a)
  {
    SpellHolds(r, i, j);
    assert r.End(i) > 0;
    a := YieldedBefore(r.states[j], r.events[j].now, r.events[j].request, r.interval);
    assert Ready(r.states[j]) <= a || Crossed(r, i, j, a);
    forall k | i < k <= j
      ensures IsSpell(r, i, k) && Ready(r.states[k]) <= Ready(r.states[j])
      ensures r.states[k].priority <= a
    {
      SpellHolds(r, i, k);
      PaceGrows(r, k, j);
    }
    hide Crossed, Run.Valid, Asked, Ready, Run.End, Run.Opens;
    forall k | i < k < j && r.AdmitsUrgent(k) ensures r.events[k].now < a {
      UrgentUsesTheLease(r, i, k);
    }
    if Ready(r.states[j]) <= a {
      forall k, now: int, q: Request | i < k <= j && a <= now && !q.urgent
        ensures Asked(r.states[k], now, q, r.interval).1 == Admitted
      {
        BackgroundMayGo(r.states[k], now, q, r.interval);
      }
    }
  }

  // -------------------------------------------------------------------- the quota

  datatype Outcome = Granted | TooLarge | Cooling | DeadlineExceeded | Cancelled

  function Then(r: Run, e: Event): Run
    requires |r.states| > 0
  {
    Run(r.states + [Next(r.states[|r.states| - 1], e, r.interval)], r.events + [e], r.interval)
  }

  /** The next event may come now. */
  ghost predicate IsTimely(r: Run, now: int) { now > 0 && forall e :: e in r.events ==> e.now <= now }

  lemma RunGoesOn(r: Run, e: Event)
    requires r.Valid() && IsTimely(r, e.now) && (e.Try? ==> e.request.members >= 1)
    ensures Then(r, e).Valid() && IsTimely(Then(r, e), e.now)
  {
    var t := Then(r, e);
    forall k | 0 <= k < |t.events| ensures t.states[k + 1] == Next(t.states[k], t.events[k], t.interval) {
      if k < |r.events| {
        assert t.states[k + 1] == r.states[k + 1] && t.events[k] == r.events[k];
      }
    }
  }

  /** How one look ends the wait, if it does. */
  ghost function Ending(s: State, now: int, request: Request, interval: int): Option<Outcome> {
    match Asked(s, now, request, interval).1
    case Refused => Some(Cooling)
    case Admitted => Some(Granted)
    case Wait(_) => if request.deadline.Some? && s.cooldown >= request.deadline.value then Some(DeadlineExceeded)
      else None
  }

  ghost predicate IsLook(r: Run, k: nat, request: Request, clock: seq<int>, ending: Option<Outcome>)
    requires k < |r.events| < |r.states|
  {
    && r.events[k].Try? && r.events[k].request == request && r.events[k].now in clock
    && Ending(r.states[k], r.events[k].now, request, r.interval) == ending
  }

  /** From event `n` on the run is one caller's wait. No look but the last one ends it, and
      without an end it looks at every given time. */
  ghost predicate IsWait(r: Run, n: nat, request: Request, clock: seq<int>, outcome: Outcome) {
    && |r.states| == |r.events| + 1 && n <= |r.events| <= n + |clock|
    && (outcome == Cancelled ==>
        |r.events| == n + |clock| && forall k :: n <= k < |r.events| ==> IsLook(r, k, request, clock, None))
    && (outcome != Cancelled ==>
        && n < |r.events| && IsLook(r, |r.events| - 1, request, clock, Some(outcome))
        && forall k :: n <= k < |r.events| - 1 ==> IsLook(r, k, request, clock, None))
  }

  /** The first `looked` looks did not end it. */
  ghost predicate IsWaiting(r: Run, n: nat, request: Request, clock: seq<int>, looked: nat) {
    && |r.states| == |r.events| + 1 && |r.events| == n + looked
    && forall k :: n <= k < |r.events| ==> IsLook(r, k, request, clock, None)
  }

  lemma WaitGoesOn(r: Run, n: nat, request: Request, clock: seq<int>, looked: nat)
    requires IsWaiting(r, n, request, clock, looked) && looked < |clock|
    ensures var t, ending := Then(r, Try(clock[looked], request)),
                             Ending(r.states[|r.states| - 1], clock[looked], request, r.interval);
      if ending.Some? then ending.value != Cancelled && IsWait(t, n, request, clock, ending.value)
      else IsWaiting(t, n, request, clock, looked + 1)
  {
    var t := Then(r, Try(clock[looked], request));
    forall k | n <= k < |r.events| ensures IsLook(t, k, request, clock, None) {
      assert IsLook(r, k, request, clock, None);
    }
  }

  lemma WaitStarts(r: Run, request: Request, clock: seq<int>)
    requires |r.states| == |r.events| + 1
    ensures IsWaiting(r, |r.events|, request, clock, 0)
  {
  }

  lemma WaitIsOver(r: Run, n: nat, request: Request, clock: seq<int>)
    requires IsWaiting(r, n, request, clock, |clock|)
    ensures IsWait(r, n, request, clock, Cancelled)
  {
  }

  class SourceQuota {
    const interval: int
    const burst: int
    var s: State
    ghost var run: Run

    ghost predicate Valid()
      reads this
    {
      run.Valid() && run.interval == interval && run.states[|run.states| - 1] == s && 1 <= burst <= 10
    }

    constructor (interval: int, burst: int)
      requires interval > 0 && 1 <= burst <= 10
      ensures Valid() && run.events == [] && this.interval == interval && this.burst == burst
    {
      this.interval, this.burst, this.s := interval, burst, FRESH;
      run := Run([FRESH], [], interval);
    }

    static method Open(interval: int, burst: int) returns (q: Option<SourceQuota>)
      ensures q.Some? <==> interval > 0 && 1 <= burst <= 10
      ensures q.Some? ==> fresh(q.value) && q.value.Valid() && q.value.interval == interval && q.value.burst == burst
    {
      if interval <= 0 || burst < 1 || burst > 10 {
        q := None;
      } else {
        var quota := new SourceQuota(interval, burst);
        q := Some(quota);
      }
    }

    /** How long the provider is still backing off. */
    method Cooldown(now: int) returns (left: int)
      requires Valid()
      ensures left >= 0 && (left == 0 <==> s.cooldown <= now) && (left > 0 ==> now + left == s.cooldown)
    {
      left := Max(s.cooldown - now, 0);
    }

    method After(now: int, report: Report)
      requires Valid() && IsTimely(run, now)
      modifies this
      ensures Valid() && IsTimely(run, now)
      ensures if report.Local? then s == old(s) && run == old(run) else run == Then(old(run), Told(now, report))
    {
      if !report.Local? {
        RunGoesOn(run, Told(now, report));
        if report.Success? {
          if now >= s.cooldown + MINUTE {
            s := s.(failures := 0);
          }
        } else {
          s := s.(failures := Min(s.failures + 1, 4));
          var pause := Pause(s.failures, report.retryAfter);
          s := s.(cooldown := Max(s.cooldown, now + pause));
        }
        run := Then(run, Told(now, report));
      }
    }

    /** One locked look at the quota. */
    method Ask(now: int, request: Request) returns (answer: Answer)
      requires Valid() && IsTimely(run, now) && request.members >= 1
      modifies this
      ensures Valid() && run == Then(old(run), Try(now, request)) && answer == Asked(old(s), now, request, interval).1
      ensures IsTimely(run, now)
      ensures !request.urgent && now < old(s).priority ==> IsHeldBack(answer, now, old(s).priority)
    {
      RunGoesOn(run, Try(now, request));
      ghost var was := s;
      if request.discovery && s.cooldown > now {
        answer := Refused;
      } else {
        var ready := Max(s.cooldown, s.next);
        if request.urgent && s.priority > 0 && now >= s.priority {
          s := s.(priority := -(Max(now, ready) + interval));
        }
        if request.urgent && s.priority < 0 {
          if ready >= -s.priority {
            s := s.(priority := -(ready + interval));
          }
          if now < -s.priority {
            ready := Max(ready, -s.priority);
          } else {
            s := s.(priority := 0);
          }
        }
        if !request.urgent && s.priority > 0 {
          ready := Max(ready, s.priority);
        }
        if ready > now {
          answer := Wait(ready - now);
        } else {
          answer := Admitted;
          s := s.(next := now + request.members * interval);
          if request.urgent && s.priority == 0 {
            s := s.(priority := now + Lease(now, request.deadline, interval));
          } else if !request.urgent {
            s := s.(priority := 0);
          }
        }
      }
      assert (s, answer) == Asked(was, now, request, interval);
      run := Then(run, Try(now, request));
    }

    /** Waits for an admission: `clock` holds the times at which the quota is looked at
        before the caller gives up. */
    method Before(clock: seq<int>, request: Request) returns (outcome: Outcome)
      requires Valid() && (forall k :: 0 <= k < |clock| ==> IsTimely(run, clock[k]))
      requires forall k, l :: 0 <= k < l < |clock| ==> clock[k] <= clock[l]
      modifies this
      ensures Valid() && old(run.events) <= run.events
      ensures outcome == TooLarge <==> request.members < 1 || request.members > burst
      ensures outcome == TooLarge ==> run == old(run)
      ensures outcome != TooLarge ==> IsWait(run, |old(run.events)|, request, clock, outcome)
    {
      if request.members < 1 || request.members > burst {
        outcome := TooLarge;
      } else {
        ghost var n := |run.events|;
        WaitStarts(run, request, clock);
        hide Asked, IsWait, IsWaiting, Run.Valid;
        outcome := Cancelled;
        var k := 0;
        while outcome == Cancelled && k < |clock|
          invariant Valid() && old(run.events) <= run.events && outcome != TooLarge && 0 <= k <= |clock|
          invariant outcome == Cancelled ==> forall l :: k <= l < |clock| ==> IsTimely(run, clock[l])
          invariant outcome == Cancelled ==> IsWaiting(run, n, request, clock, k)
          invariant outcome != Cancelled ==> IsWait(run, n, request, clock, outcome)
          decreases outcome == Cancelled, |clock| - k
        {
          var providerCooldown := s.cooldown;
          WaitGoesOn(run, n, request, clock, k);
          var answer := Ask(clock[k], request);
          match answer {
            case Refused =>
              outcome := Cooling;
            case Admitted =>
              outcome := Granted;
            case Wait(time) =>
              if request.deadline.Some? && providerCooldown >= request.deadline.value {
                outcome := DeadlineExceeded;
              }
          }
          k := k + 1;
        }
        if outcome == Cancelled {
          WaitIsOver(run, n, request, clock);
        }
      }
    }
  }
}
