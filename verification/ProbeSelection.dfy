// What the probe worker does next: one skipped order to note down, or the task that
// comes first among those that can run.

module ProbeSelection {
  import opened Options
  import opened OrderedScan
  import opened Probe

  const HOUR := 3600 * SECOND

  /** A probe that is due and still fresh enough to be worth its price. */
  predicate IsPriority(orders: map<Key, Order>, t: Task, at: int, ageLimit: int) {
    && t.key in orders && orders[t.key].live && t.planned <= at
    && if t.delay.Some? then at <= t.planned + SECOND else t.kind == Baseline && at - t.planned <= ageLimit
  }

  function Rank(orders: map<Key, Order>, t: Task, at: int, ageLimit: int): nat {
    if t.planned > at then 4
    else if IsPriority(orders, t, at, ageLimit) then 0
    else if t.key in orders && orders[t.key].live && t.kind != OpenCheck then 2 else 3
  }

  function Deadline(t: Task, ageLimit: int): int { if t.delay.Some? then t.planned + SECOND else t.planned + ageLimit }

  /** The order of the sorted copy: rank, then deadline among the urgent, then
      planned time. */
  predicate NotAfter(orders: map<Key, Order>, t: Task, u: Task, at: int, ageLimit: int) {
    var a, b := Rank(orders, t, at, ageLimit), Rank(orders, u, at, ageLimit);
    if a != b then a < b
    else if a == 0 && Deadline(t, ageLimit) != Deadline(u, ageLimit) then Deadline(t, ageLimit) < Deadline(u, ageLimit)
    else t.planned <= u.planned
  }

  /** Task `i` comes before task `j`: what is equal stays in its order. */
  ghost predicate Precedes(orders: map<Key, Order>, tasks: seq<Task>, i: nat, j: nat, at: int, ageLimit: int)
    requires i < |tasks| && j < |tasks|
  {
    && NotAfter(orders, tasks[i], tasks[j], at, ageLimit)
    && (NotAfter(orders, tasks[j], tasks[i], at, ageLimit) ==> i < j)
  }

  /** `sorted` holds the positions of the first `n` tasks in their order. */
  ghost predicate IsSorted(orders: map<Key, Order>, tasks: seq<Task>, n: nat, sorted: seq<nat>, at: int, ageLimit: int)
    requires n <= |tasks|
  {
    && (forall i :: 0 <= i < |sorted| ==> sorted[i] < n) && (forall p: nat :: p < n ==> p in sorted)
    && forall i, j :: 0 <= i < j < |sorted| ==> Precedes(orders, tasks, sorted[i], sorted[j], at, ageLimit)
  }

  lemma NotAfterOrders(orders: map<Key, Order>, t: Task, u: Task, v: Task, at: int, ageLimit: int)
    ensures NotAfter(orders, t, u, at, ageLimit) && NotAfter(orders, u, v, at, ageLimit) ==>
      NotAfter(orders, t, v, at, ageLimit)
    ensures NotAfter(orders, t, u, at, ageLimit) || NotAfter(orders, u, t, at, ageLimit)
  {
  }

  /** The library's stable sort, on positions. */
  method Sort(orders: map<Key, Order>, tasks: seq<Task>, at: int, ageLimit: int) returns (sorted: seq<nat>)
    ensures IsSorted(orders, tasks, |tasks|, sorted, at, ageLimit)
  {
    sorted := [];
    for n := 0 to |tasks|
      invariant IsSorted(orders, tasks, n, sorted, at, ageLimit)
    {
      sorted := Insert(orders, tasks, sorted, n, at, ageLimit);
    }
  }

  method Insert(orders: map<Key, Order>, tasks: seq<Task>, sorted: seq<nat>, n: nat, at: int, ageLimit: int)
    returns (more: seq<nat>)
    requires n < |tasks| && IsSorted(orders, tasks, n, sorted, at, ageLimit)
    ensures IsSorted(orders, tasks, n + 1, more, at, ageLimit)
  {
    hide NotAfter;
    var i := |sorted|;
    while i > 0 && !NotAfter(orders, tasks[sorted[i - 1]], tasks[n], at, ageLimit)
      invariant 0 <= i <= |sorted|
      invariant forall j :: i <= j < |sorted| ==> Precedes(orders, tasks, n, sorted[j], at, ageLimit)
    {
      NotAfterOrders(orders, tasks[sorted[i - 1]], tasks[n], tasks[n], at, ageLimit);
      i := i - 1;
    }
    forall j | 0 <= j < i ensures Precedes(orders, tasks, sorted[j], n, at, ageLimit) {
      NotAfterOrders(orders, tasks[sorted[j]], tasks[sorted[i - 1]], tasks[n], at, ageLimit);
    }
    hide Precedes;
    InsertedAt(sorted, n, i);
    more := sorted[..i] + [n] + sorted[i..];
    forall j, k | 0 <= j < k < |more| ensures Precedes(orders, tasks, more[j], more[k], at, ageLimit) {
      assert more[j] == if j < i then sorted[j] else if j == i then n else sorted[j - 1];
      assert more[k] == if k < i then sorted[k] else if k == i then n else sorted[k - 1];
    }
  }

  lemma InsertedAt(sorted: seq<nat>, n: nat, i: nat)
    requires i <= |sorted| && forall p: nat :: p < n ==> p in sorted
    ensures forall p: nat :: p < n + 1 ==> p in sorted[..i] + [n] + sorted[i..]
  {
    var more := sorted[..i] + [n] + sorted[i..];
    assert more[i] == n;
    forall p: nat | p < n ensures p in more {
      assert p in sorted;
      var j :| 0 <= j < |sorted| && sorted[j] == p;
      assert more[if j < i then j else j + 1] == p;
    }
  }

  /** Something live is planned so soon that a background probe could delay it. */
  predicate IsSoon(orders: map<Key, Order>, t: Task, now: int) {
    && t.key in orders && !orders[t.key].terminal && orders[t.key].live
    && (t.kind == Baseline || t.delay.Some?) && now <= t.planned + SECOND
  }

  ghost predicate IsNextLive(orders: map<Key, Order>, tasks: seq<Task>, now: int, next: Option<int>) {
    match next
    case None => forall t :: t in tasks ==> !IsSoon(orders, t, now)
    case Some(at) =>
      && (exists t :: t in tasks && IsSoon(orders, t, now) && t.planned == at)
      && forall t :: t in tasks && IsSoon(orders, t, now) ==> at <= t.planned
  }

  method NextLive(orders: map<Key, Order>, tasks: seq<Task>, now: int) returns (next: Option<int>)
    ensures IsNextLive(orders, tasks, now, next)
  {
    next := None;
    for n := 0 to |tasks|
      invariant IsNextLive(orders, tasks[..n], now, next)
    {
      var t := tasks[n];
      assert tasks[..n + 1] == tasks[..n] + [t];
      if IsSoon(orders, t, now) && (next.None? || t.planned < next.value) {
        next := Some(t.planned);
      }
    }
    assert tasks[..|tasks|] == tasks;
  }

  datatype Verdict = Run | Wait(until: int) | Taken

  predicate HasEnded(o: Order, at: int) { o.terminal || at / SECOND > o.deposit.fillDeadline + 2 }

  /** What stands between a task and its execution. */
  function VerdictOf(orders: map<Key, Order>, admission: map<Key, int>, leased: set<Task>, next: Option<int>,
                     t: Task, at: int, ageLimit: int): Verdict
  {
    if t.key !in orders || t in leased then Taken
    else if HasEnded(orders[t.key], at) then Run
    else if t.delay.None? && t.kind == OpenCheck && t.key in admission && admission[t.key] > at then
      Wait(admission[t.key])
    else if t.planned > at then Wait(t.planned)
    else if IsPriority(orders, t, at, ageLimit) then Run
    else if next.Some? && next.value > at && next.value - at < 12 * SECOND then Wait(next.value)
    else Run
  }

  datatype Work = Idle(wait: int) | Work(task: Task, terminal: bool, live: bool, budget: int)

  /** Task `p` is the first that can run. */
  ghost predicate IsFirstToRun(orders: map<Key, Order>, tasks: seq<Task>, admission: map<Key, int>, leased: set<Task>,
                               next: Option<int>, at: int, ageLimit: int, p: nat)
    requires p < |tasks|
  {
    && VerdictOf(orders, admission, leased, next, tasks[p], at, ageLimit) == Run
    && forall q :: 0 <= q < |tasks| && q != p
        && VerdictOf(orders, admission, leased, next, tasks[q], at, ageLimit) == Run
        ==> Precedes(orders, tasks, p, q, at, ageLimit)
  }

  // ------------------------------------------------- what the choice means on the fields

  /** A sample of a live order whose moment has not passed: its first look or a follow-up. */
  ghost predicate IsLiveSample(orders: map<Key, Order>, u: Task, now: int) {
    && u.key in orders && orders[u.key].live && !orders[u.key].terminal
    && (u.kind == Baseline || u.delay.Some?) && now - u.planned <= 1_000_000_000
  }

  /** The next live sample is still to come, and in less than twelve seconds. */
  ghost predicate IsHeldBack(orders: map<Key, Order>, tasks: seq<Task>, at: int, now: int) {
    && (exists u :: u in tasks && IsLiveSample(orders, u, now) && u.planned < at + 12_000_000_000)
    && (forall u :: u in tasks && IsLiveSample(orders, u, now) ==> u.planned > at)
  }

  /** A live first look within the age limit, or a live follow-up within a second. */
  ghost predicate IsUrgent(o: Order, t: Task, at: int, ageLimit: int) {
    && o.live && t.planned <= at
    && (t.delay.Some? ==> at - t.planned <= 1_000_000_000)
    && (t.delay.None? ==> t.kind == Baseline && at - t.planned <= ageLimit)
  }

  /** Ended before, or more than two whole seconds past its deadline. */
  ghost predicate IsPastIt(o: Order, at: int) { o.terminal || at >= (o.deposit.fillDeadline + 3) * SECOND }

  ghost predicate WaitsForAdmission(admission: map<Key, int>, t: Task, at: int) {
    t.kind == OpenCheck && t.delay.None? && t.key in admission && at < admission[t.key]
  }

  /** Nobody works on it, its order is known, and it is over, or else due, admitted and urgent
      or in nobody's way. */
  ghost predicate CanRun(orders: map<Key, Order>, tasks: seq<Task>, admission: map<Key, int>, leased: set<Task>,
                         t: Task, at: int, now: int, ageLimit: int)
  {
    && t.key in orders && t !in leased
    && (!IsPastIt(orders[t.key], at) ==>
        && t.planned <= at && !WaitsForAdmission(admission, t, at)
        && (IsUrgent(orders[t.key], t, at, ageLimit) || !IsHeldBack(orders, tasks, at, now)))
  }

  /** For how long an urgent task is worth its price. */
  ghost function UsefulUntil(t: Task, ageLimit: int): int {
    t.planned + if t.delay.Some? then 1_000_000_000 else ageLimit
  }

  /** Urgent tasks first, the one with the least time left before the others; then what is
      due, samples of live orders before open checks and the rest; then the older, then the
      first in the list. */
  ghost predicate RunsBefore(orders: map<Key, Order>, tasks: seq<Task>, i: nat, j: nat, at: int, ageLimit: int)
    requires i < |tasks| && j < |tasks| && tasks[i].key in orders && tasks[j].key in orders
  {
    var t, u := tasks[i], tasks[j];
    var first, second := IsUrgent(orders[t.key], t, at, ageLimit), IsUrgent(orders[u.key], u, at, ageLimit);
    var one, other := orders[t.key].live && t.kind != OpenCheck, orders[u.key].live && u.kind != OpenCheck;
    if first != second then first
    else if first && UsefulUntil(t, ageLimit) != UsefulUntil(u, ageLimit) then
      UsefulUntil(t, ageLimit) < UsefulUntil(u, ageLimit)
    else if (t.planned <= at) != (u.planned <= at) then t.planned <= at
    else if !first && t.planned <= at && one != other then one
    else t.planned < u.planned || (t.planned == u.planned && i < j)
  }

  /** How long a known task that nobody works on keeps the worker waiting, at most. */
  ghost predicate IsReason(orders: map<Key, Order>, tasks: seq<Task>, admission: map<Key, int>, t: Task, at: int,
                           now: int, until: int)
  {
    if WaitsForAdmission(admission, t, at) then until == admission[t.key]
    else if t.planned > at then until == t.planned
    else
      && (exists u :: u in tasks && IsLiveSample(orders, u, now) && u.planned == until)
      && (forall u :: u in tasks && IsLiveSample(orders, u, now) ==> until <= u.planned)
  }

  lemma VerdictMeans(orders: map<Key, Order>, tasks: seq<Task>, admission: map<Key, int>, leased: set<Task>,
                     next: Option<int>, t: Task, at: int, now: int, ageLimit: int)
    requires IsNextLive(orders, tasks, now, next)
    ensures var v := VerdictOf(orders, admission, leased, next, t, at, ageLimit);
      && (v == Run <==> CanRun(orders, tasks, admission, leased, t, at, now, ageLimit))
      && (v == Taken <==> t.key !in orders || t in leased)
      && (v.Wait? ==> IsReason(orders, tasks, admission, t, at, now, v.until) && v.until > at)
  {
    NextLiveMeans(orders, tasks, at, now, next);
    forall u ensures IsSoon(orders, u, now) <==> IsLiveSample(orders, u, now) {
    }
    if t.key in orders {
      PastItMeans(orders[t.key], at);
    }
    hide IsHeldBack, IsSoon, IsLiveSample, HasEnded, IsPastIt;
  }

  lemma PastItMeans(o: Order, at: int)
    ensures HasEnded(o, at) <==> IsPastIt(o, at)
  {
  }

  lemma NextLiveMeans(orders: map<Key, Order>, tasks: seq<Task>, at: int, now: int, next: Option<int>)
    requires IsNextLive(orders, tasks, now, next)
    ensures IsHeldBack(orders, tasks, at, now) <==> next.Some? && at < next.value < at + 12 * SECOND
  {
    forall u ensures IsSoon(orders, u, now) <==> IsLiveSample(orders, u, now) {
    }
    hide IsSoon, IsLiveSample;
  }

  lemma OrderMeans(orders: map<Key, Order>, tasks: seq<Task>, i: nat, j: nat, at: int, ageLimit: int)
    requires i < |tasks| && j < |tasks| && tasks[i].key in orders && tasks[j].key in orders && i != j
    requires Precedes(orders, tasks, i, j, at, ageLimit)
    ensures RunsBefore(orders, tasks, i, j, at, ageLimit)
  {
  }

  /** On the fields: the task that runs before all others that can, or none and a wait that
      ends with the first reason to wait, an hour at most. */
  ghost predicate IsProbeWork(orders: map<Key, Order>, tasks: seq<Task>, admission: map<Key, int>, leased: set<Task>,
                              at: int, now: int, ageLimit: int, work: Work)
  {
    match work
    case Work(task, terminal, live, budget) =>
      && (exists i ::
        && 0 <= i < |tasks| && tasks[i] == task && CanRun(orders, tasks, admission, leased, task, at, now, ageLimit)
        && forall j | 0 <= j < |tasks| && j != i ::
          CanRun(orders, tasks, admission, leased, tasks[j], at, now, ageLimit) ==>
            RunsBefore(orders, tasks, i, j, at, ageLimit))
      && (terminal <==> IsPastIt(orders[task.key], at))
      && (!terminal ==>
        && (live <==> IsUrgent(orders[task.key], task, at, ageLimit))
        && budget == if live then 5_000_000_000 else 12_000_000_000)
    case Idle(wait) =>
      && (forall t :: t in tasks ==> !CanRun(orders, tasks, admission, leased, t, at, now, ageLimit))
      && (forall t, until | t in tasks && t.key in orders && t !in leased ::
        IsReason(orders, tasks, admission, t, at, now, until) ==> wait <= until - at || wait == MILLISECOND)
      && (wait == HOUR || exists t, until ::
        && t in tasks && t.key in orders && t !in leased
        && IsReason(orders, tasks, admission, t, at, now, until)
        && wait == if until - at < MILLISECOND then MILLISECOND else until - at)
  }

  lemma RunMeans(orders: map<Key, Order>, tasks: seq<Task>, admission: map<Key, int>, leased: set<Task>,
                 next: Option<int>, at: int, now: int, ageLimit: int, i: nat, work: Work)
    requires IsNextLive(orders, tasks, now, next) && i < |tasks|
    requires IsFirstToRun(orders, tasks, admission, leased, next, at, ageLimit, i)
    requires work.Work? && work.task == tasks[i] && tasks[i].key in orders
    requires work.terminal == HasEnded(orders[work.task.key], at)
    requires !work.terminal ==>
      && work.live == IsPriority(orders, work.task, at, ageLimit)
      && work.budget == if work.live then 5 * SECOND else 12 * SECOND
    ensures IsProbeWork(orders, tasks, admission, leased, at, now, ageLimit, work)
  {
    VerdictMeans(orders, tasks, admission, leased, next, tasks[i], at, now, ageLimit);
    PastItMeans(orders[work.task.key], at);
    forall j | 0 <= j < |tasks| && j != i && CanRun(orders, tasks, admission, leased, tasks[j], at, now, ageLimit)
      ensures RunsBefore(orders, tasks, i, j, at, ageLimit)
    {
      VerdictMeans(orders, tasks, admission, leased, next, tasks[j], at, now, ageLimit);
      OrderMeans(orders, tasks, i, j, at, ageLimit);
    }
    hide CanRun, RunsBefore, VerdictOf, Precedes, IsNextLive, HasEnded, IsPastIt;
  }

  lemma IdleMeans(orders: map<Key, Order>, tasks: seq<Task>, admission: map<Key, int>, leased: set<Task>,
                  next: Option<int>, at: int, now: int, ageLimit: int, work: Work)
    requires IsNextLive(orders, tasks, now, next) && work.Idle?
    requires forall t :: t in tasks ==>
      var v := VerdictOf(orders, admission, leased, next, t, at, ageLimit);
      v != Run && (v.Wait? ==> work.wait <= v.until - at || work.wait == MILLISECOND)
    requires work.wait == HOUR || exists t ::
      && t in tasks
      && var v := VerdictOf(orders, admission, leased, next, t, at, ageLimit);
      v.Wait? && work.wait == if v.until - at < MILLISECOND then MILLISECOND else v.until - at
    ensures IsProbeWork(orders, tasks, admission, leased, at, now, ageLimit, work)
  {
    forall t | t in tasks
      ensures var v := VerdictOf(orders, admission, leased, next, t, at, ageLimit);
        && (v == Run <==> CanRun(orders, tasks, admission, leased, t, at, now, ageLimit))
        && (v == Taken <==> t.key !in orders || t in leased)
        && (v.Wait? ==> IsReason(orders, tasks, admission, t, at, now, v.until))
    {
      VerdictMeans(orders, tasks, admission, leased, next, t, at, now, ageLimit);
    }
    forall t, u: int, v: int | IsReason(orders, tasks, admission, t, at, now, u)
        && IsReason(orders, tasks, admission, t, at, now, v)
      ensures u == v
    {
    }
    hide CanRun, VerdictOf, IsNextLive, IsReason;
  }

  /** The work chosen is the first task that can run; when none can, the wait does not
      outlast any task's own. */
  method SelectProbe(orders: map<Key, Order>, tasks: seq<Task>, admission: map<Key, int>, leased: set<Task>,
                     at: int, now: int, ageLimit: int)
    returns (work: Work, ghost next: Option<int>, ghost first: nat)
    ensures IsNextLive(orders, tasks, now, next)
    ensures work.Work? ==>
      && first < |tasks| && work.task == tasks[first] && work.task !in leased
      && IsFirstToRun(orders, tasks, admission, leased, next, at, ageLimit, first)
      && work.terminal == HasEnded(orders[work.task.key], at)
    ensures work.Work? && !work.terminal ==>
      && work.live == IsPriority(orders, work.task, at, ageLimit)
      && work.budget == if work.live then 5 * SECOND else 12 * SECOND
    ensures work.Idle? ==> MILLISECOND <= work.wait <= HOUR
    ensures work.Idle? ==> forall t :: t in tasks ==>
      var v := VerdictOf(orders, admission, leased, next, t, at, ageLimit);
      v != Run && (v.Wait? ==> work.wait <= v.until - at || work.wait == MILLISECOND)
    ensures IsProbeWork(orders, tasks, admission, leased, at, now, ageLimit, work)
  {
    hide IsProbeWork;
    var sorted := Sort(orders, tasks, at, ageLimit);
    var soon := NextLive(orders, tasks, now);
    next, first := soon, 0;
    var wait := HOUR;
    for n := 0 to |sorted|
      invariant wait <= HOUR
      invariant wait == HOUR || exists i ::
        && 0 <= i < n
        && var v := VerdictOf(orders, admission, leased, soon, tasks[sorted[i]], at, ageLimit);
        v.Wait? && wait == v.until - at
      invariant forall i :: 0 <= i < n ==>
        var v := VerdictOf(orders, admission, leased, soon, tasks[sorted[i]], at, ageLimit);
        v != Run && (v.Wait? ==> wait <= v.until - at)
    {
      var t := tasks[sorted[n]];
      match VerdictOf(orders, admission, leased, soon, t, at, ageLimit)
      case Taken =>
      case Wait(until) =>
        if until - at < wait {
          wait := until - at;
        }
      case Run =>
        first := sorted[n];
        RunIsFirst(orders, tasks, admission, leased, soon, sorted, n, at, ageLimit);
        var ended := HasEnded(orders[t.key], at);
        var live := !ended && IsPriority(orders, t, at, ageLimit);
        work := Work(t, ended, live, if live then 5 * SECOND else 12 * SECOND);
        RunMeans(orders, tasks, admission, leased, soon, at, now, ageLimit, first, work);
        return;
    }
    NoneLeft(tasks, sorted);
    work := Idle(if wait < MILLISECOND then MILLISECOND else wait);
    IdleMeans(orders, tasks, admission, leased, soon, at, now, ageLimit, work);
  }

  lemma NoneLeft(tasks: seq<Task>, sorted: seq<nat>)
    requires forall i :: 0 <= i < |sorted| ==> sorted[i] < |tasks|
    requires forall p: nat :: p < |tasks| ==> p in sorted
    ensures forall t :: t in tasks ==> exists i :: 0 <= i < |sorted| && tasks[sorted[i]] == t
  {
    forall t | t in tasks ensures exists i :: 0 <= i < |sorted| && tasks[sorted[i]] == t {
      var p :| 0 <= p < |tasks| && tasks[p] == t;
      assert p in sorted;
    }
  }

  lemma RunIsFirst(orders: map<Key, Order>, tasks: seq<Task>, admission: map<Key, int>, leased: set<Task>,
                   next: Option<int>, sorted: seq<nat>, n: nat, at: int, ageLimit: int)
    requires IsSorted(orders, tasks, |tasks|, sorted, at, ageLimit) && n < |sorted|
    requires VerdictOf(orders, admission, leased, next, tasks[sorted[n]], at, ageLimit) == Run
    requires forall i :: 0 <= i < n ==>
      VerdictOf(orders, admission, leased, next, tasks[sorted[i]], at, ageLimit) != Run
    ensures IsFirstToRun(orders, tasks, admission, leased, next, at, ageLimit, sorted[n])
  {
    hide VerdictOf, Precedes;
    forall q | 0 <= q < |tasks| && q != sorted[n]
               && VerdictOf(orders, admission, leased, next, tasks[q], at, ageLimit) == Run
      ensures Precedes(orders, tasks, sorted[n], q, at, ageLimit)
    {
      assert q in sorted;
      var i :| 0 <= i < |sorted| && sorted[i] == q;
    }
  }

  /** A live probe that is due and fresh is never passed over for another kind of
      work. */
  lemma PriorityComesFirst(orders: map<Key, Order>, chosen: Task, t: Task, at: int, ageLimit: int)
    requires IsPriority(orders, t, at, ageLimit) && NotAfter(orders, chosen, t, at, ageLimit)
    ensures IsPriority(orders, chosen, at, ageLimit) && Deadline(chosen, ageLimit) <= Deadline(t, ageLimit)
  {
  }

  // ------------------------------------------------------------- skipped orders

  function SkipTask(d: Deposit): Task { Task(d.key, d.availableAt, None, SkippedBudget) }

  predicate Smaller(a: Key, b: Key) { a < b }

  /** Nobody needs to note down the skipped orders before those in `left`. */
  ghost predicate IsPassed(skipped: map<Key, Deposit>, leased: set<Task>, left: set<Key>) {
    && left <= skipped.Keys
    && forall k :: k in skipped && k !in left ==> SkipTask(skipped[k]) in leased && forall j :: j in left ==> k < j
  }

  /** The first skipped order whose note nobody is writing yet. */
  ghost predicate IsNextSkipped(skipped: map<Key, Deposit>, leased: set<Task>, next: Option<Key>) {
    match next
    case None => forall k :: k in skipped ==> SkipTask(skipped[k]) in leased
    case Some(n) =>
      && n in skipped && SkipTask(skipped[n]) !in leased
      && forall k :: k in skipped && k < n ==> SkipTask(skipped[k]) in leased
  }

  lemma PassOne(skipped: map<Key, Deposit>, leased: set<Task>, left: set<Key>, k: Key)
    requires IsPassed(skipped, leased, left) && k in left && forall j :: j in left ==> j == k || Smaller(k, j)
    ensures k in skipped
    ensures SkipTask(skipped[k]) in leased ==> IsPassed(skipped, leased, left - {k})
    ensures SkipTask(skipped[k]) !in leased ==> IsNextSkipped(skipped, leased, Some(k))
  {
  }

  lemma PassStarts(skipped: map<Key, Deposit>, leased: set<Task>)
    ensures IsPassed(skipped, leased, skipped.Keys) && Orders(Smaller)
  {
  }

  lemma PassEnds(skipped: map<Key, Deposit>, leased: set<Task>)
    requires IsPassed(skipped, leased, {})
    ensures IsNextSkipped(skipped, leased, None)
  {
  }

  lemma PageIsNotEmpty(left: set<Key>, page: seq<Key>)
    requires left != {} && (|page| < 128 ==> left == Members(page))
    ensures page != []
  {
  }

  /** Goes through the skipped orders by key, 128 at a time. */
  method NextSkipped(skipped: map<Key, Deposit>, leased: set<Task>) returns (next: Option<Key>)
    ensures IsNextSkipped(skipped, leased, next)
  {
    hide *;
    next := None;
    PassStarts(skipped, leased);
    var left := skipped.Keys;
    while left != {} && next.None?
      invariant IsPassed(skipped, leased, left)
      invariant next.Some? ==> IsNextSkipped(skipped, leased, next)
      decreases left, next.None?
    {
      var page := Page(left, 128, Smaller);
      PageIsNotEmpty(left, page);
      ghost var before := left;
      while page != [] && next.None?
        invariant IsPassed(skipped, leased, left) && IsLeast(left, page, Smaller)
        invariant next.Some? ==> IsNextSkipped(skipped, leased, next)
        invariant left < before || (page != [] && left == before)
        decreases page, next.None?
      {
        var k := page[0];
        LeastFirst(left, page, Smaller);
        PassOne(skipped, leased, left, k);
        if SkipTask(skipped[k]) in leased {
          left, page := left - {k}, page[1..];
        } else {
          next := Some(k);
        }
      }
    }
    if next.None? {
      PassEnds(skipped, leased);
    }
  }

  datatype Selection = Paused(wait: int) | Skip(task: Task) | Probe(work: Work)

  /** While a reorganisation is being worked off no probe starts; a skipped order is
      noted down before anything is probed. */
  method Select(skipped: map<Key, Deposit>, reorganising: bool, orders: map<Key, Order>, tasks: seq<Task>,
                admission: map<Key, int>,
                leased: set<Task>, at: int, now: int, ageLimit: int)
    returns (s: Selection)
    requires forall k :: k in skipped ==> skipped[k].key == k
    ensures s.Paused? <==> reorganising
    ensures s.Paused? ==> s.wait == SECOND
    ensures s.Skip? ==>
      s.task.key in skipped && s.task == SkipTask(skipped[s.task.key])
          && IsNextSkipped(skipped, leased, Some(s.task.key))
    ensures s.Probe? ==> forall k :: k in skipped ==> SkipTask(skipped[k]) in leased
    ensures s.Probe? ==> IsProbeWork(orders, tasks, admission, leased, at, now, ageLimit, s.work)
    ensures s.Probe? && s.work.Work? ==> s.work.task in tasks && s.work.task !in leased
  {
    hide IsProbeWork;
    if reorganising {
      s := Paused(SECOND);
    } else {
      var next := NextSkipped(skipped, leased);
      if next.Some? {
        s := Skip(SkipTask(skipped[next.value]));
      } else {
        var work, _, _ := SelectProbe(orders, tasks, admission, leased, at, now, ageLimit);
        s := Probe(work);
      }
    }
  }
}
