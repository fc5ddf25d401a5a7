// The open orders that are watched and the probe tasks that are planned for them.

module Probe {
  import opened Options

  type Key = nat

  const SECOND := 1_000_000_000
  const MILLISECOND := 1_000_000

  /** Deadlines in seconds, observation times in nanoseconds. */
  datatype Deposit = Deposit(key: Key, capture: nat, routed: bool, fillDeadline: nat, exclusive: bool,
                             exclusivityDeadline: nat, availableAt: int)

  datatype Order = Order(deposit: Deposit, live: bool, terminal: bool, followups: bool)

  datatype Kind = Baseline | OpenCheck | Followup | SkippedBudget

  /** `delay` is the planned age of a follow-up, in milliseconds. */
  datatype Task = Task(key: Key, planned: int, delay: Option<nat>, kind: Kind)

  datatype Status = Ok | Late | RpcError | StaleHead | Cancelled | Skipped | OtherStatus

  /** A frozen probe observation; `locally` tells that a cancellation was decided
      here, because the source was orphaned or the local deadline had passed. */
  datatype Observation = Observation(
    status: Status, fillStatus: Option<nat>, paused: Option<bool>, contractTime: Option<nat>, locally: bool,
    availableAt: int)

  predicate IsTerminal(d: Deposit, p: Observation) {
    && (p.status == Ok || p.status == Late)
    && (p.fillStatus == Some(2) || (p.contractTime.Some? && p.contractTime.value > d.fillDeadline))
  }

  predicate IsOpen(d: Deposit, p: Observation) {
    && p.status == Ok && p.fillStatus.Some? && p.fillStatus.value < 2 && p.paused == Some(false)
    && p.contractTime.Some? && p.contractTime.value <= d.fillDeadline
    && (d.exclusive ==> p.contractTime.value > d.exclusivityDeadline)
  }

  // ---------------------------------------------------------------- invariant

  /** No two tasks of an order are for the same delay: at most one is undelayed
      and at most one is planned for each follow-up age. */
  ghost predicate OnePerDelay(tasks: seq<Task>) {
    forall i, j :: 0 <= i < j < |tasks| ==> !(tasks[i].key == tasks[j].key && tasks[i].delay == tasks[j].delay)
  }

  ghost predicate HasTask(tasks: seq<Task>, k: Key) { exists t :: t in tasks && t.key == k }

  ghost predicate HasUndelayed(tasks: seq<Task>, k: Key) { exists t :: t in tasks && t.key == k && t.delay.None? }

  ghost predicate OrderOk(tasks: seq<Task>, o: Order, k: Key) {
    && o.deposit.key == k && HasTask(tasks, k)
    && (!o.terminal ==> HasUndelayed(tasks, k))
    && (!o.followups ==> forall t :: t in tasks && t.key == k ==> t.delay.None?)
  }

  ghost predicate TaskOk(orders: map<Key, Order>, t: Task) {
    t.key in orders && (t.delay.Some? ==> t.delay.value in {2000, 5000, 10000})
  }

  ghost predicate IsWatch(orders: map<Key, Order>, tasks: seq<Task>) {
    && OnePerDelay(tasks)
    && (forall t :: t in tasks ==> TaskOk(orders, t))
    && (forall k :: k in orders ==> OrderOk(tasks, orders[k], k))
  }

  /** What recovery checks before it admits a stored state: every task has its
      order and no two tasks have the same identity. */
  lemma WatchIsValid(orders: map<Key, Order>, tasks: seq<Task>)
    requires IsWatch(orders, tasks)
    ensures forall i :: 0 <= i < |tasks| ==> tasks[i].key in orders
    ensures forall i, j :: 0 <= i < j < |tasks| ==> tasks[i] != tasks[j]
  {
    forall i | 0 <= i < |tasks| ensures tasks[i].key in orders {
      assert TaskOk(orders, tasks[i]);
    }
    forall i, j | 0 <= i < j < |tasks| ensures tasks[i] != tasks[j] {
      assert !(tasks[i].key == tasks[j].key && tasks[i].delay == tasks[j].delay);
    }
  }

  // ------------------------------------------------------------------ changes

  function Follow(k: Key, base: int): seq<Task> {
    [Task(k, base + 2000 * MILLISECOND, Some(2000), Followup),
     Task(k, base + 5000 * MILLISECOND, Some(5000), Followup),
     Task(k, base + 10000 * MILLISECOND, Some(10000), Followup)]
  }

  /** Tasks of one key, none of which has a delay that the list already has. */
  ghost predicate Fits(tasks: seq<Task>, more: seq<Task>, k: Key) {
    && OnePerDelay(more)
    && (forall t :: t in more ==> t.key == k && (t.delay.Some? ==> t.delay.value in {2000, 5000, 10000}))
    && (forall t, u :: t in tasks && u in more ==> !(t.key == k && t.delay == u.delay))
  }

  lemma AppendFits(tasks: seq<Task>, more: seq<Task>, k: Key)
    requires OnePerDelay(tasks) && Fits(tasks, more, k)
    ensures OnePerDelay(tasks + more)
  {
  }

  /** Appending tasks of one key leaves the other orders alone. */
  lemma AppendOthers(tasks: seq<Task>, more: seq<Task>, k: Key, o: Order, j: Key)
    requires OrderOk(tasks, o, j) && j != k && forall t :: t in more ==> t.key == k
    ensures OrderOk(tasks + more, o, j)
  {
  }

  function Without(tasks: seq<Task>, i: nat): seq<Task>
    requires i < |tasks|
  {
    tasks[..i] + tasks[i + 1..]
  }

  lemma WithoutKeeps(tasks: seq<Task>, i: nat)
    requires i < |tasks| && OnePerDelay(tasks)
    ensures OnePerDelay(Without(tasks, i))
    ensures forall t :: t in Without(tasks, i) <==> t in tasks && t != tasks[i]
  {
  }

  lemma WithoutOthers(tasks: seq<Task>, i: nat, o: Order, j: Key)
    requires i < |tasks| && OnePerDelay(tasks) && OrderOk(tasks, o, j) && tasks[i].key != j
    ensures OrderOk(Without(tasks, i), o, j)
  {
  }

  function NewOrder(d: Deposit, live: bool): Order { Order(d, live, false, live && !d.exclusive) }

  function FirstTasks(o: Order, at: int): seq<Task> {
    [Task(o.deposit.key, at, None, Baseline)]
    + (if o.followups then Follow(o.deposit.key, o.deposit.availableAt) else [])
  }

  // -------------------------------------------------------------------- watch

  /** The delay before the next open check of an order. */
  function NextDelay(o: Order, p: Observation): int {
    if p.contractTime.Some? && o.deposit.exclusive && p.contractTime.value <= o.deposit.exclusivityDeadline
    then (o.deposit.exclusivityDeadline - p.contractTime.value + 1) * SECOND
    else if p.status == RpcError || p.status == StaleHead then 10 * SECOND
    else if !o.live then 5 * SECOND else SECOND
  }

  datatype Outcome = Done | NoParent | NoTask | NotSkipped

  class Watch {
    const maxPending: nat
    var orders: map<Key, Order>
    var tasks: seq<Task>
    var admission: map<Key, int>
    var skipped: map<Key, Deposit>

    ghost predicate Valid()
      reads this
    {
      IsWatch(orders, tasks) && |orders| <= maxPending
    }

    constructor (maxPending: nat)
      ensures Valid() && orders == map[] && tasks == [] && skipped == map[] && this.maxPending == maxPending
    {
      this.maxPending := maxPending;
      orders, tasks, admission, skipped := map[], [], map[], map[];
    }

    /** A new order, unless it cannot be filled any more, is known already, or the
        watch is full. */
    method Add(d: Deposit, live: bool, at: int) returns (admitted: bool)
      requires Valid()
      modifies this`orders, this`tasks
      ensures Valid()
      ensures admitted <==>
        !d.routed || d.fillDeadline < at / SECOND || d.key in old(orders) || |old(orders)| < maxPending
      ensures if admitted && d.routed && d.fillDeadline >= at / SECOND && d.key !in old(orders)
        then orders == old(orders)[d.key := NewOrder(d, live)]
            && tasks == old(tasks) + FirstTasks(NewOrder(d, live), at)
        else orders == old(orders) && tasks == old(tasks)
    {
      if !d.routed || d.fillDeadline < at / SECOND {
        return true;
      }
      if d.key in orders {
        return true;
      }
      if |orders| >= maxPending {
        return false;
      }
      var o := NewOrder(d, live);
      AddKeeps(orders, tasks, o, at);
      orders := orders[d.key := o];
      tasks := tasks + [Task(d.key, at, None, Baseline)];
      if live && !d.exclusive {
        tasks := tasks + Follow(d.key, d.availableAt);
      }
      assert tasks == old(tasks) + FirstTasks(o, at);
      admitted := true;
    }

    /** The durable result of one probe. */
    method Committed(task: Task, terminal: bool, skip: bool, p: Observation, now: int) returns (outcome: Outcome)
      requires Valid()
      modifies this
      ensures Valid()
      ensures outcome == Expected(old(orders), old(tasks), task, skip, p)
      ensures outcome == NotSkipped <==> skip && p.status != Skipped
      ensures outcome == NoParent <==> !skip && task.key !in old(orders)
      ensures outcome == NoTask <==> !skip && task.key in old(orders) && task !in old(tasks)
      ensures outcome != Done || skip ==> orders == old(orders) && tasks == old(tasks) && admission == old(admission)
      ensures skipped == if outcome == Done && skip then old(skipped) - {task.key} else old(skipped)
      ensures outcome == Done && !skip ==>
        exists i :: 0 <= i < |old(tasks)| && old(tasks)[i] == task
          && IsAfterProbe(old(orders), old(tasks), i, terminal, p, orders, tasks)
          && admission == AdmissionAfter(old(admission), old(orders)[task.key], task, terminal, p, now,
                                         task.key in orders)
    {
      hide IsWatch, IsAfterProbe, AdmissionAfter;
      outcome := Done;
      if skip {
        if p.status != Skipped {
          outcome := NotSkipped;
        } else {
          skipped := skipped - {task.key};
        }
      } else if task.key !in orders {
        outcome := NoParent;
      } else {
        var found := Position(tasks, task);
        if found == |tasks| {
          outcome := NoTask;
        } else {
          ProbeKeeps(orders, tasks, found, terminal, p);
          orders, tasks, admission := Settle(orders, tasks, admission, found, terminal, p, now);
        }
      }
    }

    /** A capture was orphaned: every order that it brought ends with its tasks. */
    method MarkTerminal(capture: nat)
      requires Valid()
      modifies this`orders
      ensures Valid() && orders == Ended(old(orders), capture)
      ensures orders.Keys == old(orders).Keys && forall k :: k in orders ==>
        orders[k] == old(orders)[k].(terminal := old(orders)[k].terminal || old(orders)[k].deposit.capture == capture)
    {
      hide IsWatch;
      var left := orders.Keys;
      ghost var was := orders;
      while left != {}
        invariant Valid() && left <= orders.Keys && IsEnding(was, orders, capture, left)
        decreases |left|
      {
        var k :| k in left;
        if orders[k].deposit.capture == capture {
          TerminalKeeps(orders, tasks, k);
          orders := orders[k := orders[k].(terminal := true)];
        }
        left := left - {k};
      }
    }
  }

  function Ended(orders: map<Key, Order>, capture: nat): map<Key, Order> {
    map k | k in orders ::
      if orders[k].deposit.capture == capture then orders[k].(terminal := true) else orders[k]
  }

  /** All but the orders in `left` have been looked at. */
  ghost predicate IsEnding(was: map<Key, Order>, now: map<Key, Order>, capture: nat, left: set<Key>) {
    && now.Keys == was.Keys
    && forall k :: k in now ==> now[k] == if k in left then was[k] else Ended(was, capture)[k]
  }

  method Position(tasks: seq<Task>, task: Task) returns (found: nat)
    ensures found <= |tasks| && (found == |tasks| <==> task !in tasks)
    ensures found < |tasks| ==> tasks[found] == task
  {
    found := 0;
    while found < |tasks| && tasks[found] != task
      invariant found <= |tasks| && task !in tasks[..found]
    {
      found := found + 1;
    }
    assert tasks[..|tasks|] == tasks;
  }

  method Plan(o: Order, task: Task, terminal: bool, p: Observation) returns (after: Order, planned: seq<Task>)
    ensures after == OrderAfter(o, terminal, p) && planned == Planned(o, task, terminal, p)
  {
    after, planned := o, [];
    if terminal || IsTerminal(o.deposit, p) || (p.status == Cancelled && p.locally) {
      after := after.(terminal := true);
    }
    if !after.terminal {
      if o.live && !o.followups && IsOpen(o.deposit, p) {
        planned := planned + Follow(task.key, p.availableAt);
        after := after.(followups := true);
      }
      if task.delay.None? {
        planned := planned + [Task(task.key, p.availableAt + NextDelay(o, p), None, OpenCheck)];
      }
    }
  }

  /** Takes the finished task out, plans what follows, and lets a terminal order go
      with its last task. */
  method Settle(orders: map<Key, Order>, tasks: seq<Task>, admission: map<Key, int>, found: nat, terminal: bool,
                p: Observation, now: int)
    returns (newOrders: map<Key, Order>, newTasks: seq<Task>, newAdmission: map<Key, int>)
    requires IsWatch(orders, tasks) && found < |tasks| && tasks[found].key in orders
    ensures IsAfterProbe(orders, tasks, found, terminal, p, newOrders, newTasks)
    ensures var task := tasks[found];
      newAdmission == AdmissionAfter(admission, orders[task.key], task, terminal, p, now, task.key in newOrders)
  {
    var task := tasks[found];
    var k := task.key;
    var after, planned := Plan(orders[k], task, terminal, p);
    OwnOrder(orders, tasks, found, terminal, p);
    hide IsWatch, Planned, OrderAfter, HasTask, Without, OrderOk;
    newTasks := Without(tasks, found) + planned;
    newOrders, newAdmission := orders[k := after], admission;
    if after.terminal {
      var pending := AnyTask(newTasks, k);
      if !pending {
        newOrders := orders - {k};
        newAdmission := admission - {k};
      }
    } else if task.delay.None? {
      newAdmission := admission[k := now + NextDelay(orders[k], p)];
    }
  }

  method AnyTask(tasks: seq<Task>, k: Key) returns (pending: bool)
    ensures pending <==> HasTask(tasks, k)
  {
    for i := 0 to |tasks|
      invariant !HasTask(tasks[..i], k)
    {
      if tasks[i].key == k {
        return true;
      }
    }
    assert tasks[..|tasks|] == tasks;
    pending := false;
  }

  function Expected(orders: map<Key, Order>, tasks: seq<Task>, task: Task, skip: bool, p: Observation): Outcome {
    if skip then (if p.status == Skipped then Done else NotSkipped)
    else if task.key !in orders then NoParent
    else if task !in tasks then NoTask else Done
  }

  /** The order after one of its probes. */
  function OrderAfter(o: Order, terminal: bool, p: Observation): Order {
    var ended := o.terminal || terminal || IsTerminal(o.deposit, p) || (p.status == Cancelled && p.locally);
    o.(terminal := ended, followups := o.followups || (!ended && o.live && IsOpen(o.deposit, p)))
  }

  /** An order's next open check waits for its delay from the commit on, too. */
  function AdmissionAfter(admission: map<Key, int>, o: Order, task: Task, terminal: bool, p: Observation, now: int,
                          remains: bool): map<Key, int>
  {
    if !remains then admission - {task.key}
    else if OrderAfter(o, terminal, p).terminal || task.delay.Some? then admission
    else admission[task.key := now + NextDelay(o, p)]
  }

  /** What the probe of an order that goes on plans next: follow-ups once, and one
      open check in the place of the undelayed task it came from. */
  function Planned(o: Order, task: Task, terminal: bool, p: Observation): seq<Task> {
    var after := OrderAfter(o, terminal, p);
    if after.terminal then [] else
      (if after.followups && !o.followups then Follow(task.key, p.availableAt) else [])
      + (if task.delay.None? then [Task(task.key, p.availableAt + NextDelay(o, p), None, OpenCheck)] else [])
  }

  function TasksAfter(tasks: seq<Task>, i: nat, o: Order, terminal: bool, p: Observation): seq<Task>
    requires i < |tasks|
  {
    Without(tasks, i) + Planned(o, tasks[i], terminal, p)
  }

  /** A terminal order goes exactly with its last task. */
  ghost predicate IsAfterProbe(orders: map<Key, Order>, tasks: seq<Task>, i: nat, terminal: bool, p: Observation,
                               newOrders: map<Key, Order>, newTasks: seq<Task>)
    requires i < |tasks|
  {
    var k := tasks[i].key;
    && k in orders
    && newTasks == TasksAfter(tasks, i, orders[k], terminal, p)
    && newOrders == if HasTask(newTasks, k) then orders[k := OrderAfter(orders[k], terminal, p)] else orders - {k}
  }

  // --------------------------------------------- what a probe means for its order

  /** A new order is looked at at once, and followed up from the start if it is live and open to
      everybody. */
  lemma NewMeans(d: Deposit, live: bool, at: int)
    ensures NewOrder(d, live) == Order(d, live, false, live && !d.exclusive)
    ensures FirstTasks(NewOrder(d, live), at) ==
      [Task(d.key, at, None, Baseline)] + (
        if live && !d.exclusive then
          [Task(d.key, d.availableAt + 2_000_000_000, Some(2000), Followup),
           Task(d.key, d.availableAt + 5_000_000_000, Some(5000), Followup),
           Task(d.key, d.availableAt + 10_000_000_000, Some(10000), Followup)]
        else [])
  {
  }

  /** When the next open check of the order may be admitted: not before the next look, counted
      from now; a follow-up leaves it alone, and it goes with the order. */
  lemma AdmissionMeans(admission: map<Key, int>, o: Order, task: Task, terminal: bool, p: Observation, now: int,
                       remains: bool)
    ensures var after := AdmissionAfter(admission, o, task, terminal, p, now, remains);
      && (forall k :: k != task.key ==>
        (k in after <==> k in admission) && (k in after ==> after[k] == admission[k]))
      && (!remains ==> task.key !in after)
      && (remains && (o.terminal || Ends(o.deposit, terminal, p) || task.delay.Some?) ==> after == admission)
      && (remains && !o.terminal && !Ends(o.deposit, terminal, p) && task.delay.None? ==>
        task.key in after && IsNextLook(o, p, after[task.key] - now))
  {
  }

  /** Nothing more is to be learned: the probe was the last one or was cancelled here, or the
      chain, read in time or late, has the order filled or its deadline passed. */
  ghost predicate Ends(d: Deposit, terminal: bool, p: Observation) {
    || terminal || (p.status == Cancelled && p.locally)
    || ((p.status == Ok || p.status == Late) && p.fillStatus == Some(2))
    || ((p.status == Ok || p.status == Late) && p.contractTime.Some? && d.fillDeadline < p.contractTime.value)
  }

  /** Read in time, the order can be filled by anybody. */
  ghost predicate IsFillable(d: Deposit, p: Observation) {
    && p.status == Ok && (p.fillStatus == Some(0) || p.fillStatus == Some(1)) && p.paused == Some(false)
    && p.contractTime.Some? && p.contractTime.value <= d.fillDeadline
    && !(d.exclusive && p.contractTime.value <= d.exclusivityDeadline)
  }

  /** The next look at an open order: the first second in which the exclusive relayer has no
      claim any more; otherwise ten seconds after a failure of the source, one second for a
      live order and five for any other. */
  ghost predicate IsNextLook(o: Order, p: Observation, wait: int) {
    if p.contractTime.Some? && o.deposit.exclusive && p.contractTime.value <= o.deposit.exclusivityDeadline then
      p.contractTime.value * SECOND + wait == (o.deposit.exclusivityDeadline + 1) * SECOND
    else
      && (p.status == RpcError || p.status == StaleHead ==> wait == 10_000_000_000)
      && (p.status != RpcError && p.status != StaleHead ==> wait == if o.live then 1_000_000_000 else 5_000_000_000)
  }

  /** On the observation: an order that ends gets no task, keeps those it has and goes with the
      last of them; another one is looked at again, and followed up once it can be filled. */
  ghost predicate IsProbed(o: Order, was: seq<Task>, task: Task, terminal: bool, p: Observation,
                           orders: map<Key, Order>, tasks: seq<Task>)
  {
    var k := task.key;
    && (forall t :: t in was && t != task ==> t in tasks)
    && (forall t :: t in tasks && t !in was ==> t.key == k && t.planned >= p.availableAt)
    && (k in orders ==> orders[k].deposit == o.deposit && orders[k].live == o.live)
    && if o.terminal || Ends(o.deposit, terminal, p) then
      && (forall t :: t in tasks ==> t in was && t != task)
      && (k in orders <==> exists t :: t in tasks && t.key == k)
      && (k in orders ==> orders[k].terminal)
    else
      var follows := o.live && !o.followups && IsFillable(o.deposit, p);
      && k in orders && !orders[k].terminal && (orders[k].followups <==> o.followups || follows)
      && (task.delay.None? ==>
        exists t :: t in tasks && t.key == k && t.delay.None? && t.kind == OpenCheck
          && IsNextLook(o, p, t.planned - p.availableAt))
      && (follows ==> forall ms :: ms in {2000, 5000, 10000} ==>
        Task(k, p.availableAt + ms * 1_000_000, Some(ms), Followup) in tasks)
  }

  /** The same of the planned tasks alone. */
  ghost predicate IsPlan(o: Order, task: Task, terminal: bool, p: Observation, more: seq<Task>, after: Order) {
    var follows := o.live && !o.followups && IsFillable(o.deposit, p);
    && (forall t :: t in more ==> t.key == task.key && t.planned >= p.availableAt)
    && after.deposit == o.deposit && after.live == o.live
    && (after.terminal <==> o.terminal || Ends(o.deposit, terminal, p))
    && (after.terminal ==> more == [])
    && (!after.terminal ==>
      && (after.followups <==> o.followups || follows)
      && (task.delay.None? ==>
        exists t :: t in more && t.key == task.key && t.delay.None? && t.kind == OpenCheck
          && IsNextLook(o, p, t.planned - p.availableAt))
      && (follows ==> forall ms :: ms in {2000, 5000, 10000} ==>
        Task(task.key, p.availableAt + ms * 1_000_000, Some(ms), Followup) in more))
  }

  lemma PlannedMeans(o: Order, task: Task, terminal: bool, p: Observation)
    ensures IsPlan(o, task, terminal, p, Planned(o, task, terminal, p), OrderAfter(o, terminal, p))
  {
    var more := Planned(o, task, terminal, p);
    if !OrderAfter(o, terminal, p).terminal {
      if task.delay.None? {
        var t := Task(task.key, p.availableAt + NextDelay(o, p), None, OpenCheck);
        assert more[|more| - 1] == t && t in more;
      }
      if o.live && !o.followups && IsFillable(o.deposit, p) {
        var f := Follow(task.key, p.availableAt);
        assert more[..3] == f && f[0] in f && f[1] in f && f[2] in f;
      }
    }
  }

  /** The plan takes the place of the finished task. */
  ghost predicate IsReplaced(was: seq<Task>, task: Task, more: seq<Task>, tasks: seq<Task>) {
    forall t :: t in tasks <==> (t in was && t != task) || t in more
  }

  lemma PlanIsProbed(o: Order, was: seq<Task>, task: Task, terminal: bool, p: Observation, more: seq<Task>,
                     after: Order,
                     orders: map<Key, Order>, tasks: seq<Task>)
    requires IsPlan(o, task, terminal, p, more, after) && IsReplaced(was, task, more, tasks)
    requires task.key in orders <==> HasTask(tasks, task.key)
    requires task.key in orders ==> orders[task.key] == after
    requires !after.terminal ==> task.key in orders
    ensures IsProbed(o, was, task, terminal, p, orders, tasks)
  {
    hide IsFillable, Ends, IsNextLook;
    if !after.terminal && task.delay.None? {
      var t :| t in more && t.key == task.key && t.delay.None? && t.kind == OpenCheck
        && IsNextLook(o, p, t.planned - p.availableAt);
      assert t in tasks;
    }
  }

  lemma Replaced(tasks: seq<Task>, i: nat, more: seq<Task>)
    requires i < |tasks| && OnePerDelay(tasks)
    ensures IsReplaced(tasks, tasks[i], more, Without(tasks, i) + more)
  {
    WithoutKeeps(tasks, i);
    hide Without, OnePerDelay;
  }

  lemma ProbeMeans(orders: map<Key, Order>, tasks: seq<Task>, i: nat, terminal: bool, p: Observation,
                   newOrders: map<Key, Order>, newTasks: seq<Task>)
    requires IsWatch(orders, tasks) && i < |tasks| && IsAfterProbe(orders, tasks, i, terminal, p, newOrders, newTasks)
    ensures IsProbed(orders[tasks[i].key], tasks, tasks[i], terminal, p, newOrders, newTasks)
  {
    var task, o := tasks[i], orders[tasks[i].key];
    OwnOrder(orders, tasks, i, terminal, p);
    Replaced(tasks, i, Planned(o, task, terminal, p));
    PlannedMeans(o, task, terminal, p);
    hide IsPlan, IsReplaced, IsWatch, OrderOk, Planned, OrderAfter, HasTask, IsProbed;
    PlanIsProbed(o, tasks, task, terminal, p, Planned(o, task, terminal, p), OrderAfter(o, terminal, p), newOrders,
                 newTasks);
  }

  lemma AddKeeps(orders: map<Key, Order>, tasks: seq<Task>, o: Order, at: int)
    requires IsWatch(orders, tasks) && o.deposit.key !in orders && !o.terminal
    ensures IsWatch(orders[o.deposit.key := o], tasks + FirstTasks(o, at))
  {
    var k, more := o.deposit.key, FirstTasks(o, at);
    assert forall t :: t in tasks ==> t.key != k by {
      assert forall t :: t in tasks ==> TaskOk(orders, t);
    }
    AppendFits(tasks, more, k);
    forall j | j in orders ensures OrderOk(tasks + more, orders[j], j) {
      AppendOthers(tasks, more, k, orders[j], j);
    }
    assert more[0] in tasks + more;
  }

  lemma TerminalKeeps(orders: map<Key, Order>, tasks: seq<Task>, k: Key)
    requires IsWatch(orders, tasks) && k in orders
    ensures IsWatch(orders[k := orders[k].(terminal := true)], tasks)
    ensures |orders[k := orders[k].(terminal := true)]| == |orders|
  {
  }

  lemma FollowFits(tasks: seq<Task>, k: Key, base: int)
    requires forall t :: t in tasks && t.key == k ==> t.delay.None?
    ensures Fits(tasks, Follow(k, base), k)
  {
  }

  lemma JoinFits(tasks: seq<Task>, more: seq<Task>, rest: seq<Task>, k: Key)
    requires Fits(tasks, more, k) && Fits(tasks, rest, k)
    requires forall t, u :: t in more && u in rest ==> t.delay != u.delay
    ensures Fits(tasks, more + rest, k)
  {
  }

  lemma OpenFits(tasks: seq<Task>, t: Task)
    requires forall u :: u in tasks && u.key == t.key ==> u.delay.Some?
    requires t.delay.None?
    ensures Fits(tasks, [t], t.key)
  {
  }

  /** What the other tasks of the order leave room for. */
  lemma RoomFor(orders: map<Key, Order>, tasks: seq<Task>, i: nat)
    requires IsWatch(orders, tasks) && i < |tasks| && tasks[i].key in orders
    ensures var k, rest := tasks[i].key, Without(tasks, i);
      && (!orders[k].followups ==> forall t :: t in rest && t.key == k ==> t.delay.None?)
      && (tasks[i].delay.None? ==> forall t :: t in rest && t.key == k ==> t.delay.Some?)
  {
    var k, rest := tasks[i].key, Without(tasks, i);
    WithoutKeeps(tasks, i);
    assert OrderOk(tasks, orders[k], k);
    forall t | t in rest && t.key == k ensures !(t.delay.None? && tasks[i].delay.None?) {
      var j :| 0 <= j < |tasks| && tasks[j] == t;
      assert !(tasks[i].key == tasks[j].key && tasks[i].delay == tasks[j].delay);
    }
  }

  lemma PlannedFits(orders: map<Key, Order>, tasks: seq<Task>, i: nat, terminal: bool, p: Observation)
    requires IsWatch(orders, tasks) && i < |tasks| && tasks[i].key in orders
    ensures Fits(Without(tasks, i), Planned(orders[tasks[i].key], tasks[i], terminal, p), tasks[i].key)
  {
    hide IsWatch, OrderAfter, NextDelay, Without, Fits;
    var k, task, rest := tasks[i].key, tasks[i], Without(tasks, i);
    var o := orders[k];
    var follow := if OrderAfter(o, terminal, p).followups && !o.followups then Follow(k, p.availableAt) else [];
    var open := if task.delay.None? then [Task(k, p.availableAt + NextDelay(o, p), None, OpenCheck)] else [];
    RoomFor(orders, tasks, i);
    NothingFits(rest, k);
    if follow != [] {
      FollowFits(rest, k, p.availableAt);
    }
    if task.delay.None? {
      OpenFits(rest, open[0]);
    }
    JoinFits(rest, follow, open, k);
  }

  lemma NothingFits(tasks: seq<Task>, k: Key)
    ensures Fits(tasks, [], k)
  {
  }

  lemma ProbeKeeps(orders: map<Key, Order>, tasks: seq<Task>, i: nat, terminal: bool, p: Observation)
    requires IsWatch(orders, tasks) && i < |tasks| && tasks[i].key in orders
    ensures forall newOrders, newTasks :: IsAfterProbe(orders, tasks, i, terminal, p, newOrders, newTasks) ==>
      IsWatch(newOrders, newTasks) && |newOrders| <= |orders|
  {
    forall newOrders, newTasks | IsAfterProbe(orders, tasks, i, terminal, p, newOrders, newTasks)
      ensures IsWatch(newOrders, newTasks) && |newOrders| <= |orders|
    {
      ProbeKeepsWatch(orders, tasks, i, terminal, p, newOrders, newTasks);
    }
  }

  lemma ProbeKeepsWatch(orders: map<Key, Order>, tasks: seq<Task>, i: nat, terminal: bool, p: Observation,
                        newOrders: map<Key, Order>, newTasks: seq<Task>)
    requires IsWatch(orders, tasks) && i < |tasks| && IsAfterProbe(orders, tasks, i, terminal, p, newOrders, newTasks)
    ensures IsWatch(newOrders, newTasks) && |newOrders| <= |orders|
  {
    var k := tasks[i].key;
    var rest, more := Without(tasks, i), Planned(orders[k], tasks[i], terminal, p);
    WithoutKeeps(tasks, i);
    PlannedFits(orders, tasks, i, terminal, p);
    AppendFits(rest, more, k);
    OwnOrder(orders, tasks, i, terminal, p);
    forall t | t in newTasks ensures TaskOk(newOrders, t) {
      if t in rest {
        assert TaskOk(orders, t);
      }
    }
    forall j | j in newOrders && j != k ensures OrderOk(newTasks, newOrders[j], j) {
      WithoutOthers(tasks, i, orders[j], j);
      AppendOthers(rest, more, k, orders[j], j);
    }
    assert newOrders.Keys <= orders.Keys;
    FewerKeys(newOrders, orders);
  }

  lemma FewerKeys(a: map<Key, Order>, b: map<Key, Order>)
    requires a.Keys <= b.Keys
    ensures |a| <= |b|
  {
    assert b.Keys == a.Keys + (b.Keys - a.Keys);
    assert |a.Keys| <= |b.Keys|;
  }

  lemma OwnOrder(orders: map<Key, Order>, tasks: seq<Task>, i: nat, terminal: bool, p: Observation)
    requires IsWatch(orders, tasks) && i < |tasks| && tasks[i].key in orders
    ensures var k := tasks[i].key; var newTasks := TasksAfter(tasks, i, orders[k], terminal, p);
      && (HasTask(newTasks, k) ==> OrderOk(newTasks, OrderAfter(orders[k], terminal, p), k))
      && (!OrderAfter(orders[k], terminal, p).terminal ==> HasTask(newTasks, k))
  {
  }
}
