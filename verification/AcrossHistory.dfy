// Repair of partial captures: the missing blocks of a range are cut into bounded
// windows, and a cursor picks one window out of all captures that still need work.

module AcrossHistory {
  import opened AcrossCaptures
  import opened AcrossRanges
  import opened Intervals
  import opened Options

  const ROUND_BLOCKS := 64

  datatype Window = Window(from: uint64, to: uint64)

  ghost predicate AllCovered(from: nat, to: nat, covered: set<nat>) {
    forall m: nat :: from <= m < to ==> m in covered
  }

  ghost predicate NoneCovered(from: nat, to: nat, covered: set<nat>) {
    forall m: nat :: from <= m < to ==> m !in covered
  }

  /** The first block from `from` on that is missing, or one past `to`. */
  ghost function Missing(from: nat, to: nat, covered: set<nat>): (n: nat)
    requires from <= to + 1
    ensures from <= n <= to + 1 && (n <= to ==> n !in covered)
    ensures AllCovered(from, n, covered)
    decreases 1 + to - from
  {
    if from > to || from !in covered then from else Missing(from + 1, to, covered)
  }

  /** The last block of the window that starts at `next`: it stops at the end of
      the range, before a covered block, or when the window is full. */
  ghost function WindowEnd(next: nat, end: nat, to: nat, covered: set<nat>): (e: nat)
    requires next <= end <= to && end - next < ROUND_BLOCKS
    ensures end <= e <= to && e - next < ROUND_BLOCKS
    ensures NoneCovered(end + 1, e + 1, covered)
    ensures e == to || e - next == ROUND_BLOCKS - 1 || e + 1 in covered
    decreases (to - end)
  {
    if end == to || end - next == ROUND_BLOCKS - 1 || end + 1 in covered then end
    else WindowEnd(next, end + 1, to, covered)
  }

  ghost function Windows(from: nat, to: uint64, covered: set<nat>): (ws: seq<Window>)
    requires from <= to + 1
    decreases 1 + to - from
  {
    var next := Missing(from, to, covered);
    if next > to then []
    else
      var end := WindowEnd(next, next, to, covered);
      [Window(next, end)] + Windows(end + 1, to, covered)
  }

  ghost predicate InWindows(ws: seq<Window>, n: nat) {
    exists i :: 0 <= i < |ws| && ws[i].from <= n <= ws[i].to
  }

  lemma InOneMore(w: Window, rest: seq<Window>, n: nat)
    ensures InWindows([w] + rest, n) <==> w.from <= n <= w.to || InWindows(rest, n)
  {
    var ws := [w] + rest;
    assert ws[0] == w;
    if InWindows(rest, n) {
      var i :| 0 <= i < |rest| && rest[i].from <= n <= rest[i].to;
      assert ws[i + 1] == rest[i];
    }
  }

  ghost predicate AreAscending(ws: seq<Window>, from: nat, to: nat) {
    && (forall i :: 0 <= i < |ws| ==> from <= ws[i].from <= ws[i].to <= to && ws[i].to - ws[i].from < ROUND_BLOCKS)
    && (forall i, j :: 0 <= i < j < |ws| ==> ws[i].to < ws[j].from)
  }

  lemma AscendingOneMore(w: Window, rest: seq<Window>, from: nat, to: nat)
    requires from <= w.from <= w.to <= to && w.to - w.from < ROUND_BLOCKS && AreAscending(rest, w.to + 1, to)
    ensures AreAscending([w] + rest, from, to)
  {
  }

  /** The windows are non-empty, ascending, at most 64 blocks long, and together
      hold exactly the missing blocks of the range. */
  lemma {:induction false} WindowsPartition(from: nat, to: uint64, covered: set<nat>)
    requires from <= to + 1
    ensures AreAscending(Windows(from, to, covered), from, to)
    ensures Matches(Windows(from, to, covered), from, to, covered)
    decreases 1 + to - from
  {
    hide *;
    var ws := Windows(from, to, covered);
    if ws == [] {
      NoneMissing(from, to, covered);
    } else {
      FirstOfWindows(from, to, covered);
      WindowsPartition(ws[0].to + 1, to, covered);
      AscendingOneMore(ws[0], ws[1..], from, to);
      MatchesOneMore(ws[0], ws[1..], from, to, covered);
      assert ws == [ws[0]] + ws[1..];
    }
  }

  lemma NoneMissing(from: nat, to: uint64, covered: set<nat>)
    requires from <= to + 1 && Windows(from, to, covered) == []
    ensures Matches([], from, to, covered) && AreAscending([], from, to)
  {
  }

  lemma FirstOfWindows(from: nat, to: uint64, covered: set<nat>)
    requires from <= to + 1 && Windows(from, to, covered) != []
    ensures var ws := Windows(from, to, covered); var w := ws[0];
      && from <= w.from <= w.to <= to && w.to - w.from < ROUND_BLOCKS && ws[1..] == Windows(w.to + 1, to, covered)
      && AllCovered(from, w.from, covered) && w.from !in covered && NoneCovered(w.from + 1, w.to + 1, covered)
  {
  }

  /** The windows hold exactly the missing blocks. */
  ghost predicate Matches(ws: seq<Window>, from: nat, to: nat, covered: set<nat>) {
    forall n: nat :: from <= n <= to ==> (InWindows(ws, n) <==> n !in covered)
  }

  lemma MatchesOneMore(w: Window, rest: seq<Window>, from: nat, to: nat, covered: set<nat>)
    requires from <= w.from <= w.to <= to && AreAscending(rest, w.to + 1, to) && Matches(rest, w.to + 1, to, covered)
    requires AllCovered(from, w.from, covered) && w.from !in covered && NoneCovered(w.from + 1, w.to + 1, covered)
    ensures Matches([w] + rest, from, to, covered)
  {
    forall n: nat | from <= n <= to ensures InWindows([w] + rest, n) <==> n !in covered {
      InOneMore(w, rest, n);
    }
  }

  /** No window can be merged with its successor: between two of them lies a
      covered block, or the first one is full. */
  lemma {:induction false} WindowsAreLong(from: nat, to: uint64, covered: set<nat>, i: nat)
    requires from <= to + 1 && i < |Windows(from, to, covered)|
    ensures var w := Windows(from, to, covered)[i];
      w.to == to || w.to - w.from == ROUND_BLOCKS - 1 || w.to + 1 in covered
    decreases 1 + to - from
  {
    var next := Missing(from, to, covered);
    var end := WindowEnd(next, next, to, covered);
    if i > 0 {
      WindowsAreLong(end + 1, to, covered, i - 1);
    }
  }

  lemma MissingIs(from: nat, to: nat, covered: set<nat>, n: nat)
    requires from <= to && IsFirstUncovered(from, to, covered, n)
    ensures n <= to ==> Missing(from, to, covered) == n
    ensures n > to ==> Missing(from, to, covered) == to + 1
  {
  }

  lemma {:induction false} WindowEndIs(next: nat, end: nat, to: nat, covered: set<nat>, e: nat)
    requires next <= end <= e <= to && e - next < ROUND_BLOCKS
    requires NoneCovered(end + 1, e + 1, covered)
    requires e == to || e - next == ROUND_BLOCKS - 1 || e + 1 in covered
    ensures WindowEnd(next, end, to, covered) == e
    decreases e - end
  {
  }

  /** Where a window that starts at `next` has to end. */
  ghost predicate IsEnd(next: nat, end: nat, to: nat, covered: set<nat>) {
    && next <= end <= to && end - next < ROUND_BLOCKS && NoneCovered(next + 1, end + 1, covered)
    && (end == to || end - next == ROUND_BLOCKS - 1 || end + 1 in covered)
  }

  lemma FirstWindow(from: nat, to: uint64, covered: set<nat>, next: uint64, end: uint64)
    requires from <= to && IsFirstUncovered(from, to, covered, next) && IsEnd(next, end, to, covered)
    ensures IsNextWindow(Some(Window(next, end)), from, to, covered)
  {
    MissingIs(from, to, covered, next);
    WindowEndIs(next, next, to, covered, end);
  }

  /** The first range that starts after a missing block bounds the blocks missing
      with it. */
  method NextRange(covered: seq<Interval>, next: nat) returns (start: Option<uint64>)
    requires IsOrdered(covered) && !Has(covered, next)
    ensures start.None? ==> forall m: nat :: m > next ==> m !in Elements(covered)
    ensures start.Some? ==>
      && start.value > next && start.value as nat in Elements(covered)
      && NoneCovered(next + 1, start.value, Elements(covered))
  {
    var i := 0;
    while i < |covered| && covered[i].from <= next
      invariant i <= |covered| && forall j :: 0 <= j < i ==> covered[j].from <= next
    {
      i := i + 1;
    }
    assert forall j :: 0 <= j < i ==> covered[j].to < next;
    if i == |covered| {
      return None;
    }
    assert forall j :: i <= j < |covered| ==> covered[j].from >= covered[i].from;
    assert covered[i].from <= covered[i].from <= covered[i].to;
    start := Some(covered[i].from);
  }

  /** The answer is the first window of the rest of the range. */
  ghost predicate IsNextWindow(window: Option<Window>, from: nat, to: uint64, covered: set<nat>)
    requires from <= to
  {
    match window
    case None => Windows(from, to, covered) == []
    case Some(w) => from <= w.to <= to && Windows(from, to, covered) == [w] + Windows(w.to + 1, to, covered)
  }

  lemma NoWindow(from: nat, to: uint64, covered: set<nat>, next: nat)
    requires from <= to < next && IsFirstUncovered(from, to, covered, next)
    ensures IsNextWindow(None, from, to, covered)
  {
  }

  method HistoryUncovered(from: uint64, to: uint64, covered: seq<Interval>) returns (window: Option<Window>)
    requires IsOrdered(covered) && from <= to < MAX_UINT64
    ensures IsNextWindow(window, from, to, Elements(covered))
  {
    var next := FirstUncovered(from, to, covered);
    if next > to {
      NoWindow(from, to, Elements(covered), next);
      return None;
    }
    var end := BoundedEnd(next, to, covered);
    hide *;
    FirstWindow(from, to, Elements(covered), next, end);
    window := Some(Window(next, end));
  }

  method BoundedEnd(next: uint64, to: uint64, covered: seq<Interval>) returns (end: uint64)
    requires IsOrdered(covered) && next <= to && next !in Elements(covered)
    ensures IsEnd(next, end, to, Elements(covered))
  {
    end := next + (if to - next + 1 < ROUND_BLOCKS then to - next + 1 else ROUND_BLOCKS) - 1;
    var start := NextRange(covered, next);
    if start.Some? && start.value - 1 < end {
      end := start.value - 1;
    }
  }

  // ------------------------------------------------------------ choosing a repair

  datatype Retry = Retry(attempted: bool, at: int)

  datatype Choice = Choice(window: Window, capture: Capture, finalized: bool)

  /** A window waits unless it was attempted in this run or its retry time has not
      come; one that is not recorded has the zero time. */
  predicate IsReady(retries: map<(Hash, Window), Retry>, c: Capture, w: Window, now: int) {
    (c.id, w) in retries ==> !retries[(c.id, w)].attempted && retries[(c.id, w)].at <= now
  }

  ghost function Ready(retries: map<(Hash, Window), Retry>, c: Capture, ws: seq<Window>, now: int): seq<Choice> {
    if ws == [] then [] else AsList(IsReady(retries, c, ws[0], now), ws[0], c) + Ready(retries, c, ws[1..], now)
  }

  predicate IsWorkable(readers: set<uint64>, c: Capture) {
    c.Repairable() && c.chain in readers && c.From() <= c.To() < MAX_UINT64
  }

  ghost function ChoicesOf(readers: set<uint64>, decoded: map<uint64, seq<Interval>>,
                           retries: map<(Hash, Window), Retry>,
                           c: Capture, now: int): seq<Choice>
  {
    if IsWorkable(readers, c) && c.chain in decoded
    then ChoicesFrom(retries, c, c.From(), Elements(decoded[c.chain]), now) else []
  }

  /** Every window that could be repaired now, capture by capture. */
  ghost function Choices(readers: set<uint64>, decoded: map<uint64, seq<Interval>>, retries: map<(Hash, Window), Retry>,
                         rows: seq<Capture>, now: int): seq<Choice>
  {
    if rows == [] then []
    else ChoicesOf(readers, decoded, retries, rows[0], now) + Choices(readers, decoded, retries, rows[1..], now)
  }

  /** The member of a list at a position, or what was selected before. */
  ghost function Nth(s: seq<Choice>, k: int, otherwise: Option<Choice>): Option<Choice> {
    if 0 <= k < |s| then Some(s[k]) else otherwise
  }

  ghost function AsList(ready: bool, w: Window, c: Capture): seq<Choice> {
    if ready then [Choice(w, c, c.finality == "finalized")] else []
  }

  lemma ReadyFirst(retries: map<(Hash, Window), Retry>, c: Capture, from: nat, covered: set<nat>, w: Window, now: int,
                   window: Option<Window>, index: int, position: nat, selected: Option<Choice>, count: nat,
                   chosen: Option<Choice>)
    requires c.Anchored() && from <= c.To() && IsNextWindow(window, from, c.To(), covered) && window == Some(w)
    requires IsStep(AsList(IsReady(retries, c, w, now), w, c), [], index, position, selected, count, chosen)
    ensures IsStep(ChoicesFrom(retries, c, from, covered, now), ChoicesFrom(retries, c, w.to + 1, covered, now),
                   index, position, selected, count, chosen)
    ensures from <= w.to <= c.To()
  {
    var here := AsList(IsReady(retries, c, w, now), w, c);
    ReadyTail(retries, c, w, Windows(w.to + 1, c.To(), covered), now);
    NoneAfter(w.to + 1, c.To(), covered);
    var left, rest := ChoicesFrom(retries, c, from, covered, now), ChoicesFrom(retries, c, w.to + 1, covered, now);
    assert left == here + rest;
    assert left[..|here|] == here && here[..|here|] == here && left[|here|..] == rest;
  }

  lemma ReadyTail(retries: map<(Hash, Window), Retry>, c: Capture, w: Window, rest: seq<Window>, now: int)
    ensures Ready(retries, c, [w] + rest, now)
         == AsList(IsReady(retries, c, w, now), w, c) + Ready(retries, c, rest, now)
  {
  }

  lemma NoneAfter(from: nat, to: uint64, covered: set<nat>)
    requires from <= to + 1
    ensures from == to + 1 ==> Windows(from, to, covered) == []
  {
  }

  /** The choices of one capture, from block `from` on. */
  ghost function ChoicesFrom(retries: map<(Hash, Window), Retry>, c: Capture, from: nat, covered: set<nat>,
                             now: int): seq<Choice>
    requires c.Anchored()
  {
    if from <= c.To() then Ready(retries, c, Windows(from, c.To(), covered), now) else []
  }

  /** One window of the walk over a capture. */
  method VisitNext(covered: seq<Interval>, retries: map<(Hash, Window), Retry>, c: Capture, now: int,
                   index: int, from: uint64, position: nat, selected: Option<Choice>)
    returns (next: nat, count: nat, chosen: Option<Choice>)
    requires IsOrdered(covered) && c.Anchored() && from <= c.To() < MAX_UINT64
    ensures next > from
    ensures IsStep(ChoicesFrom(retries, c, from, Elements(covered), now),
                   ChoicesFrom(retries, c, next, Elements(covered), now),
                   index, position, selected, count, chosen)
  {
    var to := c.To();
    hide *;
    var window := HistoryUncovered(from, to, covered);
    if window.None? {
      next, count, chosen := to + 1, position, selected;
      NoneReady(retries, c, from, next, Elements(covered), now, window, index, position, selected);
    } else {
      count, chosen := VisitWindow(retries, c, window.value, now, index, position, selected);
      ReadyFirst(retries, c, from, Elements(covered), window.value, now, window, index, position, selected, count,
                 chosen);
      next := window.value.to + 1;
    }
  }

  /** A step over the first of the choices `left`, if there is one. */
  ghost predicate IsStep(left: seq<Choice>, rest: seq<Choice>, index: int,
                         position: nat, selected: Option<Choice>, count: nat, chosen: Option<Choice>)
  {
    && count >= position && |left| == count - position + |rest| && left[count - position..] == rest
    && chosen == Nth(left[..count - position], index - position, selected)
  }

  lemma StepAgain(all: seq<Choice>, left: seq<Choice>, rest: seq<Choice>, index: int, first: nat,
                  selected: Option<Choice>,
                  position: nat, chosen: Option<Choice>, count: nat, newChosen: Option<Choice>)
    requires IsStep(all, left, index, first, selected, position, chosen)
    requires IsStep(left, rest, index, position, chosen, count, newChosen)
    ensures IsStep(all, rest, index, first, selected, count, newChosen)
  {
  }

  /** One pass over the windows of one capture: counts the ready ones and keeps
      the one at position `index`. */
  method VisitCapture(covered: seq<Interval>, retries: map<(Hash, Window), Retry>, c: Capture, now: int,
                      index: int, position: nat, selected: Option<Choice>)
    returns (count: nat, chosen: Option<Choice>)
    requires IsOrdered(covered) && c.Anchored() && c.From() <= c.To() < MAX_UINT64
    ensures IsStep(ChoicesFrom(retries, c, c.From(), Elements(covered), now), [], index, position, selected, count,
                   chosen)
  {
    ghost var known := Elements(covered);
    ghost var all := ChoicesFrom(retries, c, c.From(), known, now);
    var from: nat := c.From();
    count, chosen := position, selected;
    assert all[0..] == all && all[..0] == [];
    while from <= c.To()
      invariant IsStep(all, ChoicesFrom(retries, c, from, known, now), index, position, selected, count, chosen)
      decreases c.To() as int - from
    {
      ghost var was, wasCount, wasChosen := from, count, chosen;
      hide *;
      from, count, chosen := VisitNext(covered, retries, c, now, index, from, count, chosen);
      StepAgain(all, ChoicesFrom(retries, c, was, known, now), ChoicesFrom(retries, c, from, known, now), index,
                position, selected,
                wasCount, wasChosen, count, chosen);
    }
  }

  method VisitWindow(retries: map<(Hash, Window), Retry>, c: Capture, w: Window, now: int,
                     index: int, position: nat, selected: Option<Choice>)
    returns (count: nat, chosen: Option<Choice>)
    ensures IsStep(AsList(IsReady(retries, c, w, now), w, c), [], index, position, selected, count, chosen)
  {
    count, chosen := position, selected;
    if IsReady(retries, c, w, now) {
      if position == index {
        chosen := Some(Choice(w, c, c.finality == "finalized"));
      }
      count := count + 1;
    }
  }

  lemma NoneReady(retries: map<(Hash, Window), Retry>, c: Capture, from: nat, next: nat, covered: set<nat>, now: int,
                  window: Option<Window>, index: int, position: nat, selected: Option<Choice>)
    requires c.Anchored() && next == c.To() + 1 && from < next
    requires IsNextWindow(window, from, c.To(), covered) && window.None?
    ensures IsStep(ChoicesFrom(retries, c, from, covered, now), ChoicesFrom(retries, c, next, covered, now),
                   index, position, selected, position, selected)
  {
  }

  /** One pass over all captures, in the order of their pages. */
  method Visit(readers: set<uint64>, decoded: map<uint64, seq<Interval>>, retries: map<(Hash, Window), Retry>,
               rows: seq<Capture>, now: int, index: int)
    returns (count: nat, chosen: Option<Choice>)
    requires forall k :: k in decoded ==> IsOrdered(decoded[k])
    ensures var choices := Choices(readers, decoded, retries, rows, now);
      count == |choices| && chosen == Nth(choices, index, None)
  {
    ghost var all := Choices(readers, decoded, retries, rows, now);
    count, chosen := 0, None;
    var i := 0;
    assert rows[0..] == rows && all[0..] == all && all[..0] == [];
    while i < |rows|
      invariant i <= |rows|
      invariant IsStep(all, Choices(readers, decoded, retries, rows[i..], now), index, 0, None, count, chosen)
    {
      var c := rows[i];
      ghost var was, wasChosen, left := count, chosen, Choices(readers, decoded, retries, rows[i..], now);
      ghost var here := ChoicesOf(readers, decoded, retries, c, now);
      ghost var later := Choices(readers, decoded, retries, rows[i + 1..], now);
      assert rows[i..][0] == c && rows[i..][1..] == rows[i + 1..];
      assert left == here + later;
      if IsWorkable(readers, c) && c.chain in decoded {
        count, chosen := VisitCapture(decoded[c.chain], retries, c, now, index, count, chosen);
      }
      StepOver(left, here, later, index, was, wasChosen, count, chosen);
      hide *;
      StepAgain(all, left, later, index, 0, None, was, wasChosen, count, chosen);
      i := i + 1;
    }
    assert all[..|all|] == all;
  }

  lemma StepOver(left: seq<Choice>, here: seq<Choice>, later: seq<Choice>, index: int,
                 position: nat, selected: Option<Choice>, count: nat, chosen: Option<Choice>)
    requires left == here + later
    requires IsStep(here, [], index, position, selected, count, chosen)
        || (here == [] && count == position && chosen == selected)
    ensures IsStep(left, later, index, position, selected, count, chosen)
  {
  }

  /** A window that can be repaired now, on the fields: it is one of the missing windows of a
      partial capture of logs whose repair nobody has given up, on a chain that can be read, and
      it was not tried in this run and its time has come. */
  ghost predicate CanBeRepaired(readers: set<uint64>, decoded: map<uint64, seq<Interval>>,
                                retries: map<(Hash, Window), Retry>, c: Capture, now: int, x: Choice)
  {
    && x.capture == c && (x.finalized <==> c.finality == "finalized")
    && c.canonical && c.committed && c.kind == "logs" && c.completedTasks == 1 && c.status == "partial"
    && !Mentions(c.reason, "repair_abandoned=user_requested_historical_state_unavailable")
    && c.chain in readers && c.chain in decoded
    && c.span.Some? && c.span.value.from <= c.span.value.to < MAX_UINT64
    && x.window in Windows(c.span.value.from, c.span.value.to, Elements(decoded[c.chain]))
    && ((c.id, x.window) in retries ==> !retries[(c.id, x.window)].attempted && retries[(c.id, x.window)].at <= now)
  }

  lemma {:induction false} ChoicesMean(
    readers: set<uint64>, decoded: map<uint64, seq<Interval>>, retries: map<(Hash, Window), Retry>, rows: seq<Capture>,
    now: int, x: Choice)
    ensures x in Choices(readers, decoded, retries, rows, now) <==>
      exists c :: c in rows && CanBeRepaired(readers, decoded, retries, c, now, x)
  {
    if rows != [] {
      ChoicesMean(readers, decoded, retries, rows[1..], now, x);
      var c := rows[0];
      if IsWorkable(readers, c) && c.chain in decoded {
        ReadyMeans(retries, c, Windows(c.From(), c.To(), Elements(decoded[c.chain])), now, x);
      }
      assert x in ChoicesOf(readers, decoded, retries, c, now) <==>
        CanBeRepaired(readers, decoded, retries, c, now, x);
      hide CanBeRepaired, ChoicesOf;
      assert forall d :: d in rows <==> d == c || d in rows[1..];
    }
  }

  lemma {:induction false} ReadyMeans(retries: map<(Hash, Window), Retry>, c: Capture, ws: seq<Window>, now: int,
                                      x: Choice)
    ensures x in Ready(retries, c, ws, now) <==>
      && x.capture == c && (x.finalized <==> c.finality == "finalized") && x.window in ws
      && ((c.id, x.window) in retries ==> !retries[(c.id, x.window)].attempted && retries[(c.id, x.window)].at <= now)
  {
    if ws != [] {
      ReadyMeans(retries, c, ws[1..], now, x);
      assert forall w :: w in ws <==> w == ws[0] || w in ws[1..];
    }
  }

  /** Two bounded passes, the first to count and the second to pick: the cursor
      goes round the choices. A negative cursor, whose remainder is not positive
      in the original's arithmetic, picks the first. */
  method SelectPartial(readers: set<uint64>, decoded: map<uint64, seq<Interval>>, retries: map<(Hash, Window), Retry>,
                       rows: seq<Capture>, now: int, cursor: int)
    returns (choice: Option<Choice>)
    requires forall k :: k in decoded ==> IsOrdered(decoded[k])
    ensures var choices := Choices(readers, decoded, retries, rows, now);
      choice == if choices == [] then None else Some(choices[if cursor < 0 then 0 else cursor % |choices|])
  {
    var count, _ := Visit(readers, decoded, retries, rows, now, -1);
    if count == 0 {
      return None;
    }
    var index := Remainder(cursor, count);
    if index < 0 {
      index := 0;
    }
    var _, chosen := Visit(readers, decoded, retries, rows, now, index);
    choice := chosen;
  }

  /** The remainder that takes the sign of the dividend. */
  function Remainder(a: int, b: nat): (r: int)
    requires b > 0
    ensures a >= 0 ==> r == a % b
    ensures a < 0 ==> r <= 0
  {
    if a >= 0 then a % b else -((-a) % b)
  }
}
