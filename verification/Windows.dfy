// The opportunity report: how the quotes of one block are judged for a route, and
// how the judged blocks are joined into windows.

module Windows {
  import opened Options

  type Hash = nat

  type Route = nat

  // ------------------------------------------------------------------- quotes

  /** `usable`: committed, canonical and final enough for the report; `intact`: the
      quotes at hand are the ones the block was recorded with. */
  datatype Block = Block(
    number: nat, hash: Hash, parent: Hash, manifest: Hash, batch: Hash, live: bool, usable: bool, intact: bool)

  datatype Role = Strategy | CapitalEntry | OtherRole

  datatype Quote = Quote(
    role: Role, route: Route, requested: nat, ok: bool, exactIn: bool, tokenIn: Hash, tokenOut: Hash,
    amountIn: Option<int>, amountOut: Option<int>, hash: Hash, batch: Hash, manifest: Hash)

  function Gross(q: Quote): int
    requires q.amountOut.Some?
  {
    q.amountOut.value - q.requested
  }

  predicate IsRelevant(q: Quote, route: Route) { q.role == Strategy && q.route == route }

  predicate IsValid(q: Quote, b: Block, sizes: seq<nat>, usdc: Hash) {
    && q.requested in sizes && q.ok && q.exactIn && q.tokenIn == usdc && q.tokenOut == usdc
    && q.amountIn == Some(q.requested) && q.amountOut.Some? && q.hash == b.hash && q.batch == b.batch
    && q.manifest == b.manifest
  }

  /** The first strategy quote of its size. */
  predicate IsFirst(qs: seq<Quote>, route: Route, i: nat)
    requires i < |qs|
  {
    IsRelevant(qs[i], route)
        && forall j | 0 <= j < i :: !(IsRelevant(qs[j], route) && qs[j].requested == qs[i].requested)
  }

  /** A quote that the available capital could have used. */
  predicate IsCandidate(qs: seq<Quote>, route: Route, b: Block, sizes: seq<nat>, usdc: Hash, membersOk: bool,
                        budget: Option<int>, i: nat)
    requires i < |qs|
  {
    && IsFirst(qs, route, i) && membersOk && IsValid(qs[i], b, sizes, usdc)
    && budget.Some? && qs[i].requested <= budget.value
  }

  /** The best candidate of the first `n` quotes: the greatest gross result, and of
      equal ones the first. */
  ghost predicate IsBest(qs: seq<Quote>, n: nat, route: Route, b: Block, sizes: seq<nat>, usdc: Hash, membersOk: bool,
                         budget: Option<int>, best: Option<nat>)
    requires n <= |qs|
  {
    match best
    case None => forall i :: 0 <= i < n ==> !IsCandidate(qs, route, b, sizes, usdc, membersOk, budget, i)
    case Some(k) =>
      && k < n && IsCandidate(qs, route, b, sizes, usdc, membersOk, budget, k)
      && forall i :: 0 <= i < n && IsCandidate(qs, route, b, sizes, usdc, membersOk, budget, i) ==>
        Gross(qs[i]) < Gross(qs[k]) || (Gross(qs[i]) == Gross(qs[k]) && k <= i)
  }

  /** Every strategy quote is valid and none of a size is repeated. */
  ghost predicate AllSound(qs: seq<Quote>, n: nat, route: Route, b: Block, sizes: seq<nat>, usdc: Hash)
    requires n <= |qs|
  {
    forall i :: 0 <= i < n && IsRelevant(qs[i], route) ==> IsFirst(qs, route, i) && IsValid(qs[i], b, sizes, usdc)
  }

  ghost function Sizes(qs: seq<Quote>, n: nat, route: Route): set<nat>
    requires n <= |qs|
  {
    set i | 0 <= i < n && IsRelevant(qs[i], route) :: qs[i].requested
  }

  /** Judges one block for one route. */
  method Judge(qs: seq<Quote>, route: Route, b: Block, sizes: seq<nat>, usdc: Hash, membersOk: bool,
               budget: Option<int>)
    returns (full: bool, best: Option<nat>)
    ensures IsBest(qs, |qs|, route, b, sizes, usdc, membersOk, budget, best)
    ensures full <==>
      && membersOk && budget.Some? && b.live && AllSound(qs, |qs|, route, b, sizes, usdc)
      && |Sizes(qs, |qs|, route)| == |sizes|
  {
    hide AllSound, IsBest, IsFirst, IsCandidate, Sizes, IsValid;
    full := membersOk && budget.Some? && b.live;
    best := None;
    var seen: set<nat> := {};
    NothingJudgedYet(qs, route, b, sizes, usdc, membersOk, budget);
    for i := 0 to |qs|
      invariant seen == Sizes(qs, i, route)
      invariant full <==> membersOk && budget.Some? && b.live && AllSound(qs, i, route, b, sizes, usdc)
      invariant IsBest(qs, i, route, b, sizes, usdc, membersOk, budget, best)
    {
      var q := qs[i];
      OneMoreSize(qs, i, route);
      OneMoreSound(qs, i, route, b, sizes, usdc);
      OneMoreCandidate(qs, i, route, b, sizes, usdc, membersOk, budget, best);
      if IsRelevant(q, route) {
        var first := q.requested !in seen;
        seen := seen + {q.requested};
        if first && membersOk && IsValid(q, b, sizes, usdc) {
          if budget.Some? && q.requested <= budget.value && (best.None? || Gross(q) > Gross(qs[best.value])) {
            best := Some(i);
          }
        } else {
          full := false;
        }
      }
    }
    if |seen| != |sizes| {
      full := false;
    }
  }

  lemma NothingJudgedYet(qs: seq<Quote>, route: Route, b: Block, sizes: seq<nat>, usdc: Hash, membersOk: bool,
                         budget: Option<int>)
    ensures AllSound(qs, 0, route, b, sizes, usdc) && Sizes(qs, 0, route) == {}
    ensures IsBest(qs, 0, route, b, sizes, usdc, membersOk, budget, None)
  {
  }

  lemma OneMoreSound(qs: seq<Quote>, i: nat, route: Route, b: Block, sizes: seq<nat>, usdc: Hash)
    requires i < |qs|
    ensures AllSound(qs, i + 1, route, b, sizes, usdc) <==>
      AllSound(qs, i, route, b, sizes, usdc)
          && (IsRelevant(qs[i], route) ==> IsFirst(qs, route, i) && IsValid(qs[i], b, sizes, usdc))
  {
  }

  lemma OneMoreCandidate(qs: seq<Quote>, i: nat, route: Route, b: Block, sizes: seq<nat>, usdc: Hash, membersOk: bool,
                         budget: Option<int>, best: Option<nat>)
    requires i < |qs| && IsBest(qs, i, route, b, sizes, usdc, membersOk, budget, best)
    ensures best.Some? ==> best.value < i && qs[best.value].amountOut.Some?
    ensures IsValid(qs[i], b, sizes, usdc) ==> qs[i].amountOut.Some?
    ensures var candidate := IsRelevant(qs[i], route) && IsFirst(qs, route, i) && membersOk
        && IsValid(qs[i], b, sizes, usdc)
                             && budget.Some? && qs[i].requested <= budget.value;
      && (candidate && (best.None? || Gross(qs[i]) > Gross(qs[best.value])) ==>
          IsBest(qs, i + 1, route, b, sizes, usdc, membersOk, budget, Some(i)))
      && (!(candidate && (best.None? || Gross(qs[i]) > Gross(qs[best.value]))) ==>
          IsBest(qs, i + 1, route, b, sizes, usdc, membersOk, budget, best))
  {
  }

  lemma OneMoreSize(qs: seq<Quote>, i: nat, route: Route)
    requires i < |qs|
    ensures Sizes(qs, i + 1, route) == Sizes(qs, i, route) + if IsRelevant(qs[i], route) then {qs[i].requested} else {}
    ensures IsRelevant(qs[i], route) ==> (IsFirst(qs, route, i) <==> qs[i].requested !in Sizes(qs, i, route))
  {
  }

  ghost predicate AreDistinct(sizes: seq<nat>) { forall i, j :: 0 <= i < j < |sizes| ==> sizes[i] != sizes[j] }

  ghost function AsSet(sizes: seq<nat>): set<nat> { set x | x in sizes }

  lemma {:induction false} NoMoreThanListed(sizes: seq<nat>)
    ensures |AsSet(sizes)| <= |sizes|
    decreases |sizes|
  {
    if sizes != [] {
      var front, last := sizes[..|sizes| - 1], sizes[|sizes| - 1];
      NoMoreThanListed(front);
      assert sizes == front + [last];
      assert AsSet(sizes) == AsSet(front) + {last};
    }
  }

  /** A complete block has one valid quote of every configured size. */
  lemma FullMeansEverySize(qs: seq<Quote>, route: Route, b: Block, sizes: seq<nat>, usdc: Hash)
    requires AllSound(qs, |qs|, route, b, sizes, usdc) && |Sizes(qs, |qs|, route)| == |sizes|
    ensures forall x :: x in sizes ==>
      exists i :: 0 <= i < |qs| && IsFirst(qs, route, i) && qs[i].requested == x && IsValid(qs[i], b, sizes, usdc)
  {
    NoMoreThanListed(sizes);
    var all, have := AsSet(sizes), Sizes(qs, |qs|, route);
    assert have <= all;
    assert all == have + (all - have);
    assert |all| == |have| + |all - have|;
    assert all - have == {};
    forall x | x in sizes ensures x in have {
      assert x in all;
    }
  }

  // ------------------------------------------------------------------ windows

  /** One judged block of a route: `gross` is the best gross result, if any. */
  datatype Observation = Observation(block: Block, full: bool, gross: Option<int>)
  {
    predicate Positive() { gross.Some? && gross.value > 0 }

    predicate Negative() { full && gross.Some? && gross.value <= 0 }
  }

  predicate Follows(o: Observation, p: Observation) {
    p.block.number == o.block.number + 1 && p.block.parent == o.block.hash && p.block.manifest == o.block.manifest
  }

  datatype Window = Window(
    route: Route, manifest: Hash, startBlock: nat, endBlock: nat, observations: nat, confirmedNew: bool, best: int)

  datatype Kind = Unknown | PositiveKind | NegativeKind

  datatype RouteState = RouteState(last: nat, hash: Hash, manifest: Hash, kind: Kind, window: nat)

  /** Which of its route's observations a window absorbed. */
  datatype Extent = Extent(first: nat, count: nat)

  ghost predicate IsWindow(w: Window, e: Extent, seen: seq<Observation>) {
    && 0 < e.count == w.observations && e.first + e.count <= |seen|
    && (forall i :: e.first <= i < e.first + e.count ==>
        seen[i].Positive() && seen[i].gross.value <= w.best && seen[i].block.manifest == w.manifest)
    && (exists i :: e.first <= i < e.first + e.count && seen[i].gross == Some(w.best))
    && (forall i :: e.first <= i < e.first + e.count - 1 ==> Follows(seen[i], seen[i + 1]))
    && w.startBlock == seen[e.first].block.number && w.endBlock == seen[e.first + e.count - 1].block.number
    && (e.count > 1 ==> forall i :: e.first <= i < e.first + e.count ==> seen[i].full)
    && (w.confirmedNew <==>
        seen[e.first].full && e.first > 0 && seen[e.first - 1].Negative() && Follows(seen[e.first - 1], seen[e.first]))
  }

  ghost predicate Holds(w: Window, e: Extent, route: Route, i: nat) {
    w.route == route && e.first <= i < e.first + e.count
  }

  /** The window of the last observation of a route, when it can go on. */
  ghost predicate IsState(s: RouteState, route: Route, seen: seq<Observation>, windows: seq<Window>,
                          extents: seq<Extent>)
  {
    && seen != []
    && var o := seen[|seen| - 1];
      && s.last == o.block.number && s.hash == o.block.hash && s.manifest == o.block.manifest
      && (s.kind == NegativeKind <==> o.Negative())
      && (s.kind == PositiveKind <==> o.full && o.Positive())
      && (s.kind == PositiveKind ==>
        && s.window < |windows| == |extents| && windows[s.window].route == route
        && extents[s.window].first + extents[s.window].count == |seen|)
  }

  /** Extents of one route come in ascending order and do not overlap. */
  ghost predicate AreApart(windows: seq<Window>, extents: seq<Extent>) {
    && |windows| == |extents|
    && forall i, j :: 0 <= i < j < |windows| && windows[i].route == windows[j].route ==>
      extents[i].first + extents[i].count <= extents[j].first
  }

  ghost predicate AllStates(seen: map<Route, seq<Observation>>, states: map<Route, RouteState>,
                            windows: seq<Window>, extents: seq<Extent>)
  {
    seen.Keys == states.Keys && forall r :: r in states ==> IsState(states[r], r, seen[r], windows, extents)
  }

  ghost predicate AllWindows(seen: map<Route, seq<Observation>>, windows: seq<Window>, extents: seq<Extent>) {
    && |windows| == |extents|
    && forall i :: 0 <= i < |windows| ==>
        windows[i].route in seen && IsWindow(windows[i], extents[i], seen[windows[i].route])
  }

  ghost predicate AllHeld(seen: map<Route, seq<Observation>>, windows: seq<Window>, extents: seq<Extent>) {
    && |windows| == |extents|
    && forall r, i :: r in seen && 0 <= i < |seen[r]| && seen[r][i].Positive() ==> IsHeld(windows, extents, r, i)
  }

  ghost predicate IsJoined(seen: map<Route, seq<Observation>>, states: map<Route, RouteState>,
                           windows: seq<Window>, extents: seq<Extent>)
  {
    && AreApart(windows, extents) && AllStates(seen, states, windows, extents)
    && AllWindows(seen, windows, extents) && AllHeld(seen, windows, extents)
  }

  ghost predicate IsHeld(windows: seq<Window>, extents: seq<Extent>, r: Route, i: nat)
    requires |windows| == |extents|
  {
    exists k :: 0 <= k < |windows| && Holds(windows[k], extents[k], r, i)
  }

  /** A route's history and state after one more observation. */
  ghost function More(seen: map<Route, seq<Observation>>, r: Route, o: Observation): map<Route, seq<Observation>> {
    seen[r := (if r in seen then seen[r] else []) + [o]]
  }

  ghost function Len(seen: map<Route, seq<Observation>>, r: Route): nat { if r in seen then |seen[r]| else 0 }

  function After(o: Observation, kind: Kind, window: nat): RouteState {
    RouteState(o.block.number, o.block.hash, o.block.manifest, kind, window)
  }

  lemma WindowStays(w: Window, e: Extent, seen: seq<Observation>, o: Observation)
    requires IsWindow(w, e, seen)
    ensures IsWindow(w, e, seen + [o])
  {
    var more := seen + [o];
    assert forall i :: 0 <= i < |seen| ==> more[i] == seen[i];
    var i :| e.first <= i < e.first + e.count && seen[i].gross == Some(w.best);
    assert more[i].gross == Some(w.best);
  }

  lemma WindowAt(seen: map<Route, seq<Observation>>, windows: seq<Window>, extents: seq<Extent>, r: Route,
                 o: Observation, k: nat)
    requires AllWindows(seen, windows, extents) && k < |windows|
    ensures var now := More(seen, r, o);
      windows[k].route in now && IsWindow(windows[k], extents[k], now[windows[k].route])
  {
    if windows[k].route == r {
      WindowStays(windows[k], extents[k], seen[r], o);
    }
  }

  /** Positive observations stay held where extents only grow. */
  lemma HeldStays(seen: map<Route, seq<Observation>>, windows: seq<Window>, extents: seq<Extent>,
                  newWindows: seq<Window>, newExtents: seq<Extent>, r: Route, o: Observation)
    requires AllHeld(seen, windows, extents) && |newWindows| == |newExtents| >= |windows|
    requires forall k :: 0 <= k < |windows| ==>
      && newWindows[k].route == windows[k].route
      && newExtents[k].first == extents[k].first && newExtents[k].count >= extents[k].count
    requires o.Positive() ==> IsHeld(newWindows, newExtents, r, Len(seen, r))
    ensures AllHeld(More(seen, r, o), newWindows, newExtents)
  {
  }

  /** A block without a positive result for the route opens and extends nothing. */
  lemma SkipKeeps(seen: map<Route, seq<Observation>>, states: map<Route, RouteState>, windows: seq<Window>,
                  extents: seq<Extent>,
                  r: Route, o: Observation, kind: Kind, window: nat)
    requires IsJoined(seen, states, windows, extents) && !o.Positive()
    requires kind == if o.full && o.gross.Some? then NegativeKind else Unknown
    ensures IsJoined(More(seen, r, o), states[r := After(o, kind, window)], windows, extents)
  {
    var now := More(seen, r, o);
    HeldStays(seen, windows, extents, windows, extents, r, o);
    forall k | 0 <= k < |windows|
      ensures windows[k].route in now && IsWindow(windows[k], extents[k], now[windows[k].route])
    {
      WindowAt(seen, windows, extents, r, o, k);
    }
  }

  function Opened(r: Route, o: Observation, confirmed: bool): Window
    requires o.gross.Some?
  {
    Window(r, o.block.manifest, o.block.number, o.block.number, 1, confirmed, o.gross.value)
  }

  lemma OpenedWindow(seen: seq<Observation>, r: Route, o: Observation, confirmed: bool)
    requires o.Positive()
    requires confirmed <==> o.full && seen != [] && seen[|seen| - 1].Negative() && Follows(seen[|seen| - 1], o)
    ensures IsWindow(Opened(r, o, confirmed), Extent(|seen|, 1), seen + [o])
  {
  }

  lemma OpenStates(seen: map<Route, seq<Observation>>, states: map<Route, RouteState>, windows: seq<Window>,
                   extents: seq<Extent>,
                   r: Route, o: Observation, w: Window)
    requires AllStates(seen, states, windows, extents) && |windows| == |extents| && o.Positive() && w.route == r
    ensures AllStates(More(seen, r, o), states[r := After(o, if o.full then PositiveKind else Unknown, |windows|)],
                      windows + [w], extents + [Extent(Len(seen, r), 1)])
  {
  }

  lemma OpenApart(seen: map<Route, seq<Observation>>, windows: seq<Window>, extents: seq<Extent>, r: Route, w: Window)
    requires AllWindows(seen, windows, extents) && AreApart(windows, extents) && w.route == r
    ensures AreApart(windows + [w], extents + [Extent(Len(seen, r), 1)])
  {
  }

  /** A positive block that nothing leads up to opens a window of its own. */
  lemma OpenKeeps(seen: map<Route, seq<Observation>>, states: map<Route, RouteState>, windows: seq<Window>,
                  extents: seq<Extent>,
                  r: Route, o: Observation, confirmed: bool)
    requires IsJoined(seen, states, windows, extents) && o.Positive()
    requires confirmed <==>
      o.full && Len(seen, r) > 0 && seen[r][Len(seen, r) - 1].Negative() && Follows(seen[r][Len(seen, r) - 1], o)
    ensures IsJoined(More(seen, r, o), states[r := After(o, if o.full then PositiveKind else Unknown, |windows|)],
                     windows + [Opened(r, o, confirmed)], extents + [Extent(Len(seen, r), 1)])
  {
    hide IsWindow, IsState, Follows;
    var w := Opened(r, o, confirmed);
    var now, ws, es := More(seen, r, o), windows + [w], extents + [Extent(Len(seen, r), 1)];
    OpenStates(seen, states, windows, extents, r, o, w);
    OpenApart(seen, windows, extents, r, w);
    OpenedWindow(if r in seen then seen[r] else [], r, o, confirmed);
    assert Holds(ws[|windows|], es[|windows|], r, Len(seen, r));
    HeldStays(seen, windows, extents, ws, es, r, o);
    hide AllStates, AreApart, AllHeld;
    forall k | 0 <= k < |ws| ensures ws[k].route in now && IsWindow(ws[k], es[k], now[ws[k].route]) {
      if k < |windows| {
        WindowAt(seen, windows, extents, r, o, k);
      }
    }
  }

  function Extended(w: Window, o: Observation): Window
    requires o.gross.Some?
  {
    w.(endBlock := o.block.number, observations := w.observations + 1,
       best := if o.gross.value > w.best then o.gross.value else w.best)
  }

  lemma ExtendedWindow(w: Window, e: Extent, seen: seq<Observation>, o: Observation)
    requires IsWindow(w, e, seen) && e.first + e.count == |seen| && o.full && o.Positive()
    requires seen[|seen| - 1].full && Follows(seen[|seen| - 1], o)
    ensures IsWindow(Extended(w, o), e.(count := e.count + 1), seen + [o])
  {
    var more, best := seen + [o], Extended(w, o).best;
    assert more[|seen|] == o && forall i :: 0 <= i < |seen| ==> more[i] == seen[i];
    var i :| e.first <= i < e.first + e.count && seen[i].gross == Some(w.best);
    assert more[if o.gross.value > w.best then |seen| else i].gross == Some(best);
  }

  /** The windows and extents once window `k` has taken in one more observation. */
  ghost predicate IsExtension(windows: seq<Window>, extents: seq<Extent>, ws: seq<Window>, es: seq<Extent>,
                              o: Observation, k: nat)
  {
    && k < |windows| == |extents| && o.gross.Some?
    && ws == windows[k := Extended(windows[k], o)] && es == extents[k := extents[k].(count := extents[k].count + 1)]
  }

  /** What the extension of a window rests on. */
  ghost predicate CanExtend(seen: map<Route, seq<Observation>>, windows: seq<Window>, extents: seq<Extent>, r: Route,
                            o: Observation, k: nat)
  {
    && r in seen && seen[r] != [] && Follows(seen[r][|seen[r]| - 1], o) && seen[r][|seen[r]| - 1].full
    && k < |windows| == |extents| && windows[k].route == r && extents[k].first + extents[k].count == |seen[r]|
    && o.full && o.Positive() && forall j :: k < j < |windows| ==> windows[j].route != r
  }

  lemma Extension(windows: seq<Window>, extents: seq<Extent>, o: Observation, k: nat)
    requires k < |windows| == |extents| && o.gross.Some?
    ensures IsExtension(windows, extents, windows[k := Extended(windows[k], o)],
                        extents[k := extents[k].(count := extents[k].count + 1)], o, k)
  {
  }

  lemma ExtendApart(seen: map<Route, seq<Observation>>, windows: seq<Window>, extents: seq<Extent>, ws: seq<Window>,
                    es: seq<Extent>,
                    r: Route, o: Observation, k: nat)
    requires AreApart(windows, extents) && CanExtend(seen, windows, extents, r, o, k)
    requires IsExtension(windows, extents, ws, es, o, k)
    ensures AreApart(ws, es)
  {
  }

  lemma ExtendStates(seen: map<Route, seq<Observation>>, states: map<Route, RouteState>, windows: seq<Window>,
                     extents: seq<Extent>,
                     ws: seq<Window>, es: seq<Extent>, r: Route, o: Observation, k: nat)
    requires AllStates(seen, states, windows, extents)
    requires CanExtend(seen, windows, extents, r, o, k) && IsExtension(windows, extents, ws, es, o, k)
    ensures AllStates(More(seen, r, o), states[r := After(o, PositiveKind, k)], ws, es)
  {
  }

  lemma ExtendWindows(seen: map<Route, seq<Observation>>, windows: seq<Window>, extents: seq<Extent>, ws: seq<Window>,
                      es: seq<Extent>,
                      r: Route, o: Observation, k: nat)
    requires AllWindows(seen, windows, extents)
    requires CanExtend(seen, windows, extents, r, o, k) && IsExtension(windows, extents, ws, es, o, k)
    ensures AllWindows(More(seen, r, o), ws, es)
  {
    hide IsWindow;
    var now := More(seen, r, o);
    assert IsWindow(windows[k], extents[k], seen[r]);
    ExtendedWindow(windows[k], extents[k], seen[r], o);
    forall j | 0 <= j < |ws| ensures ws[j].route in now && IsWindow(ws[j], es[j], now[ws[j].route]) {
      if j != k {
        WindowAt(seen, windows, extents, r, o, j);
      }
    }
  }

  lemma ExtendHeld(seen: map<Route, seq<Observation>>, windows: seq<Window>, extents: seq<Extent>, ws: seq<Window>,
                   es: seq<Extent>,
                   r: Route, o: Observation, k: nat)
    requires AllHeld(seen, windows, extents)
    requires CanExtend(seen, windows, extents, r, o, k) && IsExtension(windows, extents, ws, es, o, k)
    ensures AllHeld(More(seen, r, o), ws, es)
  {
    assert Holds(ws[k], es[k], r, Len(seen, r));
    HeldStays(seen, windows, extents, ws, es, r, o);
  }

  /** A complete positive block right after another one extends its window. */
  lemma ExtendKeeps(seen: map<Route, seq<Observation>>, states: map<Route, RouteState>, windows: seq<Window>,
                    extents: seq<Extent>,
                    ws: seq<Window>, es: seq<Extent>, r: Route, o: Observation, k: nat)
    requires IsJoined(seen, states, windows, extents)
    requires CanExtend(seen, windows, extents, r, o, k) && IsExtension(windows, extents, ws, es, o, k)
    ensures IsJoined(More(seen, r, o), states[r := After(o, PositiveKind, k)], ws, es)
  {
    hide AllStates, AllWindows, AllHeld, AreApart, More, CanExtend, IsExtension;
    ExtendApart(seen, windows, extents, ws, es, r, o, k);
    ExtendStates(seen, states, windows, extents, ws, es, r, o, k);
    ExtendWindows(seen, windows, extents, ws, es, r, o, k);
    ExtendHeld(seen, windows, extents, ws, es, r, o, k);
  }

  /** What the remembered state of the route says about its last observation. */
  lemma Decides(seen: map<Route, seq<Observation>>, states: map<Route, RouteState>, windows: seq<Window>,
                extents: seq<Extent>,
                r: Route, o: Observation, previous: RouteState, continuous: bool)
    requires IsJoined(seen, states, windows, extents)
    requires r in states ==> previous == states[r] || (!continuous && previous == states[r].(kind := Unknown))
    requires r !in states ==> previous.kind == Unknown
    requires r in states ==>
      (continuous <==>
       && states[r].last + 1 == o.block.number && states[r].hash == o.block.parent
       && states[r].manifest == o.block.manifest)
    requires !continuous ==> previous.kind == Unknown
    ensures o.Positive() && o.full && continuous && previous.kind == PositiveKind ==>
      CanExtend(seen, windows, extents, r, o, previous.window)
    ensures continuous && previous.kind == NegativeKind <==>
      Len(seen, r) > 0 && seen[r][Len(seen, r) - 1].Negative() && Follows(seen[r][Len(seen, r) - 1], o)
  {
  }

  lemma LastSeen(seen: map<Route, seq<Observation>>, states: map<Route, RouteState>, windows: seq<Window>,
                 extents: seq<Extent>, r: Route)
    requires IsJoined(seen, states, windows, extents)
    ensures r in states <==> r in seen
    ensures r in states ==> Len(seen, r) > 0 && IsState(states[r], r, seen[r], windows, extents)
  {
  }

  class Analysis {
    var states: map<Route, RouteState>
    var windows: seq<Window>
    ghost var seen: map<Route, seq<Observation>>
    ghost var extents: seq<Extent>

    ghost predicate Valid()
      reads this
    {
      IsJoined(seen, states, windows, extents)
    }

    constructor ()
      ensures Valid() && windows == [] && seen == map[]
    {
      states, windows, seen, extents := map[], [], map[], [];
    }

    /** The step of the window machine for one block and one route. */
    method Observe(route: Route, o: Observation)
      requires Valid()
      modifies this
      ensures Valid() && seen == More(old(seen), route, o)
    {
      hide *;
      Joined(this);
      LastSeen(seen, states, windows, extents, route);
      var previous := if route in states then states[route] else RouteState(0, 0, 0, Unknown, 0);
      var continuous := previous.last + 1 == o.block.number && previous.hash == o.block.parent
          && previous.manifest == o.block.manifest;
      if !continuous {
        previous := previous.(kind := Unknown);
      }
      Decides(seen, states, windows, extents, route, o, previous, continuous);
      if o.Positive() {
        if o.full && continuous && previous.kind == PositiveKind {
          Extend(route, o, previous.window);
        } else {
          Open(route, o, o.full && continuous && previous.kind == NegativeKind);
        }
      } else {
        var kind := if o.full && o.gross.Some? then NegativeKind else Unknown;
        SkipKeeps(seen, states, windows, extents, route, o, kind, previous.window);
        seen := More(seen, route, o);
        states := states[route := After(o, kind, previous.window)];
        Sound(this);
      }
    }

    method Extend(route: Route, o: Observation, k: nat)
      requires Valid() && CanExtend(seen, windows, extents, route, o, k)
      modifies this
      ensures Valid() && seen == More(old(seen), route, o)
    {
      hide *;
      Joined(this);
      CanExtendHas(seen, windows, extents, route, o, k);
      var ws := windows[k := Extended(windows[k], o)];
      ghost var es := extents[k := extents[k].(count := extents[k].count + 1)];
      Extension(windows, extents, o, k);
      ExtendKeeps(seen, states, windows, extents, ws, es, route, o, k);
      windows, extents, seen := ws, es, More(seen, route, o);
      states := states[route := After(o, PositiveKind, k)];
      Sound(this);
    }

    method Open(route: Route, o: Observation, confirmed: bool)
      requires Valid() && o.Positive()
      requires confirmed <==>
        && o.full && Len(seen, route) > 0
        && seen[route][Len(seen, route) - 1].Negative() && Follows(seen[route][Len(seen, route) - 1], o)
      modifies this
      ensures Valid() && seen == More(old(seen), route, o)
    {
      OpenKeeps(seen, states, windows, extents, route, o, confirmed);
      hide IsJoined, More;
      var k := |windows|;
      windows := windows + [Opened(route, o, confirmed)];
      extents := extents + [Extent(Len(seen, route), 1)];
      seen := More(seen, route, o);
      states := states[route := After(o, if o.full then PositiveKind else Unknown, k)];
    }
  }

  lemma Joined(r: Analysis)
    requires r.Valid()
    ensures IsJoined(r.seen, r.states, r.windows, r.extents)
  {
  }

  lemma CanExtendHas(seen: map<Route, seq<Observation>>, windows: seq<Window>, extents: seq<Extent>, r: Route,
                     o: Observation, k: nat)
    requires CanExtend(seen, windows, extents, r, o, k)
    ensures k < |windows| == |extents| && o.gross.Some?
  {
  }

  lemma Sound(r: Analysis)
    requires IsJoined(r.seen, r.states, r.windows, r.extents)
    ensures r.Valid()
  {
  }

  // ------------------------------------------------------------- the whole report

  datatype Settings = Settings(sizes: seq<nat>, usdc: Hash, usdt: Hash, capital: nat)

  predicate IsCapital(q: Quote, settings: Settings) {
    && q.role == CapitalEntry && q.ok && q.exactIn && q.tokenIn == settings.usdt && q.tokenOut == settings.usdc
    && q.requested == settings.capital && q.amountIn == Some(q.requested) && q.amountOut.Some?
  }

  /** The budget is what the last capital quote pays out. */
  ghost predicate IsBudget(qs: seq<Quote>, n: nat, settings: Settings, budget: Option<int>)
    requires n <= |qs|
  {
    match budget
    case None => forall i :: 0 <= i < n ==> !IsCapital(qs[i], settings)
    case Some(x) => exists k :: 0 <= k < n && IsCapital(qs[k], settings) && qs[k].amountOut == Some(x) &&
                                forall i :: k < i < n ==> !IsCapital(qs[i], settings)
  }

  method Budget(qs: seq<Quote>, settings: Settings) returns (budget: Option<int>)
    ensures IsBudget(qs, |qs|, settings, budget)
  {
    budget := None;
    for i := 0 to |qs|
      invariant IsBudget(qs, i, settings, budget)
    {
      if IsCapital(qs[i], settings) {
        budget := qs[i].amountOut;
      }
    }
  }

  function QuotesOf(quotes: map<Hash, seq<Quote>>, b: Block): seq<Quote> {
    if b.batch in quotes then quotes[b.batch] else []
  }

  /** What the quotes of a block say about a route, and nothing else. */
  ghost predicate IsJudgement(o: Observation, b: Block, quotes: map<Hash, seq<Quote>>, route: Route, settings: Settings)
  {
    && o.block == b
    && var qs := QuotesOf(quotes, b);
      exists budget: Option<int>, best: Option<nat> ::
        && (if b.intact then IsBudget(qs, |qs|, settings, budget) else budget == None)
        && IsBest(qs, |qs|, route, b, settings.sizes, settings.usdc, b.intact, budget, best)
        && o.gross == (if best.Some? then Some(Gross(qs[best.value])) else None)
        && (o.full <==>
            && b.intact && budget.Some? && b.live && AllSound(qs, |qs|, route, b, settings.sizes, settings.usdc)
            && |Sizes(qs, |qs|, route)| == |settings.sizes|)
  }

  method Assess(b: Block, quotes: map<Hash, seq<Quote>>, route: Route, settings: Settings, budget: Option<int>)
    returns (o: Observation)
    requires if b.intact then IsBudget(QuotesOf(quotes, b), |QuotesOf(quotes, b)|, settings, budget) else budget == None
    ensures IsJudgement(o, b, quotes, route, settings)
  {
    var qs := QuotesOf(quotes, b);
    var full, best := Judge(qs, route, b, settings.sizes, settings.usdc, b.intact, budget);
    hide IsBest, IsBudget, AllSound, Sizes, IsCandidate;
    assert best.Some? ==> qs[best.value].amountOut.Some? by {
      BestHasResult(qs, route, b, settings, budget, best);
    }
    o := Observation(b, full, if best.Some? then Some(Gross(qs[best.value])) else None);
  }

  lemma BestHasResult(qs: seq<Quote>, route: Route, b: Block, settings: Settings, budget: Option<int>,
                      best: Option<nat>)
    requires IsBest(qs, |qs|, route, b, settings.sizes, settings.usdc, b.intact, budget, best)
    ensures best.Some? ==> best.value < |qs| && qs[best.value].amountOut.Some?
  {
  }

  function Usable(blocks: seq<Block>): (us: seq<Block>)
    ensures forall b :: b in us <==> b in blocks && b.usable
  {
    if blocks == [] then [] else
      var front := Usable(blocks[..|blocks| - 1]);
      var last := blocks[|blocks| - 1];
      assert blocks == blocks[..|blocks| - 1] + [last];
      if last.usable then front + [last] else front
  }

  lemma UsableSteps(blocks: seq<Block>, n: nat)
    requires n < |blocks|
    ensures Usable(blocks[..n + 1]) == Usable(blocks[..n]) + if blocks[n].usable then [blocks[n]] else []
  {
    assert blocks[..n + 1][..n] == blocks[..n];
  }

  /** Route by route, one judgement for every block in turn. */
  ghost predicate AreJudged(seen: map<Route, seq<Observation>>, routes: seq<Route>, us: seq<Block>,
                            quotes: map<Hash, seq<Quote>>,
                            settings: Settings, from: nat, upTo: nat)
  {
    forall t :: from <= t < upTo && t < |routes| ==> IsHistory(seen, routes[t], us, quotes, settings)
  }

  ghost predicate IsHistory(seen: map<Route, seq<Observation>>, route: Route, us: seq<Block>,
                            quotes: map<Hash, seq<Quote>>,
                            settings: Settings)
  {
    && Len(seen, route) == |us|
    && forall i :: 0 <= i < |us| ==> IsJudgement(seen[route][i], us[i], quotes, route, settings)
  }

  lemma OneMoreJudgement(seen: map<Route, seq<Observation>>, routes: seq<Route>, us: seq<Block>,
                         quotes: map<Hash, seq<Quote>>,
                         settings: Settings, t: nat, b: Block, o: Observation)
    requires AreDistinct(routes) && t < |routes| && IsJudgement(o, b, quotes, routes[t], settings)
    requires AreJudged(seen, routes, us + [b], quotes, settings, 0, t)
    requires AreJudged(seen, routes, us, quotes, settings, t, |routes|)
    ensures AreJudged(More(seen, routes[t], o), routes, us + [b], quotes, settings, 0, t + 1)
    ensures AreJudged(More(seen, routes[t], o), routes, us, quotes, settings, t + 1, |routes|)
  {
  }

  /** Judges every usable block for every route and joins the judgements to windows. */
  method Analyze(blocks: seq<Block>, quotes: map<Hash, seq<Quote>>, routes: seq<Route>, settings: Settings)
    returns (r: Analysis)
    requires AreDistinct(routes)
    ensures fresh(r) && r.Valid()
    ensures AreJudged(r.seen, routes, Usable(blocks), quotes, settings, 0, |routes|)
  {
    hide *;
    r := new Analysis();
    NothingJudged(routes, quotes, settings);
    NothingUsable(blocks);
    for n := 0 to |blocks|
      invariant fresh(r) && r.Valid()
      invariant AreJudged(r.seen, routes, Usable(blocks[..n]), quotes, settings, 0, |routes|)
    {
      var b := blocks[n];
      UsableSteps(blocks, n);
      ghost var us := Usable(blocks[..n]);
      if b.usable {
        var budget := None;
        if b.intact {
          budget := Budget(QuotesOf(quotes, b), settings);
        }
        NoneYet(r.seen, routes, us + [b], quotes, settings);
        for t := 0 to |routes|
          invariant fresh(r) && r.Valid()
          invariant AreJudged(r.seen, routes, us + [b], quotes, settings, 0, t)
          invariant AreJudged(r.seen, routes, us, quotes, settings, t, |routes|)
        {
          var o := Assess(b, quotes, routes[t], settings, budget);
          OneMoreJudgement(r.seen, routes, us, quotes, settings, t, b, o);
          r.Observe(routes[t], o);
        }
      } else {
        assert us + [] == us;
      }
    }
    assert blocks[..|blocks|] == blocks;
  }

  lemma NothingUsable(blocks: seq<Block>)
    ensures Usable(blocks[..0]) == []
  {
  }

  lemma NothingJudged(routes: seq<Route>, quotes: map<Hash, seq<Quote>>, settings: Settings)
    ensures AreJudged(map[], routes, [], quotes, settings, 0, |routes|)
  {
  }

  lemma NoneYet(seen: map<Route, seq<Observation>>, routes: seq<Route>, us: seq<Block>, quotes: map<Hash, seq<Quote>>,
                settings: Settings)
    ensures AreJudged(seen, routes, us, quotes, settings, 0, 0)
  {
  }

  // ----------------------------------------------------- what a report can claim

  /** A window covers consecutive heights: as many as it has observations. */
  lemma WindowCoversItsHeights(w: Window, e: Extent, seen: seq<Observation>, i: nat)
    requires IsWindow(w, e, seen) && e.first <= i < e.first + e.count
    ensures seen[i].block.number == w.startBlock + (i - e.first)
    ensures w.observations == w.endBlock - w.startBlock + 1
  {
    HeightAt(w, e, seen, i);
    HeightAt(w, e, seen, e.first + e.count - 1);
  }

  lemma {:induction false} HeightAt(w: Window, e: Extent, seen: seq<Observation>, i: nat)
    requires IsWindow(w, e, seen) && e.first <= i < e.first + e.count
    ensures seen[i].block.number == w.startBlock + (i - e.first)
    decreases i
  {
    if i > e.first {
      HeightAt(w, e, seen, i - 1);
      assert Follows(seen[i - 1], seen[i]);
    }
  }

  /** Every positive observation belongs to exactly one window of its route. */
  lemma PositiveIsInOneWindow(r: Analysis, route: Route, i: nat)
    requires r.Valid() && route in r.seen && i < |r.seen[route]| && r.seen[route][i].Positive()
    ensures |r.windows| == |r.extents|
    ensures exists k :: 0 <= k < |r.windows| && Holds(r.windows[k], r.extents[k], route, i)
    ensures forall k, l :: 0 <= k < l < |r.windows| ==>
      !(Holds(r.windows[k], r.extents[k], route, i) && Holds(r.windows[l], r.extents[l], route, i))
  {
    assert IsHeld(r.windows, r.extents, route, i);
  }

  /** No window holds anything but positive observations, and its best is their
      maximum. */
  lemma BestIsMaximum(r: Analysis, k: nat)
    requires r.Valid() && k < |r.windows|
    ensures |r.extents| == |r.windows| && r.windows[k].route in r.seen
    ensures var w, e := r.windows[k], r.extents[k]; var seen := r.seen[w.route];
      && e.first + e.count <= |seen|
      && (forall i :: e.first <= i < e.first + e.count ==> seen[i].Positive() && seen[i].gross.value <= w.best)
      && (exists i :: e.first <= i < e.first + e.count && seen[i].gross == Some(w.best))
  {
    assert IsWindow(r.windows[k], r.extents[k], r.seen[r.windows[k].route]);
  }
}
