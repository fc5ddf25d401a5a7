// Exploration over a sequence of admissions: how often an order that stays eligible can be
// passed over.

module SelectionFairness {
  import opened SelectionRounds

  /** One admission: the waiting times before it, who could have been taken, and who
      was. */
  datatype Turn = Turn(fair: map<Key, int>, eligible: set<Key>, lane: Lane, key: Key, now: int)

  predicate WaitsBefore(fair: map<Key, int>, a: Key, b: Key)
    requires a in fair && b in fair
  {
    fair[a] < fair[b] || (fair[a] == fair[b] && a < b)
  }

  /** Nobody began to wait later than now. */
  ghost predicate IsWaiting(fair: map<Key, int>, now: int) { forall k :: k in fair ==> 0 < fair[k] <= now }

  /** The admission was fair: an exploring slot goes to the longest waiting. */
  ghost predicate IsTurn(t: Turn) {
    && t.key in t.eligible && t.eligible <= t.fair.Keys && IsWaiting(t.fair, t.now)
    && (t.lane == Explore ==> forall k :: k in t.eligible && k != t.key ==> WaitsBefore(t.fair, t.key, k))
  }

  ghost function AfterTurn(t: Turn): map<Key, int> { t.fair[t.key := t.now] }

  ghost function Taken(turns: seq<Turn>): set<Key> { set t | t in turns :: t.key }

  /** Between two admissions orders may become known, and one that was never taken may turn
      out to have been waiting longer. */
  ghost predicate IsDrift(before: map<Key, int>, after: map<Key, int>, taken: set<Key>) {
    && before.Keys <= after.Keys
    && forall k :: k in before ==> after[k] <= before[k] && (k in taken ==> after[k] == before[k])
  }

  ghost predicate IsNext(turns: seq<Turn>, i: nat)
    requires 0 < i < |turns|
  {
    turns[i - 1].now < turns[i].now && IsDrift(AfterTurn(turns[i - 1]), turns[i].fair, Taken(turns[..i]))
  }

  ghost predicate IsHistory(turns: seq<Turn>) {
    && (forall i :: 0 <= i < |turns| ==> IsTurn(turns[i]))
    && (forall i :: 0 < i < |turns| ==> IsNext(turns, i))
  }

  /** In the turns from `a` up to `b` the order was eligible and others were taken. */
  ghost predicate IsPassedOver(turns: seq<Turn>, a: nat, b: nat, x: Key) {
    a <= b <= |turns| && forall i :: a <= i < b ==> x in turns[i].eligible && turns[i].key != x
  }

  ghost function Explored(turns: seq<Turn>, a: nat, b: nat): nat
    requires a <= b <= |turns|
  {
    if a == b then 0 else Explored(turns, a, b - 1) + if turns[b - 1].lane == Explore then 1 else 0
  }

  ghost function Ahead(fair: map<Key, int>, x: Key): set<Key>
    requires x in fair
  {
    set k | k in fair && WaitsBefore(fair, k, x)
  }

  ghost predicate IsAheadAt(t: Turn, x: Key, k: Key) { k in t.fair && x in t.fair && WaitsBefore(t.fair, k, x) }

  /** Everyone who was ahead of the order at one of the turns. */
  ghost function EverAhead(turns: seq<Turn>, a: nat, b: nat, x: Key): set<Key>
    requires a <= b <= |turns|
  {
    set i, k | a <= i < b && k in turns[i].fair && IsAheadAt(turns[i], x, k) :: k
  }

  /** Whoever is taken then is still ahead of the order afterwards: the order began to wait
      at this very moment and has the greater key. */
  ghost predicate IsTie(t: Turn, x: Key) { x in t.fair && t.lane == Explore && t.now == t.fair[x] && t.key < x }

  lemma {:induction false} KeepsPlace(turns: seq<Turn>, i: nat, j: nat)
    requires IsHistory(turns) && i < j < |turns|
    ensures turns[i].now < turns[j].now
    ensures turns[i].key in turns[j].fair && turns[i].now <= turns[j].fair[turns[i].key]
    decreases j
  {
    assert IsNext(turns, j);
    assert turns[i] in turns[..j];
    if i < j - 1 {
      KeepsPlace(turns, i, j - 1);
    }
  }

  /** An order that is passed over keeps its place or gets a better one. */
  lemma {:induction false} PassedOverKeepsPlace(turns: seq<Turn>, a: nat, b: nat, i: nat, x: Key)
    requires IsHistory(turns) && IsPassedOver(turns, a, b, x) && a <= i < b
    ensures x in turns[a].fair && x in turns[i].fair && turns[i].fair[x] <= turns[a].fair[x]
    decreases i
  {
    if a < i {
      assert IsNext(turns, i);
      PassedOverKeepsPlace(turns, a, b, i - 1, x);
    }
  }

  /** Only the first of the turns can be a tie. */
  lemma OnlyTheFirstTies(turns: seq<Turn>, a: nat, b: nat, i: nat, x: Key)
    requires IsHistory(turns) && IsPassedOver(turns, a, b, x) && a < i < b
    ensures x in turns[i].fair && turns[i].fair[x] < turns[i].now
  {
    PassedOverKeepsPlace(turns, a, b, i, x);
    KeepsPlace(turns, a, i);
  }

  /** Nobody passes the order twice, other than by a tie. */
  lemma NobodyPassesTwice(turns: seq<Turn>, a: nat, b: nat, i: nat, j: nat, x: Key)
    requires IsHistory(turns) && IsPassedOver(turns, a, b, x) && a <= i < j < b
    requires turns[i].lane == Explore && turns[j].lane == Explore && !IsTie(turns[i], x)
    ensures turns[i].key != turns[j].key
  {
    KeepsPlace(turns, i, j);
    PassedOverKeepsPlace(turns, i, b, j, x);
    assert x in turns[j].eligible && x in turns[i].eligible;
    assert IsTurn(turns[i]) && IsTurn(turns[j]);
  }

  ghost function ExploredKeys(turns: seq<Turn>, a: nat, b: nat): set<Key>
    requires a <= b <= |turns|
  {
    set i | a <= i < b && turns[i].lane == Explore :: turns[i].key
  }

  /** The turn `n` goes to somebody who has not passed yet. */
  lemma FreshPasser(turns: seq<Turn>, a: nat, n: nat, x: Key)
    requires IsHistory(turns) && n < |turns| && IsPassedOver(turns, a, n + 1, x) && a <= n && !IsTie(turns[a], x)
    requires turns[n].lane == Explore
    ensures turns[n].key !in ExploredKeys(turns, a, n)
  {
    hide IsHistory, IsPassedOver, IsTie;
    forall i | a <= i < n && turns[i].lane == Explore ensures turns[i].key != turns[n].key {
      NotATie(turns, a, n + 1, i, x);
      NobodyPassesTwice(turns, a, n + 1, i, n, x);
    }
  }

  lemma NotATie(turns: seq<Turn>, a: nat, b: nat, i: nat, x: Key)
    requires IsHistory(turns) && IsPassedOver(turns, a, b, x) && a <= i < b && !IsTie(turns[a], x)
    ensures !IsTie(turns[i], x)
  {
    if a < i {
      OnlyTheFirstTies(turns, a, b, i, x);
    }
  }

  lemma {:induction false} DistinctPassers(turns: seq<Turn>, a: nat, b: nat, x: Key)
    requires IsHistory(turns) && IsPassedOver(turns, a, b, x) && (a < b ==> !IsTie(turns[a], x))
    ensures Explored(turns, a, b) == |ExploredKeys(turns, a, b)|
    decreases b
  {
    if a < b {
      assert IsPassedOver(turns, a, b - 1, x);
      hide IsHistory, IsPassedOver, IsTie;
      hide ExploredKeys;
      DistinctPassers(turns, a, b - 1, x);
      ExploredMore(turns, a, b);
      if turns[b - 1].lane == Explore {
        FreshPasser(turns, a, b - 1, x);
      }
    }
  }

  lemma ExploredMore(turns: seq<Turn>, a: nat, b: nat)
    requires a < b <= |turns|
    ensures var more := if turns[b - 1].lane == Explore then {turns[b - 1].key} else {};
      ExploredKeys(turns, a, b) == ExploredKeys(turns, a, b - 1) + more
  {
  }

  lemma Smaller(a: set<Key>, b: set<Key>)
    requires a <= b
    ensures |a| <= |b|
  {
    assert b == a + (b - a);
  }

  lemma PassersWereAhead(turns: seq<Turn>, a: nat, c: nat, b: nat, x: Key)
    requires IsHistory(turns) && IsPassedOver(turns, a, b, x) && a <= c <= b
    ensures ExploredKeys(turns, c, b) <= EverAhead(turns, a, b, x)
  {
    forall k | k in ExploredKeys(turns, c, b) ensures k in EverAhead(turns, a, b, x) {
      var i :| c <= i < b && turns[i].lane == Explore && turns[i].key == k;
      assert IsTurn(turns[i]) && x in turns[i].eligible;
      assert IsAheadAt(turns[i], x, k);
    }
  }

  lemma {:induction false} FirstAndRest(turns: seq<Turn>, a: nat, b: nat)
    requires a < b <= |turns|
    ensures Explored(turns, a, b) == Explored(turns, a + 1, b) + if turns[a].lane == Explore then 1 else 0
    decreases b
  {
    if a + 1 < b {
      FirstAndRest(turns, a, b - 1);
    }
  }

  /** An order that stays eligible is passed over by at most as many exploring admissions as
      orders were ever ahead of it, and by one more only if the first of them is a tie. */
  lemma ExplorationIsFair(turns: seq<Turn>, a: nat, b: nat, x: Key)
    requires IsHistory(turns) && IsPassedOver(turns, a, b, x) && a < b
    ensures Explored(turns, a, b) <= |EverAhead(turns, a, b, x)| + if IsTie(turns[a], x) then 1 else 0
  {
    var c := if IsTie(turns[a], x) then a + 1 else a;
    if c < b && c != a {
      OnlyTheFirstTies(turns, a, b, c, x);
    }
    DistinctPassers(turns, c, b, x);
    PassersWereAhead(turns, a, c, b, x);
    Smaller(ExploredKeys(turns, c, b), EverAhead(turns, a, b, x));
    FirstAndRest(turns, a, b);
  }

  /** In the turns from `a` up to `b` only admissions move the waiting times. */
  ghost predicate IsQuiet(turns: seq<Turn>, a: nat, b: nat) {
    a <= b <= |turns| && forall i :: a < i < b ==> turns[i].fair == AfterTurn(turns[i - 1])
  }

  lemma {:induction false} NobodyGetsAhead(turns: seq<Turn>, a: nat, b: nat, i: nat, x: Key)
    requires IsHistory(turns) && IsPassedOver(turns, a, b, x) && IsQuiet(turns, a, b) && a <= i < b
    ensures x in turns[a].fair && x in turns[i].fair && turns[i].fair[x] == turns[a].fair[x]
    ensures Ahead(turns[i].fair, x) <= Ahead(turns[a].fair, x)
    decreases i
  {
    if a < i {
      NobodyGetsAhead(turns, a, b, i - 1, x);
      var t := turns[i - 1];
      assert IsTurn(t) && turns[i].fair == AfterTurn(t);
    }
  }

  /** With a fixed population it is passed over by at most as many exploring admissions as
      orders rank at or before it, itself included. */
  lemma FixedPopulationIsFair(turns: seq<Turn>, a: nat, b: nat, x: Key)
    requires IsHistory(turns) && IsPassedOver(turns, a, b, x) && IsQuiet(turns, a, b) && a < b
    ensures x in turns[a].fair
    ensures Explored(turns, a, b) <= |Ahead(turns[a].fair, x)| + if IsTie(turns[a], x) then 1 else 0
    ensures Explored(turns, a, b) <= |Ahead(turns[a].fair, x) + {x}|
  {
    NobodyGetsAhead(turns, a, b, a, x);
    forall k | k in EverAhead(turns, a, b, x) ensures k in Ahead(turns[a].fair, x) {
      var i :| a <= i < b && k in turns[i].fair && IsAheadAt(turns[i], x, k);
      NobodyGetsAhead(turns, a, b, i, x);
      assert k in Ahead(turns[i].fair, x);
    }
    ExplorationIsFair(turns, a, b, x);
    Smaller(EverAhead(turns, a, b, x), Ahead(turns[a].fair, x));
    assert x !in Ahead(turns[a].fair, x);
  }
}
