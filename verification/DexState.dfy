// The DEX runtime coverage state: which block heights are covered, and by which
// active (canonical, not yet finalized) block keys.

module DexState {
  import opened Intervals

  // Hashes are opaque identities; the zero hash is the invalid one.
  type Hash = nat

  datatype Key = Key(number: uint64, hash: Hash)

  datatype Block = Block(
    manifest: Hash, chainId: nat, number: uint64, hash: Hash, batch: Hash,
    revision: uint64, canonical: bool, finality: string, committed: bool,
    availableAt: int, members: nat)
  {
    function Id(): Key { Key(number, hash) }

    predicate Final() { canonical && finality == "finalized" }

    predicate Live() { canonical && finality != "finalized" }

    function State(): BlockState { BlockState(number, revision, hash, availableAt) }
  }

  datatype BlockState = BlockState(number: uint64, revision: uint64, hash: Hash, availableAt: int)

  datatype Error = Conflict | Regressed

  datatype Result<T> = Success(value: T) | Failure(error: Error)

  /** What the state means: the active keys and the set of finalized heights. */
  datatype Meaning = Meaning(active: map<Key, BlockState>, finalized: set<nat>)

  ghost predicate MeaningOk(v: Meaning) {
    forall k :: k in v.active ==> v.active[k].number == k.number
  }

  ghost function HeightsOf(active: map<Key, BlockState>): set<nat> {
    set k | k in active :: k.number as nat
  }

  /** A height is covered by an active key or because it was once finalized. */
  ghost function Covered(v: Meaning): set<nat> { HeightsOf(v.active) + v.finalized }

  ghost function KeysAt(active: map<Key, BlockState>, h: nat): set<Key> {
    set k | k in active && k.number == h
  }

  predicate Accepts(manifest: Hash, b: Block) {
    b.manifest == manifest && b.chainId == 1 && b.committed && b.number != 0 && b.revision != 0 && b.hash != 0
  }

  function ApplyBlock(manifest: Hash, v: Meaning, b: Block): Result<Meaning> {
    if !Accepts(manifest, b) then Failure(Conflict)
    else if b.Id() in v.active && b.revision < v.active[b.Id()].revision then Failure(Regressed)
    else Success(Meaning(
      if b.Live() then v.active[b.Id() := b.State()] else v.active - {b.Id()},
      if b.Final() then v.finalized + {b.number} else v.finalized))
  }

  // ---------------------------------------------------------------- intervals

  /** The first interval that ends at or after `n`, or (with `touching`) right before it. */
  method Search(ranges: seq<Interval>, n: uint64, touching: bool) returns (i: nat)
    requires Normal(ranges)
    ensures i <= |ranges|
    ensures forall j :: 0 <= j < i ==> ranges[j].to < n && !(touching && ranges[j].to + 1 == n)
    ensures i < |ranges| ==> ranges[i].to >= n || (touching && ranges[i].to + 1 == n)
  {
    i := 0;
    var hi := |ranges|;
    while i < hi
      invariant 0 <= i <= hi <= |ranges|
      invariant forall j :: 0 <= j < i ==> ranges[j].to < n && !(touching && ranges[j].to + 1 == n)
      invariant hi < |ranges| ==> ranges[hi].to >= n || (touching && ranges[hi].to + 1 == n)
    {
      var mid := (i + hi) / 2;
      if ranges[mid].to >= n || (touching && ranges[mid].to != MAX_UINT64 && ranges[mid].to + 1 == n) {
        hi := mid;
      } else {
        i := mid + 1;
      }
    }
  }

  method Contains(ranges: seq<Interval>, n: uint64) returns (found: bool)
    requires Normal(ranges)
    ensures found <==> Has(ranges, n)
  {
    var i := Search(ranges, n, false);
    found := i < |ranges| && ranges[i].from <= n;
  }

  /** The list with the intervals `lo..hi` replaced by `parts`. */
  function Splice(ranges: seq<Interval>, lo: nat, hi: nat, parts: seq<Interval>): seq<Interval>
    requires lo <= hi <= |ranges|
  {
    ranges[..lo] + parts + ranges[hi..]
  }

  lemma SpliceNormal(ranges: seq<Interval>, lo: nat, hi: nat, parts: seq<Interval>)
    requires lo <= hi <= |ranges| && Normal(ranges) && Normal(parts)
    requires lo > 0 && |parts| > 0 ==> ranges[lo - 1].to + 1 < parts[0].from
    requires |parts| > 0 && hi < |ranges| ==> parts[|parts| - 1].to + 1 < ranges[hi].from
    ensures Normal(Splice(ranges, lo, hi, parts))
  {
    var head, tail := ranges[..lo], ranges[hi..];
    assert Normal(head) && Normal(tail);
    assert lo > 0 && hi < |ranges| ==> ranges[lo - 1].to + 1 < ranges[hi].from;
    hide Normal;
    NormalConcat(head, parts);
    NormalConcat(head + parts, tail);
  }

  /** Membership after a splice. */
  lemma SpliceHas(ranges: seq<Interval>, lo: nat, hi: nat, parts: seq<Interval>, m: int)
    requires lo <= hi <= |ranges|
    ensures Has(Splice(ranges, lo, hi, parts), m) <==> Has(ranges[..lo], m) || Has(parts, m) || Has(ranges[hi..], m)
    ensures Has(ranges, m) <==> Has(ranges[..lo], m) || Has(ranges[lo..hi], m) || Has(ranges[hi..], m)
  {
    HasConcat(ranges[..lo] + parts, ranges[hi..], m);
    HasConcat(ranges[..lo], parts, m);
    assert ranges == ranges[..lo] + ranges[lo..hi] + ranges[hi..];
    HasConcat(ranges[..lo] + ranges[lo..hi], ranges[hi..], m);
    HasConcat(ranges[..lo], ranges[lo..hi], m);
  }

  lemma Slice1(ranges: seq<Interval>, i: nat, m: int)
    requires i < |ranges|
    ensures Has(ranges[i..i + 1], m) <==> ranges[i].from <= m <= ranges[i].to
  {
  }

  lemma Slice2(ranges: seq<Interval>, i: nat, m: int)
    requires i + 1 < |ranges|
    ensures Has(ranges[i..i + 2], m) <==>
      ranges[i].from <= m <= ranges[i].to || ranges[i + 1].from <= m <= ranges[i + 1].to
  {
    assert ranges[i..i + 2] == [ranges[i], ranges[i + 1]];
    HasTwo(ranges[i], ranges[i + 1], m);
  }

  /** Replacing neighbours by the interval that holds exactly their heights and
      `n` adds `n` and nothing else. */
  lemma SpliceAdds(ranges: seq<Interval>, lo: nat, hi: nat, r: Interval, n: uint64)
    requires lo <= hi <= |ranges|
    requires forall m :: Has([r], m) <==> m == n || Has(ranges[lo..hi], m)
    ensures Elements(Splice(ranges, lo, hi, [r])) == Elements(ranges) + {n}
  {
    forall m: nat ensures Has(Splice(ranges, lo, hi, [r]), m) <==> Has(ranges, m) || m == n {
      SpliceHas(ranges, lo, hi, [r], m);
      assert Has([r], m) <==> m == n || Has(ranges[lo..hi], m);
    }
  }

  /** The three shapes an insertion can take. */
  lemma InsertHas(ranges: seq<Interval>, i: nat, n: uint64)
    requires i <= |ranges|
    ensures forall m :: Has([Interval(n, n)], m) <==> m == n || Has(ranges[i..i], m)
  {
    forall m ensures Has([Interval(n, n)], m) <==> m == n || Has(ranges[i..i], m) {
      HasOne(Interval(n, n), m);
    }
  }

  lemma ExtendHas(ranges: seq<Interval>, i: nat, r: Interval, n: uint64)
    requires i < |ranges| && ranges[i].from <= ranges[i].to
    requires ranges[i].from <= n + 1 && n <= ranges[i].to + 1
    requires r.from == (if ranges[i].from < n then ranges[i].from else n)
    requires r.to == (if ranges[i].to > n then ranges[i].to else n)
    ensures forall m :: Has([r], m) <==> m == n || Has(ranges[i..i + 1], m)
  {
    forall m ensures Has([r], m) <==> m == n || Has(ranges[i..i + 1], m) {
      HasOne(r, m);
      Slice1(ranges, i, m);
    }
  }

  lemma JoinHas(ranges: seq<Interval>, i: nat, r: Interval, n: uint64)
    requires i + 1 < |ranges| && Normal(ranges)
    requires ranges[i].from <= n + 1 && n == ranges[i].to + 1 && n + 1 == ranges[i + 1].from
    requires r == Interval(ranges[i].from, ranges[i + 1].to)
    ensures forall m :: Has([r], m) <==> m == n || Has(ranges[i..i + 2], m)
  {
    forall m ensures Has([r], m) <==> m == n || Has(ranges[i..i + 2], m) {
      HasOne(r, m);
      Slice2(ranges, i, m);
    }
  }

  method Add(ranges: seq<Interval>, n: uint64) returns (out: seq<Interval>)
    requires Normal(ranges)
    ensures Normal(out)
    ensures Elements(out) == Elements(ranges) + {n}
  {
    var i := Search(ranges, n, true);
    var hi := i;
    var r := Interval(n, n);
    if i == |ranges| || (ranges[i].from > n && ranges[i].from - n > 1) {
      InsertHas(ranges, i, n);
    } else {
      r := Interval(if ranges[i].from < n then ranges[i].from else n, if ranges[i].to > n then ranges[i].to else n);
      hi := i + 1;
      ExtendHas(ranges, i, r, n);
      if hi < |ranges| && r.to != MAX_UINT64 && r.to + 1 >= ranges[hi].from {
        r := Interval(r.from, if r.to > ranges[hi].to then r.to else ranges[hi].to);
        hi := hi + 1;
        JoinHas(ranges, i, r, n);
      }
    }
    out := Splice(ranges, i, hi, [r]);
    SpliceNormal(ranges, i, hi, [r]);
    SpliceAdds(ranges, i, hi, r, n);
  }

  lemma CutHas(ranges: seq<Interval>, i: nat, n: uint64, parts: seq<Interval>, m: int)
    requires Normal(ranges) && i < |ranges| && ranges[i].from <= n <= ranges[i].to
    requires Has(parts, m) <==> ranges[i].from <= m <= ranges[i].to && m != n
    ensures Has(Splice(ranges, i, i + 1, parts), m) <==> Has(ranges, m) && m != n
  {
    SpliceHas(ranges, i, i + 1, parts, m);
    Slice1(ranges, i, m);
  }

  function Cut(r: Interval, n: uint64): (parts: seq<Interval>)
    requires r.from <= n <= r.to
  {
    if r.from == n && r.to == n then []
    else if r.from == n then [Interval(r.from + 1, r.to)]
    else if r.to == n then [Interval(r.from, r.to - 1)]
    else [Interval(r.from, n - 1), Interval(n + 1, r.to)]
  }

  lemma CutOut(r: Interval, n: uint64, m: int)
    requires r.from <= n <= r.to
    ensures Has(Cut(r, n), m) <==> r.from <= m <= r.to && m != n
  {
    var parts := Cut(r, n);
    if |parts| == 1 {
      HasOne(parts[0], m);
    } else if |parts| == 2 {
      HasTwo(parts[0], parts[1], m);
    }
  }

  method Remove(ranges: seq<Interval>, n: uint64) returns (out: seq<Interval>)
    requires Normal(ranges)
    ensures Normal(out)
    ensures Elements(out) == Elements(ranges) - {n}
  {
    var i := Search(ranges, n, false);
    if i == |ranges| || ranges[i].from > n {
      return ranges;
    }
    out := Splice(ranges, i, i + 1, Cut(ranges[i], n));
    SpliceNormal(ranges, i, i + 1, Cut(ranges[i], n));
    forall m: nat ensures Has(out, m) <==> Has(ranges, m) && m != n {
      CutOut(ranges[i], n, m);
      CutHas(ranges, i, n, Cut(ranges[i], n), m);
    }
  }

  // ------------------------------------------------------------ the live state

  /** `n` is missing although both a lower and a higher height are present. */
  ghost predicate Hole(s: set<nat>, n: nat) {
    && n !in s
    && (exists a :: a in s && a < n)
    && (exists b :: b in s && b > n)
  }

  /** The per-height counters count exactly the active keys of that height. */
  ghost predicate Counts(active: map<Key, BlockState>, heights: map<uint64, nat>) {
    && (forall h: uint64 :: h in heights <==> KeysAt(active, h) != {})
    && (forall h: uint64 :: h in heights ==> heights[h] == |KeysAt(active, h)|)
  }

  function CountAt(heights: map<uint64, nat>, h: uint64): nat {
    if h in heights then heights[h] else 0
  }

  class State {
    const manifest: Hash
    var coverage: seq<Interval>
    var finalized: seq<Interval>
    var active: map<Key, BlockState>
    var heights: map<uint64, nat>

    ghost function View(): Meaning
      reads this
    {
      Meaning(active, Elements(finalized))
    }

    ghost predicate Valid()
      reads this
    {
      && Normal(coverage) && Normal(finalized)
      && MeaningOk(View())
      && Counts(active, heights)
      && Elements(coverage) == Covered(View())
      && !Has(coverage, 0)
    }

    constructor (manifest: Hash)
      ensures Valid() && View() == Meaning(map[], {}) && this.manifest == manifest
    {
      this.manifest := manifest;
      coverage, finalized, active, heights := [], [], map[], map[];
    }

    /** The part of `Apply` that tracks the key and its height counter. */
    method Track(b: Block) returns (n: nat)
      requires Counts(active, heights)
      modifies this`active, this`heights
      ensures Counts(active, heights)
      ensures active == if b.Live() then old(active)[b.Id() := b.State()] else old(active) - {b.Id()}
      ensures n == |KeysAt(active, b.number)|
    {
      var id := b.Id();
      var known := id in active;
      n := CountAt(heights, b.number);
      CountsSet(active, heights, id, b.State());
      CountsDelete(active, heights, id);
      if b.Live() {
        if !known {
          n := n + 1;
          heights := heights[b.number := n];
        }
        active := active[id := b.State()];
      } else if known {
        n := n - 1;
        active := active - {id};
        heights := if n == 0 then heights - {b.number} else heights[b.number := n];
      } else {
        assert active - {id} == active;
      }
    }

    method SetCovered(n: uint64, keep: bool)
      requires Normal(coverage) && !Has(coverage, 0) && n != 0
      modifies this`coverage
      ensures Normal(coverage) && !Has(coverage, 0)
      ensures Elements(coverage) == if keep then old(Elements(coverage)) + {n} else old(Elements(coverage)) - {n}
    {
      ghost var before := Elements(coverage);
      assert 0 !in before;
      if keep {
        coverage := Add(coverage, n);
      } else {
        coverage := Remove(coverage, n);
      }
      assert 0 !in Elements(coverage);
    }

    method Apply(b: Block) returns (r: Result<()>)
      requires Valid()
      modifies this
      ensures Valid()
      ensures r.Failure? <==> ApplyBlock(manifest, old(View()), b).Failure?
      ensures r.Failure? ==> r.error == ApplyBlock(manifest, old(View()), b).error
      ensures r.Failure? ==> unchanged(this)
      ensures r.Success? ==> ApplyBlock(manifest, old(View()), b) == Success(View())
    {
      if !Accepts(manifest, b) {
        return Failure(Conflict);
      }
      if b.Id() in active && b.revision < active[b.Id()].revision {
        return Failure(Regressed);
      }
      CoveredAfter(manifest, View(), b);
      var n := Track(b);
      if b.Final() {
        finalized := Add(finalized, b.number);
      }
      var isFinal := Contains(finalized, b.number);
      SetCovered(b.number, b.canonical || n > 0 || isFinal);
      r := Success(());
    }

    /** The least hole in the coverage, or 0 when there is none. */
    method Gap() returns (g: nat)
      requires Valid()
      ensures g == 0 ==> forall n :: !Hole(Covered(View()), n)
      ensures g != 0 ==> Hole(Covered(View()), g) && forall n: nat :: n < g ==> !Hole(Covered(View()), n)
    {
      assert Covered(View()) == Elements(coverage);
      HolesOf(coverage);
      g := if |coverage| < 2 then 0 else coverage[0].to + 1;
    }
  }

  lemma CountsSet(active: map<Key, BlockState>, heights: map<uint64, nat>, id: Key, s: BlockState)
    requires Counts(active, heights)
    ensures var n := CountAt(heights, id.number);
      && n == |KeysAt(active, id.number)|
      && (id in active ==> Counts(active[id := s], heights) && |KeysAt(active[id := s], id.number)| == n)
      && (id !in active ==>
          Counts(active[id := s], heights[id.number := n + 1]) && |KeysAt(active[id := s], id.number)| == n + 1)
  {
    var after := active[id := s];
    assert KeysAt(after, id.number) == KeysAt(active, id.number) + {id};
    assert id in active ==> id in KeysAt(active, id.number);
    forall h: uint64 | h != id.number ensures KeysAt(after, h) == KeysAt(active, h) {}
    if id in active {
      forall h: uint64 ensures KeysAt(after, h) == KeysAt(active, h) {}
    }
  }

  lemma CountsDelete(active: map<Key, BlockState>, heights: map<uint64, nat>, id: Key)
    requires Counts(active, heights)
    ensures id in active ==>
      var n := CountAt(heights, id.number);
      && n > 0
      && Counts(active - {id}, if n == 1 then heights - {id.number} else heights[id.number := n - 1])
      && |KeysAt(active - {id}, id.number)| == n - 1
  {
    if id in active {
      var after := active - {id};
      assert id in KeysAt(active, id.number);
      assert KeysAt(after, id.number) == KeysAt(active, id.number) - {id};
      var n := CountAt(heights, id.number);
      assert |KeysAt(after, id.number)| == n - 1;
      assert KeysAt(after, id.number) == {} <==> n == 1;
      forall h: uint64 | h != id.number ensures KeysAt(after, h) == KeysAt(active, h) {}
    }
  }

  /** A block on its fields: it belongs to this state if its manifest is the state's, its chain is
      the first, it is committed and names number, revision and hash; an active key never goes back
      to a lower revision. It is active while it is canonical and not finalized, its height stays
      finalized once it is both, and nothing else changes. */
  lemma ApplyMeans(manifest: Hash, v: Meaning, b: Block)
    ensures var r, key := ApplyBlock(manifest, v, b), Key(b.number, b.hash);
      var foreign := b.manifest != manifest || b.chainId != 1 || !b.committed || b.number == 0 || b.revision == 0
        || b.hash == 0;
      var older := key in v.active && v.active[key].revision > b.revision;
      && (r.Failure? <==> foreign || older)
      && (r.Failure? ==> r.error == if foreign then Conflict else Regressed)
      && (r.Success? ==>
        && (key in r.value.active <==> b.canonical && b.finality != "finalized")
        && (key in r.value.active ==>
          r.value.active[key] == BlockState(b.number, b.revision, b.hash, b.availableAt))
        && (forall k :: k != key ==>
          (k in r.value.active <==> k in v.active) && (k in v.active ==> r.value.active[k] == v.active[k]))
        && (forall h: nat :: h in r.value.finalized <==>
          h in v.finalized || (h == b.number && b.canonical && b.finality == "finalized")))
  {
  }

  /** A block only ever changes whether its own height is covered, and the
      counters decide it. */
  lemma CoveredAfter(manifest: Hash, v: Meaning, b: Block)
    requires MeaningOk(v) && ApplyBlock(manifest, v, b).Success?
    ensures var w := ApplyBlock(manifest, v, b).value;
      Covered(w) == if b.canonical || KeysAt(w.active, b.number) != {} || b.number in w.finalized
                    then Covered(v) + {b.number} else Covered(v) - {b.number}
  {
    var w := ApplyBlock(manifest, v, b).value;
    forall h: nat ensures h in HeightsOf(w.active) <==> KeysAt(w.active, h) != {}
      ensures h in HeightsOf(v.active) <==> KeysAt(v.active, h) != {}
    {
      HeightHasKey(w.active, h);
      HeightHasKey(v.active, h);
    }
    forall h: nat | h != b.number ensures KeysAt(w.active, h) == KeysAt(v.active, h) {}
    if b.Live() {
      assert b.Id() in KeysAt(w.active, b.number);
    }
  }

  lemma HeightHasKey(active: map<Key, BlockState>, h: nat)
    ensures h in HeightsOf(active) <==> KeysAt(active, h) != {}
  {
    if k :| k in KeysAt(active, h) {
    }
    if h in HeightsOf(active) {
      var k :| k in active && k.number == h;
      assert k in KeysAt(active, h);
    }
  }

  lemma HolesOf(ranges: seq<Interval>)
    requires Normal(ranges)
    ensures |ranges| < 2 ==> forall n :: !Hole(Elements(ranges), n)
    ensures |ranges| >= 2 ==> Hole(Elements(ranges), ranges[0].to + 1)
    ensures |ranges| >= 2 ==> forall n: nat :: n <= ranges[0].to ==> !Hole(Elements(ranges), n)
  {
    if |ranges| >= 2 {
      assert Has(ranges, ranges[0].to) && Has(ranges, ranges[1].from);
      assert ranges[0].to in Elements(ranges) && ranges[1].from in Elements(ranges);
    }
  }

  /** The list check made before a stored state is admitted. */
  method ValidIntervals(ranges: seq<Interval>) returns (ok: bool)
    ensures ok <==> Normal(ranges) && !Has(ranges, 0)
  {
    var i := 0;
    while i < |ranges|
      invariant 0 <= i <= |ranges|
      invariant Normal(ranges[..i]) && forall j :: 0 <= j < i ==> ranges[j].from != 0
    {
      var r := ranges[i];
      if r.from == 0 || r.from > r.to || (i > 0 && (ranges[i - 1].to == MAX_UINT64 || ranges[i - 1].to + 1 >= r.from)) {
        assert r.from == 0 <= r.to ==> Has(ranges, 0);
        assert i > 0 && ranges[i - 1].to + 1 >= r.from ==> !Normal(ranges);
        return false;
      }
      assert ranges[..i + 1] == ranges[..i] + [r];
      i := i + 1;
    }
    assert ranges[..i] == ranges;
    return true;
  }

  /** The intervals and height counts of a valid state are determined by what it means. */
  lemma MeaningDeterminesState(s: State, t: State)
    requires s.Valid() && t.Valid() && s.View() == t.View()
    ensures s.coverage == t.coverage && s.finalized == t.finalized && s.heights == t.heights
  {
    SameElementsSameList(s.coverage, t.coverage);
    SameElementsSameList(s.finalized, t.finalized);
    assert forall h :: h in s.heights <==> h in t.heights;
  }

  // ------------------------------------------------------- order of application

  function ApplyAll(manifest: Hash, v: Meaning, blocks: seq<Block>): (r: Result<Meaning>)
    decreases |blocks|
  {
    if blocks == [] then Success(v)
    else match ApplyBlock(manifest, v, blocks[0])
      case Failure(e) => Failure(e)
      case Success(w) => ApplyAll(manifest, w, blocks[1..])
  }

  predicate DistinctKeys(blocks: seq<Block>) {
    forall i, j :: 0 <= i < j < |blocks| ==> blocks[i].Id() != blocks[j].Id()
  }

  /** What a set of blocks with distinct keys does to a state, with no order in it. */
  ghost predicate IsOutcome(v: Meaning, blocks: seq<Block>, w: Meaning) {
    && (forall b :: b in blocks && b.Live() ==> b.Id() in w.active && w.active[b.Id()] == b.State())
    && (forall b :: b in blocks && !b.Live() ==> b.Id() !in w.active)
    && (forall k :: (forall b :: b in blocks ==> b.Id() != k) ==>
        (k in w.active <==> k in v.active) && (k in v.active ==> w.active[k] == v.active[k]))
    && (forall n :: n in w.finalized <==> n in v.finalized || exists b :: b in blocks && b.Final() && b.number == n)
  }

  lemma {:induction false} ApplyAllOutcome(manifest: Hash, v: Meaning, blocks: seq<Block>)
    requires DistinctKeys(blocks)
    ensures ApplyAll(manifest, v, blocks).Success? <==> forall b :: b in blocks ==> ApplyBlock(manifest, v, b).Success?
    ensures ApplyAll(manifest, v, blocks).Success? ==> IsOutcome(v, blocks, ApplyAll(manifest, v, blocks).value)
    decreases |blocks|
  {
    if blocks != [] {
      var b, rest := blocks[0], blocks[1..];
      assert blocks == [b] + rest;
      if ApplyBlock(manifest, v, b).Success? {
        var w := ApplyBlock(manifest, v, b).value;
        ApplyAllOutcome(manifest, w, rest);
        forall c | c in rest ensures ApplyBlock(manifest, w, c).Success? <==> ApplyBlock(manifest, v, c).Success? {
          assert c.Id() != b.Id();
        }
        if ApplyAll(manifest, v, blocks).Success? {
          OutcomeStep(manifest, v, b, rest, w, ApplyAll(manifest, w, rest).value);
        }
      }
    }
  }

  lemma OutcomeStep(manifest: Hash, v: Meaning, b: Block, rest: seq<Block>, w: Meaning, out: Meaning)
    requires DistinctKeys([b] + rest)
    requires ApplyBlock(manifest, v, b) == Success(w) && IsOutcome(w, rest, out)
    ensures IsOutcome(v, [b] + rest, out)
  {
    var blocks := [b] + rest;
    assert forall c :: c in blocks <==> c == b || c in rest;
    forall c | c in rest ensures c.Id() != b.Id() {
      var i :| 0 <= i < |rest| && rest[i] == c;
      assert blocks[0] == b && blocks[i + 1] == c;
    }
    assert forall c :: c in rest ==> c.Id() != b.Id();
    forall k | forall c :: c in blocks ==> c.Id() != k
      ensures (k in out.active <==> k in v.active) && (k in v.active ==> out.active[k] == v.active[k])
    {
      assert b in blocks;
      assert forall c :: c in rest ==> c.Id() != k;
    }
    forall n ensures n in out.finalized <==> n in v.finalized || exists c :: c in blocks && c.Final() && c.number == n {
      if b.Final() && b.number == n {
        assert b in blocks;
      }
    }
  }

  lemma OutcomeIsUnique(v: Meaning, xs: seq<Block>, ys: seq<Block>, a: Meaning, b: Meaning)
    requires forall c :: c in xs <==> c in ys
    requires IsOutcome(v, xs, a) && IsOutcome(v, ys, b)
    ensures a == b
  {
    forall k ensures k in a.active <==> k in b.active
      ensures k in a.active ==> a.active[k] == b.active[k]
    {
      if c :| c in xs && c.Id() == k {
      }
    }
    assert a.active == b.active;
    assert a.finalized == b.finalized;
  }

  /** Blocks with distinct keys may be applied in any order: either every order
      is refused or all orders end in the same state. */
  lemma OrderDoesNotMatter(manifest: Hash, v: Meaning, xs: seq<Block>, ys: seq<Block>)
    requires DistinctKeys(xs) && DistinctKeys(ys)
    requires forall c :: c in xs <==> c in ys
    ensures ApplyAll(manifest, v, xs).Success? <==> ApplyAll(manifest, v, ys).Success?
    ensures ApplyAll(manifest, v, xs).Success? ==> ApplyAll(manifest, v, xs) == ApplyAll(manifest, v, ys)
  {
    ApplyAllOutcome(manifest, v, xs);
    ApplyAllOutcome(manifest, v, ys);
    if ApplyAll(manifest, v, xs).Success? {
      OutcomeIsUnique(v, xs, ys, ApplyAll(manifest, v, xs).value, ApplyAll(manifest, v, ys).value);
    }
  }
}
