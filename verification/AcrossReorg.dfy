// Reorganisations: the bad heights are recorded first, then every active capture
// that contains one is taken back, page by page, and can be resumed after a crash
// at any point in between.

module AcrossReorg {
  import opened AcrossCaptures
  import opened AcrossCoverage
  import opened Intervals
  import opened OrderedScan

  const REVISION_PAGE := 24

  // --------------------------------------------------------- affected captures

  function LeastBad(bad: seq<uint64>): (n: uint64)
    ensures forall i :: 0 <= i < |bad| ==> n <= bad[i]
  {
    if bad == [] then MAX_UINT64
    else
      var rest := LeastBad(bad[..|bad| - 1]);
      if bad[|bad| - 1] < rest then bad[|bad| - 1] else rest
  }

  /** The collected captures are affected ones, in scan order, and every affected
      one was collected or lies beyond the cut. */
  ghost predicate IsCollected(records: map<Hash, Capture>, job: Job, cut: Cut, rows: seq<Capture>) {
    && AreAffected(records, job, rows)
    && (forall i :: 0 <= i < |rows| ==> !IsBeyond(OrderOf(rows[i], false), cut))
    && (forall id :: id in records && job.Hits(records[id]) ==>
        records[id] in rows || (records[id].Anchored() && IsBeyond(OrderOf(records[id], false), cut)))
  }

  ghost predicate AreAffected(records: map<Hash, Capture>, job: Job, rows: seq<Capture>) {
    && (forall i :: 0 <= i < |rows| ==> IsRow(records, rows[i]) && job.Hits(rows[i]))
    && (forall i, j :: 0 <= i < j < |rows| ==> Less(OrderOf(rows[i], false), OrderOf(rows[j], false)))
  }

  predicate IsRow(records: map<Hash, Capture>, c: Capture) { c.id in records && records[c.id] == c && c.Anchored() }

  ghost predicate HasAll(records: map<Hash, Capture>, job: Job, rows: seq<Capture>) {
    forall id :: id in records && job.Hits(records[id]) ==> records[id] in rows
  }

  lemma NothingCollected(records: map<Hash, Capture>, order: map<OrderKey, Hash>, job: Job)
    requires IsIndexed(records, order, false)
    ensures IsCollected(records, job, From(job.chain, LeastBad(job.bad)), [])
  {
  }

  /** The key `k` is the first beyond the cut. */
  ghost predicate IsFirst(keys: set<OrderKey>, cut: Cut, k: OrderKey) {
    k in Beyond(keys, cut) && forall j :: j in Beyond(keys, cut) ==> j == k || Less(k, j)
  }

  lemma CollectInOrder(records: map<Hash, Capture>, job: Job, cut: Cut, rows: seq<Capture>, k: OrderKey, c: Capture)
    requires IsCollected(records, job, cut, rows) && IsBeyond(k, cut) && IsRow(records, c) && OrderOf(c, false) == k
    ensures var more := if job.Hits(c) then rows + [c] else rows;
      AreAffected(records, job, more) && forall i :: 0 <= i < |more| ==> !IsBeyond(OrderOf(more[i], false), Past(k))
  {
    forall i | 0 <= i < |rows| ensures Less(OrderOf(rows[i], false), k) && !Less(k, OrderOf(rows[i], false)) {
      BeforeBeyond(OrderOf(rows[i], false), k, cut);
    }
  }

  lemma CollectAll(records: map<Hash, Capture>, order: map<OrderKey, Hash>, job: Job, cut: Cut,
                   rows: seq<Capture>, k: OrderKey, c: Capture, id: Hash)
    requires IsIndexed(records, order, false) && IsCollected(records, job, cut, rows)
    requires IsFirst(order.Keys, cut, k) && IsRow(records, c) && OrderOf(c, false) == k
    requires id in records && job.Hits(records[id]) && records[id] !in rows && records[id] != c
    ensures IsBeyond(OrderOf(records[id], false), Past(k))
  {
  }

  /** The first key beyond the cut is dealt with. */
  lemma CollectOne(records: map<Hash, Capture>, order: map<OrderKey, Hash>, job: Job, cut: Cut,
                   rows: seq<Capture>, k: OrderKey, c: Capture)
    requires IsIndexed(records, order, false) && IsCollected(records, job, cut, rows)
    requires IsFirst(order.Keys, cut, k) && IsRow(records, c) && OrderOf(c, false) == k
    ensures IsCollected(records, job, Past(k), if job.Hits(c) then rows + [c] else rows)
  {
    CollectInOrder(records, job, cut, rows, k, c);
    var more := if job.Hits(c) then rows + [c] else rows;
    forall id | id in records && job.Hits(records[id]) && records[id] !in more
      ensures records[id].Anchored() && IsBeyond(OrderOf(records[id], false), Past(k))
    {
      CollectAll(records, order, job, cut, rows, k, c, id);
    }
    hide AreAffected, IsBeyond, IsFirst;
  }

  lemma BeforeBeyond(a: OrderKey, b: OrderKey, cut: Cut)
    requires !IsBeyond(a, cut) && IsBeyond(b, cut)
    ensures Less(a, b)
  {
  }

  lemma OneBeyond(keys: set<OrderKey>, cut: Cut, k: OrderKey)
    requires IsFirst(keys, cut, k)
    ensures Beyond(keys, Past(k)) == Beyond(keys, cut) - {k}
    ensures |Beyond(keys, Past(k))| < |Beyond(keys, cut)|
  {
  }

  /** At the first key of another chain the scan may stop. */
  lemma OtherChainsFollow(records: map<Hash, Capture>, order: map<OrderKey, Hash>, job: Job, cut: Cut,
                          rows: seq<Capture>, k: OrderKey)
    requires IsIndexed(records, order, false) && IsCollected(records, job, cut, rows)
    requires IsFirst(order.Keys, cut, k) && k.chain > job.chain
    ensures HasAll(records, job, rows)
  {
    forall id | id in records && job.Hits(records[id]) ensures records[id] in rows {
      var j := OrderOf(records[id], false);
      assert j in order.Keys && j.chain == job.chain;
      assert !(j in Beyond(order.Keys, cut));
    }
  }

  lemma NextFirst(keys: set<OrderKey>, cut: Cut, page: seq<OrderKey>)
    requires IsLeast(Beyond(keys, cut), page, Less) && page != []
    ensures IsFirst(keys, cut, page[0]) && IsLeast(Beyond(keys, Past(page[0])), page[1..], Less)
    ensures |Beyond(keys, Past(page[0]))| < |Beyond(keys, cut)|
  {
    LessOrders();
    LeastFirst(Beyond(keys, cut), page, Less);
    OneBeyond(keys, cut, page[0]);
  }

  lemma NoneLeft(records: map<Hash, Capture>, order: map<OrderKey, Hash>, job: Job, cut: Cut, rows: seq<Capture>)
    requires IsIndexed(records, order, false) && IsCollected(records, job, cut, rows)
    requires Beyond(order.Keys, cut) == Members([])
    ensures HasAll(records, job, rows)
  {
    forall id | id in records && job.Hits(records[id]) ensures records[id] in rows {
      assert OrderOf(records[id], false) in order.Keys;
      assert OrderOf(records[id], false) !in Beyond(order.Keys, cut);
    }
  }

  /** Goes through one page; `done` when no affected capture can follow. */
  method AffectedOn(pages: CapturePages, job: Job, limit: nat, cut: Cut, keys: seq<OrderKey>, page: seq<Capture>,
                    rows: seq<Capture>)
    returns (done: bool, next: Cut, more: seq<Capture>)
    requires pages.Valid() && !pages.partial && |rows| < limit && IsCollected(pages.records, job, cut, rows)
    requires IsLeast(Beyond(pages.order.Keys, cut), keys, Less) && AreRows(pages.records, false, keys, page)
    requires IsOnChain(cut, job.chain)
    ensures AreAffected(pages.records, job, more) && |more| <= limit
    ensures done ==> |more| == limit || HasAll(pages.records, job, more)
    ensures !done ==> |more| < limit && IsCollected(pages.records, job, next, more) && IsOnChain(next, job.chain)
    ensures !done && keys != [] ==> |Beyond(pages.order.Keys, next)| < |Beyond(pages.order.Keys, cut)|
  {
    next, more := cut, rows;
    var i := 0;
    while i < |keys|
      invariant i <= |keys| && |more| < limit && IsCollected(pages.records, job, next, more)
      invariant IsOnChain(next, job.chain)
      invariant IsLeast(Beyond(pages.order.Keys, next), keys[i..], Less)
      invariant |Beyond(pages.order.Keys, next)| + i <= |Beyond(pages.order.Keys, cut)|
    {
      var k, c := keys[i], page[i];
      assert keys[i..][0] == k && keys[i..][1..] == keys[i + 1..] && IsRow(pages.records, c) && OrderOf(c, false) == k;
      NextFirst(pages.order.Keys, next, keys[i..]);
      ChainOfBeyond(pages.order.Keys, next, job.chain, k);
      hide *;
      if k.chain != job.chain {
        OtherChainsFollow(pages.records, pages.order, job, next, more, k);
        return true, next, more;
      }
      CollectOne(pages.records, pages.order, job, next, more, k, c);
      if job.Hits(c) {
        more := more + [c];
      }
      next := Past(k);
      i := i + 1;
      if |more| >= limit {
        return true, next, more;
      }
    }
    done := false;
  }

  /** The cut leaves only this chain and later ones. */
  predicate IsOnChain(cut: Cut, chain: uint64) {
    match cut
    case First => false
    case From(c, _) => c == chain
    case Past(k) => k.chain == chain
  }

  lemma ChainOfBeyond(keys: set<OrderKey>, cut: Cut, chain: uint64, k: OrderKey)
    requires IsFirst(keys, cut, k) && IsOnChain(cut, chain)
    ensures k.chain >= chain && (k.chain == chain ==> IsOnChain(Past(k), chain))
  {
  }

  /** The scan of the order map, from the first capture of the chain that can end
      at or after the least bad height, page by page, up to a limit. */
  method Affected(pages: CapturePages, job: Job, limit: nat) returns (rows: seq<Capture>)
    requires pages.Valid() && !pages.partial && limit > 0
    ensures |rows| <= limit && AreAffected(pages.records, job, rows)
    ensures |rows| < limit ==> HasAll(pages.records, job, rows)
  {
    rows := [];
    var cut := From(job.chain, LeastBad(job.bad));
    NothingCollected(pages.records, pages.order, job);
    while true
      invariant |rows| < limit && IsCollected(pages.records, job, cut, rows) && IsOnChain(cut, job.chain)
      decreases |Beyond(pages.order.Keys, cut)|
    {
      var keys, page := pages.Scan(cut, 128);
      if keys == [] {
        NoneLeft(pages.records, pages.order, job, cut, rows);
        return;
      }
      hide IsCollected, AreAffected, IsOnChain, HasAll, IsLeast, Beyond, AreRows;
      var done;
      done, cut, rows := AffectedOn(pages, job, limit, cut, keys, page, rows);
      if done {
        return;
      }
    }
  }
}
