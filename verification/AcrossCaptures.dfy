// Captured block ranges and the ordered pages that hold them: one map of records,
// one map of order keys, always changed together.

module AcrossCaptures {
  import opened Intervals
  import opened Options
  import opened OrderedScan

  // Hashes and identifiers are opaque.
  type Hash = nat

  datatype Span = Span(from: uint64, to: uint64, fromHash: Hash, toHash: Hash)

  /** `evidence` stands for every member that no operation looks at. */
  datatype Capture = Capture(
    manifest: Hash, id: Hash, chain: uint64, kind: string, span: Option<Span>, startedAt: int,
    status: string, completedTasks: nat, unknownEvents: nat, evidence: nat,
    canonical: bool, finality: string, reason: string, revision: uint64, committed: bool)
  {
    /** Both block numbers and both block hashes are present. */
    predicate Anchored() { span.Some? }

    function From(): uint64
      requires Anchored()
    {
      span.value.from
    }

    function To(): uint64
      requires Anchored()
    {
      span.value.to
    }

    predicate Raw() {
      canonical && committed && kind == "logs" && completedTasks == 1 && Anchored()
    }

    predicate Decoded() { Raw() && status == "complete" && unknownEvents == 0 }

    predicate Abandoned() { Mentions(reason, REPAIR_ABANDONED) }

    /** Still worth a repair, as far as the capture itself tells. */
    predicate Repairable() { Raw() && status == "partial" && !Abandoned() }

    predicate Touches(n: nat) { Anchored() && From() <= n <= To() }

    /** The members that a revision must not change. */
    function Fixed(): Capture {
      this.(canonical := false, finality := "", reason := "", revision := 0)
    }
  }

  const REPAIR_ABANDONED := "repair_abandoned=user_requested_historical_state_unavailable"

  predicate FoundAt(text: string, part: string, i: nat) {
    i + |part| <= |text| && text[i..i + |part|] == part
  }

  predicate Mentions(text: string, part: string) {
    exists i | 0 <= i <= |text| :: FoundAt(text, part, i)
  }

  lemma MentionsMeans(text: string, part: string)
    ensures Mentions(text, part) <==> exists a: string, b: string :: Joined(a, part, b) == text
  {
    if i :| 0 <= i <= |text| && FoundAt(text, part, i) {
      assert Joined(text[..i], part, text[i + |part|..]) == text;
    }
    if a: string, b: string :| Joined(a, part, b) == text {
      assert FoundAt(text, part, |a|);
    }
  }

  function Joined(a: string, part: string, b: string): string { a + part + b }

  /** Active captures are kept by chain, last block, start and id; partial ones by
      start and id only. */
  datatype OrderKey = OrderKey(chain: uint64, to: uint64, at: int, id: Hash)

  function OrderOf(c: Capture, partial: bool): OrderKey
    requires c.Anchored()
  {
    if partial then OrderKey(0, 0, c.startedAt, c.id) else OrderKey(c.chain, c.To(), c.startedAt, c.id)
  }

  predicate Less(a: OrderKey, b: OrderKey) {
    || a.chain < b.chain
    || (a.chain == b.chain && (a.to < b.to || (a.to == b.to && (a.at < b.at || (a.at == b.at && a.id < b.id)))))
  }

  lemma LessOrders()
    ensures Orders(Less)
  {
  }

  /** The order map is exactly the key image of the records. */
  ghost predicate IsIndexed(records: map<Hash, Capture>, order: map<OrderKey, Hash>, partial: bool) {
    && (forall id :: id in records ==>
        records[id].Anchored() && records[id].id == id
        && OrderOf(records[id], partial) in order && order[OrderOf(records[id], partial)] == id)
    && (forall k :: k in order ==> order[k] in records && OrderOf(records[order[k]], partial) == k)
  }

  /** The records behind a list of order keys. */
  ghost predicate AreRows(records: map<Hash, Capture>, partial: bool, keys: seq<OrderKey>, rows: seq<Capture>) {
    && |rows| == |keys|
    && forall i :: 0 <= i < |rows| ==>
        && rows[i].id in records && records[rows[i].id] == rows[i]
        && rows[i].Anchored() && OrderOf(rows[i], partial) == keys[i]
  }

  /** The rows are the records, in some order. */
  ghost predicate AreAll(records: map<Hash, Capture>, rows: seq<Capture>) {
    forall c :: c in rows <==> c.id in records && records[c.id] == c
  }

  lemma RowsJoin(records: map<Hash, Capture>, partial: bool,
                 seen: seq<OrderKey>, rows: seq<Capture>, keys: seq<OrderKey>, page: seq<Capture>)
    requires AreRows(records, partial, seen, rows) && AreRows(records, partial, keys, page)
    ensures AreRows(records, partial, seen + keys, rows + page)
  {
  }

  lemma AllSeen(records: map<Hash, Capture>, order: map<OrderKey, Hash>, partial: bool,
                cut: Cut, seen: seq<OrderKey>, rows: seq<Capture>)
    requires IsIndexed(records, order, partial) && AreRows(records, partial, seen, rows)
    requires IsSeen(order.Keys, cut, seen) && Beyond(order.Keys, cut) == Members([])
    ensures AreAll(records, rows)
  {
    assert Members<OrderKey>([]) == {};
    assert forall k :: k in order.Keys ==> k !in order.Keys - Members(seen);
    forall id | id in records ensures records[id] in rows {
      assert OrderOf(records[id], partial) in Members(seen);
      var i :| 0 <= i < |seen| && seen[i] == OrderOf(records[id], partial);
      assert order[seen[i]] == id;
      assert order[OrderOf(rows[i], partial)] == rows[i].id;
    }
  }

  class CapturePages {
    const partial: bool
    var records: map<Hash, Capture>
    var order: map<OrderKey, Hash>

    ghost predicate Valid()
      reads this
    {
      IsIndexed(records, order, partial)
    }

    constructor (partial: bool)
      ensures Valid() && records == map[] && this.partial == partial
    {
      this.partial := partial;
      records, order := map[], map[];
    }

    method Set(c: Capture)
      requires Valid() && c.Anchored()
      modifies this
      ensures Valid() && records == old(records)[c.id := c]
    {
      if c.id in records && OrderOf(records[c.id], partial) != OrderOf(c, partial) {
        order := order - {OrderOf(records[c.id], partial)};
      }
      records := records[c.id := c];
      order := order[OrderOf(c, partial) := c.id];
    }

    method Remove(id: Hash)
      requires Valid()
      modifies this
      ensures Valid() && records == old(records) - {id}
    {
      if id in records {
        order := order - {OrderOf(records[id], partial)};
        records := records - {id};
      } else {
        assert records - {id} == records;
      }
    }

    /** At most `limit` captures beyond a cut, in order. */
    method Scan(cut: Cut, limit: nat) returns (keys: seq<OrderKey>, rows: seq<Capture>)
      requires Valid()
      ensures |keys| <= limit && AreRows(records, partial, keys, rows)
      ensures IsLeast(Beyond(order.Keys, cut), keys, Less)
      ensures |keys| < limit ==> Beyond(order.Keys, cut) == Members(keys)
    {
      LessOrders();
      keys := Page(Beyond(order.Keys, cut), limit, Less);
      rows := seq(|keys|, i requires 0 <= i < |keys| && keys[i] in order && order[keys[i]] in records reads this =>
        records[order[keys[i]]]);
    }

    /** One more page of a full scan, 128 captures at a time. */
    method ScanOn(cut: Cut, ghost seen: seq<OrderKey>, rows: seq<Capture>)
      returns (done: bool, next: Cut, more: seq<Capture>, ghost seenMore: seq<OrderKey>)
      requires Valid() && AreRows(records, partial, seen, rows) && IsSeen(order.Keys, cut, seen)
      ensures AreRows(records, partial, seenMore, more) && IsSeen(order.Keys, next, seenMore)
      ensures done ==> AreAll(records, more)
      ensures !done ==> |Beyond(order.Keys, next)| < |Beyond(order.Keys, cut)|
    {
      var keys, page := Scan(cut, 128);
      hide AreRows, AreAll, IsSeen, IsLeast, Beyond, Members, Less;
      if keys == [] {
        AllSeen(records, order, partial, cut, seen, rows);
        return true, cut, rows, seen;
      }
      SeeMore(order.Keys, cut, seen, keys);
      RowsJoin(records, partial, seen, rows, keys, page);
      return false, Past(keys[|keys| - 1]), rows + page, seen + keys;
    }

    /** Every capture once, page by page. */
    method All() returns (rows: seq<Capture>)
      requires Valid()
      ensures AreAll(records, rows)
    {
      ghost var seen: seq<OrderKey> := [];
      var cut := First;
      rows := [];
      NothingSeen(order.Keys);
      hide AreAll, IsSeen, Beyond, IsIndexed;
      while true
        invariant AreRows(records, partial, seen, rows) && IsSeen(order.Keys, cut, seen)
        decreases |Beyond(order.Keys, cut)|
      {
        hide AreRows;
        var done;
        done, cut, rows, seen := ScanOn(cut, seen, rows);
        if done {
          return;
        }
      }
    }
  }

  /** Where a scan starts: at the front, at a chain's first capture that ends at
      `to` or later, or right after a key. */
  datatype Cut = First | From(chain: uint64, to: uint64) | Past(key: OrderKey)

  predicate IsBeyond(k: OrderKey, cut: Cut) {
    match cut
    case First => true
    case From(chain, to) => k.chain > chain || (k.chain == chain && k.to >= to)
    case Past(key) => Less(key, k)
  }

  function Beyond(keys: set<OrderKey>, cut: Cut): set<OrderKey> { set k | k in keys && IsBeyond(k, cut) }

  /** The scan has visited exactly the keys up to its cut. */
  ghost predicate IsSeen(keys: set<OrderKey>, cut: Cut, seen: seq<OrderKey>) {
    Beyond(keys, cut) == keys - Members(seen)
  }

  lemma NothingSeen(keys: set<OrderKey>)
    ensures IsSeen(keys, First, [])
  {
  }

  lemma SeeMore(keys: set<OrderKey>, cut: Cut, seen: seq<OrderKey>, page: seq<OrderKey>)
    requires IsSeen(keys, cut, seen) && IsLeast(Beyond(keys, cut), page, Less) && page != []
    ensures IsSeen(keys, Past(page[|page| - 1]), seen + page)
    ensures |Beyond(keys, Past(page[|page| - 1]))| < |Beyond(keys, cut)|
  {
    NextCut(keys, cut, page);
    assert Members(seen + page) == Members(seen) + Members(page);
  }

  /** The scan goes on right after the last key of a page. */
  lemma NextCut(keys: set<OrderKey>, cut: Cut, page: seq<OrderKey>)
    requires IsLeast(Beyond(keys, cut), page, Less) && page != []
    ensures var next := Past(page[|page| - 1]);
      && Beyond(keys, next) == Beyond(keys, cut) - Members(page)
      && |Beyond(keys, next)| < |Beyond(keys, cut)|
  {
    LessOrders();
    var all, last := Beyond(keys, cut), page[|page| - 1];
    LeastRest(all, page, Less);
    assert last in all;
    forall k | k in Beyond(keys, Past(last)) ensures k in all {
      assert Less(last, k);
    }
    assert Beyond(keys, Past(last)) == After(all, last, Less);
    assert all == (all - Members(page)) + (all * Members(page));
    assert page[0] in all * Members(page);
  }
}
