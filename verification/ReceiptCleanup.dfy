// Completed receipts are given up a page at a time, as the cleanup cursor goes round.

module ReceiptCleanup {
  import opened Options
  import OrderedScan
  import opened Receipts

  /** Blocks whose finalized coverage is decoded, by chain. */
  type Finalized = set<(nat, nat)>

  type Cursor = Option<Hash>

  predicate IsSpent(r: Receipt, final: Finalized) { !r.pending && r.feeComplete && (r.task.chain, r.block) in final }

  /** The page scan skips receipts that are neither pending nor complete. */
  predicate IsListed(r: Receipt) { r.pending || r.feeComplete }

  predicate IsBeyond(after: Cursor, id: Hash) { after.Some? ==> after.value < id }

  function Listed(pages: map<Hash, Receipt>, after: Cursor): set<Hash> {
    set id | id in pages && IsListed(pages[id]) && IsBeyond(after, id)
  }

  predicate Below(a: Hash, b: Hash) { a < b }

  /** Exactly the spent receipts between the two cursors are gone. */
  ghost predicate IsPruned(was: map<Hash, Receipt>, now: map<Hash, Receipt>, after: Cursor, upTo: Hash,
                           final: Finalized)
  {
    && (forall id :: id in now <==> id in was && !(IsBeyond(after, id) && id <= upTo && IsSpent(was[id], final)))
    && forall id :: id in now ==> now[id] == was[id]
  }

  /** The spent receipts among `gone` are gone, the others are untouched. */
  ghost predicate IsWithout(was: map<Hash, Receipt>, now: map<Hash, Receipt>, gone: set<Hash>, final: Finalized) {
    && (forall id :: id in now <==> id in was && !(id in gone && IsSpent(was[id], final)))
    && forall id :: id in now ==> now[id] == was[id]
  }

  lemma PageIsPruned(was: map<Hash, Receipt>, now: map<Hash, Receipt>, after: Cursor, page: seq<Hash>, final: Finalized)
    requires page != [] && OrderedScan.IsLeast(Listed(was, after), page, Below)
    requires IsWithout(was, now, OrderedScan.Members(page), final)
    ensures IsPruned(was, now, after, page[|page| - 1], final)
  {
  }

  lemma NothingGone(was: map<Hash, Receipt>, page: seq<Hash>, final: Finalized)
    ensures IsWithout(was, was, OrderedScan.Members(page[..0]), final)
  {
  }

  /** The next receipt of the page is still there, and goes if it is spent. */
  lemma OneMoreGone(was: map<Hash, Receipt>, before: map<Hash, Receipt>, after: Cursor, page: seq<Hash>, i: nat,
                    final: Finalized)
    requires OrderedScan.IsLeast(Listed(was, after), page, Below) && i < |page|
    requires IsWithout(was, before, OrderedScan.Members(page[..i]), final)
    ensures page[i] in before && page[i] in was
    ensures IsWithout(was, if IsSpent(before[page[i]], final) then before - {page[i]} else before,
                      OrderedScan.Members(page[..i + 1]), final)
  {
  }

  /** One cleanup step; no next cursor when the scan had reached the end. */
  method Prune(s: Store, after: Cursor, final: Finalized) returns (next: Cursor, changed: bool)
    requires s.Valid()
    modifies s
    ensures s.Valid()
    ensures next.None? ==> s.pages == old(s.pages) && Listed(old(s.pages), after) == {}
    ensures next.None? <==> forall id :: id in old(s.pages) && (after.Some? ==> after.value < id) ==>
      !old(s.pages)[id].pending && !old(s.pages)[id].feeComplete
    ensures next.Some? ==>
      next.value in Listed(old(s.pages), after) && IsPruned(old(s.pages), s.pages, after, next.value, final)
    ensures changed <==> s.pages != old(s.pages)
  {
    ghost var was := s.pages;
    BelowOrders();
    var page := OrderedScan.Page(Listed(s.pages, after), 128, Below);
    changed := false;
    next := None;
    if page == [] {
      assert OrderedScan.Members(page) == {};
    } else {
      hide *;
      NothingGone(was, page, final);
      for i := 0 to |page|
        invariant s.Valid() && IsWithout(was, s.pages, OrderedScan.Members(page[..i]), final)
        invariant changed <==> s.pages != was
        invariant s.pages.Keys <= was.Keys
      {
        var id := page[i];
        OneMoreGone(was, s.pages, after, page, i, final);
        if IsSpent(s.pages[id], final) {
          s.Delete(id);
          changed := true;
          assert id !in s.pages && id in was;
        }
      }
      assert page[..|page|] == page;
      PageIsPruned(was, s.pages, after, page, final);
      next := Some(page[|page| - 1]);
    }
    NoneListed(was, after, next);
  }

  lemma NoneListed(pages: map<Hash, Receipt>, after: Cursor, next: Cursor)
    requires next.None? ==> Listed(pages, after) == {}
    requires next.Some? ==> next.value in Listed(pages, after)
    ensures next.None? <==> forall id :: id in pages && (after.Some? ==> after.value < id) ==>
      !pages[id].pending && !pages[id].feeComplete
  {
    if next.None? {
      forall id | id in pages && (pages[id].pending || pages[id].feeComplete) ensures !IsBeyond(after, id) {
        assert id !in Listed(pages, after);
      }
    }
  }

  lemma BelowOrders()
    ensures OrderedScan.Orders(Below)
  {
  }

  /** No spent receipt up to the cursor. */
  ghost predicate IsSwept(pages: map<Hash, Receipt>, after: Cursor, final: Finalized) {
    forall id :: id in pages && IsSpent(pages[id], final) ==> IsBeyond(after, id)
  }

  lemma PruneSweeps(was: map<Hash, Receipt>, now: map<Hash, Receipt>, after: Cursor, next: Hash, final: Finalized)
    requires IsSwept(was, after, final) && IsPruned(was, now, after, next, final) && next in Listed(was, after)
    ensures IsSwept(now, Some(next), final) && Listed(now, Some(next)) < Listed(was, after)
  {
  }

  /** Once round with nothing else going on: exactly the spent receipts are gone. */
  method Sweep(s: Store, final: Finalized)
    requires s.Valid()
    modifies s
    ensures s.Valid()
    ensures IsWithout(old(s.pages), s.pages, old(s.pages).Keys, final)
    ensures forall id :: id in s.pages <==>
      && id in old(s.pages)
      && (old(s.pages)[id].pending || !old(s.pages)[id].feeComplete
          || (old(s.pages)[id].task.chain, old(s.pages)[id].block) !in final)
  {
    var after: Cursor := None;
    var changed := false;
    var more := true;
    ghost var all := s.pages;
    SweepStarts(all, final);
    hide *;
    while more
      invariant s.Valid() && IsSwept(s.pages, after, final) && IsSwept(all, None, final) && IsKept(all, s.pages, final)
      invariant !more ==> Listed(s.pages, after) == {}
      decreases Listed(s.pages, after), more
    {
      ghost var was := s.pages;
      var next: Cursor;
      next, changed := Prune(s, after, final);
      if next.Some? {
        PruneSweeps(was, s.pages, after, next.value, final);
        PruneKeeps(all, was, s.pages, after, next.value, final);
        after := next;
      } else {
        more := false;
      }
    }
    SweepEnds(all, s.pages, after, final);
    SweptIs(all, s.pages, final);
  }

  lemma SweptIs(was: map<Hash, Receipt>, now: map<Hash, Receipt>, final: Finalized)
    requires IsWithout(was, now, was.Keys, final)
    ensures forall id :: id in now <==>
      id in was && (was[id].pending || !was[id].feeComplete || (was[id].task.chain, was[id].block) !in final)
  {
  }

  /** Nothing but spent receipts is gone. */
  ghost predicate IsKept(was: map<Hash, Receipt>, now: map<Hash, Receipt>, final: Finalized) {
    && (forall id :: id in now ==> id in was && now[id] == was[id])
    && forall id :: id in was && id !in now ==> IsSpent(was[id], final)
  }

  lemma SweepStarts(all: map<Hash, Receipt>, final: Finalized)
    ensures IsSwept(all, None, final) && IsKept(all, all, final)
  {
  }

  lemma PruneKeeps(all: map<Hash, Receipt>, was: map<Hash, Receipt>, now: map<Hash, Receipt>, after: Cursor, next: Hash,
                   final: Finalized)
    requires IsKept(all, was, final) && IsPruned(was, now, after, next, final)
    ensures IsKept(all, now, final)
  {
  }

  lemma SweepEnds(all: map<Hash, Receipt>, now: map<Hash, Receipt>, after: Cursor, final: Finalized)
    requires IsSwept(now, after, final) && Listed(now, after) == {} && IsKept(all, now, final)
    ensures IsWithout(all, now, all.Keys, final)
  {
    forall id | id in now ensures !IsSpent(now[id], final) {
      assert id !in Listed(now, after);
    }
  }
}
