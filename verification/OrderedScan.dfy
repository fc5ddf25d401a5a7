// Ordered scans over the keys of a stored map: a page holds the least keys after a
// given one, and pages read one after the other visit every key exactly once.

module OrderedScan {

  ghost predicate Orders<K(!new)>(less: (K, K) -> bool) {
    && (forall a :: !less(a, a))
    && (forall a, b :: a == b || less(a, b) || less(b, a))
    && (forall a, b, c :: less(a, b) && less(b, c) ==> less(a, c))
  }

  function Members<K>(page: seq<K>): set<K> { set k | k in page }

  /** `page` holds the least members of `all`, in ascending order. */
  ghost predicate IsLeast<K>(all: set<K>, page: seq<K>, less: (K, K) -> bool) {
    && (forall i, j :: 0 <= i < j < |page| ==> less(page[i], page[j]))
    && (forall i :: 0 <= i < |page| ==> page[i] in all)
    && (forall k, i :: k in all && k !in page && 0 <= i < |page| ==> less(page[i], k))
  }

  lemma LeastGrows<K(!new)>(all: set<K>, page: seq<K>, k: K, less: (K, K) -> bool)
    requires Orders(less) && IsLeast(all, page, less) && k in all - Members(page)
    requires forall j :: j in all - Members(page) ==> j == k || less(k, j)
    ensures IsLeast(all, page + [k], less)
    ensures Members(page + [k]) == Members(page) + {k}
  {
  }

  /** Taking the first key off a page leaves a page of the other keys. */
  lemma LeastFirst<K(!new)>(all: set<K>, page: seq<K>, less: (K, K) -> bool)
    requires Orders(less) && IsLeast(all, page, less) && page != []
    ensures page[0] in all && (forall k :: k in all ==> k == page[0] || less(page[0], k))
    ensures IsLeast(all - {page[0]}, page[1..], less)
    ensures Members(page) == {page[0]} + Members(page[1..])
  {
  }

  /** The keys after the last one of a page are exactly those not on it. */
  lemma LeastRest<K(!new)>(all: set<K>, page: seq<K>, less: (K, K) -> bool)
    requires Orders(less) && IsLeast(all, page, less) && page != []
    ensures After(all, page[|page| - 1], less) == all - Members(page)
    ensures page[0] in Members(page)
  {
    var last := page[|page| - 1];
    forall k ensures k in After(all, last, less) <==> k in all - Members(page) {
      if k in page {
        var i :| 0 <= i < |page| && page[i] == k;
        assert i < |page| - 1 ==> less(k, last);
        assert !less(last, k);
      }
    }
  }

  function After<K>(all: set<K>, k: K, less: (K, K) -> bool): set<K> { set j | j in all && less(k, j) }

  method Minimum<K(!new, ==)>(all: set<K>, less: (K, K) -> bool) returns (k: K)
    requires Orders(less) && all != {}
    ensures k in all && forall j :: j in all ==> j == k || less(k, j)
  {
    k :| k in all;
    var left := all - {k};
    while left != {}
      invariant k in all && left <= all
      invariant forall j :: j in all && j !in left ==> j == k || less(k, j)
      decreases |left|
    {
      var j :| j in left;
      left := left - {j};
      if less(j, k) {
        k := j;
      }
    }
  }

  ghost function Rest<K>(all: set<K>, page: seq<K>): set<K> { all - Members(page) }

  lemma NothingTaken<K(!new)>(all: set<K>, less: (K, K) -> bool)
    ensures IsLeast(all, [], less) && Rest(all, []) == all
  {
  }

  lemma TakeLeast<K(!new)>(all: set<K>, page: seq<K>, k: K, less: (K, K) -> bool)
    requires Orders(less) && IsLeast(all, page, less) && k in Rest(all, page)
    requires forall j :: j in Rest(all, page) ==> j == k || less(k, j)
    ensures IsLeast(all, page + [k], less) && Rest(all, page + [k]) == Rest(all, page) - {k}
  {
    hide IsLeast, Members, Orders;
    LeastGrows(all, page, k, less);
  }

  lemma AllTaken<K(!new)>(all: set<K>, page: seq<K>, less: (K, K) -> bool)
    requires IsLeast(all, page, less) && Rest(all, page) == {}
    ensures all == Members(page)
  {
    forall k ensures k in all <==> k in page {
      assert k !in Rest(all, page);
    }
  }

  method Page<K(!new, ==)>(all: set<K>, limit: nat, less: (K, K) -> bool) returns (page: seq<K>)
    requires Orders(less)
    ensures IsLeast(all, page, less) && |page| <= limit
    ensures |page| < limit ==> all == Members(page)
  {
    hide *;
    page := [];
    var left := all;
    NothingTaken(all, less);
    while |page| < limit && left != {}
      invariant left == Rest(all, page) && IsLeast(all, page, less) && |page| <= limit
      decreases |left|
    {
      var k := Minimum(left, less);
      TakeLeast(all, page, k, less);
      page := page + [k];
      left := left - {k};
    }
    if left == {} {
      AllTaken(all, page, less);
    }
  }
}
