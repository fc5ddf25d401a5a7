// Is a window of indexed pages complete? Each page names the token that it was
// asked with and the token of the page after it.

module PageChain {
  import opened Options

  type Token = string

  datatype Capture = Capture(id: nat, kind: string, status: string, startedAt: int, availableAt: int, exhausted: bool)

  datatype Page = Page(
    id: nat, startedAt: int, scan: string, tokenIn: Token, tokenOut: Token, requestedAt: int, availableAt: int,
    hashLength: nat)

  datatype Result = Complete(yes: bool) | MissingPage | InvalidPage

  /** The page validation; request time 0 is the zero time. */
  predicate IsValid(c: Capture, p: Page) {
    && c.kind == "event_index" && c.status == "complete" && p.id == c.id && p.startedAt == c.startedAt && p.scan != ""
    && p.hashLength == 32 && p.requestedAt != 0 && p.requestedAt <= p.availableAt <= c.availableAt
    && c.exhausted == (p.tokenOut == "")
  }

  /** The pages, in capture order. */
  ghost function PagesOf(captures: seq<Capture>, pages: map<nat, Page>): seq<Page>
    requires forall c :: c in captures ==> c.id in pages
  {
    if captures == [] then [] else PagesOf(captures[..|captures| - 1], pages) + [pages[captures[|captures| - 1].id]]
  }

  /** Every page links to the next one, from the empty token to the empty token. */
  ghost predicate IsChain(order: seq<Page>) {
    && order != [] && order[0].tokenIn == "" && order[|order| - 1].tokenOut == ""
    && forall i :: 0 <= i < |order| - 1 ==> order[i].tokenOut == order[i + 1].tokenIn
  }

  /** The pages can be put in one chain that uses each of them once. */
  ghost predicate FormChain(pages: seq<Page>) {
    exists order: seq<Page> :: multiset(order) == multiset(pages) && IsChain(order)
  }

  ghost predicate OneScan(pages: seq<Page>) {
    forall i, j :: 0 <= i < |pages| && 0 <= j < |pages| ==> pages[i].scan == pages[j].scan
  }

  ghost predicate DistinctIn(pages: seq<Page>) {
    forall i, j :: 0 <= i < j < |pages| ==> pages[i].tokenIn != pages[j].tokenIn
  }

  // ------------------------------------------------------- distinct pages

  ghost function Members(pages: seq<Page>): set<Page> { set p | p in pages }

  lemma {:induction false} DistinctCounts(pages: seq<Page>)
    requires DistinctIn(pages)
    ensures forall p :: multiset(pages)[p] == if p in pages then 1 else 0
    ensures |Members(pages)| == |pages|
    decreases |pages|
  {
    if pages != [] {
      var front, last := pages[..|pages| - 1], pages[|pages| - 1];
      assert pages == front + [last];
      DistinctCounts(front);
      assert last !in front by {
        forall i | 0 <= i < |front| ensures front[i] != last {
          assert pages[i].tokenIn != pages[|pages| - 1].tokenIn;
        }
      }
      assert Members(pages) == Members(front) + {last};
    }
  }

  /** Distinct pages taken from others, as many as there are, are the same pages. */
  lemma SamePages(some: seq<Page>, all: seq<Page>)
    requires DistinctIn(some) && DistinctIn(all) && |some| == |all| && forall p :: p in some ==> p in all
    ensures multiset(some) == multiset(all)
  {
    DistinctCounts(some);
    DistinctCounts(all);
    Filled(Members(some), Members(all));
    forall p ensures multiset(some)[p] == multiset(all)[p] {
      assert p in some <==> p in Members(some);
    }
  }

  lemma Filled(a: set<Page>, b: set<Page>)
    requires a <= b && |a| == |b|
    ensures a == b
  {
    assert b == a + (b - a);
    assert |b| == |a| + |b - a|;
    assert b - a == {};
  }

  lemma CountedTwice(order: seq<Page>, i: nat, j: nat)
    requires i < j < |order|
    ensures order[i] == order[j] ==> multiset(order)[order[i]] >= 2
  {
    assert order == order[..j] + [order[j]] + order[j + 1..];
    assert order[i] == order[..j][i];
  }

  /** An ordering of distinct pages has no page twice. */
  lemma OrderIsDistinct(order: seq<Page>, pages: seq<Page>)
    requires DistinctIn(pages) && multiset(order) == multiset(pages)
    ensures |order| == |pages| && (forall p :: p in order <==> p in pages)
    ensures forall i, j :: 0 <= i < j < |order| ==> order[i] != order[j]
  {
    DistinctCounts(pages);
    assert |multiset(order)| == |order| && |multiset(pages)| == |pages|;
    forall p ensures p in order <==> p in pages {
      assert p in order <==> p in multiset(order);
      assert p in pages <==> p in multiset(pages);
    }
    forall i, j | 0 <= i < j < |order| ensures order[i] != order[j] {
      CountedTwice(order, i, j);
    }
  }

  /** The token map holds exactly the pages. */
  ghost predicate IsTokenMap(pages: seq<Page>, byToken: map<Token, Page>) {
    && (forall i :: 0 <= i < |pages| ==> pages[i].tokenIn in byToken && byToken[pages[i].tokenIn] == pages[i])
    && (forall t :: t in byToken ==> byToken[t].tokenIn == t && byToken[t] in pages)
  }

  /** The pages walked so far, from the empty token. */
  ghost predicate IsWalk(byToken: map<Token, Page>, walked: seq<Page>, token: Token, seen: set<Token>) {
    && (forall i :: 0 <= i < |walked| ==> walked[i].tokenIn in byToken && byToken[walked[i].tokenIn] == walked[i])
    && (walked == [] ==> token == "")
    && (walked != [] ==> walked[0].tokenIn == "" && walked[|walked| - 1].tokenOut == token)
    && (forall i :: 0 <= i < |walked| - 1 ==> walked[i].tokenOut == walked[i + 1].tokenIn)
    && seen == Tokens(walked) && |seen| == |walked| && (walked != [] ==> token != "")
  }

  method Walk(byToken: map<Token, Page>, ghost pages: seq<Page>) returns (yes: bool)
    requires IsTokenMap(pages, byToken) && DistinctIn(pages)
    ensures yes <==> FormChain(pages)
  {
    var token, seen := "", {};
    var n := |byToken|;
    TokenMapSize(pages, byToken);
    ghost var walked: seq<Page> := [];
    while |seen| < n
      invariant IsWalk(byToken, walked, token, seen) && |seen| <= n == |pages|
      invariant IsOnChains(pages, walked)
      decreases n - |seen|
    {
      if token !in byToken || token in seen {
        NoWayOn(pages, byToken, walked, token, seen);
        return false;
      }
      var page := byToken[token];
      OneStep(pages, byToken, walked, token, seen);
      if page.tokenOut == "" {
        LastStep(pages, byToken, walked, token, seen);
      }
      seen := seen + {token};
      walked := walked + [page];
      if page.tokenOut == "" {
        return |seen| == n;
      }
      token := page.tokenOut;
    }
    NoWayOn(pages, byToken, walked, token, seen);
    yes := false;
  }

  lemma TokenMapSize(pages: seq<Page>, byToken: map<Token, Page>)
    requires IsTokenMap(pages, byToken) && DistinctIn(pages)
    ensures |byToken| == |pages|
  {
    forall t ensures t in byToken.Keys <==> t in Tokens(pages) {
      if t in byToken {
        var i :| 0 <= i < |pages| && pages[i] == byToken[t];
      }
    }
    assert byToken.Keys == Tokens(pages);
    assert |byToken| == |byToken.Keys|;
    hide IsTokenMap;
    TokensCount(pages);
  }

  lemma {:induction false} TokensCount(pages: seq<Page>)
    requires DistinctIn(pages)
    ensures |Tokens(pages)| == |pages|
    decreases |pages|
  {
    if pages != [] {
      var front, last := pages[..|pages| - 1], pages[|pages| - 1];
      TokensCount(front);
      assert Tokens(pages) == Tokens(front) + {last.tokenIn};
      assert last.tokenIn !in Tokens(front);
    }
  }

  /** Whatever chain there is, the walk is on it. */
  ghost predicate IsOnChains(pages: seq<Page>, walked: seq<Page>) {
    forall order: seq<Page> :: multiset(order) == multiset(pages) && IsChain(order) ==> walked <= order
  }

  /** Where a chain goes on after the walk. */
  lemma ChainGoesOn(pages: seq<Page>, byToken: map<Token, Page>, walked: seq<Page>, token: Token, seen: set<Token>,
                    order: seq<Page>)
    requires IsTokenMap(pages, byToken) && DistinctIn(pages) && IsWalk(byToken, walked, token, seen)
    requires multiset(order) == multiset(pages) && IsChain(order) && walked <= order
    ensures |walked| < |order| == |pages| && order[|walked|].tokenIn == token && token in byToken
    ensures byToken[token] == order[|walked|] && token !in seen
  {
    OrderIsDistinct(order, pages);
    var k := |walked|;
    assert forall i :: 0 <= i < k ==> order[i] == walked[i];
    assert k > 0 ==> order[k - 1] == walked[k - 1];
    assert k > 0 ==> order[k - 1].tokenOut == order[k].tokenIn;
    assert order[k] in pages;
    var j :| 0 <= j < |pages| && pages[j] == order[k];
    forall i | 0 <= i < k ensures walked[i].tokenIn != token {
      assert order[i] in pages;
      OneToken(pages, order[i], order[k]);
    }
  }

  lemma NoWayOn(pages: seq<Page>, byToken: map<Token, Page>, walked: seq<Page>, token: Token, seen: set<Token>)
    requires IsTokenMap(pages, byToken) && DistinctIn(pages)
    requires IsWalk(byToken, walked, token, seen) && IsOnChains(pages, walked)
    requires token !in byToken || token in seen || |walked| == |pages|
    ensures !FormChain(pages)
  {
    if order: seq<Page> :| multiset(order) == multiset(pages) && IsChain(order) {
      ChainGoesOn(pages, byToken, walked, token, seen, order);
    }
  }

  lemma OneStep(pages: seq<Page>, byToken: map<Token, Page>, walked: seq<Page>, token: Token, seen: set<Token>)
    requires IsTokenMap(pages, byToken) && DistinctIn(pages)
    requires IsWalk(byToken, walked, token, seen) && IsOnChains(pages, walked)
    requires token in byToken && token !in seen
    ensures IsOnChains(pages, walked + [byToken[token]])
    ensures byToken[token].tokenOut != "" ==>
      IsWalk(byToken, walked + [byToken[token]], byToken[token].tokenOut, seen + {token})
  {
    forall order: seq<Page> | multiset(order) == multiset(pages) && IsChain(order)
      ensures walked + [byToken[token]] <= order
    {
      ChainGoesOn(pages, byToken, walked, token, seen, order);
    }
    WalkOn(byToken, walked, token, seen);
  }

  lemma WalkOn(byToken: map<Token, Page>, walked: seq<Page>, token: Token, seen: set<Token>)
    requires IsWalk(byToken, walked, token, seen) && token in byToken && token !in seen
    requires forall t :: t in byToken ==> byToken[t].tokenIn == t
    ensures byToken[token].tokenOut != "" ==>
      IsWalk(byToken, walked + [byToken[token]], byToken[token].tokenOut, seen + {token})
  {
    var more := walked + [byToken[token]];
    assert more[|walked|] == byToken[token] && forall i :: 0 <= i < |walked| ==> more[i] == walked[i];
    TokensMore(walked, byToken[token]);
  }

  lemma TokensMore(walked: seq<Page>, p: Page)
    ensures Tokens(walked + [p]) == Tokens(walked) + {p.tokenIn}
  {
    var more := walked + [p];
    assert more[|walked|] == p;
    forall t | t in Tokens(walked) ensures t in Tokens(more) {
      var i :| 0 <= i < |walked| && walked[i].tokenIn == t;
      assert more[i].tokenIn == t;
    }
  }

  /** The walk ended at the empty token: it is a chain of all pages exactly if it
      met all of them. */
  lemma LastStep(pages: seq<Page>, byToken: map<Token, Page>, walked: seq<Page>, token: Token, seen: set<Token>)
    requires IsTokenMap(pages, byToken) && DistinctIn(pages)
    requires IsWalk(byToken, walked, token, seen) && IsOnChains(pages, walked)
    requires token in byToken && token !in seen && byToken[token].tokenOut == ""
    ensures FormChain(pages) <==> |walked| + 1 == |pages|
  {
    var more := walked + [byToken[token]];
    OneStep(pages, byToken, walked, token, seen);
    if order: seq<Page> :| multiset(order) == multiset(pages) && IsChain(order) {
      OrderIsDistinct(order, pages);
      assert more <= order && order[|more| - 1] == more[|more| - 1];
      EndsAtEnd(pages, order, |more| - 1);
    }
    if |more| == |pages| {
      WalkedAll(pages, byToken, walked, token, seen);
    }
  }

  lemma OneToken(pages: seq<Page>, p: Page, q: Page)
    requires DistinctIn(pages) && p in pages && q in pages
    ensures p.tokenIn == q.tokenIn ==> p == q
  {
  }

  /** Only the last page of a chain asks for nothing more. */
  lemma EndsAtEnd(pages: seq<Page>, order: seq<Page>, k: nat)
    requires DistinctIn(pages) && multiset(order) == multiset(pages) && IsChain(order) && k < |order|
    ensures order[k].tokenOut == "" ==> k == |order| - 1
  {
    OrderIsDistinct(order, pages);
    if k < |order| - 1 {
      assert order[k].tokenOut == order[k + 1].tokenIn;
      assert order[0] in pages && order[k + 1] in pages;
      OneToken(pages, order[0], order[k + 1]);
    }
  }

  lemma WalkedAll(pages: seq<Page>, byToken: map<Token, Page>, walked: seq<Page>, token: Token, seen: set<Token>)
    requires IsTokenMap(pages, byToken) && DistinctIn(pages) && IsWalk(byToken, walked, token, seen)
    requires token in byToken && token !in seen && byToken[token].tokenOut == "" && |walked| + 1 == |pages|
    ensures FormChain(pages)
  {
    var more := walked + [byToken[token]];
    WalkIsDistinct(byToken, walked, token, seen);
    forall p | p in more ensures p in pages {
      var i :| 0 <= i < |more| && more[i] == p;
      assert byToken[p.tokenIn] == p;
    }
    SamePages(more, pages);
    assert IsChain(more);
  }

  lemma WalkIsDistinct(byToken: map<Token, Page>, walked: seq<Page>, token: Token, seen: set<Token>)
    requires IsWalk(byToken, walked, token, seen) && token in byToken
    requires byToken[token].tokenIn == token && token !in seen
    ensures DistinctIn(walked + [byToken[token]])
  {
    var more := walked + [byToken[token]];
    DistinctBySize(walked, seen);
    forall i, j | 0 <= i < j < |more| ensures more[i].tokenIn != more[j].tokenIn {
      if j == |walked| {
        assert walked[i].tokenIn in seen;
      }
    }
  }

  /** As many tokens as pages: no token twice. */
  lemma {:induction false} DistinctBySize(walked: seq<Page>, seen: set<Token>)
    requires seen == Tokens(walked) && |seen| == |walked|
    ensures DistinctIn(walked)
    decreases |walked|
  {
    forall i, j | 0 <= i < j < |walked| ensures walked[i].tokenIn != walked[j].tokenIn {
      RepeatedToken(walked, i, j);
    }
  }

  lemma RepeatedToken(walked: seq<Page>, i: nat, j: nat)
    requires i < j < |walked|
    ensures walked[i].tokenIn == walked[j].tokenIn ==> |Tokens(walked)| < |walked|
  {
    if walked[i].tokenIn == walked[j].tokenIn {
      var fewer := walked[..j] + walked[j + 1..];
      TokensBound(fewer);
      forall t ensures t in Tokens(walked) <==> t in Tokens(fewer) {
        if t in Tokens(walked) {
          var k :| 0 <= k < |walked| && walked[k].tokenIn == t;
          assert fewer[if k < j then k else if k == j then i else k - 1].tokenIn == t;
        }
        if t in Tokens(fewer) {
          var k :| 0 <= k < |fewer| && fewer[k].tokenIn == t;
          assert walked[if k < j then k else k + 1].tokenIn == t;
        }
      }
      assert Tokens(walked) == Tokens(fewer);
    }
  }

  ghost function Tokens(pages: seq<Page>): set<Token> { set i | 0 <= i < |pages| :: pages[i].tokenIn }

  lemma {:induction false} TokensBound(pages: seq<Page>)
    ensures |Tokens(pages)| <= |pages|
    decreases |pages|
  {
    if pages != [] {
      var front := pages[..|pages| - 1];
      TokensBound(front);
      assert Tokens(pages) == Tokens(front) + {pages[|pages| - 1].tokenIn};
    }
  }

  // ---------------------------------------------------------------- the check

  /** The first page in capture order that is missing or invalid, if any. */
  ghost predicate AllValid(captures: seq<Capture>, pages: map<nat, Page>) {
    forall c :: c in captures ==> c.id in pages && IsValid(c, pages[c.id])
  }

  lemma PagesAt(captures: seq<Capture>, pages: map<nat, Page>, i: nat)
    requires (forall c :: c in captures ==> c.id in pages) && i < |captures|
    ensures |PagesOf(captures, pages)| == |captures| && PagesOf(captures, pages)[i] == pages[captures[i].id]
    decreases |captures|
  {
    if |captures| > 1 {
      PagesAt(captures[..|captures| - 1], pages, if i < |captures| - 1 then i else 0);
    }
  }

  lemma PagesMore(captures: seq<Capture>, c: Capture, pages: map<nat, Page>)
    requires forall d :: d in captures + [c] ==> d.id in pages
    ensures PagesOf(captures + [c], pages) == PagesOf(captures, pages) + [pages[c.id]]
  {
  }

  lemma TokenMapMore(pages: seq<Page>, byToken: map<Token, Page>, p: Page)
    requires IsTokenMap(pages, byToken) && DistinctIn(pages) && p.tokenIn !in byToken
    ensures IsTokenMap(pages + [p], byToken[p.tokenIn := p]) && DistinctIn(pages + [p])
  {
  }

  /** What was collected from the first captures. */
  ghost predicate IsCollected(captures: seq<Capture>, pages: map<nat, Page>, byToken: map<Token, Page>, scan: string) {
    && AllValid(captures, pages)
    && var all := PagesOf(captures, pages);
      IsTokenMap(all, byToken) && DistinctIn(all) && |all| == |captures|
      && (captures == [] <==> scan == "") && forall i :: 0 <= i < |all| ==> all[i].scan == scan
  }

  lemma CollectMore(captures: seq<Capture>, pages: map<nat, Page>, byToken: map<Token, Page>, scan: string, c: Capture)
    requires IsCollected(captures, pages, byToken, scan) && c.id in pages && IsValid(c, pages[c.id])
    requires (scan == "" || pages[c.id].scan == scan) && pages[c.id].tokenIn !in byToken
    ensures IsCollected(captures + [c], pages, byToken[pages[c.id].tokenIn := pages[c.id]], pages[c.id].scan)
  {
    PagesMore(captures, c, pages);
    TokenMapMore(PagesOf(captures, pages), byToken, pages[c.id]);
  }

  lemma AllCollected(captures: seq<Capture>, pages: map<nat, Page>, byToken: map<Token, Page>, scan: string)
    requires IsCollected(captures, pages, byToken, scan)
    ensures AllValid(captures, pages)
    ensures var all := PagesOf(captures, pages); IsTokenMap(all, byToken) && DistinctIn(all) && OneScan(all)
  {
  }

  /** Either an early answer or the token map of the window. */
  method Collect(captures: seq<Capture>, pages: map<nat, Page>)
    returns (early: Option<Result>, byToken: map<Token, Page>)
    ensures early.None? ==> exists scan :: IsCollected(captures, pages, byToken, scan)
    ensures early.Some? ==> IsEarly(captures, pages, early.value)
  {
    byToken := map[];
    var scan := "";
    early := None;
    assert captures[..0] == [] && IsCollected([], pages, byToken, scan);
    var i := 0;
    hide IsCollected, IsEarly;
    while i < |captures|
      invariant i <= |captures| && early.None? && IsCollected(captures[..i], pages, byToken, scan)
    {
      var c := captures[i];
      assert captures[..i + 1] == captures[..i] + [c];
      early := Judge(captures, pages, i, byToken, scan);
      if early.Some? {
        return;
      }
      CollectMore(captures[..i], pages, byToken, scan, c);
      scan := pages[c.id].scan;
      byToken := byToken[pages[c.id].tokenIn := pages[c.id]];
      i := i + 1;
    }
    assert captures[..|captures|] == captures;
  }

  /** An answer given before the walk is right. */
  ghost predicate IsEarly(captures: seq<Capture>, pages: map<nat, Page>, early: Result) {
    if early.Complete?
    then !early.yes
        && (AllValid(captures, pages) ==> !(DistinctIn(PagesOf(captures, pages)) && OneScan(PagesOf(captures, pages))))
    else
      exists c ::
        c in captures && if early.MissingPage? then c.id !in pages else c.id in pages && !IsValid(c, pages[c.id])
  }

  /** The checks on one capture and its page. */
  method Judge(captures: seq<Capture>, pages: map<nat, Page>, i: nat, byToken: map<Token, Page>, scan: string)
    returns (early: Option<Result>)
    requires i < |captures| && IsCollected(captures[..i], pages, byToken, scan)
    ensures early.Some? ==> IsEarly(captures, pages, early.value)
    ensures early.None? ==>
      var c := captures[i];
      c.id in pages && IsValid(c, pages[c.id]) && (scan == "" || pages[c.id].scan == scan)
          && pages[c.id].tokenIn !in byToken
  {
    var c := captures[i];
    assert c in captures;
    if c.id !in pages {
      return Some(MissingPage);
    }
    var p := pages[c.id];
    if !IsValid(c, p) {
      return Some(InvalidPage);
    }
    assert captures[..i + 1] == captures[..i] + [c];
    if p.scan == "" || (scan != "" && p.scan != scan) {
      OtherScan(captures, pages, i);
      return Some(Complete(false));
    }
    if p.tokenIn in byToken {
      OtherPage(captures, pages, i, byToken);
      return Some(Complete(false));
    }
    assert c.exhausted == (p.tokenOut == "");
    early := if c.exhausted != (p.tokenOut == "") then Some(Complete(false)) else None;
  }

  /** The pages of a prefix are a prefix of the pages. */
  lemma EarlyNo(captures: seq<Capture>, pages: map<nat, Page>, i: nat)
    requires i < |captures| && forall c :: c in captures[..i + 1] ==> c.id in pages
    ensures AllValid(captures, pages) ==>
      var all := PagesOf(captures, pages);
      |all| == |captures| && all[i] == pages[captures[i].id] && all[..i] == PagesOf(captures[..i], pages)
  {
    if AllValid(captures, pages) {
      var all := PagesOf(captures, pages);
      PagesAt(captures, pages, i);
      forall c | c in captures[..i] ensures c.id in pages {
        assert c in captures[..i + 1];
      }
      if i > 0 {
        PagesAt(captures[..i], pages, 0);
      }
      forall j | 0 <= j < i ensures all[j] == PagesOf(captures[..i], pages)[j] {
        PagesAt(captures, pages, j);
        PagesAt(captures[..i], pages, j);
      }
    }
  }

  lemma OtherScan(captures: seq<Capture>, pages: map<nat, Page>, i: nat)
    requires 0 < i < |captures| && forall c :: c in captures[..i + 1] ==> c.id in pages
    requires var all := PagesOf(captures[..i], pages); |all| == i && all[0].scan != pages[captures[i].id].scan
    ensures AllValid(captures, pages) ==> !OneScan(PagesOf(captures, pages))
  {
    EarlyNo(captures, pages, i);
    if AllValid(captures, pages) {
      var all := PagesOf(captures, pages);
      assert all[..i][0] == all[0];
    }
  }

  lemma OtherPage(captures: seq<Capture>, pages: map<nat, Page>, i: nat, byToken: map<Token, Page>)
    requires i < |captures| && forall c :: c in captures[..i + 1] ==> c.id in pages
    requires IsTokenMap(PagesOf(captures[..i], pages), byToken) && pages[captures[i].id].tokenIn in byToken
    ensures AllValid(captures, pages) ==> !DistinctIn(PagesOf(captures, pages))
  {
    EarlyNo(captures, pages, i);
    if AllValid(captures, pages) {
      var all, front := PagesOf(captures, pages), PagesOf(captures[..i], pages);
      var j :| 0 <= j < |front| && front[j] == byToken[pages[captures[i].id].tokenIn];
      assert all[..i][j] == all[j];
    }
  }

  /** What makes a page unusable: it is no complete page of an index, belongs to another capture,
      its times or its hash do not fit, or it contradicts its capture about being the last. */
  ghost predicate IsBroken(c: Capture, p: Page) {
    || c.kind != "event_index" || c.status != "complete" || p.id != c.id || p.startedAt != c.startedAt || p.scan == ""
    || p.hashLength != 32 || p.requestedAt == 0 || p.availableAt < p.requestedAt || c.availableAt < p.availableAt
    || (c.exhausted && p.tokenOut != "") || (!c.exhausted && p.tokenOut == "")
  }

  /** For valid pages: complete means one scan, no token asked twice, and one chain
      through every page from the empty token to the empty token. */
  method IndexWindowComplete(captures: seq<Capture>, pages: map<nat, Page>) returns (result: Result)
    ensures result.Complete? ==> (result.yes ==> AllValid(captures, pages))
    ensures !result.Complete? ==> !AllValid(captures, pages)
    ensures AllValid(captures, pages) <==> forall c :: c in captures ==> c.id in pages && !IsBroken(c, pages[c.id])
    ensures result.MissingPage? ==> exists c :: c in captures && c.id !in pages
    ensures result.InvalidPage? ==> exists c :: c in captures && c.id in pages && IsBroken(c, pages[c.id])
    ensures AllValid(captures, pages) ==>
      var all := PagesOf(captures, pages);
      result == Complete(OneScan(all) && DistinctIn(all) && FormChain(all))
  {
    var early, byToken := Collect(captures, pages);
    if early.Some? {
      return early.value;
    }
    ghost var scan :| IsCollected(captures, pages, byToken, scan);
    AllCollected(captures, pages, byToken, scan);
    hide IsCollected;
    var yes := Walk(byToken, PagesOf(captures, pages));
    result := Complete(yes);
  }

  /** A chain through all pages is not enough: the same token may be asked twice
      along it, and such a window counts as incomplete. */
  lemma ChainIsNotEnough() returns (captures: seq<Capture>, pages: map<nat, Page>)
    ensures AllValid(captures, pages)
    ensures var all := PagesOf(captures, pages); OneScan(all) && FormChain(all) && !DistinctIn(all)
  {
    captures := [Numbered(0), Numbered(1), Numbered(2), Numbered(3)];
    pages := map[0 := Linked(0, "", "a"), 1 := Linked(1, "a", "b"), 2 := Linked(2, "b", "a"), 3 := Linked(3, "a", "")];
    forall i: nat | i < 4 ensures i in pages && IsValid(Numbered(i), pages[i]) {
    }
    assert forall c :: c in captures ==> exists i: nat :: i < 4 && c == Numbered(i);
    var all := PagesOf(captures, pages);
    forall i: nat | i < 4 ensures |all| == 4 && all[i] == pages[i] {
      PagesAt(captures, pages, i);
    }
    hide PagesOf, IsValid;
    assert all[0].tokenIn == "" && all[3].tokenOut == "";
    assert all[0].tokenOut == all[1].tokenIn && all[1].tokenOut == all[2].tokenIn && all[2].tokenOut == all[3].tokenIn;
    assert IsChain(all);
    assert all[1].tokenIn == all[3].tokenIn;
  }

  function Numbered(i: nat): Capture { Capture(i, "event_index", "complete", 0, 9, i == 3) }

  function Linked(i: nat, tokenIn: Token, tokenOut: Token): Page { Page(i, 0, "s", tokenIn, tokenOut, 1, 2, 32) }
}
