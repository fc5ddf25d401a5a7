// The peg stability module, simulated on exact 256-bit integers: what selling and
// buying return, and that no sequence of trades takes value out of it.

module Psm {
  import opened Options

  const WAD: nat := 1_000_000_000_000_000_000
  const FACTOR: nat := 1_000_000_000_000
  const MAX_UINT: nat := 0x1_0000_0000_0000_0000_0000_0000_0000_0000_0000_0000_0000_0000_0000_0000_0000_0000 - 1

  type uint256 = n: nat | n <= MAX_UINT

  datatype Error = Halted | Inventory | Arithmetic | Unsupported

  datatype Result<T> = Success(value: T) | Failure(error: Error)

  datatype Fee = Fee(base: uint256, charge: uint256)

  // ----------------------------------------------------------------- amounts

  function Base(g: nat): nat { g * FACTOR }

  function Charge(g: nat, fee: nat): nat { Base(g) * fee / WAD }

  /** What buying `g` costs at a fee. */
  function Cost(g: nat, fee: nat): nat { Base(g) + Charge(g, fee) }

  /** The intermediate products and the sum all fit 256 bits. */
  predicate Fits(g: nat, fee: nat) {
    Base(g) <= MAX_UINT && Base(g) * fee <= MAX_UINT && Cost(g, fee) <= MAX_UINT
  }

  function FeeError(fee: nat): Option<Error> {
    if fee == MAX_UINT then Some(Halted) else if fee > WAD then Some(Unsupported) else None
  }

  function FeeAmount(g: uint256, fee: uint256): (r: Result<Fee>)
    ensures r.Success? <==> FeeError(fee).None? && Base(g) <= MAX_UINT && Base(g) * fee <= MAX_UINT
    ensures r.Success? ==> r.value == Fee(Base(g), Charge(g, fee)) && r.value.charge <= r.value.base
    ensures r.Failure? ==> r.error == if FeeError(fee).Some? then FeeError(fee).value else Arithmetic
  {
    if fee == MAX_UINT then Failure(Halted)
    else if fee > WAD then Failure(Unsupported)
    else if Base(g) > MAX_UINT then Failure(Arithmetic)
    else if Base(g) * fee > MAX_UINT then Failure(Arithmetic)
    else
      ChargeIsAFraction(g, fee);
      Success(Fee(Base(g), Charge(g, fee)))
  }

  /** The fee is the fraction fee over one of the amount in 18 decimals, rounded down. */
  lemma ChargeRoundsDown(g: nat, fee: nat)
    ensures Charge(g, fee) * 1_000_000_000_000_000_000 <= g * 1_000_000_000_000 * fee
    ensures g * 1_000_000_000_000 * fee < (Charge(g, fee) + 1) * 1_000_000_000_000_000_000
  {
    var amount := Base(g) * fee;
    assert amount == (amount / WAD) * WAD + amount % WAD;
  }

  lemma DivideMonotone(a: nat, b: nat, d: nat)
    requires a <= b && d > 0
    ensures a / d <= b / d
  {
    assert (a / d) * d <= a && b < (b / d + 1) * d;
    ProductReflects(a / d, b / d + 1, d);
  }

  lemma ProductReflects(x: nat, y: nat, d: nat)
    ensures x * d < y * d ==> x < y
  {
  }

  lemma ChargeIsAFraction(g: nat, fee: nat)
    requires fee <= WAD
    ensures Charge(g, fee) <= Base(g)
  {
  }

  /** Buying more costs more, and whatever fits, a smaller amount fits too. */
  lemma CostGrows(g: nat, h: nat, fee: nat)
    requires g <= h
    ensures Base(g) <= Base(h) && Cost(g, fee) <= Cost(h, fee)
    ensures g < h ==> Cost(g, fee) < Cost(h, fee)
    ensures Fits(h, fee) ==> Fits(g, fee)
  {
    assert Base(g) * fee <= Base(h) * fee;
    DivideMonotone(Base(g) * fee, Base(h) * fee, WAD);
  }

  function BuyCost(g: uint256, fee: uint256): (r: Result<uint256>)
    ensures FeeError(fee).None? ==> (r.Success? <==> Fits(g, fee))
    ensures r.Success? ==> r.value == Cost(g, fee)
  {
    match FeeAmount(g, fee)
    case Failure(e) => Failure(e)
    case Success(f) => if f.base + f.charge > MAX_UINT then Failure(Arithmetic) else Success(f.base + f.charge)
  }

  /** The budget pays for `g`. */
  predicate Affordable(g: nat, fee: nat, budget: nat) { Fits(g, fee) && Cost(g, fee) <= budget }

  /** The most that the budget pays for, of all amounts. */
  ghost predicate IsMost(g: nat, fee: nat, budget: nat) {
    Affordable(g, fee, budget) && forall h: nat :: Affordable(h, fee, budget) ==> h <= g
  }

  lemma MostIsUnique(g: nat, h: nat, fee: nat, budget: nat)
    requires IsMost(g, fee, budget) && IsMost(h, fee, budget)
    ensures g == h
  {
  }

  /** Less than the price of one more unit is left, unless that price cannot be
      represented. */
  lemma DustIsSmall(g: nat, fee: nat, budget: nat)
    requires IsMost(g, fee, budget) && Fits(g + 1, fee)
    ensures budget - Cost(g, fee) < Cost(g + 1, fee) - Cost(g, fee)
  {
    assert !Affordable(g + 1, fee, budget);
  }

  /** The binary search over the amounts that could be paid without any fee. */
  method Search(budget: uint256, fee: uint256) returns (lo: uint256)
    requires FeeError(fee).None?
    ensures IsMost(lo, fee, budget)
  {
    lo := 0;
    var hi: nat := budget / FACTOR;
    assert Affordable(0, fee, budget);
    while lo < hi
      invariant lo <= hi <= budget / FACTOR && Affordable(lo, fee, budget)
      invariant forall h: nat :: hi < h <= budget / FACTOR ==> !Affordable(h, fee, budget)
    {
      var mid := (lo + hi + 1) / 2;
      var cost := BuyCost(mid, fee);
      if cost.Failure? || cost.value > budget {
        forall h: nat | mid <= h ensures !Affordable(h, fee, budget) {
          CostGrows(mid, h, fee);
        }
        hi := mid - 1;
      } else {
        lo := mid;
      }
    }
    forall h: nat | Affordable(h, fee, budget) ensures h <= budget / FACTOR {
      DivideMonotone(h * FACTOR, budget, FACTOR);
      assert h * FACTOR / FACTOR == h;
    }
  }

  // ----------------------------------------------------------------- the module

  datatype State = State(tin: uint256, tout: uint256, dai: uint256, usdc: uint256, allowance: uint256)
  {
    /** DAI and USDC at their nominal rate. */
    function Value(): nat { dai + FACTOR * usdc }
  }

  ghost predicate IsSale(s: State, g: nat, out: nat, t: State) {
    && FeeError(s.tin).None? && out + Charge(g, s.tin) == Base(g) && out <= s.dai
    && t.dai == s.dai - out && t.usdc == s.usdc + g && t == s.(dai := t.dai, usdc := t.usdc)
  }

  ghost predicate IsPurchase(s: State, budget: nat, out: nat, dust: nat, t: State) {
    && FeeError(s.tout).None? && IsMost(out, s.tout, budget) && dust == budget - Cost(out, s.tout)
    && out <= s.usdc && out <= s.allowance
    && t.dai == s.dai + Cost(out, s.tout) && t.usdc == s.usdc - out
    && t.allowance == (if s.allowance == MAX_UINT then s.allowance else s.allowance - out)
    && t == s.(dai := t.dai, usdc := t.usdc, allowance := t.allowance)
  }

  /** Why a sale that does not succeed fails. */
  function SaleError(s: State, g: nat): Error {
    if FeeError(s.tin).Some? then FeeError(s.tin).value
    else if Base(g) <= MAX_UINT && Base(g) * s.tin <= MAX_UINT && Base(g) - Charge(g, s.tin) > s.dai then Inventory
    else Arithmetic
  }

  class PSM {
    const tin: uint256
    const tout: uint256
    var dai: uint256
    var usdc: uint256
    var allowance: uint256

    function View(): State
      reads this
    {
      State(tin, tout, dai, usdc, allowance)
    }

    constructor (s: State)
      ensures View() == s
    {
      tin, tout, dai, usdc, allowance := s.tin, s.tout, s.dai, s.usdc, s.allowance;
    }

    /** Deposits USDC for DAI that is minted already. */
    method Sell(g: uint256) returns (r: Result<uint256>)
      modifies this
      ensures r.Success? ==> IsSale(old(View()), g, r.value, View())
      ensures r.Failure? ==> View() == old(View())
      ensures r.Success? <==>
        && FeeError(tin).None? && Base(g) * tin <= MAX_UINT && Base(g) <= MAX_UINT
        && Base(g) - Charge(g, tin) <= old(dai) && old(usdc) + g <= MAX_UINT
      ensures r.Failure? ==> r.error == SaleError(old(View()), g)
    {
      var fee := FeeAmount(g, tin);
      if fee.Failure? {
        return Failure(fee.error);
      }
      var out := fee.value.base - fee.value.charge;
      if out > dai {
        return Failure(Inventory);
      }
      if usdc + g > MAX_UINT {
        return Failure(Arithmetic);
      }
      dai := dai - out;
      usdc := usdc + g;
      r := Success(out);
    }

    /** Spends as much of a DAI budget as buys whole units; the dust stays out. */
    method Buy(budget: uint256) returns (r: Result<(uint256, nat)>)
      modifies this
      ensures r.Success? ==> IsPurchase(old(View()), budget, r.value.0, r.value.1, View())
      ensures r.Failure? ==> View() == old(View())
      ensures r.Success? <==> FeeError(tout).None? && exists g: nat ::
        IsMost(g, tout, budget) && g <= old(usdc) && g <= old(allowance) && old(dai) + Cost(g, tout) <= MAX_UINT
      ensures r.Failure? && FeeError(tout).Some? ==> r.error == FeeError(tout).value
      ensures r.Failure? && FeeError(tout).None? ==>
        forall g: nat :: IsMost(g, tout, budget) ==>
          r.error == if g > old(usdc) || g > old(allowance) then Inventory else Arithmetic
    {
      if tout == MAX_UINT {
        return Failure(Halted);
      }
      if tout > WAD {
        return Failure(Unsupported);
      }
      var lo := Search(budget, tout);
      forall g: nat | IsMost(g, tout, budget) ensures g == lo {
        MostIsUnique(g, lo, tout, budget);
      }
      var cost := BuyCost(lo, tout);
      assert cost.Success?;
      if lo > usdc || lo > allowance {
        return Failure(Inventory);
      }
      if dai + cost.value > MAX_UINT {
        return Failure(Arithmetic);
      }
      dai := dai + cost.value;
      usdc := usdc - lo;
      if allowance != MAX_UINT {
        allowance := allowance - lo;
      }
      r := Success((lo, budget - cost.value));
    }
  }

  // ------------------------------------------------------------------ whole runs

  /** One successful trade, or a failed one. */
  ghost predicate IsTrade(s: State, t: State) {
    || t == s
    || (exists g, out :: IsSale(s, g, out, t))
    || (exists budget, out, dust :: IsPurchase(s, budget, out, dust, t))
  }

  ghost predicate IsRun(states: seq<State>) {
    forall i :: 0 <= i < |states| - 1 ==> IsTrade(states[i], states[i + 1])
  }

  lemma SaleKeepsValue(s: State, g: nat, out: nat, t: State)
    requires IsSale(s, g, out, t)
    ensures t.Value() == s.Value() + Charge(g, s.tin)
  {
  }

  lemma PurchaseKeepsValue(s: State, budget: nat, out: nat, dust: nat, t: State)
    requires IsPurchase(s, budget, out, dust, t)
    ensures t.Value() == s.Value() + Charge(out, s.tout)
  {
  }

  /** Over any run of trades the module never loses value: every trade adds exactly
      its fee. */
  lemma {:induction false} ValueNeverDecreases(states: seq<State>, i: nat, j: nat)
    requires IsRun(states) && i <= j < |states|
    ensures states[i].Value() <= states[j].Value()
    decreases j - i
  {
    if i < j {
      var s, t := states[i], states[i + 1];
      assert IsTrade(s, t);
      if g, out :| IsSale(s, g, out, t) {
        SaleKeepsValue(s, g, out, t);
      } else if budget, out, dust :| IsPurchase(s, budget, out, dust, t) {
        PurchaseKeepsValue(s, budget, out, dust, t);
      }
      ValueNeverDecreases(states, i + 1, j);
    }
  }

  /** Selling and then spending exactly the proceeds never returns more than was
      sold, whatever happened to the module in between. */
  lemma SellThenBuy(s: State, g: nat, proceeds: nat, t: State, u: State, back: nat, dust: nat, v: State)
    requires IsSale(s, g, proceeds, t) && IsPurchase(u, proceeds, back, dust, v)
    ensures back <= g
  {
    assert Base(back) <= Cost(back, u.tout) <= proceeds <= Base(g);
    BaseReflects(back, g);
  }

  lemma BaseReflects(a: nat, b: nat)
    ensures Base(a) <= Base(b) ==> a <= b
  {
  }
}
