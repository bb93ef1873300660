/** The rebalance planner (GET /api/rebalance): split a new investment across the assets
    that are below target, in proportion to their shortfall, buying whole shares only. */
module Rebalance {
  import opened Domain
  import opened Valuation

  datatype PlanItem = PlanItem(
    id: string,
    name: string,
    investEur: real,      // proportional share of the amount, before flooring
    sharesToBuy: int,
    actualSpend: real,
    pricePerShare: real,
    weightAfterPct: real)

  datatype RebalanceOut = RebalanceOut(
    amount: real,
    plan: seq<PlanItem>,
    totalSpent: real,
    leftover: real,
    liquidityAfter: real)

  /** The total the portfolio would have if the whole amount landed in it. */
  function FutureTotal(assets: seq<Asset>, cash: Cash, amount: real): (ft: real)
    ensures ft == TotalValue(assets, cash) + amount
  {
    Sum(Values(assets)) + cash.amount + amount
  }

  /** Shortfall of one asset against its target share of the future total; never negative. */
  function Gap(a: Asset, futureTotal: real): (g: real)
    ensures g >= 0.0
    ensures g >= futureTotal * (a.targetPct / 100.0) - Value(a)
    ensures g == 0.0 || g == futureTotal * (a.targetPct / 100.0) - Value(a)
  {
    var targetVal := futureTotal * (a.targetPct / 100.0);
    var currentVal := Value(a);
    if targetVal - currentVal > 0.0 then targetVal - currentVal else 0.0
  }

  function Gaps(assets: seq<Asset>, futureTotal: real): (gs: seq<real>)
    ensures |gs| == |assets|
  {
    seq(|assets|, i requires 0 <= i < |assets| => Gap(assets[i], futureTotal))
  }

  /** The sum of the gaps; never negative. */
  function TotalGap(assets: seq<Asset>, futureTotal: real): (tg: real)
    ensures tg >= 0.0
  {
    SumNonNegative(Gaps(assets, futureTotal));
    Sum(Gaps(assets, futureTotal))
  }

  /** The whole shares that `invest` buys at `price` are never negative, never cost more than
      `invest`, and are as many as it affords: one share more would cost more than `invest`. */
  lemma FloorBound(invest: real, price: real)
    ensures invest >= 0.0 && price > 0.0 ==>
              && (invest / price).Floor >= 0
              && 0.0 <= (invest / price).Floor as real * price <= invest
              && invest < ((invest / price).Floor + 1) as real * price
  {
    if invest < 0.0 || price <= 0.0 {
      return;
    }
    var q := invest / price;
    var f := q.Floor;
    assert q * price == invest;
    assert q >= 0.0;
    assert f as real <= q;
    assert (q - f as real) * price >= 0.0;
    var g := f as real + 1.0;
    var d := g - q;
    assert d > 0.0;
    assert d * price > 0.0;
    assert g * price == q * price + d * price;
  }

  /** `gap / totalGap * amount` is `gap` times the common factor `amount / totalGap`. */
  lemma ProportionalShare(gap: real, totalGap: real, amount: real)
    ensures gap >= 0.0 && totalGap > 0.0 && amount > 0.0 ==>
              gap / totalGap * amount == gap * (amount / totalGap) >= 0.0
  {
    if gap < 0.0 || totalGap <= 0.0 || amount <= 0.0 {
      return;
    }
    assert gap / totalGap * amount == gap * amount / totalGap;
  }

  /** One plan entry. Assets with a zero target or no gap get a zero allocation; the others get
      their proportional share of the amount, floored to whole shares. */
  function PlanItemFor(a: Asset, gap: real, totalGap: real, amount: real, futureTotal: real): (o: PlanItem)
    requires futureTotal != 0.0 && gap >= 0.0 && totalGap >= 0.0 && amount > 0.0
    ensures o.id == a.id && o.name == a.name && o.pricePerShare == a.price
    ensures o.sharesToBuy >= 0
    ensures o.actualSpend == o.sharesToBuy as real * a.price
    ensures 0.0 <= o.actualSpend <= o.investEur
    ensures a.targetPct == 0.0 || gap == 0.0 ==>
              o.investEur == 0.0 && o.sharesToBuy == 0 && o.actualSpend == 0.0
    ensures totalGap == 0.0 ==> o.investEur == 0.0
    ensures a.price <= 0.0 ==> o.sharesToBuy == 0
    ensures a.price > 0.0 ==> o.investEur < (o.sharesToBuy + 1) as real * a.price
  {
    if a.targetPct == 0.0 || gap <= 0.0 then
      PlanItem(a.id, a.name, 0.0, 0, 0.0, a.price, Value(a) / futureTotal * 100.0)
    else
      var invest := if totalGap > 0.0 then gap / totalGap * amount else 0.0;
      ProportionalShare(gap, totalGap, amount);
      var shares := if a.price > 0.0 then (invest / a.price).Floor else 0;
      FloorBound(invest, a.price);
      var actual := shares as real * a.price;
      PlanItem(a.id, a.name, invest, shares, actual, a.price, (Value(a) + actual) / futureTotal * 100.0)
  }

  /** The arithmetic of one entry: the spend is whole shares times the price, a funded asset's
      amount is its gap's share of the total gap, no entry exceeds that share, and the weight
      after buying is the new value's share of the future total. */
  lemma PlanItemArithmetic(a: Asset, gap: real, totalGap: real, amount: real, futureTotal: real)
    requires futureTotal != 0.0 && 0.0 <= gap <= totalGap && amount > 0.0
    ensures EntryShape(PlanItemFor(a, gap, totalGap, amount, futureTotal), a, gap, totalGap, amount, futureTotal)
  {
    var o := PlanItemFor(a, gap, totalGap, amount, futureTotal);
    assert o.weightAfterPct == (Value(a) + o.actualSpend) / futureTotal * 100.0;
  }

  /** No entry is given more than its gap times the common factor `amount / totalGap`. */
  lemma PlanItemShare(a: Asset, gap: real, totalGap: real, amount: real, futureTotal: real)
    requires futureTotal != 0.0 && 0.0 <= gap <= totalGap && amount > 0.0
    ensures var o := PlanItemFor(a, gap, totalGap, amount, futureTotal);
            && 0.0 <= o.actualSpend <= o.investEur
            && (totalGap > 0.0 ==> o.investEur <= gap * (amount / totalGap))
            && (totalGap <= 0.0 ==> o.investEur <= 0.0)
  {
    ProportionalShare(gap, totalGap, amount);
  }

  /** The plan: one entry per asset, in asset order. */
  function Plan(assets: seq<Asset>, amount: real, futureTotal: real): (plan: seq<PlanItem>)
    requires futureTotal != 0.0 || |assets| == 0
    requires amount > 0.0
    ensures |plan| == |assets|
    ensures forall i :: 0 <= i < |assets| ==>
              plan[i].id == assets[i].id && plan[i].pricePerShare == assets[i].price
  {
    var gaps := Gaps(assets, futureTotal);
    var totalGap := TotalGap(assets, futureTotal);
    SumNonNegative(gaps);
    seq(|assets|, i requires 0 <= i < |assets| =>
      PlanItemFor(assets[i], gaps[i], totalGap, amount, futureTotal))
  }

  function Spends(plan: seq<PlanItem>): (s: seq<real>)
    ensures |s| == |plan|
  {
    seq(|plan|, i requires 0 <= i < |plan| => plan[i].actualSpend)
  }

  function Invests(plan: seq<PlanItem>): (s: seq<real>)
    ensures |s| == |plan|
  {
    seq(|plan|, i requires 0 <= i < |plan| => plan[i].investEur)
  }

  /** The planner's answer: a validation error for a non-positive amount, the division-by-zero
      failure when the projected total is zero and there is an asset to weigh, else the plan. */
  function RebalancePlan(assets: seq<Asset>, cash: Cash, amount: real): (r: Result<RebalanceOut>)
    ensures r.Err? <==> amount <= 0.0 || (FutureTotal(assets, cash, amount) == 0.0 && |assets| > 0)
    ensures amount <= 0.0 ==> r == Err(NonPositiveAmount(amount))
    ensures r.Ok? ==> r.value.amount == amount
  {
    if amount <= 0.0 then Err(NonPositiveAmount(amount))
    else
      var futureTotal := FutureTotal(assets, cash, amount);
      if futureTotal == 0.0 && |assets| > 0 then Err(DivisionByZero)
      else
        var plan := Plan(assets, amount, futureTotal);
        var totalSpent := Sum(Spends(plan));
        var leftover := amount - totalSpent;
        Ok(RebalanceOut(amount, plan, totalSpent, leftover, cash.amount + leftover))
  }

  /** The planner as the endpoint runs it: one loop collecting the gaps, then one building the
      plan and accumulating the spend. */
  method GetRebalance(assets: seq<Asset>, cash: Cash, amount: real) returns (r: Result<RebalanceOut>)
    ensures r == RebalancePlan(assets, cash, amount)
  {
    if amount <= 0.0 {
      return Err(NonPositiveAmount(amount));
    }
    var futureTotal := Sum(Values(assets)) + cash.amount + amount;

    var gaps: seq<real> := [];
    for i := 0 to |assets|
      invariant |gaps| == i
      invariant forall j :: 0 <= j < i ==> gaps[j] == Gap(assets[j], futureTotal)
    {
      gaps := gaps + [Gap(assets[i], futureTotal)];
    }
    assert gaps == Gaps(assets, futureTotal);
    var totalGap := Sum(gaps);

    // Every entry divides by the future total, so a zero total fails on the first asset.
    if futureTotal == 0.0 && |assets| > 0 {
      return Err(DivisionByZero);
    }
    var plan, totalSpent := BuildPlan(assets, gaps, totalGap, amount, futureTotal);
    var leftover := amount - totalSpent;
    r := Ok(RebalanceOut(amount, plan, totalSpent, leftover, cash.amount + leftover));
  }

  /** The second loop of the planner: one entry per asset, accumulating the spend. */
  method BuildPlan(assets: seq<Asset>, gaps: seq<real>, totalGap: real, amount: real, futureTotal: real)
    returns (plan: seq<PlanItem>, totalSpent: real)
    requires gaps == Gaps(assets, futureTotal) && totalGap == Sum(gaps)
    requires futureTotal != 0.0 || |assets| == 0
    requires amount > 0.0
    ensures plan == Plan(assets, amount, futureTotal)
    ensures totalSpent == Sum(Spends(plan))
  {
    SumNonNegative(gaps);
    plan := [];
    totalSpent := 0.0;
    for i := 0 to |assets|
      invariant |plan| == i
      invariant forall j :: 0 <= j < i ==>
                  plan[j] == PlanItemFor(assets[j], gaps[j], totalGap, amount, futureTotal)
      invariant totalSpent == Sum(Spends(plan))
    {
      var item := PlanItemFor(assets[i], gaps[i], totalGap, amount, futureTotal);
      totalSpent := totalSpent + item.actualSpend;
      assert Spends(plan + [item]) == Spends(plan) + [item.actualSpend];
      SumAppend(Spends(plan), item.actualSpend);
      plan := plan + [item];
    }
  }

  /** Every gap is non-negative, and so is their total. */
  lemma GapsNonNegative(assets: seq<Asset>, futureTotal: real)
    ensures forall i :: 0 <= i < |assets| ==> Gaps(assets, futureTotal)[i] >= 0.0
    ensures TotalGap(assets, futureTotal) >= 0.0
  {
    SumNonNegative(Gaps(assets, futureTotal));
  }

  /** The entry at index i of the planner's answer is PlanItemFor applied to the i-th asset. */
  lemma PlanEntry(assets: seq<Asset>, cash: Cash, amount: real, i: nat)
    requires RebalancePlan(assets, cash, amount).Ok? && i < |assets|
    ensures var ft := FutureTotal(assets, cash, amount);
            var out := RebalancePlan(assets, cash, amount).value;
            && ft != 0.0 && amount > 0.0
            && Gaps(assets, ft)[i] >= 0.0 && TotalGap(assets, ft) >= 0.0
            && |out.plan| == |assets|
            && out.plan[i] == PlanItemFor(assets[i], Gaps(assets, ft)[i], TotalGap(assets, ft), amount, ft)
  {
    GapsNonNegative(assets, FutureTotal(assets, cash, amount));
  }

  /** The facts of PlanShape for the entry at index i. */
  lemma PlanEntryShape(assets: seq<Asset>, cash: Cash, amount: real, i: nat)
    requires RebalancePlan(assets, cash, amount).Ok? && i < |assets|
    ensures var out := RebalancePlan(assets, cash, amount).value;
            var ft := FutureTotal(assets, cash, amount);
            var gaps := Gaps(assets, ft);
            && |out.plan| == |assets|
            && EntryShape(out.plan[i], assets[i], gaps[i], TotalGap(assets, ft), amount, ft)
  {
    var ft := FutureTotal(assets, cash, amount);
    var gaps := Gaps(assets, ft);
    PlanEntry(assets, cash, amount, i);
    GapWithinTotal(gaps, i);
    PlanItemArithmetic(assets[i], gaps[i], TotalGap(assets, ft), amount, ft);
  }

  /** What the planner promises of the entry `o` for asset `a`. */
  ghost predicate EntryShape(o: PlanItem, a: Asset, gap: real, totalGap: real, amount: real, ft: real)
  {
    && o.id == a.id
    && o.name == a.name
    && o.pricePerShare == a.price
    && o.sharesToBuy >= 0
    && o.actualSpend == o.sharesToBuy as real * a.price
    && 0.0 <= o.actualSpend <= o.investEur
    && (a.targetPct == 0.0 || gap == 0.0 ==>
          o.investEur == 0.0 && o.sharesToBuy == 0 && o.actualSpend == 0.0)
    && (a.targetPct != 0.0 && gap > 0.0 ==>
          totalGap > 0.0 && o.investEur == gap / totalGap * amount)
    && (a.price <= 0.0 ==> o.sharesToBuy == 0)
    && (a.price > 0.0 ==> o.investEur < (o.sharesToBuy + 1) as real * a.price)
    && o.weightAfterPct * ft == (Value(a) + o.actualSpend) * 100.0
  }

  /** The plan has one entry per asset, in asset order, carrying the asset's id, name and price;
      an asset with a zero target or no gap gets nothing; the others get their gap's share of
      the amount, floored to whole shares at the asset's price: as many as that share affords,
      and none at a non-positive price. */
  lemma PlanShape(assets: seq<Asset>, cash: Cash, amount: real)
    requires RebalancePlan(assets, cash, amount).Ok?
    ensures var out := RebalancePlan(assets, cash, amount).value;
            var ft := FutureTotal(assets, cash, amount);
            && |out.plan| == |assets|
            && forall i :: 0 <= i < |assets| ==>
                 EntryShape(out.plan[i], assets[i], Gaps(assets, ft)[i], TotalGap(assets, ft), amount, ft)
  {
    forall i | 0 <= i < |assets|
      ensures var out := RebalancePlan(assets, cash, amount).value;
              var ft := FutureTotal(assets, cash, amount);
              EntryShape(out.plan[i], assets[i], Gaps(assets, ft)[i], TotalGap(assets, ft), amount, ft)
    {
      PlanEntryShape(assets, cash, amount, i);
    }
  }

  /** A single non-negative term never exceeds the sum of non-negative terms. */
  lemma {:induction false} GapWithinTotal(gaps: seq<real>, i: nat)
    requires forall j :: 0 <= j < |gaps| ==> gaps[j] >= 0.0
    requires i < |gaps|
    ensures gaps[i] <= Sum(gaps)
  {
    var n := |gaps| - 1;
    SumNonNegative(gaps[..n]);
    if i < n {
      GapWithinTotal(gaps[..n], i);
    }
  }

  /** Per entry: the spend is within the proportional amount, which is within the gap's share. */
  lemma EntryBounds(assets: seq<Asset>, amount: real, ft: real, i: nat)
    requires ft != 0.0 && amount > 0.0 && i < |assets|
    ensures var plan := Plan(assets, amount, ft);
            var tg := TotalGap(assets, ft);
            && |plan| == |assets|
            && 0.0 <= plan[i].actualSpend <= plan[i].investEur
            && (tg > 0.0 ==> plan[i].investEur <= Gaps(assets, ft)[i] * (amount / tg))
            && (tg <= 0.0 ==> plan[i].investEur <= 0.0)
  {
    var gaps := Gaps(assets, ft);
    GapsNonNegative(assets, ft);
    GapWithinTotal(gaps, i);
    PlanItemShare(assets[i], gaps[i], TotalGap(assets, ft), amount, ft);
  }

  /** Flooring never overspends: the total spent is the sum of the entries' spends; in exact
      arithmetic the proportional amounts add up to at most the amount, the spend to at most
      those, and the leftover is non-negative and is folded back into the liquidity. */
  lemma NoOverspend(assets: seq<Asset>, cash: Cash, amount: real)
    requires RebalancePlan(assets, cash, amount).Ok?
    ensures var out := RebalancePlan(assets, cash, amount).value;
            && out.totalSpent == Sum(Spends(out.plan))
            && 0.0 <= out.totalSpent <= Sum(Invests(out.plan)) <= amount
            && out.leftover == amount - out.totalSpent >= 0.0
            && out.liquidityAfter == cash.amount + out.leftover
  {
    var ft := FutureTotal(assets, cash, amount);
    if |assets| > 0 {
      PlanWithinAmount(assets, amount, ft);
    }
  }

  /** The plan's spends add up to at most its proportional amounts, which add up to at most
      the amount. */
  lemma PlanWithinAmount(assets: seq<Asset>, amount: real, ft: real)
    requires ft != 0.0 && amount > 0.0
    ensures var plan := Plan(assets, amount, ft);
            0.0 <= Sum(Spends(plan)) <= Sum(Invests(plan)) <= amount
  {
    var gaps := Gaps(assets, ft);
    var tg := TotalGap(assets, ft);
    var plan := Plan(assets, amount, ft);
    var spends, invests := Spends(plan), Invests(plan);
    var c := if tg > 0.0 then amount / tg else 0.0;
    forall i | 0 <= i < |invests|
      ensures 0.0 <= spends[i] <= invests[i] <= gaps[i] * c
    {
      EntryBounds(assets, amount, ft, i);
    }
    SpendWithinInvest(spends, invests);
    InvestWithinAmount(invests, gaps, amount, c);
  }

  /** Pointwise `0 <= spend <= invest` lifts to the sums. */
  lemma SpendWithinInvest(spends: seq<real>, invests: seq<real>)
    requires |spends| == |invests|
    requires forall i :: 0 <= i < |spends| ==> 0.0 <= spends[i] <= invests[i]
    ensures 0.0 <= Sum(spends) <= Sum(invests)
  {
    SumNonNegative(spends);
    SumBoundedByScaled(spends, invests, 1.0);
  }

  /** Amounts bounded by their gap times `amount / total gap` (or by nothing when the total gap
      is zero) add up to at most the whole amount. */
  lemma InvestWithinAmount(invests: seq<real>, gaps: seq<real>, amount: real, c: real)
    requires |invests| == |gaps| && amount > 0.0
    requires c == if Sum(gaps) > 0.0 then amount / Sum(gaps) else 0.0
    requires forall i :: 0 <= i < |invests| ==> invests[i] <= gaps[i] * c
    ensures Sum(invests) <= amount
  {
    SumBoundedByScaled(invests, gaps, c);
    if Sum(gaps) > 0.0 {
      FactorCancels(Sum(gaps), amount);
    }
  }

  lemma FactorCancels(t: real, x: real)
    requires t != 0.0
    ensures t * (x / t) == x
  {
  }

  /** When no asset is below target, nothing is bought and the whole amount is left over. */
  lemma NothingBoughtWithoutGap(assets: seq<Asset>, cash: Cash, amount: real)
    requires RebalancePlan(assets, cash, amount).Ok?
    requires TotalGap(assets, FutureTotal(assets, cash, amount)) == 0.0
    ensures var out := RebalancePlan(assets, cash, amount).value;
            && out.totalSpent == 0.0
            && out.leftover == amount
            && out.liquidityAfter == cash.amount + amount
            && forall i :: 0 <= i < |out.plan| ==>
                 out.plan[i].investEur == 0.0 && out.plan[i].sharesToBuy == 0
  {
    var out := RebalancePlan(assets, cash, amount).value;
    var ft := FutureTotal(assets, cash, amount);
    var gaps := Gaps(assets, ft);
    GapsNonNegative(assets, ft);
    forall i | 0 <= i < |gaps|
      ensures gaps[i] == 0.0
    {
      SumZeroTerms(gaps, i);
    }
    forall i | 0 <= i < |out.plan|
      ensures out.plan[i].investEur == 0.0 && out.plan[i].sharesToBuy == 0
      ensures Spends(out.plan)[i] <= gaps[i] * 0.0
    {
      PlanEntryShape(assets, cash, amount, i);
    }
    SumNonNegative(Spends(out.plan));
    SumBoundedByScaled(Spends(out.plan), gaps, 0.0);
  }

  /** With non-negative holdings and cash, a positive amount always yields a plan. */
  lemma PositiveAmountPlans(assets: seq<Asset>, cash: Cash, amount: real)
    requires amount > 0.0 && cash.amount >= 0.0
    requires forall i :: 0 <= i < |assets| ==> assets[i].price >= 0.0 && assets[i].qty >= 0.0
    ensures RebalancePlan(assets, cash, amount).Ok?
  {
    var vs := Values(assets);
    forall i | 0 <= i < |vs|
      ensures vs[i] >= 0.0
    {
      assert vs[i] == assets[i].price * assets[i].qty;
    }
    SumNonNegative(vs);
  }

  /** The seed portfolio's world and gold funds with no cash and 1800 to invest: the world fund
      is already over its 70% target, so gold takes the whole amount, which buys 4 shares at
      409.09 and leaves 163.64. */
  lemma WorkedExample()
    ensures var world := Asset("world", "MSCI AC World", "", None, None, "etf", 211.0, 40.032, 44.665, 70.0);
            var gold := Asset("gold", "Gold ETC", "", None, None, "etc", 2.0, 272.03, 409.09, 10.0);
            var r := RebalancePlan([world, gold], Cash(0.0, 0.0), 1800.0);
            && r.Ok?
            && |r.value.plan| == 2
            && r.value.plan[0].sharesToBuy == 0 && r.value.plan[0].investEur == 0.0
            && r.value.plan[1].investEur == 1800.0 && r.value.plan[1].sharesToBuy == 4
            && r.value.totalSpent == 1636.36
            && r.value.leftover == 163.64
            && r.value.liquidityAfter == 163.64
  {
    var world := Asset("world", "MSCI AC World", "", None, None, "etf", 211.0, 40.032, 44.665, 70.0);
    var gold := Asset("gold", "Gold ETC", "", None, None, "etc", 2.0, 272.03, 409.09, 10.0);
    var assets := [world, gold];
    assert Values(assets) == [9424.315, 818.18];
    assert Sum(Values(assets)) == 10242.495 by {
      assert Values(assets)[..1] == [9424.315];
      assert [9424.315][..0] == [];
    }
    var ft := FutureTotal(assets, Cash(0.0, 0.0), 1800.0);
    assert ft == 12042.495;
    assert Gap(world, ft) == 0.0;
    assert Gap(gold, ft) == 386.0695;
    var gaps := Gaps(assets, ft);
    assert gaps == [0.0, 386.0695];
    assert TotalGap(assets, ft) == 386.0695 by {
      assert TotalGap(assets, ft) == Sum(gaps);
      assert gaps[..1] == [0.0];
      assert [0.0][..0] == [];
      assert Sum(gaps) == Sum([0.0]) + 386.0695;
    }
    var tg := TotalGap(assets, ft);
    assert 386.0695 / 386.0695 * 1800.0 == 1800.0;
    assert (1800.0 / 409.09).Floor == 4 by {
      assert 4.0 <= 1800.0 / 409.09 < 5.0;
    }
    var p0 := PlanItemFor(world, 0.0, tg, 1800.0, ft);
    var p1 := PlanItemFor(gold, 386.0695, tg, 1800.0, ft);
    assert p0.actualSpend == 0.0 && p0.sharesToBuy == 0;
    assert p1.investEur == 1800.0 && p1.sharesToBuy == 4 && p1.actualSpend == 1636.36;
    var plan := Plan(assets, 1800.0, ft);
    assert plan == [p0, p1];
    assert Spends(plan) == [0.0, 1636.36];
    assert Sum(Spends(plan)) == 1636.36 by {
      assert Spends(plan)[..1] == [0.0];
      assert [0.0][..0] == [];
    }
  }
}
