/** Per-asset and portfolio-wide valuation (GET /api/portfolio and GET /api/summary). */
module Valuation {
  import opened Domain

  /** The per-asset view returned to the front end. */
  datatype AssetOut = AssetOut(
    id: string,
    name: string,
    ticker: string,
    yahooTicker: Option<string>,
    isin: Option<string>,
    kind: string,
    qty: real,
    pmc: real,
    price: real,
    targetPct: real,
    value: real,
    gainEur: real,
    gainPct: real,
    weightPct: real,
    deltaPct: real)

  datatype CashOut = CashOut(amount: real, targetPct: real, weightPct: real)

  datatype PortfolioOut = PortfolioOut(
    etfs: seq<AssetOut>,
    liquidity: CashOut,
    totalValue: real,
    totalInvested: real,
    totalGainEur: real,
    totalGainPct: real)

  datatype SummaryOut = SummaryOut(
    totalValue: real,
    totalInvested: real,
    totalGainEur: real,
    totalGainPct: real,
    liquidity: real,
    weights: map<string, real>,
    targets: map<string, real>)

  function Value(a: Asset): real { a.price * a.qty }

  function Invested(a: Asset): real { a.pmc * a.qty }

  /** `x / d * 100`, or 0 when the divisor is 0 (Python's `if d else 0` guard). */
  function Percent(x: real, d: real): real
  {
    if d != 0.0 then x / d * 100.0 else 0.0
  }

  function Values(assets: seq<Asset>): (vs: seq<real>)
    ensures |vs| == |assets|
  {
    seq(|assets|, i requires 0 <= i < |assets| => Value(assets[i]))
  }

  function InvestedValues(assets: seq<Asset>): (vs: seq<real>)
    ensures |vs| == |assets|
  {
    seq(|assets|, i requires 0 <= i < |assets| => Invested(assets[i]))
  }

  /** Total portfolio value: the assets' market values plus cash. With no asset it is the cash
      alone, and holdings with non-negative prices and quantities never bring it below the cash. */
  function TotalValue(assets: seq<Asset>, cash: Cash): (v: real)
    ensures |assets| == 0 ==> v == cash.amount
    ensures (forall i :: 0 <= i < |assets| ==> assets[i].price >= 0.0 && assets[i].qty >= 0.0) ==>
              v >= cash.amount
  {
    HoldingsNonNegative(assets);
    Sum(Values(assets)) + cash.amount
  }

  /** Total invested capital: the assets' cost bases plus cash. With no asset it is the cash
      alone, and non-negative average costs and quantities never bring it below the cash. */
  function TotalInvested(assets: seq<Asset>, cash: Cash): (v: real)
    ensures |assets| == 0 ==> v == cash.amount
    ensures (forall i :: 0 <= i < |assets| ==> assets[i].pmc >= 0.0 && assets[i].qty >= 0.0) ==>
              v >= cash.amount
  {
    HoldingsNonNegative(assets);
    Sum(InvestedValues(assets)) + cash.amount
  }

  /** Holdings with non-negative factors have non-negative market values and cost bases. */
  lemma HoldingsNonNegative(assets: seq<Asset>)
    ensures (forall i :: 0 <= i < |assets| ==> assets[i].price >= 0.0 && assets[i].qty >= 0.0) ==>
              Sum(Values(assets)) >= 0.0
    ensures (forall i :: 0 <= i < |assets| ==> assets[i].pmc >= 0.0 && assets[i].qty >= 0.0) ==>
              Sum(InvestedValues(assets)) >= 0.0
  {
    var vs, ivs := Values(assets), InvestedValues(assets);
    if forall i :: 0 <= i < |assets| ==> assets[i].price >= 0.0 && assets[i].qty >= 0.0 {
      forall i | 0 <= i < |vs|
        ensures vs[i] >= 0.0
      {
        assert vs[i] == assets[i].price * assets[i].qty;
      }
      SumNonNegative(vs);
    }
    if forall i :: 0 <= i < |assets| ==> assets[i].pmc >= 0.0 && assets[i].qty >= 0.0 {
      forall i | 0 <= i < |ivs|
        ensures ivs[i] >= 0.0
      {
        assert ivs[i] == assets[i].pmc * assets[i].qty;
      }
      SumNonNegative(ivs);
    }
  }

  /** The view of one asset against the portfolio total. */
  function BuildAssetOut(a: Asset, totalValue: real): (o: AssetOut)
    ensures o.id == a.id && o.name == a.name && o.ticker == a.ticker
    ensures o.yahooTicker == a.yahooTicker && o.isin == a.isin
    ensures o.qty == a.qty && o.pmc == a.pmc && o.price == a.price && o.targetPct == a.targetPct
    ensures o.kind == (if a.kind == "" then "etf" else a.kind)
    ensures o.value == Value(a) && o.gainEur == o.value - Invested(a)
    ensures Invested(a) == 0.0 ==> o.gainPct == 0.0
    ensures totalValue == 0.0 ==> o.weightPct == 0.0
    ensures o.deltaPct == o.weightPct - a.targetPct
  {
    var value := Value(a);
    var invested := Invested(a);
    var gainEur := value - invested;
    var weightPct := Percent(value, totalValue);
    AssetOut(a.id, a.name, a.ticker, a.yahooTicker, a.isin,
             if a.kind == "" then "etf" else a.kind,
             a.qty, a.pmc, a.price, a.targetPct,
             value, gainEur, Percent(gainEur, invested), weightPct, weightPct - a.targetPct)
  }

  /** The percentages of an asset view mean what they say: the gain is `gainPct` percent of the
      invested capital and the value is `weightPct` percent of the total. */
  lemma AssetOutRatios(a: Asset, totalValue: real)
    ensures var o := BuildAssetOut(a, totalValue);
            && (Invested(a) != 0.0 ==> o.gainPct * Invested(a) == o.gainEur * 100.0)
            && (totalValue != 0.0 ==> o.weightPct * totalValue == Value(a) * 100.0)
  {
    var o := BuildAssetOut(a, totalValue);
    if Invested(a) != 0.0 {
      PercentAsFactor(o.gainEur, Invested(a));
    }
    if totalValue != 0.0 {
      PercentAsFactor(Value(a), totalValue);
    }
  }

  /** One view per asset, in order, each against the same total. */
  function AssetViews(assets: seq<Asset>, totalValue: real): (views: seq<AssetOut>)
    ensures |views| == |assets|
    ensures forall i :: 0 <= i < |assets| ==> views[i].id == assets[i].id
  {
    seq(|assets|, i requires 0 <= i < |assets| => BuildAssetOut(assets[i], totalValue))
  }

  /** The portfolio view: one AssetOut per asset, the cash view and the totals. */
  function GetPortfolio(assets: seq<Asset>, cash: Cash): (p: PortfolioOut)
    ensures |p.etfs| == |assets|
    ensures forall i :: 0 <= i < |assets| ==> p.etfs[i] == BuildAssetOut(assets[i], p.totalValue)
    ensures p.totalValue == TotalValue(assets, cash) && p.totalInvested == TotalInvested(assets, cash)
    ensures p.totalGainEur == p.totalValue - p.totalInvested
    ensures p.totalGainPct == Percent(p.totalGainEur, p.totalInvested)
    ensures p.liquidity.amount == cash.amount && p.liquidity.targetPct == cash.targetPct
    ensures p.liquidity.weightPct == Percent(cash.amount, p.totalValue)
  {
    var totalVal := TotalValue(assets, cash);
    var totalInv := TotalInvested(assets, cash);
    var gain := totalVal - totalInv;
    PortfolioOut(
      AssetViews(assets, totalVal),
      CashOut(cash.amount, cash.targetPct, Percent(cash.amount, totalVal)),
      totalVal, totalInv, gain, Percent(gain, totalInv))
  }

  function AssetWeights(etfs: seq<AssetOut>): (ws: seq<real>)
    ensures |ws| == |etfs|
  {
    seq(|etfs|, i requires 0 <= i < |etfs| => etfs[i].weightPct)
  }

  /** A percentage of `t` is a multiple of the single factor `100 / t`. */
  lemma PercentAsFactor(x: real, t: real)
    requires t != 0.0
    ensures Percent(x, t) == x * (100.0 / t)
  {
    calc {
      Percent(x, t);
      x / t * 100.0;
      { assert x / t == x * (1.0 / t); }
      x * (1.0 / t) * 100.0;
      x * (100.0 / t);
    }
  }

  /** Pointwise `xs[i] == ys[i] * c` lifts to the sums. */
  lemma {:induction false} SumScaled(xs: seq<real>, ys: seq<real>, c: real)
    requires |xs| == |ys|
    requires forall i :: 0 <= i < |xs| ==> xs[i] == ys[i] * c
    ensures Sum(xs) == Sum(ys) * c
  {
    if |xs| > 0 {
      var n := |xs| - 1;
      SumScaled(xs[..n], ys[..n], c);
      assert Sum(ys) * c == Sum(ys[..n]) * c + ys[n] * c;
    }
  }

  /** Exact weights of the assets and of the cash add up to 100 whenever the total is non-zero. */
  lemma WeightsSumToHundred(assets: seq<Asset>, cash: Cash)
    requires TotalValue(assets, cash) != 0.0
    ensures var p := GetPortfolio(assets, cash);
            Sum(AssetWeights(p.etfs)) + p.liquidity.weightPct == 100.0
  {
    var t := TotalValue(assets, cash);
    var p := GetPortfolio(assets, cash);
    var ws, vs := AssetWeights(p.etfs), Values(assets);
    assert forall i :: 0 <= i < |ws| ==> ws[i] == Percent(vs[i], t);
    SharesSumToHundred(ws, vs, p.liquidity.weightPct, cash.amount, t);
  }

  /** Percentages of the parts of a non-zero total add up to 100. */
  lemma SharesSumToHundred(ws: seq<real>, vs: seq<real>, wc: real, c: real, t: real)
    requires |ws| == |vs| && t == Sum(vs) + c && t != 0.0
    requires forall i :: 0 <= i < |ws| ==> ws[i] == Percent(vs[i], t)
    requires wc == Percent(c, t)
    ensures Sum(ws) + wc == 100.0
  {
    forall i | 0 <= i < |ws|
      ensures ws[i] == vs[i] * (100.0 / t)
    {
      PercentAsFactor(vs[i], t);
    }
    SumScaled(ws, vs, 100.0 / t);
    PercentAsFactor(c, t);
    ShareOfTotal(Sum(ws), Sum(vs), wc, c, t);
  }

  /** Shares `a * 100/t` and `c * 100/t` of a total `t == a + c` add up to 100. */
  lemma ShareOfTotal(wa: real, a: real, wc: real, c: real, t: real)
    requires t == a + c && t != 0.0
    requires wa == a * (100.0 / t) && wc == c * (100.0 / t)
    ensures wa + wc == 100.0
  {
    assert wa + wc == (a + c) * (100.0 / t);
  }

  /** Weights keyed by asset id, later ids overwriting earlier ones as a dict comprehension does. */
  function WeightsById(assets: seq<Asset>, totalValue: real): (w: map<string, real>)
    ensures forall x :: x in w <==> HasId(assets, x)
  {
    if |assets| == 0 then map[]
    else
      var a := assets[|assets| - 1];
      WeightsById(assets[..|assets| - 1], totalValue)[a.id := Percent(Value(a), totalValue)]
  }

  /** Targets keyed by asset id, later ids overwriting earlier ones. */
  function TargetsById(assets: seq<Asset>): (m: map<string, real>)
    ensures forall x :: x in m <==> HasId(assets, x)
  {
    if |assets| == 0 then map[]
    else
      var a := assets[|assets| - 1];
      TargetsById(assets[..|assets| - 1])[a.id := a.targetPct]
  }

  /** The summary view: totals plus weight and target per asset id and for "cash". */
  function GetSummary(assets: seq<Asset>, cash: Cash): (s: SummaryOut)
    ensures s.totalValue == TotalValue(assets, cash) && s.totalInvested == TotalInvested(assets, cash)
    ensures s.totalGainEur == s.totalValue - s.totalInvested
    ensures s.totalGainPct == Percent(s.totalGainEur, s.totalInvested)
    ensures s.liquidity == cash.amount
    ensures CashKey in s.weights && CashKey in s.targets
    ensures s.weights[CashKey] == Percent(cash.amount, s.totalValue)
    ensures s.targets[CashKey] == cash.targetPct
  {
    var totalVal := TotalValue(assets, cash);
    var totalInv := TotalInvested(assets, cash);
    var gain := totalVal - totalInv;
    SummaryOut(totalVal, totalInv, gain, Percent(gain, totalInv), cash.amount,
               WeightsById(assets, totalVal)[CashKey := Percent(cash.amount, totalVal)],
               TargetsById(assets)[CashKey := cash.targetPct])
  }

  /** The maps keyed by id have exactly the asset ids as keys. */
  lemma {:induction false} ByIdKeys(assets: seq<Asset>, t: real)
    ensures WeightsById(assets, t).Keys == Ids(assets)
    ensures TargetsById(assets).Keys == Ids(assets)
  {
    if |assets| > 0 {
      var n := |assets| - 1;
      var pre := assets[..n];
      ByIdKeys(pre, t);
      forall x | x in Ids(assets) ensures x in Ids(pre) + {assets[n].id} {
        var i :| 0 <= i < |assets| && assets[i].id == x;
        if i < n { assert pre[i].id == x; }
      }
      forall x | x in Ids(pre) ensures x in Ids(assets) {
        var i :| 0 <= i < |pre| && pre[i].id == x;
        assert assets[i].id == x;
      }
    }
  }

  /** The summary's weight and target maps both have exactly the asset ids plus "cash" as keys. */
  lemma SummaryKeys(assets: seq<Asset>, cash: Cash)
    ensures var s := GetSummary(assets, cash);
            s.weights.Keys == s.targets.Keys == Ids(assets) + {CashKey}
  {
    ByIdKeys(assets, TotalValue(assets, cash));
  }

  /** With unique ids, each id's entry is that asset's own weight and target. */
  lemma {:induction false} ByIdLookup(assets: seq<Asset>, t: real, i: nat)
    requires UniqueIds(assets) && i < |assets|
    ensures assets[i].id in WeightsById(assets, t) && assets[i].id in TargetsById(assets)
    ensures WeightsById(assets, t)[assets[i].id] == Percent(Value(assets[i]), t)
    ensures TargetsById(assets)[assets[i].id] == assets[i].targetPct
  {
    var n := |assets| - 1;
    if i < n {
      ByIdLookup(assets[..n], t, i);
    }
  }

  /** For an asset not named "cash", the summary's maps hold that asset's weight and target. */
  lemma SummaryMapsAgree(assets: seq<Asset>, cash: Cash, i: nat)
    requires UniqueIds(assets) && i < |assets| && assets[i].id != CashKey
    ensures var s := GetSummary(assets, cash);
            && assets[i].id in s.weights && assets[i].id in s.targets
            && s.weights[assets[i].id] == BuildAssetOut(assets[i], s.totalValue).weightPct
            && s.targets[assets[i].id] == assets[i].targetPct
  {
    ByIdLookup(assets, TotalValue(assets, cash), i);
    assert BuildAssetOut(assets[i], TotalValue(assets, cash)).weightPct
        == Percent(Value(assets[i]), TotalValue(assets, cash));
  }
}
