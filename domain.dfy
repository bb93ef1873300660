/** Entities of the portfolio store and the error kinds its operations report. */
module Domain {

  /** The categories a holding may carry. */
  const AssetTypes: set<string> := {"etf", "etc", "azione", "crypto", "obbligazione"}

  /** The reserved key of a target map that addresses the cash record. */
  const CashKey: string := "cash"

  datatype Option<T> = None | Some(value: T)

  /** A holding: an ETF, commodity, equity, crypto or bond position. */
  datatype Asset = Asset(
    id: string,
    name: string,
    ticker: string,
    yahooTicker: Option<string>,
    isin: Option<string>,
    kind: string,
    qty: real,
    pmc: real,      // average cost per unit
    price: real,
    targetPct: real)

  /** The single cash (liquidity) record. */
  datatype Cash = Cash(amount: real, targetPct: real)

  /** A named target-allocation template; `targets` maps asset ids and "cash" to percentages. */
  datatype Strategy = Strategy(
    name: string,
    description: string,
    targets: map<string, real>,
    isActive: bool)

  /** The error answers of the HTTP layer, one per distinct refusal. */
  datatype Error =
    | InvalidType(kind: string)        // 400: type outside AssetTypes
    | DuplicateAssetId(id: string)     // 400: an asset with this id exists
    | AssetNotFound(id: string)        // 404
    | LastAsset                        // 400: the last asset cannot be deleted
    | TargetSum(total: real)           // 400: targets do not sum to 100 (carries the total)
    | StrategyNotFound(sid: nat)       // 404
    | DuplicateStrategyName(name: string) // 400
    | ActiveStrategy(sid: nat)         // 400: the active strategy cannot be deleted
    | NonPositiveAmount(amount: real)  // 422: rebalance amount must be > 0
    | DivisionByZero                   // the projected total is zero

  datatype Result<T> = Ok(value: T) | Err(error: Error)

  datatype Outcome = Pass | Fail(error: Error)

  /** Sum of a sequence, accumulated from the front as Python's sum() does. */
  function Sum(s: seq<real>): real
  {
    if |s| == 0 then 0.0 else Sum(s[..|s| - 1]) + s[|s| - 1]
  }

  lemma SumAppend(s: seq<real>, x: real)
    ensures Sum(s + [x]) == Sum(s) + x
  {
    assert (s + [x])[..|s|] == s;
  }

  /** Pointwise `xs[i] <= ys[i] * c` lifts to the sums. */
  lemma {:induction false} SumBoundedByScaled(xs: seq<real>, ys: seq<real>, c: real)
    requires |xs| == |ys|
    requires forall i :: 0 <= i < |xs| ==> xs[i] <= ys[i] * c
    ensures Sum(xs) <= Sum(ys) * c
  {
    if |xs| > 0 {
      var n := |xs| - 1;
      SumBoundedByScaled(xs[..n], ys[..n], c);
      assert Sum(ys) * c == Sum(ys[..n]) * c + ys[n] * c;
    }
  }

  /** A sum of non-negative terms is non-negative. */
  lemma {:induction false} SumNonNegative(xs: seq<real>)
    requires forall i :: 0 <= i < |xs| ==> xs[i] >= 0.0
    ensures Sum(xs) >= 0.0
  {
    if |xs| > 0 {
      SumNonNegative(xs[..|xs| - 1]);
    }
  }

  /** A sum of non-negative terms that is zero has only zero terms. */
  lemma {:induction false} SumZeroTerms(xs: seq<real>, i: nat)
    requires forall j :: 0 <= j < |xs| ==> xs[j] >= 0.0
    requires Sum(xs) == 0.0 && i < |xs|
    ensures xs[i] == 0.0
  {
    var n := |xs| - 1;
    SumNonNegative(xs[..n]);
    if i < n {
      SumZeroTerms(xs[..n], i);
    }
  }

  predicate UniqueIds(assets: seq<Asset>)
  {
    forall i, j :: 0 <= i < j < |assets| ==> assets[i].id != assets[j].id
  }

  predicate HasId(assets: seq<Asset>, id: string)
  {
    exists i :: 0 <= i < |assets| && assets[i].id == id
  }

  function Ids(assets: seq<Asset>): set<string>
  {
    set i | 0 <= i < |assets| :: assets[i].id
  }

  /** The index of the first asset with the given id, if any (a lookup by primary key). */
  method FindAsset(assets: seq<Asset>, id: string) returns (idx: Option<nat>)
    ensures idx.Some? ==> idx.value < |assets| && assets[idx.value].id == id
    ensures idx.Some? ==> forall j :: 0 <= j < idx.value ==> assets[j].id != id
    ensures idx.None? <==> !HasId(assets, id)
  {
    var i := 0;
    while i < |assets|
      invariant 0 <= i <= |assets|
      invariant forall j :: 0 <= j < i ==> assets[j].id != id
    {
      if assets[i].id == id {
        return Some(i);
      }
      i := i + 1;
    }
    return None;
  }
}
