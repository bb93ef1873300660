# Portfolio tracker core, modelled in Dafny

The portfolio tracker keeps a list of holdings (ETFs, commodities, equities, crypto and bonds),
one cash record, a set of named target-allocation strategies (one of them active) and a history
of strategy activations. Its HTTP backend (`backend/main.py`) does four kinds of bookkeeping,
and each one is modelled here:

- **Valuation** (`valuation.dfy`, module `Valuation`). Each asset has a market value
  `price·qty` and an invested capital `pmc·qty`. Its gain, gain percentage, weight in the total
  and delta to its target follow from those. The portfolio and summary views add the totals,
  the cash weight and the weight/target maps keyed by asset id. Every division carries the
  source's zero-divisor guard.
- **Rebalance planner** (`rebalance.dfy`, module `Rebalance`). The planner projects the total
  as if the new amount were already invested. It gives every asset a non-negative gap to its
  target share of that total. It then splits the amount in proportion to the gaps and buys
  whole shares only, accumulating the spend, the leftover and the cash after the purchase.
  `GetRebalance` is the two loops of the endpoint. It is proved equal to the functional
  specification `RebalancePlan`, and the lemmas state what that plan promises.
- **Target maps** (`targets.dfy`, module `Targets`). A map from asset id or `"cash"` to a
  percentage must sum to 100 within 0.01. Applying it sets the cash target from the `"cash"`
  key and an asset's target from its id; any other key is ignored. `ApplyTargets` is the
  key-by-key loop. It is proved to give the same result whatever order the keys are visited in.
- **Store** (`store.dfy`, module `Store`). The class `Portfolio` holds the assets, the cash
  record, the strategies by id and the activation history. Its methods are the endpoints that
  change them: create/delete an asset, update the targets, and create/update/delete/activate a
  strategy. Every method keeps the invariant `Valid()`: asset ids are unique, at least one asset
  remains, at most one strategy is active, strategy names are unique, and strategy ids are below
  the next id to hand out. Each error answer leaves the state unchanged.

`domain.dfy` (module `Domain`) holds the shared entities, the error kinds and the
primary-key lookup `FindAsset`.

Money and percentages are exact `real` numbers, so every equation and bound below holds exactly.
The backend rounds its outputs to two decimals; the model does not (see "Left out").

## Model

| member | source | states |
|---|---|---|
| Domain.FindAsset | backend/main.py:283 | Finds the first asset with the id, or reports that none has it (a primary-key query) |
| Valuation.TotalValue | backend/main.py:232-235 | Total value = Σ price·qty + cash; with no asset it is the cash alone, and non-negative prices and quantities never bring it below the cash |
| Valuation.TotalInvested | backend/main.py:238-241 | Total invested = Σ pmc·qty + cash; with no asset it is the cash alone, and non-negative average costs and quantities never bring it below the cash |
| Valuation.HoldingsNonNegative | backend/main.py:234-241 | Holdings with non-negative factors have a non-negative market value and cost basis in total |
| Valuation.BuildAssetOut | backend/main.py:196-219 | The view copies id, name, ticker, Yahoo ticker, ISIN, quantity, average cost, price and target, with type defaulting to "etf"; value = price·qty; gain = value − invested; gain % is 0 when invested is 0; weight is 0 when the total is 0; delta = weight − target |
| Valuation.AssetOutRatios | backend/main.py:197-201 | The gain is gain% percent of the invested capital, and the value is weight% percent of the total, whenever the divisor is non-zero |
| Valuation.AssetViews | backend/main.py:260 | One view per asset, in asset order, with matching ids |
| Valuation.GetPortfolio | backend/main.py:248-270 | Entry i is BuildAssetOut of asset i against the total value; total value = Σ price·qty + cash; total invested = Σ pmc·qty + cash; total gain = total value − total invested; gain % is the gain's percentage of the invested total (0 when that is 0); the cash view carries the cash amount, its target and its percentage of the total (0 when the total is 0) |
| Valuation.WeightsSumToHundred | backend/main.py:251-257 | Whenever the total is non-zero, the exact asset weights plus the cash weight add up to 100 |
| Valuation.SharesSumToHundred | backend/main.py:201 | Percentages of the parts of a non-zero total add up to 100 |
| Valuation.GetSummary | backend/main.py:700-722 | The summary carries the same totals as the portfolio view (value, invested, gain, gain %) and the cash amount; the "cash" entry of the weights map is the cash's percentage of the total (0 when the total is 0), and that of the targets map is the cash target |
| Valuation.ByIdKeys | backend/main.py:709-711 | The weight and target maps keyed by id have exactly the asset ids as keys |
| Valuation.SummaryKeys | backend/main.py:709-712 | Both summary maps have exactly the asset ids plus "cash" as keys |
| Valuation.WeightsById | backend/main.py:709 | The weights map keyed by id has a key exactly when some asset has that id |
| Valuation.TargetsById | backend/main.py:711 | The targets map keyed by id has a key exactly when some asset has that id |
| Valuation.ByIdLookup | backend/main.py:709-711 | With unique ids, each asset's id maps to that asset's own weight and target |
| Valuation.SummaryMapsAgree | backend/main.py:709-712 | In the summary maps, an asset's id holds the same weight as its portfolio view, and its own target |
| Rebalance.Gap | backend/main.py:433-436 | A gap is never negative; it is the shortfall to the target share of the future total, or 0 |
| Rebalance.TotalGap | backend/main.py:438 | The total gap is never negative |
| Rebalance.GapsNonNegative | backend/main.py:432-438 | Every gap and the total gap are ≥ 0 |
| Rebalance.FutureTotal | backend/main.py:426-428 | The future total is the current total value plus the amount to invest |
| Rebalance.PlanItemFor | backend/main.py:443-484 | Each entry carries the asset's id, name and price, whole shares ≥ 0, spend = shares·price, and 0 ≤ spend ≤ invest; at a positive price it buys as many shares as invest affords (one more would cost more than invest); a zero target or zero gap means nothing invested or bought; a zero total gap means nothing invested; a non-positive price buys no shares |
| Rebalance.FloorBound | backend/main.py:467-468 | Flooring invest/price gives a non-negative count whose cost is between 0 and invest, while one share more would cost more than invest |
| Rebalance.ProportionalShare | backend/main.py:462-463 | An asset's gap/total·amount equals its gap times the common factor amount/total, and is ≥ 0 |
| Rebalance.PlanItemArithmetic | backend/main.py:443-484 | Each entry satisfies EntryShape: spend = shares·price ≤ invest < (shares + 1)·price at a positive price (the floored count), no shares at a non-positive price, a funded asset gets gap/total·amount, and weight-after·future total = (value + spend)·100 |
| Rebalance.PlanItemShare | backend/main.py:462-468 | No entry is given more than its gap times amount/total gap; nothing is given when the total gap is 0 |
| Rebalance.Plan | backend/main.py:440-484 | The plan has one entry per asset, in asset order, carrying that asset's id and price |
| Rebalance.RebalancePlan | backend/main.py:423-495 | A non-positive amount is refused; a zero future total with assets present fails on the division; otherwise a plan for the given amount is returned |
| Rebalance.GetRebalance | backend/main.py:423-495 | The endpoint's two loops return exactly RebalancePlan's answer, errors included |
| Rebalance.BuildPlan | backend/main.py:440-484 | The plan loop yields the entry of PlanItemFor for every asset, in order, and total spent = Σ spends |
| Rebalance.PlanEntry | backend/main.py:443-484 | Entry i of an accepted plan is PlanItemFor of asset i with its gap |
| Rebalance.PlanEntryShape | backend/main.py:443-484 | Entry i of an accepted plan satisfies EntryShape, so it buys the largest whole number of shares its proportional amount affords |
| Rebalance.PlanShape | backend/main.py:443-484 | Exactly one entry per asset, in asset order, each satisfying EntryShape (id, name, price, zero allocation without target or gap, proportional share otherwise, the largest whole number of shares that share affords, weight after) |
| Rebalance.GapWithinTotal | backend/main.py:438 | A single non-negative gap never exceeds the total gap |
| Rebalance.EntryBounds | backend/main.py:461-469 | Per entry: 0 ≤ spend ≤ invest ≤ gap·amount/total gap; invest ≤ 0 when the total gap is 0 |
| Rebalance.NoOverspend | backend/main.py:462-487 | Total spent = Σ of the entries' spends; 0 ≤ total spent ≤ Σ invest ≤ amount; leftover = amount − total spent ≥ 0; cash after = cash + leftover |
| Rebalance.PlanWithinAmount | backend/main.py:461-469 | Σ spend ≤ Σ invest ≤ amount over the whole plan |
| Rebalance.SpendWithinInvest | backend/main.py:468-469 | Per-entry 0 ≤ spend ≤ invest carries over to the sums |
| Rebalance.InvestWithinAmount | backend/main.py:462-463 | Amounts bounded by gap·amount/total gap add up to at most the amount |
| Rebalance.NothingBoughtWithoutGap | backend/main.py:443-487 | With a zero total gap nothing is bought: total spent 0, leftover = amount, cash after = cash + amount, every entry invests 0 and buys 0 shares |
| Rebalance.PositiveAmountPlans | backend/main.py:423-428 | With non-negative holdings and cash, a positive amount always gets a plan |
| Rebalance.WorkedExample | backend/main.py:49-78 | World (44.665 × 211, target 70) and gold (409.09 × 2, target 10), no cash, 1800 to invest: gold takes all 1800, buys 4 shares for 1636.36, and 163.64 is left over |
| Targets.MapSum | backend/main.py:391 | The sum of a map's values is 0 for the empty map and never negative when every value is non-negative |
| Targets.MapSumRemove | backend/main.py:391 | The sum of a map's values does not depend on which key is taken first |
| Targets.WithinTolerance | backend/main.py:392 | A total is accepted exactly when 99.99 ≤ total ≤ 100.01 |
| Targets.TargetTotal | backend/main.py:391 | The loop returns the sum of the map's values |
| Targets.RetargetAsset | backend/main.py:403-407 | Only the target changes; it becomes t[id] when the id is a key and not "cash", otherwise the asset is unchanged |
| Targets.RetargetCash | backend/main.py:400-402 | The "cash" key sets the cash target; the amount never changes |
| Targets.RetargetAssets | backend/main.py:399-407 | One RetargetAsset per asset, in order: each asset keeps every field except its target, which becomes t[id] when the id is a key other than "cash" |
| Targets.RetargetKeepsIds | backend/main.py:399-407 | Applying a map changes no id, so ids stay unique and the id set is the same |
| Targets.LiveTargetsSum | backend/main.py:391-407 | When the map names exactly the assets and "cash", the live targets afterwards add up to the map's total, so a validated map leaves live targets summing to 100 ± 0.01 |
| Targets.RetargetIgnoresOtherKey | backend/main.py:403-407 | A key naming no asset has no effect on the assets |
| Targets.RetargetNewKey | backend/main.py:403-407 | A key naming one asset retargets that asset only |
| Targets.RetargetUnknownKey | backend/main.py:400-407 | "cash", or a key naming no asset, leaves every asset as it was |
| Targets.ApplyTargets | backend/main.py:515-526 | The key-by-key loop ends with exactly RetargetAssets/RetargetCash of the map, whatever the key order |
| Targets.PurgeLowersTotal | backend/main.py:355-359 | Deleting a key lowers the map's total by exactly that key's value; the other keys and values are unchanged, with no renormalising |
| Store.Activated | backend/main.py:633-636 | After activation, exactly the chosen strategy is active; nothing else in any strategy changes |
| Store.Synced | backend/main.py:411-413 | The active strategy's map becomes the new map; the other strategies are untouched; the invariants are kept |
| Store.PurgedAll | backend/main.py:355-359 | Every strategy loses the key, keeping its keys, names and active flags |
| Store.PurgeStrategies | backend/main.py:355-359 | The loop over the strategies yields exactly PurgedAll |
| Store.ReplaceKeepsInvariants | backend/main.py:577-583 | An edit under a name no other strategy uses keeps names unique and at most one strategy active |
| Store.WithoutId | backend/main.py:361 | Removing an id leaves no asset with it and never lengthens the list |
| Store.WithoutIdAt | backend/main.py:361 | With unique ids, removing the id of asset k is the same as cutting index k out |
| Store.WithoutAbsent | backend/main.py:361 | Removing an id no asset has changes nothing |
| Store.RemovalKeepsUnique | backend/main.py:361 | After cutting one asset out, the ids stay unique and the id set loses exactly that id |
| Store.Portfolio.constructor | backend/main.py:125-134 | A fresh store holds the given assets with unique ids, a cash record of 0 with target 0, no strategies and an empty history |
| Store.Portfolio.CreateAsset | backend/main.py:277-303 | A type outside {etf, etc, azione, crypto, obbligazione} is refused first, then an id already in use; on success the asset is appended and its view against the new total is returned |
| Store.Portfolio.DeleteAsset | backend/main.py:344-363 | An unknown id is refused, then the last asset; on success the asset is removed, the count drops by one, and the id is purged from every strategy map |
| Store.Portfolio.UpdateTargets | backend/main.py:388-416 | A map outside 100 ± 0.01 is refused with its total and nothing changes; otherwise it is applied to the assets and cash, and becomes the active strategy's map |
| Store.Portfolio.CreateStrategy | backend/main.py:542-564 | A map outside the tolerance is refused with its total first, then a used name, each time with no change; otherwise the next id gets an inactive strategy and the counter advances |
| Store.Portfolio.UpdateStrategy | backend/main.py:570-601 | An unknown id is refused, then a name used by another strategy, then a map outside the tolerance (with its total), each time with no change; otherwise the given fields are replaced, and the map is applied to the live records when the strategy is active |
| Store.Portfolio.DeleteStrategy | backend/main.py:607-617 | An unknown id is refused, then the active strategy; otherwise the strategy is removed |
| Store.Portfolio.ActivateStrategy | backend/main.py:623-648 | An unknown id is refused with no change; otherwise the strategy becomes the only active one, its map is applied, and exactly one history entry with its name is appended |

## Left out

- Rounding: every `round(…, 2)` is left out, so the model computes exact values. In the backend, rounding each spend can add up to 0.005 per entry. So "total spent ≤ amount" is exact here, and only approximately true for the backend's rounded figures.
- Floating point: money and percentages are exact reals. The tolerance test `|total − 100| > 0.01` is modelled exactly; binary floats can move a total that lies on the boundary to either side. The accepted band is 99.99 to 100.01: totals such as 99.9 or 100.02 are refused.
- Python's ZeroDivisionError: when the projected total is zero and there is an asset, the planner's weight-after division raises in the backend. The model reports it as the error `DivisionByZero` before building the plan.
- The database session, commits, migrations and start-up seeding: the store is in memory. An error answer leaves the state as it was, as the rollback of an uncommitted session does. Two of the seeded assets appear in `Rebalance.WorkedExample`.
- HTTP routing, status codes and response models: errors are values of `Domain.Error`. Strategy ids come from a counter that is never reused, standing in for the autoincrement key.
- Timestamps (`updated_at`, `activated_at`): the history records only the strategy name.
- JSON encoding of strategy maps: maps are `map<string, real>`.
- The activation history keeps every entry in order; the 50-entry, newest-first listing is a read-only query and is not modelled.
- Endpoints outside the core: `update_asset`, `update_cash`, `list_strategies`, snapshots, the rebalance log, price updates, ticker search and the scheduler.
- Order of the assets: the list is kept in insertion order. The database does not promise an order for its unordered queries.
- Several active strategies: the backend would update only the first one it finds. The invariant `Valid()` rules that state out, so the model updates the single active strategy.
