# Token economy ledgers, modelled in Dafny

This project models the integer token bookkeeping of a token-economy simulator:

- the **farm ledger** (`Farm`): one balance per token type and day, with column d+1 carried forward from column d;
- the **investor holdings ledger** (`Investor`): one row per (token type, purchase day). Each row holds an amount, a staking-pool flag, a dividend-farm flag and the day its last freeze started;
- the **transfer rule**, which moves an investor's unfrozen rows into one farm and reports per-type totals to both farm ledgers;
- the helpers that feed these ledgers: building the investor cohorts, selling a cohort's allotment share by share, the monthly mint lookup, the 30-day month arithmetic and the integer correction loop that repairs the rounding of a random split.

Modules, one per source file, plus a shared one:

| module | file | source | style |
|---|---|---|---|
| `Common` | Common.dfy | (shared) | `Option`, `Sum` and the sum lemmas |
| `Calendar` | Calendar.dfy | utilities/py_tools.py | pure function and lemmas |
| `Allocation` | Allocation.dfy | utilities/py_tools.py | methods that nudge an array in place, specified by functions |
| `Farms` | Farms.dfy | models/farms.py | class `Farm` over an `array2<int>`, with a value view `Table()` and lemmas about it |
| `Investors` | Investors.dfy | models/investors.py | class `Investor` over an `array<Holding>`, with spec functions over `seq<Holding>` |
| `ModellingTools` | ModellingTools.dfy | utilities/modelling_tools.py | methods over cohorts of `Investor` objects, and a pure mint lookup |

Conventions:

- Farm balances are indexed by row r, whose token type is `types[r]`, and by column c, which holds day c + 1. Days run 1 .. numDays + 4.
- The configured token types are a parameter (`types`, `tokenTypes`), because the configuration reader returns nothing. Several rows may carry the same type; an add then reaches every such row, as the table filter in the source does.
- Random draws are inputs: the Dirichlet-and-round vector and the random positions of a split (`SplitDraw`), each investor's risk and activity coefficients (`draw`).
- Two interfaces are assumed because the source does not define them:
  - `Farm.remove_tokens`, called by the transfer, is taken to be `add_tokens` of the negated amounts (`Farms.Farm.RemoveTokens`).
  - `sell_tokens` calls `investor.add_tokens(day=..., num_tokens=...)`, which does not match the method's signature. The model grants `{group: share}` on `day`, the evident intent.
- Where a comment or a call in the source promises more than the code does, the model follows the code:
  - The comment at utilities/py_tools.py:148 says the +1/−1 pass reaches the needed sum. The code does not when the rounded draw overshoots (see Findings).
  - modeling/run_modeling.py calls `add_dividends` and `update(..., clear_dividends=True)` on farms. models/farms.py defines neither dividends, nor a reserve currency, nor an exchange rate.
  - models/investors.py:64 picks the queried flag by testing for 'DivFarm', while models/investors.py:78 picks the transfer flag by testing for 'SbPool'. The two choices differ for a farm whose kind is neither (see `FlagChoicesDiffer`).

## Model

| member | source | states |
|---|---|---|
| Calendar.MonthByDay | utilities/py_tools.py:160-168 | day 0 is month 0; every day d >= 1 lies in month m with 30m+1 <= d <= 30m+30; days >= 0 have months >= 0 |
| Calendar.MonthOfDay | utilities/py_tools.py:165-168 | for d >= 1: d is in month m exactly when 30m+1 <= d <= 30m+30 |
| Calendar.MonthBoundaries | utilities/py_tools.py:165-168 | 0 and 1 and 30 map to 0; 31 and 60 map to 1; 61 maps to 2 |
| Calendar.MonthMonotone | utilities/py_tools.py:160-168 | the month of a day never decreases as the day grows (negative days included) |
| Allocation.GetDistributionBySum | utilities/py_tools.py:139-157 | the in-place correction loop returns `size` entries equal to the as-written split: +1 at each drawn position when the rounded total is at most `sum`, else the rounded vector unchanged; the decrement branch is proved unreachable |
| Allocation.AsWrittenExactWhenUnder | utilities/py_tools.py:149-154 | when the rounded total is <= sum, the result has exactly `sum` in it and no entry falls below its rounded value, so non-negative draws stay non-negative |
| Allocation.AsWrittenOvershoot | utilities/py_tools.py:152-156 | when the rounded total is > sum, the vector is returned unchanged and its total exceeds `sum` |
| Allocation.OvershootExample | utilities/py_tools.py:142-156 | 2 tokens over 3 shares drawn as (0.3, 0.3, 0.4) round to [1, 1, 1]; with one drawn position the split comes back as [1, 1, 1], totalling 3 |
| Allocation.NudgedSum | utilities/py_tools.py:149-154 | each of the \|sum - total\| iterations moves the total by one step, so the total changes by step times the number of positions |
| Allocation.NudgedUpGrows | utilities/py_tools.py:152-154 | upward nudges never lower an entry |
| Allocation.GetDistributionBySumCorrected | utilities/py_tools.py:148-157 | the loop with the overshoot branch decrementing returns `size` entries equal to the corrected split |
| Allocation.CorrectedExact | utilities/py_tools.py:148-157 | the corrected split always has exactly `sum` in it and `size` entries |
| Allocation.CorrectedNegativeExample | utilities/py_tools.py:142-157 | the corrected split can go below zero: 2 tokens over 4 shares drawn as (0.3, 0.3, 0.399, 0.001) round to [1, 1, 1, 0], and a decrement at position 3 gives [1, 1, 1, -1] |
| Farms.Trunc | models/farms.py:43 | int() truncates toward zero: the result is the floor for non-negative amounts and the ceiling for negative ones |
| Farms.TruncNegate | models/investors.py:116 | truncating a negated amount negates the truncation, so removing x adds -int(x) |
| Farms.TruncWhole | models/farms.py:43 | int() leaves whole amounts unchanged |
| Farms.Farm.constructor | models/farms.py:10-23 | a new farm has one row per token type, numDays + 4 day columns, and every balance 0 |
| Farms.ZeroTableEmpty | models/farms.py:13-23 | a new farm's table holds 0 in every cell, so every day's total is 0 |
| Farms.Farm.TokensAmount | models/farms.py:25-33 | get_tokens_amount(day) is the sum over all rows of that day's balance |
| Farms.Farm.ColumnSum | models/farms.py:32 | the recursive sum over the table's rows equals the sum of the day's column view |
| Farms.Farm.AddTokens | models/farms.py:35-45 | the table becomes the added table, and the day's total grows by the sum of the row gains |
| Farms.AddedCells | models/farms.py:42-45 | add_tokens adds int(amount) to every `day` cell whose type is a key; every other cell keeps its balance |
| Farms.AddedNothing | models/farms.py:43-45 | amounts that truncate to 0 and keys that name no row leave the table unchanged |
| Farms.AddedTotals | models/farms.py:25-45 | after add_tokens(P, day), the total of `day` grows by the sum of int(P[type]) over all rows; other days keep their totals |
| Farms.Farm.RemoveTokens | models/investors.py:116 | (assumed interface) remove_tokens is the add of negated amounts; each `day` cell drops by int of its type's amount |
| Farms.RemoveUndoesAdd | models/investors.py:116 | removing the same amounts after adding them restores the table |
| Farms.Farm.Update | models/farms.py:47-52 | the table becomes the carried table, and the totals of day and day + 1 are equal afterwards |
| Farms.CarriedCells | models/farms.py:47-52 | update(day) gives every row on day + 1 its balance of `day` and touches no other cell |
| Farms.CarriedIdempotent | models/farms.py:47-52 | updating the same day twice is the same as updating it once |
| Farms.CarriedTotals | models/farms.py:47-52 | after update(day) the totals of day and day + 1 agree; other days keep their totals |
| Investors.FlagChoicesAgree | models/investors.py:64-79 | for kinds 'SbPool' and 'DivFarm', the query and the transfer use the same flag, DivFarm_flag exactly for 'DivFarm' |
| Investors.FlagChoicesDiffer | models/investors.py:64-79 | for any other kind name, the query reads SbPool_flag while the transfer sets DivFarm_flag |
| Investors.InitialHoldings | models/investors.py:28-41 | a new table has 2 × ((months+1)·30 − 1) rows, each with amount 0, both flags false and freeze day −10^7 |
| Investors.InitialRowKeys | models/investors.py:30-35 | a new table has a row (t, d) exactly when t is the group or 'Staking rewards' and 1 <= d <= (months+1)·30 − 1 |
| Investors.Investor.constructor | models/investors.py:15-41 | the investor records its group, coefficients and token types, and holds the initial table in a fresh array |
| Investors.Investor.Create | models/investors.py:15-41 | construction fails (None) exactly when the group is not a configured token type; otherwise it yields a fresh investor of that group, with the given coefficients, the configured token types and the initial table |
| Investors.Investor.AddTokens | models/investors.py:43-54 | the rows become the granted rows: each row bought on `day` whose type is a key gains that amount |
| Investors.GrantedRows | models/investors.py:43-54 | a grant changes only the amount of rows keyed (t, day) with t given, by the amount given; flags, freeze days and keys stay |
| Investors.GrantedNothing | models/investors.py:43-54 | zero amounts, types with no row, or a day with no row leave the table unchanged |
| Investors.Deposited | models/investors.py:56-66 | the sum over rows flagged for the farm and bought by `day`; non-negative when all amounts are, 0 when no row qualifies (so 0 for a new investor, whose rows carry no flag) |
| Investors.Investor.TokensAmount | models/investors.py:56-66 | get_tokens_amount counts DivFarm-flagged rows for a 'DivFarm' farm and SbPool-flagged rows for any other kind |
| Investors.TransferredRows | models/investors.py:82-101 | exactly the active rows change: they are unfrozen (freeze day <= day − period), not in the target, bought by `day` and non-empty. Each gets the target flag, loses the other flag and freezes on `day`; amounts, types and purchase days never change |
| Investors.TransferKeepsFlagsExclusive | models/investors.py:93-94 | if no row has both flags before a transfer, none has both after it |
| Investors.MovedRowFrozen | models/investors.py:82-83 | a row moved on D is selected by no transfer into either farm on a day before D + period, and never again into the farm it now sits in |
| Investors.MovedRowThawsAt | models/investors.py:82-95 | a row moved on D can move back to the other farm on D' exactly when D' >= D + period |
| Investors.TransferIdempotent | models/investors.py:82-101 | a second transfer into the same farm on the same day moves nothing |
| Investors.AggregateActive | models/investors.py:103-110 | for every configured type, the per-type sum of the moved rows and the per-type sum of the moved rows that sat in the other farm |
| Investors.AsAmountsGain | models/investors.py:113 | the integer totals handed to a farm reach each row of that type unchanged by int() |
| Investors.DepositedIntoTarget | models/investors.py:56-101 | after a transfer into farm f, the investor's amount in f grows by the amounts of all moved rows |
| Investors.WithdrawnFromOpposite | models/investors.py:56-101 | after a transfer into farm f, the investor's amount in the other farm shrinks by the moved rows that sat there |
| Investors.DepositedAfterTransfer | models/investors.py:56-101 | both of the above for one transfer: the gain in the target farm and the loss in the other one |
| Investors.ActiveSumOverTypes | models/investors.py:104-108 | over distinct types covering every row's type, the per-type totals of the moved rows add up to the whole moved amount |
| Investors.ActiveOppositeSumOverTypes | models/investors.py:104-110 | likewise for the per-type totals of the moved rows that sat in the other farm |
| Investors.TargetGainByTypes | models/investors.py:104-113 | for a farm whose rows are the investor's distinct types, the row gains of add_tokens(per-type totals) add up to the whole moved amount |
| Investors.OppositeLossByTypes | models/investors.py:104-116 | for a farm whose rows are the investor's distinct types, remove_tokens(per-type totals) takes from its rows, in total, exactly the moved amount that sat there |
| Investors.TransferBalances | models/investors.py:68-116 | a transfer books what it moves: on the transfer day the target farm's total changes by exactly the change of the investor's amount in it, and so does the other farm's, when both farms' rows are the investor's distinct types |
| Investors.Investor.TransferActiveTokens | models/investors.py:68-116 | the rows become the transferred rows. The target farm adds the per-type totals of all moved rows; the other farm removes the per-type totals of the moved rows that were flagged for it |
| ModellingTools.CreateCohort | utilities/modelling_tools.py:20-24 | `count` new investors of one group, the i-th with the coefficients draw(group, i) and the configured types, each with its own fresh initial table; fails exactly when count > 0 and the group is not a token type |
| ModellingTools.CreateInvestors | utilities/modelling_tools.py:8-26 | fails exactly when some non-empty cohort is not a token type. Otherwise the result has exactly the cohort keys; cohort g holds params[g] new investors of group g, the i-th with the coefficients draw(g, i) and the configured token types, with separate initial tables |
| ModellingTools.Shares | utilities/modelling_tools.py:41-51 | a cohort's shares, taken from the corrected split, are one per investor and sum to its allotment |
| ModellingTools.EmptyCohortSale | utilities/modelling_tools.py:41-51 | an empty cohort with an allotment of 0 meets the sale's requirement and gets no shares |
| ModellingTools.GrantShares | utilities/modelling_tools.py:48-51 | the i-th investor of the cohort is granted the i-th share on `day`, as tokens of the cohort's type |
| ModellingTools.SellTokens | utilities/modelling_tools.py:29-51 | the i-th investor of every sold cohort g is granted the i-th share on `day`, as tokens of type g. Investors of 'Staking rewards', 'Community' and unnamed cohorts gain nothing |
| ModellingTools.MintDistributionByDay | utilities/modelling_tools.py:54-84 | no value unless (day−1) % 30 == 0; any released distribution has exactly the table's token types as keys |
| ModellingTools.MintAfterTable | utilities/modelling_tools.py:63-71 | on a month start after the table's last month, every token type is released in amount 0 |
| ModellingTools.MintOfMonth | utilities/modelling_tools.py:73-84 | on the first day of a month that has a column, each token type gets that column's entry from its last row |
| ModellingTools.FilledLastRowWins | utilities/modelling_tools.py:79-82 | filling the dictionary row by row leaves each type with the value of its last row |

## Left out

- Farm dividends, reserve currency, exchange rates, the minting floor, investor rebalancing and dividend payouts. modeling/run_modeling.py calls routines for them (`add_dividends`, `pay_dividends`, `transfer_investors`), but no file of the repository shown here defines them (models/farms.py does not, nor does utilities/modelling_tools.py, from which run_modeling.py imports the last two), so they are not part of this model.
- Farms.Farm.RemoveTokens: `Farm` defines no remove_tokens. The model assumes it is add_tokens of the negated amounts.
- Farms.Farm.Update: requires day + 1 to be a column of the table. On the last day, pandas would append a new column past the horizon, which the fixed-size table does not model.
- Farms.Farm.AddTokens: requires `day` to be a column. The source touches column `day` only for an amount whose int() is not 0, so it fails on a missing day only then; amounts that all truncate to 0 are a no-op on any day, which the model does not cover for days outside the table.
- Farms.Farm.TokensAmount: requires `day` to be a column. The source raises KeyError on a missing day (models/farms.py:32); the model does not give that failure a value.
- Investors.Investor.TransferActiveTokens: requires the two farms to have distinct tables; passing one farm as both target and opposite is not modelled. It also requires `day` to be a column of both farms, although a transfer that moves nothing (or moves nothing that sat in the other farm) touches no column of that farm in the source.
- Investors.Investor.AddTokens: amounts are integers. The fractional 'Staking rewards' payouts are granted by code outside this model.
- Investors.Investor.constructor: the `Initial_price` column is never filled, so it is not modelled. `random()` and the normal risk draw are parameters.
- ModellingTools.SellTokens: grants the corrected split (see Findings), not the as-written one. It requires every sold cohort to exist, because the source raises KeyError on a missing one. An empty cohort is accepted: its split draw has no entries, so only an allotment of 0 fits, and nobody is granted anything. The grant uses the evident `{group: share}` form, because the actual call does not match add_tokens' signature.
- ModellingTools.Shares: the shares are the corrected split, so they always sum to the allotment. The source's split overshoots when the rounded draw does (Allocation.AsWrittenOvershoot), and the corrected one can give a share below zero (Allocation.CorrectedNegativeExample), which the model then grants; nothing here promises non-negative shares.
- ModellingTools.CreateInvestors: mu, sigma and the normal draw are replaced by the `draw` parameter. When a cohort is refused, no partial result is returned.
- ModellingTools.MintDistributionByDay: the schedule is assumed rectangular, with integer month labels and no repeated label. Amounts are integers.
- get_distribution_by_sum's Dirichlet draw, rounding and `randint` positions are inputs (`DrawFits`), not computed.
- get_root, log, read_file, save_file: environment, file and console I/O.
- get_turnover_distribution: floating-point growth arithmetic.
- The configuration readers, the result exporters, models/tokens.py and modeling/run_modeling.py: I/O, field initialisation and top-level orchestration.

## Findings

| source | as written | input that shows it | evidently intended | confidence | as-written member | corrected member |
|---|---|---|---|---|---|---|
| utilities/py_tools.py:155 | the `elif` repeats the `<` test of the `if`, so the decrement never runs and an overshoot of the rounded draw is returned uncorrected | sum = 2, size = 3, Dirichlet draw (0.3, 0.3, 0.4) rounded to [1, 1, 1], positions [0]: the result is [1, 1, 1], totalling 3 | the `elif` tests for a total above `sum` and decrements, so every split totals exactly `sum`. That fix alone does not keep shares non-negative: [1, 1, 1, 0] for sum = 2 with position 3 gives [1, 1, 1, -1] (Allocation.CorrectedNegativeExample) | high; not executed | Allocation.OvershootExample | Allocation.CorrectedExact |
