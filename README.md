# Portfolio accounting engine, modelled in Dafny

This project models the computational core of a personal portfolio tracker
(`src/lib/utils/calculations.ts` and the records of `src/lib/types.ts`):

- **the holdings builder** (`buildHoldings`): folds a chronological log of BUY and
  SELL transactions into one position per symbol. It keeps a weighted-average
  cost basis: a BUY adds quantity and cost. A SELL reduces the book cost by the
  fraction of units sold and closes the position when the quantity reaches zero.
  The builder then fills each surviving position's live fields from the quote
  feed and returns the positions sorted by current value, largest first;
- **the portfolio aggregator** (`calculatePortfolioSummary`): totals over the
  positions, the guarded gain and day-gain percentages, and the value-weighted
  annualized gain;
- **the watchlist enricher** (`enrichWatchlist`): fills in, in place, the
  gain fields of tracked symbols against the price when each was added;
- **the shared helpers**: elapsed days (`daysBetween`), the annualized gain
  (`calculateAnnualizedGain`), and the sign classifier used for colouring
  (`getGainColorClass`).

Files:

- `types.dfy`: the records (`Transaction`, `Holding`, `WatchlistItem`,
  `PortfolioSummary`, a quote).
- `metrics.dfy`: the helpers.
- `holdings.dfy`: the builder.
- `ordering.dfy`: what the builder's final sort promises (sorted by value,
  largest first, and stable), and the invariants of the insertion sort.
- `summary.dfy`: the aggregator.
- `watchlist.dfy`: the enricher.

How the source is represented:

- Amounts are exact reals.
- Dates are whole day numbers.
- The current date is a parameter `now`, a day number standing for the
  source's `new Date()` (see `Metrics.DaysBetween` under "Left out").
- `Math.pow` is a parameter `pow`.
- The builder's JavaScript `Map` is a `Ledger`: the symbols in insertion order,
  plus a map from symbol to position. Deleting a symbol drops it from the
  order. Buying it again later appends it at the end, which is where a `Map`
  puts a re-inserted key.

Each loop of the source is a method proved against a specification function:

- The builder's first loop (`BuildLedger`, one pass of it in
  `ProcessTransaction`) steps the ledger exactly as `ApplyTxn` does. `Fold` is
  the fold of `ApplyTxn` over the log. `ApplyTxn` uses three record updates:
  `AddToHolding` for a BUY into a held symbol, and `ReduceHolding` with its
  proportional book cost `ReducedBookCost` for a SELL that leaves units.
- The pricing loop (`PriceAll`, one pass of it in `PriceHolding`) fills a new
  array with `EnrichHolding` of each position, in map order.
- The sort (`SortByValueDesc`, an insertion sort on that array, in place)
  returns a sorted, stable rearrangement. Stable means that positions of equal
  value keep their map order, as `Array.prototype.sort` guarantees.
- The aggregator's loops compute the sum functions and `WeightedAnnualized`.
- The watchlist loop rewrites the array to `EnrichedItems` of its old contents.

The properties of the source are proved about these functions. The model
follows the code as written, including these choices:

- The day-gain percent of the summary divides by `totalValue - totalDayGain`.
  That division is guarded by `totalValue > 0`, not by the denominator itself.
- A position's gain percent has no zero fallback. The builder only produces
  positions with a positive book cost, so the division is always defined.
- The weight `currentValue / totalValue` in the summary is unguarded.
- A new position's average cost is the transaction's recorded price per
  share, not its book cost divided by its quantity.

## Model

| member | source | states |
|---|---|---|
| Metrics.DaysBetween | src/lib/utils/calculations.ts:6-11 | elapsed days are never negative and are the same in either argument order; zero exactly when the dates are equal |
| Metrics.CalculateAnnualizedGain | src/lib/utils/calculations.ts:16-28 | zero elapsed days or a zero initial value give 0; otherwise the result is (growth ratio to the power 365.25/days − 1) × 100 |
| Metrics.AnnualizedGainOfNoChange | src/lib/utils/calculations.ts:21-27 | a value that did not move has an annualized gain of 0, for any power function with 1^e = 1 |
| Metrics.AnnualizedGainHasSignOfGain | src/lib/utils/calculations.ts:23-25 | between positive values over positive days, the annualized gain is positive iff the value rose and negative iff it fell |
| Metrics.GetGainColorClass | src/lib/utils/calculations.ts:210-214 | "positive" iff the value is > 0, "negative" iff < 0, "neutral" iff = 0 |
| Holdings.NewHolding | src/lib/utils/calculations.ts:55-71 | a first BUY opens a position with the bought quantity and cost, the recorded price as average cost, its date as first purchase date, and all live fields zero |
| Holdings.ApplyTxn | src/lib/utils/calculations.ts:41-84 | one transaction keeps the working map well-formed: symbols unique and in step with the keys, every position with positive quantity and book cost and unpriced |
| Holdings.Fold | src/lib/utils/calculations.ts:37-85 | the working map after any log whose BUYs have positive quantity and cost satisfies the same invariant |
| Holdings.BuyOfNewSymbol | src/lib/utils/calculations.ts:54-72 | a BUY of a symbol not held appends the symbol at the end of the order and files the new position under it; nothing else in the map changes |
| Holdings.BuyIntoExisting | src/lib/utils/calculations.ts:44-53 | a BUY into a held symbol (the record update `AddToHolding`) keeps the order and the symbol, name and exchange; quantity and book cost grow by the amounts bought; the average cost is book cost over quantity; the first purchase date becomes the earlier date |
| Holdings.ReducedBookCostPositive | src/lib/utils/calculations.ts:75-77 | proportional reduction (`ReducedBookCost`) keeps the book cost positive while units remain, and new book cost × old quantity = old book cost × new quantity |
| Holdings.SellKeepsCostPerUnit | src/lib/utils/calculations.ts:75-82 | after a partial SELL, book cost per unit is the same as before it |
| Holdings.ReduceHoldingKeepsCostPerUnit | src/lib/utils/calculations.ts:75-82 | a partial SELL (the record update `ReduceHolding`) keeps the symbol, name and exchange, lowers the quantity by the amount sold; book cost is scaled by the fraction kept; average cost becomes the old cost per unit; the first purchase date is unchanged |
| Holdings.PartialSell | src/lib/utils/calculations.ts:73-83 | a SELL that leaves units keeps the order and the symbol in the map, with the effect above |
| Holdings.SellOfNothing | src/lib/utils/calculations.ts:73-83 | a SELL of zero units keeps the order, quantity and book cost, and resets the average cost to book cost over quantity |
| Holdings.SellToZeroRemoves | src/lib/utils/calculations.ts:79-80 | a SELL taking the quantity to zero or below removes exactly that symbol from the map, and from the order, leaving the other symbols in their order |
| Holdings.SellOfUnknownIgnored | src/lib/utils/calculations.ts:73 | a SELL of a symbol not held leaves the working map unchanged |
| Holdings.OtherPositionsUntouched | src/lib/utils/calculations.ts:41-84 | a transaction keeps every other held symbol in the map with its position as it was, and never moves the first purchase date of a position that stays held later |
| Holdings.BuyIntoSolePosition | src/lib/utils/calculations.ts:44-53 | a BUY into a ledger holding only its own symbol keeps that single position, adding the quantity and cost and keeping the earlier date |
| Holdings.BuysOfOneSymbol | src/lib/utils/calculations.ts:43-72 | a log of BUYs of one symbol yields one position; its quantity is the total bought, its book cost the total paid, its first purchase date the earliest BUY date |
| Holdings.EnrichHolding | src/lib/utils/calculations.ts:90-110 | pricing changes only live fields; without a quote nothing changes; with one, value = quantity × price, gain against book cost, day gain against quantity × previous close (percent 0 unless that is positive), and the annualized gain from book cost to value since the first purchase |
| Holdings.EnrichedSurvivors | src/lib/utils/calculations.ts:88-113 | one priced position per surviving symbol, in map order |
| Holdings.SingleBuyExample | src/lib/utils/calculations.ts:55-101 | 10 units bought for 50 and quoted at 6 (previous close 5.5) give value 60, gain 10 (20%), day gain 5 against a previous value of 55 |
| Holdings.SortByValueDesc | src/lib/utils/calculations.ts:115 | the array ends sorted by current value, largest first; it is a permutation of its old contents and a stable one: `from` maps each position to where it stood, and equal values keep their old relative order |
| Holdings.Sink | src/lib/utils/calculations.ts:115 | one insertion pass moves the next element up past strictly smaller values only, extending the sorted, stable prefix by one |
| Holdings.PermutationOfSurvivors | src/lib/utils/calculations.ts:88-115 | any rearrangement of the priced survivors holds exactly one priced copy of each surviving position |
| Holdings.EnrichedPositionFields | src/lib/utils/calculations.ts:89-112 | every returned position has positive quantity and book cost; unquoted ones keep zero live fields; quoted ones carry the priced fields |
| Holdings.ProcessTransaction | src/lib/utils/calculations.ts:41-84 | the loop body for one transaction, written over the map's values, computes exactly one step of the fold |
| Holdings.BuildLedger | src/lib/utils/calculations.ts:37-85 | the first loop leaves the working map equal to the fold of the whole log |
| Holdings.PriceHolding | src/lib/utils/calculations.ts:90-110 | the pricing body for one position, filling the fields in the source's order, each from those already filled, gives exactly the priced position |
| Holdings.PriceAll | src/lib/utils/calculations.ts:88-113 | the second loop fills a new array with the priced survivors, in map order |
| Holdings.SurvivorsInMapOrder | src/lib/utils/calculations.ts:89-115 | in a stable rearrangement of the priced survivors, each position records where its symbol stands in the map's insertion order |
| Holdings.BuildHoldings | src/lib/utils/calculations.ts:33-116 | the result is sorted by value, largest first, with positions of equal value in map insertion order (`origin` gives each one's place in that order). It is a permutation of the priced survivors of the whole log, one per held symbol. Each has positive quantity and book cost, and live fields as its quote says |
| Summary.WeightedAnnualizedIsMean | src/lib/utils/calculations.ts:147-153 | the weighted sum equals Σ(annualized gain × value) / total value |
| Summary.TwoEqualPositions | src/lib/utils/calculations.ts:148-152 | two positions of equal positive value give the plain average of their annualized gains (10% and 20% give 15%) |
| Summary.WeightedAnnualizedBounded | src/lib/utils/calculations.ts:147-153 | with non-negative values, Σ(annualized gain × value) lies between lo × total and hi × total for any bounds lo, hi of the gains |
| Summary.WeightedMeanBetween | src/lib/utils/calculations.ts:147-153 | with non-negative values and a positive total, the value-weighted annualized gain lies between any lower and upper bound of the positions' own annualized gains |
| Summary.WeightedSum | src/lib/utils/calculations.ts:148-153 | the second loop computes the weighted sum `WeightedAnnualized` (each annualized gain times value over total value), which is the value-weighted mean |
| Summary.CalculatePortfolioSummary | src/lib/utils/calculations.ts:121-156 | the four totals are the sums over the positions. Gain percent is 0 unless book cost > 0. Day-gain percent is 0 unless total value > 0, otherwise day gain over the opening value. Annualized gain is the value-weighted mean. An empty portfolio gives the all-zero summary |
| Watchlist.EnrichItem | src/lib/utils/calculations.ts:166-183 | enrichment changes only derived fields; without a quote the entry is unchanged; with one, gains are against the price when added and the previous close (percent 0 unless the close is positive), and the annualized gain is measured since the date added |
| Watchlist.EnrichedItems | src/lib/utils/calculations.ts:165-184 | same length and order, each entry enriched |
| Watchlist.EnrichItemIdempotent | src/lib/utils/calculations.ts:166-182 | enriching an entry twice with the same quotes gives the same entry as once |
| Watchlist.EnrichedItemsIdempotent | src/lib/utils/calculations.ts:165-184 | enriching the watchlist twice with the same quotes gives the same list as once |
| Watchlist.EnrichWatchlist | src/lib/utils/calculations.ts:161-185 | the array is rewritten in place to the enriched list of its old contents, and that list is returned |

## Left out

- Metrics.CalculateAnnualizedGain: `Math.pow` is a supplied function, so only the guard branch and the formula's shape are proved. The sign and no-change lemmas hold for any power function with the stated properties. The non-real result of a negative base with a fractional exponent (NaN in JavaScript) is not modelled.
- Metrics.DaysBetween: works on whole day numbers. Parsing ISO date strings is not modelled, and neither is the rounding up of a partial day. The source measures from a date string (midnight) to the current instant. On the purchase day that gives 1 day, not 0, so the source compounds a one-day return where the model gives 0. For past dates it gives one more than the calendar-day difference. For dates not after now, the model agrees with the source when `now` is the current instant rounded up to a whole day number. For a date after now, the source gives one more than the model.
- Holdings.BuildHoldings: requires every BUY to have a positive quantity and a positive total cost. The ledger invariant needs this: every held position has a positive quantity and a positive book cost, so the SELL branch never divides by zero. A BUY of zero or fewer units of a new symbol would open a position without positive quantity, and a later SELL of a zero-quantity position divides by zero (Infinity or NaN). A BUY of a new symbol at zero or negative cost opens a position without positive book cost, and pricing one of zero cost divides by zero. These BUYs are not modelled. A SELL of any quantity is modelled, including zero and negative quantities, which leave units and keep every divisor positive.
- Holdings.ApplyTxn: has the same precondition on a BUY, and requires the ledger invariant, for the reason above.
- Holdings.Fold: requires every BUY of the log to satisfy it, for the reason above.
- Summary.CalculatePortfolioSummary: requires a nonzero total value when there are positions. An unpriced non-empty portfolio makes the source divide 0 by 0 (NaN).
- Summary.CalculatePortfolioSummary: requires `totalValue - totalDayGain` to be nonzero when the total value is positive, where the source would yield Infinity or NaN.
- Watchlist.EnrichWatchlist: requires a nonzero price when added for every quoted entry. For a quoted entry whose price when added is 0, the source divides by zero.
- Watchlist.EnrichItem: requires a nonzero price when added when a quote exists, for the same reason.
- Aliasing: the source mutates positions and watchlist entries in place. `enrichWatchlist` returns the very entries it was given. `buildHoldings` returns the positions it created, which its map still shares. The model works on record values instead: the map and its positions (`ProcessTransaction`, `PriceHolding`) and the summary. Only two arrays are updated in place: the watchlist array, and the builder's array of priced positions while it is sorted.
- IEEE-754 rounding is not modelled; all arithmetic is exact.
- `formatCurrency` and `formatPercent` are presentation helpers and are not part of this model.
- The quote and spreadsheet clients, credential encryption, API key store and the static stock list (`src/lib/services`, `src/lib/crypto.ts`, `src/lib/stores`, `src/lib/data`) are I/O collaborators. They are not part of this model: their outputs are the transaction log and the quote map passed in.
