# Shop planner cart arithmetic, in Dafny

This project models the core of a client-side shop planner. The planner keeps a
persisted cart that maps item ids to quantities. From that cart, a fetched
price catalog, a selected region and a user balance, it derives a sorted
line-item breakdown and a finance summary. The modelled parts are:

- the cart store (`src/lib/stores/cart.ts`), module `CartStore`. It covers the
  sanitiser for untrusted input and `loadCart`. The class `Cart` holds the
  quantity map (`state`) and the persisted record (`stored`). Its methods are
  `setItemCount`, `incrementItemCount`, `clearCart` and the persistence
  subscriber (`Persist`);
- the breakdown and the summary (`src/lib/cart.ts`), module `CartFinance`. It
  covers the catalog-driven join, the sort by title, and the fold into
  totals, balance, remaining balance and the over-budget flag;
- the region selector (`src/lib/stores/region.ts`), module `RegionStore`;
- the balance holder (`src/lib/stores/balance.ts`), module `BalanceStore`.

Supporting modules:

- `Numbers` models JavaScript numbers: a finite real, `+Infinity`,
  `-Infinity` or `NaN`, with `Number.isFinite`, `Number.isInteger`, `< 0` and
  `+`.
- `Api` holds the catalog types from `src/lib/api.ts`.
- `Titles` is the title order that stands in for `localeCompare`.
- `Wrappers` holds `Option`.

The main results are:

- Every count the cart holds is at least 1, after any sequence of operations.
- Each operation leaves the other keys unchanged.
- `sanitizeCart` is idempotent, and a later entry for the same key wins.
- The subscriber leaves no record when the cart is empty.
- What the subscriber writes, `loadCart` reads back as the same state.
- A breakdown line exists exactly for a catalog item with a non-zero count and
  a finite regional price. The line carries that count, the price and their
  product.
- The breakdown is sorted by title and is a permutation of the lines in
  catalog order.
- The totals do not depend on that order.
- The over-budget flag holds iff the balance is positive and the remaining
  balance is negative.
- The selected region is always one of the six codes.
- The balance is never below zero.

Two details of the code are modelled as written:

- The code produces a breakdown line for any non-zero count
  (src/lib/cart.ts:29), not only a positive one.
- `setBalance` rejects only values below zero (src/lib/stores/balance.ts:6),
  so `NaN` and `+Infinity` are accepted. The invariant proved is "never
  negative" in the sense of `< 0`, which `NaN` satisfies. `summarizeFinance`
  coerces such a balance to 0.

## Model

| member | source | states |
|---|---|---|
| `CartStore.SafeCount` | src/lib/stores/cart.ts:18 | `Math.max(0, Math.floor(x))` is 0 exactly when x < 1, and otherwise the integer n with n <= x < n + 1 |
| `CartStore.SanitizeEntry` | src/lib/stores/cart.ts:10-23 | a raw pair is kept iff its key is a finite integer and its value is a finite number >= 1; the kept pair is (key, floor(value)) with count >= 1 |
| `CartStore.ValidEntries` | src/lib/stores/cart.ts:10-24 | the `flatMap` keeps exactly the pairs the per-entry rule keeps, and no more entries than it was given |
| `CartStore.FromEntries` | src/lib/stores/cart.ts:26 | every key of the built map comes with a value from one of its pairs, and every pair's key is present |
| `CartStore.SanitizeCart` | src/lib/stores/cart.ts:7-27 | non-object input gives the empty map; every kept key comes from a valid raw entry whose floored count it carries; every valid raw entry's key is kept; every kept count is >= 1 |
| `CartStore.SanitizeLaterWins` | src/lib/stores/cart.ts:10-26 | appending a raw entry leaves the result unchanged if the entry is invalid, and otherwise overwrites that key with the entry's floored count |
| `CartStore.SanitizeState` | src/lib/stores/cart.ts:55-61 | what the subscriber keeps of a cart state: exactly the keys whose count is >= 1, with their counts, so every kept count is >= 1 |
| `CartStore.SanitizeStateAgrees` | src/lib/stores/cart.ts:55 | sanitising the entries of a cart map, listed in any order, keeps exactly the entries whose count is >= 1 |
| `CartStore.SanitizeStateValid` | src/lib/stores/cart.ts:55 | on a map whose counts are all >= 1, the subscriber's sanitising changes nothing |
| `CartStore.SanitizeIdempotent` | src/lib/stores/cart.ts:7-27 | sanitising the entries of a map of positive integer counts returns that same map |
| `CartStore.LoadCart` | src/lib/stores/cart.ts:29-46 | the result is empty with no storage, no record or a parse failure, and is the sanitised parse otherwise; the record is removed exactly on a parse failure; the loaded counts are all >= 1 |
| `CartStore.Persisted` | src/lib/stores/cart.ts:55-61 | the subscriber leaves no record exactly when no count is >= 1; a record it writes is non-empty and holds only counts >= 1 |
| `CartStore.PersistedValid` | src/lib/stores/cart.ts:50-62 | for a valid state the persisted record is the state itself, and there is no record exactly when the cart is empty |
| `CartStore.PersistLoadRoundTrip` | src/lib/stores/cart.ts:29-62 | for every valid state, what the subscriber leaves is read back by `loadCart` as that same state, with nothing removed: no record gives the empty cart, and a written record gives the state |
| `CartStore.SetCount` | src/lib/stores/cart.ts:64-77 | the key is present iff count is finite and >= 1, and then it holds floor(count); every other key is unchanged; counts stay >= 1 |
| `CartStore.SetCountIdempotent` | src/lib/stores/cart.ts:64-77 | setting the same count twice gives the same state as setting it once |
| `CartStore.Increment` | src/lib/stores/cart.ts:79-97 | a non-finite or zero delta changes nothing; otherwise the key (missing counts as 0) is present iff current + delta >= 1, and then it holds floor(current + delta); other keys are unchanged; counts stay >= 1 |
| `CartStore.IncrementClampsAtZero` | src/lib/stores/cart.ts:84-96 | a count of 3 decremented by 1000 is removed rather than made negative |
| `CartStore.OperationsKeepCountsPositive` | src/lib/stores/cart.ts:64-101 | no sequence of set, increment and clear operations ever leaves a count of 0 or below |
| `CartStore.Cart.constructor` | src/lib/stores/cart.ts:48-62 | the store starts with `loadCart`'s state, and the first subscriber call has written its record |
| `CartStore.Cart.Persist` | src/lib/stores/cart.ts:50-62 | with storage, the record becomes the sanitised state, or is removed when that is empty; without storage nothing is written; the subscriber sees the state once |
| `CartStore.Cart.SetItemCount` | src/lib/stores/cart.ts:64-77 | the new state is `SetCount` of the old one, the record is rewritten to match, and the invariant is kept |
| `CartStore.Cart.IncrementItemCount` | src/lib/stores/cart.ts:79-97 | the new state is `Increment` of the old one; a non-finite or zero delta neither notifies the subscriber nor writes the record |
| `CartStore.Cart.ClearCart` | src/lib/stores/cart.ts:99-101 | the state becomes empty and no record remains |
| `CartFinance.Lines` | src/lib/cart.ts:27-41 | the lines the loop pushes, in catalog order; the join is catalog-driven, so there is at most one line per catalog item |
| `CartFinance.LinesSound` | src/lib/cart.ts:27-40 | every line belongs to a catalog item that is in the cart with a non-zero count and has a finite regional price; its count is the cart count, its unit price is the regional price, and its total is their product |
| `CartFinance.LinesComplete` | src/lib/cart.ts:27-40 | every catalog item with a non-zero cart count and a finite regional price has its line |
| `CartFinance.UnknownIdsSkipped` | src/lib/cart.ts:27-29 | a cart id that no catalog item carries produces no line |
| `CartFinance.UnpricedItemsSkipped` | src/lib/cart.ts:31-32 | an item without a finite price in the region never appears, whatever its count |
| `CartFinance.InsertByTitle` | src/lib/cart.ts:43 | inserting into a title-sorted list keeps it sorted and adds exactly that line |
| `CartFinance.SortByTitle` | src/lib/cart.ts:43 | the result is sorted ascending by title and is a permutation of its input |
| `CartFinance.BuildCartBreakdown` | src/lib/cart.ts:20-44 | the breakdown is the title-sorted permutation of the lines the loop pushes for purchasable catalog items |
| `CartFinance.Totals` | src/lib/cart.ts:50-56 | the `reduce` from the left; no lines give 0 items and cost 0, and lines whose counts are >= 1 and totals are not negative give at least one item per line and a cost that is not negative |
| `CartFinance.TotalsAppend` | src/lib/cart.ts:50-56 | the item and cost totals of two stretches of lines add up |
| `CartFinance.TotalsInsert` | src/lib/cart.ts:43-56 | inserting a line into the sorted list adds exactly its count and total |
| `CartFinance.TotalsSorted` | src/lib/cart.ts:43-56 | sorting the breakdown leaves the item and cost totals unchanged |
| `CartFinance.SummarizeFinance` | src/lib/cart.ts:46-67 | the totals are the sums of counts and of line totals; the balance is the input when finite and 0 otherwise; remaining = balance - cost, not clamped; over budget iff balance > 0 and remaining < 0 |
| `CartFinance.EmptySummary` | src/lib/cart.ts:50-56 | an empty breakdown has 0 items, 0 cost and is not over budget |
| `CartFinance.OverBudgetBoundaries` | src/lib/cart.ts:65 | a balance of 0 or below never flags over budget, and a cost equal to the balance does not flag either |
| `CartFinance.SummaryIgnoresOrder` | src/lib/cart.ts:43-67 | the summary of the sorted breakdown equals the summary of the lines in catalog order |
| `CartFinance.TotalCostOfLines` | src/lib/cart.ts:27-56 | the total cost equals the sum, over purchasable catalog items, of regional price times cart count |
| `CartFinance.SortExample` | src/lib/cart.ts:43 | purchasable "Banana" and "Apple" lines come out with Apple first |
| `CartFinance.SummaryExample` | src/lib/cart.ts:46-67 | counts 2 and 1 with totals 20 and 5 against a balance of 30 give 3 items, cost 25, remaining 5, not over budget |
| `CartFinance.OverBudgetExamples` | src/lib/cart.ts:65 | cost 100 against balance 100 does not flag, cost 100.01 does, and cost 50 against balance 0 does not |
| `Titles.TitleLeReflexive` | src/lib/cart.ts:43 | every title sorts with itself |
| `Titles.TitleLeTotal` | src/lib/cart.ts:43 | any two titles are comparable |
| `Titles.TitleLeAntisymmetric` | src/lib/cart.ts:43 | titles that sort both ways are equal |
| `Titles.TitleLeTransitive` | src/lib/cart.ts:43 | the title order is transitive |
| `Numbers.Add` | src/lib/stores/balance.ts:13 | `b + amount` is finite iff both operands are; adding 0 changes nothing; a negative sum has a negative operand |
| `Api.RegionCodesDistinct` | src/lib/api.ts:23 | two regions have the same code iff they are the same region |
| `RegionStore.IsValidRegion` | src/lib/stores/region.ts:6-8 | a string is accepted iff it is the code of some region |
| `RegionStore.ParseRegion` | src/lib/stores/region.ts:6-8 | a string names a region iff `isValidRegion` accepts it, and then that region's code is the string |
| `RegionStore.CodeRoundTrip` | src/lib/stores/region.ts:6-8 | every region's code is accepted and names that region again |
| `RegionStore.RegionOptionsExact` | src/lib/stores/region.ts:6-17 | `REGION_OPTIONS` holds exactly the regions whose codes `isValidRegion` accepts, and equals `REGIONS` |
| `RegionStore.SelectedRegion.constructor` | src/lib/stores/region.ts:4-10 | the initial selection is US |
| `RegionStore.SelectedRegion.SetRegion` | src/lib/stores/region.ts:12-15 | a valid code selects the one region whose code it is; any other string leaves the selection unchanged |
| `BalanceStore.AfterSet` | src/lib/stores/balance.ts:5-9 | a negative value is ignored and any other value replaces the balance, so a non-negative balance stays non-negative |
| `BalanceStore.AfterAdjust` | src/lib/stores/balance.ts:11-16 | the result is never negative; it is b + amount when that is not negative and 0 when it is (including -Infinity); for finite values it is max(0, b + amount) |
| `BalanceStore.RunNeverNegative` | src/lib/stores/balance.ts:5-16 | from a balance that is not negative, no sequence of `setBalance`/`adjustBalance` calls makes it negative |
| `BalanceStore.FromInitialNeverNegative` | src/lib/stores/balance.ts:3-16 | starting from the initial 0, the balance never becomes negative |
| `BalanceStore.Balance.constructor` | src/lib/stores/balance.ts:3 | the balance starts at 0 and storage is untouched |
| `BalanceStore.Balance.SetBalance` | src/lib/stores/balance.ts:5-9 | a negative argument changes neither the balance nor the record; otherwise both become the argument |
| `BalanceStore.Balance.AdjustBalance` | src/lib/stores/balance.ts:11-16 | the balance becomes `AfterAdjust` of the old one, stays non-negative, and the record is not touched |

## Left out

- Storage and parsing are left out. `localStorage`, `JSON.parse` and
  `JSON.stringify` are not modelled:
  - The stored cart record is the map the subscriber writes.
  - A record read at start-up is given as its parse outcome (`ParseOk(raw)` or
    `ParseError`).
  - A missing record and an empty-string record are both `None`.
  - `EncodeEntries` stands for the entries that parsing a written record gives
    back.
- Numeric coercion is left out. `Number(key)` and `Number(value)` are taken as
  already applied: raw input is a list of `(Num, Num)` pairs. Falsy and
  non-object inputs are both `NotObject`. An array is an object whose entries
  are its indices.
- Logging is left out: `console.error` on a corrupt record.
- The Svelte store machinery is left out: `writable`, `subscribe`, `update` and
  several subscribers. Each store is one object. The cart's one subscriber is
  `Persist`, which runs after every change and once at construction. The ghost
  `commits` list records what it saw.
- CartStore.Cart.constructor: the transient removal of a corrupt record by
  `loadCart` is reported in `LoadCart`'s `removeRecord` flag. The record that
  existed before the store subscribes is not modelled, because the first
  subscriber call overwrites or removes it straight away.
- CartStore.Cart.SetItemCount: item ids are integers. A non-integer id, which
  the source would store in memory and drop from the record, is not modelled.
- CartStore.Cart.IncrementItemCount: the default `delta` of 1 is not a
  separate entry point; callers pass `Finite(1.0)`.
- Finite arithmetic follows mathematical reals, so IEEE 754 is left out:
  rounding in `price * count`, in the running sums and in `b + amount`, and
  overflow to infinity.
- CartFinance.SortByTitle: `localeCompare` is replaced by the lexicographic
  order on characters (`Titles.TitleLe`), a total order like it. The sort is a
  stable insertion sort, as ECMAScript's sort is stable, but stability is not
  proved.
- CartFinance.BuildCartBreakdown: the breakdown is built as a sequence and
  sorted by a pure function. The in-place update of the array by the library
  sort is not modelled.
- BalanceStore.Balance.SetBalance: the record holds the number rather than
  its `toString()` form. The source writes to `localStorage` without checking
  that it exists; that failure is not modelled.
- `src/lib/api.ts` `fetchData` is a network call and is not modelled. Only the
  item id, title and prices of `ShopItem` are kept.
- `src/lib/stores/config.ts`, `src/lib/stores/search.ts` and `src/lib/utils.ts`
  are not part of this model. They are storage plumbing, a bare setter, and
  locale formatting.
