# WealthFlow budget ledger in Dafny

WealthFlow is a browser-based budget planner. Its state is one ledger: a
monthly net income plus four ordered lists of line items (`{id, name, amount}`)
for debts, expenses, savings and investments. Every user event replaces the
ledger with a new one: change the income, append a blank item, set the name or
amount of the items with a given id, or delete the items with a given id. From
the ledger the dashboard derives each category's total, the total outflow, the
remaining budget, the savings rate and each category's share of the outflow.
The ledger is saved to browser storage after every change and reloaded on
start, falling back to a built-in default ledger.

This project models that core:

- `budget.dfy`, module `Budget`: the data model (`Item`, `Category`,
  `FieldValue`, `Ledger`), the default ledger `InitialData`, the load fallback,
  and the four updates as pure functions from the previous ledger to the next
  (`UpdateIncome`, `AddItem`, `UpdateItem`, `DeleteItem`) with the list
  operations behind them (`Updated` for the map, `Without` for the filter).
- `aggregation.dfy`, module `Aggregation`: `Total`, the exact left fold of the
  `reduce` over amounts; `CategoryTotal`, `TotalOutflow`, `Remaining`,
  `SavingsRate` and `Share`; lemmas about totals (concatenation, order
  independence, the split a delete makes) and about how each update moves
  the category totals, the outflow, the remaining budget and the savings rate,
  and, for the updates that leave the outflow alone, the shares.
- `dashboard.dfy`, module `Dashboard`: the component's state as a class
  `WealthFlow` with the `data` field and a `stored` field standing for the
  storage slot; its methods replace `data` through the pure updates and keep
  `stored` equal to it.

Amounts and income are exact `real` numbers. Item ids are not assumed unique:
nothing stops two items of one category from sharing an id (two `Date.now()`
ids taken in the same millisecond, or a stored ledger written that way), so an
edit or a delete acts on every item of the category carrying the id. Amounts are not assumed to be non-negative: the
number inputs accept negative values.

## Model

| member | source | states |
|---|---|---|
| `Budget.Items` | src/wealthflow.jsx:183 | `prev[category]`, the items of one category; `Budget.WithItems` states that reading back a replaced category gives the new items |
| `Budget.WithItems` | src/wealthflow.jsx:181-184 | replacing one category keeps the income and the other three categories |
| `Budget.SetField` | src/wealthflow.jsx:191 | setting a field changes only that field; the id never changes |
| `Budget.Edit` | src/wealthflow.jsx:191 | the map callback: the id is kept, an item with another id is returned unchanged, and a matching item gets the new name or amount with the other field kept |
| `Budget.Updated` | src/wealthflow.jsx:190-192 | the edited list has the same length, the same ids, every matching item with the field set and every other item unchanged in place |
| `Budget.Without` | src/wealthflow.jsx:199 | an item is kept by the filter exactly when it was present and its id differs |
| `Budget.Matching` | src/wealthflow.jsx:199 | the items the filter drops are exactly those present with the id |
| `Budget.WithoutIsSubsequence` | src/wealthflow.jsx:199 | the kept items appear in their original relative order |
| `Budget.WithoutConcat` | src/wealthflow.jsx:199 | filtering a concatenation filters each part and keeps them in order |
| `Budget.WithoutMatchingPartition` | src/wealthflow.jsx:196-201 | kept and removed items together are the original items, with multiplicity |
| `Budget.WithoutAbsent` | src/wealthflow.jsx:196-201 | deleting an id no item carries changes nothing |
| `Budget.WithoutIdempotent` | src/wealthflow.jsx:196-201 | deleting the same id twice equals deleting it once |
| `Budget.UpdatedIdempotent` | src/wealthflow.jsx:187-194 | repeating the same edit changes nothing further |
| `Budget.BlankItem` | src/wealthflow.jsx:180 | the new item has the given id, an empty name and amount 0 |
| `Budget.InitialData` | src/wealthflow.jsx:140-157 | the default ledger: income 5000 and the nine items of the source in order; every category is non-empty, every amount positive and the ids within a category distinct; its figures are stated by `Aggregation.InitialDataFigures` |
| `Budget.Load` | src/wealthflow.jsx:160-168 | missing, empty or unparsable storage yields the default ledger; a stored ledger is used as is |
| `Budget.UpdateIncome` | src/wealthflow.jsx:175-177 | the income becomes the new amount and every category is kept |
| `Budget.AddItem` | src/wealthflow.jsx:179-185 | the category grows by exactly one blank item at the end; its old items are a prefix; income and other categories are kept |
| `Budget.UpdateItem` | src/wealthflow.jsx:187-194 | the category keeps its length and order; matching items get only the field set; other items, the income and the other categories are kept |
| `Budget.DeleteItem` | src/wealthflow.jsx:196-201 | no item with the id remains; an item is kept exactly when it was there and its id differs; income and other categories are kept |
| `Budget.DeleteItemKeepsOrder` | src/wealthflow.jsx:196-201 | the kept items are a subsequence of the category in its original order, and kept plus removed items are the original items with multiplicity |
| `Aggregation.Total` | src/wealthflow.jsx:59 | the `reduce` over amounts from 0, as a left fold in list order; its properties are stated by `TotalSingleton`, `TotalConcat`, `TotalOrderIndependent` and `TotalNonNegative` |
| `Aggregation.TotalSingleton` | src/wealthflow.jsx:59 | an empty list totals 0; one item totals its amount |
| `Aggregation.TotalConcat` | src/wealthflow.jsx:59 | the total of a concatenation is the sum of the totals |
| `Aggregation.TotalOrderIndependent` | src/wealthflow.jsx:205-208 | lists with the same items in any order have the same total |
| `Aggregation.TotalNonNegative` | src/wealthflow.jsx:59 | items with amounts of at least 0 total at least 0 |
| `Aggregation.TotalPartition` | src/wealthflow.jsx:196-208 | a category's total is the total of the items a delete keeps plus the total of those it removes |
| `Aggregation.TotalRenamed` | src/wealthflow.jsx:187-194 | renaming items leaves the total unchanged |
| `Aggregation.TotalReamounted` | src/wealthflow.jsx:187-194 | after setting the amount to `v`, the total is that of the other items plus `v` once per matching item |
| `Aggregation.RepeatedIsProduct` | src/wealthflow.jsx:191 | `v` counted once per matching item is `v` times their number |
| `Aggregation.CategoryTotal` | src/wealthflow.jsx:205-208 | one entry of the `totals` memo, the `reduce` of one category; how each update moves it is stated by the `*Figures` lemmas |
| `Aggregation.TotalOutflow` | src/wealthflow.jsx:211 | the sum of the four category totals; `OutflowIsTotalOfAllItems` states it is the total of all items |
| `Aggregation.OutflowIsTotalOfAllItems` | src/wealthflow.jsx:204-211 | the outflow, the sum of the four category totals, is the total of all items together |
| `Aggregation.Remaining` | src/wealthflow.jsx:212 | remaining plus outflow is the income; remaining is negative exactly when outflow exceeds income (no clamping) |
| `Aggregation.SavingsRate` | src/wealthflow.jsx:213 | with positive income, rate times income is 100 times savings plus investments; otherwise exactly 0 |
| `Aggregation.SavingsRateShift` | src/wealthflow.jsx:213 | with the same income, savings plus investments moved by `d` move the savings rate by `d` in percent of a positive income, and not at all when `d` is 0 |
| `Aggregation.ShareDivisor` | src/wealthflow.jsx:270 | the divisor `totalOutflow`-or-1 is never 0 |
| `Aggregation.Share` | src/wealthflow.jsx:270 | the legend share as written: the category total divided by `totalOutflow`, or by 1 when that is 0; its value is stated by `ShareOfOutflow`, its sum by `SharesSumToOne` |
| `Aggregation.ShareOfOutflow` | src/wealthflow.jsx:270 | with outflow, share times outflow is the category total; with no outflow the share is the category total itself |
| `Aggregation.SharesSumToOne` | src/wealthflow.jsx:270 | whenever the outflow is not 0, the four shares sum to 1 |
| `Aggregation.NoOutflowMeansZeroShares` | src/wealthflow.jsx:270 | with amounts of at least 0 and no outflow, every share is 0 |
| `Aggregation.ShareAtCancellingOutflow` | src/wealthflow.jsx:270 | a ledger whose amounts cancel has outflow 0 yet shares 100 and -100 |
| `Aggregation.GuardedShare` | src/wealthflow.jsx:270 | the corrected share: 0 with no outflow, otherwise equal to the share as written |
| `Aggregation.GuardedSharesSum` | src/wealthflow.jsx:270 | the corrected shares sum to 1 with outflow and to 0 without |
| `Aggregation.GuardedShareAgrees` | src/wealthflow.jsx:270 | the corrected and the written share agree whenever there is an outflow or no amount is negative |
| `Aggregation.InitialDataFigures` | src/wealthflow.jsx:140-213 | the default ledger has totals 500, 1750, 300, 500, outflow 3050, remaining 1950 and savings rate 16 |
| `Aggregation.UpdateIncomeFigures` | src/wealthflow.jsx:175-213 | a new income leaves every total, the outflow and every share unchanged, moves remaining by the income's change, and makes the savings rate 0 for a non-positive income and otherwise the savings and investments in percent of the new income |
| `Aggregation.AddItemFigures` | src/wealthflow.jsx:179-185 | appending a blank item changes no total, outflow, remaining, savings rate or share |
| `Aggregation.CategoryShift` | src/wealthflow.jsx:204-213 | when one category total moves by `d` and nothing else changes, the outflow moves by `d`, remaining by `-d`, and the savings rate only for savings or investments, by `d` in percent of income |
| `Aggregation.DeleteItemTotals` | src/wealthflow.jsx:196-208 | a delete lowers its category total by exactly the removed amounts and keeps the other totals |
| `Aggregation.DeleteItemFigures` | src/wealthflow.jsx:196-213 | a delete lowers the category total and the outflow, and raises remaining, by exactly the removed amounts; other totals are unchanged; the savings rate is unchanged for debts and expenses and drops by the removed amounts in percent of income for savings and investments |
| `Aggregation.RenameItemFigures` | src/wealthflow.jsx:187-194 | a rename changes no total, outflow, remaining, savings rate or share |
| `Aggregation.SetAmountTotals` | src/wealthflow.jsx:187-208 | setting the amount to `v` replaces the matching items' contribution to the category total by `v` each and keeps the other totals |
| `Aggregation.SetAmountFigures` | src/wealthflow.jsx:187-213 | setting the amount to `v` replaces the matching items' contribution to the category total and the outflow by `v` each and moves remaining the other way; other totals are unchanged; the savings rate moves by the change in percent of income for savings and investments only |
| `Dashboard.WealthFlow.constructor` | src/wealthflow.jsx:160-173 | the state starts from storage, or from the default ledger when storage holds nothing usable, and is saved |
| `Dashboard.WealthFlow.Reload` | src/wealthflow.jsx:160-173 | loading what was saved restores exactly the current ledger |
| `Dashboard.WealthFlow.UpdateIncome` | src/wealthflow.jsx:175-177 | the state becomes the updated ledger and is saved; the outflow is unchanged |
| `Dashboard.WealthFlow.AddItem` | src/wealthflow.jsx:179-185 | the category gets one blank item at the end and is saved; outflow and remaining are unchanged |
| `Dashboard.WealthFlow.UpdateItem` | src/wealthflow.jsx:187-194 | the category keeps its length; a rename keeps the outflow, an amount edit moves it by the matching items' change |
| `Dashboard.WealthFlow.DeleteItem` | src/wealthflow.jsx:196-201 | exactly the items with the id leave the category; the outflow drops by their amounts; the new state is saved |

## Findings

| source | as written | input that shows it | evidently intended | confidence | as-written member | corrected member |
|---|---|---|---|---|---|---|
| src/wealthflow.jsx:270 | each legend share divides by `totalOutflow`-or-1, so with an outflow of 0 a category's share is its own total | debts `[100]`, expenses `[-100]` (the amount inputs accept negative numbers): outflow 0, debts share 100 (shown as 10000%), expenses share -100, while the chart at line 91 shows its empty placeholder | every share 0 when there is no outflow | low, not executed | `Aggregation.ShareAtCancellingOutflow` | `Aggregation.GuardedShare` |

`Aggregation.Share` models line 270 as written. The two definitions agree
whenever the outflow is not 0 or no amount is negative
(`Aggregation.GuardedShareAgrees`). Neither non-negative amounts nor unique ids
is enforced, so the model assumes neither.

## Left out

- The React components, JSX layout, the donut chart's SVG geometry and the page body are rendering only.
- Number formatting is left out: `toLocaleString`, `toFixed` and the `Math.round` of the legend percentage. Shares are exact fractions.
- Floating-point arithmetic is left out: amounts are exact reals, with no rounding, `NaN` or infinities.
- The `parseFloat(...) || 0` coercion of the inputs is left out: income and amounts arrive as reals.
- The `Date.now()` id of a new item is a clock reading; it is the `newId` parameter of `AddItem`.
- Browser storage and JSON are left out. The `stored` field holds the ledger itself, so serialising and parsing are taken as an exact round trip.
- A stored value that parses but is not a ledger (for instance `null`) is left out.
- The save effect's timing is left out: it runs after the render, and the model saves as the last step of each update.
- The string field name of `updateItem` is left out. It becomes the typed `FieldValue`, since callers only pass `name` with a string and `amount` with a number.
- The `useMemo` caching of the totals is an optimisation with no observable effect.
- The investment projector and the mortgage calculator are not part of this model. They are absent from src/wealthflow.jsx.
- src/main.jsx only mounts the component.
- `Aggregation.DeleteItemFigures` and `Aggregation.SetAmountFigures` do not restate the four shares after the change: the outflow moves, so each share is the new category total over the new outflow, which `Aggregation.ShareOfOutflow` gives for any ledger.
- `Aggregation.SetAmountFigures` states the new contribution as `Repeated(v, n)` rather than `v * n`. `Aggregation.RepeatedIsProduct` proves these equal.
