# Expense tracker core, modelled in Dafny

This project models the logic of a single-screen expense-tracking app.
It has three parts:

- **The transaction store.** This is the activity's list of records. New records go to the front, and a delete removes the first record equal to a given one.
- **The filter engine.** This is the list adapter. It derives the shown list from the full list, a type filter (`All`, `IncomeOnly`, `ExpenseOnly`) and a lower-cased search query matched against descriptions.
- **The summary.** This is the balance, plus income and expense totals and counts, always taken over the full list.

Modules follow the source: `Transactions` (the data class), `Store` (the mutable list objects), `Adapter` (the filter engine), `Summary` (the reductions the activity computes) and `Activity` (the screen).
`Text` holds the string operations the source takes from the Kotlin library: `lowercase`, `contains` and `trim`.
`Wrappers` holds `Option` and `Result`.

Design points:

- **Mutable lists are objects.** The source's `MutableList<Transaction>` values are objects of class `Store.TransactionList`. This matters for one reason. The activity first hands the adapter its own list; `loadData` then gives the activity a fresh list. `updateTransactionList(newList)` clears the adapter's list and then appends `newList`, so passing the adapter's own list would leave both empty. `UpdateTransactionList` states both cases. `MainActivity.Valid()` proves the start-up sequence leaves the two lists as distinct objects, and every later call preserves that. So the add and delete paths always copy the full store into the adapter.
- **Amounts are exact.** Amounts are `real`, so sums and `balance = income - expense` are exact.
- **Inputs from outside are parameters.**
  - The id comes from the clock, so it is passed in.
  - The amount parser (`toDoubleOrNull`) is passed in as a function.
  - The records loaded at start-up are a constructor argument. `None` means nothing was saved.

Three points a reader might expect to work differently:

- **Delete matches the whole record.** Deletion matches by structural equality of all five fields (`indexOf`), not by id, and returns nothing.
- **Category is validated too.** An empty category is rejected, and it is checked first.
- **Ids may collide.** Ids are not guaranteed unique, and nothing here assumes they are.

## Model

| member | source | states |
|---|---|---|
| `Transactions.DefaultCategoryApplies` | main/java/com/example/emptyviewactivity/Transaction.kt:8 | a record built without a category has category "others" |
| `Transactions.EqualityIsStructural` | main/java/com/example/emptyviewactivity/Transaction.kt:3-9 | two records are equal exactly when all five fields agree |
| `Text.LowerIsLowerCase` | main/java/com/example/emptyviewactivity/TransactionAdapter.kt:105-106 | lower-casing yields a string without upper-case letters, is idempotent, and leaves a string without upper-case letters unchanged |
| `Text.Lower` | main/java/com/example/emptyviewactivity/TransactionAdapter.kt:106 | `lowercase()` (also applied to the description at line 128) keeps the length and maps every character through the ASCII letter map |
| `Text.Contains` | main/java/com/example/emptyviewactivity/TransactionAdapter.kt:127-128 | `contains` is true exactly when some position starts an occurrence of the query (always for the empty query) |
| `Text.Trim` | main/java/com/example/emptyviewactivity/MainActivity.kt:148-162 | the result is a slice of the input with only whitespace cut from both ends, neither end of it is whitespace, and it is empty exactly when the input is all whitespace |
| `Text.TrimIdempotent` | main/java/com/example/emptyviewactivity/MainActivity.kt:148-149 | trimming a trimmed text changes nothing |
| `Store.TransactionList.Empty` | main/java/com/example/emptyviewactivity/MainActivity.kt:41 | a new list is empty |
| `Store.TransactionList.FromSeq` | main/java/com/example/emptyviewactivity/MainActivity.kt:340-344 | a loaded list holds the loaded records in order |
| `Store.TransactionList.Clear` | main/java/com/example/emptyviewactivity/TransactionAdapter.kt:145 | the list becomes empty |
| `Store.TransactionList.AddAll` | main/java/com/example/emptyviewactivity/TransactionAdapter.kt:146 | the list becomes its old contents followed by the old contents of the argument, which may be itself |
| `Store.TransactionList.Insert` | main/java/com/example/emptyviewactivity/MainActivity.kt:192 | the record lands at the given index, the length grows by one, the elements before and after keep their order |
| `Store.TransactionList.RemoveAt` | main/java/com/example/emptyviewactivity/MainActivity.kt:248 | exactly the element at the index is removed |
| `Store.TransactionList.IndexOf` | main/java/com/example/emptyviewactivity/MainActivity.kt:245 | returns the first position holding an equal record, or -1 exactly when there is none |
| `Adapter.Filtered` | main/java/com/example/emptyviewactivity/TransactionAdapter.kt:115-134 | the view is never longer than the list |
| `Adapter.FilteredMembership` | main/java/com/example/emptyviewactivity/TransactionAdapter.kt:118-133 | a record is in the view exactly when it is in the list, matches the type, and the query is empty or the lower-cased description contains it |
| `Adapter.FilteredAppend` | main/java/com/example/emptyviewactivity/TransactionAdapter.kt:116-133 | the one-pass filter distributes over concatenation of lists |
| `Adapter.KeptIndices` | main/java/com/example/emptyviewactivity/TransactionAdapter.kt:118-132 | the kept positions are increasing, in range, and are exactly the positions whose record passes both predicates |
| `Adapter.FilteredAtKeptIndices` | main/java/com/example/emptyviewactivity/TransactionAdapter.kt:118-132 | the view of a suffix is that suffix read at its kept positions |
| `Adapter.FilteredIsOrderedSubsequence` | main/java/com/example/emptyviewactivity/TransactionAdapter.kt:115-134 | the view is the list read at strictly increasing positions, and a position is read exactly when its record is kept: order is preserved |
| `Adapter.FilteredAllEmptyIsIdentity` | main/java/com/example/emptyviewactivity/TransactionAdapter.kt:120-128 | with `All` and an empty query the view is the whole list |
| `Adapter.TypeFilterSound` | main/java/com/example/emptyviewactivity/TransactionAdapter.kt:120-124 | under `IncomeOnly` every shown record is income, under `ExpenseOnly` none is |
| `Adapter.FilteredIdempotent` | main/java/com/example/emptyviewactivity/TransactionAdapter.kt:115-116 | filtering the view again with the same criteria gives the same view |
| `Adapter.SearchLooksOnlyAtLowerDescription` | main/java/com/example/emptyviewactivity/TransactionAdapter.kt:127-128 | records of the same kind whose descriptions agree up to case are kept or dropped together, whatever their categories |
| `Adapter.SearchIsCaseInsensitive` | main/java/com/example/emptyviewactivity/TransactionAdapter.kt:105-128 | a record of the right kind whose lower-cased description contains the lower-cased query is shown, whatever the case of the query or the description |
| `Adapter.CoffeeShopExample` | main/java/com/example/emptyviewactivity/TransactionAdapter.kt:127-128 | "Coffee Shop" is found by "shop" and "SHOP", but not by its category "Food" |
| `Adapter.IconForCategory` | main/java/com/example/emptyviewactivity/TransactionAdapter.kt:78-87 | the five listed categories get their own icons; any other string gets the default icon |
| `Adapter.IconLookupDistinguishesKnownCategories` | main/java/com/example/emptyviewactivity/TransactionAdapter.kt:78-87 | the five icons are distinct and not the default; "Other", "others" and "food" get the default |
| `Adapter.TransactionAdapter.constructor` | main/java/com/example/emptyviewactivity/TransactionAdapter.kt:15-28 | the adapter starts under `All` with an empty query, and its view is a copy of the whole list |
| `Adapter.TransactionAdapter.GetItemCount` | main/java/com/example/emptyviewactivity/TransactionAdapter.kt:90 | the item count is the size of the filtered view |
| `Adapter.TransactionAdapter.GetFilteredCount` | main/java/com/example/emptyviewactivity/TransactionAdapter.kt:139 | the filtered count is the size of the filtered view |
| `Adapter.TransactionAdapter.Filter` | main/java/com/example/emptyviewactivity/TransactionAdapter.kt:105-110 | stores the lower-cased query and the type; the view becomes the list filtered by them; the list is unchanged |
| `Adapter.TransactionAdapter.ApplyFilters` | main/java/com/example/emptyviewactivity/TransactionAdapter.kt:115-134 | the rebuilt view equals the list filtered by the stored criteria |
| `Adapter.TransactionAdapter.UpdateTransactionList` | main/java/com/example/emptyviewactivity/TransactionAdapter.kt:144-149 | the list becomes a copy of the argument (empty when the argument is the adapter's own list) and the view is re-derived |
| `Summary.BalanceIsIncomeMinusExpense` | main/java/com/example/emptyviewactivity/MainActivity.kt:208-233 | the balance equals total income minus total expense |
| `Summary.CountsPartitionList` | main/java/com/example/emptyviewactivity/MainActivity.kt:225-233 | income count plus expense count equals the number of records |
| `Summary.TotalsPartitionAmounts` | main/java/com/example/emptyviewactivity/MainActivity.kt:225-233 | the income and expense totals together sum all amounts |
| `Summary.TotalsNonNegative` | main/java/com/example/emptyviewactivity/MainActivity.kt:225-233 | with positive amounts neither total is negative |
| `Summary.SummaryAgreesWithTypeViews` | main/java/com/example/emptyviewactivity/MainActivity.kt:225-233 | the income count and total equal the size and sum of the `IncomeOnly` view with no query; likewise for expenses |
| `Summary.SumAmountsAppend` | main/java/com/example/emptyviewactivity/MainActivity.kt:225-233 | the sum of amounts distributes over concatenation |
| `Summary.SummaryExample` | main/java/com/example/emptyviewactivity/MainActivity.kt:208-233 | income 100 and expense 40: the `ExpenseOnly` view has one item, but the balance is 60, income 100 over one record, expense 40 over one |
| `Activity.ValidateInput` | main/java/com/example/emptyviewactivity/MainActivity.kt:148-190 | on trimmed inputs it rejects, in order: an empty category, then an empty description or amount text, then an unparsable or non-positive amount. Otherwise it builds the record from the trimmed texts and the parsed, positive amount |
| `Activity.AcceptedInputIsStable` | main/java/com/example/emptyviewactivity/MainActivity.kt:148-190 | re-entering an accepted record's stored description and category is accepted and yields the same record |
| `Activity.KindDoesNotAffectValidation` | main/java/com/example/emptyviewactivity/MainActivity.kt:176-190 | an input is accepted as income exactly when it is accepted as expense, with the same positive amount and texts; only `isIncome` differs, so the kind is never carried by the sign of the amount |
| `Activity.RemoveFirst` | main/java/com/example/emptyviewactivity/MainActivity.kt:244-248 | the length drops by one exactly when the record is present |
| `Activity.RemoveFirstAt` | main/java/com/example/emptyviewactivity/MainActivity.kt:245-248 | only the first position holding the record is removed; the rest keep their order |
| `Activity.RemoveFirstAbsent` | main/java/com/example/emptyviewactivity/MainActivity.kt:244-247 | deleting an absent record leaves the list unchanged |
| `Activity.RemoveFirstTakesOneCopy` | main/java/com/example/emptyviewactivity/MainActivity.kt:245-248 | deletion removes exactly one copy of the record and nothing else |
| `Activity.FilterTypeToIndex` | main/java/com/example/emptyviewactivity/MainActivity.kt:301-305 | every filter has a radio index between 0 and 2 |
| `Activity.FilterTypeFromIndex` | main/java/com/example/emptyviewactivity/MainActivity.kt:310-315 | any index other than 0, 1 or 2 selects `All` |
| `Activity.FilterIndexRoundTrip` | main/java/com/example/emptyviewactivity/MainActivity.kt:301-315 | index to filter after filter to index is the identity, and conversely on 0..2 |
| `Activity.MainActivity.constructor` | main/java/com/example/emptyviewactivity/MainActivity.kt:334-351 | models the field initialisers (lines 41-43), the adapter built over the first list in `init()` (line 82) and `loadData`: afterwards the store is the loaded records (empty when none), the view shows all of them, and the adapter holds a distinct list object with the same contents; all three objects are newly allocated |
| `Activity.MainActivity.AddTransactionFromDialog` | main/java/com/example/emptyviewactivity/MainActivity.kt:141-205 | a rejected input leaves the store unchanged; an accepted one is prepended at index 0, and the view is re-derived from the full store |
| `Activity.MainActivity.Prepend` | main/java/com/example/emptyviewactivity/MainActivity.kt:192-195 | the record goes to position 0 of the store, the old records follow unchanged, and the adapter's list is reset to the full store |
| `Activity.MainActivity.DeleteTransaction` | main/java/com/example/emptyviewactivity/MainActivity.kt:244-259 | the store loses its first structurally equal record, or is unchanged if there is none, and the view is re-derived from the full store |
| `Activity.MainActivity.UpdateBalance` | main/java/com/example/emptyviewactivity/MainActivity.kt:208-216 | the total is the signed sum over the whole store, independent of the view |
| `Activity.MainActivity.UpdateIncomeExpenseSummary` | main/java/com/example/emptyviewactivity/MainActivity.kt:218-242 | the totals and counts are those of the whole store, partitioned by `isIncome` |
| `Activity.MainActivity.OnQueryTextChange` | main/java/com/example/emptyviewactivity/MainActivity.kt:273-278 | a null text becomes the empty query; the view is refiltered; the store (and hence the summary) is unchanged |
| `Activity.MainActivity.OnFilterSelected` | main/java/com/example/emptyviewactivity/MainActivity.kt:309-319 | the chosen index selects the filter; the view is refiltered; the store (and hence the summary) is unchanged |
| `Activity.MainActivity.CheckedFilterItem` | main/java/com/example/emptyviewactivity/MainActivity.kt:301-305 | the dialog opens on the index that maps back to the current filter |

## Left out

- **Android UI.** This covers view lookup, list-row binding and the data-set-changed notifications, toolbar and menu inflation, dialog construction, toasts, focus requests, row colours and the "no results" visibility toggle. They are presentation; the state they show is the filtered count, which `GetFilteredCount` gives.
- **The delete callback.** The adapter's delete callback is the activity's `DeleteTransaction`, which the model calls directly.
- **Persistence.** `saveData`, and the SharedPreferences/Gson decoding inside `loadData`, are a foreign library with asynchronous writes.
  - The constructor takes the decoded list as an argument instead.
  - A corrupt blob, which makes the decoder throw, is not modelled.
  - Gson's bypass of the Kotlin default category is not modelled either.
- **Number formatting.** Currency formatting and the count labels are library formatting; `UpdateBalance` and `UpdateIncomeExpenseSummary` return the numbers the labels would show.
- **Floating point.** `Double` amounts are exact `real`s, and the parser is an abstract argument. Rounding, NaN and infinities are not modelled. A NaN amount would pass the `amount <= 0` check in the source.
- **Integer widths.** Ids are unbounded rather than `Long`, and counts are unbounded rather than `Int`; neither bound is reached by a list that fits in memory.
- `Text.LowerChar`: `lowercase()` is modelled as the ASCII letter map. Unicode case mapping is not modelled.
- `Text.IsWhitespace`: `trim()` uses a fixed list of the characters Kotlin treats as whitespace. It has not been compared against every Unicode version.
- **The category suggestion lists.** These are the lists in `showAddTransactionDialog` and `addTransactionFromDialog`. They only feed a drop-down and never constrain the entered text.
- **Lifecycle plumbing.** `updateData`, `setupToolbar`, `onPause` and the rest of `onCreate` are lifecycle plumbing. The summary refresh at the end of start-up is the same computation as `UpdateBalance` and `UpdateIncomeExpenseSummary`.
