# Expense list: grouping by day, search and swipe delete

This project models the list screen of a small expense tracker. The screen:

- receives the stored expenses (title, date, identity) from a query;
- groups them into one section per calendar day, newest day first;
- keeps that full grouping aside, so a title search can narrow it and clearing the search can restore it;
- lets the user swipe an expense away;
- gives each section a title: "Today", "Yesterday" or the formatted date.

## How the model is built

- **Pure logic as functions.** Grouping, search filtering, the swipe removal and the section title are Dafny functions, each with lemmas about it.
- **Expenses** (module `Expenses`, `expenses.dfy`):
  - an expense is a value with an identity, a title and an integer timestamp;
  - the calendar is one fixed function `DayOf` (whole days of 86400 seconds), with `StartOfDay` giving the first instant of a day (a right inverse: `DayOf(StartOfDay(d)) == d`);
  - `lowercased()` maps the ASCII capitals character by character;
  - the three element tests — same day, title contains, identity differs — are a `Criterion` datatype with a single `Keep` filter.
- **Buckets** (module `Groups`, `groups.dfy`):
  - `GroupedExpenses` is a date plus its expenses;
  - `Flatten` gives what the list shows;
  - `WellFormed` is the shape every grouping has: non-empty buckets, each dated at the start of its day and holding only that day's expenses, listed strictly newest day first;
  - `WellFormedUnique` proves that a well-formed list is determined by the expenses it shows for each day.
- **Grouping** (module `Grouping`, `grouping.dfy`):
  - `Dictionary(grouping:)` is an association list: each expense is appended to its day's entry, and new days are added in order of first appearance;
  - `sorted` is an insertion sort on the day key, newest first;
  - the final `compactMap` is `ToBuckets`.
- **Search** (module `Filtering`, `filtering.dfy`) narrows every bucket and drops the empty ones.
- **Swipe delete** (module `Deletion`, `deletion.dfy`) edits one bucket, as the handler does.
- **Screen state** (module `ExpensesView`, `expenses_view.dfy`):
  - the screen is the class `ExpensesScreen`, with fields `allExpenses` (the query result), `groupedExpenses`, `originalGroupedExpenses` and `searchText`;
  - the class has one method per handler;
  - `Valid` holds after every handler: both lists are well formed, and the screen shows nothing the full grouping does not hold.
- **Worked example** (module `Scenarios`, `scenarios.dfy`): the Coffee / Lunch / Rent case, worked through concretely.

### When the screen regroups

- Both `onChange` handlers run once when the screen appears. After that, each runs only when the value it watches actually changes. `SearchTextChanged` and `StoreChanged` therefore require a new value, and a swipe reaches the store handler only when the store's contents changed.
- When the store's contents change, `onChange(of: allExpenses)` regroups in three cases: the list grew, the screen is empty at that moment, or the Categories tab is the selected tab.
- A regroup replaces whatever an active search showed. `StoreChanged` states this as written.

## Model

| member | source | states |
|---|---|---|
| Expenses.DayOf | ExpenseTrackerApp/View/ExpensesView.swift:104 | the day key of a timestamp; specified by `Expenses.DayOfBounds` and `Expenses.StartOfDay` |
| Expenses.DayOfBounds | ExpenseTrackerApp/View/ExpensesView.swift:104 | a timestamp lies between the start of its day and the start of the next day |
| Expenses.StartOfDay | ExpenseTrackerApp/View/ExpensesView.swift:119 | the date rebuilt from a day key falls on that day |
| Expenses.LowerChar | ExpenseTrackerApp/View/ExpensesView.swift:87 | each capital becomes its own lower-case letter (code point plus 32), every other character is kept |
| Expenses.Lowercased | ExpenseTrackerApp/View/ExpensesView.swift:87-88 | same length, each character lowercased in place |
| Expenses.LowercasedIdempotent | ExpenseTrackerApp/View/ExpensesView.swift:87-88 | lowercasing twice is lowercasing once |
| Expenses.Contains | ExpenseTrackerApp/View/ExpensesView.swift:88 | `String.contains`: the query occurs at some position of the title; used through `Filtering.FilterByTitleExact` and `Scenarios.CofMatches` |
| Expenses.Holds | ExpenseTrackerApp/View/ExpensesView.swift:88 | the element test of each filter: same day, title contains the query, different identity; specified through `Expenses.Keep` |
| Expenses.Keep | ExpenseTrackerApp/View/ExpensesView.swift:88 | an element is kept exactly when it is in the input and passes the test; never longer than the input |
| Expenses.KeepAppend | ExpenseTrackerApp/View/ExpensesView.swift:88 | filtering distributes over concatenation, so relative order is preserved |
| Expenses.KeepIdempotent | ExpenseTrackerApp/View/ExpensesView.swift:88 | filtering twice with one test is filtering once |
| Expenses.KeepAll | ExpenseTrackerApp/View/ExpensesView.swift:88 | when every element passes, the list is unchanged |
| Expenses.KeepNone | ExpenseTrackerApp/View/ExpensesView.swift:89 | when no element passes, the result is empty |
| Expenses.KeepMultiset | ExpenseTrackerApp/View/ExpensesView.swift:88 | every copy of a passing element is kept, no copy of a failing one |
| Expenses.KeepShrinks | ExpenseTrackerApp/View/ExpensesView.swift:88 | the result is a sub-multiset of the input |
| Expenses.KeepMonotone | ExpenseTrackerApp/View/ExpensesView.swift:88 | filtering a sub-multiset gives a sub-multiset of the filtered whole |
| Expenses.KeepCommutes | ExpenseTrackerApp/View/ExpensesView.swift:88 | two element tests can be applied in either order |
| Groups.GroupTitle | ExpenseTrackerApp/Model/GroupedExpenses.swift:15-25 | "Today" on the current day, "Yesterday" on the day before, the formatted date on any other day |
| Groups.GroupTitleOnlyReadsDate | ExpenseTrackerApp/Model/GroupedExpenses.swift:15-25 | buckets with the same date get the same title, whatever expenses they hold |
| Groups.GroupTitleByDay | ExpenseTrackerApp/Model/GroupedExpenses.swift:18-21 | two buckets for the same calendar day get the same title |
| Groups.Flatten | ExpenseTrackerApp/View/ExpensesView.swift:24-27 | what the list shows, bucket after bucket; specified by `Groups.FlattenMember` and `Groups.FlattenAppend` |
| Groups.FlattenMember | ExpenseTrackerApp/View/ExpensesView.swift:24-27 | an expense is listed exactly when some bucket holds it |
| Groups.FlattenAppend | ExpenseTrackerApp/View/ExpensesView.swift:24-27 | the listing of two runs of buckets is the first listing followed by the second |
| Groups.AtMostOneBucket | ExpenseTrackerApp/View/ExpensesView.swift:103-107 | in a well-formed list an expense sits in at most one bucket |
| Groups.WellFormedDatesDescend | ExpenseTrackerApp/View/ExpensesView.swift:109-120 | bucket dates, not only their days, strictly descend |
| Groups.WellFormedDayOfBucket | ExpenseTrackerApp/View/ExpensesView.swift:103-107 | the expenses listed for a bucket's day are exactly that bucket's |
| Groups.WellFormedDayWithoutBucket | ExpenseTrackerApp/View/ExpensesView.swift:103-107 | a day without a bucket lists nothing |
| Groups.WellFormedUnique | ExpenseTrackerApp/View/ExpensesView.swift:101-125 | two well-formed lists that list the same expenses for every day are equal |
| Grouping.AddTo | ExpenseTrackerApp/View/ExpensesView.swift:103-107 | one step of `Dictionary(grouping:)`; specified by `Grouping.AddToKeys`, `Grouping.AddToValues` and `Grouping.AddToMultiset` |
| Grouping.Build | ExpenseTrackerApp/View/ExpensesView.swift:103-107 | `Dictionary(grouping:)` over the whole list; specified by `Grouping.BuildDistinct`, `Grouping.BuildCovers`, `Grouping.BuildMultiset` and `Grouping.BuildValuesAt` |
| Grouping.AddToKeys | ExpenseTrackerApp/View/ExpensesView.swift:103-107 | a new day becomes a new last key; a known day leaves the keys unchanged |
| Grouping.AddToDistinct | ExpenseTrackerApp/View/ExpensesView.swift:103-107 | keys stay distinct |
| Grouping.AddToValues | ExpenseTrackerApp/View/ExpensesView.swift:103-107 | the expense is appended to its own day's values only; a new day gets exactly this expense |
| Grouping.AddToMultiset | ExpenseTrackerApp/View/ExpensesView.swift:103-107 | the values gain exactly this one expense |
| Grouping.BuildDistinct | ExpenseTrackerApp/View/ExpensesView.swift:103-107 | the dictionary holds each day once |
| Grouping.BuildCovers | ExpenseTrackerApp/View/ExpensesView.swift:103-107 | every input day is a key |
| Grouping.BuildMultiset | ExpenseTrackerApp/View/ExpensesView.swift:103-107 | the values together are the input, copy for copy |
| Grouping.BuildValuesAt | ExpenseTrackerApp/View/ExpensesView.swift:103-107 | each entry holds exactly its day's expenses, in input order, and is non-empty |
| Grouping.BuildValues | ExpenseTrackerApp/View/ExpensesView.swift:103-107 | every entry of the dictionary holds exactly the input expenses of its day and is non-empty |
| Grouping.InsertDesc | ExpenseTrackerApp/View/ExpensesView.swift:109-115 | one insertion step of the descending sort; specified by `Grouping.InsertDescMultiset`, `Grouping.InsertDescValues` and `Grouping.InsertDescSorted` |
| Grouping.SortDesc | ExpenseTrackerApp/View/ExpensesView.swift:109-115 | `sorted` newest day first; specified by `Grouping.SortDescMultiset`, `Grouping.SortDescValues` and `Grouping.SortDescSorted` |
| Grouping.InsertDescMultiset | ExpenseTrackerApp/View/ExpensesView.swift:109-115 | inserting adds exactly the one entry |
| Grouping.InsertDescValues | ExpenseTrackerApp/View/ExpensesView.swift:109-115 | inserting adds exactly the entry's values |
| Grouping.InsertDescSorted | ExpenseTrackerApp/View/ExpensesView.swift:109-115 | inserting a new day into a descending list keeps it strictly descending |
| Grouping.SortDescMultiset | ExpenseTrackerApp/View/ExpensesView.swift:109-115 | sorting is a permutation of the entries |
| Grouping.SortDescValues | ExpenseTrackerApp/View/ExpensesView.swift:109-115 | sorting keeps all values, copy for copy |
| Grouping.SortDescSorted | ExpenseTrackerApp/View/ExpensesView.swift:109-115 | with distinct days, the result is strictly newest day first |
| Grouping.ToBuckets | ExpenseTrackerApp/View/ExpensesView.swift:118-121 | one bucket per entry, dated at the start of the entry's day, holding its values; listing order is kept |
| Grouping.SortedEntries | ExpenseTrackerApp/View/ExpensesView.swift:103-115 | the sorted dictionary is strictly descending, covers every day, and holds each day's expenses exactly |
| Grouping.GroupByDay | ExpenseTrackerApp/View/ExpensesView.swift:101-125 | `createGroupedExpenses`; specified by `Grouping.GroupByDayWellFormed`, `Grouping.GroupByDayContents`, `Grouping.GroupByDayPartitions` and `Grouping.GroupByDayOnDay`, which with `Groups.WellFormedUnique` determine it completely |
| Grouping.GroupByDayWellFormed | ExpenseTrackerApp/View/ExpensesView.swift:103-121 | buckets are non-empty and homogeneous, dated at the start of their day, and strictly descending by day |
| Grouping.GroupByDayContents | ExpenseTrackerApp/View/ExpensesView.swift:103-120 | each bucket holds exactly the input's expenses of its day, in input order |
| Grouping.GroupByDayPartitions | ExpenseTrackerApp/View/ExpensesView.swift:103-107 | the buckets together are a permutation of the input |
| Grouping.GroupByDayExactlyOneBucket | ExpenseTrackerApp/View/ExpensesView.swift:103-107 | every input expense is in exactly one bucket |
| Grouping.GroupByDayOnDay | ExpenseTrackerApp/View/ExpensesView.swift:101-125 | for any day, the grouping lists exactly the input's expenses of that day |
| Filtering.Narrow | ExpenseTrackerApp/View/ExpensesView.swift:88-92 | a bucket cut down to its passing expenses, with its date kept; specified through `Filtering.KeepInBucketsFromSource` |
| Filtering.KeepInBuckets | ExpenseTrackerApp/View/ExpensesView.swift:88-93 | the `compactMap` of `filterExpenses` for any element test; specified by the `Filtering.KeepInBuckets…` lemmas below |
| Filtering.FilterByTitle | ExpenseTrackerApp/View/ExpensesView.swift:85-99 | `filterExpenses`; specified by the `Filtering.FilterByTitle…` lemmas below |
| Filtering.KeepInBucketsFlatten | ExpenseTrackerApp/View/ExpensesView.swift:88-93 | narrowing buckets lists exactly the listed expenses that pass, in listing order |
| Filtering.KeepInBucketsAppend | ExpenseTrackerApp/View/ExpensesView.swift:88-93 | bucket order is preserved |
| Filtering.KeepInBucketsFromSource | ExpenseTrackerApp/View/ExpensesView.swift:88-92 | each result bucket is a source bucket narrowed, with its date, and is never empty |
| Filtering.KeepInBucketsComplete | ExpenseTrackerApp/View/ExpensesView.swift:88-92 | each source bucket with a passing expense appears narrowed |
| Filtering.KeepInBucketsWellFormed | ExpenseTrackerApp/View/ExpensesView.swift:88-93 | narrowing keeps a grouping well formed |
| Filtering.KeepInBucketsIdempotent | ExpenseTrackerApp/View/ExpensesView.swift:88-92 | narrowing twice with one test is narrowing once |
| Filtering.FilterByTitleExact | ExpenseTrackerApp/View/ExpensesView.swift:87-93 | the search lists exactly the expenses whose lowercased title contains the lowercased query, in order |
| Filtering.FilterByTitleFromSource | ExpenseTrackerApp/View/ExpensesView.swift:88-92 | every shown section is a full-grouping section with the same date, narrowed to its matches, never empty |
| Filtering.FilterByTitleComplete | ExpenseTrackerApp/View/ExpensesView.swift:88-92 | every section with a match is shown, narrowed |
| Filtering.FilterByTitleWellFormed | ExpenseTrackerApp/View/ExpensesView.swift:88-93 | searching a well-formed grouping gives a well-formed grouping |
| Filtering.FilterByTitleIdempotent | ExpenseTrackerApp/View/ExpensesView.swift:85-99 | searching the search result again with the same text changes nothing |
| Filtering.KeepInBucketsOfGrouping | ExpenseTrackerApp/View/ExpensesView.swift:88-93 | narrowing the grouping of a list equals grouping the narrowed list |
| Filtering.FilterByTitleOfGrouping | ExpenseTrackerApp/View/ExpensesView.swift:85-99 | searching the grouping equals grouping the matching expenses |
| Deletion.RemoveExpense | ExpenseTrackerApp/View/ExpensesView.swift:32-36 | the swipe's edit of the shown list; specified by the `Deletion.RemoveExpense…` lemmas below |
| Deletion.PurgeExpense | ExpenseTrackerApp/View/ExpensesView.swift:29-37 | the corrected delete's edit of a list; specified by `Deletion.PurgeExpenseGone` and `Deletion.RemoveIsPurge` |
| Deletion.RemoveExpenseChanges | ExpenseTrackerApp/View/ExpensesView.swift:32-36 | only the swiped bucket changes; it is removed exactly when every expense in it has that id; otherwise it keeps its date and loses exactly that id |
| Deletion.RemoveExpenseFlatten | ExpenseTrackerApp/View/ExpensesView.swift:32-36 | the list afterwards is the list before minus that id in the swiped bucket |
| Deletion.RemoveExpenseShrinks | ExpenseTrackerApp/View/ExpensesView.swift:32-36 | deleting never adds anything to the list |
| Deletion.RemoveExpenseGone | ExpenseTrackerApp/View/ExpensesView.swift:32-33 | in a well-formed list the swiped expense is shown nowhere afterwards |
| Deletion.RemoveExpenseWellFormed | ExpenseTrackerApp/View/ExpensesView.swift:32-36 | deleting keeps the list well formed |
| Deletion.RemoveExpenseAbsent | ExpenseTrackerApp/View/ExpensesView.swift:32-33 | deleting an id the bucket lacks changes nothing |
| Deletion.PurgeExpenseGone | ExpenseTrackerApp/View/ExpensesView.swift:29-37 | the corrected delete lists all else in order, never the id, and keeps well-formedness |
| Deletion.RemoveIsPurge | ExpenseTrackerApp/View/ExpensesView.swift:32-36 | when only the swiped bucket holds the id, the swipe and the corrected delete agree |
| ExpensesView.ExpensesScreen.constructor | ExpenseTrackerApp/View/ExpensesView.swift:66-77 | the initial handler runs show the grouping of the stored expenses, in step with the store |
| ExpensesView.ExpensesScreen.CreateGroupedExpenses | ExpenseTrackerApp/View/ExpensesView.swift:101-125 | both lists become the day grouping of the given expenses |
| ExpensesView.ExpensesScreen.FilterExpenses | ExpenseTrackerApp/View/ExpensesView.swift:85-99 | the screen becomes the search of the full grouping; the full grouping is not touched |
| ExpensesView.ExpensesScreen.SearchTextChanged | ExpenseTrackerApp/View/ExpensesView.swift:66-72 | run on a changed text: empty text restores the full grouping; other text searches the full grouping, never the shown list |
| ExpensesView.ExpensesScreen.StoreChanged | ExpenseTrackerApp/View/ExpensesView.swift:73-77 | run on changed store contents: regroups exactly when the list grew, the screen is empty or the Categories tab is selected; otherwise nothing else changes |
| ExpensesView.ExpensesScreen.DeleteExpense | ExpenseTrackerApp/View/ExpensesView.swift:29-37 | the store loses the expense and the screen loses it from its bucket; the full grouping stays as it was unless the store changed and the screen is left empty or the Categories tab is selected, in which case both lists become the grouping of the store |
| ExpensesView.ExpensesScreen.PurgeLists | ExpenseTrackerApp/View/ExpensesView.swift:29-37 | both lists lose the id and stay valid |
| ExpensesView.ExpensesScreen.DeleteExpenseEverywhere | ExpenseTrackerApp/View/ExpensesView.swift:29-37 | corrected delete: the store and both lists lose the expense, and the full grouping stays the grouping of the store |
| ExpensesView.ExpensesScreen.DeleteThenSearch | ExpenseTrackerApp/View/ExpensesView.swift:29-37 | as written, a swipe and then a change of the search text to one that matches, or clearing it, show an expense the store no longer holds |
| ExpensesView.ShownIsStored | ExpenseTrackerApp/View/ExpensesView.swift:29-37 | while the full grouping is the grouping of the store, a shown expense is stored, so deleting it changes the store |
| ExpensesView.PurgeBoth | ExpenseTrackerApp/View/ExpensesView.swift:29-37 | purging both lists keeps them well formed and the shown one within the full one |
| ExpensesView.DeletedExpenseReturns | ExpenseTrackerApp/View/ExpensesView.swift:29-37 | as written, when the swipe leaves the screen non-empty (so that off the Categories tab the store handler does not regroup), the swiped expense leaves the store and the screen, yet a matching search still shows it |
| ExpensesView.PurgedExpenseStaysGone | ExpenseTrackerApp/View/ExpensesView.swift:29-37 | corrected: the purged full grouping is the grouping of the store, and no search shows the deleted id |
| ExpensesView.GroupingShowsOnlyStored | ExpenseTrackerApp/View/ExpensesView.swift:85-99 | a search of the grouping of the store shows only stored expenses |
| Scenarios.GroupingExample | ExpenseTrackerApp/View/ExpensesView.swift:101-125 | Coffee and Lunch on one day, Rent the day before: two buckets, the later day first |
| Scenarios.SwipeCoffee | ExpenseTrackerApp/View/ExpensesView.swift:32-36 | swiping Coffee leaves Lunch and Rent |
| Scenarios.CofMatches | ExpenseTrackerApp/View/ExpensesView.swift:87-88 | "cof" matches "Coffee" and neither "Lunch" nor "Rent" |
| Scenarios.SearchFindsCoffee | ExpenseTrackerApp/View/ExpensesView.swift:85-99 | searching "cof" in the untouched full grouping shows Coffee |
| Scenarios.SwipeFacts | ExpenseTrackerApp/View/ExpensesView.swift:29-37 | for Coffee, Lunch and Rent: Coffee heads the first bucket, deleting it changes the store, the swipe leaves the screen non-empty, and "cof" finds Coffee in the full grouping |
| Scenarios.SwipeThenSearch | ExpenseTrackerApp/View/ExpensesView.swift:29-37 | the screen appears with Coffee, Lunch and Rent, Coffee is swiped away on the Expenses tab and "cof" is typed: the screen shows Coffee, which the store no longer holds |
| Scenarios.PurgeCoffee | ExpenseTrackerApp/View/ExpensesView.swift:29-37 | the corrected delete of Coffee leaves the grouping of Lunch and Rent |
| Scenarios.SearchAfterPurge | ExpenseTrackerApp/View/ExpensesView.swift:85-99 | after the corrected delete, searching "cof" shows nothing |

## Left out

- Rendering: the SwiftUI layout, the toolbar, the empty-state overlay and the add-expense sheet. They hold no logic.
- Concurrency: `Task.detached` and `MainActor.run`. Each handler is modelled as one atomic step, so the race between a grouping and a search still in flight is not modelled.
- Persistence: the store is the `allExpenses` field. The query's date-descending sort and the category cascade are not modelled. `context.delete` is modelled as removing the expense by identity, since identities are unique in the store.
- The other files: `currencyString`, the category record and the app entry point are not part of this model.
- DayOf: calendar, time zone and locale are abstracted as whole days of 86400 seconds since the epoch. Also left out:
  - the `?? .init()` fallback when a date cannot be rebuilt from its components;
  - the date formatter, which is the `formatDate` parameter of `GroupTitle`;
  - the clock, which is its `now` parameter.
- Lowercased: maps ASCII capitals only. Unicode case mapping is not modelled.
- Contains: compares code points one by one. Swift's `String.contains` compares Characters under canonical equivalence, so a precomposed "é" in the query matches "e" followed by U+0301 in Swift but not in the model.
- `GroupedExpenses.id`: this is a fresh UUID per bucket, so the model drops it. A bucket is addressed by its position. This is faithful because every bucket on screen has its own UUID.
- Dictionary order: `Dictionary(grouping:)` has no defined key order. The model adds keys in order of first appearance. The sort then fixes the order, because days are distinct.
- Swift's `sorted` is modelled as an insertion sort. With distinct keys, every correct sort gives the same result.
- The "when a search text is active" case of regrouping: the model publishes the full grouping, as the code does. No corrected version is given.

## Findings

| source | as written | input that shows it | evidently intended | confidence | as-written member | corrected member |
|---|---|---|---|---|---|---|
| ExpenseTrackerApp/View/ExpensesView.swift:29-37 | the swipe removes the expense from the shown `groupedExpenses` only; `originalGroupedExpenses` still holds it, so the next search, or clearing the search, shows it again, though the store no longer has it | Coffee and Lunch on one day, Rent on the day before; swipe Coffee away on the Expenses tab, then type "cof" | the deleted expense is removed from the full grouping too, so the full grouping stays the grouping of the store | not executed; proved on the model through the screen's handlers (`Scenarios.SwipeThenSearch`) | ExpensesView.DeletedExpenseReturns | ExpensesView.ExpensesScreen.DeleteExpenseEverywhere |
