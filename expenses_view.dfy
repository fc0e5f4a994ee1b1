/** The state of the expenses screen and its event handlers: the store's
    expenses as the query delivers them, the two grouped lists the view
    keeps, and the search text. */
module ExpensesView {
  import opened Expenses
  import opened Groups
  import opened Grouping
  import opened Filtering
  import opened Deletion

  class ExpensesScreen {
    /** The expenses the store query last delivered. */
    var allExpenses: seq<Expense>
    /** The buckets on screen. */
    var groupedExpenses: seq<GroupedExpenses>
    /** The last full grouping, which every search reads. */
    var originalGroupedExpenses: seq<GroupedExpenses>
    var searchText: string

    /** What every handler keeps: both lists are newest-first day buckets,
        and the screen shows nothing the last full grouping does not hold. */
    ghost predicate Valid()
      reads this
    {
      && WellFormed(groupedExpenses)
      && WellFormed(originalGroupedExpenses)
      && multiset(Flatten(groupedExpenses)) <= multiset(Flatten(originalGroupedExpenses))
    }

    /** The full grouping is the grouping of what the store holds. */
    ghost predicate Synced()
      reads this
    {
      originalGroupedExpenses == GroupByDay(allExpenses)
    }

    /** The screen appears: both `onChange` handlers run once (`initial:
        true`); the empty search text shows the (empty) full grouping, and
        the empty screen then triggers the first grouping. */
    constructor(stored: seq<Expense>)
      ensures Valid() && Synced()
      ensures allExpenses == stored && searchText == []
      ensures groupedExpenses == GroupByDay(stored) && originalGroupedExpenses == groupedExpenses
    {
      allExpenses := stored;
      searchText := [];
      originalGroupedExpenses := GroupByDay(stored);
      groupedExpenses := originalGroupedExpenses;
      new;
      GroupByDayWellFormed(stored);
    }

    /** `createGroupedExpenses`: group the expenses by day, newest day
        first, and publish the result as both lists. */
    method CreateGroupedExpenses(expenses: seq<Expense>)
      modifies this`groupedExpenses, this`originalGroupedExpenses
      ensures Valid()
      ensures groupedExpenses == GroupByDay(expenses)
      ensures originalGroupedExpenses == groupedExpenses
    {
      GroupByDayWellFormed(expenses);
      groupedExpenses := GroupByDay(expenses);
      originalGroupedExpenses := groupedExpenses;
    }

    /** `filterExpenses`: show the full grouping narrowed to the titles
        that contain the text, whatever the screen showed before. */
    method FilterExpenses(text: string)
      requires Valid()
      modifies this`groupedExpenses
      ensures Valid()
      ensures groupedExpenses == FilterByTitle(originalGroupedExpenses, text)
    {
      var c := TitleContains(Lowercased(text));
      FilterByTitleWellFormed(originalGroupedExpenses, text);
      KeepInBucketsFlatten(originalGroupedExpenses, c);
      KeepShrinks(Flatten(originalGroupedExpenses), c);
      groupedExpenses := FilterByTitle(originalGroupedExpenses, text);
    }

    /** The `onChange(of: searchText)` handler, which runs only when the
        search text actually changes. */
    method SearchTextChanged(newText: string)
      requires Valid()
      requires newText != searchText
      modifies this`searchText, this`groupedExpenses
      ensures Valid()
      ensures searchText == newText
      ensures newText == [] ==> groupedExpenses == originalGroupedExpenses
      ensures newText != [] ==> groupedExpenses == FilterByTitle(originalGroupedExpenses, newText)
    {
      searchText := newText;
      if newText != [] {
        FilterExpenses(newText);
      } else {
        groupedExpenses := originalGroupedExpenses;
      }
    }

    /** The store query delivers a `newValue` different from the last one,
        and the `onChange(of: allExpenses)` handler regroups when the list
        grew, when the screen is empty, or when the Categories tab is
        selected. */
    method StoreChanged(newValue: seq<Expense>, currentTab: string)
      requires Valid()
      requires newValue != allExpenses
      modifies this`allExpenses, this`groupedExpenses, this`originalGroupedExpenses
      ensures Valid()
      ensures allExpenses == newValue
      ensures if |newValue| > |old(allExpenses)| || old(groupedExpenses) == [] || currentTab == "Categories"
        then groupedExpenses == GroupByDay(newValue) && originalGroupedExpenses == groupedExpenses
        else groupedExpenses == old(groupedExpenses) && originalGroupedExpenses == old(originalGroupedExpenses)
    {
      var oldValue := allExpenses;
      allExpenses := newValue;
      if |newValue| > |oldValue| || groupedExpenses == [] || currentTab == "Categories" {
        CreateGroupedExpenses(newValue);
      }
    }

    /** The swipe action on expense `k` of bucket `g`: the store deletes
        it, the bucket loses it (and is dropped once empty), and then, if
        the store's contents changed, they reach the `allExpenses` handler.
        Only the list on screen is edited; the full grouping is left as it
        was unless that handler regroups. */
    method DeleteExpense(g: nat, k: nat, currentTab: string)
      requires Valid()
      requires g < |groupedExpenses| && k < |groupedExpenses[g].expenses|
      modifies this`allExpenses, this`groupedExpenses, this`originalGroupedExpenses
      ensures Valid()
      ensures var id := old(groupedExpenses[g].expenses[k].id);
        var remaining := Keep(old(allExpenses), IdIsNot(id));
        var removed := RemoveExpense(old(groupedExpenses), g, id);
        && allExpenses == remaining
        && if remaining != old(allExpenses) && (removed == [] || currentTab == "Categories")
           then groupedExpenses == GroupByDay(allExpenses) && originalGroupedExpenses == groupedExpenses
           else groupedExpenses == removed && originalGroupedExpenses == old(originalGroupedExpenses)
    {
      var id := groupedExpenses[g].expenses[k].id;
      var remaining := Keep(allExpenses, IdIsNot(id));
      RemoveExpenseWellFormed(groupedExpenses, g, id);
      RemoveExpenseShrinks(groupedExpenses, g, id);
      groupedExpenses := RemoveExpense(groupedExpenses, g, id);
      if remaining != allExpenses {
        StoreChanged(remaining, currentTab);
      }
    }

    /** The delete as intended: the expense leaves the store, the screen
        and the full grouping alike, so no later search can bring it back. */
    method DeleteExpenseEverywhere(g: nat, k: nat, currentTab: string)
      requires Valid() && Synced()
      requires g < |groupedExpenses| && k < |groupedExpenses[g].expenses|
      modifies this`allExpenses, this`groupedExpenses, this`originalGroupedExpenses
      ensures Valid() && Synced()
      ensures var id := old(groupedExpenses[g].expenses[k].id);
        && allExpenses == Keep(old(allExpenses), IdIsNot(id))
        && (forall x :: x in Flatten(groupedExpenses) ==> x.id != id)
      ensures var shown := PurgeExpense(old(groupedExpenses), old(groupedExpenses[g].expenses[k].id));
        groupedExpenses == if currentTab == "Categories" || shown == [] then originalGroupedExpenses else shown
    {
      var id := groupedExpenses[g].expenses[k].id;
      var remaining := Keep(allExpenses, IdIsNot(id));
      ShownIsStored(allExpenses, groupedExpenses, g, k);
      KeepInBucketsOfGrouping(allExpenses, IdIsNot(id));
      PurgeLists(id);
      StoreChanged(remaining, currentTab);
    }

    /** Both lists lose every expense with that id. */
    method PurgeLists(id: nat)
      requires Valid()
      modifies this`groupedExpenses, this`originalGroupedExpenses
      ensures Valid()
      ensures groupedExpenses == PurgeExpense(old(groupedExpenses), id)
      ensures originalGroupedExpenses == PurgeExpense(old(originalGroupedExpenses), id)
      ensures forall x :: x in Flatten(groupedExpenses) ==> x.id != id
      ensures forall x :: x in Flatten(originalGroupedExpenses) ==> x.id != id
    {
      var shown, full := PurgeExpense(groupedExpenses, id), PurgeExpense(originalGroupedExpenses, id);
      PurgeBoth(groupedExpenses, originalGroupedExpenses, id);
      groupedExpenses, originalGroupedExpenses := shown, full;
    }

    /** As written, deleting and then searching shows the deleted expense
        again whenever the screen did not regroup: the search reads the
        full grouping, which still holds it, though the store does not. */
    method DeleteThenSearch(g: nat, k: nat, currentTab: string, text: string) returns (e: Expense)
      requires Valid()
      requires g < |groupedExpenses| && k < |groupedExpenses[g].expenses|
      requires RemoveExpense(groupedExpenses, g, groupedExpenses[g].expenses[k].id) != []
      requires currentTab != "Categories"
      requires text != searchText
      requires Contains(Lowercased(groupedExpenses[g].expenses[k].title), Lowercased(text))
      modifies this
      ensures e == old(groupedExpenses[g].expenses[k])
      ensures e !in allExpenses
      ensures e in Flatten(groupedExpenses)
    {
      e := groupedExpenses[g].expenses[k];
      ShownIsHeld(groupedExpenses, originalGroupedExpenses, g, k);
      DeleteExpense(g, k, currentTab);
      SearchTextChanged(text);
      FilterByTitleExact(originalGroupedExpenses, text);
    }
  }

  /** An expense on screen is held by the full grouping too. */
  lemma ShownIsHeld(shown: seq<GroupedExpenses>, full: seq<GroupedExpenses>, g: nat, k: nat)
    requires multiset(Flatten(shown)) <= multiset(Flatten(full))
    requires g < |shown| && k < |shown[g].expenses|
    ensures shown[g].expenses[k] in Flatten(full)
  {
    var e := shown[g].expenses[k];
    FlattenMember(shown, e);
    assert e in multiset(Flatten(shown));
  }

  /** When the full grouping is the grouping of the store, an expense on
      screen is stored, so deleting it changes what the store holds. */
  lemma ShownIsStored(all: seq<Expense>, shown: seq<GroupedExpenses>, g: nat, k: nat)
    requires multiset(Flatten(shown)) <= multiset(Flatten(GroupByDay(all)))
    requires g < |shown| && k < |shown[g].expenses|
    ensures shown[g].expenses[k] in all
    ensures Keep(all, IdIsNot(shown[g].expenses[k].id)) != all
  {
    var e := shown[g].expenses[k];
    ShownIsHeld(shown, GroupByDay(all), g, k);
    GroupByDayPartitions(all);
    assert e in multiset(Flatten(GroupByDay(all)));
    assert e !in Keep(all, IdIsNot(e.id));
  }

  /** Purging an id from the list on screen and from the full grouping
      keeps both well formed, and the first still within the second. */
  lemma PurgeBoth(shown: seq<GroupedExpenses>, full: seq<GroupedExpenses>, id: nat)
    requires WellFormed(shown) && WellFormed(full)
    requires multiset(Flatten(shown)) <= multiset(Flatten(full))
    ensures WellFormed(PurgeExpense(shown, id)) && WellFormed(PurgeExpense(full, id))
    ensures multiset(Flatten(PurgeExpense(shown, id))) <= multiset(Flatten(PurgeExpense(full, id)))
    ensures forall x :: x in Flatten(PurgeExpense(shown, id)) ==> x.id != id
    ensures forall x :: x in Flatten(PurgeExpense(full, id)) ==> x.id != id
  {
    PurgeExpenseGone(shown, id);
    PurgeExpenseGone(full, id);
    KeepMonotone(Flatten(shown), Flatten(full), IdIsNot(id));
  }

  /** As written: when the swipe leaves the screen non-empty (so that, off
      the Categories tab, the store handler does not regroup), the store and
      the screen no longer hold the expense, yet the full grouping the next
      search reads still does, so the search (or clearing it) shows the
      expense again. */
  lemma DeletedExpenseReturns(all: seq<Expense>, g: nat, k: nat, text: string)
    requires g < |GroupByDay(all)| && k < |GroupByDay(all)[g].expenses|
    requires RemoveExpense(GroupByDay(all), g, GroupByDay(all)[g].expenses[k].id) != []
    requires Contains(Lowercased(GroupByDay(all)[g].expenses[k].title), Lowercased(text))
    ensures var gs := GroupByDay(all);
      var e := gs[g].expenses[k];
      && e !in Keep(all, IdIsNot(e.id))
      && e !in Flatten(RemoveExpense(gs, g, e.id))
      && e in Flatten(FilterByTitle(gs, text))
      && e in Flatten(gs)
  {
    var gs := GroupByDay(all);
    var e := gs[g].expenses[k];
    GroupByDayWellFormed(all);
    RemoveExpenseGone(gs, g, e);
    FlattenMember(gs, e);
    FilterByTitleExact(gs, text);
  }

  /** Corrected: purging the expense from the full grouping gives the
      grouping of what the store then holds, so every search afterwards
      shows only stored expenses and never the deleted one. */
  lemma PurgedExpenseStaysGone(all: seq<Expense>, id: nat, text: string)
    ensures PurgeExpense(GroupByDay(all), id) == GroupByDay(Keep(all, IdIsNot(id)))
    ensures forall x :: x in Flatten(FilterByTitle(PurgeExpense(GroupByDay(all), id), text)) ==>
      x in Keep(all, IdIsNot(id)) && x.id != id
  {
    var remaining := Keep(all, IdIsNot(id));
    KeepInBucketsOfGrouping(all, IdIsNot(id));
    GroupingShowsOnlyStored(remaining, text);
  }

  /** Every expense a search of the full grouping shows is in the store. */
  lemma GroupingShowsOnlyStored(all: seq<Expense>, text: string)
    ensures forall x :: x in Flatten(FilterByTitle(GroupByDay(all), text)) ==> x in all
  {
    FilterByTitleExact(GroupByDay(all), text);
    GroupByDayPartitions(all);
    forall x | x in Flatten(GroupByDay(all)) ensures x in all {
      assert x in multiset(Flatten(GroupByDay(all)));
    }
  }
}
