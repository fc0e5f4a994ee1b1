/** Worked instances: the grouping of a small expense list, and the
    deleted expense that a search brings back. */
module Scenarios {
  import opened Expenses
  import opened Groups
  import opened Grouping
  import opened Filtering
  import opened Deletion
  import opened ExpensesView

  const Coffee := Expense(1, "Coffee", 2 * SecondsPerDay + 28800)
  const Lunch := Expense(2, "Lunch", 2 * SecondsPerDay + 43200)
  const Rent := Expense(3, "Rent", SecondsPerDay + 36000)

  /** Two expenses of one day and one of the day before: two buckets,
      the later day first, each dated at the start of its day. */
  lemma GroupingExample()
    ensures GroupByDay([Coffee, Lunch, Rent])
         == [GroupedExpenses(2 * SecondsPerDay, [Coffee, Lunch]), GroupedExpenses(SecondsPerDay, [Rent])]
  {
    var xs := [Coffee, Lunch, Rent];
    var b0, b1 := GroupedExpenses(2 * SecondsPerDay, [Coffee, Lunch]), GroupedExpenses(SecondsPerDay, [Rent]);
    var e := [b0, b1];
    assert IsBucket(b0) && IsBucket(b1);
    GroupByDayWellFormed(xs);
    FlattenCons(b0, [b1]);
    FlattenCons(b1, []);
    assert [b0] + [b1] == e && [b1] + [] == [b1];
    assert [Coffee, Lunch] + ([Rent] + []) == xs;
    forall d ensures Keep(Flatten(GroupByDay(xs)), OnDay(d)) == Keep(Flatten(e), OnDay(d)) {
      GroupByDayOnDay(xs, d);
    }
    WellFormedUnique(GroupByDay(xs), e);
  }

  /** Swiping Coffee away leaves Lunch and Rent on screen. */
  lemma SwipeCoffee()
    ensures RemoveExpense(GroupByDay([Coffee, Lunch, Rent]), 0, Coffee.id)
         == [GroupedExpenses(2 * SecondsPerDay, [Lunch]), GroupedExpenses(SecondsPerDay, [Rent])]
  {
    GroupingExample();
    DropCoffee();
  }

  lemma DropCoffee()
    ensures Keep([Coffee, Lunch], IdIsNot(Coffee.id)) == [Lunch]
  {
    var c := IdIsNot(Coffee.id);
    assert [Coffee, Lunch] == [Coffee] + [Lunch];
    KeepAppend([Coffee], [Lunch], c);
    KeepSingleton(Coffee, c);
    KeepSingleton(Lunch, c);
  }

  /** A text cannot contain a query whose first character it lacks at
      every position where the query could start. */
  lemma NotContains(s: string, q: string)
    requires q != []
    requires forall i :: 0 <= i <= |s| - |q| ==> s[i] != q[0]
    ensures !Contains(s, q)
  {
    forall i | 0 <= i <= |s| - |q| ensures !OccursAt(s, q, i) {
      assert s[i..i + |q|][0] == s[i];
    }
  }

  /** Which titles the query "cof" matches. */
  lemma CofMatches()
    ensures Holds(TitleContains(Lowercased("cof")), Coffee)
    ensures !Holds(TitleContains(Lowercased("cof")), Lunch)
    ensures !Holds(TitleContains(Lowercased("cof")), Rent)
  {
    var q, t := Lowercased("cof"), Lowercased(Coffee.title);
    assert q[0] == 'c';
    assert t[..3] == q;
    assert OccursAt(t, q, 0);
    NotContains(Lowercased("Lunch"), q);
    NotContains(Lowercased("Rent"), q);
  }

  /** Searching "cof" over the full grouping, which the swipe left as it
      was, shows Coffee again. */
  lemma SearchFindsCoffee()
    ensures FilterByTitle(GroupByDay([Coffee, Lunch, Rent]), "cof") == [GroupedExpenses(2 * SecondsPerDay, [Coffee])]
  {
    GroupingExample();
    var c := TitleContains(Lowercased("cof"));
    CofKeepsCoffee();
    var b0, b1 := GroupedExpenses(2 * SecondsPerDay, [Coffee, Lunch]), GroupedExpenses(SecondsPerDay, [Rent]);
    assert [b0, b1] == [b0] + [b1];
    KeepInBucketsCons(b0, [b1], c);
    KeepInBucketsSingle(b1, c);
  }

  lemma CofKeepsCoffee()
    ensures Keep([Coffee, Lunch], TitleContains(Lowercased("cof"))) == [Coffee]
    ensures Keep([Rent], TitleContains(Lowercased("cof"))) == []
  {
    CofMatches();
    var c := TitleContains(Lowercased("cof"));
    assert [Coffee, Lunch] == [Coffee] + [Lunch];
    KeepAppend([Coffee], [Lunch], c);
    KeepSingleton(Coffee, c);
    KeepSingleton(Lunch, c);
    KeepSingleton(Rent, c);
  }

  /** The corrected delete of Coffee leaves the grouping of Lunch and Rent. */
  lemma PurgeCoffee()
    ensures PurgeExpense(GroupByDay([Coffee, Lunch, Rent]), Coffee.id) == GroupByDay([Lunch, Rent])
  {
    var xs, ys := [Coffee, Lunch, Rent], [Lunch, Rent];
    var d := IdIsNot(Coffee.id);
    assert xs == [Coffee] + ys;
    KeepAppend([Coffee], ys, d);
    KeepSingleton(Coffee, d);
    KeepAll(ys, d);
    assert Keep(xs, d) == ys;
    KeepInBucketsOfGrouping(xs, d);
  }

  /** Neither Lunch nor Rent matches "cof". */
  lemma NoOtherMatch()
    ensures FilterByTitle(GroupByDay([Lunch, Rent]), "cof") == []
  {
    CofMatches();
    KeepNone([Lunch, Rent], TitleContains(Lowercased("cof")));
    FilterByTitleOfGrouping([Lunch, Rent], "cof");
    assert GroupByDay([]) == [];
  }

  /** With the corrected delete, the same search after swiping Coffee
      away finds nothing. */
  lemma SearchAfterPurge()
    ensures FilterByTitle(PurgeExpense(GroupByDay([Coffee, Lunch, Rent]), Coffee.id), "cof") == []
  {
    PurgeCoffee();
    NoOtherMatch();
  }

  /** The facts about the three-expense store that the screen scenario
      below relies on. */
  lemma SwipeFacts(xs: seq<Expense>)
    requires xs == [Coffee, Lunch, Rent]
    ensures |GroupByDay(xs)| == 2 && |GroupByDay(xs)[0].expenses| == 2
    ensures GroupByDay(xs)[0].expenses[0] == Coffee
    ensures Keep(xs, IdIsNot(Coffee.id)) != xs
    ensures RemoveExpense(GroupByDay(xs), 0, Coffee.id) != []
    ensures FilterByTitle(GroupByDay(xs), "cof") == [GroupedExpenses(2 * SecondsPerDay, [Coffee])]
  {
    GroupingExample();
    SwipeCoffee();
    SearchFindsCoffee();
    assert Coffee in xs;
  }

  /** The whole screen, as written: it appears with Coffee, Lunch and Rent
      stored (`xs`), Coffee is swiped away on the Expenses tab, and "cof"
      is typed. The store no longer holds Coffee, yet the screen shows it. */
  method SwipeThenSearch(xs: seq<Expense>) returns (shown: seq<GroupedExpenses>, stored: seq<Expense>)
    requires xs == [Coffee, Lunch, Rent]
    ensures shown == [GroupedExpenses(2 * SecondsPerDay, [Coffee])]
    ensures Coffee !in stored
  {
    SwipeFacts(xs);
    var s := new ExpensesScreen(xs);
    s.DeleteExpense(0, 0, "Expenses");
    s.SearchTextChanged("cof");
    shown, stored := s.groupedExpenses, s.allExpenses;
  }
}
