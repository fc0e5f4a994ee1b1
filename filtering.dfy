/** `filterExpenses`: narrow every bucket to the expenses whose lowercased
    title contains the lowercased query, and drop the buckets left empty. */
module Filtering {
  import opened Expenses
  import opened Groups
  import opened Grouping

  /** A bucket cut down to the expenses that pass `c`; its date is kept. */
  function Narrow(g: GroupedExpenses, c: Criterion): GroupedExpenses
  {
    GroupedExpenses(g.date, Keep(g.expenses, c))
  }

  /** The `compactMap` of `filterExpenses`, for any element test: every
      bucket narrowed, the empty ones dropped. */
  function KeepInBuckets(gs: seq<GroupedExpenses>, c: Criterion): seq<GroupedExpenses>
  {
    if gs == [] then []
    else
      var kept := Keep(gs[0].expenses, c);
      (if kept == [] then [] else [GroupedExpenses(gs[0].date, kept)]) + KeepInBuckets(gs[1..], c)
  }

  /** `filterExpenses(text)`: the buckets it publishes, computed from the
      last full grouping. */
  function FilterByTitle(groups: seq<GroupedExpenses>, text: string): seq<GroupedExpenses>
  {
    KeepInBuckets(groups, TitleContains(Lowercased(text)))
  }

  lemma KeepInBucketsCons(g: GroupedExpenses, gs: seq<GroupedExpenses>, c: Criterion)
    ensures KeepInBuckets([g] + gs, c)
         == (if Keep(g.expenses, c) == [] then [] else [Narrow(g, c)]) + KeepInBuckets(gs, c)
  {
    assert ([g] + gs)[0] == g && ([g] + gs)[1..] == gs;
  }

  /** Narrowing the buckets keeps exactly the passing expenses, in their
      order of display. */
  lemma {:induction false} KeepInBucketsFlatten(gs: seq<GroupedExpenses>, c: Criterion)
    ensures Flatten(KeepInBuckets(gs, c)) == Keep(Flatten(gs), c)
  {
    if gs != [] {
      KeepInBucketsFlatten(gs[1..], c);
      KeepAppend(gs[0].expenses, Flatten(gs[1..]), c);
      var rest := KeepInBuckets(gs[1..], c);
      assert gs == [gs[0]] + gs[1..];
      KeepInBucketsCons(gs[0], gs[1..], c);
      FlattenCons(gs[0], gs[1..]);
      if Keep(gs[0].expenses, c) != [] {
        FlattenCons(Narrow(gs[0], c), rest);
      } else {
        assert KeepInBuckets(gs, c) == rest;
      }
    }
  }

  /** Bucket order is kept: narrowing distributes over concatenation. */
  lemma {:induction false} KeepInBucketsAppend(a: seq<GroupedExpenses>, b: seq<GroupedExpenses>, c: Criterion)
    ensures KeepInBuckets(a + b, c) == KeepInBuckets(a, c) + KeepInBuckets(b, c)
  {
    if a == [] {
      assert a + b == b;
    } else {
      var a' := a[1..];
      assert a == [a[0]] + a' && a + b == [a[0]] + (a' + b);
      KeepInBucketsAppend(a', b, c);
      KeepInBucketsCons(a[0], a' + b, c);
      KeepInBucketsCons(a[0], a', c);
      var x := if Keep(a[0].expenses, c) == [] then [] else [Narrow(a[0], c)];
      ConcatAssociative(x, KeepInBuckets(a', c), KeepInBuckets(b, c));
    }
  }

  /** Every bucket of the result is a source bucket narrowed, with the
      source bucket's date; `i` is that source bucket. */
  lemma {:induction false} KeepInBucketsFromSource(gs: seq<GroupedExpenses>, c: Criterion, k: int) returns (i: int)
    requires 0 <= k < |KeepInBuckets(gs, c)|
    ensures 0 <= i < |gs| && KeepInBuckets(gs, c)[k] == Narrow(gs[i], c)
    ensures KeepInBuckets(gs, c)[k].expenses != []
  {
    var n := if Keep(gs[0].expenses, c) == [] then 0 else 1;
    if k < n {
      i := 0;
    } else {
      var j := KeepInBucketsFromSource(gs[1..], c, k - n);
      i := j + 1;
    }
  }

  /** Every source bucket that still has a passing expense appears, narrowed. */
  lemma {:induction false} KeepInBucketsComplete(gs: seq<GroupedExpenses>, c: Criterion, i: int)
    requires 0 <= i < |gs|
    requires Keep(gs[i].expenses, c) != []
    ensures Narrow(gs[i], c) in KeepInBuckets(gs, c)
  {
    var rest := KeepInBuckets(gs[1..], c);
    var head := if Keep(gs[0].expenses, c) == [] then [] else [Narrow(gs[0], c)];
    assert KeepInBuckets(gs, c) == head + rest;
    if i > 0 {
      KeepInBucketsComplete(gs[1..], c, i - 1);
      assert gs[1..][i - 1] == gs[i];
    }
  }

  /** Narrowing a well-formed list of buckets gives a well-formed list. */
  lemma {:induction false} KeepInBucketsWellFormed(gs: seq<GroupedExpenses>, c: Criterion)
    requires WellFormed(gs)
    ensures WellFormed(KeepInBuckets(gs, c))
  {
    if gs != [] {
      WellFormedTail(gs);
      KeepInBucketsWellFormed(gs[1..], c);
      var rest := KeepInBuckets(gs[1..], c);
      assert gs == [gs[0]] + gs[1..];
      KeepInBucketsCons(gs[0], gs[1..], c);
      if Keep(gs[0].expenses, c) != [] {
        assert IsBucket(gs[0]);
        forall k | 0 <= k < |rest| ensures DayOf(rest[k].date) < DayOf(gs[0].date) {
          var i := KeepInBucketsFromSource(gs[1..], c, k);
          assert rest[k].date == gs[1..][i].date == gs[i + 1].date;
        }
        WellFormedCons(Narrow(gs[0], c), rest);
      }
    }
  }

  /** Narrowing twice with the same test is narrowing once. */
  lemma {:induction false} KeepInBucketsIdempotent(gs: seq<GroupedExpenses>, c: Criterion)
    ensures KeepInBuckets(KeepInBuckets(gs, c), c) == KeepInBuckets(gs, c)
  {
    if gs != [] {
      KeepInBucketsIdempotent(gs[1..], c);
      var rest := KeepInBuckets(gs[1..], c);
      var kept := Keep(gs[0].expenses, c);
      assert gs == [gs[0]] + gs[1..];
      KeepInBucketsCons(gs[0], gs[1..], c);
      if kept != [] {
        KeepIdempotent(gs[0].expenses, c);
        KeepInBucketsCons(Narrow(gs[0], c), rest, c);
        assert Narrow(Narrow(gs[0], c), c) == Narrow(gs[0], c);
      } else {
        assert KeepInBuckets(gs, c) == rest;
      }
    }
  }

  /** The search shows exactly the expenses whose lowercased title contains
      the lowercased query, in the order they were shown before. */
  lemma FilterByTitleExact(groups: seq<GroupedExpenses>, text: string)
    ensures Flatten(FilterByTitle(groups, text)) == Keep(Flatten(groups), TitleContains(Lowercased(text)))
    ensures forall x :: x in Flatten(FilterByTitle(groups, text)) <==>
      x in Flatten(groups) && Contains(Lowercased(x.title), Lowercased(text))
  {
    KeepInBucketsFlatten(groups, TitleContains(Lowercased(text)));
  }

  /** Every section the search shows is a section of the full grouping, with
      the same date, narrowed to its matching expenses; none is empty. */
  lemma FilterByTitleFromSource(groups: seq<GroupedExpenses>, text: string, k: int) returns (i: int)
    requires 0 <= k < |FilterByTitle(groups, text)|
    ensures FilterByTitle(groups, text)[k].expenses != []
    ensures 0 <= i < |groups|
    ensures FilterByTitle(groups, text)[k].date == groups[i].date
    ensures FilterByTitle(groups, text)[k].expenses == Keep(groups[i].expenses, TitleContains(Lowercased(text)))
  {
    i := KeepInBucketsFromSource(groups, TitleContains(Lowercased(text)), k);
  }

  /** Every section of the full grouping with a matching expense is shown,
      narrowed to those expenses. */
  lemma FilterByTitleComplete(groups: seq<GroupedExpenses>, text: string, i: int)
    requires 0 <= i < |groups|
    requires exists x :: x in groups[i].expenses && Contains(Lowercased(x.title), Lowercased(text))
    ensures GroupedExpenses(groups[i].date, Keep(groups[i].expenses, TitleContains(Lowercased(text))))
         in FilterByTitle(groups, text)
  {
    var c := TitleContains(Lowercased(text));
    var x :| x in groups[i].expenses && Contains(Lowercased(x.title), Lowercased(text));
    assert x in Keep(groups[i].expenses, c);
    KeepInBucketsComplete(groups, c, i);
  }

  /** Filtering a well-formed grouping gives a well-formed grouping: the
      surviving sections keep their newest-first order. */
  lemma FilterByTitleWellFormed(groups: seq<GroupedExpenses>, text: string)
    requires WellFormed(groups)
    ensures WellFormed(FilterByTitle(groups, text))
  {
    KeepInBucketsWellFormed(groups, TitleContains(Lowercased(text)));
  }

  /** Filtering the filtered list again with the same text changes nothing. */
  lemma FilterByTitleIdempotent(groups: seq<GroupedExpenses>, text: string)
    ensures FilterByTitle(FilterByTitle(groups, text), text) == FilterByTitle(groups, text)
  {
    KeepInBucketsIdempotent(groups, TitleContains(Lowercased(text)));
  }

  /** Narrowing the grouping of a list is grouping the narrowed list. */
  lemma KeepInBucketsOfGrouping(xs: seq<Expense>, c: Criterion)
    ensures KeepInBuckets(GroupByDay(xs), c) == GroupByDay(Keep(xs, c))
  {
    var gs := GroupByDay(xs);
    var a, b := KeepInBuckets(gs, c), GroupByDay(Keep(xs, c));
    GroupByDayWellFormed(xs);
    GroupByDayWellFormed(Keep(xs, c));
    KeepInBucketsWellFormed(gs, c);
    KeepInBucketsFlatten(gs, c);
    forall d ensures Keep(Flatten(a), OnDay(d)) == Keep(Flatten(b), OnDay(d)) {
      calc {
        Keep(Flatten(a), OnDay(d));
        Keep(Keep(Flatten(gs), c), OnDay(d));
        { KeepCommutes(Flatten(gs), c, OnDay(d)); }
        Keep(Keep(Flatten(gs), OnDay(d)), c);
        { GroupByDayOnDay(xs, d); }
        Keep(Keep(xs, OnDay(d)), c);
        { KeepCommutes(xs, OnDay(d), c); }
        Keep(Keep(xs, c), OnDay(d));
        { GroupByDayOnDay(Keep(xs, c), d); }
        Keep(Flatten(b), OnDay(d));
      }
    }
    WellFormedUnique(a, b);
  }

  /** Searching the grouped list gives the grouping of the matching
      expenses: the same sections, newest first, that grouping only the
      matches would give. */
  lemma FilterByTitleOfGrouping(xs: seq<Expense>, text: string)
    ensures FilterByTitle(GroupByDay(xs), text) == GroupByDay(Keep(xs, TitleContains(Lowercased(text))))
  {
    KeepInBucketsOfGrouping(xs, TitleContains(Lowercased(text)));
  }
}
