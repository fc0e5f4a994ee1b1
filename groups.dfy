/** A day bucket of expenses (the `GroupedExpenses` record), its section
    title, and the shape that every list of buckets the view shows keeps. */
module Groups {
  import opened Expenses

  /** One section of the list: the day it stands for and its expenses.
      The record's UUID is not modelled; a bucket is addressed by position. */
  datatype GroupedExpenses = GroupedExpenses(date: int, expenses: seq<Expense>)

  /** `groupTitle`: "Today" for the current day, "Yesterday" for the day
      before, otherwise the formatted date. `now` is the clock reading and
      `formatDate` the date formatter, both outside the model. */
  function GroupTitle(g: GroupedExpenses, now: int, formatDate: int -> string): (title: string)
    ensures DayOf(g.date) == DayOf(now) ==> title == "Today"
    ensures DayOf(g.date) == DayOf(now) - 1 ==> title == "Yesterday"
    ensures DayOf(g.date) != DayOf(now) && DayOf(g.date) != DayOf(now) - 1 ==> title == formatDate(g.date)
  {
    if DayOf(g.date) == DayOf(now) then "Today"
    else if DayOf(g.date) == DayOf(now) - 1 then "Yesterday"
    else formatDate(g.date)
  }

  /** The title reads the bucket's date and nothing else of it. */
  lemma GroupTitleOnlyReadsDate(g: GroupedExpenses, h: GroupedExpenses, now: int, formatDate: int -> string)
    requires g.date == h.date
    ensures GroupTitle(g, now, formatDate) == GroupTitle(h, now, formatDate)
  {
  }

  /** Two buckets built for the same calendar day get the same title. */
  lemma GroupTitleByDay(g: GroupedExpenses, h: GroupedExpenses, now: int, formatDate: int -> string)
    requires IsBucket(g) && IsBucket(h)
    requires DayOf(g.date) == DayOf(h.date)
    ensures GroupTitle(g, now, formatDate) == GroupTitle(h, now, formatDate)
  {
  }

  /** Every expense of every bucket, bucket after bucket: what the list shows. */
  function Flatten(gs: seq<GroupedExpenses>): seq<Expense>
  {
    if gs == [] then [] else gs[0].expenses + Flatten(gs[1..])
  }

  /** An expense is shown exactly when some bucket holds it. */
  lemma {:induction false} FlattenMember(gs: seq<GroupedExpenses>, x: Expense)
    ensures x in Flatten(gs) <==> exists i :: 0 <= i < |gs| && x in gs[i].expenses
  {
    if gs != [] {
      FlattenMember(gs[1..], x);
      assert forall i :: 1 <= i < |gs| ==> gs[i] == gs[1..][i - 1];
      if x in Flatten(gs[1..]) {
        var i :| 0 <= i < |gs[1..]| && x in gs[1..][i].expenses;
        assert x in gs[i + 1].expenses;
      }
    }
  }

  lemma FlattenCons(g: GroupedExpenses, gs: seq<GroupedExpenses>)
    ensures Flatten([g] + gs) == g.expenses + Flatten(gs)
  {
    assert ([g] + gs)[1..] == gs;
  }

  lemma {:induction false} FlattenAppend(a: seq<GroupedExpenses>, b: seq<GroupedExpenses>)
    ensures Flatten(a + b) == Flatten(a) + Flatten(b)
  {
    if a == [] {
      assert a + b == b;
    } else {
      assert (a + b)[0] == a[0];
      assert (a + b)[1..] == a[1..] + b;
      FlattenAppend(a[1..], b);
    }
  }

  /** A bucket as the grouping builds it: not empty, dated at the start of
      its day, and holding only expenses of that day. */
  ghost predicate IsBucket(g: GroupedExpenses)
  {
    && g.expenses != []
    && g.date == StartOfDay(DayOf(g.date))
    && forall e :: e in g.expenses ==> DayOf(e.date) == DayOf(g.date)
  }

  /** Buckets strictly descending by day: newest first, no day twice. */
  ghost predicate DescendingDays(gs: seq<GroupedExpenses>)
  {
    forall i, j :: 0 <= i < j < |gs| ==> DayOf(gs[i].date) > DayOf(gs[j].date)
  }

  ghost predicate WellFormed(gs: seq<GroupedExpenses>)
  {
    (forall i :: 0 <= i < |gs| ==> IsBucket(gs[i])) && DescendingDays(gs)
  }

  /** A well-formed list stays well formed without its first bucket. */
  lemma WellFormedTail(gs: seq<GroupedExpenses>)
    requires WellFormed(gs) && gs != []
    ensures WellFormed(gs[1..])
  {
    assert forall i :: 0 <= i < |gs[1..]| ==> gs[1..][i] == gs[i + 1];
  }

  /** A bucket newer than every bucket of a well-formed list may head it. */
  lemma WellFormedCons(g: GroupedExpenses, gs: seq<GroupedExpenses>)
    requires IsBucket(g) && WellFormed(gs)
    requires forall k :: 0 <= k < |gs| ==> DayOf(gs[k].date) < DayOf(g.date)
    ensures WellFormed([g] + gs)
  {
    var r := [g] + gs;
    assert forall i :: 1 <= i < |r| ==> r[i] == gs[i - 1];
  }

  /** In a well-formed list an expense sits in at most one bucket. */
  lemma AtMostOneBucket(gs: seq<GroupedExpenses>, e: Expense, i: int, j: int)
    requires WellFormed(gs)
    requires 0 <= i < |gs| && 0 <= j < |gs|
    requires e in gs[i].expenses && e in gs[j].expenses
    ensures i == j
  {
    assert IsBucket(gs[i]) && IsBucket(gs[j]);
  }

  /** Dates, and not only days, descend strictly in a well-formed list. */
  lemma {:induction false} WellFormedDatesDescend(gs: seq<GroupedExpenses>, i: int, j: int)
    requires WellFormed(gs)
    requires 0 <= i < j < |gs|
    ensures gs[i].date > gs[j].date
  {
    assert IsBucket(gs[i]) && IsBucket(gs[j]);
    var di, dj := DayOf(gs[i].date), DayOf(gs[j].date);
    assert di > dj;
    assert gs[i].date == di * SecondsPerDay && gs[j].date == dj * SecondsPerDay;
  }

  /** In a well-formed list, the newest day shows exactly the first bucket. */
  lemma WellFormedDayOfFirst(gs: seq<GroupedExpenses>)
    requires WellFormed(gs) && gs != []
    ensures Keep(Flatten(gs), OnDay(DayOf(gs[0].date))) == gs[0].expenses
  {
    var d := DayOf(gs[0].date);
    KeepAppend(gs[0].expenses, Flatten(gs[1..]), OnDay(d));
    WellFormedTail(gs);
    assert IsBucket(gs[0]);
    KeepAll(gs[0].expenses, OnDay(d));
    WellFormedDayWithoutBucket(gs[1..], d);
  }

  /** In a well-formed list, the expenses shown for a bucket's day are
      exactly that bucket's. */
  lemma {:induction false} WellFormedDayOfBucket(gs: seq<GroupedExpenses>, i: int)
    requires WellFormed(gs) && 0 <= i < |gs|
    ensures Keep(Flatten(gs), OnDay(DayOf(gs[i].date))) == gs[i].expenses
  {
    if i == 0 {
      WellFormedDayOfFirst(gs);
    } else {
      var d := DayOf(gs[i].date);
      KeepAppend(gs[0].expenses, Flatten(gs[1..]), OnDay(d));
      WellFormedTail(gs);
      assert IsBucket(gs[0]);
      KeepNone(gs[0].expenses, OnDay(d));
      WellFormedDayOfBucket(gs[1..], i - 1);
    }
  }

  /** In a well-formed list, a day without a bucket shows no expenses. */
  lemma WellFormedDayWithoutBucket(gs: seq<GroupedExpenses>, d: int)
    requires WellFormed(gs)
    requires forall i :: 0 <= i < |gs| ==> DayOf(gs[i].date) != d
    ensures Keep(Flatten(gs), OnDay(d)) == []
  {
    forall x | x in Flatten(gs) ensures !Holds(OnDay(d), x) {
      FlattenMember(gs, x);
      var i :| 0 <= i < |gs| && x in gs[i].expenses;
      assert IsBucket(gs[i]);
    }
    KeepNone(Flatten(gs), OnDay(d));
  }

  /** A well-formed list shows nothing for a day newer than its first bucket. */
  lemma WellFormedNothingNewer(gs: seq<GroupedExpenses>, d: int)
    requires WellFormed(gs) && gs != [] && d > DayOf(gs[0].date)
    ensures Keep(Flatten(gs), OnDay(d)) == []
  {
    forall i | 0 <= i < |gs| ensures DayOf(gs[i].date) != d {
      if i > 0 {
        assert DayOf(gs[0].date) > DayOf(gs[i].date);
      }
    }
    WellFormedDayWithoutBucket(gs, d);
  }

  /** Two non-empty well-formed lists that agree on every day start with
      the same bucket. */
  lemma WellFormedSameFirst(a: seq<GroupedExpenses>, b: seq<GroupedExpenses>)
    requires WellFormed(a) && WellFormed(b) && a != [] && b != []
    requires forall d :: Keep(Flatten(a), OnDay(d)) == Keep(Flatten(b), OnDay(d))
    ensures a[0] == b[0]
  {
    var da, db := DayOf(a[0].date), DayOf(b[0].date);
    WellFormedDayOfFirst(a);
    WellFormedDayOfFirst(b);
    assert IsBucket(a[0]) && IsBucket(b[0]);
    if da < db {
      WellFormedNothingNewer(a, db);
      assert false;
    } else if db < da {
      WellFormedNothingNewer(b, da);
      assert false;
    }
    assert a[0].expenses == Keep(Flatten(b), OnDay(da)) == b[0].expenses;
  }

  /** Lists that agree on every day and share their first bucket agree on
      every day after it too. */
  lemma SameRestOnEveryDay(a: seq<GroupedExpenses>, b: seq<GroupedExpenses>)
    requires a != [] && b != [] && a[0] == b[0]
    requires forall d :: Keep(Flatten(a), OnDay(d)) == Keep(Flatten(b), OnDay(d))
    ensures forall d :: Keep(Flatten(a[1..]), OnDay(d)) == Keep(Flatten(b[1..]), OnDay(d))
  {
    forall d ensures Keep(Flatten(a[1..]), OnDay(d)) == Keep(Flatten(b[1..]), OnDay(d)) {
      KeepAppend(a[0].expenses, Flatten(a[1..]), OnDay(d));
      KeepAppend(b[0].expenses, Flatten(b[1..]), OnDay(d));
      var h := Keep(a[0].expenses, OnDay(d));
      assert (h + Keep(Flatten(a[1..]), OnDay(d)))[|h|..] == Keep(Flatten(a[1..]), OnDay(d));
      assert (h + Keep(Flatten(b[1..]), OnDay(d)))[|h|..] == Keep(Flatten(b[1..]), OnDay(d));
    }
  }

  /** A well-formed list is determined by what it shows for each day: two
      well-formed lists that agree on every day are equal. */
  lemma {:induction false} WellFormedUnique(a: seq<GroupedExpenses>, b: seq<GroupedExpenses>)
    requires WellFormed(a) && WellFormed(b)
    requires forall d :: Keep(Flatten(a), OnDay(d)) == Keep(Flatten(b), OnDay(d))
    ensures a == b
    decreases |a| + |b|
  {
    if a != [] && b != [] {
      WellFormedSameFirst(a, b);
      SameRestOnEveryDay(a, b);
      WellFormedTail(a);
      WellFormedTail(b);
      WellFormedUnique(a[1..], b[1..]);
      assert a == [a[0]] + a[1..] && b == [b[0]] + b[1..];
    } else if a != [] {
      assert IsBucket(a[0]);
      WellFormedDayOfFirst(a);
    } else if b != [] {
      assert IsBucket(b[0]);
      WellFormedDayOfFirst(b);
    }
  }
}
