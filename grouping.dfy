/** `createGroupedExpenses`: key every expense by its calendar day, bucket
    them as `Dictionary(grouping:)` does, sort the buckets newest day first
    and turn every (key, values) pair into a `GroupedExpenses`. */
module Grouping {
  import opened Expenses
  import opened Groups

  /** One (key, values) pair of the dictionary: a day and its expenses. */
  datatype Entry = Entry(key: int, values: seq<Expense>)

  function Keys(es: seq<Entry>): (ks: seq<int>)
    ensures |ks| == |es| && forall i :: 0 <= i < |es| ==> ks[i] == es[i].key
  {
    if es == [] then [] else [es[0].key] + Keys(es[1..])
  }

  /** Every value of every entry, entry after entry. */
  function AllValues(es: seq<Entry>): seq<Expense>
  {
    if es == [] then [] else es[0].values + AllValues(es[1..])
  }

  /** A dictionary holds each key once. */
  ghost predicate DistinctKeys(es: seq<Entry>)
  {
    forall i, j :: 0 <= i < j < |es| ==> es[i].key != es[j].key
  }

  /** `Dictionary(grouping:)` meeting one more expense: the expense is
      appended to the values of its day, and a day not seen before becomes a
      new key at the end. */
  function AddTo(es: seq<Entry>, x: Expense): seq<Entry>
  {
    if es == [] then [Entry(DayOf(x.date), [x])]
    else if es[0].key == DayOf(x.date) then [Entry(es[0].key, es[0].values + [x])] + es[1..]
    else [es[0]] + AddTo(es[1..], x)
  }

  /** Adding an expense adds its day to the keys when the day is new and
      leaves the keys alone otherwise. */
  lemma {:induction false} AddToKeys(es: seq<Entry>, x: Expense)
    ensures Keys(AddTo(es, x)) == if DayOf(x.date) in Keys(es) then Keys(es) else Keys(es) + [DayOf(x.date)]
    ensures |AddTo(es, x)| == if DayOf(x.date) in Keys(es) then |es| else |es| + 1
  {
    var k := DayOf(x.date);
    if es == [] {
      assert Keys([Entry(k, [x])]) == [k];
    } else if es[0].key == k {
      var r := AddTo(es, x);
      assert r[1..] == es[1..];
      assert Keys(r) == [k] + Keys(es[1..]);
    } else {
      var t := AddTo(es[1..], x);
      AddToKeys(es[1..], x);
      assert (k in Keys(es)) == (k in Keys(es[1..]));
      var r := [es[0]] + t;
      assert r[1..] == t;
      assert Keys(r) == [es[0].key] + Keys(t);
      ConcatAssociative([es[0].key], Keys(es[1..]), [k]);
    }
  }

  /** Adding an expense keeps the keys distinct. */
  lemma AddToDistinct(es: seq<Entry>, x: Expense)
    requires DistinctKeys(es)
    ensures DistinctKeys(AddTo(es, x))
  {
    AddToKeys(es, x);
    var r := AddTo(es, x);
    var ks, ks' := Keys(es), Keys(r);
    forall i, j | 0 <= i < j < |r| ensures r[i].key != r[j].key {
      assert r[i].key == ks'[i] && r[j].key == ks'[j];
      if j < |es| {
        assert ks'[i] == ks[i] == es[i].key && ks'[j] == ks[j] == es[j].key;
      } else {
        assert ks'[j] == DayOf(x.date) && ks'[i] == ks[i];
      }
    }
  }

  /** With distinct keys, the expense lands at the end of its own day's
      values and every other entry is left as it was. */
  lemma {:induction false} AddToValues(es: seq<Entry>, x: Expense)
    requires DistinctKeys(es)
    ensures |AddTo(es, x)| >= |es|
    ensures forall i :: 0 <= i < |es| ==>
      AddTo(es, x)[i].values == es[i].values + (if es[i].key == DayOf(x.date) then [x] else [])
    ensures DayOf(x.date) !in Keys(es) ==> |AddTo(es, x)| > |es| && AddTo(es, x)[|es|].values == [x]
  {
    AddToKeys(es, x);
    if es != [] && es[0].key != DayOf(x.date) {
      AddToValues(es[1..], x);
      var t := AddTo(es[1..], x);
      assert AddTo(es, x) == [es[0]] + t;
      forall i | 1 <= i < |es| ensures es[i] == es[1..][i - 1] { }
      assert DayOf(x.date) in Keys(es[1..]) ==> DayOf(x.date) in Keys(es);
    }
  }

  /** Adding an expense adds it, once, to the dictionary's values. */
  lemma {:induction false} AddToMultiset(es: seq<Entry>, x: Expense)
    ensures multiset(AllValues(AddTo(es, x))) == multiset(AllValues(es)) + multiset{x}
  {
    if es == [] {
      assert AllValues([Entry(DayOf(x.date), [x])]) == [x] + AllValues([]);
    } else if es[0].key == DayOf(x.date) {
      var r := AddTo(es, x);
      assert r[1..] == es[1..];
      assert AllValues(r) == es[0].values + [x] + AllValues(es[1..]);
    } else {
      AddToMultiset(es[1..], x);
      var r := AddTo(es, x);
      assert r[1..] == AddTo(es[1..], x);
    }
  }

  /** The dictionary `Dictionary(grouping: xs)` builds, entries in the order
      their keys are first met. */
  function Build(xs: seq<Expense>): seq<Entry>
  {
    if xs == [] then [] else AddTo(Build(xs[..|xs| - 1]), xs[|xs| - 1])
  }

  /** Each key of the dictionary occurs once. */
  lemma {:induction false} BuildDistinct(xs: seq<Expense>)
    ensures DistinctKeys(Build(xs))
  {
    if xs != [] {
      BuildDistinct(xs[..|xs| - 1]);
      AddToDistinct(Build(xs[..|xs| - 1]), xs[|xs| - 1]);
    }
  }

  /** Every day of the input is a key of the dictionary. */
  lemma {:induction false} BuildCovers(xs: seq<Expense>)
    ensures forall x :: x in xs ==> DayOf(x.date) in Keys(Build(xs))
  {
    if xs != [] {
      var ys, x := xs[..|xs| - 1], xs[|xs| - 1];
      assert xs == ys + [x];
      BuildCovers(ys);
      AddToKeys(Build(ys), x);
    }
  }

  /** The dictionary's values are the input, each expense once. */
  lemma {:induction false} BuildMultiset(xs: seq<Expense>)
    ensures multiset(AllValues(Build(xs))) == multiset(xs)
  {
    if xs != [] {
      var ys, x := xs[..|xs| - 1], xs[|xs| - 1];
      assert xs == ys + [x];
      BuildMultiset(ys);
      AddToMultiset(Build(ys), x);
    }
  }

  /** One step of `BuildValues` for an entry that was already there. */
  lemma AddToOldEntry(prev: seq<Entry>, ys: seq<Expense>, x: Expense, i: int)
    requires DistinctKeys(prev)
    requires 0 <= i < |prev|
    requires prev[i].values == Keep(ys, OnDay(prev[i].key)) && prev[i].values != []
    ensures |AddTo(prev, x)| > i
    ensures AddTo(prev, x)[i].values == Keep(ys + [x], OnDay(AddTo(prev, x)[i].key))
    ensures AddTo(prev, x)[i].values != []
  {
    var es := AddTo(prev, x);
    AddToKeys(prev, x);
    AddToValues(prev, x);
    var d := prev[i].key;
    assert es[i].key == Keys(es)[i] == Keys(prev)[i] == d;
    KeepAppend(ys, [x], OnDay(d));
    KeepSingleton(x, OnDay(d));
  }

  /** One step of `BuildValues` for the entry a new day creates. */
  lemma AddToNewEntry(prev: seq<Entry>, ys: seq<Expense>, x: Expense)
    requires DistinctKeys(prev)
    requires forall y :: y in ys ==> DayOf(y.date) in Keys(prev)
    requires DayOf(x.date) !in Keys(prev)
    ensures |AddTo(prev, x)| == |prev| + 1
    ensures AddTo(prev, x)[|prev|].values == Keep(ys + [x], OnDay(AddTo(prev, x)[|prev|].key))
    ensures AddTo(prev, x)[|prev|].values != []
  {
    var es := AddTo(prev, x);
    var k := DayOf(x.date);
    AddToKeys(prev, x);
    AddToValues(prev, x);
    assert es[|prev|].key == Keys(es)[|prev|] == k;
    KeepAppend(ys, [x], OnDay(k));
    KeepSingleton(x, OnDay(k));
    KeepNone(ys, OnDay(k));
  }

  /** Each dictionary entry holds exactly the expenses of its day, in input
      order, and is not empty. */
  lemma {:induction false} BuildValuesAt(xs: seq<Expense>, i: int)
    requires 0 <= i < |Build(xs)|
    ensures Build(xs)[i].values == Keep(xs, OnDay(Build(xs)[i].key)) && Build(xs)[i].values != []
  {
    var ys, x := xs[..|xs| - 1], xs[|xs| - 1];
    assert xs == ys + [x];
    var prev := Build(ys);
    BuildDistinct(ys);
    if i < |prev| {
      BuildValuesAt(ys, i);
      AddToOldEntry(prev, ys, x, i);
    } else {
      AddToKeys(prev, x);
      BuildCovers(ys);
      AddToNewEntry(prev, ys, x);
    }
  }

  lemma BuildValues(xs: seq<Expense>)
    ensures forall i :: 0 <= i < |Build(xs)| ==>
      Build(xs)[i].values == Keep(xs, OnDay(Build(xs)[i].key)) && Build(xs)[i].values != []
  {
    forall i | 0 <= i < |Build(xs)|
      ensures Build(xs)[i].values == Keep(xs, OnDay(Build(xs)[i].key)) && Build(xs)[i].values != []
    {
      BuildValuesAt(xs, i);
    }
  }

  /** Entries strictly descending by key. */
  ghost predicate KeysDescending(es: seq<Entry>)
  {
    forall i, j :: 0 <= i < j < |es| ==> es[i].key > es[j].key
  }

  lemma AllValuesCons(e: Entry, es: seq<Entry>)
    ensures AllValues([e] + es) == e.values + AllValues(es)
  {
    assert ([e] + es)[1..] == es;
  }

  /** Places `e` in front of the first entry whose day is earlier. */
  function InsertDesc(e: Entry, es: seq<Entry>): seq<Entry>
  {
    if es == [] then [e]
    else if e.key > es[0].key then [e] + es
    else [es[0]] + InsertDesc(e, es[1..])
  }

  /** Inserting adds the entry and nothing else. */
  lemma {:induction false} InsertDescMultiset(e: Entry, es: seq<Entry>)
    ensures multiset(InsertDesc(e, es)) == multiset(es) + multiset{e}
  {
    if es != [] && e.key <= es[0].key {
      InsertDescMultiset(e, es[1..]);
      assert es == [es[0]] + es[1..];
    }
  }

  /** Inserting adds the entry's values and nothing else. */
  lemma {:induction false} InsertDescValues(e: Entry, es: seq<Entry>)
    ensures multiset(AllValues(InsertDesc(e, es))) == multiset(AllValues(es)) + multiset(e.values)
  {
    if es == [] {
      AllValuesCons(e, []);
    } else if e.key > es[0].key {
      AllValuesCons(e, es);
    } else {
      InsertDescValues(e, es[1..]);
      var t := InsertDesc(e, es[1..]);
      assert InsertDesc(e, es) == [es[0]] + t;
      assert es == [es[0]] + es[1..];
      AllValuesCons(es[0], t);
      AllValuesCons(es[0], es[1..]);
    }
  }

  /** Inserting an entry below a bound into entries below it stays below it. */
  lemma {:induction false} InsertDescBelow(e: Entry, es: seq<Entry>, m: int)
    requires e.key < m
    requires forall i :: 0 <= i < |es| ==> es[i].key < m
    ensures forall i :: 0 <= i < |InsertDesc(e, es)| ==> InsertDesc(e, es)[i].key < m
  {
    if es != [] && e.key <= es[0].key {
      InsertDescBelow(e, es[1..], m);
      var t := InsertDesc(e, es[1..]);
      assert InsertDesc(e, es) == [es[0]] + t;
    }
  }

  /** Inserting a new day into a strictly descending list keeps it so. */
  lemma {:induction false} InsertDescSorted(e: Entry, es: seq<Entry>)
    requires KeysDescending(es)
    requires forall i :: 0 <= i < |es| ==> es[i].key != e.key
    ensures KeysDescending(InsertDesc(e, es))
  {
    if es != [] && e.key <= es[0].key {
      var rest := es[1..];
      assert forall i :: 0 <= i < |rest| ==> rest[i] == es[i + 1];
      InsertDescSorted(e, rest);
      InsertDescBelow(e, rest, es[0].key);
      var t := InsertDesc(e, rest);
      var r := [es[0]] + t;
      assert InsertDesc(e, es) == r;
      forall i, j | 0 <= i < j < |r| ensures r[i].key > r[j].key {
        assert r[j] == t[j - 1];
        if i > 0 {
          assert r[i] == t[i - 1];
        }
      }
    }
  }

  /** The `sorted` call: an insertion sort, newest day first. */
  function SortDesc(es: seq<Entry>): seq<Entry>
  {
    if es == [] then [] else InsertDesc(es[0], SortDesc(es[1..]))
  }

  /** Sorting only reorders the entries. */
  lemma {:induction false} SortDescMultiset(es: seq<Entry>)
    ensures multiset(SortDesc(es)) == multiset(es)
  {
    if es != [] {
      SortDescMultiset(es[1..]);
      InsertDescMultiset(es[0], SortDesc(es[1..]));
      assert es == [es[0]] + es[1..];
    }
  }

  /** Sorting keeps every value, as often as it occurs. */
  lemma {:induction false} SortDescValues(es: seq<Entry>)
    ensures multiset(AllValues(SortDesc(es))) == multiset(AllValues(es))
  {
    if es != [] {
      SortDescValues(es[1..]);
      InsertDescValues(es[0], SortDesc(es[1..]));
      AllValuesCons(es[0], es[1..]);
      assert es == [es[0]] + es[1..];
    }
  }

  /** Sorting distinct days gives strictly descending days. */
  lemma {:induction false} SortDescSorted(es: seq<Entry>)
    requires DistinctKeys(es)
    ensures KeysDescending(SortDesc(es))
  {
    if es != [] {
      SortDescSorted(es[1..]);
      SortDescMultiset(es[1..]);
      var t := SortDesc(es[1..]);
      forall i | 0 <= i < |t| ensures t[i].key != es[0].key {
        assert t[i] in multiset(es[1..]);
        var j :| 0 <= j < |es[1..]| && es[1..][j] == t[i];
        assert es[j + 1] == t[i];
      }
      InsertDescSorted(es[0], t);
    }
  }

  /** The final `compactMap`: a bucket dated at the start of each key's day. */
  function ToBuckets(es: seq<Entry>): (gs: seq<GroupedExpenses>)
    ensures |gs| == |es|
    ensures forall i :: 0 <= i < |es| ==> gs[i] == GroupedExpenses(StartOfDay(es[i].key), es[i].values)
    ensures Flatten(gs) == AllValues(es)
  {
    if es == [] then []
    else
      var t := ToBuckets(es[1..]);
      var gs := [GroupedExpenses(StartOfDay(es[0].key), es[0].values)] + t;
      assert gs[1..] == t;
      gs
  }

  /** `createGroupedExpenses(expenses)`: the buckets it publishes. */
  function GroupByDay(xs: seq<Expense>): seq<GroupedExpenses>
  {
    ToBuckets(SortDesc(Build(xs)))
  }

  /** After sorting, each entry still holds exactly its day's expenses. */
  lemma SortedValues(xs: seq<Expense>)
    ensures var es := SortDesc(Build(xs));
      forall i :: 0 <= i < |es| ==> es[i].values == Keep(xs, OnDay(es[i].key)) && es[i].values != []
  {
    BuildValues(xs);
    var b := Build(xs);
    var es := SortDesc(b);
    SortDescMultiset(b);
    forall i | 0 <= i < |es|
      ensures es[i].values == Keep(xs, OnDay(es[i].key)) && es[i].values != []
    {
      assert es[i] in multiset(b);
      var j :| 0 <= j < |b| && b[j] == es[i];
    }
  }

  /** After sorting, every day of the input still has its entry. */
  lemma SortedCovers(xs: seq<Expense>)
    ensures forall x :: x in xs ==> DayOf(x.date) in Keys(SortDesc(Build(xs)))
  {
    BuildCovers(xs);
    var b := Build(xs);
    var es := SortDesc(b);
    SortDescMultiset(b);
    forall x | x in xs
      ensures DayOf(x.date) in Keys(es)
    {
      var j :| 0 <= j < |b| && Keys(b)[j] == DayOf(x.date);
      assert b[j] in multiset(es);
      var i :| 0 <= i < |es| && es[i] == b[j];
      assert Keys(es)[i] == DayOf(x.date);
    }
  }

  /** The sorted dictionary, with everything the buckets are built from. */
  lemma SortedEntries(xs: seq<Expense>)
    ensures var es := SortDesc(Build(xs));
      && KeysDescending(es)
      && (forall i :: 0 <= i < |es| ==> es[i].values == Keep(xs, OnDay(es[i].key)) && es[i].values != [])
      && (forall x :: x in xs ==> DayOf(x.date) in Keys(es))
      && multiset(AllValues(es)) == multiset(xs)
  {
    BuildDistinct(xs);
    BuildMultiset(xs);
    SortDescSorted(Build(xs));
    SortDescValues(Build(xs));
    SortedValues(xs);
    SortedCovers(xs);
  }

  /** Every bucket is non-empty, dated at the start of its day, holds only
      that day's expenses, and the buckets run strictly newest day first. */
  lemma GroupByDayWellFormed(xs: seq<Expense>)
    ensures WellFormed(GroupByDay(xs))
  {
    SortedEntries(xs);
    var es := SortDesc(Build(xs));
    var gs := GroupByDay(xs);
    forall i | 0 <= i < |gs| ensures IsBucket(gs[i]) && DayOf(gs[i].date) == es[i].key {
      assert gs[i].expenses == Keep(xs, OnDay(es[i].key));
    }
  }

  /** Each bucket holds exactly the input's expenses of its day, in the order
      they come in the input. */
  lemma GroupByDayContents(xs: seq<Expense>)
    ensures var gs := GroupByDay(xs);
      forall i :: 0 <= i < |gs| ==> gs[i].expenses == Keep(xs, OnDay(DayOf(gs[i].date)))
  {
    SortedEntries(xs);
  }

  /** Nothing is lost or duplicated: the buckets together hold the input,
      each expense as often as it occurs there. */
  lemma GroupByDayPartitions(xs: seq<Expense>)
    ensures multiset(Flatten(GroupByDay(xs))) == multiset(xs)
  {
    SortedEntries(xs);
  }

  /** Every expense of the input is in exactly one bucket. */
  lemma GroupByDayExactlyOneBucket(xs: seq<Expense>, x: Expense)
    requires x in xs
    ensures var gs := GroupByDay(xs);
      && (exists i :: 0 <= i < |gs| && x in gs[i].expenses)
      && (forall i, j :: 0 <= i < |gs| && 0 <= j < |gs| && x in gs[i].expenses && x in gs[j].expenses ==> i == j)
  {
    SortedEntries(xs);
    GroupByDayWellFormed(xs);
    var es := SortDesc(Build(xs));
    var gs := GroupByDay(xs);
    var i :| 0 <= i < |es| && Keys(es)[i] == DayOf(x.date);
    assert x in gs[i].expenses;
    forall i, j | 0 <= i < |gs| && 0 <= j < |gs| && x in gs[i].expenses && x in gs[j].expenses
      ensures i == j
    {
      AtMostOneBucket(gs, x, i, j);
    }
  }

  /** For any day, the grouping shows exactly the input's expenses of that
      day, in input order (none when the day has no bucket). */
  lemma GroupByDayOnDay(xs: seq<Expense>, d: int)
    ensures Keep(Flatten(GroupByDay(xs)), OnDay(d)) == Keep(xs, OnDay(d))
  {
    var gs := GroupByDay(xs);
    GroupByDayWellFormed(xs);
    GroupByDayContents(xs);
    if i :| 0 <= i < |gs| && DayOf(gs[i].date) == d {
      WellFormedDayOfBucket(gs, i);
    } else {
      WellFormedDayWithoutBucket(gs, d);
      forall x | x in xs ensures !Holds(OnDay(d), x) {
        GroupByDayExactlyOneBucket(xs, x);
        var i :| 0 <= i < |gs| && x in gs[i].expenses;
        assert IsBucket(gs[i]);
      }
      KeepNone(xs, OnDay(d));
    }
  }
}
