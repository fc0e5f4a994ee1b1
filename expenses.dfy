/** The expense record as the grouping, search and delete logic sees it, the
    calendar abstraction it relies on, and the element filters it applies. */
module Expenses {

  /** An expense: its persistent identity, its title and its timestamp in
      seconds. Subtitle, amount and category play no part in the logic. */
  datatype Expense = Expense(id: nat, title: string, date: int)

  const SecondsPerDay: int := 86400

  /** The calendar day of a timestamp: the (day, month, year) components the
      view keys its dictionary by, as one integer. */
  function DayOf(t: int): int
  {
    t / SecondsPerDay
  }

  /** A day is the span of `SecondsPerDay` seconds that holds the timestamp. */
  lemma DayOfBounds(t: int)
    ensures StartOfDay(DayOf(t)) <= t < StartOfDay(DayOf(t) + 1)
  {
  }

  /** Concatenation is associative; the step that reorders appended runs. */
  lemma ConcatAssociative<T>(x: seq<T>, y: seq<T>, z: seq<T>)
    ensures x + (y + z) == (x + y) + z
  {
  }

  /** The first instant of a day: the date that a bucket stores for its key. */
  function StartOfDay(d: int): (t: int)
    ensures DayOf(t) == d
  {
    d * SecondsPerDay
  }

  /** One character of `lowercased()`: ASCII upper case is mapped to lower case. */
  function LowerChar(c: char): (l: char)
    ensures 'A' <= c <= 'Z' ==> 'a' <= l <= 'z' && l as int == c as int + 32
    ensures !('A' <= c <= 'Z') ==> l == c
  {
    if 'A' <= c <= 'Z' then (c as int + 32) as char else c
  }

  /** `lowercased()`, applied character by character. */
  function Lowercased(s: string): (r: string)
    ensures |r| == |s|
    ensures forall i :: 0 <= i < |s| ==> r[i] == LowerChar(s[i])
  {
    if s == [] then [] else [LowerChar(s[0])] + Lowercased(s[1..])
  }

  /** Lowercasing twice is lowercasing once. */
  lemma {:induction false} LowercasedIdempotent(s: string)
    ensures Lowercased(Lowercased(s)) == Lowercased(s)
  {
    var l := Lowercased(s);
    assert forall i :: 0 <= i < |l| ==> LowerChar(l[i]) == l[i];
  }

  /** q occurs in s starting at position i. */
  predicate OccursAt(s: string, q: string, i: int)
  {
    0 <= i <= |s| - |q| && s[i..i + |q|] == q
  }

  /** `s.contains(q)`: q occurs in s as a contiguous run of characters. */
  predicate Contains(s: string, q: string)
  {
    exists i :: 0 <= i <= |s| - |q| && OccursAt(s, q, i)
  }

  /** The element tests the view filters expense lists with. */
  datatype Criterion =
    | OnDay(day: int)               // keyed to this calendar day (grouping)
    | TitleContains(query: string)  // lowercased title contains the query (search)
    | IdIsNot(id: nat)              // survives `removeAll(where: { $0.id == id })`

  predicate Holds(c: Criterion, e: Expense)
  {
    match c
    case OnDay(d) => DayOf(e.date) == d
    case TitleContains(q) => Contains(Lowercased(e.title), q)
    case IdIsNot(id) => e.id != id
  }

  /** The elements of `s` that satisfy `c`, in their order in `s`. */
  function Keep(s: seq<Expense>, c: Criterion): (r: seq<Expense>)
    ensures |r| <= |s|
    ensures forall x :: x in r <==> x in s && Holds(c, x)
  {
    if s == [] then []
    else
      assert s == [s[0]] + s[1..];
      (if Holds(c, s[0]) then [s[0]] else []) + Keep(s[1..], c)
  }

  /** Keeping distributes over concatenation, so it preserves order. */
  lemma {:induction false} KeepAppend(a: seq<Expense>, b: seq<Expense>, c: Criterion)
    ensures Keep(a + b, c) == Keep(a, c) + Keep(b, c)
  {
    if a == [] {
      assert a + b == b;
    } else {
      assert (a + b)[0] == a[0];
      assert (a + b)[1..] == a[1..] + b;
      KeepAppend(a[1..], b, c);
    }
  }

  /** Keeping what was already kept changes nothing. */
  lemma {:induction false} KeepIdempotent(s: seq<Expense>, c: Criterion)
    ensures Keep(Keep(s, c), c) == Keep(s, c)
  {
    if s != [] {
      KeepIdempotent(s[1..], c);
      if Holds(c, s[0]) {
        var k := Keep(s, c);
        assert k == [s[0]] + Keep(s[1..], c);
        assert k[0] == s[0] && k[1..] == Keep(s[1..], c);
      } else {
        assert Keep(s, c) == [] + Keep(s[1..], c) == Keep(s[1..], c);
      }
    }
  }

  /** When every element satisfies the test, nothing is dropped. */
  lemma {:induction false} KeepAll(s: seq<Expense>, c: Criterion)
    requires forall x :: x in s ==> Holds(c, x)
    ensures Keep(s, c) == s
  {
    if s != [] {
      KeepAll(s[1..], c);
    }
  }

  /** When no element satisfies the test, nothing is kept. */
  lemma KeepNone(s: seq<Expense>, c: Criterion)
    requires forall x :: x in s ==> !Holds(c, x)
    ensures Keep(s, c) == []
  {
  }

  /** Keeping takes every occurrence of a satisfying element and none of the others. */
  lemma {:induction false} KeepMultiset(s: seq<Expense>, c: Criterion)
    ensures forall x :: multiset(Keep(s, c))[x] == if Holds(c, x) then multiset(s)[x] else 0
  {
    if s != [] {
      KeepMultiset(s[1..], c);
      assert s == [s[0]] + s[1..];
    }
  }

  /** Keeping never adds an element, nor another copy of one. */
  lemma KeepShrinks(s: seq<Expense>, c: Criterion)
    ensures multiset(Keep(s, c)) <= multiset(s)
  {
    KeepMultiset(s, c);
  }

  /** Keeping from a smaller collection gives a smaller collection. */
  lemma KeepMonotone(s: seq<Expense>, t: seq<Expense>, c: Criterion)
    requires multiset(s) <= multiset(t)
    ensures multiset(Keep(s, c)) <= multiset(Keep(t, c))
  {
    KeepMultiset(s, c);
    KeepMultiset(t, c);
    assert forall x :: multiset(Keep(s, c))[x] <= multiset(Keep(t, c))[x];
  }

  /** Two tests can be applied in either order. */
  lemma {:induction false} KeepCommutes(s: seq<Expense>, c: Criterion, d: Criterion)
    ensures Keep(Keep(s, c), d) == Keep(Keep(s, d), c)
  {
    if s != [] {
      KeepCommutes(s[1..], c, d);
      var x := s[0];
      var t := s[1..];
      assert s == [x] + t;
      KeepAppend([x], t, c);
      KeepAppend([x], t, d);
      KeepSingleton(x, c);
      KeepSingleton(x, d);
      KeepAppend(Keep([x], c), Keep(t, c), d);
      KeepAppend(Keep([x], d), Keep(t, d), c);
      KeepSingleton(x, c);
      if Holds(c, x) { KeepSingleton(x, d); }
      if Holds(d, x) { KeepSingleton(x, c); }
    }
  }

  /** Keeping from a one-element list. */
  lemma KeepSingleton(x: Expense, c: Criterion)
    ensures Keep([x], c) == if Holds(c, x) then [x] else []
  {
    assert [x][1..] == [];
  }
}
