/** The swipe-to-delete action on the shown list: remove the expense from
    its bucket and drop the bucket once it is empty. */
module Deletion {
  import opened Expenses
  import opened Groups
  import opened Filtering

  /** Swiping expense `id` in the bucket at position `g`:
      `group.expenses.removeAll(where: { $0.id == id })`, then the bucket
      itself is removed if nothing is left in it. */
  function RemoveExpense(gs: seq<GroupedExpenses>, g: nat, id: nat): seq<GroupedExpenses>
    requires g < |gs|
  {
    var rest := Keep(gs[g].expenses, IdIsNot(id));
    if rest == [] then gs[..g] + gs[g + 1..]
    else gs[g := gs[g].(expenses := rest)]
  }

  /** Only bucket `g` changes: it loses the expenses with that id, keeps its
      date and the order of the others, and is removed exactly when it is
      left empty; every other bucket stays, in its place and order. */
  lemma RemoveExpenseChanges(gs: seq<GroupedExpenses>, g: nat, id: nat)
    requires g < |gs|
    ensures var r := RemoveExpense(gs, g, id);
      var emptied := forall e :: e in gs[g].expenses ==> e.id == id;
      && |r| == (if emptied then |gs| - 1 else |gs|)
      && r[..g] == gs[..g]
      && (emptied ==> r[g..] == gs[g + 1..])
      && (!emptied ==> r[g + 1..] == gs[g + 1..]
                       && r[g].date == gs[g].date
                       && r[g].expenses == Keep(gs[g].expenses, IdIsNot(id)))
  {
    var rest := Keep(gs[g].expenses, IdIsNot(id));
    if forall e :: e in gs[g].expenses ==> e.id == id {
      KeepNone(gs[g].expenses, IdIsNot(id));
    } else {
      var e :| e in gs[g].expenses && e.id != id;
      assert e in rest;
    }
  }

  /** What the list shows afterwards: everything it showed before, except
      the expenses with that id in bucket `g`. */
  lemma RemoveExpenseFlatten(gs: seq<GroupedExpenses>, g: nat, id: nat)
    requires g < |gs|
    ensures Flatten(RemoveExpense(gs, g, id))
         == Flatten(gs[..g]) + Keep(gs[g].expenses, IdIsNot(id)) + Flatten(gs[g + 1..])
  {
    var rest := Keep(gs[g].expenses, IdIsNot(id));
    if rest == [] {
      FlattenAppend(gs[..g], gs[g + 1..]);
      assert Flatten(gs[..g]) + rest == Flatten(gs[..g]);
    } else {
      var r := gs[g := gs[g].(expenses := rest)];
      FlattenSplit(r, g);
      assert r[..g] == gs[..g] && r[g + 1..] == gs[g + 1..];
    }
  }

  /** Deleting never adds anything to what is shown. */
  lemma RemoveExpenseShrinks(gs: seq<GroupedExpenses>, g: nat, id: nat)
    requires g < |gs|
    ensures multiset(Flatten(RemoveExpense(gs, g, id))) <= multiset(Flatten(gs))
  {
    var a, b, c := Flatten(gs[..g]), gs[g].expenses, Flatten(gs[g + 1..]);
    var k := Keep(b, IdIsNot(id));
    RemoveExpenseFlatten(gs, g, id);
    FlattenSplit(gs, g);
    KeepShrinks(b, IdIsNot(id));
    assert multiset(a + k + c) == multiset(a) + multiset(k) + multiset(c);
    assert multiset(a + b + c) == multiset(a) + multiset(b) + multiset(c);
  }

  /** What a list shows, split around its bucket `g`. */
  lemma {:induction false} FlattenSplit(gs: seq<GroupedExpenses>, g: nat)
    requires g < |gs|
    ensures Flatten(gs) == Flatten(gs[..g]) + gs[g].expenses + Flatten(gs[g + 1..])
  {
    if g == 0 {
      assert gs[..0] == [];
    } else {
      var t := gs[1..];
      FlattenSplit(t, g - 1);
      assert t[..g - 1] == gs[..g][1..];
      assert t[g - 1] == gs[g];
      assert t[g..] == gs[g + 1..];
      assert gs[..g][0] == gs[0];
    }
  }

  /** An expense no bucket holds is not shown. */
  lemma FlattenAbsent(gs: seq<GroupedExpenses>, e: Expense)
    requires forall i :: 0 <= i < |gs| ==> e !in gs[i].expenses
    ensures e !in Flatten(gs)
  {
    FlattenMember(gs, e);
  }

  /** In a well-formed list, the deleted expense is shown nowhere afterwards. */
  lemma RemoveExpenseGone(gs: seq<GroupedExpenses>, g: nat, e: Expense)
    requires WellFormed(gs) && g < |gs| && e in gs[g].expenses
    ensures e !in Flatten(RemoveExpense(gs, g, e.id))
  {
    RemoveExpenseFlatten(gs, g, e.id);
    assert IsBucket(gs[g]);
    var pre, post := gs[..g], gs[g + 1..];
    forall i | 0 <= i < |pre| ensures e !in pre[i].expenses {
      assert pre[i] == gs[i] && IsBucket(gs[i]);
      assert DayOf(gs[i].date) > DayOf(gs[g].date);
    }
    forall i | 0 <= i < |post| ensures e !in post[i].expenses {
      assert post[i] == gs[g + 1 + i] && IsBucket(gs[g + 1 + i]);
      assert DayOf(gs[g].date) > DayOf(gs[g + 1 + i].date);
    }
    FlattenAbsent(pre, e);
    FlattenAbsent(post, e);
  }

  /** Deleting from a well-formed list leaves it well formed. */
  lemma RemoveExpenseWellFormed(gs: seq<GroupedExpenses>, g: nat, id: nat)
    requires WellFormed(gs) && g < |gs|
    ensures WellFormed(RemoveExpense(gs, g, id))
  {
    var r := RemoveExpense(gs, g, id);
    var rest := Keep(gs[g].expenses, IdIsNot(id));
    if rest == [] {
      forall i, j | 0 <= i < j < |r| ensures DayOf(r[i].date) > DayOf(r[j].date) {
        var i' := if i < g then i else i + 1;
        var j' := if j < g then j else j + 1;
        assert r[i] == gs[i'] && r[j] == gs[j'];
      }
      forall i | 0 <= i < |r| ensures IsBucket(r[i]) {
        var i' := if i < g then i else i + 1;
        assert r[i] == gs[i'];
      }
    } else {
      assert IsBucket(gs[g]);
      assert IsBucket(r[g]);
    }
  }

  /** Deleting an id the bucket does not hold changes nothing. */
  lemma RemoveExpenseAbsent(gs: seq<GroupedExpenses>, g: nat, id: nat)
    requires g < |gs| && gs[g].expenses != []
    requires forall e :: e in gs[g].expenses ==> e.id != id
    ensures RemoveExpense(gs, g, id) == gs
  {
    KeepAll(gs[g].expenses, IdIsNot(id));
  }

  /** Deleting expense `id` from every bucket of a list, dropping the
      buckets left empty. */
  function PurgeExpense(gs: seq<GroupedExpenses>, id: nat): seq<GroupedExpenses>
  {
    KeepInBuckets(gs, IdIsNot(id))
  }

  /** After the purge no bucket holds the id, everything else is shown as
      before and in the same order, and a well-formed list stays so. */
  lemma PurgeExpenseGone(gs: seq<GroupedExpenses>, id: nat)
    ensures Flatten(PurgeExpense(gs, id)) == Keep(Flatten(gs), IdIsNot(id))
    ensures forall x :: x in Flatten(PurgeExpense(gs, id)) ==> x.id != id
    ensures WellFormed(gs) ==> WellFormed(PurgeExpense(gs, id))
  {
    KeepInBucketsFlatten(gs, IdIsNot(id));
    if WellFormed(gs) {
      KeepInBucketsWellFormed(gs, IdIsNot(id));
    }
  }

  /** Narrowing buckets none of whose expenses fail the test changes nothing. */
  lemma {:induction false} KeepInBucketsAllPass(gs: seq<GroupedExpenses>, c: Criterion)
    requires forall i :: 0 <= i < |gs| ==> gs[i].expenses != []
    requires forall i, e :: 0 <= i < |gs| && e in gs[i].expenses ==> Holds(c, e)
    ensures KeepInBuckets(gs, c) == gs
  {
    if gs != [] {
      KeepAll(gs[0].expenses, c);
      KeepInBucketsAllPass(gs[1..], c);
      assert gs == [gs[0]] + gs[1..];
    }
  }

  /** Narrowing a single bucket. */
  lemma KeepInBucketsSingle(g: GroupedExpenses, c: Criterion)
    ensures KeepInBuckets([g], c) == if Keep(g.expenses, c) == [] then [] else [Narrow(g, c)]
  {
    assert [g][1..] == [];
  }

  /** When the id occurs in bucket `g` only, the swipe action and the purge
      give the same list. */
  lemma RemoveIsPurge(gs: seq<GroupedExpenses>, g: nat, id: nat)
    requires g < |gs|
    requires forall i :: 0 <= i < |gs| ==> gs[i].expenses != []
    requires forall i, e :: 0 <= i < |gs| && i != g && e in gs[i].expenses ==> e.id != id
    ensures RemoveExpense(gs, g, id) == PurgeExpense(gs, id)
  {
    var c := IdIsNot(id);
    var pre, post := gs[..g], gs[g + 1..];
    PurgeAround(gs, g, id);
    forall i | 0 <= i < |pre| ensures pre[i].expenses != [] {
      assert pre[i] == gs[i];
    }
    forall i, e | 0 <= i < |pre| && e in pre[i].expenses ensures Holds(c, e) {
      assert pre[i] == gs[i];
    }
    KeepInBucketsAllPass(pre, c);
    forall i | 0 <= i < |post| ensures post[i].expenses != [] {
      assert post[i] == gs[g + 1 + i];
    }
    forall i, e | 0 <= i < |post| && e in post[i].expenses ensures Holds(c, e) {
      assert post[i] == gs[g + 1 + i];
    }
    KeepInBucketsAllPass(post, c);
  }

  /** The purge, split around bucket `g`. */
  lemma PurgeAround(gs: seq<GroupedExpenses>, g: nat, id: nat)
    requires g < |gs|
    ensures PurgeExpense(gs, id)
         == KeepInBuckets(gs[..g], IdIsNot(id)) + KeepInBuckets([gs[g]], IdIsNot(id)) + KeepInBuckets(gs[g + 1..], IdIsNot(id))
    ensures KeepInBuckets([gs[g]], IdIsNot(id))
         == if Keep(gs[g].expenses, IdIsNot(id)) == [] then [] else [Narrow(gs[g], IdIsNot(id))]
    ensures RemoveExpense(gs, g, id)
         == gs[..g] + (if Keep(gs[g].expenses, IdIsNot(id)) == [] then [] else [Narrow(gs[g], IdIsNot(id))]) + gs[g + 1..]
  {
    var c := IdIsNot(id);
    assert gs == gs[..g] + [gs[g]] + gs[g + 1..];
    KeepInBucketsAppend(gs[..g] + [gs[g]], gs[g + 1..], c);
    KeepInBucketsAppend(gs[..g], [gs[g]], c);
    KeepInBucketsSingle(gs[g], c);
  }
}
