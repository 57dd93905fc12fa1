// The two write actions of the personal ledger screen whose decisions are
// made on the screen itself: adding an entry (pages/MyBudget.js:233-263),
// which validates the form before asking the store for a write, and
// deleting a recurring expense (pages/MyBudget.js:447-466), which filters
// the stored list by position. The store calls themselves are not part of
// this model; the actions return the call they make.

module LedgerActions {
  import opened Js
  import opened RemainingBudget

  /** The store call an add attempt makes, if any. */
  datatype AddRequest =
    | Rejected
    | AddRecurringEntry(category: string, name: string, amount: real, interval: string,
                        startDate: string, endDate: Option<string>, kind: string)
    | AddBudgetField(category: string, name: string, amount: real, date: string)

  /** `expenseName && !isNaN(value) && value > 0`: the form may be written. */
  predicate ValidEntry(name: string, value: Number)
  {
    name != "" && value.Finite? && value.val > 0.0
  }

  /** Lines 233-277: the call made for the form, with `fieldValue` already
      parsed into `value` and the date of today as `today`. */
  function AddField(name: string, value: Number, category: string, isRecurring: bool,
                    interval: string, selectedDate: Option<string>, today: string): (r: AddRequest)
    ensures r.Rejected? <==> !ValidEntry(name, value)
    ensures !r.Rejected? ==> r.category == category && r.name == name && r.amount == value.val
  {
    if name == "" || value.NaN? || value.val <= 0.0 then Rejected
    else if isRecurring then AddRecurringEntry(category, name, value.val, interval, today, None, "expense")
    else AddBudgetField(category, name, value.val, if selectedDate.Some? && selectedDate.value != "" then selectedDate.value else today)
  }

  /** Whatever the form, nothing is written for an empty name, a NaN or an
      amount that is not positive; a written amount is always positive. */
  lemma AddFieldGuards(name: string, value: Number, category: string, isRecurring: bool,
                       interval: string, selectedDate: Option<string>, today: string)
    ensures name == "" ==> AddField(name, value, category, isRecurring, interval, selectedDate, today).Rejected?
    ensures value.NaN? || value.val <= 0.0 ==> AddField(name, value, category, isRecurring, interval, selectedDate, today).Rejected?
    ensures var r := AddField(name, value, category, isRecurring, interval, selectedDate, today);
      !r.Rejected? ==> r.amount > 0.0
  {
  }

  /** A recurring entry starts today, has no end and is an expense; a
      one-off entry is dated on the selected day, or today when no day was
      picked. */
  lemma AddFieldDates(name: string, value: Number, category: string, isRecurring: bool,
                      interval: string, selectedDate: Option<string>, today: string)
    requires ValidEntry(name, value)
    ensures var r := AddField(name, value, category, isRecurring, interval, selectedDate, today);
      && (r.AddRecurringEntry? <==> isRecurring)
      && (r.AddRecurringEntry? ==> r.startDate == today && r.endDate.None? && r.kind == "expense" && r.interval == interval)
      && (r.AddBudgetField? ==> r.date == if selectedDate.Some? && selectedDate.value != "" then selectedDate.value else today)
  {
  }

  // ---------------------------------------------------------------------
  // Deleting a recurring expense

  /** `xs.filter((_, i) => i !== index)`. */
  function RemoveAt<T>(xs: seq<T>, index: int): seq<T>
  {
    if xs == [] then []
    else RemoveAt(xs[..|xs| - 1], index) + if |xs| - 1 == index then [] else [xs[|xs| - 1]]
  }

  /** The filter drops exactly position `index` and keeps the rest in
      order; an index outside the list drops nothing. */
  lemma {:induction false} RemoveAtSlices<T>(xs: seq<T>, index: int)
    ensures RemoveAt(xs, index) == if 0 <= index < |xs| then xs[..index] + xs[index + 1..] else xs
  {
    if xs != [] {
      var init := xs[..|xs| - 1];
      RemoveAtSlices(init, index);
      if 0 <= index < |init| {
        assert init[..index] == xs[..index];
        assert init[index + 1..] + [xs[|xs| - 1]] == xs[index + 1..];
      } else if index == |init| {
        assert xs[..index] == init;
        assert xs[index + 1..] == [];
      } else {
        assert init + [xs[|xs| - 1]] == xs;
      }
    }
  }

  /** The recurring items of type other than 'expense'. */
  function NonExpenses(xs: seq<Recurring>): seq<Recurring>
  {
    if xs == [] then []
    else (if xs[0].kind == "expense" then [] else [xs[0]]) + NonExpenses(xs[1..])
  }

  /** Lines 451-466 as written: the list is rendered filtered to expenses,
      and the button of the item at `index` of that view removes position
      `index` of the whole stored list. */
  function DeleteShownAsWritten(stored: seq<Recurring>, index: nat): seq<Recurring>
  {
    RemoveAt(stored, index)
  }

  /** With an income definition stored before an expense, pressing the
      button of the only expense shown removes the income and keeps the
      expense: the list shown does not change. */
  lemma DeleteShownAsWrittenRemovesIncome()
    ensures var salary, rent := Recurring("income", 3000.0), Recurring("expense", 800.0);
      && Expenses([salary, rent]) == [rent]
      && DeleteShownAsWritten([salary, rent], 0) == [rent]
      && Expenses(DeleteShownAsWritten([salary, rent], 0)) == Expenses([salary, rent])
  {
    var salary, rent := Recurring("income", 3000.0), Recurring("expense", 800.0);
    var stored := [salary, rent];
    assert stored[1..] == [rent] && [rent][1..] == [];
    assert "income" != "expense" by { assert "income"[0] != "expense"[0]; }
    assert Expenses([rent]) == [rent];
    assert Expenses(stored) == [rent];
    RemoveAtSlices(stored, 0);
    assert stored[1..] == [rent];
  }

  /** The position in the stored list of the `k`-th expense shown. */
  function StoredPosition(xs: seq<Recurring>, k: nat): (p: nat)
    requires k < |Expenses(xs)|
    ensures p < |xs| && xs[p].kind == "expense"
  {
    if xs[0].kind == "expense" && k == 0 then 0
    else if xs[0].kind == "expense" then 1 + StoredPosition(xs[1..], k - 1)
    else 1 + StoredPosition(xs[1..], k)
  }

  /** The `k`-th expense shown sits at that position: `k` expenses before it. */
  lemma {:induction false} StoredPositionSplits(xs: seq<Recurring>, k: nat)
    requires k < |Expenses(xs)|
    ensures var p := StoredPosition(xs, k);
      Expenses(xs) == Expenses(xs[..p]) + [xs[p]] + Expenses(xs[p + 1..]) && |Expenses(xs[..p])| == k
  {
    var p := StoredPosition(xs, k);
    if p == 0 {
      assert xs[..0] == [] && xs[1..] == xs[p + 1..];
    } else {
      var k' := if xs[0].kind == "expense" then k - 1 else k;
      var head := if xs[0].kind == "expense" then [xs[0]] else [];
      var tail := xs[1..];
      StoredPositionSplits(tail, k');
      var q := p - 1;
      assert q == StoredPosition(tail, k');
      assert Expenses(xs) == head + Expenses(tail);
      assert xs[..p][0] == xs[0] && xs[..p][1..] == tail[..q];
      assert Expenses(xs[..p]) == head + Expenses(tail[..q]);
      assert xs[p + 1..] == tail[q + 1..];
      assert tail[q] == xs[p];
    }
  }

  /** The deletion the button evidently means: the expense shown at `index`
      is removed from the stored list. */
  function DeleteShown(stored: seq<Recurring>, index: nat): seq<Recurring>
  {
    if index < |Expenses(stored)| then RemoveAt(stored, StoredPosition(stored, index)) else stored
  }

  /** The list shown loses exactly the item pressed, and every definition
      that is not an expense stays as it was. */
  lemma DeleteShownRemovesPressed(stored: seq<Recurring>, index: nat)
    requires index < |Expenses(stored)|
    ensures Expenses(DeleteShown(stored, index)) == RemoveAt(Expenses(stored), index)
    ensures NonExpenses(DeleteShown(stored, index)) == NonExpenses(stored)
    ensures |DeleteShown(stored, index)| == |stored| - 1
  {
    var p := StoredPosition(stored, index);
    StoredPositionSplits(stored, index);
    var ex := Expenses(stored);
    RemoveAtSlices(stored, p);
    RemoveAtSlices(ex, index);
    ExpensesAppend(stored[..p], stored[p + 1..]);
    var before := Expenses(stored[..p]);
    assert ex == before + [stored[p]] + Expenses(stored[p + 1..]);
    assert ex[..index] == before;
    assert ex[index + 1..] == Expenses(stored[p + 1..]);
    NonExpensesAppend(stored[..p], stored[p + 1..]);
    assert stored == stored[..p] + [stored[p]] + stored[p + 1..];
    NonExpensesAppend(stored[..p] + [stored[p]], stored[p + 1..]);
    NonExpensesAppend(stored[..p], [stored[p]]);
    assert [stored[p]][1..] == [];
    assert NonExpenses([stored[p]]) == [];
    assert NonExpenses(stored[..p]) + [] == NonExpenses(stored[..p]);
  }

  /** A press on an index past the list shown changes nothing. */
  lemma DeleteShownOutOfRange(stored: seq<Recurring>, index: nat)
    requires index >= |Expenses(stored)|
    ensures DeleteShown(stored, index) == stored
  {
  }

  lemma {:induction false} NonExpensesAppend(xs: seq<Recurring>, ys: seq<Recurring>)
    ensures NonExpenses(xs + ys) == NonExpenses(xs) + NonExpenses(ys)
  {
    if xs != [] {
      assert (xs + ys)[1..] == xs[1..] + ys;
      NonExpensesAppend(xs[1..], ys);
    } else {
      assert xs + ys == ys;
    }
  }
}
