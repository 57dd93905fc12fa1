// The remaining budget shown on the personal ledger screen
// (pages/MyBudget.js:123-149): the budget total, less every manual entry,
// less the expanded recurring items of type 'expense'. The expanded
// recurring list comes from a store query that is not part of this model
// and is taken as a parameter.

module RemainingBudget {
  import opened Js
  import opened BudgetNormalisation

  /** A recurring item as the screen reads it, whether a stored definition
      (`data.recurringEntries`) or an item of the expanded list: its `type`
      ('expense' or 'income') and its `amount`. */
  datatype Recurring = Recurring(kind: string, amount: real)

  /** `data.budgetTotal || 0`. */
  function TotalOrZero(budgetTotal: Option<real>): real
  {
    if budgetTotal.Some? then budgetTotal.value else 0.0
  }

  /** The amounts of one category's entries, added in order. */
  function EntriesTotal(es: Dict<Raw>): real
  {
    if es == [] then 0.0 else EntriesTotal(es[..|es| - 1]) + AmountOf(es[|es| - 1].1)
  }

  /** The amounts of all manual entries, whatever their date. */
  function ManualTotal(b: Ledger): real
  {
    if b == [] then 0.0 else ManualTotal(b[..|b| - 1]) + EntriesTotal(b[|b| - 1].1)
  }

  /** Lines 134-141: adds up every truthy `expense?.amount` of the ledger.
      The screen passes the normalised ledger, whose amounts are all numbers
      (`NormalisedAmountsNumeric`). */
  method ManualExpenses(b: Ledger) returns (total: real)
    requires AmountsNumeric(b)
    ensures total == ManualTotal(b)
  {
    total := 0.0;
    var i := 0;
    while i < |b|
      invariant 0 <= i <= |b|
      invariant total == ManualTotal(b[..i])
    {
      var es := b[i].1;
      var categoryStart := total;
      var j := 0;
      while j < |es|
        invariant 0 <= j <= |es|
        invariant total == categoryStart + EntriesTotal(es[..j])
      {
        assert es[..j + 1][..j] == es[..j];
        if Truthy(Prop(es[j].1, "amount")) {
          total := total + AmountOf(es[j].1);
        }
        j := j + 1;
      }
      assert es[..j] == es;
      assert b[..i + 1][..i] == b[..i];
      i := i + 1;
    }
    assert b[..i] == b;
  }

  /** `recurring.filter(e => e.type === 'expense')`. */
  function Expenses(xs: seq<Recurring>): seq<Recurring>
  {
    if xs == [] then []
    else (if xs[0].kind == "expense" then [xs[0]] else []) + Expenses(xs[1..])
  }

  /** `.reduce((sum, e) => sum + e.amount, 0)`. */
  function SumAmounts(xs: seq<Recurring>): real
  {
    if xs == [] then 0.0 else xs[0].amount + SumAmounts(xs[1..])
  }

  /** The value set on line 148. */
  function Remaining(budgetTotal: Option<real>, b: Ledger, expanded: seq<Recurring>): real
  {
    TotalOrZero(budgetTotal) - ManualTotal(b) - SumAmounts(Expenses(expanded))
  }

  /** Lines 132-148, with `getExpandedBudget(new Date())` given as `expanded`. */
  method CalculateRemainingBudget(budgetTotal: Option<real>, b: Ledger, expanded: seq<Recurring>)
    returns (remaining: real)
    requires AmountsNumeric(b)
    ensures remaining == Remaining(budgetTotal, b, expanded)
  {
    var totalBudget := if budgetTotal.Some? then budgetTotal.value else 0.0;
    var manualExpenses := ManualExpenses(b);
    var recurringExpenses := SumAmounts(Expenses(expanded));
    remaining := totalBudget - manualExpenses - recurringExpenses;
  }

  /** The filter keeps exactly the expense items, in their order. */
  lemma {:induction false} ExpensesAppend(xs: seq<Recurring>, ys: seq<Recurring>)
    ensures Expenses(xs + ys) == Expenses(xs) + Expenses(ys)
  {
    if xs != [] {
      assert (xs + ys)[1..] == xs[1..] + ys;
      ExpensesAppend(xs[1..], ys);
    } else {
      assert xs + ys == ys;
    }
  }

  lemma {:induction false} SumAmountsAppend(xs: seq<Recurring>, ys: seq<Recurring>)
    ensures SumAmounts(xs + ys) == SumAmounts(xs) + SumAmounts(ys)
  {
    if xs != [] {
      assert (xs + ys)[1..] == xs[1..] + ys;
      SumAmountsAppend(xs[1..], ys);
    } else {
      assert xs + ys == ys;
    }
  }

  lemma ExpensesSnoc(xs: seq<Recurring>, x: Recurring)
    ensures Expenses(xs + [x]) == Expenses(xs) + if x.kind == "expense" then [x] else []
  {
    ExpensesAppend(xs, [x]);
    assert [x][1..] == [];
  }

  lemma SumAmountsSnoc(xs: seq<Recurring>, x: Recurring)
    ensures SumAmounts(xs + [x]) == SumAmounts(xs) + x.amount
  {
    SumAmountsAppend(xs, [x]);
    assert [x][1..] == [];
  }

  lemma {:induction false} ExpensesAreExpenses(xs: seq<Recurring>)
    ensures forall o :: o in Expenses(xs) <==> o in xs && o.kind == "expense"
  {
    if xs != [] {
      ExpensesAreExpenses(xs[1..]);
      assert xs == [xs[0]] + xs[1..];
    }
  }

  /** An expanded item whose type is not 'expense' (income, say) never
      changes the remaining budget, wherever it stands in the list. */
  lemma IncomeNeverCounts(budgetTotal: Option<real>, b: Ledger,
                          before: seq<Recurring>, o: Recurring, after: seq<Recurring>)
    requires o.kind != "expense"
    ensures Remaining(budgetTotal, b, before + [o] + after) == Remaining(budgetTotal, b, before + after)
  {
    ExpensesAppend(before + [o], after);
    ExpensesAppend(before, [o]);
    ExpensesAppend(before, after);
    assert [o][1..] == [];
    assert Expenses([o]) == [];
    assert Expenses(before) + [] == Expenses(before);
    assert Expenses(before + [o] + after) == Expenses(before + after);
  }

  /** An expanded expense item lowers the remaining budget by its amount. */
  lemma ExpenseLowersRemaining(budgetTotal: Option<real>, b: Ledger,
                               before: seq<Recurring>, o: Recurring, after: seq<Recurring>)
    requires o.kind == "expense"
    ensures Remaining(budgetTotal, b, before + [o] + after) == Remaining(budgetTotal, b, before + after) - o.amount
  {
    ExpensesAppend(before + [o], after);
    ExpensesAppend(before, [o]);
    ExpensesAppend(before, after);
    assert [o][1..] == [];
    assert Expenses([o]) == [o];
    SumAmountsAppend(Expenses(before) + [o], Expenses(after));
    SumAmountsAppend(Expenses(before), [o]);
    SumAmountsAppend(Expenses(before), Expenses(after));
  }

  /** Adding a manual entry to the last category lowers the remaining budget
      by its amount, whatever its date: the manual part has no period filter. */
  lemma {:induction false} ManualEntryLowersRemaining(budgetTotal: Option<real>, b: Ledger,
                                                     name: string, e: Raw, expanded: seq<Recurring>)
    requires b != []
    ensures var last := b[|b| - 1];
      Remaining(budgetTotal, b[..|b| - 1] + [(last.0, last.1 + [(name, e)])], expanded)
        == Remaining(budgetTotal, b, expanded) - AmountOf(e)
  {
    var last := b[|b| - 1];
    var b' := b[..|b| - 1] + [(last.0, last.1 + [(name, e)])];
    assert b'[..|b'| - 1] == b[..|b| - 1];
    assert (last.1 + [(name, e)])[..|last.1|] == last.1;
  }

  /** The manual total does not depend on the entries' dates or order of
      names: it is the sum over all entries of all categories. */
  lemma {:induction false} ManualTotalAppend(b: Ledger, c: Ledger)
    ensures ManualTotal(b + c) == ManualTotal(b) + ManualTotal(c)
    decreases |c|
  {
    if c != [] {
      var bc := b + c;
      assert bc[..|bc| - 1] == b + c[..|c| - 1];
      ManualTotalAppend(b, c[..|c| - 1]);
    } else {
      assert b + c == b;
    }
  }
}
