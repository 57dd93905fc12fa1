// The monthly savings list of the personal ledger screen
// (pages/MyBudget.js:160-199). The stored budget is read again, as stored
// and not normalised: every entry charges its amount to the month of its
// date (today's month when it has no date), every recurring definition of
// type 'expense' charges its amount once to the current month, and each
// month's record is the budget total less what the month spent.

module MonthlySavings {
  import opened Js
  import opened BudgetNormalisation
  import opened RemainingBudget

  /** `date.slice(0, 7)`: the year and month of an ISO date. */
  function MonthOf(date: string): (r: string)
    ensures |r| == if |date| < 7 then |date| else 7
    ensures r == date[..|r|]
  {
    if |date| <= 7 then date else date[..7]
  }

  /** `sum += v` for a stored amount `v` (a missing amount gives NaN, null
      counts as 0 and a boolean as 0 or 1). */
  function Addend(v: Option<Raw>): (r: Number)
    ensures v.Some? && v.value.Num? ==> r == Finite(v.value.x)
    ensures v.None? ==> r.NaN?
  {
    match v
    case None => NaN
    case Some(Null) => Finite(0.0)
    case Some(Bool(b)) => Finite(if b then 1.0 else 0.0)
    case Some(Num(x)) => Finite(x)
    case Some(_) => NaN
  }

  /** A month and the amount charged to it. */
  type Charge = (string, Number)

  /** Lines 177-179 for one stored entry: the month its amount goes to and
      that amount, or None where reading it throws (a null entry, or a
      truthy date that is not a string and has no `slice`). */
  function EntryCharge(entry: Raw, today: string): Option<Charge>
  {
    if entry.Null? then None
    else
      var date := DateOrToday(entry, today);
      if date.Str? then Some((MonthOf(date.s), Addend(Prop(entry, "amount")))) else None
  }

  /** `entry.date || today` for an entry that is not null. */
  function DateOrToday(entry: Raw, today: string): Raw
  {
    var d := Prop(entry, "date");
    if Truthy(d) then d.value else Str(today)
  }

  /** Lines 180-181: `if (!m[month]) m[month] = 0; m[month] += amount`. */
  function ChargeMonth(m: Dict<Number>, c: Charge): Dict<Number>
  {
    Put(m, c.0, Add(Base(m, c.0), c.1))
  }

  /** `m[month]` once the line `if (!m[month]) m[month] = 0` has run. */
  function Base(m: Dict<Number>, month: string): (r: Number)
    ensures Lookup(m, month).None? ==> r == Finite(0.0)
    ensures r.Finite?
  {
    var current := Lookup(m, month);
    if current.Some? && NumberTruthy(current.value) then current.value else Finite(0.0)
  }

  /** The month totals after charging `cs` in order. */
  function ChargeAll(m: Dict<Number>, cs: seq<Charge>): Dict<Number>
  {
    if cs == [] then m else ChargeMonth(ChargeAll(m, cs[..|cs| - 1]), cs[|cs| - 1])
  }

  /** The charges of one category's entries, in order, or None where one throws. */
  function EntryCharges(es: Dict<Raw>, today: string): Option<seq<Charge>>
  {
    if es == [] then Some([])
    else match EntryCharges(es[..|es| - 1], today)
      case None => None
      case Some(cs) =>
        match EntryCharge(es[|es| - 1].1, today)
        case None => None
        case Some(c) => Some(cs + [c])
  }

  /** The charges of the whole stored budget (lines 176-183), or None where
      the loop throws (`Object.entries(null)` or a bad entry). */
  function BudgetCharges(cats: Dict<Raw>, today: string): Option<seq<Charge>>
  {
    if cats == [] then Some([])
    else match BudgetCharges(cats[..|cats| - 1], today)
      case None => None
      case Some(cs) =>
        match EntriesOf(cats[|cats| - 1].1)
        case None => None
        case Some(es) =>
          match EntryCharges(es, today)
          case None => None
          case Some(ecs) => Some(cs + ecs)
  }

  /** Lines 186-191: each definition of type 'expense' charges its amount
      once to the current month, whatever its interval. */
  function RecurringCharges(rs: seq<Recurring>, month: string): seq<Charge>
  {
    if rs == [] then []
    else (RecurringCharges(rs[..|rs| - 1], month)
      + if rs[|rs| - 1].kind == "expense" then [(month, Finite(rs[|rs| - 1].amount))] else [])
  }

  /** One record of the result: `{ month, savings }`. */
  datatype SavingsRecord = SavingsRecord(month: string, savings: Number)

  /** Lines 193-196: one record per month key, in the order of the keys. */
  function SavingsOf(budgetTotal: Option<real>, monthly: Dict<Number>): seq<SavingsRecord>
  {
    seq(|monthly|, i requires 0 <= i < |monthly| =>
      SavingsRecord(monthly[i].0, Sub(Finite(TotalOrZero(budgetTotal)), monthly[i].1)))
  }

  /** `monthlyExpenses` after both loops, or None where the first one throws. */
  function MonthlyExpenses(budget: Option<Raw>, recurring: seq<Recurring>, today: string): Option<Dict<Number>>
  {
    match BudgetCharges(StoredCategories(budget), today)
    case None => None
    case Some(cs) => Some(ChargeAll([], cs + RecurringCharges(recurring, MonthOf(today))))
  }

  /** What `calculateMonthlySavings` resolves to; None where it rejects. */
  function Savings(budget: Option<Raw>, recurring: seq<Recurring>, budgetTotal: Option<real>, today: string)
    : Option<seq<SavingsRecord>>
  {
    match MonthlyExpenses(budget, recurring, today)
    case None => None
    case Some(m) => Some(SavingsOf(budgetTotal, m))
  }

  /** Lines 180-181 (and 188-189) as statements. */
  method AddToMonth(m: Dict<Number>, month: string, amount: Number) returns (m': Dict<Number>)
    ensures m' == ChargeMonth(m, (month, amount))
  {
    m' := m;
    var current := Lookup(m', month);
    if !(current.Some? && NumberTruthy(current.value)) {
      m' := Put(m', month, Finite(0.0));
      LookupPut(m, month, Finite(0.0), month);
      PutPut(m, month, Finite(0.0), Add(Finite(0.0), amount));
    }
    m' := Put(m', month, Add(Lookup(m', month).value, amount));
  }

  /** Lines 177-182 for one stored category: its entries charged to `m`, or
      None where one of them throws. */
  method ChargeCategory(m: Dict<Number>, es: Dict<Raw>, today: string) returns (r: Option<Dict<Number>>)
    ensures r.Some? <==> EntryCharges(es, today).Some?
    ensures r.Some? ==> r.value == ChargeAll(m, EntryCharges(es, today).value)
  {
    var monthly := m;
    ghost var cs: seq<Charge> := [];
    var j := 0;
    while j < |es|
      invariant 0 <= j <= |es|
      invariant EntryCharges(es[..j], today) == Some(cs)
      invariant monthly == ChargeAll(m, cs)
    {
      assert es[..j + 1][..j] == es[..j];
      var entry := es[j].1;
      if entry.Null? {
        assert EntryCharges(es[..j + 1], today).None?;
        EntryFailureSticks(es, j + 1, today);
        return None;
      }
      var date := DateOrToday(entry, today);
      if !date.Str? {
        assert EntryCharges(es[..j + 1], today).None?;
        EntryFailureSticks(es, j + 1, today);
        return None;
      }
      var month := MonthOf(date.s);
      var amount := Addend(Prop(entry, "amount"));
      assert EntryCharge(entry, today) == Some((month, amount));
      assert EntryCharges(es[..j + 1], today) == Some(cs + [(month, amount)]);
      ChargeAllSnoc(m, cs, (month, amount));
      monthly := AddToMonth(monthly, month, amount);
      cs := cs + [(month, amount)];
      j := j + 1;
    }
    assert es[..j] == es;
    r := Some(monthly);
  }

  /** Lines 186-191: the recurring definitions of type 'expense' charged to `month`. */
  method ChargeRecurring(m: Dict<Number>, recurring: seq<Recurring>, month: string) returns (m': Dict<Number>)
    ensures m' == ChargeAll(m, RecurringCharges(recurring, month))
  {
    m' := m;
    var k := 0;
    while k < |recurring|
      invariant 0 <= k <= |recurring|
      invariant m' == ChargeAll(m, RecurringCharges(recurring[..k], month))
    {
      assert recurring[..k + 1][..k] == recurring[..k];
      ghost var before := RecurringCharges(recurring[..k], month);
      if recurring[k].kind == "expense" {
        assert RecurringCharges(recurring[..k + 1], month) == before + [(month, Finite(recurring[k].amount))];
        ChargeAllSnoc(m, before, (month, Finite(recurring[k].amount)));
        m' := AddToMonth(m', month, Finite(recurring[k].amount));
      } else {
        assert RecurringCharges(recurring[..k + 1], month) == before + [];
        assert before + [] == before;
      }
      k := k + 1;
    }
    assert recurring[..k] == recurring;
  }

  /** Lines 171-198, with the user's document given as `budget`,
      `recurring` and `budgetTotal` and the date of today as `today`. */
  method CalculateMonthlySavings(budget: Option<Raw>, recurring: seq<Recurring>, budgetTotal: Option<real>, today: string)
    returns (r: Option<seq<SavingsRecord>>)
    ensures r == Savings(budget, recurring, budgetTotal, today)
  {
    var cats := StoredCategories(budget);
    var monthly: Dict<Number> := [];
    ghost var cs: seq<Charge> := [];
    var i := 0;
    while i < |cats|
      invariant 0 <= i <= |cats|
      invariant BudgetCharges(cats[..i], today) == Some(cs)
      invariant monthly == ChargeAll([], cs)
    {
      assert cats[..i + 1][..i] == cats[..i];
      var entries := EntriesOf(cats[i].1);
      if entries.None? {
        BudgetChargesStep(cats, i, cs, today);
        BudgetFailureSticks(cats, i + 1, today);
        return None;
      }
      var charged := ChargeCategory(monthly, entries.value, today);
      if charged.None? {
        BudgetChargesStep(cats, i, cs, today);
        BudgetFailureSticks(cats, i + 1, today);
        return None;
      }
      BudgetChargesStep(cats, i, cs, today);
      ChargeAllAppend([], cs, EntryCharges(entries.value, today).value);
      cs := cs + EntryCharges(entries.value, today).value;
      monthly := charged.value;
      i := i + 1;
    }
    assert cats[..i] == cats;
    ChargeAllAppend([], cs, RecurringCharges(recurring, MonthOf(today)));
    monthly := ChargeRecurring(monthly, recurring, MonthOf(today));
    r := Some(SavingsOf(budgetTotal, monthly));
  }

  /** One more category of the stored budget: its charges are appended, or
      the loop throws on it. */
  lemma BudgetChargesStep(cats: Dict<Raw>, i: nat, cs: seq<Charge>, today: string)
    requires i < |cats| && BudgetCharges(cats[..i], today) == Some(cs)
    ensures var es := EntriesOf(cats[i].1);
      BudgetCharges(cats[..i + 1], today) ==
        if es.None? || EntryCharges(es.value, today).None? then None
        else Some(cs + EntryCharges(es.value, today).value)
  {
    assert cats[..i + 1][..i] == cats[..i];
  }

  /** Charging one list after another is charging their concatenation. */
  lemma {:induction false} ChargeAllAppend(m: Dict<Number>, cs: seq<Charge>, ds: seq<Charge>)
    ensures ChargeAll(m, cs + ds) == ChargeAll(ChargeAll(m, cs), ds)
    decreases |ds|
  {
    if ds == [] {
      assert cs + ds == cs;
    } else {
      assert (cs + ds)[..|cs + ds| - 1] == cs + ds[..|ds| - 1];
      ChargeAllAppend(m, cs, ds[..|ds| - 1]);
    }
  }

  lemma ChargeAllSnoc(m: Dict<Number>, cs: seq<Charge>, c: Charge)
    ensures ChargeAll(m, cs + [c]) == ChargeMonth(ChargeAll(m, cs), c)
  {
    assert (cs + [c])[..|cs|] == cs;
  }

  lemma {:induction false} EntryFailureSticks(es: Dict<Raw>, n: nat, today: string)
    requires n <= |es| && EntryCharges(es[..n], today).None?
    ensures EntryCharges(es, today).None?
    decreases |es| - n
  {
    if n < |es| {
      assert es[..n + 1][..n] == es[..n];
      EntryFailureSticks(es, n + 1, today);
    } else {
      assert es[..n] == es;
    }
  }

  lemma {:induction false} BudgetFailureSticks(cats: Dict<Raw>, n: nat, today: string)
    requires n <= |cats| && BudgetCharges(cats[..n], today).None?
    ensures BudgetCharges(cats, today).None?
    decreases |cats| - n
  {
    if n < |cats| {
      assert cats[..n + 1][..n] == cats[..n];
      BudgetFailureSticks(cats, n + 1, today);
    } else {
      assert cats[..n] == cats;
    }
  }

  // ---------------------------------------------------------------------
  // What the records mean

  /** The months charged by `cs`. */
  ghost predicate Charged(cs: seq<Charge>, month: string)
  {
    exists i :: 0 <= i < |cs| && cs[i].0 == month
  }

  /** The amounts `cs` charges to `month`, added in order. */
  function SpentIn(cs: seq<Charge>, month: string): real
  {
    if cs == [] then 0.0
    else (SpentIn(cs[..|cs| - 1], month)
      + if cs[|cs| - 1].0 == month && cs[|cs| - 1].1.Finite? then cs[|cs| - 1].1.val else 0.0)
  }

  lemma ChargedSnoc(cs: seq<Charge>, month: string)
    requires cs != []
    ensures Charged(cs, month) <==> Charged(cs[..|cs| - 1], month) || cs[|cs| - 1].0 == month
  {
    var init := cs[..|cs| - 1];
    if Charged(init, month) {
      var i :| 0 <= i < |init| && init[i].0 == month;
      assert cs[i] == init[i];
    }
    if Charged(cs, month) && cs[|cs| - 1].0 != month {
      var i :| 0 <= i < |cs| && cs[i].0 == month;
      assert init[i] == cs[i];
    }
  }

  /** The month totals have one key per charged month, and no other: the
      result holds one record per month. */
  lemma {:induction false} MonthKeys(cs: seq<Charge>)
    ensures UniqueKeys(ChargeAll([], cs))
    ensures forall month :: month in KeySet(ChargeAll([], cs)) <==> Charged(cs, month)
  {
    if cs != [] {
      var init, last := cs[..|cs| - 1], cs[|cs| - 1];
      MonthKeys(init);
      var acc := ChargeAll([], init);
      PutKeepsUnique(acc, last.0, Add(Base(acc, last.0), last.1));
      KeySetPut(acc, last.0, Add(Base(acc, last.0), last.1));
      forall month ensures Charged(cs, month) <==> Charged(init, month) || month == last.0 {
        ChargedSnoc(cs, month);
      }
    }
  }

  /** Every amount charged is a number. */
  ghost predicate AllFinite(cs: seq<Charge>)
  {
    forall i :: 0 <= i < |cs| ==> cs[i].1.Finite?
  }

  /** When every amount charged is a number, a month's total is the sum of
      the amounts charged to it; the reset of a falsy total to 0 then never
      loses anything, since it only meets totals equal to 0. */
  lemma {:induction false} MonthTotal(cs: seq<Charge>, month: string)
    requires AllFinite(cs)
    ensures Lookup(ChargeAll([], cs), month) == if Charged(cs, month) then Some(Finite(SpentIn(cs, month))) else None
  {
    if cs != [] {
      var init, last := cs[..|cs| - 1], cs[|cs| - 1];
      assert AllFinite(init) by {
        forall i | 0 <= i < |init| ensures init[i].1.Finite? { assert init[i] == cs[i]; }
      }
      assert last.1.Finite? by { assert last == cs[|cs| - 1]; }
      MonthTotal(init, month);
      ChargedSnoc(cs, month);
      var acc := ChargeAll([], init);
      LookupPut(acc, last.0, Add(Base(acc, last.0), last.1), month);
      if last.0 == month {
        if !Charged(init, month) { SpentInUncharged(init, month); }
        assert Base(acc, month) == Finite(SpentIn(init, month));
      }
    }
  }

  lemma {:induction false} SpentInUncharged(cs: seq<Charge>, month: string)
    requires !Charged(cs, month)
    ensures SpentIn(cs, month) == 0.0
  {
    if cs != [] {
      ChargedSnoc(cs, month);
      SpentInUncharged(cs[..|cs| - 1], month);
    }
  }

  lemma {:induction false} SpentInAppend(cs: seq<Charge>, ds: seq<Charge>, month: string)
    ensures SpentIn(cs + ds, month) == SpentIn(cs, month) + SpentIn(ds, month)
    decreases |ds|
  {
    if ds == [] {
      assert cs + ds == cs;
    } else {
      assert (cs + ds)[..|cs + ds| - 1] == cs + ds[..|ds| - 1];
      SpentInAppend(cs, ds[..|ds| - 1], month);
    }
  }

  lemma ChargedAppend(cs: seq<Charge>, ds: seq<Charge>, month: string)
    ensures Charged(cs + ds, month) <==> Charged(cs, month) || Charged(ds, month)
  {
    if Charged(cs, month) {
      var i :| 0 <= i < |cs| && cs[i].0 == month;
      assert (cs + ds)[i] == cs[i];
    }
    if Charged(ds, month) {
      var i :| 0 <= i < |ds| && ds[i].0 == month;
      assert (cs + ds)[|cs| + i] == ds[i];
    }
  }

  /** Each recurring definition of type 'expense' charges its amount, as
      a number, to the current month; nothing else is charged. */
  lemma {:induction false} RecurringChargesMonth(rs: seq<Recurring>, month: string)
    ensures |RecurringCharges(rs, month)| == |Expenses(rs)|
    ensures forall i :: 0 <= i < |RecurringCharges(rs, month)| ==>
      RecurringCharges(rs, month)[i].0 == month && RecurringCharges(rs, month)[i].1.Finite?
  {
    if rs != [] {
      var init, last := rs[..|rs| - 1], rs[|rs| - 1];
      RecurringChargesMonth(init, month);
      assert rs == init + [last];
      ExpensesAppend(init, [last]);
      assert [last][1..] == [];
    } else {
      assert Expenses(rs) == [];
    }
  }

  /** The amounts the recurring definitions charge to the current month
      add up to what the remaining budget subtracts for the same items. */
  lemma {:induction false} RecurringSpent(rs: seq<Recurring>, month: string)
    ensures SpentIn(RecurringCharges(rs, month), month) == SumAmounts(Expenses(rs))
  {
    if rs != [] {
      var init, last := rs[..|rs| - 1], rs[|rs| - 1];
      RecurringSpent(init, month);
      RecurringStep(rs, month);
    } else {
      assert Expenses(rs) == [];
    }
  }

  /** One more recurring definition adds its amount to both sides, or nothing. */
  lemma RecurringStep(rs: seq<Recurring>, month: string)
    requires rs != []
    ensures var init, last := rs[..|rs| - 1], rs[|rs| - 1];
      var add := if last.kind == "expense" then last.amount else 0.0;
      && SpentIn(RecurringCharges(rs, month), month) == SpentIn(RecurringCharges(init, month), month) + add
      && SumAmounts(Expenses(rs)) == SumAmounts(Expenses(init)) + add
  {
    var init, last := rs[..|rs| - 1], rs[|rs| - 1];
    assert rs == init + [last];
    ExpensesSnoc(init, last);
    var before := RecurringCharges(init, month);
    if last.kind == "expense" {
      SpentInSnoc(before, (month, Finite(last.amount)), month);
      SumAmountsSnoc(Expenses(init), last);
    } else {
      assert before + [] == before;
      assert Expenses(init) + [] == Expenses(init);
    }
  }

  lemma SpentInSnoc(cs: seq<Charge>, c: Charge, month: string)
    ensures SpentIn(cs + [c], month) == SpentIn(cs, month) + if c.0 == month && c.1.Finite? then c.1.val else 0.0
  {
    assert (cs + [c])[..|cs|] == cs;
  }

  /** The recurring definitions charge the current month only, once per
      definition of type 'expense', with the amounts the remaining budget
      subtracts for the same items. */
  lemma RecurringChargedOnce(rs: seq<Recurring>, month: string, other: string)
    requires other != month
    ensures AllFinite(RecurringCharges(rs, month))
    ensures SpentIn(RecurringCharges(rs, month), month) == SumAmounts(Expenses(rs))
    ensures Charged(RecurringCharges(rs, month), month) <==> Expenses(rs) != []
    ensures !Charged(RecurringCharges(rs, month), other)
  {
    RecurringChargesMonth(rs, month);
    RecurringSpent(rs, month);
    var rc := RecurringCharges(rs, month);
    if rc != [] { assert rc[0].0 == month; }
  }

  /** A stored entry that is a bare number, as older versions wrote, has no
      `amount` property: it charges NaN to the current month. */
  lemma LegacyEntryChargesNaN(x: real, today: string)
    ensures EntryCharge(Num(x), today) == Some((MonthOf(today), NaN))
  {
  }

  /** The records list each month of the totals once, in their order, with
      the budget total less that month's total. */
  lemma SavingsOfRecords(budgetTotal: Option<real>, m: Dict<Number>, month: string)
    requires UniqueKeys(m)
    ensures var recs := SavingsOf(budgetTotal, m);
      && (forall i, j :: 0 <= i < j < |recs| ==> recs[i].month != recs[j].month)
      && ((exists i :: 0 <= i < |recs| && recs[i].month == month) <==> month in KeySet(m))
      && (forall i :: 0 <= i < |recs| && recs[i].month == month ==>
            Lookup(m, month).Some? && recs[i].savings == Sub(Finite(TotalOrZero(budgetTotal)), Lookup(m, month).value))
  {
    var recs := SavingsOf(budgetTotal, m);
    forall i, j | 0 <= i < j < |recs| ensures recs[i].month != recs[j].month {
      assert recs[i].month == m[i].0 && recs[j].month == m[j].0;
    }
    if month in KeySet(m) {
      var i :| 0 <= i < |m| && m[i].0 == month;
      assert recs[i].month == month;
    }
    forall i | 0 <= i < |recs| && recs[i].month == month
      ensures Lookup(m, month).Some? && recs[i].savings == Sub(Finite(TotalOrZero(budgetTotal)), Lookup(m, month).value)
    {
      LookupFound(m, i);
    }
  }

  /** When the first loop does not throw and every amount it charges is a
      number (ChargeableBudgetCharges gives a condition on the stored data),
      each record's month is distinct and its savings are the budget total
      less what was spent in that month: the month's stored entries, plus
      the recurring expenses when it is the current month. */
  lemma SavingsPerMonth(budget: Option<Raw>, recurring: seq<Recurring>, budgetTotal: Option<real>, today: string, month: string)
    requires BudgetCharges(StoredCategories(budget), today).Some?
    requires AllFinite(BudgetCharges(StoredCategories(budget), today).value)
    ensures Savings(budget, recurring, budgetTotal, today).Some?
    ensures var recs := Savings(budget, recurring, budgetTotal, today).value;
      var cs := BudgetCharges(StoredCategories(budget), today).value;
      var fromRecurring := if month == MonthOf(today) then SumAmounts(Expenses(recurring)) else 0.0;
      && (forall i, j :: 0 <= i < j < |recs| ==> recs[i].month != recs[j].month)
      && ((exists i :: 0 <= i < |recs| && recs[i].month == month)
            <==> Charged(cs, month) || (month == MonthOf(today) && Expenses(recurring) != []))
      && (forall i :: 0 <= i < |recs| && recs[i].month == month ==>
            recs[i].savings == Finite(TotalOrZero(budgetTotal) - (SpentIn(cs, month) + fromRecurring)))
  {
    var cs := BudgetCharges(StoredCategories(budget), today).value;
    var current := MonthOf(today);
    var rc := RecurringCharges(recurring, current);
    var all := cs + rc;
    var m := ChargeAll([], all);
    var other := if month == current then current + "x" else month;
    assert other != current by { if month == current { assert |other| == |current| + 1; } }
    RecurringChargedOnce(recurring, current, other);
    assert AllFinite(all) by {
      forall i | 0 <= i < |all| ensures all[i].1.Finite? {
        if i < |cs| { assert all[i] == cs[i]; } else { assert all[i] == rc[i - |cs|]; }
      }
    }
    MonthKeys(all);
    MonthTotal(all, month);
    SpentInAppend(cs, rc, month);
    ChargedAppend(cs, rc, month);
    if month != current {
      SpentInUncharged(rc, month);
    }
    SavingsOfRecords(budgetTotal, m, month);
  }

  // ---------------------------------------------------------------------
  // When the first loop does not throw

  /** A stored entry that lines 177-181 read without throwing and that adds
      a number: an object with a numeric `amount` whose `date` is a string
      or falsy. */
  predicate ChargeableEntry(entry: Raw)
  {
    && entry.Obj?
    && Prop(entry, "amount").Some? && Prop(entry, "amount").value.Num?
    && (Truthy(Prop(entry, "date")) ==> Prop(entry, "date").value.Str?)
  }

  /** A stored budget whose categories are all objects of chargeable entries. */
  predicate ChargeableBudget(cats: Dict<Raw>)
  {
    forall i :: 0 <= i < |cats| ==>
      cats[i].1.Obj? && forall j :: 0 <= j < |cats[i].1.fields| ==> ChargeableEntry(cats[i].1.fields[j].1)
  }

  /** A category of chargeable entries charges a number for each of them. */
  lemma {:induction false} ChargeableEntries(es: Dict<Raw>, today: string)
    requires forall j :: 0 <= j < |es| ==> ChargeableEntry(es[j].1)
    ensures EntryCharges(es, today).Some? && |EntryCharges(es, today).value| == |es|
    ensures AllFinite(EntryCharges(es, today).value)
  {
    if es != [] {
      var init := es[..|es| - 1];
      forall j | 0 <= j < |init| ensures ChargeableEntry(init[j].1) {
        assert init[j] == es[j];
      }
      ChargeableEntries(init, today);
      var entry := es[|es| - 1].1;
      assert ChargeableEntry(entry);
      assert DateOrToday(entry, today).Str?;
      assert EntryCharge(entry, today).Some? && EntryCharge(entry, today).value.1.Finite?;
    }
  }

  /** On a chargeable budget the first loop never throws and every amount it
      charges is a number: the condition under which SavingsPerMonth applies. */
  lemma {:induction false} ChargeableBudgetCharges(cats: Dict<Raw>, today: string)
    requires ChargeableBudget(cats)
    ensures BudgetCharges(cats, today).Some?
    ensures AllFinite(BudgetCharges(cats, today).value)
  {
    if cats != [] {
      var init := cats[..|cats| - 1];
      assert ChargeableBudget(init) by {
        forall i | 0 <= i < |init| ensures init[i] == cats[i] {}
      }
      ChargeableBudgetCharges(init, today);
      var last := cats[|cats| - 1].1;
      ChargeableEntries(last.fields, today);
      var cs: seq<Charge> := BudgetCharges(init, today).value;
      var ecs: seq<Charge> := EntryCharges(last.fields, today).value;
      assert BudgetCharges(cats, today) == Some(cs + ecs);
      forall k | 0 <= k < |cs + ecs| ensures (cs + ecs)[k].1.Finite? {
        if k < |cs| { assert (cs + ecs)[k] == cs[k]; } else { assert (cs + ecs)[k] == ecs[k - |cs|]; }
      }
    }
  }

  /** A numeric amount alone does not make the calculation succeed: a
      number stored as the date has no `slice`, and the calculation rejects. */
  lemma NumericDateRejects(today: string)
    ensures var entry := Obj([("amount", Num(1.0)), ("date", Num(20250101.0))]);
      var budget := Some(Obj([("food", Obj([("x", entry)]))]));
      && !ChargeableEntry(entry)
      && Savings(budget, [], Some(100.0), today).None?
  {
    var entry := Obj([("amount", Num(1.0)), ("date", Num(20250101.0))]);
    var es := [("x", entry)];
    var cats := [("food", Obj(es))];
    assert Prop(entry, "date") == Some(Num(20250101.0));
    assert EntryCharge(entry, today).None?;
    assert es[..0] == [];
    assert EntryCharges(es, today).None?;
    assert cats[..0] == [];
    assert BudgetCharges(cats, today).None?;
  }
}
