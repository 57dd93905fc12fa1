// The group budget screen (pages/GroupBudget.js): the same start/end
// window over the group's entries as on the personal ledger, but reading
// each entry's own `date` with no default (lines 162-170), the per-category
// totals (lines 311-312), the checks made before each store write (lines
// 49-100), and the two phases of the screen: a set-budget form while the
// document has no remaining budget, the remaining figure with its edit and
// add controls afterwards (lines 194-306).

module GroupBudget {
  import opened Js
  import opened CategoryView
  import opened LedgerActions

  /** An entry of the group's budget as the screen destructures it: `{ amount, date }`. */
  datatype GroupEntry = GroupEntry(amount: real, date: Option<string>)

  /** `groupBudget.budget`: category -> entry name -> entry. */
  type GroupLedger = Dict<Dict<GroupEntry>>

  /** Line 166: an entry without a date compares false against both bounds. */
  predicate GroupInWindow(w: Window, e: GroupEntry)
  {
    Open(w) || (e.date.Some? && Admits(w, e.date.value))
  }

  function GroupKeep(w: Window): GroupEntry -> bool
  {
    e => GroupInWindow(w, e)
  }

  function GroupAmount(e: GroupEntry): real
  {
    e.amount
  }

  /** `groupBudget.budget || {}`. */
  function StoredGroupLedger(budget: Option<GroupLedger>): GroupLedger
  {
    if budget.Some? then budget.value else []
  }

  /** `filteredBudget` of lines 162-170. */
  function GroupFiltered(w: Window, budget: Option<GroupLedger>): Dict<Dict<real>>
  {
    WindowLedger(StoredGroupLedger(budget), GroupKeep(w), GroupAmount)
  }

  /** Lines 162-170: the nested `forEach` loops that fill `filteredBudget`. */
  method FilterGroupBudget(w: Window, budget: Option<GroupLedger>) returns (filtered: Dict<Dict<real>>)
    ensures filtered == GroupFiltered(w, budget)
  {
    var b := if budget.Some? then budget.value else [];
    filtered := [];
    var i := 0;
    while i < |b|
      invariant 0 <= i <= |b|
      invariant filtered == WindowLedger(b[..i], GroupKeep(w), GroupAmount)
    {
      var category, entries := b[i].0, b[i].1;
      var kept: Dict<real> := [];
      var j := 0;
      while j < |entries|
        invariant 0 <= j <= |entries|
        invariant kept == WindowEntries(entries[..j], GroupKeep(w), GroupAmount)
      {
        assert entries[..j + 1][..j] == entries[..j];
        var name, amount, date := entries[j].0, entries[j].1.amount, entries[j].1.date;
        if Open(w) || (date.Some? && LexLe(w.start.value, date.value) && LexLe(date.value, w.end.value)) {
          kept := Put(kept, name, amount);
        }
        j := j + 1;
      }
      assert entries[..j] == entries;
      assert b[..i + 1][..i] == b[..i];
      filtered := Put(filtered, category, kept);
      i := i + 1;
    }
    assert b[..i] == b;
  }

  /** With both bounds set, an entry with no date is left out, whatever the
      window: the group screen has no default date. */
  lemma UndatedGroupEntryExcluded(w: Window, amount: real)
    requires Picked(w.start) && Picked(w.end)
    ensures !GroupInWindow(w, GroupEntry(amount, None))
  {
  }

  /** With no window, the filtered map has the stored categories, each with
      all its entry names mapped to their amounts. */
  lemma OpenWindowKeepsGroupBudget(w: Window, b: GroupLedger)
    requires Open(w) && UniqueKeys(b)
    requires forall i :: 0 <= i < |b| ==> UniqueKeys(b[i].1)
    ensures KeySet(GroupFiltered(w, Some(b))) == KeySet(b)
    ensures forall i, j :: 0 <= i < |b| && 0 <= j < |b[i].1| ==>
      Lookup(GroupFiltered(w, Some(b)), b[i].0).Some? &&
      Lookup(Lookup(GroupFiltered(w, Some(b)), b[i].0).value, b[i].1[j].0) == Some(b[i].1[j].1.amount)
    ensures forall i :: 0 <= i < |b| ==>
      Lookup(GroupFiltered(w, Some(b)), b[i].0).Some? &&
      KeySet(Lookup(GroupFiltered(w, Some(b)), b[i].0).value) == KeySet(b[i].1)
  {
    WindowLedgerLookup(b, GroupKeep(w), GroupAmount);
    forall i | 0 <= i < |b|
      ensures KeySet(WindowEntries(b[i].1, GroupKeep(w), GroupAmount)) == KeySet(b[i].1)
      ensures forall j :: 0 <= j < |b[i].1| ==>
        Lookup(WindowEntries(b[i].1, GroupKeep(w), GroupAmount), b[i].1[j].0) == Some(b[i].1[j].1.amount)
    {
      WindowEntriesLookup(b[i].1, GroupKeep(w), GroupAmount);
    }
  }

  /** With both bounds set, the filtered map keeps exactly the dated
      entries with start <= date <= end. */
  lemma SetWindowKeepsDatedInside(w: Window, b: GroupLedger, i: int, j: int)
    requires Picked(w.start) && Picked(w.end) && UniqueKeys(b)
    requires 0 <= i < |b| && UniqueKeys(b[i].1) && 0 <= j < |b[i].1|
    ensures var e := b[i].1[j].1;
      Lookup(GroupFiltered(w, Some(b)), b[i].0).Some? &&
      Lookup(Lookup(GroupFiltered(w, Some(b)), b[i].0).value, b[i].1[j].0)
        == if e.date.Some? && LexLe(w.start.value, e.date.value) && LexLe(e.date.value, w.end.value)
           then Some(e.amount) else None
  {
    WindowLedgerLookup(b, GroupKeep(w), GroupAmount);
    WindowEntriesLookup(b[i].1, GroupKeep(w), GroupAmount);
  }

  /** Lines 311-312: the figure shown for each category is the sum of the
      amounts of its entries inside the window. */
  lemma GroupCategoryTotals(w: Window, b: GroupLedger, i: int)
    requires UniqueKeys(b) && 0 <= i < |b| && UniqueKeys(b[i].1)
    ensures Lookup(CategoryTotals(GroupFiltered(w, Some(b))), b[i].0) == Some(KeptTotal(b[i].1, GroupKeep(w), GroupAmount))
  {
    CategoryTotalIsKeptTotal(b, GroupKeep(w), GroupAmount, i);
  }

  // ---------------------------------------------------------------------
  // Checks before each write

  /** Lines 50-55: the value `setGroupBudget` is called with when the
      remaining budget is overridden, or None when the form is refused. */
  function OverrideRequest(value: Number): (r: Option<real>)
    ensures r.Some? <==> value.Finite? && value.val >= 0.0
    ensures r.Some? ==> r.value == value.val
  {
    if value.NaN? || value.val < 0.0 then None else Some(value.val)
  }

  /** Lines 69-75: the value `setGroupBudget` is called with when the
      initial budget is set, or None when the form is refused. */
  function InitialRequest(value: Number): (r: Option<real>)
    ensures r.Some? <==> value.Finite? && value.val > 0.0
    ensures r.Some? ==> r.value == value.val
  {
    if value.NaN? || value.val <= 0.0 then None else Some(value.val)
  }

  /** `addGroupBudgetField(budgetId, category, name, value, date)`. */
  datatype GroupField = GroupField(category: string, name: string, amount: real, date: string)

  /** Lines 86-92: the field written, or None when the form is refused. The
      date is the selected day, which starts as today and is never empty. */
  function FieldRequest(name: string, value: Number, category: string, selectedDate: string): (r: Option<GroupField>)
    ensures r.Some? ==> value.Finite? && r.value == GroupField(category, name, value.val, selectedDate)
  {
    if name == "" || value.NaN? || value.val <= 0.0 then None
    else Some(GroupField(category, name, value.val, selectedDate))
  }

  /** The override accepts 0, which the initial budget refuses; every
      accepted initial budget is an accepted override with the same value;
      neither accepts a negative value or NaN. */
  lemma OverrideAndInitial(value: Number)
    ensures OverrideRequest(Finite(0.0)) == Some(0.0) && InitialRequest(Finite(0.0)).None?
    ensures InitialRequest(value).Some? ==> OverrideRequest(value) == InitialRequest(value)
    ensures value.NaN? || value.val < 0.0 ==> OverrideRequest(value).None? && InitialRequest(value).None?
  {
  }

  /** A group field is refused exactly when a personal entry would be: the
      two screens apply the same rule to the name and the amount. */
  lemma FieldRuleMatchesPersonal(name: string, value: Number, category: string, selectedDate: string)
    ensures FieldRequest(name, value, category, selectedDate).None? <==> !ValidEntry(name, value)
  {
  }

  // ---------------------------------------------------------------------
  // The screen's phases

  /** What the screen offers above the chart. */
  datatype Panel =
    | SetBudgetForm                 // lines 195-205
    | RemainingEditor               // lines 210-225: the override form
    | RemainingSummary(shown: Raw)  // lines 227-237: the figure and its pencil

  /** The part of the screen's state that decides its phase. */
  class GroupBudgetScreen {
    /** `groupBudget.remainingBudget`; None while the document has none. */
    var remaining: Option<Raw>
    /** `isEditingRemaining`. */
    var editing: bool

    /** A freshly loaded document, not being edited. */
    constructor(remaining: Option<Raw>)
      ensures this.remaining == remaining && !editing
    {
      this.remaining := remaining;
      editing := false;
    }

    /** Lines 194-238. The set-budget form is offered exactly while the
        document has no remaining budget; afterwards the add controls are
        shown with either the override form or the figure. */
    function Panel(): (p: Panel)
      reads this
      ensures p.SetBudgetForm? <==> remaining.None?
      ensures p.RemainingEditor? <==> remaining.Some? && editing
      ensures p.RemainingSummary? ==> p.shown == remaining.value
    {
      if remaining.None? then SetBudgetForm
      else if editing then RemainingEditor
      else RemainingSummary(remaining.value)
    }

    /** Lines 233-236: the pencil opens the override form. */
    method BeginEdit()
      modifies this
      ensures editing && remaining == old(remaining)
    {
      editing := true;
    }

    /** Lines 221-224: Cancel closes the override form. */
    method CancelEdit()
      modifies this
      ensures !editing && remaining == old(remaining)
    {
      editing := false;
    }

    /** Lines 49-65, with `newRemainingValue` parsed into `value`, the
        outcome of the store write as `written` and the document read back
        afterwards as `reloaded`. A refused value or a failed write leaves
        the screen as it was. */
    method SaveRemaining(value: Number, written: bool, reloaded: Option<Raw>) returns (request: Option<real>)
      modifies this
      ensures request == OverrideRequest(value)
      ensures request.None? || !written ==> remaining == old(remaining) && editing == old(editing)
      ensures request.Some? && written ==> remaining == reloaded && !editing
    {
      if value.NaN? || value.val < 0.0 {
        return None;
      }
      request := Some(value.val);
      if written {
        editing := false;
        remaining := reloaded;
      }
    }

    /** Lines 68-82: the set-budget form. A refused value or a failed write
        leaves the screen as it was; otherwise the document is read back. */
    method SetInitialBudget(value: Number, written: bool, reloaded: Option<Raw>) returns (request: Option<real>)
      modifies this
      ensures request == InitialRequest(value)
      ensures request.None? || !written ==> remaining == old(remaining) && editing == old(editing)
      ensures request.Some? && written ==> remaining == reloaded && editing == old(editing)
    {
      if value.NaN? || value.val <= 0.0 {
        return None;
      }
      request := Some(value.val);
      if written {
        remaining := reloaded;
      }
    }
  }
}
