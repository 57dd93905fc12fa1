// The personal ledger seen through the start/end window picked on the
// screen (pages/MyBudget.js:315-324): each category maps entry names to
// amounts, keeping the entries whose date (or '2025-01-01' when the entry
// has none) lies in the window; the totals rendered per category
// (pages/MyBudget.js:396-397) add those amounts up.

module LedgerWindow {
  import opened Js
  import opened CategoryView
  import opened BudgetNormalisation
  import opened RemainingBudget

  /** Line 320 for one normalised entry. A stored date that is not a string
      is kept only when the window is open. */
  predicate InWindow(w: Window, entry: Raw)
  {
    match EntryDate(entry)
    case Str(d) => Admits(w, d)
    case _ => Open(w)
  }

  /** The window test as the filter takes it. */
  function Keep(w: Window): Raw -> bool
  {
    e => InWindow(w, e)
  }

  /** `filteredBudget` of lines 315-324 over the normalised ledger. */
  function FilteredBudget(w: Window, b: Ledger): Dict<Dict<real>>
  {
    WindowLedger(b, Keep(w), AmountOf)
  }

  /** Lines 315-324: the nested loops that fill `filteredBudget`. */
  method FilterBudget(w: Window, b: Ledger) returns (filtered: Dict<Dict<real>>)
    ensures filtered == FilteredBudget(w, b)
  {
    filtered := [];
    var i := 0;
    while i < |b|
      invariant 0 <= i <= |b|
      invariant filtered == WindowLedger(b[..i], Keep(w), AmountOf)
    {
      var category, items := b[i].0, b[i].1;
      var kept: Dict<real> := [];
      var j := 0;
      while j < |items|
        invariant 0 <= j <= |items|
        invariant kept == WindowEntries(items[..j], Keep(w), AmountOf)
      {
        assert items[..j + 1][..j] == items[..j];
        var entryDate := EntryDate(items[j].1);
        var inside := match entryDate
          case Str(d) => Admits(w, d)
          case _ => Open(w);
        if inside {
          kept := Put(kept, items[j].0, AmountOf(items[j].1));
        }
        j := j + 1;
      }
      assert items[..j] == items;
      assert b[..i + 1][..i] == b[..i];
      filtered := Put(filtered, category, kept);
      i := i + 1;
    }
    assert b[..i] == b;
  }

  /** With the start or the end unset, every entry is in the window. */
  lemma OpenWindowKeepsAll(w: Window, entry: Raw)
    requires Open(w)
    ensures InWindow(w, entry)
  {
  }

  /** With both bounds set, an entry without a date is in the window
      exactly when '2025-01-01' is. */
  lemma UndatedEntryUsesDefault(w: Window, entry: Raw)
    requires Picked(w.start) && Picked(w.end)
    requires Prop(entry, "date").None?
    ensures InWindow(w, entry) <==> LexLe(w.start.value, DefaultDate) && LexLe(DefaultDate, w.end.value)
  {
  }

  /** With both bounds set, a dated entry is in the window exactly when
      start <= date <= end. */
  lemma DatedEntryInWindow(w: Window, entry: Raw, d: string)
    requires Picked(w.start) && Picked(w.end)
    requires Prop(entry, "date") == Some(Str(d))
    ensures InWindow(w, entry) <==> LexLe(w.start.value, d) && LexLe(d, w.end.value)
  {
  }

  /** Every category of the ledger survives the filter, even when no entry
      is left in it, and it holds exactly the amounts of its entries inside
      the window under their own names. */
  lemma FilteredBudgetShape(w: Window, b: Ledger)
    requires LedgerUnique(b)
    ensures KeySet(FilteredBudget(w, b)) == KeySet(b)
    ensures forall i, j :: 0 <= i < |b| && 0 <= j < |b[i].1| ==>
      Lookup(FilteredBudget(w, b), b[i].0).Some? &&
      Lookup(Lookup(FilteredBudget(w, b), b[i].0).value, b[i].1[j].0)
        == if InWindow(w, b[i].1[j].1) then Some(AmountOf(b[i].1[j].1)) else None
  {
    WindowLedgerLookup(b, Keep(w), AmountOf);
    forall i | 0 <= i < |b|
      ensures forall j :: 0 <= j < |b[i].1| ==>
        Lookup(WindowEntries(b[i].1, Keep(w), AmountOf), b[i].1[j].0)
          == if InWindow(w, b[i].1[j].1) then Some(AmountOf(b[i].1[j].1)) else None
    {
      WindowEntriesLookup(b[i].1, Keep(w), AmountOf);
    }
  }

  /** The amounts of a category's entries inside the window, added in order. */
  function CategoryTotalInWindow(w: Window, es: Dict<Raw>): real
  {
    KeptTotal(es, Keep(w), AmountOf)
  }

  /** Line 397: the figure shown for each category is the sum of the
      amounts of its entries inside the window. */
  lemma CategoryTotalsInWindow(w: Window, b: Ledger, i: int)
    requires LedgerUnique(b) && 0 <= i < |b|
    ensures Lookup(CategoryTotals(FilteredBudget(w, b)), b[i].0) == Some(CategoryTotalInWindow(w, b[i].1))
  {
    CategoryTotalIsKeptTotal(b, Keep(w), AmountOf, i);
  }

  /** With the window open, a category's figure is the total of all its
      entries: the same amounts the remaining budget subtracts. */
  lemma {:induction false} OpenWindowTotal(w: Window, es: Dict<Raw>)
    requires Open(w)
    ensures CategoryTotalInWindow(w, es) == EntriesTotal(es)
  {
    if es != [] {
      OpenWindowTotal(w, es[..|es| - 1]);
      OpenWindowKeepsAll(w, es[|es| - 1].1);
    }
  }
}
