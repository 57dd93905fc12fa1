// What the two budget screens share: the start/end date window the user
// picks, and the per-category totals rendered below the pie chart
// (pages/MyBudget.js:315-324 and 396-397, pages/GroupBudget.js:162-170 and
// 311-312).

module CategoryView {
  import opened Js

  /** `a <= b` on strings, character by character. Dafny orders characters by
      code point and JavaScript by UTF-16 code unit; the two agree on the
      ASCII characters of ISO dates. */
  predicate LexLe(a: string, b: string)
  {
    if a == [] then true
    else if b == [] then false
    else if a[0] != b[0] then a[0] < b[0]
    else LexLe(a[1..], b[1..])
  }

  lemma {:induction false} LexLeTotal(a: string, b: string)
    ensures LexLe(a, b) || LexLe(b, a)
  {
    if a != [] && b != [] && a[0] == b[0] {
      LexLeTotal(a[1..], b[1..]);
    }
  }

  lemma {:induction false} LexLeAntisymmetric(a: string, b: string)
    requires LexLe(a, b) && LexLe(b, a)
    ensures a == b
  {
    if a != [] && b != [] {
      LexLeAntisymmetric(a[1..], b[1..]);
      assert a == [a[0]] + a[1..] && b == [b[0]] + b[1..];
    }
  }

  lemma {:induction false} LexLeTransitive(a: string, b: string, c: string)
    requires LexLe(a, b) && LexLe(b, c)
    ensures LexLe(a, c)
  {
    if a != [] && b != [] && c != [] && a[0] == b[0] && b[0] == c[0] {
      LexLeTransitive(a[1..], b[1..], c[1..]);
    }
  }

  /** The start and end dates picked on a screen; `null` until the user picks one. */
  datatype Window = Window(start: Option<string>, end: Option<string>)

  /** A bound counts as set when it is truthy: neither null nor the empty string. */
  predicate Picked(bound: Option<string>)
  {
    bound.Some? && bound.value != ""
  }

  /** `!startDate || !endDate`: the window filters nothing. */
  predicate Open(w: Window)
  {
    !Picked(w.start) || !Picked(w.end)
  }

  /** `!startDate || !endDate || (date >= startDate && date <= endDate)` for a string date. */
  predicate Admits(w: Window, date: string)
  {
    Open(w) || (LexLe(w.start.value, date) && LexLe(date, w.end.value))
  }

  /** A window is an interval: a date between two dates it admits is
      admitted too. */
  lemma WindowIsInterval(w: Window, d1: string, d: string, d2: string)
    requires Admits(w, d1) && Admits(w, d2) && LexLe(d1, d) && LexLe(d, d2)
    ensures Admits(w, d)
  {
    if !Open(w) {
      LexLeTransitive(w.start.value, d1, d);
      LexLeTransitive(d, d2, w.end.value);
    }
  }

  /** `Object.values(expenses).reduce((sum, val) => sum + val, 0)`. */
  function SumValues(o: Dict<real>): real
  {
    if o == [] then 0.0 else SumValues(o[..|o| - 1]) + o[|o| - 1].1
  }

  /** The figure rendered next to each category: the total of its filtered amounts. */
  function CategoryTotals(f: Dict<Dict<real>>): Dict<real>
  {
    seq(|f|, i requires 0 <= i < |f| => (f[i].0, SumValues(f[i].1)))
  }

  // ---------------------------------------------------------------------
  // The window filter. Both screens build `filteredBudget` the same way:
  // every category gets an object, and an entry's amount is copied into
  // it under the entry's name when the entry lies in the window. The two
  // screens differ only in how an entry's date is read, so the filter is
  // stated once, for a test `keep` and a reading `amount` of an entry.

  /** `filteredBudget[category]` after the inner loop over `es`. */
  function WindowEntries<E>(es: Dict<E>, keep: E -> bool, amount: E -> real): Dict<real>
  {
    if es == [] then []
    else
      var acc := WindowEntries(es[..|es| - 1], keep, amount);
      var last := es[|es| - 1];
      if keep(last.1) then Put(acc, last.0, amount(last.1)) else acc
  }

  /** `filteredBudget` after the outer loop over the categories of `b`. */
  function WindowLedger<E>(b: Dict<Dict<E>>, keep: E -> bool, amount: E -> real): Dict<Dict<real>>
  {
    if b == [] then []
    else Put(WindowLedger(b[..|b| - 1], keep, amount), b[|b| - 1].0, WindowEntries(b[|b| - 1].1, keep, amount))
  }

  /** The amounts of the entries the window keeps, added in order. */
  function KeptTotal<E>(es: Dict<E>, keep: E -> bool, amount: E -> real): real
  {
    if es == [] then 0.0
    else KeptTotal(es[..|es| - 1], keep, amount) + (if keep(es[|es| - 1].1) then amount(es[|es| - 1].1) else 0.0)
  }

  /** The filtered category holds exactly the kept entries, under their own
      names and with their amounts; every other name is absent. */
  lemma {:induction false} WindowEntriesLookup<E>(es: Dict<E>, keep: E -> bool, amount: E -> real)
    requires UniqueKeys(es)
    ensures UniqueKeys(WindowEntries(es, keep, amount))
    ensures KeySet(WindowEntries(es, keep, amount)) == set j | 0 <= j < |es| && keep(es[j].1) :: es[j].0
    ensures forall j :: 0 <= j < |es| ==>
      Lookup(WindowEntries(es, keep, amount), es[j].0) == if keep(es[j].1) then Some(amount(es[j].1)) else None
  {
    if es != [] {
      var init, last := es[..|es| - 1], es[|es| - 1];
      LastKeyFresh(es);
      WindowEntriesLookup(init, keep, amount);
      var acc := WindowEntries(init, keep, amount);
      assert last.0 !in KeySet(acc);
      LookupMissing(acc, last.0);
      forall j | 0 <= j < |init| ensures es[j] == init[j] {}
      if keep(last.1) {
        PutKeepsUnique(acc, last.0, amount(last.1));
        KeySetPut(acc, last.0, amount(last.1));
        forall j | 0 <= j < |es| ensures Lookup(WindowEntries(es, keep, amount), es[j].0) == if keep(es[j].1) then Some(amount(es[j].1)) else None {
          LookupPut(acc, last.0, amount(last.1), es[j].0);
        }
      }
    }
  }

  /** Each filtered category adds up to the amounts of its kept entries. */
  lemma {:induction false} WindowEntriesTotal<E>(es: Dict<E>, keep: E -> bool, amount: E -> real)
    requires UniqueKeys(es)
    ensures SumValues(WindowEntries(es, keep, amount)) == KeptTotal(es, keep, amount)
  {
    if es != [] {
      var init, last := es[..|es| - 1], es[|es| - 1];
      LastKeyFresh(es);
      WindowEntriesTotal(init, keep, amount);
      WindowEntriesLookup(init, keep, amount);
      var acc := WindowEntries(init, keep, amount);
      if keep(last.1) {
        assert last.0 !in KeySet(acc);
        PutFresh(acc, last.0, amount(last.1));
        var r := acc + [(last.0, amount(last.1))];
        assert r[..|r| - 1] == acc;
      }
    }
  }

  /** Every category of the ledger survives the filter, even one left
      empty, and holds the filtered entries of that category. */
  lemma {:induction false} WindowLedgerLookup<E>(b: Dict<Dict<E>>, keep: E -> bool, amount: E -> real)
    requires UniqueKeys(b)
    ensures UniqueKeys(WindowLedger(b, keep, amount))
    ensures KeySet(WindowLedger(b, keep, amount)) == KeySet(b)
    ensures forall i :: 0 <= i < |b| ==>
      Lookup(WindowLedger(b, keep, amount), b[i].0) == Some(WindowEntries(b[i].1, keep, amount))
  {
    if b != [] {
      var init, last := b[..|b| - 1], b[|b| - 1];
      LastKeyFresh(b);
      WindowLedgerLookup(init, keep, amount);
      var acc := WindowLedger(init, keep, amount);
      var c := WindowEntries(last.1, keep, amount);
      PutKeepsUnique(acc, last.0, c);
      KeySetPut(acc, last.0, c);
      KeySetTailLast(b);
      forall i | 0 <= i < |b| ensures Lookup(WindowLedger(b, keep, amount), b[i].0) == Some(WindowEntries(b[i].1, keep, amount)) {
        LookupPut(acc, last.0, c, b[i].0);
        if i < |b| - 1 { assert b[i] == init[i]; }
      }
    }
  }

  /** The total shown for a category is the sum of its values, looked up by name. */
  lemma {:induction false} CategoryTotalsLookup(f: Dict<Dict<real>>, k: string)
    ensures Lookup(CategoryTotals(f), k) == if Lookup(f, k).Some? then Some(SumValues(Lookup(f, k).value)) else None
  {
    if f != [] {
      assert CategoryTotals(f)[1..] == CategoryTotals(f[1..]);
      CategoryTotalsLookup(f[1..], k);
    }
  }

  /** The figure rendered for each category of the ledger is the total of
      the amounts of its entries inside the window. */
  lemma CategoryTotalIsKeptTotal<E>(b: Dict<Dict<E>>, keep: E -> bool, amount: E -> real, i: int)
    requires UniqueKeys(b) && 0 <= i < |b| && UniqueKeys(b[i].1)
    ensures Lookup(CategoryTotals(WindowLedger(b, keep, amount)), b[i].0) == Some(KeptTotal(b[i].1, keep, amount))
  {
    WindowLedgerLookup(b, keep, amount);
    CategoryTotalsLookup(WindowLedger(b, keep, amount), b[i].0);
    WindowEntriesTotal(b[i].1, keep, amount);
  }
}
