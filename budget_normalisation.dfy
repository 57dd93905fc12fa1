// The personal ledger as pages/MyBudget.js:88-115 reads it from the user's
// document: stored categories are cleaned into category -> entry name ->
// entry object, legacy bare-number entries are converted, and the date of
// every kept entry is collected for the calendar marks.

module BudgetNormalisation {
  import opened Js

  /** The date given to an entry that has none. */
  const DefaultDate: string := "2025-01-01"

  /** The normalised ledger: category -> entry name -> entry object. */
  type Ledger = Dict<Dict<Raw>>

  /** `typeof value.amount === 'number'` for an object entry. */
  predicate HasNumericAmount(v: Raw)
  {
    var a := Prop(v, "amount");
    a.Some? && a.value.Num?
  }

  /** The object that replaces a legacy bare-number entry (line 102). */
  function LegacyEntry(x: real): Raw
  {
    Obj([("amount", Num(x)), ("date", Str(DefaultDate))])
  }

  lemma LegacyEntryFields(x: real)
    ensures EntryDate(LegacyEntry(x)) == Str(DefaultDate)
    ensures HasNumericAmount(LegacyEntry(x)) && AmountOf(LegacyEntry(x)) == x
  {
    var f := LegacyEntry(x).fields;
    assert "amount"[0] != "date"[0];
    assert f[1..] == [("date", Str(DefaultDate))];
    assert Lookup(f, "date") == Lookup(f[1..], "date") == Some(Str(DefaultDate));
  }

  /** Lines 98-104 for one entry that is not null: kept as it is, converted, or dropped. */
  function NormaliseEntry(v: Raw): Option<Raw>
  {
    if v.Obj? && HasNumericAmount(v) then Some(v)
    else if v.Num? then Some(LegacyEntry(v.x))
    else None
  }

  /** `value.date ?? '2025-01-01'`. */
  function EntryDate(v: Raw): Raw
  {
    var d := Prop(v, "date");
    if d.None? || d.value.Null? then Str(DefaultDate) else d.value
  }

  /** `entry.amount` of a kept entry, which is always a number. */
  function AmountOf(v: Raw): real
  {
    var a := Prop(v, "amount");
    if a.Some? && a.value.Num? then a.value.x else 0.0
  }

  /** Lines 97-105 over the entries of one object-typed category: the category
      as filled and the dates pushed, or None where `null.amount` throws. */
  function NormaliseCategory(es: Dict<Raw>): Option<(Dict<Raw>, seq<Raw>)>
  {
    if es == [] then Some(([], []))
    else
      var last := es[|es| - 1];
      match NormaliseCategory(es[..|es| - 1])
      case None => None
      case Some(acc) =>
        if last.1.Null? then None
        else match NormaliseEntry(last.1)
          case None => Some(acc)
          case Some(e) => Some((Put(acc.0, last.0, e), acc.1 + [EntryDate(e)]))
  }

  /** Every entry of the ledger is an object with a numeric `amount`. */
  ghost predicate AmountsNumeric(b: Ledger)
  {
    forall c, e :: c in b && e in c.1 ==> HasNumericAmount(e.1)
  }

  /** Lines 98-103: every entry kept in a category has a numeric `amount`. */
  lemma {:induction false} CategoryAmountsNumeric(es: Dict<Raw>)
    requires NormaliseCategory(es).Some?
    ensures forall e :: e in NormaliseCategory(es).value.0 ==> HasNumericAmount(e.1)
  {
    if es != [] {
      var last := es[|es| - 1];
      CategoryAmountsNumeric(es[..|es| - 1]);
      var acc := NormaliseCategory(es[..|es| - 1]).value;
      match NormaliseEntry(last.1)
      case None =>
      case Some(e) =>
        if last.1.Num? { LegacyEntryFields(last.1.x); }
        PutMembers(acc.0, last.0, e);
    }
  }

  /** `validBudget` and `datesWithBudget` after the loops of lines 94-107. */
  datatype Normalised = Normalised(budget: Ledger, dates: seq<Raw>)

  /** Lines 94-107 over the stored categories, or None where the loop throws. */
  function NormaliseCategories(cats: Dict<Raw>): Option<Normalised>
  {
    if cats == [] then Some(Normalised([], []))
    else
      var last := cats[|cats| - 1];
      match NormaliseCategories(cats[..|cats| - 1])
      case None => None
      case Some(acc) =>
        if !IsObjectType(last.1) then Some(acc)
        else if last.1.Null? then None
        else match NormaliseCategory(EntriesOf(last.1).value)
          case None => None
          case Some(c) => Some(Normalised(Put(acc.budget, last.0, c.0), acc.dates + c.1))
  }

  /** The normalised ledger, the one the screen passes on, has a numeric
      `amount` in every entry. */
  lemma {:induction false} NormalisedAmountsNumeric(cats: Dict<Raw>)
    requires NormaliseCategories(cats).Some?
    ensures AmountsNumeric(NormaliseCategories(cats).value.budget)
  {
    if cats != [] {
      var last := cats[|cats| - 1];
      NormalisedAmountsNumeric(cats[..|cats| - 1]);
      var acc := NormaliseCategories(cats[..|cats| - 1]).value;
      if IsObjectType(last.1) && !last.1.Null? {
        var c := NormaliseCategory(EntriesOf(last.1).value).value;
        CategoryAmountsNumeric(EntriesOf(last.1).value);
        PutMembers(acc.budget, last.0, c.0);
      }
    }
  }

  /** `data.budget || {}`. */
  function BudgetSource(budget: Option<Raw>): (r: Raw)
    ensures !r.Null?
  {
    if Truthy(budget) then budget.value else Obj([])
  }

  function StoredCategories(budget: Option<Raw>): Dict<Raw>
  {
    EntriesOf(BudgetSource(budget)).value
  }

  function NormaliseBudget(budget: Option<Raw>): Option<Normalised>
  {
    NormaliseCategories(StoredCategories(budget))
  }

  /** The loops of lines 94-107: fills the normalised ledger and the list of
      entry dates, or gives None where the loop throws a TypeError (the
      page then keeps its previous state). */
  method Normalise(budget: Option<Raw>) returns (r: Option<Normalised>)
    ensures r == NormaliseBudget(budget)
  {
    var cats := StoredCategories(budget);
    var valid: Ledger := [];
    var dates: seq<Raw> := [];
    var i := 0;
    while i < |cats|
      invariant 0 <= i <= |cats|
      invariant NormaliseCategories(cats[..i]) == Some(Normalised(valid, dates))
    {
      var category, expenses := cats[i].0, cats[i].1;
      assert cats[..i + 1][..i] == cats[..i];
      if IsObjectType(expenses) {
        if expenses.Null? {
          CategoriesFailureSticks(cats, i + 1);
          return None;
        }
        var es := EntriesOf(expenses).value;
        var c := NormaliseEntries(es);
        if c.None? {
          CategoriesFailureSticks(cats, i + 1);
          return None;
        }
        var (kept, pushed) := c.value;
        valid := Put(valid, category, kept);
        dates := dates + pushed;
      }
      i := i + 1;
    }
    assert cats[..i] == cats;
    r := Some(Normalised(valid, dates));
  }

  /** The inner loop of lines 98-103, over one category's entries: the
      kept entries and their dates, or None where an entry is `null` and
      the loop throws. */
  method NormaliseEntries(es: Dict<Raw>) returns (r: Option<(Dict<Raw>, seq<Raw>)>)
    ensures r == NormaliseCategory(es)
  {
    var kept: Dict<Raw> := [];
    var pushed: seq<Raw> := [];
    var j := 0;
    while j < |es|
      invariant 0 <= j <= |es|
      invariant NormaliseCategory(es[..j]) == Some((kept, pushed))
    {
      var name, value := es[j].0, es[j].1;
      assert es[..j + 1][..j] == es[..j];
      if value.Null? {
        CategoryFailureSticks(es, j + 1);
        return None;
      }
      if value.Obj? && HasNumericAmount(value) {
        kept := Put(kept, name, value);
        pushed := pushed + [EntryDate(value)];
      } else if value.Num? {
        kept := Put(kept, name, LegacyEntry(value.x));
        LegacyEntryFields(value.x);
        pushed := pushed + [Str(DefaultDate)];
      }
      j := j + 1;
    }
    assert es[..j] == es;
    r := Some((kept, pushed));
  }

  lemma {:induction false} CategoryFailureSticks(es: Dict<Raw>, n: nat)
    requires n <= |es| && NormaliseCategory(es[..n]).None?
    ensures NormaliseCategory(es).None?
    decreases |es| - n
  {
    if n < |es| {
      assert es[..n + 1][..n] == es[..n];
      CategoryFailureSticks(es, n + 1);
    } else {
      assert es[..n] == es;
    }
  }

  lemma {:induction false} CategoriesFailureSticks(cats: Dict<Raw>, n: nat)
    requires n <= |cats| && NormaliseCategories(cats[..n]).None?
    ensures NormaliseCategories(cats).None?
    decreases |cats| - n
  {
    if n < |cats| {
      assert cats[..n + 1][..n] == cats[..n];
      CategoriesFailureSticks(cats, n + 1);
    } else {
      assert cats[..n] == cats;
    }
  }

  // ---------------------------------------------------------------------
  // When the loop throws

  ghost predicate HasNullEntry(es: Dict<Raw>)
  {
    exists j :: 0 <= j < |es| && es[j].1.Null?
  }

  /** A stored category value on which lines 94-105 throw: null itself, or an
      object or array holding a null entry. */
  ghost predicate Throws(v: Raw)
  {
    v.Null? || ((v.List? || v.Obj?) && HasNullEntry(EntriesOf(v).value))
  }

  lemma {:induction false} CategoryFails(es: Dict<Raw>)
    ensures NormaliseCategory(es).None? <==> HasNullEntry(es)
  {
    if es != [] {
      var init := es[..|es| - 1];
      CategoryFails(init);
      if HasNullEntry(init) {
        var j :| 0 <= j < |init| && init[j].1.Null?;
        assert es[j] == init[j];
      }
      if HasNullEntry(es) && !es[|es| - 1].1.Null? {
        var j :| 0 <= j < |es| && es[j].1.Null?;
        assert init[j] == es[j];
      }
    }
  }

  /** The normalisation fails exactly when some stored category is null or
      holds a null entry; a stored budget without such values always loads. */
  lemma {:induction false} NormaliseFails(budget: Option<Raw>)
    ensures NormaliseBudget(budget).None? <==>
      exists i :: 0 <= i < |StoredCategories(budget)| && Throws(StoredCategories(budget)[i].1)
  {
    CategoriesFail(StoredCategories(budget));
  }

  lemma {:induction false} CategoriesFail(cats: Dict<Raw>)
    ensures NormaliseCategories(cats).None? <==> exists i :: 0 <= i < |cats| && Throws(cats[i].1)
  {
    if cats != [] {
      var init := cats[..|cats| - 1];
      var last := cats[|cats| - 1];
      CategoriesFail(init);
      if last.1.List? || last.1.Obj? {
        CategoryFails(EntriesOf(last.1).value);
      }
      if exists i :: 0 <= i < |init| && Throws(init[i].1) {
        var i :| 0 <= i < |init| && Throws(init[i].1);
        assert cats[i] == init[i];
      }
      if (exists i :: 0 <= i < |cats| && Throws(cats[i].1)) && !Throws(last.1) {
        var i :| 0 <= i < |cats| && Throws(cats[i].1);
        assert init[i] == cats[i];
      }
    }
  }

  // ---------------------------------------------------------------------
  // The shape of a normalised ledger

  /** Every level of the ledger has distinct keys, as JavaScript objects do. */
  ghost predicate LedgerUnique(b: Ledger)
  {
    UniqueKeys(b) && forall i :: 0 <= i < |b| ==> UniqueKeys(b[i].1)
  }

  /** The stored budget as JavaScript objects hold it: distinct category
      names, and distinct entry names inside each object-typed category. */
  ghost predicate StoredUnique(cats: Dict<Raw>)
  {
    UniqueKeys(cats) &&
    forall i :: 0 <= i < |cats| && (cats[i].1.List? || cats[i].1.Obj?) ==> UniqueKeys(EntriesOf(cats[i].1).value)
  }

  /** The dates of a category's entries, in order, with the default for a missing or null date. */
  function EntryDates(kept: Dict<Raw>): seq<Raw>
  {
    if kept == [] then [] else EntryDates(kept[..|kept| - 1]) + [EntryDate(kept[|kept| - 1].1)]
  }

  function LedgerDates(b: Ledger): seq<Raw>
  {
    if b == [] then [] else LedgerDates(b[..|b| - 1]) + EntryDates(b[|b| - 1].1)
  }

  /** Within one category: an entry that is an object with a numeric amount
      is kept unchanged, a bare number becomes `{amount, date: '2025-01-01'}`,
      anything else is dropped; the dates pushed are those of the kept
      entries, in order. */
  lemma {:induction false} CategoryShape(es: Dict<Raw>)
    requires UniqueKeys(es) && NormaliseCategory(es).Some?
    ensures var (kept, dates) := NormaliseCategory(es).value;
      && UniqueKeys(kept)
      && KeySet(kept) <= KeySet(es)
      && dates == EntryDates(kept)
      && (forall j :: 0 <= j < |es| ==>
            Lookup(kept, es[j].0) == (if es[j].1.Obj? && HasNumericAmount(es[j].1) then Some(es[j].1)
                                      else if es[j].1.Num? then Some(LegacyEntry(es[j].1.x))
                                      else None))
  {
    if es != [] {
      var init, last := es[..|es| - 1], es[|es| - 1];
      LastKeyFresh(es);
      assert NormaliseCategory(init).Some?;
      CategoryShape(init);
      var (kept0, dates0) := NormaliseCategory(init).value;
      var (kept, dates) := NormaliseCategory(es).value;
      assert last.0 !in KeySet(kept0);
      LookupMissing(kept0, last.0);
      forall j | 0 <= j < |es| - 1 ensures Lookup(kept0, es[j].0) == NormaliseEntry(es[j].1) {
        assert es[j] == init[j];
      }
      match NormaliseEntry(last.1)
      case None =>
        assert kept == kept0 && dates == dates0;
      case Some(e) =>
        KeptEntryStep(es, kept0, e);
        assert kept == kept0 + [(last.0, e)];
        assert kept[..|kept| - 1] == kept0;
        assert dates == dates0 + [EntryDate(e)];
    }
  }

  /** The step of CategoryShape for a last entry that is kept: it is
      appended under its fresh key, and every earlier lookup is unchanged. */
  lemma KeptEntryStep(es: Dict<Raw>, kept0: Dict<Raw>, e: Raw)
    requires es != [] && UniqueKeys(es) && UniqueKeys(kept0) && es[|es| - 1].0 !in KeySet(kept0)
    requires NormaliseEntry(es[|es| - 1].1) == Some(e)
    requires forall j :: 0 <= j < |es| - 1 ==> Lookup(kept0, es[j].0) == NormaliseEntry(es[j].1)
    ensures var kept := Put(kept0, es[|es| - 1].0, e);
      && kept == kept0 + [(es[|es| - 1].0, e)]
      && UniqueKeys(kept)
      && KeySet(kept) == KeySet(kept0) + {es[|es| - 1].0}
      && forall j :: 0 <= j < |es| ==> Lookup(kept, es[j].0) == NormaliseEntry(es[j].1)
  {
    var k := es[|es| - 1].0;
    PutFresh(kept0, k, e);
    PutKeepsUnique(kept0, k, e);
    KeySetPut(kept0, k, e);
    forall j | 0 <= j < |es| ensures Lookup(Put(kept0, k, e), es[j].0) == NormaliseEntry(es[j].1) {
      LookupPut(kept0, k, e, es[j].0);
      if j < |es| - 1 { assert es[j].0 != k; }
    }
  }

  /** The normalised ledger keeps JavaScript's distinct keys at both levels,
      holds only stored category names, and the collected dates are the
      dates of its entries in order. */
  lemma {:induction false} BudgetUniqueAndDated(cats: Dict<Raw>)
    requires StoredUnique(cats) && NormaliseCategories(cats).Some?
    ensures var n := NormaliseCategories(cats).value;
      LedgerUnique(n.budget) && KeySet(n.budget) <= KeySet(cats) && n.dates == LedgerDates(n.budget)
  {
    if cats != [] {
      var init, last := cats[..|cats| - 1], cats[|cats| - 1];
      LastKeyFresh(cats);
      assert NormaliseCategories(init).Some?;
      StoredPrefix(cats);
      BudgetUniqueAndDated(init);
      var n0 := NormaliseCategories(init).value;
      if IsObjectType(last.1) {
        var es := EntriesOf(last.1).value;
        var c := NormaliseCategory(es).value;
        CategoryShape(es);
        AppendCategory(n0.budget, last.0, c.0);
        KeySetPut(n0.budget, last.0, c.0);
      }
    }
  }

  lemma AppendCategory(b: Ledger, k: string, c: Dict<Raw>)
    requires LedgerUnique(b) && k !in KeySet(b) && UniqueKeys(c)
    ensures Put(b, k, c) == b + [(k, c)]
    ensures LedgerUnique(b + [(k, c)])
    ensures LedgerDates(b + [(k, c)]) == LedgerDates(b) + EntryDates(c)
  {
    PutFresh(b, k, c);
    PutKeepsUnique(b, k, c);
    var b' := b + [(k, c)];
    assert b'[..|b'| - 1] == b;
    forall i | 0 <= i < |b'| ensures UniqueKeys(b'[i].1) {
      if i < |b| { assert b'[i] == b[i]; }
    }
  }

  lemma StoredPrefix(cats: Dict<Raw>)
    requires cats != [] && StoredUnique(cats)
    ensures StoredUnique(cats[..|cats| - 1])
  {
    var init := cats[..|cats| - 1];
    forall i | 0 <= i < |init| ensures init[i] == cats[i] {}
  }

  /** Every category whose stored value is an object (or array) appears in
      the normalised ledger with its normalised entries, even when all of
      them were dropped; every other category is absent. */
  lemma {:induction false} BudgetCategories(cats: Dict<Raw>)
    requires StoredUnique(cats) && NormaliseCategories(cats).Some?
    ensures forall i :: 0 <= i < |cats| ==>
      Lookup(NormaliseCategories(cats).value.budget, cats[i].0) == CategoryAfter(cats[i].1)
  {
    if cats != [] {
      var init, last := cats[..|cats| - 1], cats[|cats| - 1];
      LastKeyFresh(cats);
      assert NormaliseCategories(init).Some?;
      StoredPrefix(cats);
      BudgetCategories(init);
      BudgetUniqueAndDated(init);
      var n0 := NormaliseCategories(init).value;
      var n := NormaliseCategories(cats).value;
      assert last.0 !in KeySet(n0.budget);
      LookupMissing(n0.budget, last.0);
      forall i | 0 <= i < |cats| ensures Lookup(n.budget, cats[i].0) == CategoryAfter(cats[i].1) {
        if i < |cats| - 1 {
          assert cats[i] == init[i];
          if IsObjectType(last.1) {
            LookupPut(n0.budget, last.0, NormaliseCategory(EntriesOf(last.1).value).value.0, cats[i].0);
          }
        } else if IsObjectType(last.1) {
          LookupPut(n0.budget, last.0, NormaliseCategory(EntriesOf(last.1).value).value.0, cats[i].0);
        }
      }
    }
  }

  /** What the normalisation makes of a stored category value: its
      normalised entries when it is an object (or array), nothing otherwise. */
  function CategoryAfter(v: Raw): Option<Dict<Raw>>
  {
    if v.List? || v.Obj? then
      match NormaliseCategory(EntriesOf(v).value)
      case Some(c) => Some(c.0)
      case None => None
    else None
  }

  /** Membership in the collected dates: exactly the (defaulted) dates of the
      entries of the normalised ledger. */
  lemma {:induction false} LedgerDatesMembers(b: Ledger, d: Raw)
    ensures d in LedgerDates(b) <==>
      exists i, j :: 0 <= i < |b| && 0 <= j < |b[i].1| && EntryDate(b[i].1[j].1) == d
  {
    if b != [] {
      var init, last := b[..|b| - 1], b[|b| - 1];
      LedgerDatesMembers(init, d);
      EntryDatesMembers(last.1, d);
      if d in LedgerDates(init) {
        var i, j :| 0 <= i < |init| && 0 <= j < |init[i].1| && EntryDate(init[i].1[j].1) == d;
        assert b[i] == init[i];
      }
      if exists i, j :: 0 <= i < |b| && 0 <= j < |b[i].1| && EntryDate(b[i].1[j].1) == d {
        var i, j :| 0 <= i < |b| && 0 <= j < |b[i].1| && EntryDate(b[i].1[j].1) == d;
        if i < |b| - 1 { assert init[i] == b[i]; }
      }
    }
  }

  lemma {:induction false} EntryDatesMembers(kept: Dict<Raw>, d: Raw)
    ensures d in EntryDates(kept) <==> exists j :: 0 <= j < |kept| && EntryDate(kept[j].1) == d
  {
    if kept != [] {
      var init := kept[..|kept| - 1];
      EntryDatesMembers(init, d);
      if exists j :: 0 <= j < |init| && EntryDate(init[j].1) == d {
        var j :| 0 <= j < |init| && EntryDate(init[j].1) == d;
        assert kept[j] == init[j];
      }
      if exists j :: 0 <= j < |kept| && EntryDate(kept[j].1) == d {
        var j :| 0 <= j < |kept| && EntryDate(kept[j].1) == d;
        if j < |kept| - 1 { assert init[j] == kept[j]; }
      }
    }
  }

  /** Lines 109-112: the calendar marks one key per collected date. The
      marks are the date values themselves: JavaScript's conversion of a
      non-string date to its property-key string is not modelled. */
  method MarkDates(dates: seq<Raw>) returns (marked: set<Raw>)
    ensures forall d :: d in marked <==> d in dates
  {
    marked := {};
    var i := 0;
    while i < |dates|
      invariant 0 <= i <= |dates|
      invariant forall d :: d in marked <==> d in dates[..i]
    {
      marked := marked + {dates[i]};
      i := i + 1;
    }
    assert dates[..i] == dates;
  }

  /** The calendar marks exactly the dates of the entries kept by the
      normalisation, with '2025-01-01' standing in for a missing date. */
  lemma MarkedDatesAreEntryDates(budget: Option<Raw>, marked: set<Raw>, d: Raw)
    requires StoredUnique(StoredCategories(budget))
    requires NormaliseBudget(budget).Some?
    requires forall x :: x in marked <==> x in NormaliseBudget(budget).value.dates
    ensures var b := NormaliseBudget(budget).value.budget;
      d in marked <==> exists i, j :: 0 <= i < |b| && 0 <= j < |b[i].1| && EntryDate(b[i].1[j].1) == d
  {
    BudgetUniqueAndDated(StoredCategories(budget));
    LedgerDatesMembers(NormaliseBudget(budget).value.budget, d);
  }
}
