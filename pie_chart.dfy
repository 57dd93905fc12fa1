// The pie chart component (components/BudgetPieChart.js): the entries of
// the object it is given whose value is a positive number become slices,
// in order, coloured by position from a palette of seven; with no slice
// it shows a notice instead. Both budget screens give it their filtered
// category -> {name: amount} map (pages/MyBudget.js:394,
// pages/GroupBudget.js:308), whose values are objects: the model records
// that the chart is then always empty, and states the chart of the
// category totals the screens evidently mean.

module PieChart {
  import opened Js
  import opened CategoryView

  /** Lines 38-46. */
  const Palette: seq<string> := ["#F44336", "#2196F3", "#FFEB3B", "#4CAF50", "#9C27B0", "#FF9800", "#00BCD4"]

  /** Lines 37-48: `colors[index % colors.length]`. */
  function GetColor(index: nat): string
  {
    Palette[index % |Palette|]
  }

  /** One slice: `name`, `population` and `color` (the legend's font colour
      and size are the same constants for every slice). */
  datatype Slice = Slice(name: string, population: real, color: string)

  /** Line 9: `typeof value === 'number' && value > 0`. */
  predicate PositiveNumber(v: Raw)
  {
    v.Num? && v.x > 0.0
  }

  /** Line 9: the entries kept, with their numbers. */
  function Positive(data: Dict<Raw>): Dict<real>
  {
    if data == [] then []
    else (if PositiveNumber(data[0].1) then [(data[0].0, data[0].1.x)] else []) + Positive(data[1..])
  }

  /** Lines 8-16. */
  function ChartData(data: Dict<Raw>): seq<Slice>
  {
    var kept := Positive(data);
    seq(|kept|, i requires 0 <= i < |kept| => Slice(kept[i].0, kept[i].1, GetColor(i)))
  }

  /** What the component renders. */
  datatype Chart = NoData | Pie(slices: seq<Slice>)

  /** Lines 18-34. */
  function Render(data: Dict<Raw>): Chart
  {
    var slices := ChartData(data);
    if |slices| == 0 then NoData else Pie(slices)
  }

  /** The kept entries of a longer object are those of its first part
      followed by those of the rest: the filter keeps the order. */
  lemma {:induction false} PositiveAppend(xs: Dict<Raw>, ys: Dict<Raw>)
    ensures Positive(xs + ys) == Positive(xs) + Positive(ys)
  {
    if xs != [] {
      assert (xs + ys)[1..] == xs[1..] + ys;
      PositiveAppend(xs[1..], ys);
    } else {
      assert xs + ys == ys;
    }
  }

  /** An entry becomes a slice exactly when its value is a positive number. */
  lemma {:induction false} PositiveMembers(data: Dict<Raw>, k: string, x: real)
    ensures (k, x) in Positive(data) <==> (k, Num(x)) in data && x > 0.0
  {
    if data != [] {
      PositiveMembers(data[1..], k, x);
      assert data == [data[0]] + data[1..];
    }
  }

  /** One slice per kept entry, in order: the `i`-th slice is named by the
      `i`-th kept key, sized by its number and coloured by that position,
      modulo seven. */
  lemma ChartDataSlices(data: Dict<Raw>, i: int)
    requires 0 <= i < |ChartData(data)|
    ensures |ChartData(data)| == |Positive(data)|
    ensures ChartData(data)[i] == Slice(Positive(data)[i].0, Positive(data)[i].1, GetColor(i))
    ensures var s := ChartData(data)[i];
      (s.name, s.population) in Positive(data) && s.population > 0.0 && s.color == Palette[i % 7]
  {
    var s := ChartData(data)[i];
    assert (s.name, s.population) == Positive(data)[i];
    PositiveMembers(data, s.name, s.population);
  }

  /** Colours repeat every seven slices, and seven slices in a row all
      have different colours. */
  lemma ColorsCycle(i: nat, j: nat)
    ensures GetColor(i + 7) == GetColor(i)
    ensures i < j < i + 7 ==> GetColor(i) != GetColor(j)
  {
    if i < j < i + 7 {
      assert forall a, b :: 0 <= a < b < 7 ==> Palette[a] != Palette[b] by {
        // The second character tells most colours apart; the three that
        // start "#F" differ in their third or fourth.
        assert Palette[0][1] == 'F' && Palette[1][1] == '2' && Palette[2][1] == 'F' && Palette[3][1] == '4';
        assert Palette[4][1] == '9' && Palette[5][1] == 'F' && Palette[6][1] == '0';
        assert Palette[0][2] == '4' && Palette[2][2] == 'F' && Palette[5][2] == 'F';
        assert Palette[2][3] == 'E' && Palette[5][3] == '9';
      }
      assert i % 7 != j % 7;
    }
  }

  /** The notice is shown exactly when no value is a positive number. */
  lemma {:induction false} NoDataWhenNothingPositive(data: Dict<Raw>)
    ensures Render(data) == NoData <==> forall i :: 0 <= i < |data| ==> !PositiveNumber(data[i].1)
  {
    if data != [] {
      NoDataWhenNothingPositive(data[1..]);
      forall i | 0 <= i < |data[1..]| ensures data[1..][i] == data[i + 1] {}
    }
  }

  // ---------------------------------------------------------------------
  // What the budget screens pass

  /** A filtered category's entries, as the JavaScript object it is. */
  function EntriesObject(entries: Dict<real>): Raw
  {
    Obj(seq(|entries|, i requires 0 <= i < |entries| => (entries[i].0, Num(entries[i].1))))
  }

  /** pages/MyBudget.js:394 and pages/GroupBudget.js:308 as written: the
      chart gets category -> entries object. */
  function ScreenChartAsWritten(filtered: Dict<Dict<real>>): Chart
  {
    Render(ObjectsData(filtered))
  }

  function ObjectsData(filtered: Dict<Dict<real>>): Dict<Raw>
  {
    seq(|filtered|, i requires 0 <= i < |filtered| => (filtered[i].0, EntriesObject(filtered[i].1)))
  }

  /** Every value passed is an object, never a number: whatever was spent,
      the screens show "No budget data to show." */
  lemma ScreenChartAsWrittenIsEmpty(filtered: Dict<Dict<real>>)
    ensures ScreenChartAsWritten(filtered) == NoData
  {
    NoDataWhenNothingPositive(ObjectsData(filtered));
  }

  /** The chart the screens evidently mean: one value per category, the
      total shown beside it. */
  function ScreenChart(filtered: Dict<Dict<real>>): Chart
  {
    Render(TotalsData(filtered))
  }

  function TotalsData(filtered: Dict<Dict<real>>): Dict<Raw>
  {
    var totals := CategoryTotals(filtered);
    seq(|totals|, i requires 0 <= i < |totals| => (totals[i].0, Num(totals[i].1)))
  }

  /** A category gets a slice exactly when its total is positive, sized by
      that total; the chart is empty only when no category total is. */
  lemma ScreenChartSlices(filtered: Dict<Dict<real>>, k: string, x: real)
    ensures ScreenChart(filtered).Pie? ==>
      ((exists i :: 0 <= i < |ScreenChart(filtered).slices| && ScreenChart(filtered).slices[i].name == k
          && ScreenChart(filtered).slices[i].population == x)
       <==> (exists j :: 0 <= j < |filtered| && filtered[j].0 == k && SumValues(filtered[j].1) == x && x > 0.0))
    ensures ScreenChart(filtered) == NoData <==> forall j :: 0 <= j < |filtered| ==> SumValues(filtered[j].1) <= 0.0
  {
    var data := TotalsData(filtered);
    NoDataWhenNothingPositive(data);
    forall j | 0 <= j < |filtered| ensures data[j].1 == Num(SumValues(filtered[j].1)) {
      assert CategoryTotals(filtered)[j] == (filtered[j].0, SumValues(filtered[j].1));
    }
    PositiveMembers(data, k, x);
    var slices := ChartData(data);
    assert ScreenChart(filtered) == Render(data);
    if exists i :: 0 <= i < |slices| && slices[i].name == k && slices[i].population == x {
      var i :| 0 <= i < |slices| && slices[i].name == k && slices[i].population == x;
      assert Positive(data)[i] == (k, x);
      var j :| 0 <= j < |data| && data[j] == (k, Num(x));
      assert CategoryTotals(filtered)[j] == (filtered[j].0, SumValues(filtered[j].1));
      assert filtered[j].0 == k && SumValues(filtered[j].1) == x && x > 0.0;
    }
    if exists j :: 0 <= j < |filtered| && filtered[j].0 == k && SumValues(filtered[j].1) == x && x > 0.0 {
      var j :| 0 <= j < |filtered| && filtered[j].0 == k && SumValues(filtered[j].1) == x && x > 0.0;
      assert data[j] == (k, Num(x));
      var i :| 0 <= i < |Positive(data)| && Positive(data)[i] == (k, x);
      assert slices[i].name == k && slices[i].population == x;
      assert ScreenChart(filtered) == Pie(slices);
    }
  }
}
