/** The calculation layer of `form/app.js`: the per-unit factor that divides every
    parcel figure by a unit count, scaled totals, a tax reference list whose county
    items always follow all six lines, the address auto-fill that looks amounts up
    by authority name, and a school-spending table in which every category with
    detail rows is expanded and every row's share is taken against the district
    total. */
module FormApp {
  import opened Wrappers
  import opened Coercion
  import opened Sums
  import opened Spending
  import opened Inputs
  import App

  /** `getTaxLines`: the six tax-authority lines, in the order form/app.js lists them. */
  const TaxLines: seq<Line> := [
    Line("butler", TaxButlerCounty), Line("csd", TaxFairfieldCsd), Line("city", TaxFairfieldCity),
    Line("jvsd", TaxButlerJvsd), Line("parks", TaxMetroParks), Line("library", TaxLibrary)]

  /** `getCountyItems`: the five county items. */
  const CountyItems: seq<Line> := [
    Line("gf", CountyGeneralFund), Line("dd", CountyDd), Line("mh", CountyMentalHealth),
    Line("cs", CountyChildren), Line("sc", CountySenior)]

  // ---------- per-unit factor ----------

  /** `Math.round`: the nearest integer, halves rounding up. */
  function Round(x: real): (r: int)
    ensures r as real - 0.5 <= x < r as real + 0.5
  {
    (x + 0.5).Floor
  }

  /** `Math.round(toNumber(unitCount.value))`. */
  function UnitCount(text: string): int {
    Round(ToNumber(Some(text)))
  }

  /** `getPerUnitFactor`, given the toggle and the rounded unit count: the factor is
      in (0, 1], is 1 exactly when the toggle is off or there are fewer than two
      units, and otherwise is one unit's part of the parcel. */
  function Factor(enabled: bool, units: int): (f: real)
    ensures 0.0 < f <= 1.0
    ensures f == 1.0 <==> !enabled || units <= 1
    ensures enabled && units > 1 ==> f * (units as real) == 1.0
  {
    if !enabled || units <= 1 then 1.0 else 1.0 / (units as real)
  }

  /** What `renderPerUnitStatus` shows. */
  datatype PerUnitStatus = Off | EnterUnits | PerUnit(units: int)

  /** `renderPerUnitStatus`: "Off" exactly when the toggle is off, "1/n" exactly when
      the factor is below 1, and then n is the unit count the factor divides by. */
  function StatusOf(enabled: bool, units: int): (s: PerUnitStatus)
    ensures s.Off? <==> !enabled
    ensures s.PerUnit? <==> Factor(enabled, units) < 1.0
    ensures s.PerUnit? ==> s.units == units && Factor(enabled, units) * (s.units as real) == 1.0
  {
    if !enabled then Off else if units <= 1 then EnterUnits else PerUnit(units)
  }

  /** The unit count "72" of the apartment demo divides by 72; an empty count leaves
      the factor at 1 and asks for units. */
  lemma UnitCountExamples()
    ensures UnitCount("72") == 72 && Factor(true, UnitCount("72")) == 1.0 / 72.0
    ensures StatusOf(true, UnitCount("72")) == PerUnit(72)
    ensures UnitCount("") == 0 && Factor(true, UnitCount("")) == 1.0
    ensures StatusOf(true, UnitCount("")) == EnterUnits
  {
    assert NatDigits(72) == "72";
    ToNumberOfIntText(72);
  }

  // ---------- totals ----------

  /** `Object.values(amounts).reduce(...)`: the parcel's six tax lines added up. */
  function ParcelLinesTotal(v: Values): real {
    Sum(LineAmounts(v, TaxLines))
  }

  /** `getCountyItems().total`: the parcel's five county items added up. */
  function ParcelCountyTotal(v: Values): real {
    Sum(LineAmounts(v, CountyItems))
  }

  /** `csdLineParcel * f`: the school-district line, scaled. */
  function CsdLine(v: Values, f: real): real {
    Scale(Amount(v, TaxFairfieldCsd), f)
  }

  /** The form lists the lines in another order than app.js, but the parcel totals are
      the same six lines and five items, so before scaling they agree with app.js. */
  lemma ParcelTotalsMatchApp(v: Values)
    ensures ParcelLinesTotal(v) == App.TotalPropertyTax(v)
    ensures ParcelCountyTotal(v) == App.CountyPortionTotal(v)
  {
    SumOfSix(LineAmounts(v, TaxLines));
    SumOfFive(LineAmounts(v, CountyItems));
    App.TotalPropertyTaxIsSixLines(v);
    App.CountyPortionIsFiveItems(v);
  }

  // ---------- tax reference list ----------

  /** Line rows for a run of tax lines and their amounts, each amount scaled by `f`. */
  function LineRowsOf(lines: seq<Line>, amounts: seq<real>, f: real): seq<RefRow>
    requires |amounts| == |lines|
  {
    if lines == [] then []
    else LineRowsOf(lines[..|lines| - 1], amounts[..|lines| - 1], f) + [LineRow(lines[|lines| - 1].id, Scale(amounts[|lines| - 1], f))]
  }

  /** County mini rows for a run of county items and their amounts, scaled by `f`. */
  function CountyRowsOf(items: seq<Line>, amounts: seq<real>, f: real): seq<RefRow>
    requires |amounts| == |items|
  {
    if items == [] then []
    else CountyRowsOf(items[..|items| - 1], amounts[..|items| - 1], f) + [CountyRow(items[|items| - 1].id, Scale(amounts[|items| - 1], f))]
  }

  /** The scaled rows of the tax lines: `(amounts[x.id] || 0) * f`. */
  function ScaledLineRows(v: Values, lines: seq<Line>, f: real): seq<RefRow> {
    LineRowsOf(lines, LineAmounts(v, lines), f)
  }

  /** The scaled mini rows of the county items: `toNumber(ci.el.value) * f`. */
  function ScaledCountyRows(v: Values, items: seq<Line>, f: real): seq<RefRow> {
    CountyRowsOf(items, LineAmounts(v, items), f)
  }

  /** `renderBreakdown`: the six line rows, one separator, then the five county rows. */
  function BreakdownRows(v: Values, f: real): seq<RefRow> {
    ScaledLineRows(v, TaxLines, f) + [Separator] + ScaledCountyRows(v, CountyItems, f)
  }

  /** The line rows add up to the sum of the scaled amounts and hold no county row. */
  lemma {:induction false} LineRowsOfTotals(lines: seq<Line>, amounts: seq<real>, f: real)
    requires |amounts| == |lines|
    ensures |LineRowsOf(lines, amounts, f)| == |lines|
    ensures LineRowTotal(LineRowsOf(lines, amounts, f)) == Sum(Scaled(amounts, f))
    ensures CountyRowTotal(LineRowsOf(lines, amounts, f)) == 0.0
    decreases |lines|
  {
    if lines != [] {
      var n := |lines| - 1;
      var rows := LineRowsOf(lines, amounts, f);
      assert rows[..|rows| - 1] == LineRowsOf(lines[..n], amounts[..n], f);
      LineRowsOfTotals(lines[..n], amounts[..n], f);
      var sc := Scaled(amounts, f);
      assert amounts[..|amounts| - 1] == amounts[..n];
      assert sc[..|sc| - 1] == Scaled(amounts[..n], f);
    }
  }

  /** The county rows add up to the sum of the scaled amounts and hold no line row. */
  lemma {:induction false} CountyRowsOfTotals(items: seq<Line>, amounts: seq<real>, f: real)
    requires |amounts| == |items|
    ensures |CountyRowsOf(items, amounts, f)| == |items|
    ensures CountyRowTotal(CountyRowsOf(items, amounts, f)) == Sum(Scaled(amounts, f))
    ensures LineRowTotal(CountyRowsOf(items, amounts, f)) == 0.0
    decreases |items|
  {
    if items != [] {
      var n := |items| - 1;
      var rows := CountyRowsOf(items, amounts, f);
      assert rows[..|rows| - 1] == CountyRowsOf(items[..n], amounts[..n], f);
      CountyRowsOfTotals(items[..n], amounts[..n], f);
      var sc := Scaled(amounts, f);
      assert amounts[..|amounts| - 1] == amounts[..n];
      assert sc[..|sc| - 1] == Scaled(amounts[..n], f);
    }
  }

  /** Line rows, a separator, then county rows: the list's line total is the first
      part's and its county total the second part's. */
  lemma RefListTotals(lr: seq<RefRow>, cr: seq<RefRow>)
    requires CountyRowTotal(lr) == 0.0 && LineRowTotal(cr) == 0.0
    ensures LineRowTotal(lr + [Separator] + cr) == LineRowTotal(lr)
    ensures CountyRowTotal(lr + [Separator] + cr) == CountyRowTotal(cr)
  {
    RefTotalsAppend(lr, [Separator]);
    RefTotalsAppend(lr + [Separator], cr);
    assert LineRowTotal([Separator]) == 0.0 && CountyRowTotal([Separator]) == 0.0 by {
      assert [Separator][..0] == [];
    }
  }

  /** For any lines and items, the scaled line rows, a separator and the scaled county
      rows: the line rows add up to the lines' total × f, the county rows to the
      items' total × f. */
  lemma ScaledListTotals(v: Values, lines: seq<Line>, items: seq<Line>, f: real)
    ensures LineRowTotal(ScaledLineRows(v, lines, f) + [Separator] + ScaledCountyRows(v, items, f)) ==
      Scale(Sum(LineAmounts(v, lines)), f)
    ensures CountyRowTotal(ScaledLineRows(v, lines, f) + [Separator] + ScaledCountyRows(v, items, f)) ==
      Scale(Sum(LineAmounts(v, items)), f)
  {
    var xs := LineAmounts(v, lines);
    var ys := LineAmounts(v, items);
    LineRowsOfTotals(lines, xs, f);
    CountyRowsOfTotals(items, ys, f);
    SumScaled(xs, f);
    SumScaled(ys, f);
    RefListTotals(ScaledLineRows(v, lines, f), ScaledCountyRows(v, items, f));
  }

  /** The list has twelve rows with the separator seventh, after all six lines. */
  lemma BreakdownLayout(v: Values, f: real)
    ensures |BreakdownRows(v, f)| == 12 && BreakdownRows(v, f)[6] == Separator
  {
    LineRowsOfTotals(TaxLines, LineAmounts(v, TaxLines), f);
    CountyRowsOfTotals(CountyItems, LineAmounts(v, CountyItems), f);
  }

  /** The list's line rows add up to the scaled line total and its county rows to the
      scaled county total, the two figures printed under it. */
  lemma BreakdownTotals(v: Values, f: real)
    ensures LineRowTotal(BreakdownRows(v, f)) == Scale(ParcelLinesTotal(v), f)
    ensures CountyRowTotal(BreakdownRows(v, f)) == Scale(ParcelCountyTotal(v), f)
  {
    ScaledListTotals(v, TaxLines, CountyItems, f);
  }

  /** `lines.forEach`: one scaled row per tax line, in order. */
  method BuildLineRows(v: Values, lines: seq<Line>, f: real) returns (rows: seq<RefRow>)
    ensures rows == ScaledLineRows(v, lines, f)
  {
    var amounts := LineAmounts(v, lines);
    rows := [];
    var i := 0;
    while i < |lines|
      invariant 0 <= i <= |lines|
      invariant rows == LineRowsOf(lines[..i], amounts[..i], f)
    {
      assert lines[..i + 1][..i] == lines[..i];
      assert amounts[..i + 1][..i] == amounts[..i];
      rows := rows + [LineRow(lines[i].id, Scale(Amount(v, lines[i].field), f))];
      i := i + 1;
    }
    assert lines[..i] == lines;
    assert amounts[..i] == amounts;
  }

  /** `items.forEach`: one scaled mini row per county item, in order. */
  method BuildCountyRows(v: Values, items: seq<Line>, f: real) returns (rows: seq<RefRow>)
    ensures rows == ScaledCountyRows(v, items, f)
  {
    var amounts := LineAmounts(v, items);
    rows := [];
    var j := 0;
    while j < |items|
      invariant 0 <= j <= |items|
      invariant rows == CountyRowsOf(items[..j], amounts[..j], f)
    {
      assert items[..j + 1][..j] == items[..j];
      assert amounts[..j + 1][..j] == amounts[..j];
      rows := rows + [CountyRow(items[j].id, Scale(Amount(v, items[j].field), f))];
      j := j + 1;
    }
    assert items[..j] == items;
    assert amounts[..j] == amounts;
  }

  /** `renderBreakdown`'s list: the line rows, the separator, the county rows. */
  method BuildBreakdown(v: Values, f: real) returns (rows: seq<RefRow>)
    ensures rows == BreakdownRows(v, f)
  {
    var lineRows := BuildLineRows(v, TaxLines, f);
    var countyRows := BuildCountyRows(v, CountyItems, f);
    rows := lineRows + [Separator] + countyRows;
  }

  // ---------- school spending ----------

  /** The detail rows of a category: `cShare = cAmount / safeDistrictTotal * csdLine`,
      the same divisor as the categories' own rows. */
  function ChildRows(children: seq<Use>, yearKey: string, divisor: real, csdLine: real): seq<Row>
    requires divisor > 0.0
  {
    if children == [] then []
    else
      var c := children[|children| - 1];
      var cAmount := YearAmount(c, yearKey);
      ChildRows(children[..|children| - 1], yearKey, divisor, csdLine) +
        [Row(c.id, cAmount, Portion(cAmount, divisor, csdLine), true)]
  }

  /** The rows one category contributes: its own row, then one row per child. */
  function UseRows(u: Use, yearKey: string, divisor: real, csdLine: real): seq<Row>
    requires divisor > 0.0
  {
    [ParentRow(u, yearKey, divisor, csdLine)] + ChildRows(u.children, yearKey, divisor, csdLine)
  }

  function RowsFrom(uses: seq<Use>, yearKey: string, divisor: real, csdLine: real): seq<Row>
    requires divisor > 0.0
  {
    if uses == [] then []
    else RowsFrom(uses[..|uses| - 1], yearKey, divisor, csdLine) + UseRows(uses[|uses| - 1], yearKey, divisor, csdLine)
  }

  /** `renderSchools`: the table for the year, with the divisor falling back to 1. */
  function SchoolRows(uses: seq<Use>, yearKey: string, csdLine: real): seq<Row> {
    RowsFrom(uses, yearKey, SafeDivisor(DistrictTotal(uses, yearKey)), csdLine)
  }

  /** The detail rows are the children, in order, each a detail row with the child's
      own amount and its portion of the line. */
  lemma {:induction false} ChildRowsShape(children: seq<Use>, yearKey: string, divisor: real, csdLine: real)
    requires divisor > 0.0
    ensures |ChildRows(children, yearKey, divisor, csdLine)| == |children|
    ensures forall k :: 0 <= k < |children| ==>
      ChildRows(children, yearKey, divisor, csdLine)[k] ==
      Row(children[k].id, YearAmount(children[k], yearKey), Portion(YearAmount(children[k], yearKey), divisor, csdLine), true)
    decreases |children|
  {
    if children != [] {
      ChildRowsShape(children[..|children| - 1], yearKey, divisor, csdLine);
    }
  }

  /** The detail shares add up to the portion of the children's year total. */
  lemma {:induction false} ChildShareTotal(children: seq<Use>, yearKey: string, divisor: real, csdLine: real)
    requires divisor > 0.0
    ensures ShareTotal(ChildRows(children, yearKey, divisor, csdLine)) ==
      Portion(Sum(YearAmounts(children, yearKey)), divisor, csdLine)
    decreases |children|
  {
    if children != [] {
      var init := children[..|children| - 1];
      var rows := ChildRows(children, yearKey, divisor, csdLine);
      assert rows[..|rows| - 1] == ChildRows(init, yearKey, divisor, csdLine);
      var xs := YearAmounts(children, yearKey);
      assert xs[..|xs| - 1] == YearAmounts(init, yearKey);
      ChildShareTotal(init, yearKey, divisor, csdLine);
      PortionAdd(Sum(YearAmounts(init, yearKey)), xs[|xs| - 1], divisor, csdLine);
    }
  }

  /** The detail rows of a category: their shape, no top-level share or row among
      them, and their shares' total. */
  lemma ChildTotals(children: seq<Use>, yearKey: string, divisor: real, csdLine: real)
    requires divisor > 0.0
    ensures |ChildRows(children, yearKey, divisor, csdLine)| == |children|
    ensures forall k :: 0 <= k < |children| ==>
      ChildRows(children, yearKey, divisor, csdLine)[k] ==
      Row(children[k].id, YearAmount(children[k], yearKey), Portion(YearAmount(children[k], yearKey), divisor, csdLine), true)
    ensures TopShareTotal(ChildRows(children, yearKey, divisor, csdLine)) == 0.0
    ensures TopRows(ChildRows(children, yearKey, divisor, csdLine)) == []
    ensures ShareTotal(ChildRows(children, yearKey, divisor, csdLine)) ==
      Portion(Sum(YearAmounts(children, yearKey)), divisor, csdLine)
  {
    ChildRowsShape(children, yearKey, divisor, csdLine);
    ChildRowsAreNotTop(ChildRows(children, yearKey, divisor, csdLine));
    ChildShareTotal(children, yearKey, divisor, csdLine);
  }

  /** Each category's own row is its only top-level row; a category without
      children contributes that row alone. */
  lemma UseRowsTop(u: Use, yearKey: string, divisor: real, csdLine: real)
    requires divisor > 0.0
    ensures u.children == [] ==> UseRows(u, yearKey, divisor, csdLine) == [ParentRow(u, yearKey, divisor, csdLine)]
    ensures TopRows(UseRows(u, yearKey, divisor, csdLine)) == [ParentRow(u, yearKey, divisor, csdLine)]
    ensures TopShareTotal(UseRows(u, yearKey, divisor, csdLine)) == ParentRow(u, yearKey, divisor, csdLine).share
  {
    var p := ParentRow(u, yearKey, divisor, csdLine);
    var kids := ChildRows(u.children, yearKey, divisor, csdLine);
    ChildTotals(u.children, yearKey, divisor, csdLine);
    RowTotalsAppend([p], kids);
    assert [p][..0] == [];
  }

  /** The detail shares of a category add up to its own share exactly when the detail
      amounts add up to its amount, whenever the CSD line is not zero. */
  lemma ChildrenSumToShare(u: Use, yearKey: string, divisor: real, csdLine: real)
    requires divisor > 0.0 && csdLine != 0.0
    ensures var rows := UseRows(u, yearKey, divisor, csdLine);
      ShareTotal(rows[1..]) == rows[0].share <==> Sum(YearAmounts(u.children, yearKey)) == YearAmount(u, yearKey)
  {
    var rows := UseRows(u, yearKey, divisor, csdLine);
    assert rows[1..] == ChildRows(u.children, yearKey, divisor, csdLine);
    ChildTotals(u.children, yearKey, divisor, csdLine);
    PortionInjective(Sum(YearAmounts(u.children, yearKey)), YearAmount(u, yearKey), divisor, csdLine);
  }

  /** The table of two runs of categories is the first run's rows, then the second's. */
  lemma {:induction false} RowsFromAppend(a: seq<Use>, b: seq<Use>, yearKey: string, divisor: real, csdLine: real)
    requires divisor > 0.0
    ensures RowsFrom(a + b, yearKey, divisor, csdLine) == RowsFrom(a, yearKey, divisor, csdLine) + RowsFrom(b, yearKey, divisor, csdLine)
    decreases |b|
  {
    if b == [] {
      assert a + b == a;
    } else {
      var init := b[..|b| - 1];
      var u := b[|b| - 1];
      assert (a + b)[..|a + b| - 1] == a + init;
      assert (a + b)[|a + b| - 1] == u;
      RowsFromAppend(a, init, yearKey, divisor, csdLine);
      var x := RowsFrom(a, yearKey, divisor, csdLine);
      var y := RowsFrom(init, yearKey, divisor, csdLine);
      var z := UseRows(u, yearKey, divisor, csdLine);
      assert RowsFrom(a + b, yearKey, divisor, csdLine) == (x + y) + z;
      assert (x + y) + z == x + (y + z);
    }
  }

  /** Rows come out in dataset order: the rows of the categories before the i-th, then
      the i-th category's own row followed at once by its detail rows, then the
      rows of the categories after it. */
  lemma RowsInDatasetOrder(uses: seq<Use>, i: nat, yearKey: string, divisor: real, csdLine: real)
    requires i < |uses| && divisor > 0.0
    ensures RowsFrom(uses, yearKey, divisor, csdLine) ==
      RowsFrom(uses[..i], yearKey, divisor, csdLine) +
      ([ParentRow(uses[i], yearKey, divisor, csdLine)] + ChildRows(uses[i].children, yearKey, divisor, csdLine)) +
      RowsFrom(uses[i + 1..], yearKey, divisor, csdLine)
  {
    assert uses == uses[..i + 1] + uses[i + 1..];
    RowsFromAppend(uses[..i + 1], uses[i + 1..], yearKey, divisor, csdLine);
    assert uses[..i + 1][..i] == uses[..i];
  }

  /** Over any list of categories the top-level shares add up to the categories'
      year total over the divisor. */
  lemma {:induction false} RowsFromTopShares(uses: seq<Use>, yearKey: string, divisor: real, csdLine: real)
    requires divisor > 0.0
    ensures TopShareTotal(RowsFrom(uses, yearKey, divisor, csdLine)) == Portion(DistrictTotal(uses, yearKey), divisor, csdLine)
    decreases |uses|
  {
    if uses != [] {
      var init := uses[..|uses| - 1];
      var u := uses[|uses| - 1];
      assert init + [u] == uses;
      RowsFromTopShares(init, yearKey, divisor, csdLine);
      UseRowsTop(u, yearKey, divisor, csdLine);
      TopShareStep(RowsFrom(init, yearKey, divisor, csdLine), UseRows(u, yearKey, divisor, csdLine),
        DistrictTotal(init, yearKey), YearAmount(u, yearKey), divisor, csdLine);
      DistrictTotalSnoc(init, u, yearKey);
    }
  }

  /** The top-level rows of the table are the categories' own rows, in dataset order. */
  lemma {:induction false} RowsFromTopRows(uses: seq<Use>, yearKey: string, divisor: real, csdLine: real)
    requires divisor > 0.0
    ensures TopRows(RowsFrom(uses, yearKey, divisor, csdLine)) == ParentRows(uses, yearKey, divisor, csdLine)
    decreases |uses|
  {
    if uses != [] {
      var init := uses[..|uses| - 1];
      var u := uses[|uses| - 1];
      RowsFromTopRows(init, yearKey, divisor, csdLine);
      RowTotalsAppend(RowsFrom(init, yearKey, divisor, csdLine), UseRows(u, yearKey, divisor, csdLine));
      UseRowsTop(u, yearKey, divisor, csdLine);
    }
  }

  /** When the district total is positive the top-level shares add up to the CSD line
      exactly; otherwise the divisor is 1 and they add up to total × CSD line. */
  lemma TopSharesSumToCsdLine(uses: seq<Use>, yearKey: string, csdLine: real)
    ensures DistrictTotal(uses, yearKey) > 0.0 ==> TopShareTotal(SchoolRows(uses, yearKey, csdLine)) == csdLine
    ensures DistrictTotal(uses, yearKey) <= 0.0 ==>
      TopShareTotal(SchoolRows(uses, yearKey, csdLine)) == DistrictTotal(uses, yearKey) * csdLine
    ensures TopRows(SchoolRows(uses, yearKey, csdLine)) == ParentRows(uses, yearKey, SafeDivisor(DistrictTotal(uses, yearKey)), csdLine)
  {
    var t := DistrictTotal(uses, yearKey);
    RowsFromTopShares(uses, yearKey, SafeDivisor(t), csdLine);
    RowsFromTopRows(uses, yearKey, SafeDivisor(t), csdLine);
    PortionWhole(t, SafeDivisor(t), csdLine);
  }

  /** One divisor for every row: each share in the table, of a category or of a
      detail row, is that row's amount over the divisor times the CSD line. */
  lemma {:induction false} EveryShareIsPortion(uses: seq<Use>, yearKey: string, divisor: real, csdLine: real)
    requires divisor > 0.0
    ensures forall k :: 0 <= k < |RowsFrom(uses, yearKey, divisor, csdLine)| ==>
      RowsFrom(uses, yearKey, divisor, csdLine)[k].share == Portion(RowsFrom(uses, yearKey, divisor, csdLine)[k].amount, divisor, csdLine)
    decreases |uses|
  {
    if uses != [] {
      var u := uses[|uses| - 1];
      EveryShareIsPortion(uses[..|uses| - 1], yearKey, divisor, csdLine);
      ChildTotals(u.children, yearKey, divisor, csdLine);
    }
  }

  /** With a zero CSD line every share in the table is zero. */
  lemma ZeroLineZeroShares(uses: seq<Use>, yearKey: string, divisor: real)
    requires divisor > 0.0
    ensures forall k :: 0 <= k < |RowsFrom(uses, yearKey, divisor, 0.0)| ==> RowsFrom(uses, yearKey, divisor, 0.0)[k].share == 0.0
  {
    EveryShareIsPortion(uses, yearKey, divisor, 0.0);
  }

  /** The detail rows of the same children against a line and against that line
      scaled by `f`: the same rows with every share scaled by `f`. */
  lemma {:induction false} ChildRowsScale(children: seq<Use>, yearKey: string, divisor: real, csdLine: real, f: real)
    requires divisor > 0.0
    ensures |ChildRows(children, yearKey, divisor, Scale(csdLine, f))| == |ChildRows(children, yearKey, divisor, csdLine)|
    ensures forall k :: 0 <= k < |ChildRows(children, yearKey, divisor, csdLine)| ==>
      ChildRows(children, yearKey, divisor, Scale(csdLine, f))[k] ==
      ChildRows(children, yearKey, divisor, csdLine)[k].(share := Scale(ChildRows(children, yearKey, divisor, csdLine)[k].share, f))
    decreases |children|
  {
    if children != [] {
      ChildRowsScale(children[..|children| - 1], yearKey, divisor, csdLine, f);
      PortionScales(YearAmount(children[|children| - 1], yearKey), divisor, csdLine, f);
    }
  }

  /** Scaling the CSD line by `f` scales every share and nothing else: ids, amounts and
      the row layout stay as they were. */
  lemma {:induction false} RowsFromScale(uses: seq<Use>, yearKey: string, divisor: real, csdLine: real, f: real)
    requires divisor > 0.0
    ensures |RowsFrom(uses, yearKey, divisor, Scale(csdLine, f))| == |RowsFrom(uses, yearKey, divisor, csdLine)|
    ensures forall k :: 0 <= k < |RowsFrom(uses, yearKey, divisor, csdLine)| ==>
      RowsFrom(uses, yearKey, divisor, Scale(csdLine, f))[k] ==
      RowsFrom(uses, yearKey, divisor, csdLine)[k].(share := Scale(RowsFrom(uses, yearKey, divisor, csdLine)[k].share, f))
    decreases |uses|
  {
    if uses != [] {
      var init := uses[..|uses| - 1];
      var u := uses[|uses| - 1];
      RowsFromScale(init, yearKey, divisor, csdLine, f);
      ChildRowsScale(u.children, yearKey, divisor, csdLine, f);
      PortionScales(YearAmount(u, yearKey), divisor, csdLine, f);
      var a: seq<Row> := RowsFrom(init, yearKey, divisor, csdLine);
      var b: seq<Row> := UseRows(u, yearKey, divisor, csdLine);
      var a': seq<Row> := RowsFrom(init, yearKey, divisor, Scale(csdLine, f));
      var b': seq<Row> := UseRows(u, yearKey, divisor, Scale(csdLine, f));
      assert |b'| == |b|;
      forall k | |a| <= k < |a| + |b|
        ensures (a' + b')[k] == (a + b)[k].(share := Scale((a + b)[k].share, f))
      {
        assert (a' + b')[k] == b'[k - |a|];
        assert (a + b)[k] == b[k - |a|];
        if k > |a| {
          assert b'[k - |a|] == b'[1..][k - |a| - 1];
          assert b[k - |a|] == b[1..][k - |a| - 1];
        }
      }
    }
  }

  /** The per-unit factor touches the table only through the CSD line: the district
      total does not depend on it, and every row's share is the unscaled share × f. */
  lemma PerUnitScalesOnlyShares(uses: seq<Use>, yearKey: string, v: Values, f: real)
    ensures var a := SchoolRows(uses, yearKey, CsdLine(v, 1.0)); var b := SchoolRows(uses, yearKey, CsdLine(v, f));
      |b| == |a| && forall k :: 0 <= k < |a| ==> b[k] == a[k].(share := Scale(a[k].share, f))
  {
    assert CsdLine(v, f) == Scale(CsdLine(v, 1.0), f);
    RowsFromScale(uses, yearKey, SafeDivisor(DistrictTotal(uses, yearKey)), CsdLine(v, 1.0), f);
  }

  // ---------- agreement with app.js ----------

  /** app.js splits the instruction share against the instruction amount; for a
      positive instruction amount that gives each detail row the very share
      form/app.js gives it against the district total. */
  lemma {:induction false} InstructionDetailAgrees(children: seq<Use>, yearKey: string, parentAmount: real, divisor: real, csdLine: real)
    requires divisor > 0.0 && parentAmount > 0.0
    ensures App.InstructionChildRows(children, yearKey, parentAmount, Portion(parentAmount, divisor, csdLine)) ==
      ChildRows(children, yearKey, divisor, csdLine)
    decreases |children|
  {
    if children != [] {
      InstructionDetailAgrees(children[..|children| - 1], yearKey, parentAmount, divisor, csdLine);
      PortionChain(YearAmount(children[|children| - 1], yearKey), parentAmount, divisor, csdLine);
    }
  }

  /** The two scripts build the same table for every dataset in which the only
      category with detail rows, if any, is "instruction" and its amount for the
      year is positive. */
  lemma {:induction false} TablesAgreeWithApp(uses: seq<Use>, yearKey: string, divisor: real, csdLine: real)
    requires divisor > 0.0
    requires forall k :: 0 <= k < |uses| ==>
      uses[k].children == [] || (uses[k].id == "instruction" && YearAmount(uses[k], yearKey) > 0.0)
    ensures RowsFrom(uses, yearKey, divisor, csdLine) == App.RowsFrom(uses, yearKey, divisor, csdLine)
    decreases |uses|
  {
    if uses != [] {
      var u := uses[|uses| - 1];
      TablesAgreeWithApp(uses[..|uses| - 1], yearKey, divisor, csdLine);
      if u.children != [] {
        InstructionDetailAgrees(u.children, yearKey, YearAmount(u, yearKey), divisor, csdLine);
      }
    }
  }

  /** Where the two scripts part: a category other than "instruction" with detail
      rows is expanded here and shown as a single row by app.js. */
  lemma OtherCategoriesExpandOnlyHere(u: Use, yearKey: string, divisor: real, csdLine: real)
    requires divisor > 0.0 && u.id != "instruction" && u.children != []
    ensures |App.UseRows(u, yearKey, divisor, csdLine)| == 1
    ensures |UseRows(u, yearKey, divisor, csdLine)| == 1 + |u.children|
  {
    ChildTotals(u.children, yearKey, divisor, csdLine);
  }

  // ---------- the allocation loops ----------

  /** `u.children.forEach`: each child's share against the district divisor. */
  method AllocateChildren(children: seq<Use>, yearKey: string, safe: real, csdLine: real) returns (childRows: seq<Row>)
    requires safe > 0.0
    ensures childRows == ChildRows(children, yearKey, safe, csdLine)
  {
    childRows := [];
    var j := 0;
    while j < |children|
      invariant 0 <= j <= |children|
      invariant childRows == ChildRows(children[..j], yearKey, safe, csdLine)
    {
      var c := children[j];
      assert children[..j + 1][..j] == children[..j];
      var cAmount := YearAmount(c, yearKey);
      childRows := childRows + [Row(c.id, cAmount, Portion(cAmount, safe, csdLine), true)];
      j := j + 1;
    }
    assert children[..j] == children;
  }

  /** The body of `renderSchools`' loop: the category's row, then its detail rows
      when it has children. */
  method AllocateUse(u: Use, yearKey: string, safe: real, csdLine: real) returns (useRows: seq<Row>)
    requires safe > 0.0
    ensures useRows == UseRows(u, yearKey, safe, csdLine)
  {
    var amount := YearAmount(u, yearKey);
    var share := Portion(amount, safe, csdLine);
    var childRows := [];
    if |u.children| > 0 {
      childRows := AllocateChildren(u.children, yearKey, safe, csdLine);
    }
    useRows := [Row(u.id, amount, share, false)] + childRows;
  }

  /** The table of one more category is the old table followed by its rows. */
  lemma RowsFromSnoc(uses: seq<Use>, i: nat, yearKey: string, divisor: real, csdLine: real)
    requires i < |uses| && divisor > 0.0
    ensures RowsFrom(uses[..i + 1], yearKey, divisor, csdLine) ==
      RowsFrom(uses[..i], yearKey, divisor, csdLine) + UseRows(uses[i], yearKey, divisor, csdLine)
    ensures DistrictTotal(uses[..i + 1], yearKey) == DistrictTotal(uses[..i], yearKey) + YearAmount(uses[i], yearKey)
  {
    assert uses[..i + 1][..i] == uses[..i];
    assert uses[..i + 1] == uses[..i] + [uses[i]];
    DistrictTotalSnoc(uses[..i], uses[i], yearKey);
  }

  /** Appending a category's rows adds its share, and only that, to the top-level
      share total. */
  lemma ShareStep(rows: seq<Row>, u: Use, yearKey: string, divisor: real, csdLine: real, total: real)
    requires divisor > 0.0
    requires TopShareTotal(rows) == Portion(total, divisor, csdLine)
    ensures TopShareTotal(rows + UseRows(u, yearKey, divisor, csdLine)) ==
      Portion(total + YearAmount(u, yearKey), divisor, csdLine)
  {
    UseRowsTop(u, yearKey, divisor, csdLine);
    RowTotalsAppend(rows, UseRows(u, yearKey, divisor, csdLine));
    PortionAdd(total, YearAmount(u, yearKey), divisor, csdLine);
  }

  /** `renderSchools`: totals the top-level categories for the year, then walks them,
      appending each category's row and its detail rows. The running top-level share
      total is the running year total over the divisor × the CSD line. */
  method AllocateSchools(uses: seq<Use>, yearKey: string, csdLine: real) returns (districtTotal: real, rows: seq<Row>)
    ensures districtTotal == DistrictTotal(uses, yearKey)
    ensures rows == SchoolRows(uses, yearKey, csdLine)
    ensures districtTotal > 0.0 ==> TopShareTotal(rows) == csdLine
  {
    districtTotal := YearTotal(uses, yearKey);
    var safe := SafeDivisor(districtTotal);
    rows := [];
    var i := 0;
    ghost var total := 0.0;
    while i < |uses|
      invariant 0 <= i <= |uses|
      invariant rows == RowsFrom(uses[..i], yearKey, safe, csdLine)
      invariant total == DistrictTotal(uses[..i], yearKey)
      invariant TopShareTotal(rows) == Portion(total, safe, csdLine)
    {
      RowsFromSnoc(uses, i, yearKey, safe, csdLine);
      ShareStep(rows, uses[i], yearKey, safe, csdLine, total);
      var useRows := AllocateUse(uses[i], yearKey, safe, csdLine);
      rows := rows + useRows;
      total := total + YearAmount(uses[i], yearKey);
      i := i + 1;
    }
    assert uses[..i] == uses;
    PortionWhole(districtTotal, safe, csdLine);
  }

  // ---------- address auto-fill ----------

  /** `toLowerCase` on the ASCII letters. */
  function LowerChar(c: char): char {
    if 'A' <= c <= 'Z' then (c as int + 32) as char else c
  }

  function LowerAscii(s: string): string {
    seq(|s|, i requires 0 <= i < |s| => LowerChar(s[i]))
  }

  /** One row of `taxes.distribution` or `taxes.countyPortionOnly`; a missing or
      null field is `None`. */
  datatype DistEntry = DistEntry(authority: Option<string>, amount: Option<string>)

  /** The parts of a successful lookup response the form reads; a missing list is empty. */
  datatype TaxResponse = TaxResponse(distribution: seq<DistEntry>, countyPortionOnly: seq<DistEntry>)

  /** `String(r.authority || "").trim().toLowerCase()`. */
  function AuthorityKey(authority: Option<string>): string {
    LowerAscii(Trim(if authority.Some? then authority.value else ""))
  }

  /** `dist.map(r => [key, r.amount])`: each entry's key and amount. */
  function Pairs(dist: seq<DistEntry>): seq<(string, Option<string>)> {
    seq(|dist|, i requires 0 <= i < |dist| => (AuthorityKey(dist[i].authority), dist[i].amount))
  }

  /** `new Map(pairs)`: pairs are set in order, so a later pair with the same key
      overwrites an earlier one. */
  function MapOf(pairs: seq<(string, Option<string>)>): map<string, Option<string>> {
    if pairs == [] then map[]
    else MapOf(pairs[..|pairs| - 1])[pairs[|pairs| - 1].0 := pairs[|pairs| - 1].1]
  }

  /** `new Map(dist.map(r => [String(r.authority || "").trim().toLowerCase(), r.amount]))`. */
  function BuildLookup(dist: seq<DistEntry>): map<string, Option<string>> {
    MapOf(Pairs(dist))
  }

  /** The i-th pair has the key and no later pair has it. */
  predicate LastWithKey(pairs: seq<(string, Option<string>)>, i: int, key: string) {
    0 <= i < |pairs| && pairs[i].0 == key &&
    forall j :: i < j < |pairs| ==> pairs[j].0 != key
  }

  /** The map holds exactly the pairs' keys. */
  lemma {:induction false} MapOfKeys(pairs: seq<(string, Option<string>)>, key: string)
    ensures key in MapOf(pairs) <==> exists i :: 0 <= i < |pairs| && pairs[i].0 == key
    decreases |pairs|
  {
    if pairs != [] {
      var init := pairs[..|pairs| - 1];
      var n := |pairs| - 1;
      MapOfKeys(init, key);
      if pairs[n].0 != key && key in MapOf(pairs) {
        var i :| 0 <= i < |init| && init[i].0 == key;
        assert pairs[i] == init[i];
      }
    }
  }

  /** Under each key the map holds the amount of the last pair with that key. */
  lemma {:induction false} MapOfLastWins(pairs: seq<(string, Option<string>)>, key: string)
    ensures forall i :: LastWithKey(pairs, i, key) ==> key in MapOf(pairs) && MapOf(pairs)[key] == pairs[i].1
    decreases |pairs|
  {
    if pairs != [] {
      var init := pairs[..|pairs| - 1];
      MapOfLastWins(init, key);
      if pairs[|pairs| - 1].0 != key {
        forall i | LastWithKey(pairs, i, key)
          ensures LastWithKey(init, i, key)
        {
        }
      }
    }
  }

  /** `map.get(String(k).toLowerCase())`: `None` when the key is absent. */
  function Lookup(m: map<string, Option<string>>, k: string): Option<string> {
    var key := LowerAscii(k);
    if key in m then m[key] else None
  }

  /** JavaScript truthiness of a looked-up amount: present and not the empty text. */
  predicate Truthy(a: Option<string>) {
    a.Some? && a.value != ""
  }

  /** `getAmt(...keys)`: the amount under the first key whose lookup is truthy, else "". */
  function GetAmt(m: map<string, Option<string>>, keys: seq<string>): string {
    if keys == [] then ""
    else if Truthy(Lookup(m, keys[0])) then Lookup(m, keys[0]).value
    else GetAmt(m, keys[1..])
  }

  /** `getAmt` is empty exactly when no key's lookup is truthy, and otherwise returns
      the amount under the first key whose lookup is. */
  lemma {:induction false} GetAmtIsFirstTruthy(m: map<string, Option<string>>, keys: seq<string>)
    ensures GetAmt(m, keys) == "" <==> forall i :: 0 <= i < |keys| ==> !Truthy(Lookup(m, keys[i]))
    ensures GetAmt(m, keys) != "" ==>
      exists i :: 0 <= i < |keys| && Lookup(m, keys[i]) == Some(GetAmt(m, keys)) &&
        forall j :: 0 <= j < i ==> !Truthy(Lookup(m, keys[j]))
    decreases |keys|
  {
    if keys != [] && !Truthy(Lookup(m, keys[0])) {
      var rest := keys[1..];
      GetAmtIsFirstTruthy(m, rest);
      forall i | 0 <= i < |rest|
        ensures rest[i] == keys[i + 1]
      {
      }
      if GetAmt(m, keys) != "" {
        var i :| 0 <= i < |rest| && Lookup(m, rest[i]) == Some(GetAmt(m, rest)) &&
          forall j :: 0 <= j < i ==> !Truthy(Lookup(m, rest[j]));
        assert Lookup(m, keys[i + 1]) == Some(GetAmt(m, keys));
        forall j | 0 <= j < i + 1
          ensures !Truthy(Lookup(m, keys[j]))
        {
          if j > 0 {
            assert keys[j] == rest[j - 1];
          }
        }
      } else {
        forall i | 0 <= i < |keys|
          ensures !Truthy(Lookup(m, keys[i]))
        {
          if i > 0 {
            assert keys[i] == rest[i - 1];
          }
        }
      }
    }
  }

  /** A second spelling that lowercases to the same key never changes what `getAmt`
      finds. */
  lemma SameKeySpellings(m: map<string, Option<string>>, a: string, b: string)
    requires LowerAscii(a) == LowerAscii(b)
    ensures GetAmt(m, [a, b]) == GetAmt(m, [a])
  {
    assert Lookup(m, a) == Lookup(m, b);
    assert [a, b][1..] == [b];
    assert [b][1..] == [];
    assert [a][1..] == [];
  }

  /** `cmap.get(String(key).toLowerCase()) || ""`: the same as `getAmt` with one key. */
  function CGet(m: map<string, Option<string>>, key: string): (r: string)
    ensures r == GetAmt(m, [key])
  {
    var a := Lookup(m, key);
    if Truthy(a) then a.value else ""
  }

  /** The six tax-line inputs `autoFillFromAddress` fills from the distribution list,
      each by `applyMoneyToInput`, that is with the looked-up text through the cleaner. */
  function LinesFilled(v: Values, distribution: seq<DistEntry>): Values {
    var m := BuildLookup(distribution);
    v.(taxButlerCounty := Clean(GetAmt(m, ["Butler County"])),
       taxFairfieldCsd := Clean(GetAmt(m, ["Fairfield Csd", "Fairfield CSD"])),
       taxFairfieldCity := Clean(GetAmt(m, ["Fairfield City"])),
       taxButlerJvsd := Clean(GetAmt(m, ["Butler County Jvsd", "Butler County JVSD"])),
       taxMetroParks := Clean(GetAmt(m, ["Metro Parks Of Butler County", "Metro Parks of Butler County"])),
       taxLibrary := Clean(GetAmt(m, ["Lane Public Library District"])))
  }

  /** The five county-item inputs it then fills from the county list. */
  function CountyFilled(v: Values, county: seq<DistEntry>): Values {
    var cm := BuildLookup(county);
    v.(countyGeneralFund := Clean(CGet(cm, "General Fund")),
       countyDd := Clean(CGet(cm, "Developmental Disabilities")),
       countyMentalHealth := Clean(CGet(cm, "Mental Health")),
       countyChildren := Clean(CGet(cm, "Children Services")),
       countySenior := Clean(CGet(cm, "Senior Citizens")))
  }

  /** The eleven inputs a complete auto-fill writes: the six lines, then the five
      county items; the optional county total and the income keep their text. */
  function AutoFilled(v: Values, resp: TaxResponse): Values {
    CountyFilled(LinesFilled(v, resp.distribution), resp.countyPortionOnly)
  }

  /** An auto-fill that stops after the tax lines (the county list is not an array or
      holds a null entry) leaves all six county inputs, the income and the optional
      total as they were, and writes into the six lines exactly what a complete
      auto-fill writes there, whatever its county list. */
  lemma LinesOnlyScope(v: Values, distribution: seq<DistEntry>, county: seq<DistEntry>)
    ensures forall f :: f in {CountyGeneralFund, CountyDd, CountyMentalHealth, CountyChildren,
                              CountySenior, CountyTotalOptional, AnnualIncome} ==>
      Get(LinesFilled(v, distribution), f) == Get(v, f)
    ensures forall f :: f in {TaxButlerCounty, TaxFairfieldCsd, TaxFairfieldCity, TaxButlerJvsd,
                              TaxMetroParks, TaxLibrary} ==>
      Get(LinesFilled(v, distribution), f) == Get(AutoFilled(v, TaxResponse(distribution, county)), f)
  {
    LinesFilledFrame(v, distribution);
    CountyFilledFrame(LinesFilled(v, distribution), county);
  }

  /** Filling the lines changes only the six line inputs. */
  lemma LinesFilledFrame(v: Values, distribution: seq<DistEntry>)
    ensures forall f :: f !in {TaxButlerCounty, TaxFairfieldCsd, TaxFairfieldCity, TaxButlerJvsd,
                                TaxMetroParks, TaxLibrary} ==>
      Get(LinesFilled(v, distribution), f) == Get(v, f)
  {
  }

  /** Filling the county items changes only the five county-item inputs. */
  lemma CountyFilledFrame(v: Values, county: seq<DistEntry>)
    ensures forall f :: f !in {CountyGeneralFund, CountyDd, CountyMentalHealth, CountyChildren,
                                CountySenior} ==>
      Get(CountyFilled(v, county), f) == Get(v, f)
  {
  }

  /** Auto-fill never touches the optional county total or the income, and every
      input it fills holds only digits, `.` and `-`. */
  lemma AutoFillScope(v: Values, resp: TaxResponse)
    ensures Get(AutoFilled(v, resp), CountyTotalOptional) == Get(v, CountyTotalOptional)
    ensures Get(AutoFilled(v, resp), AnnualIncome) == Get(v, AnnualIncome)
    ensures forall f :: f != CountyTotalOptional && f != AnnualIncome ==>
      forall i :: 0 <= i < |Get(AutoFilled(v, resp), f)| ==> IsMoneyChar(Get(AutoFilled(v, resp), f)[i])
  {
    var r := AutoFilled(v, resp);
    forall f | f != CountyTotalOptional && f != AnnualIncome
      ensures forall i :: 0 <= i < |Get(r, f)| ==> IsMoneyChar(Get(r, f)[i])
    {
      var m := BuildLookup(resp.distribution);
      var cm := BuildLookup(resp.countyPortionOnly);
      match f
      case TaxButlerCounty => CleanProperties(GetAmt(m, ["Butler County"]));
      case TaxFairfieldCsd => CleanProperties(GetAmt(m, ["Fairfield Csd", "Fairfield CSD"]));
      case TaxFairfieldCity => CleanProperties(GetAmt(m, ["Fairfield City"]));
      case TaxButlerJvsd => CleanProperties(GetAmt(m, ["Butler County Jvsd", "Butler County JVSD"]));
      case TaxMetroParks => CleanProperties(GetAmt(m, ["Metro Parks Of Butler County", "Metro Parks of Butler County"]));
      case TaxLibrary => CleanProperties(GetAmt(m, ["Lane Public Library District"]));
      case CountyGeneralFund => CleanProperties(CGet(cm, "General Fund"));
      case CountyDd => CleanProperties(CGet(cm, "Developmental Disabilities"));
      case CountyMentalHealth => CleanProperties(CGet(cm, "Mental Health"));
      case CountyChildren => CleanProperties(CGet(cm, "Children Services"));
      case CountySenior => CleanProperties(CGet(cm, "Senior Citizens"));
    }
  }

  /** A distribution entry whose authority reads "Butler County" after trimming and
      lowercasing, and which no later entry overrides, fills the Butler County line
      with its amount through the cleaner. */
  lemma AutoFillFindsAuthority(v: Values, resp: TaxResponse, i: nat, amount: string)
    requires i < |resp.distribution|
    requires AuthorityKey(resp.distribution[i].authority) == LowerAscii("Butler County")
    requires forall j :: i < j < |resp.distribution| ==>
      AuthorityKey(resp.distribution[j].authority) != LowerAscii("Butler County")
    requires resp.distribution[i].amount == Some(amount) && amount != ""
    ensures Get(AutoFilled(v, resp), TaxButlerCounty) == Clean(amount)
  {
    var ps := Pairs(resp.distribution);
    var key := LowerAscii("Butler County");
    MapOfLastWins(ps, key);
    assert LastWithKey(ps, i, key);
    assert Lookup(BuildLookup(resp.distribution), "Butler County") == Some(amount);
    assert ["Butler County"][1..] == [];
  }

  /** `"$1,626.45"` becomes `"1626.45"`, and cleaning it again changes nothing. */
  lemma CleanExample()
    ensures Clean("$1,626.45") == "1626.45"
    ensures Clean(Clean("$1,626.45")) == Clean("$1,626.45")
  {
    ExampleTexts();
    CleanUsdText(162645);
    CleanProperties("$1,626.45");
  }

  /** The dollar and plain renderings of 162645 cents. */
  lemma ExampleTexts()
    ensures UsdText(162645) == "$1,626.45"
    ensures DecimalText(162645) == "1626.45"
  {
    assert NatDigits(1) == "1";
    assert Grouped(1626) == "1,626";
    assert TwoDigits(45) == "45";
    assert NatDigits(1626) == "1626";
  }

  // ---------- the page ----------

  /** `fillExample("apt72")`: the parcel totals of a 72-unit apartment complex. */
  function ApartmentValues(): Values {
    Values("12354.10", "56508.66", "15912.32", "3095.70", "1001.80", "941.10",
           "1603.99", "3626.85", "2010.94", "2417.90", "2694.42", "12354.10",
           "50000")
  }

  /** `fillExample` with any other argument: a single-family house. */
  function HouseValues(): Values {
    Values("772.00", "3066.17", "1095.69", "241.78", "71.33", "54.77",
           "125.28", "190.19", "133.81", "142.51", "180.21", "772.00",
           "50000")
  }

  /** The apartment demo's school-district line is 56508.66 for the parcel, and with
      per-unit mode on and 72 units the line the table splits is a 72nd of it,
      about 784.84. */
  lemma ApartmentCsdLine()
    ensures Amount(ApartmentValues(), TaxFairfieldCsd) == 56508.66
    ensures CsdLine(ApartmentValues(), Factor(true, UnitCount("72"))) == 56508.66 / 72.0
    ensures 784.84 <= CsdLine(ApartmentValues(), Factor(true, UnitCount("72"))) < 784.85
  {
    ApartmentCsdText();
    ToNumberOfDecimalText(5650866);
    UnitCountExamples();
  }

  /** The apartment demo's school-district text is the decimal rendering of 5650866 cents. */
  lemma ApartmentCsdText()
    ensures Get(ApartmentValues(), TaxFairfieldCsd) == DecimalText(5650866)
  {
    assert 5650866 / 100 == 56508 && 5650866 % 100 == 66;
    assert NatDigits(56508) == "56508";
    assert TwoDigits(66) == "66";
    assert CentsText(5650866) == "56508.66";
  }

  /** Both demos enter an income of 50000, which gives 625 a year. */
  lemma DemoIncomeEit()
    ensures EstimateEit(Amount(HouseValues(), AnnualIncome)) == EitEstimate(625.0, 625.0 / 12.0)
    ensures EstimateEit(Amount(ApartmentValues(), AnnualIncome)) == EitEstimate(625.0, 625.0 / 12.0)
  {
    DemoIncomeText();
    ToNumberOfIntText(50000);
  }

  /** Both demos' income text is the decimal rendering of 50000. */
  lemma DemoIncomeText()
    ensures Get(HouseValues(), AnnualIncome) == IntText(50000)
    ensures Get(ApartmentValues(), AnnualIncome) == IntText(50000)
  {
    assert NatDigits(50000) == "50000";
  }

  /** A district of 1,000,000 dollars of which instruction is 600,000: with a
      school-district line of 3066.17 instruction's row comes first with a share
      of 1839.702, and the top-level shares add up to the line. */
  lemma InstructionShareScenario()
    ensures var uses := [Use("instruction", "Instruction", map["2024" := 600000.0], []),
                         Use("support", "Support", map["2024" := 400000.0], [])];
      var rows := SchoolRows(uses, "2024", 3066.17);
      |rows| > 0 && rows[0].share == 1839.702 && TopShareTotal(rows) == 3066.17
  {
    var u0 := Use("instruction", "Instruction", map["2024" := 600000.0], []);
    var u1 := Use("support", "Support", map["2024" := 400000.0], []);
    var uses := [u0, u1];
    DistrictTotalSnoc([], u0, "2024");
    assert [] + [u0] == [u0];
    DistrictTotalSnoc([u0], u1, "2024");
    assert [u0] + [u1] == uses;
    var total := DistrictTotal(uses, "2024");
    assert total == 1000000.0;
    TopSharesSumToCsdLine(uses, "2024", 3066.17);
    RowsInDatasetOrder(uses, 0, "2024", total, 3066.17);
    assert uses[..0] == [];
    var p := ParentRow(u0, "2024", total, 3066.17);
    assert p.share == 1839.702;
  }

  /** What `renderPerUnitStatus`, `renderTotals`, `renderEit` and `renderBreakdown`
      show: everything that depends on the inputs and the per-unit controls. */
  datatype TaxView = TaxView(
    status: PerUnitStatus,                              // renderPerUnitStatus
    totalPropertyTax: real, countyPortionTotal: real,   // renderTotals
    eit: EitEstimate,                                   // renderEit
    refRows: seq<RefRow>, refLinesTotal: real, refCountyItemsTotal: real)  // renderBreakdown

  /** The tax view the inputs, the toggle and the rounded unit count call for. */
  function TaxViewOf(v: Values, enabled: bool, units: int): TaxView {
    var f := Factor(enabled, units);
    TaxView(StatusOf(enabled, units), Scale(ParcelLinesTotal(v), f), Scale(ParcelCountyTotal(v), f),
            EstimateEit(Amount(v, AnnualIncome)), BreakdownRows(v, f),
            Scale(ParcelLinesTotal(v), f), Scale(ParcelCountyTotal(v), f))
  }

  /** The totals the page prints are app.js's totals times the factor, and the
      reference list's rows add up to the totals printed under it. */
  lemma TaxViewTotals(v: Values, enabled: bool, units: int)
    ensures var view := TaxViewOf(v, enabled, units); var f := Factor(enabled, units);
      view.totalPropertyTax == Scale(App.TotalPropertyTax(v), f) &&
      view.countyPortionTotal == Scale(App.CountyPortionTotal(v), f) &&
      LineRowTotal(view.refRows) == view.refLinesTotal &&
      CountyRowTotal(view.refRows) == view.refCountyItemsTotal
  {
    ParcelTotalsMatchApp(v);
    BreakdownTotals(v, Factor(enabled, units));
  }

  /** `renderPerUnitStatus`, `renderTotals`, `renderEit` and `renderBreakdown`. */
  method RenderTax(v: Values, enabled: bool, units: int) returns (view: TaxView)
    ensures view == TaxViewOf(v, enabled, units)
  {
    var f := Factor(enabled, units);
    var totalLines := Scale(ParcelLinesTotal(v), f);
    var countyItemsTotal := Scale(ParcelCountyTotal(v), f);
    var eit := EstimateEit(Amount(v, AnnualIncome));
    var rows := BuildBreakdown(v, f);
    view := TaxView(StatusOf(enabled, units), totalLines, countyItemsTotal, eit, rows, totalLines, countyItemsTotal);
  }

  /** What `renderSchools` shows: the district total, the scaled CSD line and the table. */
  datatype SchoolView = SchoolView(districtSpendingTotal: real, csdShareTotal: real, rows: seq<Row>)

  function SchoolViewOf(uses: seq<Use>, year: int, v: Values, f: real): SchoolView {
    SchoolView(DistrictTotal(uses, YearKey(year)), CsdLine(v, f), SchoolRows(uses, YearKey(year), CsdLine(v, f)))
  }

  /** With every input empty and the toggle off, whatever the unit count: the status
      is "Off" and every figure of the tax view is zero. */
  lemma ClearedTaxView(units: int)
    ensures var t := TaxViewOf(Cleared(), false, units);
      t.status == Off && t.totalPropertyTax == 0.0 && t.countyPortionTotal == 0.0 &&
      t.refLinesTotal == 0.0 && t.refCountyItemsTotal == 0.0 && t.eit == EitEstimate(0.0, 0.0)
  {
    ClearedAmountsAreZero(TaxLines);
    ClearedAmountsAreZero(CountyItems);
  }

  /** With every input empty and the toggle off the CSD line is zero, and so is every
      share in the table. */
  lemma ClearedSchoolView(uses: seq<Use>, year: int, units: int)
    ensures var s := SchoolViewOf(uses, year, Cleared(), Factor(false, units));
      s.csdShareTotal == 0.0 && forall k :: 0 <= k < |s.rows| ==> s.rows[k].share == 0.0
  {
    ClearedAmountsAreZero(TaxLines);
    var key := YearKey(year);
    assert CsdLine(Cleared(), Factor(false, units)) == 0.0;
    ZeroLineZeroShares(uses, key, SafeDivisor(DistrictTotal(uses, key)));
  }

  /** `renderSchools` once the dataset is loaded. */
  method RenderSchools(uses: seq<Use>, year: int, v: Values, f: real) returns (view: SchoolView)
    ensures view == SchoolViewOf(uses, year, v, f)
    ensures view.districtSpendingTotal > 0.0 ==> TopShareTotal(view.rows) == view.csdShareTotal
  {
    var csdLine := CsdLine(v, f);
    var districtTotal, rows := AllocateSchools(uses, YearKey(year), csdLine);
    view := SchoolView(districtTotal, csdLine, rows);
  }

  /** How the lookup of `autoFillFromAddress` ends: the request fails or the response
      lacks `ok: true` (`Failed`); the distribution list is read but the county list
      throws (`LinesOnly`: not an array, or a null entry); or both lists are read
      (`Succeeded`). A distribution list that throws is `Failed`: it throws before
      any input is written. */
  datatype LookupOutcome =
    | Failed
    | LinesOnly(distribution: seq<DistEntry>)
    | Succeeded(response: TaxResponse)

  /** The page's state: the inputs, the per-unit toggle and unit-count text, the loaded
      dataset and the selected year, and what the page shows. */
  class Page {
    var inputs: Values
    var perUnitChecked: bool
    var unitCountText: string
    var data: Option<Dataset>
    var selectedYear: int
    var taxView: TaxView
    var schoolView: SchoolView

    /** `getPerUnitFactor()` on the current controls. */
    function CurrentFactor(): real
      reads this
    {
      Factor(perUnitChecked, UnitCount(unitCountText))
    }

    /** Everything shown agrees with the inputs and the per-unit controls and, once the
        dataset is loaded, with the dataset and the selected year. */
    ghost predicate Rendered()
      reads this
    {
      taxView == TaxViewOf(inputs, perUnitChecked, UnitCount(unitCountText)) &&
      (data.Some? ==> schoolView == SchoolViewOf(data.value.uses, selectedYear, inputs, CurrentFactor()))
    }

    /** The page before `init`: the inputs, the toggle and the unit count hold what the
        markup gives them, no dataset yet, nothing rendered. */
    constructor (initial: Values, checked: bool, units: string)
      ensures inputs == initial && perUnitChecked == checked && unitCountText == units && data == None
      ensures taxView.refRows == [] && schoolView.rows == []
    {
      inputs := initial;
      perUnitChecked := checked;
      unitCountText := units;
      data := None;
      selectedYear := 2024;
      taxView := TaxView(Off, 0.0, 0.0, EitEstimate(0.0, 0.0), [], 0.0, 0.0);
      schoolView := SchoolView(0.0, 0.0, []);
    }

    /** `onAnyChange`: re-renders everything and changes no input or control. Without a
        dataset the school view stays as it was. */
    method OnAnyChange()
      modifies this
      ensures Rendered()
      ensures inputs == old(inputs) && perUnitChecked == old(perUnitChecked) && unitCountText == old(unitCountText)
      ensures data == old(data) && selectedYear == old(selectedYear)
      ensures data.None? ==> schoolView == old(schoolView)
    {
      var units := UnitCount(unitCountText);
      taxView := RenderTax(inputs, perUnitChecked, units);
      if data.Some? {
        schoolView := RenderSchools(data.value.uses, selectedYear, inputs, Factor(perUnitChecked, units));
      }
    }

    /** `init`: the dataset is loaded, the last listed year (2024 when none) is selected. */
    method Init(ds: Dataset)
      modifies this
      ensures data == Some(ds) && inputs == old(inputs)
      ensures perUnitChecked == old(perUnitChecked) && unitCountText == old(unitCountText)
      ensures selectedYear == if |ds.years| > 0 then ds.years[|ds.years| - 1] else 2024
      ensures Rendered()
    {
      data := Some(ds);
      selectedYear := if |ds.years| > 0 then ds.years[|ds.years| - 1] else 2024;
      OnAnyChange();
    }

    /** The `input` event of one of the thirteen inputs. */
    method Input(f: Field, text: string)
      modifies this
      ensures inputs == Set(old(inputs), f, text)
      ensures perUnitChecked == old(perUnitChecked) && unitCountText == old(unitCountText)
      ensures data == old(data) && selectedYear == old(selectedYear)
      ensures Rendered()
      ensures data.None? ==> schoolView == old(schoolView)
    {
      inputs := Set(inputs, f, text);
      OnAnyChange();
    }

    /** The year selector's `change` event. */
    method SelectYear(year: int)
      modifies this
      ensures selectedYear == year
      ensures inputs == old(inputs) && perUnitChecked == old(perUnitChecked) && unitCountText == old(unitCountText)
      ensures data == old(data)
      ensures Rendered()
      ensures data.None? ==> schoolView == old(schoolView)
    {
      selectedYear := year;
      OnAnyChange();
    }

    /** The per-unit toggle's `change` event. */
    method TogglePerUnit(checked: bool)
      modifies this
      ensures perUnitChecked == checked
      ensures inputs == old(inputs) && unitCountText == old(unitCountText)
      ensures data == old(data) && selectedYear == old(selectedYear)
      ensures Rendered()
      ensures data.None? ==> schoolView == old(schoolView)
    {
      perUnitChecked := checked;
      OnAnyChange();
    }

    /** The unit count's `input` event. */
    method InputUnits(text: string)
      modifies this
      ensures unitCountText == text
      ensures inputs == old(inputs) && perUnitChecked == old(perUnitChecked)
      ensures data == old(data) && selectedYear == old(selectedYear)
      ensures Rendered()
      ensures data.None? ==> schoolView == old(schoolView)
    {
      unitCountText := text;
      OnAnyChange();
    }

    /** The assignments `clearAll` and `fillExample` make before re-rendering: the
        inputs, the toggle and the unit count take the given values. */
    method SetControls(v: Values, checked: bool, text: string)
      modifies this
      ensures inputs == v && perUnitChecked == checked && unitCountText == text
      ensures data == old(data) && selectedYear == old(selectedYear)
      ensures taxView == old(taxView) && schoolView == old(schoolView)
    {
      inputs := v;
      perUnitChecked := checked;
      unitCountText := text;
    }

    /** `clearAll`: every input empty, the toggle off and the unit count empty, so the
        factor is 1, every figure is zero and so is every share in the table. */
    method ClearAll()
      modifies this
      ensures inputs == Cleared() && !perUnitChecked && unitCountText == ""
      ensures data == old(data) && selectedYear == old(selectedYear)
      ensures Rendered()
      ensures data.None? ==> schoolView == old(schoolView)
      ensures taxView.status == Off
      ensures taxView.totalPropertyTax == 0.0 && taxView.countyPortionTotal == 0.0
      ensures taxView.refLinesTotal == 0.0 && taxView.refCountyItemsTotal == 0.0
      ensures taxView.eit == EitEstimate(0.0, 0.0)
      ensures data.Some? ==>
        schoolView.csdShareTotal == 0.0 &&
        forall k :: 0 <= k < |schoolView.rows| ==> schoolView.rows[k].share == 0.0
    {
      SetControls(Cleared(), false, "");
      OnAnyChange();
      ClearedTaxView(UnitCount(unitCountText));
      if data.Some? {
        ClearedSchoolView(data.value.uses, selectedYear, UnitCount(unitCountText));
      }
    }

    /** `fillExample(which)`: the apartment demo with per-unit mode on and 72 units for
        "apt72", the house demo with per-unit mode off for anything else. */
    method FillExample(which: string)
      modifies this
      ensures inputs == (if which == "apt72" then ApartmentValues() else HouseValues())
      ensures perUnitChecked == (which == "apt72")
      ensures unitCountText == (if which == "apt72" then "72" else "")
      ensures data == old(data) && selectedYear == old(selectedYear)
      ensures Rendered()
      ensures data.None? ==> schoolView == old(schoolView)
    {
      if which == "apt72" {
        SetControls(ApartmentValues(), true, "72");
      } else {
        SetControls(HouseValues(), false, "");
      }
      OnAnyChange();
    }

    /** `autoFillFromAddress`, with the lookup's outcome as a parameter: a blank address
        or a failed lookup changes nothing; a lookup whose county list throws leaves
        the six tax lines filled and everything else, the views included, as it was
        (the error is caught before `onAnyChange`); a complete lookup fills the
        eleven inputs and re-renders. */
    method AutoFill(address: string, outcome: LookupOutcome)
      modifies this
      ensures Trim(address) == "" || outcome.Failed? ==>
        inputs == old(inputs) && taxView == old(taxView) && schoolView == old(schoolView)
      ensures Trim(address) != "" && outcome.LinesOnly? ==>
        inputs == LinesFilled(old(inputs), outcome.distribution) &&
        taxView == old(taxView) && schoolView == old(schoolView)
      ensures Trim(address) != "" && outcome.Succeeded? ==>
        inputs == AutoFilled(old(inputs), outcome.response) && Rendered() &&
        (data.None? ==> schoolView == old(schoolView))
      ensures perUnitChecked == old(perUnitChecked) && unitCountText == old(unitCountText)
      ensures data == old(data) && selectedYear == old(selectedYear)
    {
      if Trim(address) == "" {
        return;
      }
      match outcome
      case Failed =>
      case LinesOnly(distribution) =>
        inputs := LinesFilled(inputs, distribution);
      case Succeeded(response) =>
        inputs := LinesFilled(inputs, response.distribution);
        inputs := CountyFilled(inputs, response.countyPortionOnly);
        OnAnyChange();
    }
  }
}
