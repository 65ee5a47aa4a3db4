/** The calculation layer of `app.js`: unscaled totals, the tax reference list with
    the county items shown under the library line, the flat-rate income-tax
    estimate, and the school-spending table in which only the "instruction"
    category is expanded, its detail rows splitting the instruction share. */
module App {
  import opened Wrappers
  import opened Coercion
  import opened Sums
  import opened Spending
  import opened Inputs

  /** `getTaxLines`: the six tax-authority lines, in the order app.js lists them. */
  const TaxLines: seq<Line> := [
    Line("butler", TaxButlerCounty), Line("city", TaxFairfieldCity), Line("csd", TaxFairfieldCsd),
    Line("jvsd", TaxButlerJvsd), Line("parks", TaxMetroParks), Line("library", TaxLibrary)]

  /** `getCountyItems`: the five county items (the optional county total is not one of them). */
  const CountyItems: seq<Line> := [
    Line("gen", CountyGeneralFund), Line("dd", CountyDd), Line("mh", CountyMentalHealth),
    Line("cs", CountyChildren), Line("sr", CountySenior)]

  // ---------- clamp ----------

  function Max(a: real, b: real): real { if a < b then b else a }
  function Min(a: real, b: real): real { if a < b then a else b }

  /** `Math.max(a, Math.min(b, n))`: within a non-empty range the result lies in the
      range and is `n` itself when `n` is already inside; outside it is the nearer
      end. With the bounds reversed the lower bound always wins. */
  function Clamp(n: real, a: real, b: real): (r: real)
    ensures a <= b ==> a <= r <= b
    ensures a <= n <= b ==> r == n
    ensures a <= b && n < a ==> r == a
    ensures a <= b && b < n ==> r == b
    ensures b < a ==> r == a
  {
    Max(a, Min(b, n))
  }

  // ---------- totals ----------

  /** `renderTotals`: the sum of the six tax-line amounts. */
  function TotalPropertyTax(v: Values): real {
    Sum(LineAmounts(v, TaxLines))
  }

  /** `renderTotals`: the sum of the five county items. */
  function CountyPortionTotal(v: Values): real {
    Sum(LineAmounts(v, CountyItems))
  }

  /** `toNumber(inputs.taxFairfieldCsd.value)`, taken raw. */
  function CsdLine(v: Values): real {
    Amount(v, TaxFairfieldCsd)
  }

  /** The total property tax is the six tax-line inputs added up; no other input counts. */
  lemma TotalPropertyTaxIsSixLines(v: Values)
    ensures TotalPropertyTax(v) ==
      Amount(v, TaxButlerCounty) + Amount(v, TaxFairfieldCity) + Amount(v, TaxFairfieldCsd) +
      Amount(v, TaxButlerJvsd) + Amount(v, TaxMetroParks) + Amount(v, TaxLibrary)
  {
    SumOfSix(LineAmounts(v, TaxLines));
  }

  /** The county portion is the five county items added up; the optional county total is not. */
  lemma CountyPortionIsFiveItems(v: Values)
    ensures CountyPortionTotal(v) ==
      Amount(v, CountyGeneralFund) + Amount(v, CountyDd) + Amount(v, CountyMentalHealth) +
      Amount(v, CountyChildren) + Amount(v, CountySenior)
  {
    SumOfFive(LineAmounts(v, CountyItems));
  }

  // ---------- tax reference list ----------

  /** The rows of a run of tax lines. */
  function LineRows(v: Values, lines: seq<Line>): seq<RefRow> {
    if lines == [] then []
    else LineRows(v, lines[..|lines| - 1]) + [LineRow(lines[|lines| - 1].id, Amount(v, lines[|lines| - 1].field))]
  }

  /** The mini rows of the county items. */
  function CountyRows(v: Values, items: seq<Line>): seq<RefRow> {
    if items == [] then []
    else CountyRows(v, items[..|items| - 1]) + [CountyRow(items[|items| - 1].id, Amount(v, items[|items| - 1].field))]
  }

  /** `renderBreakdown`: one row per tax line, and right after the line whose id is
      "library" a separator followed by the county items. */
  function ReferenceRows(v: Values, lines: seq<Line>, items: seq<Line>): seq<RefRow> {
    if lines == [] then []
    else
      var x := lines[|lines| - 1];
      ReferenceRows(v, lines[..|lines| - 1], items) + [LineRow(x.id, Amount(v, x.field))] +
      (if x.id == "library" then [Separator] + CountyRows(v, items) else [])
  }

  lemma {:induction false} LineRowsTotals(v: Values, lines: seq<Line>)
    ensures LineRowTotal(LineRows(v, lines)) == Sum(LineAmounts(v, lines))
    ensures CountyRowTotal(LineRows(v, lines)) == 0.0
    decreases |lines|
  {
    if lines != [] {
      var init := lines[..|lines| - 1];
      var rows := LineRows(v, lines);
      assert rows[..|rows| - 1] == LineRows(v, init);
      assert LineAmounts(v, lines)[..|lines| - 1] == LineAmounts(v, init);
      LineRowsTotals(v, init);
    }
  }

  lemma {:induction false} CountyRowsTotals(v: Values, items: seq<Line>)
    ensures CountyRowTotal(CountyRows(v, items)) == Sum(LineAmounts(v, items))
    ensures LineRowTotal(CountyRows(v, items)) == 0.0
    decreases |items|
  {
    if items != [] {
      var init := items[..|items| - 1];
      var rows := CountyRows(v, items);
      assert rows[..|rows| - 1] == CountyRows(v, init);
      assert LineAmounts(v, items)[..|items| - 1] == LineAmounts(v, init);
      CountyRowsTotals(v, init);
    }
  }

  /** Before the library line the list is just the line rows. */
  lemma {:induction false} ReferenceRowsWithoutLibrary(v: Values, lines: seq<Line>, items: seq<Line>)
    requires forall k :: 0 <= k < |lines| ==> lines[k].id != "library"
    ensures ReferenceRows(v, lines, items) == LineRows(v, lines)
    decreases |lines|
  {
    if lines != [] {
      ReferenceRowsWithoutLibrary(v, lines[..|lines| - 1], items);
    }
  }

  /** When the library line is the last line and the only one, the reference list
      is the line rows, the separator, then the county rows; its line rows add up
      to the lines' total and its county rows to the county items' total. */
  lemma {:induction false} ReferenceRowsLayout(v: Values, lines: seq<Line>, items: seq<Line>)
    requires |lines| > 0 && lines[|lines| - 1].id == "library"
    requires forall k :: 0 <= k < |lines| - 1 ==> lines[k].id != "library"
    ensures ReferenceRows(v, lines, items) == LineRows(v, lines) + [Separator] + CountyRows(v, items)
    ensures LineRowTotal(ReferenceRows(v, lines, items)) == Sum(LineAmounts(v, lines))
    ensures CountyRowTotal(ReferenceRows(v, lines, items)) == Sum(LineAmounts(v, items))
  {
    var first := lines[..|lines| - 1];
    var x := lines[|lines| - 1];
    ReferenceRowsWithoutLibrary(v, first, items);
    var lr := LineRows(v, lines);
    var cr := CountyRows(v, items);
    assert lr == LineRows(v, first) + [LineRow(x.id, Amount(v, x.field))];
    assert ReferenceRows(v, lines, items) == lr + ([Separator] + cr);
    assert lr + ([Separator] + cr) == lr + [Separator] + cr;
    LineRowsTotals(v, lines);
    CountyRowsTotals(v, items);
    RefTotalsAppend(lr, [Separator]);
    RefTotalsAppend(lr + [Separator], cr);
    assert LineRowTotal([Separator]) == 0.0 && CountyRowTotal([Separator]) == 0.0 by {
      assert [Separator][..0] == [];
    }
  }

  /** In app.js the library line is the last of the six, so the county items follow
      all six line rows, and the two totals under the list are the property-tax
      total and the county portion. */
  lemma TaxReferenceRows(v: Values)
    ensures ReferenceRows(v, TaxLines, CountyItems) == LineRows(v, TaxLines) + [Separator] + CountyRows(v, CountyItems)
    ensures LineRowTotal(ReferenceRows(v, TaxLines, CountyItems)) == TotalPropertyTax(v)
    ensures CountyRowTotal(ReferenceRows(v, TaxLines, CountyItems)) == CountyPortionTotal(v)
  {
    ReferenceRowsLayout(v, TaxLines, CountyItems);
  }

  /** `renderBreakdown`'s inner loop: one mini row per county item, in order. */
  method BuildCountyRows(v: Values, items: seq<Line>) returns (rows: seq<RefRow>)
    ensures rows == CountyRows(v, items)
  {
    rows := [];
    var j := 0;
    while j < |items|
      invariant 0 <= j <= |items|
      invariant rows == CountyRows(v, items[..j])
    {
      assert items[..j + 1][..j] == items[..j];
      rows := rows + [CountyRow(items[j].id, Amount(v, items[j].field))];
      j := j + 1;
    }
    assert items[..j] == items;
  }

  /** `renderBreakdown`'s loop: walks the lines, appending each line's row and, after
      a line whose id is "library", the separator and the county rows. */
  method BuildReferenceRows(v: Values, lines: seq<Line>, items: seq<Line>) returns (rows: seq<RefRow>)
    ensures rows == ReferenceRows(v, lines, items)
  {
    rows := [];
    var i := 0;
    while i < |lines|
      invariant 0 <= i <= |lines|
      invariant rows == ReferenceRows(v, lines[..i], items)
    {
      var x := lines[i];
      assert lines[..i + 1][..i] == lines[..i];
      assert lines[..i + 1][i] == x;
      rows := rows + [LineRow(x.id, Amount(v, x.field))];
      if x.id == "library" {
        var countyRows := BuildCountyRows(v, items);
        rows := rows + ([Separator] + countyRows);
      }
      i := i + 1;
    }
    assert lines[..i] == lines;
  }

  // ---------- school spending ----------

  /** The instruction detail rows: `cShare = cAmount / instructionTotal * share`, where
      `instructionTotal` is the parent amount when positive, else 1. */
  function InstructionChildRows(children: seq<Use>, yearKey: string, parentAmount: real, share: real): seq<Row> {
    if children == [] then []
    else
      var c := children[|children| - 1];
      var cAmount := YearAmount(c, yearKey);
      InstructionChildRows(children[..|children| - 1], yearKey, parentAmount, share) +
        [Row(c.id, cAmount, Portion(cAmount, SafeDivisor(parentAmount), share), true)]
  }

  /** Whether a category gets detail rows: only "instruction", and only when it has children. */
  predicate Expands(u: Use) {
    u.id == "instruction" && |u.children| > 0
  }

  /** The rows one category contributes: its own row, then its detail rows when it expands. */
  function UseRows(u: Use, yearKey: string, divisor: real, csdLine: real): seq<Row>
    requires divisor > 0.0
  {
    var p := ParentRow(u, yearKey, divisor, csdLine);
    [p] + (if Expands(u) then InstructionChildRows(u.children, yearKey, p.amount, p.share) else [])
  }

  function RowsFrom(uses: seq<Use>, yearKey: string, divisor: real, csdLine: real): seq<Row>
    requires divisor > 0.0
  {
    if uses == [] then []
    else RowsFrom(uses[..|uses| - 1], yearKey, divisor, csdLine) + UseRows(uses[|uses| - 1], yearKey, divisor, csdLine)
  }

  /** `renderSchools`: the table for the year, with the divisor falling back to 1. */
  function SchoolRows(uses: seq<Use>, yearKey: string, csdLine: real): seq<Row> {
    RowsFrom(uses, yearKey, SafeDivisor(DistrictTotal(uses, yearKey)), csdLine)
  }

  /** The instruction detail rows are all detail rows and carry the children's
      amounts, in order. */
  lemma {:induction false} InstructionChildShape(children: seq<Use>, yearKey: string, parentAmount: real, share: real)
    ensures |InstructionChildRows(children, yearKey, parentAmount, share)| == |children|
    ensures forall k :: 0 <= k < |children| ==> InstructionChildRows(children, yearKey, parentAmount, share)[k].isChild
    ensures RowAmounts(InstructionChildRows(children, yearKey, parentAmount, share)) == YearAmounts(children, yearKey)
    decreases |children|
  {
    if children != [] {
      var init := children[..|children| - 1];
      var rows := InstructionChildRows(children, yearKey, parentAmount, share);
      assert rows[..|rows| - 1] == InstructionChildRows(init, yearKey, parentAmount, share);
      InstructionChildShape(init, yearKey, parentAmount, share);
    }
  }

  /** The instruction detail shares add up to the children's total over the
      instruction divisor, as a portion of the instruction share. */
  lemma {:induction false} InstructionChildShares(children: seq<Use>, yearKey: string, parentAmount: real, share: real)
    ensures ShareTotal(InstructionChildRows(children, yearKey, parentAmount, share)) ==
      Portion(Sum(YearAmounts(children, yearKey)), SafeDivisor(parentAmount), share)
    decreases |children|
  {
    if children != [] {
      var init := children[..|children| - 1];
      var rows := InstructionChildRows(children, yearKey, parentAmount, share);
      assert rows[..|rows| - 1] == InstructionChildRows(init, yearKey, parentAmount, share);
      var xs := YearAmounts(children, yearKey);
      assert xs[..|xs| - 1] == YearAmounts(init, yearKey);
      InstructionChildShares(init, yearKey, parentAmount, share);
      PortionAdd(Sum(YearAmounts(init, yearKey)), xs[|xs| - 1], SafeDivisor(parentAmount), share);
    }
  }

  /** The instruction detail rows: no top-level share or row among them, the
      children's amounts, and their shares' total. */
  lemma InstructionChildTotals(children: seq<Use>, yearKey: string, parentAmount: real, share: real)
    ensures TopShareTotal(InstructionChildRows(children, yearKey, parentAmount, share)) == 0.0
    ensures TopRows(InstructionChildRows(children, yearKey, parentAmount, share)) == []
    ensures RowAmounts(InstructionChildRows(children, yearKey, parentAmount, share)) == YearAmounts(children, yearKey)
    ensures ShareTotal(InstructionChildRows(children, yearKey, parentAmount, share)) ==
      Portion(Sum(YearAmounts(children, yearKey)), SafeDivisor(parentAmount), share)
  {
    InstructionChildShape(children, yearKey, parentAmount, share);
    ChildRowsAreNotTop(InstructionChildRows(children, yearKey, parentAmount, share));
    InstructionChildShares(children, yearKey, parentAmount, share);
  }

  /** Each category's own row is its only top-level row; a category that does not
      expand contributes nothing else. */
  lemma UseRowsTop(u: Use, yearKey: string, divisor: real, csdLine: real)
    requires divisor > 0.0
    ensures !Expands(u) ==> UseRows(u, yearKey, divisor, csdLine) == [ParentRow(u, yearKey, divisor, csdLine)]
    ensures TopRows(UseRows(u, yearKey, divisor, csdLine)) == [ParentRow(u, yearKey, divisor, csdLine)]
    ensures TopShareTotal(UseRows(u, yearKey, divisor, csdLine)) == ParentRow(u, yearKey, divisor, csdLine).share
  {
    var p := ParentRow(u, yearKey, divisor, csdLine);
    var kids := if Expands(u) then InstructionChildRows(u.children, yearKey, p.amount, p.share) else [];
    assert UseRows(u, yearKey, divisor, csdLine) == [p] + kids;
    if Expands(u) {
      InstructionChildTotals(u.children, yearKey, p.amount, p.share);
    }
    RowTotalsAppend([p], kids);
    assert [p][..0] == [];
  }

  /** Detail rows appear only under "instruction": in the table of any dataset without
      an expanding "instruction" category every row is a top-level row. */
  lemma {:induction false} OnlyInstructionExpands(uses: seq<Use>, yearKey: string, divisor: real, csdLine: real)
    requires divisor > 0.0
    requires forall k :: 0 <= k < |uses| ==> !Expands(uses[k])
    ensures RowsFrom(uses, yearKey, divisor, csdLine) == ParentRows(uses, yearKey, divisor, csdLine)
    decreases |uses|
  {
    if uses != [] {
      OnlyInstructionExpands(uses[..|uses| - 1], yearKey, divisor, csdLine);
      UseRowsTop(uses[|uses| - 1], yearKey, divisor, csdLine);
    }
  }

  /** The instruction detail shares add up to the instruction share exactly when the
      detail amounts add up to the instruction amount, for a positive amount and
      a non-zero share. */
  lemma InstructionChildrenSumToShare(u: Use, yearKey: string, divisor: real, csdLine: real)
    requires divisor > 0.0 && Expands(u)
    requires YearAmount(u, yearKey) > 0.0
    requires ParentRow(u, yearKey, divisor, csdLine).share != 0.0
    ensures var rows := UseRows(u, yearKey, divisor, csdLine);
      ShareTotal(rows[1..]) == rows[0].share <==> Sum(YearAmounts(u.children, yearKey)) == YearAmount(u, yearKey)
  {
    var p := ParentRow(u, yearKey, divisor, csdLine);
    var rows := UseRows(u, yearKey, divisor, csdLine);
    assert rows[1..] == InstructionChildRows(u.children, yearKey, p.amount, p.share);
    InstructionChildTotals(u.children, yearKey, p.amount, p.share);
    PortionWhole(Sum(YearAmounts(u.children, yearKey)), p.amount, p.share);
  }

  /** Over any list of categories the top-level shares add up to the categories'
      year total over the divisor. */
  lemma {:induction false} RowsFromTopShares(uses: seq<Use>, yearKey: string, divisor: real, csdLine: real)
    requires divisor > 0.0
    ensures TopShareTotal(RowsFrom(uses, yearKey, divisor, csdLine)) == Portion(DistrictTotal(uses, yearKey), divisor, csdLine)
    decreases |uses|
  {
    if uses != [] {
      var init := uses[..|uses| - 1];
      var u := uses[|uses| - 1];
      assert init + [u] == uses;
      RowsFromTopShares(init, yearKey, divisor, csdLine);
      UseRowsTop(u, yearKey, divisor, csdLine);
      TopShareStep(RowsFrom(init, yearKey, divisor, csdLine), UseRows(u, yearKey, divisor, csdLine),
        DistrictTotal(init, yearKey), YearAmount(u, yearKey), divisor, csdLine);
      DistrictTotalSnoc(init, u, yearKey);
    }
  }

  /** The top-level rows of the table are the categories' own rows, in dataset order. */
  lemma {:induction false} RowsFromTopRows(uses: seq<Use>, yearKey: string, divisor: real, csdLine: real)
    requires divisor > 0.0
    ensures TopRows(RowsFrom(uses, yearKey, divisor, csdLine)) == ParentRows(uses, yearKey, divisor, csdLine)
    decreases |uses|
  {
    if uses != [] {
      var init := uses[..|uses| - 1];
      var u := uses[|uses| - 1];
      RowsFromTopRows(init, yearKey, divisor, csdLine);
      RowTotalsAppend(RowsFrom(init, yearKey, divisor, csdLine), UseRows(u, yearKey, divisor, csdLine));
      UseRowsTop(u, yearKey, divisor, csdLine);
    }
  }

  /** When the district total is positive the top-level shares add up to the CSD line
      exactly; otherwise the divisor is 1 and they add up to total × CSD line. */
  lemma TopSharesSumToCsdLine(uses: seq<Use>, yearKey: string, csdLine: real)
    ensures DistrictTotal(uses, yearKey) > 0.0 ==> TopShareTotal(SchoolRows(uses, yearKey, csdLine)) == csdLine
    ensures DistrictTotal(uses, yearKey) <= 0.0 ==>
      TopShareTotal(SchoolRows(uses, yearKey, csdLine)) == DistrictTotal(uses, yearKey) * csdLine
    ensures TopRows(SchoolRows(uses, yearKey, csdLine)) == ParentRows(uses, yearKey, SafeDivisor(DistrictTotal(uses, yearKey)), csdLine)
  {
    var t := DistrictTotal(uses, yearKey);
    var d := SafeDivisor(t);
    RowsFromTopShares(uses, yearKey, d, csdLine);
    RowsFromTopRows(uses, yearKey, d, csdLine);
    if t > 0.0 {
      PortionWhole(t, d, csdLine);
    } else {
      assert d == 1.0 && csdLine / d == csdLine;
    }
  }

  lemma {:induction false} InstructionChildZeroShares(children: seq<Use>, yearKey: string, parentAmount: real)
    ensures forall k :: 0 <= k < |InstructionChildRows(children, yearKey, parentAmount, 0.0)| ==>
      InstructionChildRows(children, yearKey, parentAmount, 0.0)[k].share == 0.0
    decreases |children|
  {
    if children != [] {
      InstructionChildZeroShares(children[..|children| - 1], yearKey, parentAmount);
      PortionOfZero(YearAmount(children[|children| - 1], yearKey), SafeDivisor(parentAmount));
    }
  }

  /** With a zero CSD line every share in the table is zero. */
  lemma {:induction false} ZeroCsdLineZeroShares(uses: seq<Use>, yearKey: string, divisor: real)
    requires divisor > 0.0
    ensures forall k :: 0 <= k < |RowsFrom(uses, yearKey, divisor, 0.0)| ==> RowsFrom(uses, yearKey, divisor, 0.0)[k].share == 0.0
    decreases |uses|
  {
    if uses != [] {
      var u := uses[|uses| - 1];
      ZeroCsdLineZeroShares(uses[..|uses| - 1], yearKey, divisor);
      var p := ParentRow(u, yearKey, divisor, 0.0);
      PortionOfZero(p.amount, divisor);
      if Expands(u) {
        InstructionChildZeroShares(u.children, yearKey, p.amount);
      }
    }
  }

  /** The instruction detail loop: each child's share of the instruction share. */
  method AllocateInstruction(children: seq<Use>, yearKey: string, amount: real, share: real) returns (childRows: seq<Row>)
    ensures childRows == InstructionChildRows(children, yearKey, amount, share)
  {
    var instructionTotal := if amount > 0.0 then amount else 1.0;
    childRows := [];
    var j := 0;
    while j < |children|
      invariant 0 <= j <= |children|
      invariant childRows == InstructionChildRows(children[..j], yearKey, amount, share)
    {
      var c := children[j];
      assert children[..j + 1][..j] == children[..j];
      var cAmount := YearAmount(c, yearKey);
      childRows := childRows + [Row(c.id, cAmount, Portion(cAmount, instructionTotal, share), true)];
      j := j + 1;
    }
    assert children[..j] == children;
  }

  /** The body of `renderSchools`' loop: the category's row, then under "instruction"
      its detail rows. */
  method AllocateUse(u: Use, yearKey: string, safe: real, csdLine: real) returns (useRows: seq<Row>)
    requires safe > 0.0
    ensures useRows == UseRows(u, yearKey, safe, csdLine)
  {
    var amount := YearAmount(u, yearKey);
    var share := Portion(amount, safe, csdLine);
    var childRows := [];
    if u.id == "instruction" && |u.children| > 0 {
      childRows := AllocateInstruction(u.children, yearKey, amount, share);
    }
    useRows := [Row(u.id, amount, share, false)] + childRows;
  }

  /** The table of one more category is the old table followed by its rows. */
  lemma RowsFromSnoc(uses: seq<Use>, i: nat, yearKey: string, divisor: real, csdLine: real)
    requires i < |uses| && divisor > 0.0
    ensures RowsFrom(uses[..i + 1], yearKey, divisor, csdLine) ==
      RowsFrom(uses[..i], yearKey, divisor, csdLine) + UseRows(uses[i], yearKey, divisor, csdLine)
    ensures DistrictTotal(uses[..i + 1], yearKey) == DistrictTotal(uses[..i], yearKey) + YearAmount(uses[i], yearKey)
  {
    assert uses[..i + 1][..i] == uses[..i];
    assert uses[..i + 1] == uses[..i] + [uses[i]];
    DistrictTotalSnoc(uses[..i], uses[i], yearKey);
  }

  /** Appending a category's rows adds its share, and only that, to the top-level
      share total: a running total that is the portion of `total` becomes the
      portion of `total` plus the category's amount. */
  lemma ShareStep(rows: seq<Row>, u: Use, yearKey: string, divisor: real, csdLine: real, total: real)
    requires divisor > 0.0
    requires TopShareTotal(rows) == Portion(total, divisor, csdLine)
    ensures TopShareTotal(rows + UseRows(u, yearKey, divisor, csdLine)) ==
      Portion(total + YearAmount(u, yearKey), divisor, csdLine)
  {
    UseRowsTop(u, yearKey, divisor, csdLine);
    RowTotalsAppend(rows, UseRows(u, yearKey, divisor, csdLine));
    PortionAdd(total, YearAmount(u, yearKey), divisor, csdLine);
  }

  /** `renderSchools`: totals the top-level categories for the year, then walks them,
      appending each category's row and, under "instruction", its detail rows. The
      running top-level share total is the running year total over the divisor ×
      the CSD line. */
  method AllocateSchools(uses: seq<Use>, yearKey: string, csdLine: real) returns (districtTotal: real, rows: seq<Row>)
    ensures districtTotal == DistrictTotal(uses, yearKey)
    ensures rows == SchoolRows(uses, yearKey, csdLine)
    ensures districtTotal > 0.0 ==> TopShareTotal(rows) == csdLine
  {
    districtTotal := YearTotal(uses, yearKey);
    var safe := SafeDivisor(districtTotal);
    rows := [];
    var i := 0;
    ghost var total := 0.0;
    while i < |uses|
      invariant 0 <= i <= |uses|
      invariant rows == RowsFrom(uses[..i], yearKey, safe, csdLine)
      invariant total == DistrictTotal(uses[..i], yearKey)
      invariant TopShareTotal(rows) == Portion(total, safe, csdLine)
    {
      RowsFromSnoc(uses, i, yearKey, safe, csdLine);
      var useRows := AllocateUse(uses[i], yearKey, safe, csdLine);
      ghost var next := total + YearAmount(uses[i], yearKey);
      assert TopShareTotal(rows + useRows) == Portion(next, safe, csdLine) by {
        ShareStep(rows, uses[i], yearKey, safe, csdLine, total);
      }
      rows := rows + useRows;
      total := next;
      i := i + 1;
    }
    assert uses[..i] == uses;
    PortionWhole(districtTotal, safe, csdLine);
  }

  // ---------- the page ----------

  /** `fillExample`: the demo numbers. */
  function ExampleValues(): Values {
    Values("722", "3066", "1095", "241", "71", "54",
           "125.28", "190.19", "133.81", "142.51", "180.21", "772",
           "80000")
  }

  /** What `renderTotals`, `renderEit` and `renderBreakdown` show: everything that
      depends on the inputs alone. */
  datatype TaxView = TaxView(
    totalPropertyTax: real, countyPortionTotal: real,  // renderTotals
    eit: EitEstimate,                                  // renderEit
    refRows: seq<RefRow>, refLinesTotal: real, refCountyItemsTotal: real)  // renderBreakdown

  /** The tax view the inputs call for. */
  function TaxViewOf(v: Values): TaxView {
    TaxView(TotalPropertyTax(v), CountyPortionTotal(v), EstimateEit(Amount(v, AnnualIncome)),
            ReferenceRows(v, TaxLines, CountyItems), TotalPropertyTax(v), CountyPortionTotal(v))
  }

  /** `renderTotals`, `renderEit` and `renderBreakdown` on the given inputs. */
  method RenderTax(v: Values) returns (view: TaxView)
    ensures view == TaxViewOf(v)
  {
    var totalLines := TotalPropertyTax(v);
    var countyItemsTotal := CountyPortionTotal(v);
    var eit := EstimateEit(Amount(v, AnnualIncome));
    var rows := BuildReferenceRows(v, TaxLines, CountyItems);
    view := TaxView(totalLines, countyItemsTotal, eit, rows, totalLines, countyItemsTotal);
  }

  /** What `renderSchools` shows: the district total, the CSD line and the table. */
  datatype SchoolView = SchoolView(districtSpendingTotal: real, csdShareTotal: real, rows: seq<Row>)

  /** The school view the dataset's uses, the selected year and the inputs call for. */
  function SchoolViewOf(uses: seq<Use>, year: int, v: Values): SchoolView {
    SchoolView(DistrictTotal(uses, YearKey(year)), CsdLine(v), SchoolRows(uses, YearKey(year), CsdLine(v)))
  }

  /** `renderSchools` once the dataset is loaded. */
  method RenderSchools(uses: seq<Use>, year: int, v: Values) returns (view: SchoolView)
    ensures view == SchoolViewOf(uses, year, v)
    ensures view.districtSpendingTotal > 0.0 ==> TopShareTotal(view.rows) == view.csdShareTotal
  {
    var csdLine := CsdLine(v);
    var districtTotal, rows := AllocateSchools(uses, YearKey(year), csdLine);
    view := SchoolView(districtTotal, csdLine, rows);
  }

  /** The page's state: the inputs, the loaded dataset and the selected year, and
      what the page shows. */
  class Page {
    var inputs: Values
    var data: Option<Dataset>
    var selectedYear: int
    var taxView: TaxView
    var schoolView: SchoolView

    /** Everything shown agrees with the inputs and, once the dataset is loaded, with
        the dataset and the selected year. */
    ghost predicate Rendered()
      reads this
    {
      taxView == TaxViewOf(inputs) &&
      (data.Some? ==> schoolView == SchoolViewOf(data.value.uses, selectedYear, inputs))
    }

    /** The page before `init`: the inputs hold their initial text, no dataset yet,
        nothing rendered. */
    constructor (initial: Values)
      ensures inputs == initial && data == None
      ensures taxView.refRows == [] && schoolView.rows == []
    {
      inputs := initial;
      data := None;
      selectedYear := 2024;
      taxView := TaxView(0.0, 0.0, EitEstimate(0.0, 0.0), [], 0.0, 0.0);
      schoolView := SchoolView(0.0, 0.0, []);
    }

    /** `onAnyChange`: re-renders everything from the inputs and changes no input.
        Without a dataset the school view stays as it was. */
    method OnAnyChange()
      modifies this
      ensures Rendered()
      ensures inputs == old(inputs) && data == old(data) && selectedYear == old(selectedYear)
      ensures data.None? ==> schoolView == old(schoolView)
    {
      taxView := RenderTax(inputs);
      if data.Some? {
        schoolView := RenderSchools(data.value.uses, selectedYear, inputs);
      }
    }

    /** `init`: the dataset is loaded, the last listed year (2024 when none) is selected. */
    method Init(ds: Dataset)
      modifies this
      ensures data == Some(ds) && inputs == old(inputs)
      ensures selectedYear == if |ds.years| > 0 then ds.years[|ds.years| - 1] else 2024
      ensures Rendered()
    {
      data := Some(ds);
      selectedYear := if |ds.years| > 0 then ds.years[|ds.years| - 1] else 2024;
      OnAnyChange();
    }

    /** The `input` event: one input takes new text and everything re-renders. */
    method Input(f: Field, text: string)
      modifies this
      ensures inputs == Set(old(inputs), f, text)
      ensures data == old(data) && selectedYear == old(selectedYear)
      ensures Rendered()
      ensures data.None? ==> schoolView == old(schoolView)
    {
      inputs := Set(inputs, f, text);
      OnAnyChange();
    }

    /** The year selector's `change` event: only the year changes, no input does. */
    method SelectYear(year: int)
      modifies this
      ensures selectedYear == year
      ensures inputs == old(inputs) && data == old(data)
      ensures Rendered()
      ensures data.None? ==> schoolView == old(schoolView)
    {
      selectedYear := year;
      OnAnyChange();
    }

    /** `clearAll`: every input becomes empty, so both totals, the estimate, the CSD
        line and every share in the table are zero. */
    method ClearAll()
      modifies this
      ensures inputs == Cleared()
      ensures data == old(data) && selectedYear == old(selectedYear)
      ensures Rendered()
      ensures data.None? ==> schoolView == old(schoolView)
      ensures taxView.totalPropertyTax == 0.0 && taxView.countyPortionTotal == 0.0
      ensures taxView.refLinesTotal == 0.0 && taxView.refCountyItemsTotal == 0.0
      ensures taxView.eit == EitEstimate(0.0, 0.0)
      ensures data.Some? ==>
        schoolView.csdShareTotal == 0.0 &&
        forall k :: 0 <= k < |schoolView.rows| ==> schoolView.rows[k].share == 0.0
    {
      SetInputs(Cleared());
      ClearedAmountsAreZero(TaxLines);
      ClearedAmountsAreZero(CountyItems);
      if data.Some? {
        var key := YearKey(selectedYear);
        ZeroCsdLineZeroShares(data.value.uses, key, SafeDivisor(DistrictTotal(data.value.uses, key)));
      }
    }

    /** `fillExample`: the demo numbers, then a re-render. */
    method FillExample()
      modifies this
      ensures inputs == ExampleValues()
      ensures data == old(data) && selectedYear == old(selectedYear)
      ensures Rendered()
      ensures data.None? ==> schoolView == old(schoolView)
    {
      SetInputs(ExampleValues());
    }

    /** Every input takes the given text, then everything re-renders. */
    method SetInputs(v: Values)
      modifies this
      ensures inputs == v
      ensures data == old(data) && selectedYear == old(selectedYear)
      ensures Rendered()
      ensures data.None? ==> schoolView == old(schoolView)
    {
      inputs := v;
      OnAnyChange();
    }
  }
}
