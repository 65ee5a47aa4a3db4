/** The year-keyed spending dataset both page scripts read, the district total that
    is the divisor of every allocation, and the rows of the spending table. */
module Spending {
  import opened Wrappers
  import opened Sums
  import Coercion

  /** A spending category: dollars per fiscal-year key, and its detail rows. */
  datatype Use = Use(id: string, name: string, values: map<string, real>, children: seq<Use>)

  datatype Dataset = Dataset(years: seq<int>, uses: seq<Use>)

  /** `String(selectedYear)`: the key the year's amounts are stored under. */
  function YearKey(year: int): string {
    Coercion.IntText(year)
  }

  /** `Number(String(y)) == y`: the option text the year selector is built from reads
      back as the year itself, so selecting a year never changes its value. */
  lemma YearKeyRoundTrip(year: int)
    ensures Coercion.ParseNumber(YearKey(year)) == Some(year as real)
  {
    Coercion.ParseIntText(year);
  }

  /** `toNumber(u?.values?.[yearKey])`: the amount for the year, 0 when the year is missing. */
  function YearAmount(u: Use, yearKey: string): real {
    if yearKey in u.values then u.values[yearKey] else 0.0
  }

  function YearAmounts(uses: seq<Use>, yearKey: string): (r: seq<real>)
    ensures |r| == |uses|
    ensures forall i :: 0 <= i < |uses| ==> r[i] == YearAmount(uses[i], yearKey)
  {
    if uses == [] then [] else YearAmounts(uses[..|uses| - 1], yearKey) + [YearAmount(uses[|uses| - 1], yearKey)]
  }

  /** The sum of the categories' amounts for the year, over the given uses only:
      children are never added. */
  function DistrictTotal(uses: seq<Use>, yearKey: string): real {
    Sum(YearAmounts(uses, yearKey))
  }

  lemma DistrictTotalSnoc(uses: seq<Use>, u: Use, yearKey: string)
    ensures DistrictTotal(uses + [u], yearKey) == DistrictTotal(uses, yearKey) + YearAmount(u, yearKey)
  {
    assert (uses + [u])[..|uses|] == uses;
  }

  /** `districtTotal > 0 ? districtTotal : 1`: the divisor is always positive and is the
      total itself whenever the total is positive. */
  function SafeDivisor(total: real): (r: real)
    ensures r > 0.0
    ensures total > 0.0 ==> r == total
    ensures total <= 0.0 ==> r == 1.0
  {
    if total > 0.0 then total else 1.0
  }

  /** One row of the spending table: the category's dollars for the year and the
      dollars of the household's school-district line attributed to it. */
  datatype Row = Row(id: string, amount: real, share: real, isChild: bool)

  /** Sum of the shares of the top-level rows. */
  function TopShareTotal(rows: seq<Row>): real {
    if rows == [] then 0.0
    else TopShareTotal(rows[..|rows| - 1]) + (if rows[|rows| - 1].isChild then 0.0 else rows[|rows| - 1].share)
  }

  /** Sum of the shares of all rows. */
  function ShareTotal(rows: seq<Row>): real {
    if rows == [] then 0.0 else ShareTotal(rows[..|rows| - 1]) + rows[|rows| - 1].share
  }

  /** The top-level rows, in order. */
  function TopRows(rows: seq<Row>): seq<Row> {
    if rows == [] then []
    else TopRows(rows[..|rows| - 1]) + (if rows[|rows| - 1].isChild then [] else [rows[|rows| - 1]])
  }

  /** The amounts of the rows, in order. */
  function RowAmounts(rows: seq<Row>): seq<real> {
    if rows == [] then [] else RowAmounts(rows[..|rows| - 1]) + [rows[|rows| - 1].amount]
  }

  lemma {:induction false} RowTotalsAppend(a: seq<Row>, b: seq<Row>)
    ensures TopShareTotal(a + b) == TopShareTotal(a) + TopShareTotal(b)
    ensures ShareTotal(a + b) == ShareTotal(a) + ShareTotal(b)
    ensures TopRows(a + b) == TopRows(a) + TopRows(b)
    ensures RowAmounts(a + b) == RowAmounts(a) + RowAmounts(b)
    decreases |b|
  {
    if b == [] {
      assert a + b == a;
    } else {
      assert (a + b)[..|a + b| - 1] == a + b[..|b| - 1];
      RowTotalsAppend(a, b[..|b| - 1]);
    }
  }

  /** Of a run of detail rows, no share counts towards the top-level total and none is a top-level row. */
  lemma {:induction false} ChildRowsAreNotTop(rows: seq<Row>)
    requires forall k :: 0 <= k < |rows| ==> rows[k].isChild
    ensures TopShareTotal(rows) == 0.0 && TopRows(rows) == []
    decreases |rows|
  {
    if rows != [] {
      ChildRowsAreNotTop(rows[..|rows| - 1]);
    }
  }

  /** The top-level row of a category: its dollars and its share of the school-district line. */
  function ParentRow(u: Use, yearKey: string, divisor: real, csdLine: real): Row
    requires divisor > 0.0
  {
    var amount := YearAmount(u, yearKey);
    Row(u.id, amount, Portion(amount, divisor, csdLine), false)
  }

  /** The top-level rows, one per category in dataset order. */
  function ParentRows(uses: seq<Use>, yearKey: string, divisor: real, csdLine: real): seq<Row>
    requires divisor > 0.0
  {
    if uses == [] then []
    else ParentRows(uses[..|uses| - 1], yearKey, divisor, csdLine) + [ParentRow(uses[|uses| - 1], yearKey, divisor, csdLine)]
  }

  /** `uses.reduce((sum, u) => sum + toNumber(u?.values?.[yearKey]), 0)`. */
  method YearTotal(uses: seq<Use>, yearKey: string) returns (total: real)
    ensures total == DistrictTotal(uses, yearKey)
  {
    total := 0.0;
    var i := 0;
    while i < |uses|
      invariant 0 <= i <= |uses|
      invariant total == DistrictTotal(uses[..i], yearKey)
    {
      var amount := YearAmount(uses[i], yearKey);
      DistrictTotalSnoc(uses[..i], uses[i], yearKey);
      assert uses[..i + 1] == uses[..i] + [uses[i]];
      total := total + amount;
      i := i + 1;
    }
    assert uses[..i] == uses;
  }

  /** `(amount / divisor) * line`: the part of a tax line attributed to an amount.
      Over the reals this is `amount` times the line's rate per unit of divisor,
      the form written here. */
  function Portion(amount: real, divisor: real, line: real): real
    requires divisor > 0.0
  {
    amount * (line / divisor)
  }

  /** Portions of one line add up: a/d*c + b/d*c == (a + b)/d*c. */
  lemma PortionAdd(a: real, b: real, d: real, c: real)
    requires d > 0.0
    ensures Portion(a, d, c) + Portion(b, d, c) == Portion(a + b, d, c)
  {
    var rate := c / d;
    assert a * rate + b * rate == (a + b) * rate;
  }

  /** Two runs of rows whose top-level shares are the portions of two amounts have,
      together, the portion of the amounts' sum. */
  lemma TopShareStep(a: seq<Row>, b: seq<Row>, x: real, y: real, d: real, c: real)
    requires d > 0.0
    requires TopShareTotal(a) == Portion(x, d, c) && TopShareTotal(b) == Portion(y, d, c)
    ensures TopShareTotal(a + b) == Portion(x + y, d, c)
  {
    RowTotalsAppend(a, b);
    PortionAdd(x, y, d, c);
  }

  /** The portion of the divisor itself is the whole line, and of a non-zero line
      only the divisor gives the whole line. */
  lemma PortionWhole(a: real, d: real, c: real)
    requires d > 0.0
    ensures Portion(d, d, c) == c
    ensures c != 0.0 ==> (Portion(a, d, c) == c <==> a == d)
  {
    var rate := c / d;
    assert d * rate == c;
    if c != 0.0 && Portion(a, d, c) == c {
      assert a * rate == d * rate;
      assert rate != 0.0;
    }
  }

  /** Nothing of a zero line is attributed to anything. */
  lemma PortionOfZero(a: real, d: real)
    requires d > 0.0
    ensures Portion(a, d, 0.0) == 0.0
  {
  }

  /** Scaling the line scales every portion of it. */
  lemma PortionScales(a: real, d: real, c: real, f: real)
    requires d > 0.0
    ensures Portion(a, d, Scale(c, f)) == Scale(Portion(a, d, c), f)
  {
    assert (c * f) / d == (c / d) * f;
    assert a * ((c / d) * f) == (a * (c / d)) * f;
  }

  /** A portion of a portion: `c / p` of the portion `p / d` of a line is `c / d` of
      the line, for a positive `p`. */
  lemma PortionChain(c: real, p: real, d: real, line: real)
    requires p > 0.0 && d > 0.0
    ensures Portion(c, p, Portion(p, d, line)) == Portion(c, d, line)
  {
    var rate := line / d;
    assert (p * rate) / p == rate;
  }

  /** On a non-zero line two amounts get the same portion only when they are equal. */
  lemma PortionInjective(a: real, b: real, d: real, line: real)
    requires d > 0.0 && line != 0.0
    ensures Portion(a, d, line) == Portion(b, d, line) <==> a == b
  {
    var rate := line / d;
    if Portion(a, d, line) == Portion(b, d, line) {
      assert a * rate == b * rate;
      assert rate != 0.0;
    }
  }
}
