/** The page's thirteen text inputs (six tax-authority lines, five county items, the
    optional county total and the household income), the rows of the tax
    reference list, and the flat-rate earned-income-tax estimate. Both page
    scripts have the same inputs. */
module Inputs {
  import opened Wrappers
  import opened Coercion
  import opened Sums

  datatype Field =
    | TaxButlerCounty | TaxFairfieldCsd | TaxFairfieldCity | TaxButlerJvsd | TaxMetroParks | TaxLibrary
    | CountyGeneralFund | CountyDd | CountyMentalHealth | CountyChildren | CountySenior | CountyTotalOptional
    | AnnualIncome

  /** The `.value` text of every input. */
  datatype Values = Values(
    taxButlerCounty: string, taxFairfieldCsd: string, taxFairfieldCity: string,
    taxButlerJvsd: string, taxMetroParks: string, taxLibrary: string,
    countyGeneralFund: string, countyDd: string, countyMentalHealth: string,
    countyChildren: string, countySenior: string, countyTotalOptional: string,
    annualIncome: string)

  function Get(v: Values, f: Field): string {
    match f
    case TaxButlerCounty => v.taxButlerCounty
    case TaxFairfieldCsd => v.taxFairfieldCsd
    case TaxFairfieldCity => v.taxFairfieldCity
    case TaxButlerJvsd => v.taxButlerJvsd
    case TaxMetroParks => v.taxMetroParks
    case TaxLibrary => v.taxLibrary
    case CountyGeneralFund => v.countyGeneralFund
    case CountyDd => v.countyDd
    case CountyMentalHealth => v.countyMentalHealth
    case CountyChildren => v.countyChildren
    case CountySenior => v.countySenior
    case CountyTotalOptional => v.countyTotalOptional
    case AnnualIncome => v.annualIncome
  }

  /** `inputs[f].value = s`: that input takes the new text and no other input changes. */
  function Set(v: Values, f: Field, s: string): (r: Values)
    ensures Get(r, f) == s
    ensures forall g :: g != f ==> Get(r, g) == Get(v, g)
  {
    match f
    case TaxButlerCounty => v.(taxButlerCounty := s)
    case TaxFairfieldCsd => v.(taxFairfieldCsd := s)
    case TaxFairfieldCity => v.(taxFairfieldCity := s)
    case TaxButlerJvsd => v.(taxButlerJvsd := s)
    case TaxMetroParks => v.(taxMetroParks := s)
    case TaxLibrary => v.(taxLibrary := s)
    case CountyGeneralFund => v.(countyGeneralFund := s)
    case CountyDd => v.(countyDd := s)
    case CountyMentalHealth => v.(countyMentalHealth := s)
    case CountyChildren => v.(countyChildren := s)
    case CountySenior => v.(countySenior := s)
    case CountyTotalOptional => v.(countyTotalOptional := s)
    case AnnualIncome => v.(annualIncome := s)
  }

  /** Every input set to the empty text. */
  function Cleared(): (r: Values)
    ensures forall f :: Get(r, f) == ""
  {
    Values("", "", "", "", "", "", "", "", "", "", "", "", "")
  }

  /** `toNumber(inputs[f].value)`. */
  function Amount(v: Values, f: Field): real {
    ToNumber(Some(Get(v, f)))
  }

  /** An entry of a fixed list of tax lines or county items: its id and its input. */
  datatype Line = Line(id: string, field: Field)

  /** The amounts of the listed inputs, in list order. */
  function LineAmounts(v: Values, lines: seq<Line>): seq<real> {
    seq(|lines|, i requires 0 <= i < |lines| => Amount(v, lines[i].field))
  }

  /** Empty inputs read as zero, so every total over them is zero. */
  lemma ClearedAmountsAreZero(lines: seq<Line>)
    ensures forall f :: Amount(Cleared(), f) == 0.0
    ensures Sum(LineAmounts(Cleared(), lines)) == 0.0
  {
    SumZeros(LineAmounts(Cleared(), lines));
  }

  /** A row of the tax reference list. */
  datatype RefRow = LineRow(id: string, amount: real) | Separator | CountyRow(id: string, amount: real)

  /** Sum of the amounts of the tax-line rows. */
  function LineRowTotal(rows: seq<RefRow>): real {
    if rows == [] then 0.0
    else LineRowTotal(rows[..|rows| - 1]) + (if rows[|rows| - 1].LineRow? then rows[|rows| - 1].amount else 0.0)
  }

  /** Sum of the amounts of the county-item rows. */
  function CountyRowTotal(rows: seq<RefRow>): real {
    if rows == [] then 0.0
    else CountyRowTotal(rows[..|rows| - 1]) + (if rows[|rows| - 1].CountyRow? then rows[|rows| - 1].amount else 0.0)
  }

  lemma {:induction false} RefTotalsAppend(a: seq<RefRow>, b: seq<RefRow>)
    ensures LineRowTotal(a + b) == LineRowTotal(a) + LineRowTotal(b)
    ensures CountyRowTotal(a + b) == CountyRowTotal(a) + CountyRowTotal(b)
    decreases |b|
  {
    if b == [] {
      assert a + b == a;
    } else {
      assert (a + b)[..|a + b| - 1] == a + b[..|b| - 1];
      RefTotalsAppend(a, b[..|b| - 1]);
    }
  }

  // ---------- earned-income tax ----------

  /** The flat local earned-income-tax rate, 1.25%. */
  const EitRate: real := 0.0125

  datatype EitEstimate = EitEstimate(yearly: real, monthly: real)

  /** `renderEit`, given the income `toNumber` read: the yearly tax is 1/80 of the
      income and the monthly figure is a twelfth of the yearly one. */
  function EstimateEit(annual: real): (e: EitEstimate)
    ensures e.yearly == annual / 80.0
    ensures e.monthly * 12.0 == e.yearly
  {
    var yearly := annual * EitRate;
    EitEstimate(yearly, yearly / 12.0)
  }

  /** The income 80000 gives 1000 a year, 83.33 a month. */
  lemma EitIncomeExample()
    ensures EstimateEit(ToNumber(Some("80000"))) == EitEstimate(1000.0, 1000.0 / 12.0)
  {
    assert NatDigits(80000) == "80000";
    ToNumberOfIntText(80000);
  }
}
