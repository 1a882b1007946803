/** The depreciation recapture estimator: the part of the gain on a sale
    that recaptures depreciation already taken, and the tax on it. */
module DepreciationRecapture {
  import opened JsNumber
  import opened Checks

  datatype Fields = Fields(
    originalCost: string,
    accumulatedDepreciation: string,
    salePrice: string,
    recaptureRate: string)

  datatype Field = OriginalCost | Depreciation | SalePrice | Rate

  /** `DepreciationResult`; `totalDepreciation` holds the recaptured amount. */
  datatype Outcome = Outcome(
    totalDepreciation: real,
    recaptureTax: real,
    netAfterRecapture: real,
    isValid: bool,
    errors: seq<string>)

  const CostError := "Original cost basis must be greater than zero."
  const DepreciationNegativeError := "Accumulated depreciation cannot be negative."
  const SaleError := "Sale price must be greater than zero."
  const RateError := "Recapture tax rate must be between 0 and 100."
  const DepreciationExceedsCostError := "Accumulated depreciation cannot exceed original cost basis."

  /** Initial state: the recapture rate starts at "25", the rest empty. */
  const InitialFields := Fields("", "", "", "25")

  predicate Sanitized(f: Fields) {
    IsSanitized(f.originalCost) && IsSanitized(f.accumulatedDepreciation)
    && IsSanitized(f.salePrice) && IsSanitized(f.recaptureRate)
  }

  /** `handleInputChange`: only the edited field changes, to sanitised text. */
  function Edit(f: Fields, field: Field, typed: string): (g: Fields)
    ensures Sanitized(f) ==> Sanitized(g)
    ensures field == OriginalCost ==> g == f.(originalCost := Sanitize(typed))
    ensures field == Depreciation ==> g == f.(accumulatedDepreciation := Sanitize(typed))
    ensures field == SalePrice ==> g == f.(salePrice := Sanitize(typed))
    ensures field == Rate ==> g == f.(recaptureRate := Sanitize(typed))
  {
    var v := Sanitize(typed);
    match field
    case OriginalCost => f.(originalCost := v)
    case Depreciation => f.(accumulatedDepreciation := v)
    case SalePrice => f.(salePrice := v)
    case Rate => f.(recaptureRate := v)
  }

  /** The five checks in source order; comparisons with NaN are false. */
  function Rules(cost: Num, depreciation: real, sale: Num, rate: Num): seq<Rule> {
    [ Rule(cost.NaN? || cost.Le(0.0), CostError),
      Rule(depreciation < 0.0, DepreciationNegativeError),
      Rule(sale.NaN? || sale.Le(0.0), SaleError),
      Rule(rate.NaN? || rate.Lt(0.0) || rate.Gt(100.0), RateError),
      Rule(cost.Lt(depreciation), DepreciationExceedsCostError) ]
  }

  function Min(a: real, b: real): real { if a <= b then a else b }
  function Max(a: real, b: real): real { if a >= b then a else b }

  /** The recaptured amount: the gain, but no less than nothing and no more
      than the depreciation taken. */
  function Recaptured(depreciation: real, gain: real): (r: real)
    requires depreciation >= 0.0
    ensures 0.0 <= r <= depreciation && r <= Max(0.0, gain)
    ensures gain >= depreciation ==> r == depreciation
    ensures 0.0 <= gain <= depreciation ==> r == gain
    ensures gain <= 0.0 ==> r == 0.0
  {
    Min(depreciation, Max(0.0, gain))
  }

  /** `calculateRecapture` on parsed inputs. */
  function Calculate(cost: Num, depreciation: real, sale: Num, rate: Num): (r: Outcome)
    ensures r.isValid <==> r.errors == []
    ensures r.errors == Collect(Rules(cost, depreciation, sale, rate))
    ensures r.isValid <==>
      && cost.Fin? && cost.v > 0.0 && depreciation >= 0.0
      && sale.Fin? && sale.v > 0.0
      && rate.Fin? && 0.0 <= rate.v <= 100.0
      && depreciation <= cost.v
    ensures !r.isValid ==>
      r.totalDepreciation == 0.0 && r.recaptureTax == 0.0 && r.netAfterRecapture == 0.0
    ensures r.isValid ==>
      // recapture is capped by the depreciation taken and by the gain
      && 0.0 <= r.totalDepreciation <= depreciation
      && r.totalDepreciation <= Max(0.0, sale.v - (cost.v - depreciation))
      && (sale.v - (cost.v - depreciation) >= depreciation ==> r.totalDepreciation == depreciation)
      && (0.0 <= sale.v - (cost.v - depreciation) <= depreciation ==>
            r.totalDepreciation == sale.v - (cost.v - depreciation))
      // no gain over the adjusted basis, no recapture
      && (sale.v <= cost.v - depreciation ==> r.totalDepreciation == 0.0)
      && r.recaptureTax == r.totalDepreciation * (rate.v / 100.0)
      && 0.0 <= r.recaptureTax <= r.totalDepreciation
      && r.netAfterRecapture == sale.v - r.recaptureTax
      && sale.v - r.totalDepreciation <= r.netAfterRecapture <= sale.v
  {
    var rules := Rules(cost, depreciation, sale, rate);
    var errors := Collect(rules);
    if errors != [] then
      Outcome(0.0, 0.0, 0.0, false, errors)
    else
      assert forall i | 0 <= i < |rules| :: !rules[i].violated;
      assert !rules[0].violated && !rules[1].violated && !rules[2].violated;
      assert !rules[3].violated && !rules[4].violated;
      var adjustedBasis := cost.v - depreciation;
      var totalGain := sale.v - adjustedBasis;
      var recapture := Recaptured(depreciation, totalGain);
      var tax := PercentOfAmount(recapture, rate.v);
      Outcome(recapture, tax, sale.v - tax, true, [])
  }

  /** The estimator as wired to its form: depreciation through
      `parseFloat(x) || 0`, the others through `parseFloat`. */
  function FromFields(f: Fields): (r: Outcome)
    requires Sanitized(f)
    ensures DepreciationNegativeError !in r.errors
  {
    var depreciation := OrZero(ParseFloat(f.accumulatedDepreciation));
    DepreciationCheckPasses(ParseFloat(f.originalCost), depreciation, ParseFloat(f.salePrice), ParseFloat(f.recaptureRate));
    Calculate(ParseFloat(f.originalCost), depreciation, ParseFloat(f.salePrice), ParseFloat(f.recaptureRate))
  }

  /** Depreciation that is not negative never draws the negative
      depreciation message, whatever the other fields hold. */
  lemma DepreciationCheckPasses(cost: Num, depreciation: real, sale: Num, rate: Num)
    requires depreciation >= 0.0
    ensures DepreciationNegativeError !in Collect(Rules(cost, depreciation, sale, rate))
  {
    var rules := Rules(cost, depreciation, sale, rate);
    forall i | 0 <= i < |rules| && rules[i].violated
      ensures rules[i].message != DepreciationNegativeError
    {
      assert i != 1;
      assert |rules[i].message| != |DepreciationNegativeError|;
    }
  }

  /** The default rate of "25" passes the rate check on its own. */
  lemma DefaultRateIsValid()
    ensures ParseFloat(InitialFields.recaptureRate) == Fin(25.0)
    ensures RateError !in Collect(Rules(Fin(1.0), 0.0, Fin(1.0), ParseFloat(InitialFields.recaptureRate)))
  {
    assert DigitsValue("25") == 25 by {
      assert "25"[..1] == "2";
    }
    assert "25"[..2] == "25";
  }

  /** A worked case: cost 500,000, 150,000 depreciated, sold for 600,000;
      the gain of 250,000 exceeds the depreciation, so all 150,000 is
      recaptured, taxed at 25%. */
  lemma WorkedExample()
    ensures Calculate(Fin(500000.0), 150000.0, Fin(600000.0), Fin(25.0))
      == Outcome(150000.0, 37500.0, 562500.0, true, [])
  {
  }
}
