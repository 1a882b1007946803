/** The debt relief calculator: "mortgage boot" arises when the new
    mortgage is smaller than the one paid off. */
module DebtRelief {
  import opened JsNumber
  import opened Checks

  datatype Fields = Fields(oldMortgage: string, newMortgage: string, taxRate: string)

  datatype Field = OldMortgage | NewMortgage | TaxRate

  /** `DebtReliefResult`. */
  datatype Outcome = Outcome(mortgageBoot: real, estimatedTax: real, isValid: bool, errors: seq<string>)

  const OldNegativeError := "Old mortgage balance cannot be negative."
  const NewNegativeError := "New mortgage balance cannot be negative."
  const RateError := "Tax rate must be between 0 and 100."

  /** Initial state: the tax rate starts at "20". */
  const InitialFields := Fields("", "", "20")

  predicate Sanitized(f: Fields) {
    IsSanitized(f.oldMortgage) && IsSanitized(f.newMortgage) && IsSanitized(f.taxRate)
  }

  /** `handleInputChange`: only the edited field changes, to sanitised text. */
  function Edit(f: Fields, field: Field, typed: string): (g: Fields)
    ensures Sanitized(f) ==> Sanitized(g)
    ensures field == OldMortgage ==> g == f.(oldMortgage := Sanitize(typed))
    ensures field == NewMortgage ==> g == f.(newMortgage := Sanitize(typed))
    ensures field == TaxRate ==> g == f.(taxRate := Sanitize(typed))
  {
    var v := Sanitize(typed);
    match field
    case OldMortgage => f.(oldMortgage := v)
    case NewMortgage => f.(newMortgage := v)
    case TaxRate => f.(taxRate := v)
  }

  function Rules(oldMortgage: real, newMortgage: real, rate: Num): seq<Rule> {
    [ Rule(oldMortgage < 0.0, OldNegativeError),
      Rule(newMortgage < 0.0, NewNegativeError),
      Rule(rate.NaN? || rate.Lt(0.0) || rate.Gt(100.0), RateError) ]
  }

  /** `calculateDebtRelief` on parsed inputs. */
  function Calculate(oldMortgage: real, newMortgage: real, rate: Num): (r: Outcome)
    ensures r.isValid <==> r.errors == []
    ensures r.errors == Collect(Rules(oldMortgage, newMortgage, rate))
    ensures r.isValid <==>
      oldMortgage >= 0.0 && newMortgage >= 0.0 && rate.Fin? && 0.0 <= rate.v <= 100.0
    ensures !r.isValid ==> r.mortgageBoot == 0.0 && r.estimatedTax == 0.0
    ensures r.isValid ==>
      && r.mortgageBoot >= 0.0
      && (r.mortgageBoot == 0.0 <==> newMortgage >= oldMortgage)
      && (r.mortgageBoot > 0.0 ==> r.mortgageBoot == oldMortgage - newMortgage)
      && r.estimatedTax == r.mortgageBoot * (rate.v / 100.0)
      && 0.0 <= r.estimatedTax <= r.mortgageBoot
  {
    var rules := Rules(oldMortgage, newMortgage, rate);
    var errors := Collect(rules);
    if errors != [] then
      Outcome(0.0, 0.0, false, errors)
    else
      assert forall i | 0 <= i < |rules| :: !rules[i].violated;
      assert !rules[0].violated && !rules[1].violated && !rules[2].violated;
      var boot := if 0.0 >= oldMortgage - newMortgage then 0.0 else oldMortgage - newMortgage;
      Outcome(boot, PercentOfAmount(boot, rate.v), true, [])
  }

  /** The calculator as wired to its form: both balances through
      `parseFloat(x) || 0`, the rate through `parseFloat`. A sanitised
      form can only ever show the rate error. */
  function FromFields(f: Fields): (r: Outcome)
    requires Sanitized(f)
    ensures r.errors == [] || r.errors == [RateError]
  {
    var oldMortgage, newMortgage := OrZero(ParseFloat(f.oldMortgage)), OrZero(ParseFloat(f.newMortgage));
    OnlyRateCanFail(oldMortgage, newMortgage, ParseFloat(f.taxRate));
    Calculate(oldMortgage, newMortgage, ParseFloat(f.taxRate))
  }

  /** Balances that are not negative leave only the rate check to fail. */
  lemma OnlyRateCanFail(oldMortgage: real, newMortgage: real, rate: Num)
    requires oldMortgage >= 0.0 && newMortgage >= 0.0
    ensures Collect(Rules(oldMortgage, newMortgage, rate)) == []
      || Collect(Rules(oldMortgage, newMortgage, rate)) == [RateError]
  {
    var rules := Rules(oldMortgage, newMortgage, rate);
    assert Collect(rules) == Collect(rules[1..]);
    assert Collect(rules[1..]) == Collect(rules[1..][1..]);
    assert rules[1..][1..] == [rules[2]];
    assert [rules[2]][1..] == [];
    assert Collect([rules[2]]) == if rules[2].violated then [RateError] else [];
  }

  /** With the default rate of "20" every sanitised pair of balances is
      accepted, and the tax is a fifth of the boot. */
  lemma DefaultRateAccepted(oldText: string, newText: string)
    requires IsSanitized(oldText) && IsSanitized(newText)
    ensures FromFields(InitialFields.(oldMortgage := oldText, newMortgage := newText)).isValid
    ensures var r := FromFields(InitialFields.(oldMortgage := oldText, newMortgage := newText));
      r.estimatedTax == r.mortgageBoot / 5.0
  {
    ParseTwenty();
  }

  lemma ParseTwenty()
    ensures ParseFloat("20") == Fin(20.0)
  {
    assert "20"[..1] == "2";
    assert "20"[..2] == "20";
    assert DigitsValue("20") == 20;
  }
}
