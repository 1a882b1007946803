/** The replacement-property value calculator: how much the replacement
    property must cost to reinvest all equity, given the sale price,
    existing mortgage, exchange costs, cash taken out and new mortgage. */
module ReplacementValue {
  import opened JsNumber
  import opened Checks
  import opened Lists

  /** The five text fields as held in the form state. */
  datatype Fields = Fields(
    salePrice: string,
    mortgage: string,
    costs: string,
    cashOut: string,
    newMortgage: string)

  datatype Field = SalePrice | Mortgage | Costs | CashOut | NewMortgage

  /** `ReplacementValueResult`. */
  datatype Outcome = Outcome(
    minimumReplacementValue: real,
    recommendedReplacementValue: real,
    equityToReinvest: real,
    isValid: bool,
    errors: seq<string>)

  const SalePriceError := "Relinquished property sale price must be greater than zero."
  const MortgageNegativeError := "Relinquished mortgage cannot be negative."
  const CostsNegativeError := "Exchange costs cannot be negative."
  const CashOutNegativeError := "Cash to receive cannot be negative."
  const NewMortgageNegativeError := "New mortgage amount cannot be negative."
  const MortgageExceedsSaleError := "Mortgage balance cannot exceed sale price."
  const ExceedsProceedsError := "Cash to receive plus exchange costs cannot exceed net proceeds."

  /** Initial state: every field empty except cash to receive, which is "0". */
  const InitialFields := Fields("", "", "", "0", "")

  predicate Sanitized(f: Fields) {
    IsSanitized(f.salePrice) && IsSanitized(f.mortgage) && IsSanitized(f.costs)
    && IsSanitized(f.cashOut) && IsSanitized(f.newMortgage)
  }

  /** `handleInputChange`: the edited field takes the sanitised text, the
      others keep theirs, and the form stays sanitised. */
  function Edit(f: Fields, field: Field, typed: string): (g: Fields)
    ensures Sanitized(f) ==> Sanitized(g)
    ensures field == SalePrice ==> g == f.(salePrice := Sanitize(typed))
    ensures field == Mortgage ==> g == f.(mortgage := Sanitize(typed))
    ensures field == Costs ==> g == f.(costs := Sanitize(typed))
    ensures field == CashOut ==> g == f.(cashOut := Sanitize(typed))
    ensures field == NewMortgage ==> g == f.(newMortgage := Sanitize(typed))
  {
    var v := Sanitize(typed);
    match field
    case SalePrice => f.(salePrice := v)
    case Mortgage => f.(mortgage := v)
    case Costs => f.(costs := v)
    case CashOut => f.(cashOut := v)
    case NewMortgage => f.(newMortgage := v)
  }

  /** The seven checks, in the order the source performs them. The
      comparisons against a NaN sale price are false, as in JavaScript. */
  function Rules(sale: Num, mortgage: real, costs: real, cashOut: real, newMortgage: real): seq<Rule> {
    [ Rule(sale.NaN? || sale.Le(0.0), SalePriceError),
      Rule(mortgage < 0.0, MortgageNegativeError),
      Rule(costs < 0.0, CostsNegativeError),
      Rule(cashOut < 0.0, CashOutNegativeError),
      Rule(newMortgage < 0.0, NewMortgageNegativeError),
      Rule(sale.Lt(mortgage), MortgageExceedsSaleError),
      Rule(sale.Fin? && cashOut + costs > sale.v - mortgage, ExceedsProceedsError) ]
  }

  /** `calculateReplacementValue` on already-parsed inputs. */
  function Calculate(sale: Num, mortgage: real, costs: real, cashOut: real, newMortgage: real): (r: Outcome)
    ensures r.isValid <==> r.errors == []
    ensures r.errors == Collect(Rules(sale, mortgage, costs, cashOut, newMortgage))
    ensures r.isValid <==>
      && sale.Fin? && sale.v > 0.0
      && mortgage >= 0.0 && costs >= 0.0 && cashOut >= 0.0 && newMortgage >= 0.0
      && mortgage <= sale.v && cashOut + costs <= sale.v - mortgage
    ensures !r.isValid ==>
      r.minimumReplacementValue == 0.0 && r.recommendedReplacementValue == 0.0
      && r.equityToReinvest == 0.0
    ensures IsSubsequence(r.errors, Messages(Rules(sale, mortgage, costs, cashOut, newMortgage)))
    ensures r.isValid ==>
      && r.equityToReinvest == sale.v - mortgage - costs - cashOut
      && r.equityToReinvest >= 0.0
      && r.minimumReplacementValue == r.equityToReinvest + newMortgage
      && r.recommendedReplacementValue == r.minimumReplacementValue * 1.05
      && r.recommendedReplacementValue >= r.minimumReplacementValue >= 0.0
  {
    var rules := Rules(sale, mortgage, costs, cashOut, newMortgage);
    var errors := Collect(rules);
    if errors != [] then
      Outcome(0.0, 0.0, 0.0, false, errors)
    else
      assert forall i | 0 <= i < |rules| :: !rules[i].violated;
      assert !rules[0].violated && !rules[1].violated && !rules[2].violated;
      assert !rules[3].violated && !rules[4].violated;
      assert !rules[5].violated && !rules[6].violated;
      var equity := sale.v - mortgage - costs - cashOut;
      var minimum := equity + newMortgage;
      Outcome(minimum, minimum * 1.05, equity, true, [])
  }

  /** The calculator as wired to its form: optional fields read through
      `parseFloat(x) || 0`, the sale price through `parseFloat` alone. */
  function FromFields(f: Fields): (r: Outcome)
    requires Sanitized(f)
    ensures forall m | m in r.errors ::
      m == SalePriceError || m == MortgageExceedsSaleError || m == ExceedsProceedsError
  {
    var sale := ParseFloat(f.salePrice);
    var mortgage := OrZero(ParseFloat(f.mortgage));
    var costs := OrZero(ParseFloat(f.costs));
    var cashOut := OrZero(ParseFloat(f.cashOut));
    var newMortgage := OrZero(ParseFloat(f.newMortgage));
    OnlyComparisonsFail(sale, mortgage, costs, cashOut, newMortgage);
    Calculate(sale, mortgage, costs, cashOut, newMortgage)
  }

  /** With no negative amount only the sale price check and the two
      comparisons can fail. */
  lemma OnlyComparisonsFail(sale: Num, mortgage: real, costs: real, cashOut: real, newMortgage: real)
    requires mortgage >= 0.0 && costs >= 0.0 && cashOut >= 0.0 && newMortgage >= 0.0
    ensures forall m | m in Collect(Rules(sale, mortgage, costs, cashOut, newMortgage)) ::
      m == SalePriceError || m == MortgageExceedsSaleError || m == ExceedsProceedsError
  {
    var rules := Rules(sale, mortgage, costs, cashOut, newMortgage);
    forall m | m in Collect(rules)
      ensures m == SalePriceError || m == MortgageExceedsSaleError || m == ExceedsProceedsError
    {
      var i :| 0 <= i < |rules| && rules[i].violated && rules[i].message == m;
      assert i == 0 || i == 5 || i == 6;
    }
  }

  /** A sale price that does not parse yields exactly one error: the
      comparisons that involve it are all false. */
  lemma NaNSaleSingleError(f: Fields)
    requires Sanitized(f) && ParseFloat(f.salePrice).NaN?
    ensures FromFields(f).errors == [SalePriceError]
  {
  }

  /** Reading a negative amount is impossible from a sanitised form, so the
      four "cannot be negative" messages can never be shown. */
  lemma NegativeErrorsUnreachable(f: Fields)
    requires Sanitized(f)
    ensures MortgageNegativeError !in FromFields(f).errors
    ensures CostsNegativeError !in FromFields(f).errors
    ensures CashOutNegativeError !in FromFields(f).errors
    ensures NewMortgageNegativeError !in FromFields(f).errors
  {
    var errors := FromFields(f).errors;
    NotComparison(MortgageNegativeError);
    NotComparison(CostsNegativeError);
    NotComparison(CashOutNegativeError);
    NotComparison(NewMortgageNegativeError);
  }

  /** The "cannot be negative" messages differ from the other three. */
  lemma NotComparison(m: string)
    requires m == MortgageNegativeError || m == CostsNegativeError
      || m == CashOutNegativeError || m == NewMortgageNegativeError
    ensures m != SalePriceError && m != MortgageExceedsSaleError && m != ExceedsProceedsError
  {
    assert |SalePriceError| == 59 && |MortgageExceedsSaleError| == 42 && |ExceedsProceedsError| == 63;
    assert |MortgageNegativeError| == 41 && |CostsNegativeError| == 34;
    assert |CashOutNegativeError| == 35 && |NewMortgageNegativeError| == 39;
  }

  /** A worked case: selling for 1,000,000 with 400,000 owed, 20,000 costs,
      no cash out and a 300,000 new loan calls for 880,000 of replacement
      value, 924,000 with the 5% buffer. */
  lemma WorkedExample()
    ensures Calculate(Fin(1000000.0), 400000.0, 20000.0, 0.0, 300000.0)
      == Outcome(880000.0, 924000.0, 580000.0, true, [])
  {
  }
}
