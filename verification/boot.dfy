/** The boot calculator: cash boot and mortgage boot received in an
    exchange, and an illustrative 20% tax on their total. */
module Boot {
  import opened Wrappers
  import opened JsNumber

  datatype Fields = Fields(
    relinquishedValue: string,
    replacementValue: string,
    cashReceived: string,
    oldMortgage: string,
    newMortgage: string)

  datatype FieldKey = RelinquishedValue | ReplacementValue | CashReceived | OldMortgage | NewMortgage

  const AllKeys: set<FieldKey> :=
    {RelinquishedValue, ReplacementValue, CashReceived, OldMortgage, NewMortgage}

  /** Every field starts empty. */
  const InitialFields := Fields("", "", "", "", "")

  const RequiredMessage := "Required"
  const NotNumericMessage := "Enter a numeric value"
  const NegativeMessage := "Must be zero or greater"

  function Get(f: Fields, k: FieldKey): string {
    match k
    case RelinquishedValue => f.relinquishedValue
    case ReplacementValue => f.replacementValue
    case CashReceived => f.cashReceived
    case OldMortgage => f.oldMortgage
    case NewMortgage => f.newMortgage
  }

  predicate Sanitized(f: Fields) {
    forall k :: IsSanitized(Get(f, k))
  }

  /** `handleChange`: only the edited field changes, to sanitised text. */
  function Edit(f: Fields, k: FieldKey, typed: string): (g: Fields)
    ensures Get(g, k) == Sanitize(typed)
    ensures forall j | j != k :: Get(g, j) == Get(f, j)
    ensures Sanitized(f) ==> Sanitized(g)
  {
    var v := Sanitize(typed);
    match k
    case RelinquishedValue => f.(relinquishedValue := v)
    case ReplacementValue => f.(replacementValue := v)
    case CashReceived => f.(cashReceived := v)
    case OldMortgage => f.(oldMortgage := v)
    case NewMortgage => f.(newMortgage := v)
  }

  /** The first message that applies to a field, if any. */
  function FieldError(p: Parsed): (e: Option<string>)
    ensures e.None? <==> p.Value? && p.n.Ge(0.0)
    ensures p.Null? ==> e == Some(RequiredMessage)
    ensures p.Value? && p.n.NaN? ==> e == Some(NotNumericMessage)
    ensures p.Value? && p.n.Lt(0.0) ==> e == Some(NegativeMessage)
  {
    if p.Null? then Some(RequiredMessage)
    else if p.n.NaN? then Some(NotNumericMessage)
    else if p.n.Lt(0.0) then Some(NegativeMessage)
    else None
  }

  /** The message for field `k` of the form, if any. */
  function ErrorAt(f: Fields, k: FieldKey): (e: Option<string>)
    requires Sanitized(f)
    ensures e.None? <==> Get(f, k) != "" && ToNumber(Get(f, k)).Fin?
  {
    FieldError(ParseField(Get(f, k)))
  }

  /** The `errors` memo: one message per failing field. */
  function Errors(f: Fields): (m: map<FieldKey, string>)
    requires Sanitized(f)
    ensures forall k :: k in m <==> ErrorAt(f, k).Some?
    ensures forall k | k in m :: m[k] == ErrorAt(f, k).value
  {
    map k | k in AllKeys && ErrorAt(f, k).Some? :: ErrorAt(f, k).value
  }

  /** `canShowResults`: every field filled in and free of errors. */
  predicate CanShowResults(f: Fields)
    requires Sanitized(f)
  {
    forall k :: Get(f, k) != "" && k !in Errors(f)
  }

  /** Results can be shown exactly when every field reads as a number. */
  lemma CanShowResultsIff(f: Fields)
    requires Sanitized(f)
    ensures CanShowResults(f) <==> forall k :: Get(f, k) != "" && ToNumber(Get(f, k)).Fin?
  {
    if !CanShowResults(f) {
      var k :| !(Get(f, k) != "" && k !in Errors(f));
      assert !(Get(f, k) != "" && ToNumber(Get(f, k)).Fin?);
    }
  }

  datatype Results = Results(cashBoot: real, mortgageBoot: real, totalBoot: real, estimatedTax: real)

  /** The `results` memo. */
  function ComputeResults(f: Fields): (r: Option<Results>)
    requires Sanitized(f)
    ensures r.Some? <==> forall k :: Get(f, k) != "" && ToNumber(Get(f, k)).Fin?
    ensures r.Some? ==>
      && ToNumber(Get(f, CashReceived)).Fin?
      && ToNumber(Get(f, OldMortgage)).Fin?
      && ToNumber(Get(f, NewMortgage)).Fin?
      && r.value.cashBoot == ToNumber(Get(f, CashReceived)).v >= 0.0
      && r.value.mortgageBoot >= 0.0
      && (r.value.mortgageBoot == 0.0 <==>
            ToNumber(Get(f, NewMortgage)).v >= ToNumber(Get(f, OldMortgage)).v)
      && (r.value.mortgageBoot > 0.0 ==>
            r.value.mortgageBoot == ToNumber(Get(f, OldMortgage)).v - ToNumber(Get(f, NewMortgage)).v)
      && r.value.totalBoot == r.value.cashBoot + r.value.mortgageBoot
      && r.value.estimatedTax == r.value.totalBoot * 0.2
  {
    CanShowResultsIff(f);
    if !CanShowResults(f) then None
    else
      assert Get(f, CashReceived) != "" && ToNumber(Get(f, CashReceived)).Fin?;
      assert Get(f, OldMortgage) != "" && ToNumber(Get(f, OldMortgage)).Fin?;
      assert Get(f, NewMortgage) != "" && ToNumber(Get(f, NewMortgage)).Fin?;
      Some(ResultsOf(ToNumber(f.cashReceived).v, ToNumber(f.oldMortgage).v, ToNumber(f.newMortgage).v))
  }

  /** The arithmetic of the `results` memo on the three amounts it reads. */
  function ResultsOf(cash: real, oldMortgage: real, newMortgage: real): Results {
    var cashBoot := if cash >= 0.0 then cash else 0.0;
    var gap := oldMortgage - newMortgage;
    var mortgageBoot := if gap >= 0.0 then gap else 0.0;
    var totalBoot := cashBoot + mortgageBoot;
    Results(cashBoot, mortgageBoot, totalBoot, totalBoot * 0.2)
  }

  /** Digits and dots never read as a negative number, so the
      "Must be zero or greater" message can never be shown. */
  lemma NegativeMessageUnreachable(f: Fields, k: FieldKey)
    requires Sanitized(f)
    ensures k in Errors(f) ==> Errors(f)[k] != NegativeMessage
  {
  }

  /** The two property values are validated but do not enter the results:
      forms that differ only in them give the same results once both are
      acceptable. */
  lemma PropertyValuesDoNotMatter(f: Fields, g: Fields)
    requires Sanitized(f) && Sanitized(g)
    requires f.cashReceived == g.cashReceived
    requires f.oldMortgage == g.oldMortgage && f.newMortgage == g.newMortgage
    requires ComputeResults(f).Some? && ComputeResults(g).Some?
    ensures ComputeResults(f) == ComputeResults(g)
  {
    assert Get(f, CashReceived) == Get(g, CashReceived);
    assert Get(f, OldMortgage) == Get(g, OldMortgage);
    assert Get(f, NewMortgage) == Get(g, NewMortgage);
  }

  /** `"1.2.3"` in a field shows "Enter a numeric value" and hides results. */
  lemma MalformedFieldHidesResults(f: Fields)
    requires Sanitized(f) && f.cashReceived == "1.2.3"
    ensures CashReceived in Errors(f) && Errors(f)[CashReceived] == NotNumericMessage
    ensures ComputeResults(f).None?
  {
    MixedParseExamples();
    assert Get(f, CashReceived) == "1.2.3";
  }
}
