/** The exchange cost estimator: qualified intermediary fee, title
    insurance, escrow and recording fees for a replacement purchase.

    `ComputeResults` follows the code as written, where a field that reads
    as NaN slips through every check except the property value's, and
    `ComputeResultsChecked` is the corrected estimator that rejects NaN
    (see the findings in README.md). */
module ExchangeCost {
  import opened Wrappers
  import opened JsNumber

  datatype Fields = Fields(
    propertyValue: string,
    qiFeePercentage: string,
    escrowFee: string,
    titleInsuranceRate: string,
    recordingFees: string)

  datatype FieldKey = PropertyValue | QiFeePercentage | EscrowFee | TitleInsuranceRate | RecordingFees

  const AllKeys: set<FieldKey> :=
    {PropertyValue, QiFeePercentage, EscrowFee, TitleInsuranceRate, RecordingFees}

  /** Initial state: property value empty, typical defaults for the rest. */
  const InitialFields := Fields("", "1", "1500", "0.5", "500")

  const PropertyValueMessage := "Enter a value above zero"
  const QiFeeMessage := "Enter 0 - 100%"
  const FeeMessage := "Must be zero or greater"
  const TitleRateMessage := "Enter a realistic percent (0 - 2%)"

  function Get(f: Fields, k: FieldKey): string {
    match k
    case PropertyValue => f.propertyValue
    case QiFeePercentage => f.qiFeePercentage
    case EscrowFee => f.escrowFee
    case TitleInsuranceRate => f.titleInsuranceRate
    case RecordingFees => f.recordingFees
  }

  predicate Sanitized(f: Fields) {
    forall k :: IsSanitized(Get(f, k))
  }

  /** `handleChange`: only the edited field changes, to sanitised text. */
  function Edit(f: Fields, k: FieldKey, typed: string): (g: Fields)
    ensures Get(g, k) == Sanitize(typed)
    ensures forall j | j != k :: Get(g, j) == Get(f, j)
    ensures Sanitized(f) ==> Sanitized(g)
  {
    var v := Sanitize(typed);
    match k
    case PropertyValue => f.(propertyValue := v)
    case QiFeePercentage => f.(qiFeePercentage := v)
    case EscrowFee => f.(escrowFee := v)
    case TitleInsuranceRate => f.(titleInsuranceRate := v)
    case RecordingFees => f.(recordingFees := v)
  }

  /** The `parsed` memo. */
  datatype Values = Values(
    propertyValue: Parsed,
    qiFeePercentage: Parsed,
    escrowFee: Parsed,
    titleInsuranceRate: Parsed,
    recordingFees: Parsed)

  function At(v: Values, k: FieldKey): Parsed {
    match k
    case PropertyValue => v.propertyValue
    case QiFeePercentage => v.qiFeePercentage
    case EscrowFee => v.escrowFee
    case TitleInsuranceRate => v.titleInsuranceRate
    case RecordingFees => v.recordingFees
  }

  /** The `parsed` memo: a field is `null` exactly when its text is empty,
      so "filled in" and "present" coincide. */
  function ParseAll(f: Fields): (v: Values)
    requires Sanitized(f)
    ensures forall k :: At(v, k).Null? <==> Get(f, k) == ""
  {
    assert IsSanitized(Get(f, PropertyValue)) && IsSanitized(Get(f, QiFeePercentage));
    assert IsSanitized(Get(f, EscrowFee)) && IsSanitized(Get(f, TitleInsuranceRate));
    assert IsSanitized(Get(f, RecordingFees));
    Values(ParseField(f.propertyValue), ParseField(f.qiFeePercentage), ParseField(f.escrowFee),
           ParseField(f.titleInsuranceRate), ParseField(f.recordingFees))
  }

  /** The message each field shows when its check fails. */
  function Message(k: FieldKey): string {
    match k
    case PropertyValue => PropertyValueMessage
    case QiFeePercentage => QiFeeMessage
    case TitleInsuranceRate => TitleRateMessage
    case _ => FeeMessage
  }

  /** The tests of the `errors` memo, as written. The property value is
      tested for falsiness (`!value`), which catches NaN; the other fields
      are only compared, and comparisons with NaN are false. So a field
      passes when it is present and in range or, except for the property
      value, when it is NaN. */
  function FieldError(k: FieldKey, p: Parsed): (e: Option<string>)
    ensures e.None? <==>
      p.Value? && (if p.n.NaN? then k != PropertyValue else !OutOfRange(k, p.n.v))
    ensures e.Some? ==> e.value == Message(k)
  {
    match k
    case PropertyValue =>
      if p.Null? || !p.n.Truthy() || p.n.Le(0.0) then Some(PropertyValueMessage) else None
    case QiFeePercentage =>
      if p.Null? || p.n.Lt(0.0) || p.n.Gt(100.0) then Some(QiFeeMessage) else None
    case EscrowFee =>
      if p.Null? || p.n.Lt(0.0) then Some(FeeMessage) else None
    case RecordingFees =>
      if p.Null? || p.n.Lt(0.0) then Some(FeeMessage) else None
    case TitleInsuranceRate =>
      if p.Null? || p.n.Lt(0.0) || p.n.Gt(2.0) then Some(TitleRateMessage) else None
  }

  /** The upper bound each percentage field is checked against. */
  function UpperBound(k: FieldKey): Option<real> {
    match k
    case QiFeePercentage => Some(100.0)
    case TitleInsuranceRate => Some(2.0)
    case _ => None
  }

  /** A value is out of range when it is negative (or, for the property
      value, not positive) or above its field's upper bound. */
  predicate OutOfRange(k: FieldKey, x: real) {
    || (k == PropertyValue && x <= 0.0)
    || x < 0.0
    || (UpperBound(k).Some? && x > UpperBound(k).value)
  }

  /** The `errors` memo. */
  function Errors(v: Values): (m: map<FieldKey, string>)
    ensures forall k :: k in m <==> FieldError(k, At(v, k)).Some?
    ensures forall k | k in m :: m[k] == FieldError(k, At(v, k)).value
  {
    map k | k in AllKeys && FieldError(k, At(v, k)).Some? :: FieldError(k, At(v, k)).value
  }

  /** `canShowResults`: every field filled in (present) and free of errors. */
  predicate CanShowResults(v: Values) {
    forall k :: At(v, k).Value? && k !in Errors(v)
  }

  datatype Costs = Costs(qiFee: Num, titleInsurance: Num, escrowFee: Num, recordingFees: Num, totalCosts: Num)

  /** The arithmetic of the `results` memo, in JavaScript numbers. */
  function CostsOf(value: Num, qi: Num, escrowFee: Num, title: Num, recordingFees: Num): (r: Costs)
    ensures r.escrowFee == escrowFee && r.recordingFees == recordingFees
    ensures r.qiFee.NaN? <==> value.NaN? || qi.NaN?
    ensures r.titleInsurance.NaN? <==> value.NaN? || title.NaN?
    ensures r.totalCosts.NaN? <==>
      value.NaN? || qi.NaN? || title.NaN? || escrowFee.NaN? || recordingFees.NaN?
    ensures r.qiFee.Fin? ==> r.qiFee.v == value.v * (qi.v / 100.0)
    ensures r.titleInsurance.Fin? ==> r.titleInsurance.v == value.v * (title.v / 100.0)
    ensures r.totalCosts.Fin? ==>
      r.totalCosts.v == r.qiFee.v + r.titleInsurance.v + escrowFee.v + recordingFees.v
  {
    var qiFee := value.Times(qi.Over(100.0));
    var titleInsurance := value.Times(title.Over(100.0));
    Costs(qiFee, titleInsurance, escrowFee, recordingFees,
          qiFee.Plus(titleInsurance).Plus(escrowFee).Plus(recordingFees))
  }

  /** The `results` memo, as written. */
  function ComputeResults(v: Values): (r: Option<Costs>)
    ensures r.Some? <==> CanShowResults(v)
    ensures r.Some? ==>
      && v.propertyValue.n.Fin? && v.propertyValue.n.v > 0.0
      && r.value.qiFee == v.propertyValue.n.Times(v.qiFeePercentage.n.Over(100.0))
      && r.value.titleInsurance == v.propertyValue.n.Times(v.titleInsuranceRate.n.Over(100.0))
      && r.value.escrowFee == v.escrowFee.n
      && r.value.recordingFees == v.recordingFees.n
      && r.value.totalCosts ==
           r.value.qiFee.Plus(r.value.titleInsurance).Plus(r.value.escrowFee).Plus(r.value.recordingFees)
  {
    if !CanShowResults(v) then None
    else
      assert At(v, PropertyValue).Value? && PropertyValue !in Errors(v);
      assert At(v, QiFeePercentage).Value? && At(v, EscrowFee).Value?;
      assert At(v, TitleInsuranceRate).Value? && At(v, RecordingFees).Value?;
      Some(CostsOf(v.propertyValue.n, v.qiFeePercentage.n, v.escrowFee.n,
                   v.titleInsuranceRate.n, v.recordingFees.n))
  }

  /** The estimator wired to its form. */
  function FromFields(f: Fields): Option<Costs>
    requires Sanitized(f)
  {
    ComputeResults(ParseAll(f))
  }

  /** The form as first shown: only the empty property value is flagged,
      and the four defaults read as 1%, $1,500, 0.5% and $500. */
  lemma DefaultsAccepted()
    ensures Sanitized(InitialFields)
    ensures var v := ParseAll(InitialFields);
      && v.propertyValue.Null?
      && v.qiFeePercentage == Value(Fin(1.0))
      && v.escrowFee == Value(Fin(1500.0))
      && v.titleInsuranceRate == Value(Fin(0.5))
      && v.recordingFees == Value(Fin(500.0))
      && Errors(v).Keys == {PropertyValue}
  {
    assert Sanitized(InitialFields) by {
      forall k ensures IsSanitized(Get(InitialFields, k)) {
      }
    }
    ParseOne();
    ParseFifteenHundred();
    ParseHalf();
    ParseFiveHundred();
    var v := ParseAll(InitialFields);
    assert v == Values(Null, Value(Fin(1.0)), Value(Fin(1500.0)), Value(Fin(0.5)), Value(Fin(500.0)));
    assert FieldError(PropertyValue, v.propertyValue).Some?;
    assert forall k | k != PropertyValue :: FieldError(k, At(v, k)).None?;
  }

  lemma ParseOne()
    ensures ToNumber("1") == Fin(1.0)
  {
    AllDigitsNumber("1");
  }

  lemma ParseOneHundred()
    ensures ToNumber("100") == Fin(100.0)
  {
    AllDigitsNumber("100");
    assert "100"[..2] == "10" && "10"[..1] == "1";
  }

  lemma ParseFifteenHundred()
    ensures ToNumber("1500") == Fin(1500.0)
  {
    AllDigitsNumber("1500");
    assert "1500"[..3] == "150" && "150"[..2] == "15" && "15"[..1] == "1";
  }

  lemma ParseFiveHundred()
    ensures ToNumber("500") == Fin(500.0)
  {
    AllDigitsNumber("500");
    assert "500"[..2] == "50" && "50"[..1] == "5";
  }

  lemma ParseHalf()
    ensures ToNumber("0.5") == Fin(0.5)
  {
    assert LeadingDigits("0.5") == 1;
    assert LeadingDigits("0.5"[2..]) == 1;
    assert "0.5"[..1] == "0" && "0.5"[2..] == "5";
    assert DigitsValue("0") == 0 && DigitsValue("5") == 5;
  }

  /** The discrepancy: a QI percentage typed as "1.2.3" reads as NaN, raises
      no error, and the estimator shows NaN for the fee and the total. */
  lemma NaNPercentageShowsNaN()
    ensures var f := Fields("100", "1.2.3", "1500", "0.5", "500");
      Sanitized(f) && FromFields(f).Some?
      && FromFields(f).value.qiFee.NaN? && FromFields(f).value.totalCosts.NaN?
  {
    var f := Fields("100", "1.2.3", "1500", "0.5", "500");
    assert Sanitized(f) by {
      forall k ensures IsSanitized(Get(f, k)) {
      }
    }
    MixedParseExamples();
    ParseOneHundred();
    ParseFifteenHundred();
    ParseFiveHundred();
    ParseHalf();
    var v := Values(Value(Fin(100.0)), Value(NaN), Value(Fin(1500.0)), Value(Fin(0.5)), Value(Fin(500.0)));
    assert ParseAll(f) == v;
    NaNPercentagePasses(v);
  }

  /** The parsed form of the discrepancy passes every check as written. */
  lemma NaNPercentagePasses(v: Values)
    requires v == Values(Value(Fin(100.0)), Value(NaN), Value(Fin(1500.0)), Value(Fin(0.5)), Value(Fin(500.0)))
    ensures ComputeResults(v).Some?
    ensures ComputeResults(v).value.qiFee.NaN? && ComputeResults(v).value.totalCosts.NaN?
  {
    forall k ensures At(v, k).Value? && k !in Errors(v) {
    }
  }

  /** The corrected checks: a NaN is an error in every field. */
  function FieldErrorChecked(k: FieldKey, p: Parsed): (e: Option<string>)
    ensures e.None? <==> p.Value? && p.n.Fin? && !OutOfRange(k, p.n.v)
  {
    if p.Value? && p.n.NaN? then Some(Message(k))
    else FieldError(k, p)
  }

  function ErrorsChecked(v: Values): (m: map<FieldKey, string>)
    ensures forall k :: k in m <==> FieldErrorChecked(k, At(v, k)).Some?
  {
    map k | k in AllKeys && FieldErrorChecked(k, At(v, k)).Some? :: FieldErrorChecked(k, At(v, k)).value
  }

  /** A field present, a finite number, and in range. */
  predicate InRange(k: FieldKey, p: Parsed) {
    p.Value? && p.n.Fin? && !OutOfRange(k, p.n.v)
  }

  predicate AllInRange(v: Values) {
    && InRange(PropertyValue, v.propertyValue)
    && InRange(QiFeePercentage, v.qiFeePercentage)
    && InRange(EscrowFee, v.escrowFee)
    && InRange(TitleInsuranceRate, v.titleInsuranceRate)
    && InRange(RecordingFees, v.recordingFees)
  }

  /** `canShowResults` over the corrected checks. */
  predicate CanShowResultsChecked(v: Values) {
    forall k :: At(v, k).Value? && k !in ErrorsChecked(v)
  }

  lemma CanShowResultsCheckedIff(v: Values)
    ensures CanShowResultsChecked(v) <==> AllInRange(v)
  {
    if CanShowResultsChecked(v) {
      assert PropertyValue !in ErrorsChecked(v) && QiFeePercentage !in ErrorsChecked(v);
      assert EscrowFee !in ErrorsChecked(v) && TitleInsuranceRate !in ErrorsChecked(v);
      assert RecordingFees !in ErrorsChecked(v);
    } else {
      var k :| !(At(v, k).Value? && k !in ErrorsChecked(v));
      assert !InRange(k, At(v, k));
    }
  }

  /** `percent` percent of a non-negative amount, for a percentage capped
      at `cap`: between zero and `cap` percent of the amount. */
  function Share(amount: real, percent: real, cap: real): (r: real)
    requires amount >= 0.0 && 0.0 <= percent <= cap
    ensures r == amount * (percent / 100.0)
    ensures 0.0 <= r <= amount * (cap / 100.0)
  {
    PercentOf(Fin(amount), Fin(percent), cap);
    amount * (percent / 100.0)
  }

  /** The corrected estimator: results only when every field is a finite
      number in range, and then every amount is finite and non-negative,
      the fees are bounded by the property value, and the total is the sum
      of the four components. */
  function ComputeResultsChecked(v: Values): (r: Option<Costs>)
    ensures r.Some? <==> AllInRange(v)
    ensures r.Some? ==>
      var c := r.value;
      var value := v.propertyValue.n.v;
      && c.qiFee.Fin? && c.titleInsurance.Fin? && c.escrowFee.Fin? && c.recordingFees.Fin?
      && c.totalCosts.Fin?
      && c.qiFee.v == value * (v.qiFeePercentage.n.v / 100.0)
      && 0.0 <= c.qiFee.v <= value
      && c.titleInsurance.v == value * (v.titleInsuranceRate.n.v / 100.0)
      && 0.0 <= c.titleInsurance.v <= value * 0.02
      && c.escrowFee == v.escrowFee.n && c.escrowFee.v >= 0.0
      && c.recordingFees == v.recordingFees.n && c.recordingFees.v >= 0.0
      && c.totalCosts.v == c.qiFee.v + c.titleInsurance.v + c.escrowFee.v + c.recordingFees.v
      && c.totalCosts.v >= 0.0
  {
    CanShowResultsCheckedIff(v);
    if !CanShowResultsChecked(v) then None
    else
      var value := v.propertyValue.n.v;
      var qiFee := Share(value, v.qiFeePercentage.n.v, 100.0);
      var titleInsurance := Share(value, v.titleInsuranceRate.n.v, 2.0);
      var c := CostsOf(v.propertyValue.n, v.qiFeePercentage.n, v.escrowFee.n,
                       v.titleInsuranceRate.n, v.recordingFees.n);
      assert c.qiFee == Fin(qiFee) && c.titleInsurance == Fin(titleInsurance);
      assert c.totalCosts == Fin(qiFee + titleInsurance + c.escrowFee.v + c.recordingFees.v);
      Some(c)
  }

  /** Wherever the corrected estimator shows results, the estimator as
      written shows the same ones: the correction only removes NaN results. */
  lemma CheckedAgreesWhereDefined(v: Values)
    requires ComputeResultsChecked(v).Some?
    ensures ComputeResults(v) == ComputeResultsChecked(v)
  {
    forall k ensures At(v, k).Value? && k !in Errors(v) {
    }
  }
}
