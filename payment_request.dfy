/**
 * `PaymentRequest`, the incoming request before validation: its JSON
 * constructor and the Bean Validation constraints declared on its fields,
 * which are all evaluated and reported together.
 */
module Requests {
  import opened Wrappers
  import opened Decimal
  import opened Expiry

  /** `java.util.Currency`, already resolved; only its ISO 4217 code is used. */
  datatype Currency = Currency(code: string)

  /** The request as the constructor leaves it; absent JSON fields are `None`. */
  datatype PaymentRequest = PaymentRequest(
    cardNumber: Option<string>,
    expiryDate: Option<CardExpirationDate>,
    currency: Option<Currency>,
    amount: Option<int>,
    cvv: Option<string>)

  /**
   * The JSON constructor: copies card number, currency, amount and CVV, and
   * builds the nested expiry date only when both month and year are given.
   */
  function NewPaymentRequest(cardNumber: Option<string>, expiryMonth: Option<int>, expiryYear: Option<int>,
                             currency: Option<Currency>, amount: Option<int>, cvv: Option<string>): (r: PaymentRequest)
    ensures r.cardNumber == cardNumber && r.currency == currency && r.amount == amount && r.cvv == cvv
    ensures r.expiryDate.Some? <==> expiryMonth.Some? && expiryYear.Some?
    ensures r.expiryDate.Some? ==>
      r.expiryDate.value.expiryMonth == expiryMonth.value && r.expiryDate.value.expiryYear == expiryYear.value
  {
    var expiryDate :=
      if expiryMonth.Some? && expiryYear.Some? then Some(CardExpirationDate(expiryMonth.value, expiryYear.value))
      else None;
    PaymentRequest(cardNumber, expiryDate, currency, amount, cvv)
  }

  /** The whole string matches `\d{14,19}`. */
  predicate IsCardNumberText(s: string) {
    14 <= |s| <= 19 && AllDigits(s)
  }

  /** The whole string matches `\d{3,4}`. */
  predicate IsCvvText(s: string) {
    3 <= |s| <= 4 && AllDigits(s)
  }

  /** Every constraint of the request; a pattern is not checked on a missing value. */
  datatype Violation =
    | CardNumberMissing
    | CardNumberMalformed
    | ExpiryDateMissing
    | ExpiryDateInvalid(violation: ExpiryViolation)
    | CurrencyMissing
    | AmountMissing
    | CvvMissing
    | CvvMalformed

  function Message(v: Violation): string {
    match v
    case CardNumberMissing => "Card number must be provided"
    case CardNumberMalformed => "Card number must contain only numeric characters and be 14-19 digits"
    case ExpiryDateMissing => "Expiry date must be provided"
    case ExpiryDateInvalid(e) => ExpiryMessage(e)
    case CurrencyMissing => "Currency must be provided"
    case AmountMissing => "Amount must be provided"
    case CvvMissing => "CVV number must be provided"
    case CvvMalformed => "CVV number must contain only numeric characters and has length of 3 or 4 digits"
  }

  /** The length of each message; only the two "must be provided" messages of 28 characters share one. */
  function MessageLength(v: Violation): nat {
    match v
    case CardNumberMissing => 28
    case CardNumberMalformed => 68
    case ExpiryDateMissing => 28
    case ExpiryDateInvalid(MonthBelowOne) => 47
    case ExpiryDateInvalid(MonthAboveTwelve) => 45
    case ExpiryDateInvalid(NotInFuture) => 33
    case CurrencyMissing => 25
    case AmountMissing => 23
    case CvvMissing => 27
    case CvvMalformed => 79
  }

  lemma MessageHasLength(v: Violation)
    ensures |Message(v)| == MessageLength(v)
  {
    match v
    case ExpiryDateInvalid(e) => assert Message(v) == ExpiryMessage(e);
    case CardNumberMissing =>
    case CardNumberMalformed =>
    case ExpiryDateMissing =>
    case CurrencyMissing =>
    case AmountMissing =>
    case CvvMissing =>
    case CvvMalformed =>
  }

  /** Distinct violations carry distinct messages, so the reported messages name every failed constraint. */
  lemma MessageIdentifiesViolation(v: Violation, w: Violation)
    requires Message(v) == Message(w)
    ensures v == w
  {
    MessageHasLength(v);
    MessageHasLength(w);
    assert Message(CardNumberMissing)[0] != Message(ExpiryDateMissing)[0];
  }

  /** The violations of the request's own field constraints. */
  function FieldViolations(r: PaymentRequest): set<Violation> {
    (if r.cardNumber.None? then {CardNumberMissing} else {}) +
    (if r.cardNumber.Some? && !IsCardNumberText(r.cardNumber.value) then {CardNumberMalformed} else {}) +
    (if r.expiryDate.None? then {ExpiryDateMissing} else {}) +
    (if r.currency.None? then {CurrencyMissing} else {}) +
    (if r.amount.None? then {AmountMissing} else {}) +
    (if r.cvv.None? then {CvvMissing} else {}) +
    (if r.cvv.Some? && !IsCvvText(r.cvv.value) then {CvvMalformed} else {})
  }

  /**
   * Validating the request, cascading into the expiry date: the set of every
   * violated constraint, or the exception the expiry validator throws.
   */
  function Validate(r: PaymentRequest, now: YearMonth): (res: Result<set<Violation>, DateTimeError>)
    requires IsValidYearMonth(now)
    ensures res.Failure? <==> r.expiryDate.Some? && !IsValidYearMonth(AsYearMonth(r.expiryDate.value))
  {
    if r.expiryDate.None? then
      Success(FieldViolations(r))
    else
      match Violations(r.expiryDate.value, now)
      case Failure(e) => Failure(e)
      case Success(ev) => Success(FieldViolations(r) + set v | v in ev :: ExpiryDateInvalid(v))
  }

  /** What an acceptable request is, constraint by constraint. */
  predicate IsAcceptable(r: PaymentRequest, now: YearMonth) {
    && r.cardNumber.Some? && IsCardNumberText(r.cardNumber.value)
    && r.expiryDate.Some? && IsValidYearMonth(AsYearMonth(r.expiryDate.value))
    && MonthIndex(AsYearMonth(r.expiryDate.value)) > MonthIndex(now)
    && r.currency.Some?
    && r.amount.Some?
    && r.cvv.Some? && IsCvvText(r.cvv.value)
  }

  /** Validation reports no violation exactly for acceptable requests. */
  lemma ValidateAcceptsExactly(r: PaymentRequest, now: YearMonth)
    requires IsValidYearMonth(now)
    ensures Validate(r, now) == Success({}) <==> IsAcceptable(r, now)
  {
    if r.expiryDate.Some? && IsValidYearMonth(AsYearMonth(r.expiryDate.value)) {
      var ev := Violations(r.expiryDate.value, now).value;
      var lifted := set v | v in ev :: ExpiryDateInvalid(v);
      assert ev == {} <==> lifted == {} by {
        if v :| v in ev { assert ExpiryDateInvalid(v) in lifted; }
      }
    }
  }

  /**
   * Every violated constraint is reported, not only the first: each
   * violation is in the set exactly when its constraint fails.
   */
  lemma ValidateReportsEach(r: PaymentRequest, now: YearMonth)
    requires IsValidYearMonth(now)
    requires Validate(r, now).Success?
    ensures var vs := Validate(r, now).value;
      && (CardNumberMissing in vs <==> r.cardNumber.None?)
      && (CardNumberMalformed in vs <==> r.cardNumber.Some? && !IsCardNumberText(r.cardNumber.value))
      && (ExpiryDateMissing in vs <==> r.expiryDate.None?)
      && (ExpiryDateInvalid(NotInFuture) in vs <==>
            r.expiryDate.Some? && MonthIndex(AsYearMonth(r.expiryDate.value)) <= MonthIndex(now))
      && ExpiryDateInvalid(MonthBelowOne) !in vs && ExpiryDateInvalid(MonthAboveTwelve) !in vs
      && (CurrencyMissing in vs <==> r.currency.None?)
      && (AmountMissing in vs <==> r.amount.None?)
      && (CvvMissing in vs <==> r.cvv.None?)
      && (CvvMalformed in vs <==> r.cvv.Some? && !IsCvvText(r.cvv.value))
  {
    if r.expiryDate.Some? {
      var ev := Violations(r.expiryDate.value, now).value;
      assert ev == {} || ev == {NotInFuture};
    }
  }

  /** A month outside 1..12 does not yield a violation: the whole validation throws. */
  lemma MonthOutOfRangeAbortsValidation(r: PaymentRequest, now: YearMonth)
    requires IsValidYearMonth(now)
    requires r.expiryDate.Some? && !(1 <= r.expiryDate.value.expiryMonth <= 12)
    ensures Validate(r, now).Failure?
  {
  }

  /** The request body shared by the examples: card ...1234, 7/2030, USD, 1599. */
  function SampleRequest(cvv: string, expiryYear: int): PaymentRequest {
    NewPaymentRequest(Some("4111111111111234"), Some(7), Some(expiryYear), Some(Currency("USD")), Some(1599), Some(cvv))
  }

  /** CVV "12a" is rejected, and it is the only violation, before July 2030. */
  lemma CvvWithLetterRejected(now: YearMonth)
    requires IsValidYearMonth(now) && MonthIndex(now) < MonthIndex(YearMonth(2030, 7))
    ensures Validate(SampleRequest("12a", 2030), now) == Success({CvvMalformed})
  {
    var r := SampleRequest("12a", 2030);
    assert !IsDigit("12a"[2]);
    assert IsCardNumberText(r.cardNumber.value) by {
      assert forall i :: 0 <= i < 16 ==> IsDigit("4111111111111234"[i]);
    }
    ValidateAcceptsExactly(r, now);
    ValidateReportsEach(r, now);
    var vs := Validate(r, now).value;
    assert !IsCvvText(r.cvv.value);
    assert CvvMalformed in vs;
    forall v | v in vs ensures v == CvvMalformed {
      assert v != ExpiryDateInvalid(NotInFuture);
    }
    assert vs == {CvvMalformed};
  }

  /** Expiry year 2000 is in the past from 2001 on, so the request is rejected. */
  lemma PastYearRejected(now: YearMonth)
    requires IsValidYearMonth(now) && now.year > 2000
    ensures Validate(SampleRequest("123", 2000), now).Success?
    ensures ExpiryDateInvalid(NotInFuture) in Validate(SampleRequest("123", 2000), now).value
  {
  }
}
