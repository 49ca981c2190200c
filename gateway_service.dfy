/**
 * `PaymentGatewayService`: maps the internal request to the bank's wire
 * shape, calls the bank, turns the answer into a payment record, stores it
 * by id, and serves it back by id. The payments repository is the map
 * `payments` of the service.
 */
module Gateway {
  import opened Wrappers
  import opened Decimal
  import opened Uuids
  import opened Expiry
  import opened Requests
  import opened AcquiringBank

  datatype PaymentStatus = Authorized | Declined

  /** `PaymentRequestDTO`, the internal request; only month and year are never null. */
  datatype PaymentRequestDto = PaymentRequestDto(
    cardNumber: Option<string>,
    expiryMonth: int,
    expiryYear: int,
    currency: Option<Currency>,
    amount: Option<int>,
    cvv: Option<string>)

  /** `PostPaymentResponse`, the stored and returned record; the card number survives only as its last four. */
  datatype PostPaymentResponse = PostPaymentResponse(
    id: Uuid,
    status: PaymentStatus,
    cardNumberLastFour: int,
    expiryMonth: int,
    expiryYear: int,
    currency: string,
    amount: int)

  /** The exceptions that end `processPayment` or `getPaymentById`, by cause. */
  datatype ServiceError =
    | BankCallFailed(cause: ClientError)   // the client's RuntimeException
    | BankBodyMissing                      // null response body
    | AuthorizationCodeMissing             // UUID.fromString(null)
    | AuthorizationCodeMalformed           // UUID.fromString on non-UUID text
    | CardNumberNull                       // null card number
    | CardNumberTooShort                   // substring before index 0
    | LastFourNotNumeric                   // Integer.parseInt fails
    | CurrencyNull                         // null currency
    | AmountNull                           // null amount
    | PaymentNotFound                      // EventProcessingException("Invalid ID")

  /**
   * The message of the exception, for the two the gateway raises itself;
   * the others come from the JDK and carry its messages.
   */
  function ErrorMessage(e: ServiceError): Option<string> {
    match e
    case BankCallFailed(cause) => Some(ClientErrorMessage(cause))
    case PaymentNotFound => Some("Invalid ID")
    case _ => None
  }

  /**
   * The controller's copy of a validated `PaymentRequest` into the DTO; it
   * reads the nested expiry date, so that date must be present.
   */
  function ToDto(r: PaymentRequest): (d: PaymentRequestDto)
    requires r.expiryDate.Some?
    ensures d.cardNumber == r.cardNumber && d.currency == r.currency && d.amount == r.amount && d.cvv == r.cvv
    ensures AsYearMonth(r.expiryDate.value) == YearMonth(d.expiryYear, d.expiryMonth)
  {
    PaymentRequestDto(r.cardNumber, r.expiryDate.value.expiryMonth, r.expiryDate.value.expiryYear,
                      r.currency, r.amount, r.cvv)
  }

  /** The bank's expiry text: month, "/", year, in plain decimal with no padding. */
  function ExpiryText(month: int, year: int): string {
    IntToDecimal(month) + "/" + IntToDecimal(year)
  }

  lemma NoSlashInDecimal(n: int)
    ensures '/' !in IntToDecimal(n)
  {
  }

  /**
   * The expiry text splits at its only "/" into two parts that parse back
   * to the month and the year.
   */
  lemma ExpiryTextReadsBack(month: int, year: int)
    requires InInt32(month) && InInt32(year)
    ensures var s := ExpiryText(month, year);
      var i := |IntToDecimal(month)|;
      && i < |s| && s[i] == '/'
      && '/' !in s[..i] && '/' !in s[i + 1..]
      && ParseInt(s[..i]) == Some(month) && ParseInt(s[i + 1..]) == Some(year)
  {
    var s := ExpiryText(month, year);
    var i := |IntToDecimal(month)|;
    assert s[..i] == IntToDecimal(month);
    assert s[i + 1..] == IntToDecimal(year);
    NoSlashInDecimal(month);
    NoSlashInDecimal(year);
    ParseIntRoundTrip(month);
    ParseIntRoundTrip(year);
  }

  /** Month 7 of 2030 is sent as "7/2030". */
  lemma ExpiryTextExample()
    ensures ExpiryText(7, 2030) == "7/2030"
  {
  }

  /**
   * The bank request: card number and CVV unchanged, the expiry text, the
   * currency's code (null when absent), and the amount's `intValue` (0 when absent).
   */
  function BankRequestOf(dto: PaymentRequestDto): (b: BankRequest)
    ensures b.cardNumber == dto.cardNumber && b.cvv == dto.cvv
    ensures b.currency.Some? <==> dto.currency.Some?
    ensures b.currency.Some? ==> b.currency.value == dto.currency.value.code
    ensures b.expiryDate == ExpiryText(dto.expiryMonth, dto.expiryYear)
    ensures InInt32(b.amount)
    ensures dto.amount.None? ==> b.amount == 0
    ensures dto.amount.Some? ==> b.amount == IntValue(dto.amount.value)
    ensures dto.amount.Some? && InInt32(dto.amount.value) ==> b.amount == dto.amount.value
  {
    BankRequest(
      dto.cardNumber,
      ExpiryText(dto.expiryMonth, dto.expiryYear),
      if dto.currency.Some? then Some(dto.currency.value.code) else None,
      if dto.amount.Some? then IntValue(dto.amount.value) else 0,
      dto.cvv)
  }

  /** The record status follows the bank's authorization flag. */
  function StatusOf(authorized: bool): (s: PaymentStatus)
    ensures s == Authorized <==> authorized
  {
    if authorized then Authorized else Declined
  }

  /** `Integer.parseInt` of the card number's last four characters. */
  function LastFour(cardNumber: string): (r: Result<int, ServiceError>)
    ensures r.Success? ==> 4 <= |cardNumber| && -999 <= r.value <= 9999
    ensures |cardNumber| < 4 ==> r == Failure(CardNumberTooShort)
  {
    if |cardNumber| < 4 then Failure(CardNumberTooShort)
    else
      var tail := cardNumber[|cardNumber| - 4..];
      var parsed := ParseInt(tail);
      if parsed.None? then Failure(LastFourNotNumeric)
      else
        assert tail[0] == '-' || tail[0] == '+' || IsDigit(tail[0]);
        if tail[0] == '-' || tail[0] == '+' then
          DigitsValueBound(tail[1..]);
          Success(parsed.value)
        else
          DigitsValueBound(tail);
          Success(parsed.value)
  }

  /** For a valid card number the last four is the value of its last four digits, in 0..9999. */
  lemma LastFourOfCardNumber(cardNumber: string)
    requires IsCardNumberText(cardNumber)
    ensures var tail := cardNumber[|cardNumber| - 4..];
      AllDigits(tail) && LastFour(cardNumber) == Success(DigitsValue(tail))
    ensures 0 <= LastFour(cardNumber).value <= 9999
  {
    var tail := cardNumber[|cardNumber| - 4..];
    assert AllDigits(tail);
    ParseIntOfDigits(tail);
    DigitsValueBound(tail);
  }

  /** "4111111111111234" keeps 1234. */
  lemma LastFourExample()
    ensures LastFour("4111111111111234") == Success(1234)
  {
    var tail := "4111111111111234"[12..];
    assert tail == "1234";
    assert DigitsValue("1") == 1 by { assert "1"[..0] == ""; }
    assert DigitsValue("12") == 12 by { assert "12"[..1] == "1"; }
    assert DigitsValue("123") == 123 by { assert "123"[..2] == "12"; }
    assert DigitsValue("1234") == 1234 by { assert "1234"[..3] == "123"; }
    ParseIntOfDigits(tail);
  }

  /**
   * What `processPayment` makes of the client's answer: the record built in
   * the order the setters run, or the exception that ends it first.
   */
  function PaymentOutcome(dto: PaymentRequestDto, answer: Result<Option<BankResponse>, ClientError>)
    : (r: Result<PostPaymentResponse, ServiceError>)
    ensures answer.Failure? ==> r == Failure(BankCallFailed(answer.error))
    ensures r.Success? ==>
      && answer.Success? && answer.value.Some?
      && var body := answer.value.value;
      && (r.value.status == Authorized <==> body.authorized)
      && body.authorizationCode.Some? && FromString(body.authorizationCode.value) == Some(r.value.id)
      && dto.cardNumber.Some? && LastFour(dto.cardNumber.value) == Success(r.value.cardNumberLastFour)
      && r.value.expiryMonth == dto.expiryMonth && r.value.expiryYear == dto.expiryYear
      && dto.currency.Some? && r.value.currency == dto.currency.value.code
      && dto.amount.Some? && r.value.amount == IntValue(dto.amount.value)
    ensures (&& answer.Success? && answer.value.Some?
             && answer.value.value.authorizationCode.Some?
             && FromString(answer.value.value.authorizationCode.value).Some?
             && dto.cardNumber.Some? && LastFour(dto.cardNumber.value).Success?
             && dto.currency.Some? && dto.amount.Some?) ==> r.Success?
  {
    match answer
    case Failure(e) => Failure(BankCallFailed(e))
    case Success(None) => Failure(BankBodyMissing)
    case Success(Some(body)) =>
      var status := StatusOf(body.authorized);
      if body.authorizationCode.None? then Failure(AuthorizationCodeMissing)
      else if FromString(body.authorizationCode.value).None? then Failure(AuthorizationCodeMalformed)
      else if dto.cardNumber.None? then Failure(CardNumberNull)
      else
        match LastFour(dto.cardNumber.value)
        case Failure(e) => Failure(e)
        case Success(lastFour) =>
          if dto.currency.None? then Failure(CurrencyNull)
          else if dto.amount.None? then Failure(AmountNull)
          else
            Success(PostPaymentResponse(
              FromString(body.authorizationCode.value).value, status, lastFour,
              dto.expiryMonth, dto.expiryYear, dto.currency.value.code, IntValue(dto.amount.value)))
  }

  /** An authorization code that is not UUID text (the empty code included) ends the call unrecorded. */
  lemma MalformedCodeFails(dto: PaymentRequestDto, body: BankResponse)
    requires body.authorizationCode.Some? && !IsCanonical(body.authorizationCode.value)
    ensures PaymentOutcome(dto, Success(Some(body))).Failure?
  {
  }

  /**
   * A request that passed validation is recorded for any bank answer with a
   * body and a UUID code: approved or declined, with the code as id, the
   * last four digits in 0..9999 and the other fields copied.
   */
  lemma ValidatedRequestIsRecorded(r: PaymentRequest, now: YearMonth, body: BankResponse)
    requires IsValidYearMonth(now) && Validate(r, now) == Success({})
    requires body.authorizationCode.Some? && IsCanonical(body.authorizationCode.value)
    ensures r.expiryDate.Some?
    ensures var out := PaymentOutcome(ToDto(r), Success(Some(body)));
      && out.Success?
      && out.value.id == FromString(body.authorizationCode.value).value
      && out.value.status == (if body.authorized then Authorized else Declined)
      && 0 <= out.value.cardNumberLastFour <= 9999
      && out.value.expiryMonth == r.expiryDate.value.expiryMonth
      && out.value.expiryYear == r.expiryDate.value.expiryYear
      && out.value.currency == r.currency.value.code
      && out.value.amount == IntValue(r.amount.value)
  {
    ValidateAcceptsExactly(r, now);
    LastFourOfCardNumber(r.cardNumber.value);
  }

  function SampleDto(): PaymentRequestDto {
    PaymentRequestDto(Some("4111111111111234"), 7, 2030, Some(Currency("USD")), Some(1599), Some("123"))
  }

  /**
   * Card ...1234, 7/2030, USD 1599, CVV 123: the bank sees "7/2030", "USD"
   * and 1599, and whatever the decision the record carries the bank's UUID,
   * last four 1234 and the copied fields; a decline is recorded, not raised.
   */
  lemma SampleScenario(u: Uuid, authorized: bool)
    ensures BankRequestOf(SampleDto()) ==
      BankRequest(Some("4111111111111234"), "7/2030", Some("USD"), 1599, Some("123"))
    ensures PaymentOutcome(SampleDto(), Success(Some(BankResponse(authorized, Some(Uuids.ToString(u)))))) ==
      Success(PostPaymentResponse(u, if authorized then Authorized else Declined, 1234, 7, 2030, "USD", 1599))
  {
    ExpiryTextExample();
    LastFourExample();
    FromStringToString(u);
  }

  /**
   * The service. `payments` stands for `PaymentsRepository`: insert or
   * overwrite by id, point lookup.
   */
  class PaymentGatewayService {
    /** The base URL of the acquiring bank client. */
    const bankBaseUrl: string
    var payments: map<Uuid, PostPaymentResponse>

    constructor (bankBaseUrl: string)
      ensures this.bankBaseUrl == bankBaseUrl && payments == map[]
    {
      this.bankBaseUrl := bankBaseUrl;
      payments := map[];
    }

    /** `PaymentsRepository.add`: the record under its id, replacing any earlier one. */
    method Add(record: PostPaymentResponse)
      modifies this
      ensures payments == old(payments)[record.id := record]
    {
      payments := payments[record.id := record];
    }

    /** `PaymentsRepository.get`: the record stored under `id`, or empty. */
    method Get(id: Uuid) returns (found: Option<PostPaymentResponse>)
      ensures found.Some? <==> id in payments
      ensures found.Some? ==> found.value == payments[id]
    {
      found := if id in payments then Some(payments[id]) else None;
    }

    /** `getPaymentById`: the stored record, or "Invalid ID"; the store is only read. */
    method GetPaymentById(id: Uuid) returns (r: Result<PostPaymentResponse, ServiceError>)
      ensures id in payments ==> r == Success(payments[id])
      ensures id !in payments ==> r == Failure(PaymentNotFound) && ErrorMessage(r.error) == Some("Invalid ID")
    {
      var found := Get(id);
      if found.Some? {
        r := Success(found.value);
      } else {
        r := Failure(PaymentNotFound);
      }
    }

    /**
     * `processPayment(PaymentRequestDTO)`: one bank call on the mapped
     * request, then at most one store write, of the returned record, made
     * only once every field is set; any exception leaves the store as it was.
     */
    method ProcessPayment(dto: PaymentRequestDto, post: (string, BankRequest) -> HttpResponse)
      returns (r: Result<PostPaymentResponse, ServiceError>)
      modifies this
      ensures r == PaymentOutcome(dto, AcquiringBank.ProcessPayment(bankBaseUrl, BankRequestOf(dto), post))
      ensures r.Success? ==> payments == old(payments)[r.value.id := r.value]
      ensures r.Failure? ==> payments == old(payments)
    {
      var request := BankRequestOf(dto);
      var answer := AcquiringBank.ProcessPayment(bankBaseUrl, request, post);
      if answer.Failure? {
        return Failure(BankCallFailed(answer.error));
      }
      if answer.value.None? {
        return Failure(BankBodyMissing);
      }
      var body := answer.value.value;

      var status := StatusOf(body.authorized);
      if body.authorizationCode.None? {
        return Failure(AuthorizationCodeMissing);
      }
      var id := FromString(body.authorizationCode.value);
      if id.None? {
        return Failure(AuthorizationCodeMalformed);
      }
      if dto.cardNumber.None? {
        return Failure(CardNumberNull);
      }
      var lastFour := LastFour(dto.cardNumber.value);
      if lastFour.Failure? {
        return Failure(lastFour.error);
      }
      if dto.currency.None? {
        return Failure(CurrencyNull);
      }
      if dto.amount.None? {
        return Failure(AmountNull);
      }
      var record := PostPaymentResponse(id.value, status, lastFour.value, dto.expiryMonth, dto.expiryYear,
                                        dto.currency.value.code, IntValue(dto.amount.value));
      Add(record);
      r := Success(record);
    }
  }

  /** Adding a second record under the same id replaces the first. */
  method OverwriteScenario(first: PostPaymentResponse, second: PostPaymentResponse)
    returns (found: Result<PostPaymentResponse, ServiceError>)
    requires first.id == second.id
    ensures found == Success(second)
  {
    var service := new PaymentGatewayService("http://acquirer");
    service.Add(first);
    service.Add(second);
    found := service.GetPaymentById(first.id);
  }

  /** A bank answer of 500 leaves the store exactly as it was. */
  method ServerErrorScenario(service: PaymentGatewayService, dto: PaymentRequestDto)
    returns (r: Result<PostPaymentResponse, ServiceError>)
    modifies service
    ensures r == Failure(BankCallFailed(ErrorProcessingPayment))
    ensures ErrorMessage(r.error) == Some("Error processing payment")
    ensures service.payments == old(service.payments)
  {
    r := service.ProcessPayment(dto, (url, request) => HttpResponse(500, None));
  }
}
