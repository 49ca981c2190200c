# Payment gateway pipeline, modelled in Dafny

A model of the payment-processing core of a card-payment gateway (Java,
Spring). A merchant submits a card payment; the request is validated, the
service maps it to the acquiring bank's wire shape and calls the bank. It
turns the bank's answer into a payment record (status, id, last four digits
of the card, expiry, currency, amount), stores the record by id and
returns it. A read path serves a stored record by id.

Modules, one per part of the source:

- `Wrappers` (wrappers.dfy): `Option` for nullable references, `Result` for calls that may throw.
- `Decimal` (decimal.dfy): the ASCII digits of `\d`, `Integer.toString`, `Integer.parseInt`
  and `BigInteger.intValue` (32-bit truncation written out).
- `Uuids` (uuids.dfy): a UUID as 32 hexadecimal nibbles; `UUID.toString` and `UUID.fromString`.
- `Expiry` (expiry.dfy): `YearMonth`, `CardExpirationDate` and its constraints, and
  `ExpiryDateValidator.isValid`. The clock read `YearMonth.now()` is the parameter `now`.
- `Requests` (payment_request.dfy): `PaymentRequest`, its JSON constructor, and Bean Validation
  of all its constraints at once. The result is the set of violations, or the exception that aborts validation.
- `AcquiringBank` (acquiring_bank.dfy): the bank's request and response shapes, and the
  client's classification of the HTTP status. The HTTP exchange is the parameter
  `post: (string, BankRequest) -> HttpResponse`.
- `Gateway` (gateway_service.dfy): the DTO, the record, the mapping rules, and the class
  `PaymentGatewayService`. Its `payments: map<Uuid, PostPaymentResponse>` field stands for
  `PaymentsRepository` (insert or overwrite by id, point lookup).
  `ProcessPayment` runs the source's steps one by one and is proved equal to the function
  `PaymentOutcome`. It writes the store once, and only on success. `GetPaymentById` only reads.

Where the code and its tests disagree, or where the code behaves in a way
that looks unintended, the model follows the code:

- The record id is the bank's authorization code parsed as a UUID
  (PaymentGatewayService.java:66). An empty or malformed code throws before
  anything is stored (`Gateway.MalformedCodeFails`). The service test at
  src/test/java/com/checkout/payment/gateway/service/PaymentGatewayServiceTest.java:84-106 expects a freshly
  generated id instead, which the code does not do. A fallback id would avoid the failure.
- `YearMonth.of` throws for a month outside 1..12. Bean Validation wraps an
  exception from a validator and aborts, so a request with month 13 ends
  validation with an exception. It does not report the "Expiry month must be
  less than or equal to 12" violation, although the constraint declares that
  message (`Requests.MonthOutOfRangeAbortsValidation`).
- The bank's expiry text has no zero padding: month 7 of 2030 is sent as "7/2030".
- The amount has no sign or range constraint. The service keeps its low 32 bits (`intValue`).
- The service's null checks on currency and amount apply only to the bank
  request. A null currency or amount still reaches the bank. The call then
  fails while the record is built, and nothing is stored.

## Model

| member | source | states |
|---|---|---|
| Decimal.DigitsValueBound | src/main/java/com/checkout/payment/gateway/service/PaymentGatewayService.java:71-72 | a digit string of length n denotes a number below 10^n (bounds the last four) |
| Decimal.NatToDecimalRoundTrip | src/main/java/com/checkout/payment/gateway/service/PaymentGatewayService.java:48 | the decimal text of a number reads back as that number and has no leading zero |
| Decimal.ParseInt | src/main/java/com/checkout/payment/gateway/service/PaymentGatewayService.java:72 | `Integer.parseInt` yields only `int` values and never for empty text |
| Decimal.ParseIntOfDigits | src/main/java/com/checkout/payment/gateway/service/PaymentGatewayService.java:72 | one to nine ASCII digits always parse, to their decimal value |
| Decimal.ParseIntRoundTrip | src/main/java/com/checkout/payment/gateway/service/PaymentGatewayService.java:48 | `Integer.parseInt(Integer.toString(n)) == n` for every `int` |
| Decimal.IntValue | src/main/java/com/checkout/payment/gateway/service/PaymentGatewayService.java:77 | `BigInteger.intValue` is the unique `int` congruent to the amount modulo 2^32 |
| Decimal.IntValueKeepsInt32 | src/main/java/com/checkout/payment/gateway/service/PaymentGatewayService.java:52 | an amount that fits in an `int` is sent and stored unchanged |
| Uuids.FromString | src/main/java/com/checkout/payment/gateway/service/PaymentGatewayService.java:66 | `UUID.fromString` succeeds exactly on canonical UUID text; empty text fails |
| Uuids.ToString | src/test/java/com/checkout/payment/gateway/service/PaymentGatewayServiceTest.java:63 | `UUID.toString` writes canonical text |
| Uuids.FromStringToString | src/test/java/com/checkout/payment/gateway/service/PaymentGatewayServiceTest.java:60-69 | parsing the text of a UUID gives that UUID back, so the record id is the bank's code |
| Uuids.ToStringFromString | src/main/java/com/checkout/payment/gateway/service/PaymentGatewayService.java:66 | a parsed UUID prints as the parsed text in lower case |
| Expiry.YearMonthOf | src/main/java/com/checkout/payment/gateway/configuration/ExpiryDateValidator.java:19 | `YearMonth.of` accepts exactly years in range and months 1..12, and keeps both |
| Expiry.IsAfterIsLaterMonthIndex | src/main/java/com/checkout/payment/gateway/configuration/ExpiryDateValidator.java:21 | comparing year then month is comparing `year*12+month` |
| Expiry.PlusMonths | src/test/java/com/checkout/payment/gateway/configuration/ExpiryDateValidatorTest.java:55-62 | `plusMonths(k)` moves the month count by exactly k and yields a month in 1..12 |
| Expiry.IsValid | src/main/java/com/checkout/payment/gateway/configuration/ExpiryDateValidator.java:12-22 | null is valid; otherwise it throws exactly for an invalid year or month, else is true exactly when `year*12+month > nowYear*12+nowMonth` |
| Expiry.Violations | src/main/java/com/checkout/payment/gateway/model/CardExpirationDate.java:15-23 | validation of an expiry succeeds exactly for a valid year and month, never reports a month-bound violation, and reports nothing exactly when the expiry is later than now |
| Expiry.ExpiryMessageIdentifiesViolation | src/main/java/com/checkout/payment/gateway/model/CardExpirationDate.java:18-19 | the two month-bound messages and the future-expiry message differ, so each names its constraint |
| Expiry.CurrentMonthRejected | src/test/java/com/checkout/payment/gateway/configuration/ExpiryDateValidatorTest.java:26-33 | the current month is rejected |
| Expiry.AcceptedExactlyWhenLater | src/test/java/com/checkout/payment/gateway/configuration/ExpiryDateValidatorTest.java:35-72 | the month k months from now is accepted exactly when k > 0 (one month back, one year back, next month, next year) |
| Expiry.DecemberRollsOverToJanuary | src/test/java/com/checkout/payment/gateway/configuration/ExpiryDateValidatorTest.java:74-82 | after December comes January of the next year, and it is accepted |
| Requests.NewPaymentRequest | src/main/java/com/checkout/payment/gateway/model/PaymentRequest.java:36-52 | card number, currency, amount and CVV are stored unchanged; the expiry exists exactly when month and year are both given, holding them |
| Requests.Validate | src/main/java/com/checkout/payment/gateway/model/PaymentRequest.java:15-32 | validation throws exactly when a present expiry has a month or year `YearMonth.of` rejects |
| Requests.ValidateAcceptsExactly | src/main/java/com/checkout/payment/gateway/model/PaymentRequest.java:15-32 | no violation exactly when card is 14-19 digits, expiry present and after now, currency and amount present, CVV 3-4 digits |
| Requests.ValidateReportsEach | src/main/java/com/checkout/payment/gateway/model/PaymentRequest.java:15-32 | every failed constraint is reported, each violation exactly when its constraint fails |
| Requests.MessageIdentifiesViolation | src/main/java/com/checkout/payment/gateway/model/PaymentRequest.java:16-31 | the declared constraint messages are pairwise distinct, so each reported message names one violated constraint |
| Requests.MonthOutOfRangeAbortsValidation | src/main/java/com/checkout/payment/gateway/model/CardExpirationDate.java:18-19 | a month outside 1..12 aborts validation instead of being reported |
| Requests.CvvWithLetterRejected | src/test/java/com/checkout/payment/gateway/controller/PaymentGatewayControllerTest.java:108-127 | CVV "12a" is rejected and is the only violation |
| Requests.PastYearRejected | src/test/java/com/checkout/payment/gateway/controller/PaymentGatewayControllerTest.java:129-148 | expiry year 2000 is reported as not in the future |
| AcquiringBank.ProcessPayment | src/main/java/com/checkout/payment/gateway/client/AcquiringBankingClient.java:23-34 | the request is posted unchanged to `baseUrl + "/payments"`; it fails exactly for a 4xx or 5xx status, with "Error processing payment", otherwise returns the body as received |
| AcquiringBank.DeclineIsNotAClientError | src/test/java/com/checkout/payment/gateway/client/AcquiringBankingClientTest.java:60-88 | a 200 carrying `authorized=false` and an empty code is returned as-is |
| Gateway.ToDto | src/main/java/com/checkout/payment/gateway/controller/PaymentGatewayController.java:36-43 | the DTO copies every field of the request, the expiry split into month and year |
| Gateway.ExpiryTextReadsBack | src/main/java/com/checkout/payment/gateway/service/PaymentGatewayService.java:48 | the bank expiry text has one "/", before it the month and after it the year, both read back |
| Gateway.ExpiryTextExample | src/main/java/com/checkout/payment/gateway/service/PaymentGatewayService.java:48 | month 7 of 2030 is sent as "7/2030" |
| Gateway.BankRequestOf | src/main/java/com/checkout/payment/gateway/service/PaymentGatewayService.java:46-54 | card number and CVV unchanged; expiry text `month + "/" + year`; currency code or null; amount the `intValue` (low 32 bits, so unchanged when it fits an `int`) or 0 |
| Gateway.StatusOf | src/main/java/com/checkout/payment/gateway/service/PaymentGatewayService.java:63-65 | the status is AUTHORIZED exactly when the bank authorized |
| Gateway.LastFour | src/main/java/com/checkout/payment/gateway/service/PaymentGatewayService.java:71-72 | parsing the last four characters yields a value in -999..9999; fewer than four characters throw |
| Gateway.LastFourOfCardNumber | src/main/java/com/checkout/payment/gateway/service/PaymentGatewayService.java:71-72 | for a 14-19 digit card number the last four is the value of its last four digits, in 0..9999 |
| Gateway.LastFourExample | src/test/java/com/checkout/payment/gateway/service/PaymentGatewayServiceTest.java:27-28 | "4111111111111234" keeps 1234 |
| Gateway.PaymentOutcome | src/main/java/com/checkout/payment/gateway/service/PaymentGatewayService.java:57-77 | a bank failure propagates; a record exists only for a body with a UUID code, and then has the code as id, the status from the flag, the last four, and the copied fields; it exists whenever those parts are present |
| Gateway.MalformedCodeFails | src/main/java/com/checkout/payment/gateway/service/PaymentGatewayService.java:66 | an empty or malformed authorization code ends the call with no record |
| Gateway.ValidatedRequestIsRecorded | src/main/java/com/checkout/payment/gateway/service/PaymentGatewayService.java:43-81 | a validated request with a UUID code is recorded, approved or declined, with last four in 0..9999 |
| Gateway.SampleScenario | src/test/java/com/checkout/payment/gateway/service/PaymentGatewayServiceTest.java:48-135 | the sample request sends "7/2030", "USD", 1599; approval or decline gives the stated record |
| Gateway.PaymentGatewayService.constructor | src/main/java/com/checkout/payment/gateway/service/PaymentGatewayService.java:25-31 | a new service has an empty store |
| Gateway.PaymentGatewayService.Add | src/test/java/com/checkout/payment/gateway/repository/PaymentsRepositoryTest.java:46-64 | add stores the record under its id and overwrites an earlier one |
| Gateway.PaymentGatewayService.Get | src/test/java/com/checkout/payment/gateway/repository/PaymentsRepositoryTest.java:21-44 | get returns the stored record, or empty when the id is absent |
| Gateway.PaymentGatewayService.GetPaymentById | src/main/java/com/checkout/payment/gateway/service/PaymentGatewayService.java:33-36 | returns the stored record, fails with "Invalid ID" when absent, changes nothing |
| Gateway.PaymentGatewayService.ProcessPayment | src/main/java/com/checkout/payment/gateway/service/PaymentGatewayService.java:43-83 | the result is the outcome of the bank's answer to the mapped request; success stores the returned record under its id once; failure leaves the store unchanged |
| Gateway.OverwriteScenario | src/test/java/com/checkout/payment/gateway/repository/PaymentsRepositoryTest.java:46-64 | two adds under one id, then a lookup, give the second record |
| Gateway.ServerErrorScenario | src/main/java/com/checkout/payment/gateway/service/PaymentGatewayService.java:57-58 | a 500 from the bank fails the call and persists nothing |

## Left out

- The HTTP boundary: controller routing, the 201/200/400/404 status mapping,
  path-variable UUID parsing and the exception handler. Only the controller's copy into the DTO is modelled (`Gateway.ToDto`).
- RestTemplate: the network call, its connect and read timeouts, and its
  default error handler. Outside the model, that handler already throws on a
  4xx or 5xx status before the client's own check. The exchange is the
  abstract parameter `post`.
- Jackson deserialization and `java.util.Currency` lookup. A currency is an already-resolved code.
  The `int` range of JSON month and year is not modelled.
- The overload `processPayment(PostPaymentRequest)`. It only returns `UUID.randomUUID()`, which is randomness.
- The clock: the current month is the parameter `now`.
- Store concurrency: the repository is a sequential map, and concurrent writers are not modelled.
- Object identity: records are values. The same-object checks of the tests
  become equality, and the mutable record's setters become one record
  value built from the same fields.
- A null `authorized` flag in the bank response, whose unboxing would throw, is not modelled.
- Logging, the annotation metadata of `ValidExpiryDate`, and the labels of
  the `PaymentStatus` enum. The enum's source is not part of this model.
- The `PaymentRequestDTO` source file declares an unrelated class. The DTO's
  shape is taken from its builder calls in the service and controller.
- Uuids.FromString: accepts only canonical 36-character 8-4-4-4-12 text. The
  JDK parser also accepts shorter groups and signed hexadecimal groups, and
  the model rejects those.
- Decimal.ParseInt: only ASCII digits. `Integer.parseInt` also accepts other Unicode decimal digits.
- Gateway.LastFour: counts characters, not UTF-16 code units. The two differ only for non-digit text outside the Basic Multilingual Plane.
