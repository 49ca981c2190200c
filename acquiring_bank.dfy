/**
 * The acquiring-bank client: the wire shapes it sends and receives and the
 * classification of the HTTP outcome. The HTTP exchange itself is the
 * parameter `post`, which maps the URL and the posted body to the response.
 */
module AcquiringBank {
  import opened Wrappers

  /** `AcquiringBankPaymentRequest`; string fields may be null. */
  datatype BankRequest = BankRequest(
    cardNumber: Option<string>,
    expiryDate: string,
    currency: Option<string>,
    amount: int,
    cvv: Option<string>)

  /** `AcquiringBankPaymentResponse`. */
  datatype BankResponse = BankResponse(authorized: bool, authorizationCode: Option<string>)

  /** The status codes Spring's `HttpStatusCode` can hold. */
  type StatusCode = x: int | 100 <= x <= 999 witness 200

  /** What the exchange returns: a status and a possibly empty body. */
  datatype HttpResponse = HttpResponse(status: StatusCode, body: Option<BankResponse>)

  /** The `RuntimeException("Error processing payment")` the client throws. */
  datatype ClientError = ErrorProcessingPayment

  function ClientErrorMessage(e: ClientError): string {
    "Error processing payment"
  }

  predicate Is4xxClientError(s: StatusCode) {
    s / 100 == 4
  }

  predicate Is5xxServerError(s: StatusCode) {
    s / 100 == 5
  }

  /** The endpoint the request is posted to. */
  function PaymentsUrl(baseUrl: string): string {
    baseUrl + "/payments"
  }

  /**
   * `AcquiringBankingClient.processPayment`: posts the request, unchanged and
   * uninspected, to `baseUrl + "/payments"`; a 4xx or 5xx status throws, and
   * any other status returns the body exactly as received.
   */
  function ProcessPayment(baseUrl: string, request: BankRequest,
                          post: (string, BankRequest) -> HttpResponse): (r: Result<Option<BankResponse>, ClientError>)
    ensures var response := post(baseUrl + "/payments", request);
      && (r.Failure? <==> 400 <= response.status <= 599)
      && (r.Success? ==> r.value == response.body)
      && (r.Failure? ==> ClientErrorMessage(r.error) == "Error processing payment")
  {
    var response := post(PaymentsUrl(baseUrl), request);
    if Is5xxServerError(response.status) || Is4xxClientError(response.status) then
      Failure(ErrorProcessingPayment)
    else
      Success(response.body)
  }

  /**
   * A declined authorization with an empty code under a success status is
   * handed back as it came, whatever the request held.
   */
  lemma DeclineIsNotAClientError(baseUrl: string, request: BankRequest, post: (string, BankRequest) -> HttpResponse)
    requires post(baseUrl + "/payments", request) == HttpResponse(200, Some(BankResponse(false, Some(""))))
    ensures ProcessPayment(baseUrl, request, post) == Success(Some(BankResponse(false, Some(""))))
  {
  }
}
