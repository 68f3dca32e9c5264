/**
 * Client for the Cielo E-Commerce 3.0 card gateway: how credentials, hosts, request
 * URLs and the sale payload are built, and how a gateway reply is turned into either a
 * payment response or an error. The HTTP exchange itself is a parameter (`transport`):
 * whatever the gateway answers to the request that was built.
 */
module CieloGateway {
  import opened Common
  import opened Enums
  import PaymentUtils

  // ---------------------------------------------------------------- request side

  datatype Brand = Visa | Master | Amex | Elo | Aura | JCB | Diners | Discover | Hipercard
  datatype IdentityType = CPF | CNPJ

  datatype CreditCardData =
    CreditCardData(cardNumber: string, holder: string, expirationDate: string, securityCode: string, brand: Brand)

  datatype CustomerData = CustomerData(
    name: string, email: Option<string>, identity: Option<string>,
    identityType: Option<IdentityType>, mobile: Option<string>)

  /** What a caller asks the client to authorize; the amount is in cents. */
  datatype PaymentRequest = PaymentRequest(
    orderId: string, amount: int, currency: Option<string>, installments: Option<int>,
    capture: Option<bool>, softDescriptor: Option<string>, creditCard: CreditCardData,
    customer: Option<CustomerData>)

  /** Capture (or void) of a gateway payment; an absent amount means the full amount. */
  datatype CaptureRequest = CaptureRequest(paymentId: string, amount: Option<int>)
  datatype CancelRequest = CancelRequest(paymentId: string, amount: Option<int>)

  /** The `Payment` object of a sale request, as sent on the wire. */
  datatype PaymentPayload = PaymentPayload(
    kind: string, amount: int, currency: string, country: string, installments: int,
    capture: bool, softDescriptor: Option<string>, creditCard: CreditCardData)

  datatype SalePayload =
    SalePayload(merchantOrderId: string, customer: Option<CustomerData>, payment: PaymentPayload)

  datatype Verb = Get | Post | Put

  datatype Headers = Headers(contentType: string, merchantId: string, merchantKey: string)

  datatype HttpRequest = HttpRequest(verb: Verb, url: string, headers: Headers, body: Option<SalePayload>)

  // --------------------------------------------------------------- response side

  /** Gateway fields the client copies through unchanged. */
  datatype Diagnostics = Diagnostics(
    returnCode: Option<string>, returnMessage: Option<string>, proofOfSale: Option<string>,
    authorizationCode: Option<string>, tid: Option<string>, nsu: Option<string>,
    capturedAmount: Option<int>, capturedDate: Option<string>,
    voidedAmount: Option<int>, voidedDate: Option<string>)

  /** A payment object as the gateway encodes it: the status is a numeric code, possibly absent. */
  datatype PaymentJson = PaymentJson(paymentId: string, status: Option<int>, amount: int, diagnostics: Diagnostics)

  datatype ErrorItem = ErrorItem(code: Option<string>, message: Option<string>)

  /**
   * The parts of a reply body the client reads: the `Payment` property (present in
   * sale replies), the top-level payment fields (capture, void and query replies), and
   * the elements of an error array.
   */
  datatype ResponseJson = ResponseJson(payment: Option<PaymentJson>, top: PaymentJson, items: seq<ErrorItem>)

  /** What the transport yields: a reply (status OK or not, body JSON or not) or no reply at all. */
  datatype HttpReply = Reply(ok: bool, body: Option<ResponseJson>) | NoReply

  /** The client's normalised payment response. */
  datatype CieloPaymentResponse =
    CieloPaymentResponse(paymentId: string, status: GatewayStatus, amount: int, diagnostics: Diagnostics)

  datatype PaymentError = PaymentError(code: string, message: string, details: ResponseJson)

  datatype GatewayError =
    | MissingCredentials   // the Error thrown by the credential check
    | Rejected(error: PaymentError)   // non-OK status: the value `handleError` builds
    | NetworkFailure       // fetch itself threw
    | InvalidJson          // the body was not JSON

  /** The outcome of one client call, as the request handlers receive it. */
  datatype GatewayResult = Answered(response: CieloPaymentResponse) | Failed(error: GatewayError)

  const MissingCredentialsMessage: string := "Credenciais Cielo não configuradas"
  const UnknownErrorCode: string := "UNKNOWN_ERROR"
  const UnknownErrorMessage: string := "Erro desconhecido ao processar pagamento"

  const SandboxApiUrl: string := "https://apisandbox.cieloecommerce.cielo.com.br"
  const ProductionApiUrl: string := "https://api.cieloecommerce.cielo.com.br"
  const SandboxQueryUrl: string := "https://apiquerysandbox.cieloecommerce.cielo.com.br"
  const ProductionQueryUrl: string := "https://apiquery.cieloecommerce.cielo.com.br"

  /** Environment variables the client is configured from. */
  datatype Env = Env(merchantId: Option<string>, merchantKey: Option<string>, sandbox: Option<string>)

  // ----------------------------------------------------------------- pure helpers

  /** Decodes the gateway's numeric status code. */
  function MapStatus(code: Option<int>): (r: GatewayStatus)
    ensures code == Some(0) ==> r == NotFinished
    ensures code == Some(1) <==> r == GwAuthorized
    ensures code == Some(2) <==> r == PaymentConfirmed
    ensures code == Some(3) <==> r == GwDenied
    ensures code == Some(10) <==> r == GwVoided
    ensures code == Some(11) <==> r == GwRefunded
    ensures code == Some(12) <==> r == GwPending
    ensures code == Some(13) <==> r == GwAborted
    ensures code == Some(20) <==> r == GwScheduled
    ensures !KnownStatusCode(code) ==> r == NotFinished
  {
    match code
    case Some(0) => NotFinished
    case Some(1) => GwAuthorized
    case Some(2) => PaymentConfirmed
    case Some(3) => GwDenied
    case Some(10) => GwVoided
    case Some(11) => GwRefunded
    case Some(12) => GwPending
    case Some(13) => GwAborted
    case Some(20) => GwScheduled
    case _ => NotFinished
  }

  predicate KnownStatusCode(code: Option<int>)
  {
    code.Some? && code.value in {0, 1, 2, 3, 10, 11, 12, 13, 20}
  }

  /** Reads the payment from `Payment` when the reply has one, otherwise from the top level. */
  function MapCieloResponse(data: ResponseJson): (r: CieloPaymentResponse)
    ensures var p := if data.payment.Some? then data.payment.value else data.top;
      && r.paymentId == p.paymentId && r.amount == p.amount && r.diagnostics == p.diagnostics
      && r.status == MapStatus(p.status)
  {
    var p := if data.payment.Some? then data.payment.value else data.top;
    CieloPaymentResponse(p.paymentId, MapStatus(p.status), p.amount, p.diagnostics)
  }

  /** The error value thrown for a non-OK reply: the first error element's code and message, or defaults. */
  function HandleError(data: ResponseJson): (e: PaymentError)
    ensures e.details == data
    ensures |data.items| > 0 && Truthy(data.items[0].code) ==> e.code == data.items[0].code.value
    ensures |data.items| > 0 && Truthy(data.items[0].message) ==> e.message == data.items[0].message.value
    ensures (|data.items| == 0 || !Truthy(data.items[0].code)) ==> e.code == UnknownErrorCode
    ensures (|data.items| == 0 || !Truthy(data.items[0].message)) ==> e.message == UnknownErrorMessage
  {
    var first: Option<ErrorItem> := if |data.items| > 0 then Some(data.items[0]) else None;
    PaymentError(
      if first.Some? then OrElse(first.value.code, UnknownErrorCode) else UnknownErrorCode,
      if first.Some? then OrElse(first.value.message, UnknownErrorMessage) else UnknownErrorMessage,
      data)
  }

  /** Turns what the transport yielded into the call's outcome. */
  function Interpret(reply: HttpReply): (r: GatewayResult)
    ensures reply.NoReply? ==> r == Failed(NetworkFailure)
    ensures reply.Reply? && reply.body.None? ==> r == Failed(InvalidJson)
    ensures reply.Reply? && reply.body.Some? && !reply.ok ==> r == Failed(Rejected(HandleError(reply.body.value)))
    ensures r.Answered? <==> reply.Reply? && reply.ok && reply.body.Some?
    ensures r.Answered? ==> r.response == MapCieloResponse(reply.body.value)
  {
    match reply
    case NoReply => Failed(NetworkFailure)
    case Reply(ok, body) =>
      if body.None? then Failed(InvalidJson)
      else if !ok then Failed(Rejected(HandleError(body.value)))
      else Answered(MapCieloResponse(body.value))
  }

  /** The sale payload: fixed type and country, and the defaults for currency, installments and capture. */
  function SalePayloadOf(request: PaymentRequest): (p: SalePayload)
    ensures p.merchantOrderId == request.orderId && p.customer == request.customer
    ensures p.payment.kind == "CreditCard" && p.payment.country == "BRA"
    ensures p.payment.amount == request.amount
    ensures p.payment.currency == if Truthy(request.currency) then request.currency.value else "BRL"
    ensures p.payment.installments ==
      if request.installments.Some? && request.installments.value != 0 then request.installments.value else 1
    ensures p.payment.capture == (request.capture == Some(true))
    ensures p.payment.softDescriptor == request.softDescriptor
    ensures p.payment.creditCard == request.creditCard
  {
    SalePayload(
      request.orderId,
      request.customer,
      PaymentPayload(
        "CreditCard", request.amount, OrElse(request.currency, "BRL"), "BRA",
        if request.installments.Some? && request.installments.value != 0 then request.installments.value else 1,
        if request.capture.Some? then request.capture.value else false,
        request.softDescriptor, request.creditCard))
  }

  /** The `?amount=` suffix, present only when the amount is truthy (given and non-zero). */
  function AmountQuery(amount: Option<int>): (q: string)
    ensures amount.Some? && amount.value != 0 ==> q == "?amount=" + IntToString(amount.value)
    ensures amount.None? || amount.value == 0 ==> q == ""
  {
    if amount.Some? && amount.value != 0 then "?amount=" + IntToString(amount.value) else ""
  }

  function CaptureUrl(apiUrl: string, request: CaptureRequest): (url: string)
    ensures StartsWith(url, apiUrl + "/1/sales/" + request.paymentId + "/capture")
    ensures request.amount.Some? && request.amount.value != 0 ==>
      url == apiUrl + "/1/sales/" + request.paymentId + "/capture?amount=" + IntToString(request.amount.value)
    ensures request.amount.None? || request.amount.value == 0 ==>
      url == apiUrl + "/1/sales/" + request.paymentId + "/capture"
  {
    apiUrl + "/1/sales/" + request.paymentId + "/capture" + AmountQuery(request.amount)
  }

  function CancelUrl(apiUrl: string, request: CancelRequest): (url: string)
    ensures StartsWith(url, apiUrl + "/1/sales/" + request.paymentId + "/void")
    ensures request.amount.Some? && request.amount.value != 0 ==>
      url == apiUrl + "/1/sales/" + request.paymentId + "/void?amount=" + IntToString(request.amount.value)
    ensures request.amount.None? || request.amount.value == 0 ==>
      url == apiUrl + "/1/sales/" + request.paymentId + "/void"
  {
    apiUrl + "/1/sales/" + request.paymentId + "/void" + AmountQuery(request.amount)
  }

  /** An unknown numeric code reads as NotFinished, which is stored as a pending payment. */
  lemma UnknownCodeIsStoredPending(code: Option<int>)
    requires !KnownStatusCode(code)
    ensures MapStatus(code) == NotFinished
    ensures PaymentUtils.MapCieloStatusToPrisma(MapStatus(code)) == PendingPayment
    ensures PaymentUtils.OrderStatusForGateway(MapStatus(code)) == Pending
  {
  }

  // ----------------------------------------------------------------- the client

  /** The gateway client: credentials and hosts fixed at construction. */
  class PaymentService {
    const merchantId: string
    const merchantKey: string
    const sandbox: bool
    const apiUrl: string
    const apiQueryUrl: string

    constructor (env: Env)
      ensures merchantId == OrElse(env.merchantId, "") && merchantKey == OrElse(env.merchantKey, "")
      ensures sandbox <==> env.sandbox == Some("true")
      ensures apiUrl == (if sandbox then SandboxApiUrl else ProductionApiUrl)
      ensures apiQueryUrl == (if sandbox then SandboxQueryUrl else ProductionQueryUrl)
    {
      merchantId := OrElse(env.merchantId, "");
      merchantKey := OrElse(env.merchantKey, "");
      sandbox := env.sandbox == Some("true");
      apiUrl := if env.sandbox == Some("true") then SandboxApiUrl else ProductionApiUrl;
      apiQueryUrl := if env.sandbox == Some("true") then SandboxQueryUrl else ProductionQueryUrl;
    }

    /** Both credentials are non-empty (the check every call makes first). */
    predicate HasCredentials()
    {
      merchantId != "" && merchantKey != ""
    }

    function RequestHeaders(): (h: Headers)
      ensures h.contentType == "application/json"
      ensures h.merchantId == merchantId && h.merchantKey == merchantKey
    {
      Headers("application/json", merchantId, merchantKey)
    }

    /** Posts a sale; returns the request handed to the transport (None: nothing was sent). */
    method Authorize(request: PaymentRequest, transport: HttpRequest -> HttpReply)
      returns (sent: Option<HttpRequest>, r: GatewayResult)
      ensures !HasCredentials() ==> sent.None? && r == Failed(MissingCredentials)
      ensures HasCredentials() ==>
        && sent.Some?
        && sent.value == HttpRequest(Post, apiUrl + "/1/sales", RequestHeaders(), Some(SalePayloadOf(request)))
        && r == Interpret(transport(sent.value))
    {
      if !HasCredentials() {
        return None, Failed(MissingCredentials);
      }
      var payload := SalePayloadOf(request);
      var http := HttpRequest(Post, apiUrl + "/1/sales", RequestHeaders(), Some(payload));
      var reply := transport(http);
      sent := Some(http);
      r := Interpret(reply);
    }

    method Capture(request: CaptureRequest, transport: HttpRequest -> HttpReply)
      returns (sent: Option<HttpRequest>, r: GatewayResult)
      ensures !HasCredentials() ==> sent.None? && r == Failed(MissingCredentials)
      ensures HasCredentials() ==>
        && sent.Some?
        && sent.value == HttpRequest(Put, CaptureUrl(apiUrl, request), RequestHeaders(), None)
        && r == Interpret(transport(sent.value))
    {
      if !HasCredentials() {
        return None, Failed(MissingCredentials);
      }
      var http := HttpRequest(Put, CaptureUrl(apiUrl, request), RequestHeaders(), None);
      var reply := transport(http);
      sent := Some(http);
      r := Interpret(reply);
    }

    method Cancel(request: CancelRequest, transport: HttpRequest -> HttpReply)
      returns (sent: Option<HttpRequest>, r: GatewayResult)
      ensures !HasCredentials() ==> sent.None? && r == Failed(MissingCredentials)
      ensures HasCredentials() ==>
        && sent.Some?
        && sent.value == HttpRequest(Put, CancelUrl(apiUrl, request), RequestHeaders(), None)
        && r == Interpret(transport(sent.value))
    {
      if !HasCredentials() {
        return None, Failed(MissingCredentials);
      }
      var http := HttpRequest(Put, CancelUrl(apiUrl, request), RequestHeaders(), None);
      var reply := transport(http);
      sent := Some(http);
      r := Interpret(reply);
    }

    /** Status queries go to the query host, not the transaction host. */
    method GetPaymentStatus(paymentId: string, transport: HttpRequest -> HttpReply)
      returns (sent: Option<HttpRequest>, r: GatewayResult)
      ensures !HasCredentials() ==> sent.None? && r == Failed(MissingCredentials)
      ensures HasCredentials() ==>
        && sent.Some?
        && sent.value == HttpRequest(Get, apiQueryUrl + "/1/sales/" + paymentId, RequestHeaders(), None)
        && r == Interpret(transport(sent.value))
    {
      if !HasCredentials() {
        return None, Failed(MissingCredentials);
      }
      var http := HttpRequest(Get, apiQueryUrl + "/1/sales/" + paymentId, RequestHeaders(), None);
      var reply := transport(http);
      sent := Some(http);
      r := Interpret(reply);
    }
  }
}
