/**
 * POST /api/payment/capture: an administrator captures an authorized payment. The
 * payment's status becomes whatever the gateway reports, and the order is set to PAID,
 * written directly rather than through the state machine, when that status is PAID.
 * The gateway client call is a parameter (`gateway`).
 */
module CaptureRoute {
  import opened Common
  import opened Enums
  import opened Store
  import opened HandlerOutcome
  import ApiUtils
  import CieloGateway
  import PaymentUtils
  import OrderService

  /** The parsed body; a given amount is in cents. */
  datatype CaptureInput = CaptureInput(paymentId: string, amount: Option<int>)

  /** The success payload; a captured amount of zero, or none, is reported as absent. */
  datatype CaptureReply = CaptureReply(
    paymentId: string, status: string, captured: bool, capturedAmount: Option<int>, message: string)

  const PaymentNotFoundMessage: string := "Pagamento não encontrado"
  const NotCapturableMessage: string := "Apenas pagamentos autorizados podem ser capturados"
  const CapturedMessage: string := "Pagamento capturado com sucesso"

  /**
   * Why the handler stops before calling the gateway, in its order: not an
   * administrator (401 or 403), a body the schema refuses (400), an unknown payment
   * (404), a stored status other than AUTHORIZED (400).
   */
  function CaptureRefusal(t: Tables, session: Option<ApiUtils.SessionUser>,
                          body: Result<CaptureInput, seq<ApiUtils.Issue>>): (e: Option<Raised>)
    ensures ApiUtils.RequireAdmin(session).Err? ==> e == Some(Thrown(ApiUtils.RequireAdmin(session).error))
    ensures ApiUtils.RequireAdmin(session).Ok? && body.Ok? && body.value.paymentId !in t.payments ==>
      e == Some(Thrown(ApiUtils.Api(ApiUtils.NewApiError(PaymentNotFoundMessage, Some(404)))))
    ensures ApiUtils.RequireAdmin(session).Ok? && body.Ok? && body.value.paymentId in t.payments
            && t.payments[body.value.paymentId].status != Authorized ==>
      e == Some(Thrown(ApiUtils.Api(ApiUtils.NewApiError(NotCapturableMessage, Some(400)))))
    ensures e.None? <==>
      && session.Some? && session.value.role == Admin && body.Ok?
      && body.value.paymentId in t.payments && t.payments[body.value.paymentId].status == Authorized
  {
    var admin := ApiUtils.RequireAdmin(session);
    if admin.Err? then Some(Thrown(admin.error))
    else if body.Err? then Some(Thrown(ApiUtils.Zod(body.error)))
    else if body.value.paymentId !in t.payments then
      Some(Thrown(ApiUtils.Api(ApiUtils.NewApiError(PaymentNotFoundMessage, Some(404)))))
    else if PaymentStatusLiteral(t.payments[body.value.paymentId].status) != "AUTHORIZED" then
      Some(Thrown(ApiUtils.Api(ApiUtils.NewApiError(NotCapturableMessage, Some(400)))))
    else None
  }

  function ReplyOf(response: CieloGateway.CieloPaymentResponse): (r: CaptureReply)
    ensures r.paymentId == response.paymentId && r.status == GatewayStatusLiteral(response.status)
    ensures r.captured <==> response.status == PaymentConfirmed
    ensures r.capturedAmount.Some? <==>
      response.diagnostics.capturedAmount.Some? && response.diagnostics.capturedAmount.value != 0
    ensures r.message == CapturedMessage
  {
    var amount := response.diagnostics.capturedAmount;
    CaptureReply(
      response.paymentId, GatewayStatusLiteral(response.status), response.status == PaymentConfirmed,
      if amount.Some? && amount.value != 0 then amount else None,
      CapturedMessage)
  }

  /**
   * Everything after the gateway call: a failed call throws and writes nothing; an
   * answer overwrites the payment's status with the mapped one and, when that is PAID,
   * overwrites the order's status with PAID.
   */
  function AfterGateway(t: Tables, payment: Payment, outcome: CieloGateway.GatewayResult): (s: Step<CaptureReply>)
    ensures outcome.Failed? ==> s == Step(Err(Gateway(outcome.error)), t)
  {
    match outcome
    case Failed(e) => Step(Err(Gateway(e)), t)
    case Answered(response) =>
      var status := PaymentUtils.MapCieloStatusToPrisma(response.status);
      var t1 := WithPaymentStatus(t, payment.paymentId, status);
      if status != PaidPayment then Step(Ok(ReplyOf(response)), t1)
      else if payment.orderId !in t1.orders then Step(Err(Service(Db(RecordNotFound))), t1)
      else Step(Ok(ReplyOf(response)), WithOrderStatus(t1, payment.orderId, Paid))
  }

  function CaptureSpec(t: Tables, session: Option<ApiUtils.SessionUser>, body: Result<CaptureInput, seq<ApiUtils.Issue>>,
                       gateway: CieloGateway.CaptureRequest -> CieloGateway.GatewayResult): (s: Step<CaptureReply>)
    ensures CaptureRefusal(t, session, body).Some? ==> s == Step(Err(CaptureRefusal(t, session, body).value), t)
  {
    var refusal := CaptureRefusal(t, session, body);
    if refusal.Some? then Step(Err(refusal.value), t)
    else
      AfterGateway(t, t.payments[body.value.paymentId],
        gateway(CieloGateway.CaptureRequest(body.value.paymentId, body.value.amount)))
  }

  /** The try block; `sent` is the request handed to the gateway client (None: it was not called). */
  method Handle(db: Database, session: Option<ApiUtils.SessionUser>, body: Result<CaptureInput, seq<ApiUtils.Issue>>,
                gateway: CieloGateway.CaptureRequest -> CieloGateway.GatewayResult)
    returns (result: Result<CaptureReply, Raised>, sent: Option<CieloGateway.CaptureRequest>)
    requires Consistent(db.State())
    modifies db
    ensures Consistent(db.State())
    ensures sent.Some? <==> CaptureRefusal(old(db.State()), session, body).None?
    ensures sent.Some? ==> sent.value == CieloGateway.CaptureRequest(body.value.paymentId, body.value.amount)
    ensures result == CaptureSpec(old(db.State()), session, body, gateway).result
    ensures db.State() == CaptureSpec(old(db.State()), session, body, gateway).tables
  {
    var admin := ApiUtils.RequireAdmin(session);
    if admin.Err? {
      return Err(Thrown(admin.error)), None;
    }
    if body.Err? {
      return Err(Thrown(ApiUtils.Zod(body.error))), None;
    }
    var input := body.value;
    if input.paymentId !in db.payments {
      return Err(Thrown(ApiUtils.Api(ApiUtils.NewApiError(PaymentNotFoundMessage, Some(404))))), None;
    }
    var payment := db.payments[input.paymentId];
    if PaymentStatusLiteral(payment.status) != "AUTHORIZED" {
      return Err(Thrown(ApiUtils.Api(ApiUtils.NewApiError(NotCapturableMessage, Some(400))))), None;
    }
    var request := CieloGateway.CaptureRequest(input.paymentId, input.amount);
    sent := Some(request);
    var outcome := gateway(request);
    result := Record(db, payment, outcome);
  }

  /** The part after the gateway call: the payment's status, then the order's when the payment is PAID. */
  method Record(db: Database, payment: Payment, outcome: CieloGateway.GatewayResult)
    returns (result: Result<CaptureReply, Raised>)
    requires Consistent(db.State())
    modifies db
    ensures Consistent(db.State())
    ensures result == AfterGateway(old(db.State()), payment, outcome).result
    ensures db.State() == AfterGateway(old(db.State()), payment, outcome).tables
  {
    if outcome.Failed? {
      return Err(Gateway(outcome.error));
    }
    ghost var before := db.State();
    AfterGatewayConsistent(before, payment, outcome);
    var status := PaymentUtils.MapCieloStatusToPrisma(outcome.response.status);
    WritePaymentStatus(db, payment.paymentId, status);
    if status == PaidPayment {
      if payment.orderId !in db.orders {
        return Err(Service(Db(RecordNotFound)));
      }
      WriteOrderStatus(db, payment.orderId, Paid);
    }
    result := Ok(ReplyOf(outcome.response));
  }

  /** The writes after the gateway call keep the tables consistent. */
  lemma AfterGatewayConsistent(t: Tables, payment: Payment, outcome: CieloGateway.GatewayResult)
    requires Consistent(t)
    ensures Consistent(AfterGateway(t, payment, outcome).tables)
  {
    if outcome.Answered? {
      var status := PaymentUtils.MapCieloStatusToPrisma(outcome.response.status);
      PaymentStatusWriteConsistent(t, payment.paymentId, status);
      OrderStatusWriteConsistent(WithPaymentStatus(t, payment.paymentId, status), payment.orderId, Paid);
    }
  }

  method Post(db: Database, session: Option<ApiUtils.SessionUser>, body: Result<CaptureInput, seq<ApiUtils.Issue>>,
              gateway: CieloGateway.CaptureRequest -> CieloGateway.GatewayResult)
    returns (resp: ApiUtils.ApiResponse<CaptureReply>, sent: Option<CieloGateway.CaptureRequest>)
    requires Consistent(db.State())
    modifies db
    ensures Consistent(db.State())
    ensures sent.Some? <==> CaptureRefusal(old(db.State()), session, body).None?
    ensures resp == ResponseOf(CaptureSpec(old(db.State()), session, body, gateway).result)
    ensures db.State() == CaptureSpec(old(db.State()), session, body, gateway).tables
  {
    var result;
    result, sent := Handle(db, session, body, gateway);
    resp := Respond(result);
  }

  // ------------------------------------------------------------------- properties

  /**
   * With the guards passed and the gateway answering, the capture succeeds; the payment
   * holds the mapped status; the order holds PAID when that status is PAID and is
   * untouched otherwise; no other payment or order and no other table changes.
   */
  lemma CaptureEffect(t: Tables, user: ApiUtils.SessionUser, input: CaptureInput,
                      gateway: CieloGateway.CaptureRequest -> CieloGateway.GatewayResult)
    requires Consistent(t)
    requires CaptureRefusal(t, Some(user), Ok(input)).None?
    requires gateway(CieloGateway.CaptureRequest(input.paymentId, input.amount)).Answered?
    ensures var g := gateway(CieloGateway.CaptureRequest(input.paymentId, input.amount)).response.status;
      var status := PaymentUtils.MapCieloStatusToPrisma(g);
      var p := t.payments[input.paymentId];
      var s := CaptureSpec(t, Some(user), Ok(input), gateway);
      && s.result.Ok?
      && s.tables.payments == t.payments[input.paymentId := p.(status := status)]
      && (status == PaidPayment ==> s.tables.orders == t.orders[p.orderId := t.orders[p.orderId].(status := Paid)])
      && (status != PaidPayment ==> s.tables.orders == t.orders)
      && s.tables.products == t.products && s.tables.carts == t.carts && s.tables.users == t.users
      && s.tables.categories == t.categories
  {
  }

  /**
   * A confirmed capture sets the order to PAID whatever its status was, including the
   * statuses from which the state machine forbids PAID (every status but
   * PAYMENT_PENDING): this path does not consult it.
   */
  lemma ConfirmedCaptureForcesPaid(t: Tables, user: ApiUtils.SessionUser, input: CaptureInput,
                                   gateway: CieloGateway.CaptureRequest -> CieloGateway.GatewayResult)
    requires Consistent(t)
    requires CaptureRefusal(t, Some(user), Ok(input)).None?
    requires gateway(CieloGateway.CaptureRequest(input.paymentId, input.amount)).Answered?
    requires gateway(CieloGateway.CaptureRequest(input.paymentId, input.amount)).response.status == PaymentConfirmed
    ensures var orderId := t.payments[input.paymentId].orderId;
      var s := CaptureSpec(t, Some(user), Ok(input), gateway);
      && s.tables.orders[orderId].status == Paid
      && s.result.Ok? && s.result.value.captured
      && (t.orders[orderId].status != PaymentPending ==> !OrderService.CanTransition(t.orders[orderId].status, Paid))
  {
    var from := t.orders[t.payments[input.paymentId].orderId].status;
    assert from != PaymentPending ==> Paid !in OrderService.AllowedTargets(from);
  }

  /** Only a stored AUTHORIZED payment, and only for an administrator, reaches the gateway; every refusal writes nothing. */
  lemma RefusalsLeaveTablesAlone(t: Tables, session: Option<ApiUtils.SessionUser>, body: Result<CaptureInput, seq<ApiUtils.Issue>>,
                                 gateway: CieloGateway.CaptureRequest -> CieloGateway.GatewayResult)
    ensures CaptureRefusal(t, session, body).None? ==>
      session.value.role == Admin && t.payments[body.value.paymentId].status == Authorized
    ensures CaptureRefusal(t, session, body).Some? ==> CaptureSpec(t, session, body, gateway).tables == t
    ensures (session.Some? && session.value.role == Admin && body.Ok? && body.value.paymentId in t.payments
             && t.payments[body.value.paymentId].status == PaidPayment) ==>
      ResponseOf(CaptureSpec(t, session, body, gateway).result).status == 400
  {
  }

  /** A failed gateway call is thrown and changes neither the payment nor the order. */
  lemma GatewayFailureWritesNothing(t: Tables, user: ApiUtils.SessionUser, input: CaptureInput,
                                    gateway: CieloGateway.CaptureRequest -> CieloGateway.GatewayResult)
    requires CaptureRefusal(t, Some(user), Ok(input)).None?
    requires gateway(CieloGateway.CaptureRequest(input.paymentId, input.amount)).Failed?
    ensures var s := CaptureSpec(t, Some(user), Ok(input), gateway);
      s.tables == t && ResponseOf(s.result).status == 500
  {
    UnexpectedErrorsAre500<CaptureReply>(Gateway(gateway(CieloGateway.CaptureRequest(input.paymentId, input.amount)).error));
  }
}
