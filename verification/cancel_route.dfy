/**
 * POST /api/payment/cancel: the order's owner (or an administrator) voids an
 * authorization or refunds a captured payment. After the guards, the payment's status
 * becomes whatever the gateway reports, and the order is written directly: CANCELLED
 * when the payment was AUTHORIZED before the call, REFUNDED otherwise.
 *
 * The status guard compares the stored status with the gateway's spelling of the
 * statuses ('Authorized', 'PaymentConfirmed'), which no stored status has; so, as
 * written, every cancellation is refused before the gateway is called. The handler is
 * modelled as written (`Cancellable(AsWritten, _)`); `Cancellable(Intended, _)` is the
 * guard on the stored statuses AUTHORIZED and PAID, with the effects proved for it.
 */
module CancelRoute {
  import opened Common
  import opened Enums
  import opened Store
  import opened HandlerOutcome
  import ApiUtils
  import CieloGateway
  import PaymentUtils

  /** The parsed body; a given amount is in cents. */
  datatype CancelInput = CancelInput(paymentId: string, amount: Option<int>)

  datatype CancelReply = CancelReply(paymentId: string, status: string, cancelled: bool, message: string)

  const PaymentNotFoundMessage: string := "Pagamento não encontrado"
  const ForbiddenMessage: string := "Você não tem permissão para cancelar este pagamento"
  const NotCancellableMessage: string := "Este pagamento não pode ser cancelado"
  const VoidedMessage: string := "Autorização cancelada com sucesso"
  const RefundedMessage: string := "Pagamento estornado com sucesso"

  /** Which status guard: the one in the handler, or the one its authors evidently meant. */
  datatype Guard = AsWritten | Intended

  /** Whether the guard lets a payment with this stored status be cancelled. */
  predicate Cancellable(g: Guard, s: PaymentStatus)
  {
    match g
    case AsWritten => PaymentStatusLiteral(s) in ["Authorized", "PaymentConfirmed"]
    case Intended => s == Authorized || s == PaidPayment
  }

  /**
   * Why the handler stops before calling the gateway, in its order: no session (401), a
   * body the schema refuses (400), an unknown payment (404), a caller who is neither an
   * administrator nor the owner of the payment's order (403), a status the guard refuses (400).
   */
  function CancelRefusal(g: Guard, t: Tables, session: Option<ApiUtils.SessionUser>,
                         body: Result<CancelInput, seq<ApiUtils.Issue>>): (e: Option<Raised>)
    requires Consistent(t)
    ensures session.None? ==> e == Some(Thrown(ApiUtils.Api(ApiUtils.Unauthorized(None))))
    ensures session.Some? && body.Ok? && body.value.paymentId !in t.payments ==>
      e == Some(Thrown(ApiUtils.Api(ApiUtils.NewApiError(PaymentNotFoundMessage, Some(404)))))
    ensures session.Some? && body.Ok? && body.value.paymentId in t.payments && session.value.role != Admin
            && t.orders[t.payments[body.value.paymentId].orderId].userId != session.value.id ==>
      e == Some(Thrown(ApiUtils.Api(ApiUtils.NewApiError(ForbiddenMessage, Some(403)))))
    ensures e.None? <==>
      && session.Some? && body.Ok? && body.value.paymentId in t.payments
      && (session.value.role == Admin || t.orders[t.payments[body.value.paymentId].orderId].userId == session.value.id)
      && Cancellable(g, t.payments[body.value.paymentId].status)
  {
    var auth := ApiUtils.RequireAuth(session);
    if auth.Err? then Some(Thrown(auth.error))
    else if body.Err? then Some(Thrown(ApiUtils.Zod(body.error)))
    else if body.value.paymentId !in t.payments then
      Some(Thrown(ApiUtils.Api(ApiUtils.NewApiError(PaymentNotFoundMessage, Some(404)))))
    else
      var payment := t.payments[body.value.paymentId];
      if auth.value.role != Admin && t.orders[payment.orderId].userId != auth.value.id then
        Some(Thrown(ApiUtils.Api(ApiUtils.NewApiError(ForbiddenMessage, Some(403)))))
      else if !Cancellable(g, payment.status) then
        Some(Thrown(ApiUtils.Api(ApiUtils.NewApiError(NotCancellableMessage, Some(400)))))
      else None
  }

  /**
   * The order status the handler writes, chosen from the payment's status before the
   * call: CANCELLED for a voided authorization, REFUNDED for anything else.
   */
  function TargetStatus(before: PaymentStatus): (o: OrderStatus)
    ensures o == Cancelled <==> before == Authorized
    ensures o == Refunded <==> before != Authorized
  {
    if PaymentStatusLiteral(before) == "AUTHORIZED" then Cancelled else Refunded
  }

  function ReplyOf(before: PaymentStatus, response: CieloGateway.CieloPaymentResponse): (r: CancelReply)
    ensures r.paymentId == response.paymentId && r.status == GatewayStatusLiteral(response.status) && r.cancelled
    ensures r.message == if before == Authorized then VoidedMessage else RefundedMessage
  {
    CancelReply(
      response.paymentId, GatewayStatusLiteral(response.status), true,
      if PaymentStatusLiteral(before) == "AUTHORIZED" then VoidedMessage else RefundedMessage)
  }

  /**
   * Everything after the gateway call: a failed call throws and writes nothing; an
   * answer overwrites the payment's status with the mapped one and the order's status
   * with the target chosen from the payment's earlier status.
   */
  function AfterGateway(t: Tables, payment: Payment, outcome: CieloGateway.GatewayResult): (s: Step<CancelReply>)
    requires Consistent(t) && payment.paymentId in t.payments && payment.orderId in t.orders
    ensures outcome.Failed? ==> s == Step(Err(Gateway(outcome.error)), t)
  {
    match outcome
    case Failed(e) => Step(Err(Gateway(e)), t)
    case Answered(response) =>
      var t1 := WithPaymentStatus(t, payment.paymentId, PaymentUtils.MapCieloStatusToPrisma(response.status));
      Step(Ok(ReplyOf(payment.status, response)), WithOrderStatus(t1, payment.orderId, TargetStatus(payment.status)))
  }

  function CancelSpec(g: Guard, t: Tables, session: Option<ApiUtils.SessionUser>, body: Result<CancelInput, seq<ApiUtils.Issue>>,
                      gateway: CieloGateway.CancelRequest -> CieloGateway.GatewayResult): (s: Step<CancelReply>)
    requires Consistent(t)
    ensures CancelRefusal(g, t, session, body).Some? ==> s == Step(Err(CancelRefusal(g, t, session, body).value), t)
  {
    var refusal := CancelRefusal(g, t, session, body);
    if refusal.Some? then Step(Err(refusal.value), t)
    else
      AfterGateway(t, t.payments[body.value.paymentId],
        gateway(CieloGateway.CancelRequest(body.value.paymentId, body.value.amount)))
  }

  /** The try block as written; `sent` is the request handed to the gateway client (None: it was not called). */
  method Handle(db: Database, session: Option<ApiUtils.SessionUser>, body: Result<CancelInput, seq<ApiUtils.Issue>>,
                gateway: CieloGateway.CancelRequest -> CieloGateway.GatewayResult)
    returns (result: Result<CancelReply, Raised>, sent: Option<CieloGateway.CancelRequest>)
    requires Consistent(db.State())
    modifies db
    ensures Consistent(db.State())
    ensures sent.Some? <==> CancelRefusal(AsWritten, old(db.State()), session, body).None?
    ensures sent.Some? ==> sent.value == CieloGateway.CancelRequest(body.value.paymentId, body.value.amount)
    ensures result == CancelSpec(AsWritten, old(db.State()), session, body, gateway).result
    ensures db.State() == CancelSpec(AsWritten, old(db.State()), session, body, gateway).tables
  {
    var auth := ApiUtils.RequireAuth(session);
    if auth.Err? {
      return Err(Thrown(auth.error)), None;
    }
    if body.Err? {
      return Err(Thrown(ApiUtils.Zod(body.error))), None;
    }
    var input := body.value;
    if input.paymentId !in db.payments {
      return Err(Thrown(ApiUtils.Api(ApiUtils.NewApiError(PaymentNotFoundMessage, Some(404))))), None;
    }
    var payment := db.payments[input.paymentId];
    if auth.value.role != Admin && db.orders[payment.orderId].userId != auth.value.id {
      return Err(Thrown(ApiUtils.Api(ApiUtils.NewApiError(ForbiddenMessage, Some(403))))), None;
    }
    if PaymentStatusLiteral(payment.status) !in ["Authorized", "PaymentConfirmed"] {
      return Err(Thrown(ApiUtils.Api(ApiUtils.NewApiError(NotCancellableMessage, Some(400))))), None;
    }
    var request := CieloGateway.CancelRequest(input.paymentId, input.amount);
    sent := Some(request);
    var outcome := gateway(request);
    result := Record(db, payment, outcome);
  }

  /** The part after the gateway call: the payment's status, then the order's. */
  method Record(db: Database, payment: Payment, outcome: CieloGateway.GatewayResult)
    returns (result: Result<CancelReply, Raised>)
    requires Consistent(db.State()) && payment.paymentId in db.payments && payment.orderId in db.orders
    modifies db
    ensures Consistent(db.State())
    ensures result == AfterGateway(old(db.State()), payment, outcome).result
    ensures db.State() == AfterGateway(old(db.State()), payment, outcome).tables
  {
    if outcome.Failed? {
      return Err(Gateway(outcome.error));
    }
    var status := PaymentUtils.MapCieloStatusToPrisma(outcome.response.status);
    ghost var before := db.State();
    PaymentStatusWriteConsistent(before, payment.paymentId, status);
    WritePaymentStatus(db, payment.paymentId, status);
    var target := TargetStatus(payment.status);
    OrderStatusWriteConsistent(db.State(), payment.orderId, target);
    WriteOrderStatus(db, payment.orderId, target);
    result := Ok(ReplyOf(payment.status, outcome.response));
  }

  method Post(db: Database, session: Option<ApiUtils.SessionUser>, body: Result<CancelInput, seq<ApiUtils.Issue>>,
              gateway: CieloGateway.CancelRequest -> CieloGateway.GatewayResult)
    returns (resp: ApiUtils.ApiResponse<CancelReply>, sent: Option<CieloGateway.CancelRequest>)
    requires Consistent(db.State())
    modifies db
    ensures Consistent(db.State())
    ensures sent.Some? <==> CancelRefusal(AsWritten, old(db.State()), session, body).None?
    ensures resp == ResponseOf(CancelSpec(AsWritten, old(db.State()), session, body, gateway).result)
    ensures db.State() == CancelSpec(AsWritten, old(db.State()), session, body, gateway).tables
  {
    var result;
    result, sent := Handle(db, session, body, gateway);
    resp := Respond(result);
  }

  // ------------------------------------------------------------------- properties

  /** The guard as written admits no stored status. */
  lemma GuardAdmitsNothing(s: PaymentStatus)
    ensures !Cancellable(AsWritten, s)
  {
    StoredLiteralsAreNotGatewayLiterals(s, GwAuthorized);
    StoredLiteralsAreNotGatewayLiterals(s, PaymentConfirmed);
  }

  /**
   * As written, no request gets past the guards: whoever asks, for whatever payment,
   * the gateway is never called and nothing is written; a permitted caller naming a
   * stored payment always gets 400, even for an AUTHORIZED or PAID payment.
   */
  lemma CancelGuardNeverPasses(t: Tables, session: Option<ApiUtils.SessionUser>, body: Result<CancelInput, seq<ApiUtils.Issue>>,
                               gateway: CieloGateway.CancelRequest -> CieloGateway.GatewayResult)
    requires Consistent(t)
    ensures CancelRefusal(AsWritten, t, session, body).Some?
    ensures CancelSpec(AsWritten, t, session, body, gateway).tables == t
    ensures CancelSpec(AsWritten, t, session, body, gateway).result.Err?
    ensures (session.Some? && body.Ok? && body.value.paymentId in t.payments
             && (session.value.role == Admin || t.orders[t.payments[body.value.paymentId].orderId].userId == session.value.id)) ==>
      ResponseOf(CancelSpec(AsWritten, t, session, body, gateway).result) ==
        ApiUtils.ErrorResponse(400, NotCancellableMessage, None, None)
  {
    if body.Ok? && body.value.paymentId in t.payments {
      GuardAdmitsNothing(t.payments[body.value.paymentId].status);
    }
  }

  /**
   * With the intended guard, an AUTHORIZED or PAID payment reaches the gateway; on an
   * answer the payment holds the mapped status and the order is CANCELLED when the
   * payment was AUTHORIZED (a void) and REFUNDED when it was PAID (a refund), whatever
   * the gateway reported; nothing else changes.
   */
  lemma IntendedCancelBranches(t: Tables, user: ApiUtils.SessionUser, input: CancelInput,
                               gateway: CieloGateway.CancelRequest -> CieloGateway.GatewayResult)
    requires Consistent(t)
    requires input.paymentId in t.payments
    requires user.role == Admin || t.orders[t.payments[input.paymentId].orderId].userId == user.id
    requires t.payments[input.paymentId].status in {Authorized, PaidPayment}
    requires gateway(CieloGateway.CancelRequest(input.paymentId, input.amount)).Answered?
    ensures CancelRefusal(Intended, t, Some(user), Ok(input)).None?
    ensures var p := t.payments[input.paymentId];
      var g := gateway(CieloGateway.CancelRequest(input.paymentId, input.amount)).response.status;
      var s := CancelSpec(Intended, t, Some(user), Ok(input), gateway);
      && s.result.Ok? && s.result.value.cancelled
      && s.tables.payments == t.payments[input.paymentId := p.(status := PaymentUtils.MapCieloStatusToPrisma(g))]
      && s.tables.orders.Keys == t.orders.Keys
      && s.tables.orders[p.orderId].status == (if p.status == Authorized then Cancelled else Refunded)
      && (forall k :: k in t.orders && k != p.orderId ==> s.tables.orders[k] == t.orders[k])
      && (s.result.value.message == VoidedMessage <==> p.status == Authorized)
  {
  }

  /** With the intended guard, every other stored status is refused with 400 before the gateway is called. */
  lemma IntendedGuardRefusesOthers(t: Tables, user: ApiUtils.SessionUser, input: CancelInput,
                                   gateway: CieloGateway.CancelRequest -> CieloGateway.GatewayResult)
    requires Consistent(t)
    requires input.paymentId in t.payments && t.payments[input.paymentId].status !in {Authorized, PaidPayment}
    ensures CancelRefusal(Intended, t, Some(user), Ok(input)).Some?
    ensures CancelSpec(Intended, t, Some(user), Ok(input), gateway).tables == t
    ensures ResponseOf(CancelSpec(Intended, t, Some(user), Ok(input), gateway).result).status in {400, 403}
  {
  }
}
