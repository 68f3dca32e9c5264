/**
 * POST /api/payment/authorize: a signed-in buyer (or an administrator) pays an order by
 * card. Guards on the session, the body, the order's owner and the order's status run
 * before the gateway is called; on any gateway answer, denied or not, a payment row is
 * written, and then the order is moved through the strict state machine to the status
 * the payment implies. The gateway client call is a parameter (`gateway`).
 */
module AuthorizeRoute {
  import opened Common
  import opened Enums
  import opened Store
  import opened HandlerOutcome
  import ApiUtils
  import CieloGateway
  import PaymentUtils
  import OrderService

  /** The parsed request body, after the schema's defaults (one installment, no capture). */
  datatype AuthorizeInput = AuthorizeInput(
    orderId: string, creditCard: CieloGateway.CreditCardData, installments: int, capture: bool,
    customer: Option<CieloGateway.CustomerData>)

  /** The success payload: the gateway's payment id and status literal, two flags and a message. */
  datatype AuthorizeReply = AuthorizeReply(paymentId: string, status: string, authorized: bool, captured: bool, message: string)

  const ForbiddenMessage: string := "Você não tem permissão para pagar este pedido"
  const NotPayableMessage: string := "Este pedido não pode ser pago"
  const SoftDescriptor: string := "WbraStore"
  const AuthorizedMessage: string := "Pagamento autorizado com sucesso"
  const ConfirmedMessage: string := "Pagamento confirmado com sucesso"
  const DeniedMessage: string := "Pagamento negado"

  /** The statuses an order can be paid from. */
  predicate Payable(s: OrderStatus)
  {
    s == Pending || s == PaymentPending
  }

  /**
   * Why the handler stops before calling the gateway, in its order: no session (401),
   * a body the schema refuses (400), an unknown order (the service's plain error, 500),
   * a caller who is neither an administrator nor the owner (403), an order that is not
   * payable (400). None when the gateway is called.
   */
  function AuthorizeRefusal(t: Tables, session: Option<ApiUtils.SessionUser>,
                            body: Result<AuthorizeInput, seq<ApiUtils.Issue>>): (e: Option<Raised>)
    ensures session.None? ==> e == Some(Thrown(ApiUtils.Api(ApiUtils.Unauthorized(None))))
    ensures session.Some? && body.Err? ==> e == Some(Thrown(ApiUtils.Zod(body.error)))
    ensures session.Some? && body.Ok? && body.value.orderId !in t.orders ==>
      e == Some(Service(Message(OrderService.OrderNotFoundMessage)))
    ensures session.Some? && body.Ok? && body.value.orderId in t.orders
            && session.value.role != Admin && t.orders[body.value.orderId].userId != session.value.id ==>
      e == Some(Thrown(ApiUtils.Api(ApiUtils.NewApiError(ForbiddenMessage, Some(403)))))
    ensures e.None? <==>
      && session.Some? && body.Ok? && body.value.orderId in t.orders
      && (session.value.role == Admin || t.orders[body.value.orderId].userId == session.value.id)
      && Payable(t.orders[body.value.orderId].status)
    ensures (session.Some? && body.Ok? && body.value.orderId in t.orders
             && (session.value.role == Admin || t.orders[body.value.orderId].userId == session.value.id)
             && !Payable(t.orders[body.value.orderId].status)) ==>
      e == Some(Thrown(ApiUtils.Api(ApiUtils.NewApiError(NotPayableMessage, Some(400)))))
  {
    var auth := ApiUtils.RequireAuth(session);
    if auth.Err? then Some(Thrown(auth.error))
    else if body.Err? then Some(Thrown(ApiUtils.Zod(body.error)))
    else
      var found := OrderService.GetOrderById(t.orders, body.value.orderId);
      if found.Err? then Some(Service(found.error))
      else if auth.value.role != Admin && found.value.userId != auth.value.id then
        Some(Thrown(ApiUtils.Api(ApiUtils.NewApiError(ForbiddenMessage, Some(403)))))
      else if !Payable(found.value.status) then
        Some(Thrown(ApiUtils.Api(ApiUtils.NewApiError(NotPayableMessage, Some(400)))))
      else None
  }

  /** What the handler asks the gateway client for: the order total (in cents) and the card, under the store's descriptor. */
  function GatewayRequest(order: Order, input: AuthorizeInput): (r: CieloGateway.PaymentRequest)
    ensures r.orderId == order.id && r.amount == order.total && r.currency.None?
    ensures r.installments == Some(input.installments) && r.capture == Some(input.capture)
    ensures r.softDescriptor == Some(SoftDescriptor) && r.creditCard == input.creditCard && r.customer == input.customer
  {
    CieloGateway.PaymentRequest(
      order.id, order.total, None, Some(input.installments), Some(input.capture),
      Some(SoftDescriptor), input.creditCard, input.customer)
  }

  /** The payment row written for a gateway answer: the mapped status, the order total, a card payment, the diagnostics. */
  function PaymentRow(order: Order, response: CieloGateway.CieloPaymentResponse, brand: CieloGateway.Brand): (p: Payment)
    ensures p.orderId == order.id && p.paymentId == response.paymentId && p.amount == order.total
    ensures p.status == PaymentUtils.MapCieloStatusToPrisma(response.status) && p.paymentMethod == CreditCard
    ensures p.cardBrand == Some(brand) && p.authorizationCode == response.diagnostics.authorizationCode
    ensures p.tid == response.diagnostics.tid && p.proofOfSale == response.diagnostics.proofOfSale
    ensures p.returnCode == response.diagnostics.returnCode && p.returnMessage == response.diagnostics.returnMessage
  {
    Payment(
      order.id, response.paymentId, order.total, PaymentUtils.MapCieloStatusToPrisma(response.status), CreditCard,
      response.diagnostics.authorizationCode, response.diagnostics.tid, response.diagnostics.proofOfSale,
      response.diagnostics.returnCode, response.diagnostics.returnMessage, Some(brand))
  }

  /**
   * The success payload for a gateway answer. The flags and the message test the
   * status literal; the literals of distinct statuses differ, so the tests are written
   * here on the status itself.
   */
  function ReplyOf(response: CieloGateway.CieloPaymentResponse): (r: AuthorizeReply)
    ensures r.paymentId == response.paymentId && r.status == GatewayStatusLiteral(response.status)
    ensures r.authorized <==> r.status == "Authorized" || r.status == "PaymentConfirmed"
    ensures r.captured <==> r.status == "PaymentConfirmed"
    ensures r.message == (if r.status == "Authorized" then AuthorizedMessage
                          else if r.status == "PaymentConfirmed" then ConfirmedMessage else DeniedMessage)
  {
    AuthorizeReply(
      response.paymentId, GatewayStatusLiteral(response.status),
      response.status == GwAuthorized || response.status == PaymentConfirmed,
      response.status == PaymentConfirmed,
      if response.status == GwAuthorized then AuthorizedMessage
      else if response.status == PaymentConfirmed then ConfirmedMessage
      else DeniedMessage)
  }

  /**
   * Everything after the gateway call: a failed call throws and writes nothing; an
   * answer inserts the payment row (refused by the database when the payment id is
   * already stored), then the order goes through the state machine, whose refusal is
   * thrown with the payment row already written.
   */
  function AfterGateway(t: Tables, order: Order, brand: CieloGateway.Brand, outcome: CieloGateway.GatewayResult)
    : (s: Step<AuthorizeReply>)
    ensures outcome.Failed? ==> s == Step(Err(Gateway(outcome.error)), t)
  {
    match outcome
    case Failed(e) => Step(Err(Gateway(e)), t)
    case Answered(response) =>
      var row := PaymentRow(order, response, brand);
      if row.paymentId in t.payments then Step(Err(Service(Db(UniqueViolation))), t)
      else
        var t1 := WithPayment(t, row);
        var update := OrderService.StatusUpdate(t1.orders, order.id, PaymentUtils.MapPaymentStatusToOrderStatus(row.status));
        if update.Err? then Step(Err(Service(update.error)), t1)
        else Step(Ok(ReplyOf(response)), t1.(orders := t1.orders[order.id := update.value]))
  }

  /** The whole try block: what it returns or throws, and the tables afterwards. */
  function AuthorizeSpec(t: Tables, session: Option<ApiUtils.SessionUser>,
                         body: Result<AuthorizeInput, seq<ApiUtils.Issue>>,
                         gateway: CieloGateway.PaymentRequest -> CieloGateway.GatewayResult): (s: Step<AuthorizeReply>)
    ensures AuthorizeRefusal(t, session, body).Some? ==> s == Step(Err(AuthorizeRefusal(t, session, body).value), t)
  {
    var refusal := AuthorizeRefusal(t, session, body);
    if refusal.Some? then Step(Err(refusal.value), t)
    else
      var order := t.orders[body.value.orderId];
      AfterGateway(t, order, body.value.creditCard.brand, gateway(GatewayRequest(order, body.value)))
  }

  /** The try block, step by step; `sent` is the request handed to the gateway client (None: it was not called). */
  method Handle(db: Database, session: Option<ApiUtils.SessionUser>, body: Result<AuthorizeInput, seq<ApiUtils.Issue>>,
                gateway: CieloGateway.PaymentRequest -> CieloGateway.GatewayResult)
    returns (result: Result<AuthorizeReply, Raised>, sent: Option<CieloGateway.PaymentRequest>)
    requires Consistent(db.State())
    modifies db
    ensures Consistent(db.State())
    ensures sent.Some? <==> AuthorizeRefusal(old(db.State()), session, body).None?
    ensures sent.Some? ==> sent.value == GatewayRequest(old(db.orders)[body.value.orderId], body.value)
    ensures result == AuthorizeSpec(old(db.State()), session, body, gateway).result
    ensures db.State() == AuthorizeSpec(old(db.State()), session, body, gateway).tables
  {
    var auth := ApiUtils.RequireAuth(session);
    if auth.Err? {
      return Err(Thrown(auth.error)), None;
    }
    if body.Err? {
      return Err(Thrown(ApiUtils.Zod(body.error))), None;
    }
    var input := body.value;
    var found := OrderService.GetOrderById(db.orders, input.orderId);
    if found.Err? {
      return Err(Service(found.error)), None;
    }
    var order := found.value;
    if auth.value.role != Admin && order.userId != auth.value.id {
      return Err(Thrown(ApiUtils.Api(ApiUtils.NewApiError(ForbiddenMessage, Some(403))))), None;
    }
    if order.status != Pending && order.status != PaymentPending {
      return Err(Thrown(ApiUtils.Api(ApiUtils.NewApiError(NotPayableMessage, Some(400))))), None;
    }
    var request := GatewayRequest(order, input);
    sent := Some(request);
    var outcome := gateway(request);
    if outcome.Failed? {
      return Err(Gateway(outcome.error)), sent;
    }
    result := Record(db, order, input.creditCard.brand, outcome);
  }

  /** The part after the gateway call: the payment insert, then the order's move through the state machine. */
  method Record(db: Database, order: Order, brand: CieloGateway.Brand, outcome: CieloGateway.GatewayResult)
    returns (result: Result<AuthorizeReply, Raised>)
    requires Consistent(db.State()) && order.id in db.orders && db.orders[order.id] == order
    modifies db
    ensures Consistent(db.State())
    ensures result == AfterGateway(old(db.State()), order, brand, outcome).result
    ensures db.State() == AfterGateway(old(db.State()), order, brand, outcome).tables
  {
    if outcome.Failed? {
      return Err(Gateway(outcome.error));
    }
    var row := PaymentRow(order, outcome.response, brand);
    if row.paymentId in db.payments {
      return Err(Service(Db(UniqueViolation)));
    }
    WithPaymentConsistent(db.State(), row);
    InsertPayment(db, row);
    var updated := OrderService.UpdateOrderStatus(db, order.id, PaymentUtils.MapPaymentStatusToOrderStatus(row.status));
    if updated.Err? {
      return Err(Service(updated.error));
    }
    result := Ok(ReplyOf(outcome.response));
  }

  /** POST: the try block, then the catch block's response. */
  method Post(db: Database, session: Option<ApiUtils.SessionUser>, body: Result<AuthorizeInput, seq<ApiUtils.Issue>>,
              gateway: CieloGateway.PaymentRequest -> CieloGateway.GatewayResult)
    returns (resp: ApiUtils.ApiResponse<AuthorizeReply>, sent: Option<CieloGateway.PaymentRequest>)
    requires Consistent(db.State())
    modifies db
    ensures Consistent(db.State())
    ensures sent.Some? <==> AuthorizeRefusal(old(db.State()), session, body).None?
    ensures resp == ResponseOf(AuthorizeSpec(old(db.State()), session, body, gateway).result)
    ensures db.State() == AuthorizeSpec(old(db.State()), session, body, gateway).tables
  {
    var result;
    result, sent := Handle(db, session, body, gateway);
    resp := Respond(result);
  }

  // ------------------------------------------------------------------- properties

  /** A caller who is neither an administrator nor the owner gets 403, and nothing is written or sent. */
  lemma NonOwnerIsForbidden(t: Tables, user: ApiUtils.SessionUser, input: AuthorizeInput,
                            gateway: CieloGateway.PaymentRequest -> CieloGateway.GatewayResult)
    requires input.orderId in t.orders && user.role != Admin && t.orders[input.orderId].userId != user.id
    ensures var s := AuthorizeSpec(t, Some(user), Ok(input), gateway);
      && s.tables == t
      && ResponseOf(s.result).ErrorResponse? && ResponseOf(s.result).status == 403
      && AuthorizeRefusal(t, Some(user), Ok(input)).Some?
  {
  }

  /**
   * An admin or the order's owner who tries to pay an order that is not PENDING or
   * PAYMENT_PENDING gets 400, and nothing is written or sent.
   */
  lemma UnpayableOrderIsRefused(t: Tables, user: ApiUtils.SessionUser, input: AuthorizeInput,
                                gateway: CieloGateway.PaymentRequest -> CieloGateway.GatewayResult)
    requires input.orderId in t.orders && !Payable(t.orders[input.orderId].status)
    requires user.role == Admin || t.orders[input.orderId].userId == user.id
    ensures var s := AuthorizeSpec(t, Some(user), Ok(input), gateway);
      && s.tables == t
      && ResponseOf(s.result).ErrorResponse?
      && ResponseOf(s.result).status == 400
      && AuthorizeRefusal(t, Some(user), Ok(input)).Some?
  {
  }

  /** An unknown order is the service's plain error, which the catch block answers with 500. */
  lemma UnknownOrderIs500(t: Tables, user: ApiUtils.SessionUser, input: AuthorizeInput,
                          gateway: CieloGateway.PaymentRequest -> CieloGateway.GatewayResult)
    requires input.orderId !in t.orders
    ensures var s := AuthorizeSpec(t, Some(user), Ok(input), gateway);
      && s.tables == t
      && ResponseOf(s.result) == ApiUtils.ErrorResponse(500, ApiUtils.InternalErrorMessage, Some("INTERNAL_ERROR"), None)
  {
    UnexpectedErrorsAre500<AuthorizeReply>(Service(Message(OrderService.OrderNotFoundMessage)));
  }

  /**
   * Once the guards pass and the gateway answers with a payment id not yet stored,
   * exactly that one payment row is added, with the mapped status, the order total and
   * a card method, whether or not the order update then succeeds; no other payment
   * changes, and no other order does.
   */
  lemma AnswerWritesOnePayment(t: Tables, user: ApiUtils.SessionUser, input: AuthorizeInput,
                               gateway: CieloGateway.PaymentRequest -> CieloGateway.GatewayResult)
    requires Consistent(t)
    requires AuthorizeRefusal(t, Some(user), Ok(input)).None?
    requires gateway(GatewayRequest(t.orders[input.orderId], input)).Answered?
    requires gateway(GatewayRequest(t.orders[input.orderId], input)).response.paymentId !in t.payments
    ensures var order := t.orders[input.orderId];
      var response := gateway(GatewayRequest(order, input)).response;
      var s := AuthorizeSpec(t, Some(user), Ok(input), gateway);
      && s.tables.payments == t.payments[response.paymentId := PaymentRow(order, response, input.creditCard.brand)]
      && s.tables.payments[response.paymentId].status == PaymentUtils.MapCieloStatusToPrisma(response.status)
      && s.tables.payments[response.paymentId].amount == order.total
      && s.tables.payments[response.paymentId].paymentMethod == CreditCard
      && s.tables.orders.Keys == t.orders.Keys
      && (forall k :: k in t.orders && k != input.orderId ==> s.tables.orders[k] == t.orders[k])
      && s.tables.products == t.products && s.tables.carts == t.carts && s.tables.users == t.users
  {
    var order := t.orders[input.orderId];
    var outcome := gateway(GatewayRequest(order, input));
    assert order.id == input.orderId;
    assert AuthorizeSpec(t, Some(user), Ok(input), gateway) == AfterGateway(t, order, input.creditCard.brand, outcome);
    AnswerAddsRow(t, order, input.creditCard.brand, outcome.response);
  }

  lemma AnswerAddsRow(t: Tables, order: Order, brand: CieloGateway.Brand, response: CieloGateway.CieloPaymentResponse)
    requires order.id in t.orders && response.paymentId !in t.payments
    ensures var s := AfterGateway(t, order, brand, CieloGateway.Answered(response));
      && s.tables.payments == t.payments[response.paymentId := PaymentRow(order, response, brand)]
      && s.tables.orders.Keys == t.orders.Keys
      && (forall k :: k in t.orders && k != order.id ==> s.tables.orders[k] == t.orders[k])
      && s.tables.products == t.products && s.tables.carts == t.carts && s.tables.users == t.users
  {
    var row := PaymentRow(order, response, brand);
    var t1 := WithPayment(t, row);
    var s := AfterGateway(t, order, brand, CieloGateway.Answered(response));
    var update := OrderService.StatusUpdate(t1.orders, order.id, PaymentUtils.MapPaymentStatusToOrderStatus(row.status));
    if update.Err? {
      assert s.tables == t1;
    } else {
      assert s.tables == t1.(orders := t.orders[order.id := update.value]);
    }
  }

  /**
   * The handler succeeds exactly when the guards pass, the gateway answers with a new
   * payment id, and the state machine allows the move from the order's status to the
   * one the gateway status implies; the order then holds that status.
   */
  lemma AuthorizeSucceeds(t: Tables, user: ApiUtils.SessionUser, input: AuthorizeInput,
                          gateway: CieloGateway.PaymentRequest -> CieloGateway.GatewayResult)
    requires Consistent(t)
    ensures var s := AuthorizeSpec(t, Some(user), Ok(input), gateway);
      s.result.Ok? <==>
        && AuthorizeRefusal(t, Some(user), Ok(input)).None?
        && gateway(GatewayRequest(t.orders[input.orderId], input)).Answered?
        && gateway(GatewayRequest(t.orders[input.orderId], input)).response.paymentId !in t.payments
        && OrderService.CanTransition(t.orders[input.orderId].status,
             PaymentUtils.OrderStatusForGateway(gateway(GatewayRequest(t.orders[input.orderId], input)).response.status))
    ensures var s := AuthorizeSpec(t, Some(user), Ok(input), gateway);
      s.result.Ok? ==>
        var g := gateway(GatewayRequest(t.orders[input.orderId], input)).response.status;
        && s.tables.orders[input.orderId].status == PaymentUtils.OrderStatusForGateway(g)
        && s.tables.payments[s.result.value.paymentId].status == PaymentUtils.MapCieloStatusToPrisma(g)
  {
    var s := AuthorizeSpec(t, Some(user), Ok(input), gateway);
    if AuthorizeRefusal(t, Some(user), Ok(input)).None? {
      var order := t.orders[input.orderId];
      var outcome := gateway(GatewayRequest(order, input));
      if outcome.Answered? && outcome.response.paymentId !in t.payments {
        var row := PaymentRow(order, outcome.response, input.creditCard.brand);
        assert WithPayment(t, row).orders == t.orders;
      }
    }
  }

  /**
   * The flags agree with the order's new status on success: `authorized` exactly when
   * the order is now PAYMENT_PENDING or PAID, `captured` exactly when it is PAID, and
   * the message names the outcome.
   */
  lemma ReplyMatchesOrder(t: Tables, user: ApiUtils.SessionUser, input: AuthorizeInput,
                          gateway: CieloGateway.PaymentRequest -> CieloGateway.GatewayResult)
    requires Consistent(t)
    requires AuthorizeSpec(t, Some(user), Ok(input), gateway).result.Ok?
    ensures var s := AuthorizeSpec(t, Some(user), Ok(input), gateway);
      var o := s.tables.orders[input.orderId].status;
      && (s.result.value.authorized <==> o == PaymentPending || o == Paid)
      && (s.result.value.captured <==> o == Paid)
      && (s.result.value.message == AuthorizedMessage <==> o == PaymentPending)
      && (s.result.value.message == ConfirmedMessage <==> o == Paid)
  {
    AuthorizeSucceeds(t, user, input, gateway);
  }

  /**
   * The state machine is strict on this path: a PAYMENT_PENDING order authorized again,
   * or a PENDING order whose payment is confirmed at once, throws (500) after the
   * payment row was written, and the order keeps its status.
   */
  lemma StrictTransitionAfterInsert(t: Tables, user: ApiUtils.SessionUser, input: AuthorizeInput,
                                    gateway: CieloGateway.PaymentRequest -> CieloGateway.GatewayResult)
    requires Consistent(t)
    requires AuthorizeRefusal(t, Some(user), Ok(input)).None?
    requires gateway(GatewayRequest(t.orders[input.orderId], input)).Answered?
    requires gateway(GatewayRequest(t.orders[input.orderId], input)).response.paymentId !in t.payments
    requires var g := gateway(GatewayRequest(t.orders[input.orderId], input)).response.status;
      (t.orders[input.orderId].status == PaymentPending && g == GwAuthorized)
      || (t.orders[input.orderId].status == Pending && g == PaymentConfirmed)
      || g in {NotFinished, GwPending, GwScheduled}
    ensures var s := AuthorizeSpec(t, Some(user), Ok(input), gateway);
      var pid := gateway(GatewayRequest(t.orders[input.orderId], input)).response.paymentId;
      && s.result.Err?
      && ResponseOf(s.result).status == 500
      && pid in s.tables.payments && pid !in t.payments
      && s.tables.orders == t.orders
  {
    var order := t.orders[input.orderId];
    var response := gateway(GatewayRequest(order, input)).response;
    var row := PaymentRow(order, response, input.creditCard.brand);
    assert WithPayment(t, row).orders == t.orders;
    OrderService.StateMachineShape(order.status, PaymentUtils.OrderStatusForGateway(response.status));
    UnexpectedErrorsAre500<AuthorizeReply>(AuthorizeSpec(t, Some(user), Ok(input), gateway).result.error);
  }
}
