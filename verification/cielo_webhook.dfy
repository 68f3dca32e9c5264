/**
 * POST /api/webhooks/cielo: the gateway's notification that a payment changed. The
 * handler trusts nothing in the notification but the payment id: it asks the gateway
 * for the payment's status, overwrites the stored payment status with the mapped one,
 * and overwrites the order's status, bypassing the state machine, when the status the
 * payment implies differs from the order's. Whatever happens inside, the gateway gets
 * an acknowledgement. The status query is a parameter (`query`).
 */
module CieloWebhook {
  import opened Common
  import opened Enums
  import opened Store
  import opened HandlerOutcome
  import ApiUtils
  import CieloGateway
  import PaymentUtils
  import OrderService
  import AuthorizeRoute
  import CaptureRoute

  /** The notification body: the payment id and a change type the handler reads but never uses. */
  datatype Notification = Notification(paymentId: Option<string>, changeType: Option<int>)

  /** The acknowledgement the gateway always receives. */
  datatype Ack = Ack(received: bool)

  /** The stored payment the notification names, if it names one. */
  function NotifiedPayment(t: Tables, n: Notification): (p: Option<Payment>)
    ensures p.Some? <==> Truthy(n.paymentId) && n.paymentId.value in t.payments
    ensures p.Some? ==> p.value == t.payments[n.paymentId.value]
  {
    if Truthy(n.paymentId) && n.paymentId.value in t.payments then Some(t.payments[n.paymentId.value]) else None
  }

  /**
   * The reconciliation with the gateway's answer: the payment takes the mapped status,
   * and the order takes the status that implies when it differs from the order's
   * current one.
   */
  function Reconciled(t: Tables, p: Payment, g: GatewayStatus): (u: Tables)
    requires Consistent(t) && p.paymentId in t.payments && p.orderId in t.orders
  {
    var status := PaymentUtils.MapCieloStatusToPrisma(g);
    var target := PaymentUtils.MapPaymentStatusToOrderStatus(status);
    var t1 := WithPaymentStatus(t, p.paymentId, status);
    if target != t.orders[p.orderId].status then WithOrderStatus(t1, p.orderId, target) else t1
  }

  /**
   * The tables after one notification: unchanged when the notification names no stored
   * payment or the status query fails (the failure is swallowed), reconciled otherwise.
   */
  function WebhookSpec(t: Tables, n: Notification, query: string -> CieloGateway.GatewayResult): (u: Tables)
    requires Consistent(t)
  {
    var p := NotifiedPayment(t, n);
    if p.None? then t
    else
      var outcome := query(p.value.paymentId);
      if outcome.Failed? then t else Reconciled(t, p.value, outcome.response.status)
  }

  /** The payment id the gateway is asked about, if any. */
  function Queried(t: Tables, n: Notification): (q: Option<string>)
    ensures q.Some? <==> NotifiedPayment(t, n).Some?
    ensures q.Some? ==> q.value == n.paymentId.value
  {
    if NotifiedPayment(t, n).Some? then Some(n.paymentId.value) else None
  }

  /**
   * POST: a body that is not JSON reaches the outer catch block and gets the generic
   * error response; every parsed notification is acknowledged, whatever happens to the
   * status query. `queried` is the payment id sent to the status query (None: no query).
   */
  method Post(db: Database, body: Option<Notification>, query: string -> CieloGateway.GatewayResult)
    returns (resp: ApiUtils.ApiResponse<Ack>, queried: Option<string>)
    requires Consistent(db.State())
    modifies db
    ensures Consistent(db.State())
    ensures body.None? ==>
      resp == ApiUtils.ErrorResponseOf(ApiUtils.Plain("")) && queried.None? && db.State() == old(db.State())
    ensures body.Some? ==> resp == ApiUtils.Success(Ack(true))
    ensures body.Some? ==> queried == Queried(old(db.State()), body.value)
    ensures body.Some? ==> db.State() == WebhookSpec(old(db.State()), body.value, query)
  {
    if body.None? {
      resp := ApiUtils.ErrorResponseFor(ApiUtils.Plain(""));
      return resp, None;
    }
    var n := body.value;
    resp := ApiUtils.Success(Ack(true));
    if !Truthy(n.paymentId) {
      return resp, None;
    }
    var paymentId := n.paymentId.value;
    if paymentId !in db.payments {
      return resp, None;
    }
    var payment := db.payments[paymentId];
    queried := Some(paymentId);
    var outcome := query(paymentId);
    if outcome.Failed? {
      return;
    }
    Reconcile(db, payment, outcome.response.status);
  }

  /** The two writes after an answered query: the payment's status, then the order's when it changes. */
  method Reconcile(db: Database, payment: Payment, g: GatewayStatus)
    requires Consistent(db.State()) && payment.paymentId in db.payments && payment.orderId in db.orders
    modifies db
    ensures Consistent(db.State())
    ensures db.State() == Reconciled(old(db.State()), payment, g)
  {
    ReconciledEffect(db.State(), payment, g);
    var order := db.orders[payment.orderId];
    var status := PaymentUtils.MapCieloStatusToPrisma(g);
    WritePaymentStatus(db, payment.paymentId, status);
    var target := PaymentUtils.MapPaymentStatusToOrderStatus(status);
    if target != order.status {
      WriteOrderStatus(db, payment.orderId, target);
    }
  }

  // ------------------------------------------------------------------- properties

  /** Reconciliation keeps the tables consistent and touches one payment and at most one order. */
  lemma ReconciledEffect(t: Tables, p: Payment, g: GatewayStatus)
    requires Consistent(t) && p.paymentId in t.payments && p.orderId in t.orders
    ensures var u := Reconciled(t, p, g);
      && Consistent(u)
      && u.payments == t.payments[p.paymentId := t.payments[p.paymentId].(status := PaymentUtils.MapCieloStatusToPrisma(g))]
      && u.orders == t.orders[p.orderId := t.orders[p.orderId].(status := PaymentUtils.OrderStatusForGateway(g))]
      && u.products == t.products && u.carts == t.carts && u.users == t.users && u.categories == t.categories
  {
    var status := PaymentUtils.MapCieloStatusToPrisma(g);
    var target := PaymentUtils.OrderStatusForGateway(g);
    var t1 := WithPaymentStatus(t, p.paymentId, status);
    PaymentStatusWriteConsistent(t, p.paymentId, status);
    assert t1.orders == t.orders;
    var u := Reconciled(t, p, g);
    if target != t.orders[p.orderId].status {
      OrderStatusWriteConsistent(t1, p.orderId, target);
      assert u == WithOrderStatus(t1, p.orderId, target);
    } else {
      assert u == t1;
      assert t.orders[p.orderId := t.orders[p.orderId].(status := target)] == t.orders;
    }
  }

  /** A notification without a payment id, or naming an unknown payment, is acknowledged with no query and no write. */
  lemma UnknownPaymentWritesNothing(t: Tables, n: Notification, query: string -> CieloGateway.GatewayResult)
    requires Consistent(t)
    requires !Truthy(n.paymentId) || n.paymentId.value !in t.payments
    ensures WebhookSpec(t, n, query) == t && Queried(t, n).None?
  {
  }

  /** A failed status query is swallowed: nothing is written. */
  lemma QueryFailureWritesNothing(t: Tables, n: Notification, query: string -> CieloGateway.GatewayResult)
    requires Consistent(t) && Truthy(n.paymentId) && n.paymentId.value in t.payments
    requires query(n.paymentId.value).Failed?
    ensures WebhookSpec(t, n, query) == t
  {
  }

  /** The result depends on the stored tables and the query's answer only, never on the change type. */
  lemma ChangeTypeIsIgnored(t: Tables, n: Notification, c: Option<int>, query: string -> CieloGateway.GatewayResult)
    requires Consistent(t)
    ensures WebhookSpec(t, n, query) == WebhookSpec(t, n.(changeType := c), query)
  {
  }

  /**
   * After a notification the gateway answered, the payment holds the mapped status and
   * the order the status that implies, whatever the order's status was: the state
   * machine is not consulted, so even a DELIVERED order becomes CANCELLED when the
   * gateway reports the payment voided.
   */
  lemma WebhookConverges(t: Tables, n: Notification, query: string -> CieloGateway.GatewayResult)
    requires Consistent(t) && Truthy(n.paymentId) && n.paymentId.value in t.payments
    requires query(n.paymentId.value).Answered?
    ensures var p := t.payments[n.paymentId.value];
      var g := query(n.paymentId.value).response.status;
      var u := WebhookSpec(t, n, query);
      && Consistent(u)
      && p.paymentId in u.payments && p.orderId in t.orders && p.orderId in u.orders
      && u.payments[p.paymentId].status == PaymentUtils.MapCieloStatusToPrisma(g)
      && u.orders[p.orderId].status == PaymentUtils.OrderStatusForGateway(g)
      && (t.orders[p.orderId].status == Delivered && g == GwVoided ==>
            u.orders[p.orderId].status == Cancelled && !OrderService.CanTransition(Delivered, Cancelled))
  {
    var id := n.paymentId.value;
    var p := t.payments[id];
    var g := query(id).response.status;
    NotifiedAndAnswered(t, n, query);
    ReconciledStatuses(t, p, g);
    OrderService.DeliveredOnlyRefunds(Cancelled);
  }

  /** A notification naming a stored payment, with the query answered, is reconciled with that answer. */
  lemma NotifiedAndAnswered(t: Tables, n: Notification, query: string -> CieloGateway.GatewayResult)
    requires Consistent(t) && Truthy(n.paymentId) && n.paymentId.value in t.payments
    requires query(n.paymentId.value).Answered?
    ensures var p := t.payments[n.paymentId.value];
      && p.paymentId == n.paymentId.value && p.orderId in t.orders
      && WebhookSpec(t, n, query) == Reconciled(t, p, query(n.paymentId.value).response.status)
  {
  }

  lemma ReconciledStatuses(t: Tables, p: Payment, g: GatewayStatus)
    requires Consistent(t) && p.paymentId in t.payments && p.orderId in t.orders
    requires t.payments[p.paymentId] == p
    ensures var u := Reconciled(t, p, g);
      && Consistent(u)
      && p.paymentId in u.payments && p.orderId in u.orders
      && u.payments[p.paymentId] == p.(status := PaymentUtils.MapCieloStatusToPrisma(g))
      && u.orders[p.orderId].status == PaymentUtils.OrderStatusForGateway(g)
  {
    ReconciledEffect(t, p, g);
  }

  /**
   * Idempotence: a second delivery of the same notification, with the gateway still
   * reporting the same status, changes nothing.
   */
  lemma {:induction false} WebhookIdempotent(t: Tables, n: Notification, query: string -> CieloGateway.GatewayResult)
    requires Consistent(t)
    ensures Consistent(WebhookSpec(t, n, query))
    ensures WebhookSpec(WebhookSpec(t, n, query), n, query) == WebhookSpec(t, n, query)
  {
    var p := NotifiedPayment(t, n);
    if p.Some? && query(p.value.paymentId).Answered? {
      var g := query(p.value.paymentId).response.status;
      var u := Reconciled(t, p.value, g);
      assert WebhookSpec(t, n, query) == u;
      ReconciledStatuses(t, p.value, g);
      var q := u.payments[p.value.paymentId];
      assert NotifiedPayment(u, n) == Some(q);
      assert WebhookSpec(u, n, query) == Reconciled(u, q, g);
      ReconciledFixedPoint(u, q, g);
    }
  }

  /** A payment and order that already hold what the gateway status implies are a fixed point of reconciliation. */
  lemma ReconciledFixedPoint(t: Tables, p: Payment, g: GatewayStatus)
    requires Consistent(t) && p.paymentId in t.payments && p.orderId in t.orders
    requires t.payments[p.paymentId].status == PaymentUtils.MapCieloStatusToPrisma(g)
    requires t.orders[p.orderId].status == PaymentUtils.OrderStatusForGateway(g)
    ensures Reconciled(t, p, g) == t
  {
    var t1 := WithPaymentStatus(t, p.paymentId, PaymentUtils.MapCieloStatusToPrisma(g));
    assert t1.payments == t.payments;
  }

  /**
   * The synchronous and asynchronous paths agree: after a successful authorization, a
   * notification for the new payment whose query reports the status the authorization
   * reported changes nothing.
   */
  lemma WebhookAfterAuthorize(t: Tables, user: ApiUtils.SessionUser, input: AuthorizeRoute.AuthorizeInput,
                              gateway: CieloGateway.PaymentRequest -> CieloGateway.GatewayResult,
                              query: string -> CieloGateway.GatewayResult, c: Option<int>)
    requires Consistent(t)
    requires AuthorizeRoute.AuthorizeSpec(t, Some(user), Ok(input), gateway).result.Ok?
    requires var response := gateway(AuthorizeRoute.GatewayRequest(t.orders[input.orderId], input)).response;
      query(response.paymentId) == CieloGateway.Answered(response)
    ensures var s := AuthorizeRoute.AuthorizeSpec(t, Some(user), Ok(input), gateway);
      var pid := s.result.value.paymentId;
      && Consistent(s.tables)
      && WebhookSpec(s.tables, Notification(Some(pid), c), query) == s.tables
  {
    var s := AuthorizeRoute.AuthorizeSpec(t, Some(user), Ok(input), gateway);
    var order := t.orders[input.orderId];
    var response := gateway(AuthorizeRoute.GatewayRequest(order, input)).response;
    AuthorizeRoute.AuthorizeSucceeds(t, user, input, gateway);
    AuthorizeRoute.AnswerWritesOnePayment(t, user, input, gateway);
    var row := AuthorizeRoute.PaymentRow(order, response, input.creditCard.brand);
    var t1 := WithPayment(t, row);
    WithPaymentConsistent(t, row);
    OrderStatusWriteConsistent(t1, order.id, PaymentUtils.OrderStatusForGateway(response.status));
    assert s.tables == WithOrderStatus(t1, order.id, PaymentUtils.OrderStatusForGateway(response.status));
    if response.paymentId != "" {
      ReconciledFixedPoint(s.tables, s.tables.payments[response.paymentId], response.status);
    }
  }

  /**
   * Likewise after a capture the gateway confirmed: a notification whose query reports
   * the payment confirmed changes nothing.
   */
  lemma WebhookAfterConfirmedCapture(t: Tables, user: ApiUtils.SessionUser, input: CaptureRoute.CaptureInput,
                                     gateway: CieloGateway.CaptureRequest -> CieloGateway.GatewayResult,
                                     query: string -> CieloGateway.GatewayResult, c: Option<int>)
    requires Consistent(t)
    requires CaptureRoute.CaptureRefusal(t, Some(user), Ok(input)).None?
    requires gateway(CieloGateway.CaptureRequest(input.paymentId, input.amount)).Answered?
    requires gateway(CieloGateway.CaptureRequest(input.paymentId, input.amount)).response.status == PaymentConfirmed
    requires query(input.paymentId).Answered? && query(input.paymentId).response.status == PaymentConfirmed
    ensures var s := CaptureRoute.CaptureSpec(t, Some(user), Ok(input), gateway);
      && Consistent(s.tables)
      && WebhookSpec(s.tables, Notification(Some(input.paymentId), c), query) == s.tables
  {
    var s := CaptureRoute.CaptureSpec(t, Some(user), Ok(input), gateway);
    var p := t.payments[input.paymentId];
    CaptureRoute.CaptureEffect(t, user, input, gateway);
    PaymentStatusWriteConsistent(t, p.paymentId, PaidPayment);
    OrderStatusWriteConsistent(WithPaymentStatus(t, p.paymentId, PaidPayment), p.orderId, Paid);
    assert s.tables == WithOrderStatus(WithPaymentStatus(t, p.paymentId, PaidPayment), p.orderId, Paid);
    if input.paymentId != "" {
      ReconciledFixedPoint(s.tables, s.tables.payments[input.paymentId], PaymentConfirmed);
    }
  }
}
