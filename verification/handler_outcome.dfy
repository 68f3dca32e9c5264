/**
 * What the payment request handlers share: the values their `try` block can throw, how
 * the `catch` block turns them into a response, a handler step's outcome on the tables,
 * and the single-row writes the handlers make.
 */
module HandlerOutcome {
  import opened Common
  import opened Enums
  import opened Store
  import ApiUtils
  import CieloGateway

  /**
   * A value thrown inside a handler: one the HTTP layer knows (an `ApiError` or a
   * schema error), a service or database error, or the gateway client's error.
   */
  datatype Raised =
    | Thrown(thrown: ApiUtils.Thrown)
    | Service(failure: Failure)
    | Gateway(error: CieloGateway.GatewayError)

  /**
   * How the HTTP layer sees a raised value. Service, database and gateway errors are
   * none of its classes; their message does not reach the response, and the database's
   * and the network's own messages are not modelled (empty here).
   */
  function ThrownOf(r: Raised): (t: ApiUtils.Thrown)
    ensures r.Thrown? ==> t == r.thrown
    ensures !r.Thrown? ==> t.Plain?
  {
    match r
    case Thrown(t) => t
    case Service(Message(m)) => ApiUtils.Plain(m)
    case Service(Db(_)) => ApiUtils.Plain("")
    case Gateway(e) =>
      if e.MissingCredentials? then ApiUtils.Plain(CieloGateway.MissingCredentialsMessage)
      else if e.Rejected? then ApiUtils.Plain(e.error.message)
      else ApiUtils.Plain("")
  }

  /** The response a handler sends for its outcome: the success envelope or the catch block's error response. */
  function ResponseOf<T>(result: Result<T, Raised>): (resp: ApiUtils.ApiResponse<T>)
    ensures result.Ok? ==> resp == ApiUtils.Success(result.value)
    ensures result.Err? ==> resp == ApiUtils.ErrorResponseOf(ThrownOf(result.error))
  {
    if result.Ok? then ApiUtils.Success(result.value) else ApiUtils.ErrorResponseOf(ThrownOf(result.error))
  }

  /**
   * Errors from the services, the database and the gateway all leave the handler as
   * the generic 500 response: the caller never sees the gateway's code or message.
   */
  lemma UnexpectedErrorsAre500<T>(e: Raised)
    requires !e.Thrown?
    ensures ResponseOf<T>(Err(e)) ==
      ApiUtils.ErrorResponse(500, ApiUtils.InternalErrorMessage, Some("INTERNAL_ERROR"), None)
  {
  }

  /** The catch block around a handler's try block. */
  method Respond<T>(result: Result<T, Raised>) returns (resp: ApiUtils.ApiResponse<T>)
    ensures resp == ResponseOf(result)
  {
    if result.Ok? {
      resp := ApiUtils.Success(result.value);
    } else {
      resp := ApiUtils.ErrorResponseFor(ThrownOf(result.error));
    }
  }

  /** One handler call on the tables: what it returned or threw, and the tables afterwards. */
  datatype Step<T> = Step(result: Result<T, Raised>, tables: Tables)

  /** The tables after a payment row is written under its gateway payment id. */
  function WithPayment(t: Tables, p: Payment): (u: Tables)
    ensures u.(payments := t.payments) == t
    ensures u.payments.Keys == t.payments.Keys + {p.paymentId}
    ensures u.payments[p.paymentId] == p
    ensures forall k :: k in t.payments && k != p.paymentId ==> u.payments[k] == t.payments[k]
  {
    t.(payments := t.payments[p.paymentId := p])
  }

  /** The tables after one order's status is overwritten; an unknown order leaves them as they are. */
  function WithOrderStatus(t: Tables, orderId: string, s: OrderStatus): (u: Tables)
    ensures u.(orders := t.orders) == t
    ensures u.orders.Keys == t.orders.Keys
    ensures orderId in t.orders ==>
      u.orders[orderId].status == s && u.orders[orderId].(status := t.orders[orderId].status) == t.orders[orderId]
    ensures forall k :: k in t.orders && k != orderId ==> u.orders[k] == t.orders[k]
  {
    if orderId in t.orders then t.(orders := t.orders[orderId := t.orders[orderId].(status := s)]) else t
  }

  /** The tables after one payment's status is overwritten. */
  function WithPaymentStatus(t: Tables, paymentId: string, s: PaymentStatus): (u: Tables)
    ensures u.(payments := t.payments) == t
    ensures u.payments.Keys == t.payments.Keys
    ensures paymentId in t.payments ==>
      u.payments[paymentId].status == s && u.payments[paymentId].(status := t.payments[paymentId].status) == t.payments[paymentId]
    ensures forall k :: k in t.payments && k != paymentId ==> u.payments[k] == t.payments[k]
  {
    if paymentId in t.payments then t.(payments := t.payments[paymentId := t.payments[paymentId].(status := s)]) else t
  }

  /** `prisma.payment.create` of a row under an id not yet taken. */
  method InsertPayment(db: Database, p: Payment)
    requires p.paymentId !in db.payments
    modifies db
    ensures db.State() == WithPayment(old(db.State()), p)
  {
    db.payments := db.payments[p.paymentId := p];
  }

  /** `prisma.order.update` of the status alone, on a row that exists. */
  method WriteOrderStatus(db: Database, orderId: string, s: OrderStatus)
    requires orderId in db.orders
    modifies db
    ensures db.State() == WithOrderStatus(old(db.State()), orderId, s)
  {
    db.orders := db.orders[orderId := db.orders[orderId].(status := s)];
  }

  /** `prisma.payment.update` of the status alone; the handlers write only payments they have just read. */
  method WritePaymentStatus(db: Database, paymentId: string, s: PaymentStatus)
    modifies db
    ensures db.State() == WithPaymentStatus(old(db.State()), paymentId, s)
  {
    if paymentId in db.payments {
      db.payments := db.payments[paymentId := db.payments[paymentId].(status := s)];
    }
  }

  /** A payment row for an existing order, under its own id, keeps the tables consistent. */
  lemma WithPaymentConsistent(t: Tables, p: Payment)
    requires Consistent(t) && p.orderId in t.orders
    ensures Consistent(WithPayment(t, p))
  {
  }

  /** A status write touches no key and no reference. */
  lemma OrderStatusWriteConsistent(t: Tables, orderId: string, o: OrderStatus)
    requires Consistent(t)
    ensures Consistent(WithOrderStatus(t, orderId, o))
  {
    var u := WithOrderStatus(t, orderId, o);
    assert u.orders.Keys == t.orders.Keys;
    assert forall k :: k in u.orders ==> u.orders[k].id == t.orders[k].id;
  }

  lemma PaymentStatusWriteConsistent(t: Tables, paymentId: string, s: PaymentStatus)
    requires Consistent(t)
    ensures Consistent(WithPaymentStatus(t, paymentId, s))
  {
    if paymentId in t.payments {
      var ps := t.payments[paymentId := t.payments[paymentId].(status := s)];
      forall k | k in ps ensures ps[k].paymentId == k && ps[k].orderId in t.orders {
        assert ps[k].paymentId == t.payments[k].paymentId && ps[k].orderId == t.payments[k].orderId;
      }
      PaymentsReplaced(t, ps);
    }
  }
}
