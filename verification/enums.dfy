/**
 * The enumerations the storefront stores and exchanges: the order lifecycle, the stored
 * payment status and method, the gateway's payment status and the user roles.
 * Each comes with the literal the database or the gateway uses for it.
 */
module Enums {

  /** Order lifecycle, as stored on the order row. */
  datatype OrderStatus =
    | Pending | PaymentPending | Paid | Processing | Shipped | Delivered | Cancelled | Refunded

  /** Status of a stored payment row (the database enumeration). */
  datatype PaymentStatus =
    | PendingPayment | Authorized | PaidPayment | Denied | Voided | RefundedPayment
    | Aborted | Scheduled | PendingRefund

  /** Status reported by the card gateway, after its numeric code has been decoded. */
  datatype GatewayStatus =
    | NotFinished | GwAuthorized | PaymentConfirmed | GwDenied | GwVoided | GwRefunded
    | GwPending | GwAborted | GwScheduled

  datatype PaymentMethod = CreditCard

  datatype UserRole = Admin | Seller | Buyer

  /** The literal under which the database stores an order status. */
  function OrderStatusLiteral(s: OrderStatus): string
  {
    match s
    case Pending => "PENDING"
    case PaymentPending => "PAYMENT_PENDING"
    case Paid => "PAID"
    case Processing => "PROCESSING"
    case Shipped => "SHIPPED"
    case Delivered => "DELIVERED"
    case Cancelled => "CANCELLED"
    case Refunded => "REFUNDED"
  }

  /** The literal under which the database stores a payment status. */
  function PaymentStatusLiteral(s: PaymentStatus): string
  {
    match s
    case PendingPayment => "PENDING"
    case Authorized => "AUTHORIZED"
    case PaidPayment => "PAID"
    case Denied => "DENIED"
    case Voided => "VOIDED"
    case RefundedPayment => "REFUNDED"
    case Aborted => "ABORTED"
    case Scheduled => "SCHEDULED"
    case PendingRefund => "PENDING_REFUND"
  }

  /** The literal the gateway client uses for a gateway status. */
  function GatewayStatusLiteral(s: GatewayStatus): string
  {
    match s
    case NotFinished => "NotFinished"
    case GwAuthorized => "Authorized"
    case PaymentConfirmed => "PaymentConfirmed"
    case GwDenied => "Denied"
    case GwVoided => "Voided"
    case GwRefunded => "Refunded"
    case GwPending => "Pending"
    case GwAborted => "Aborted"
    case GwScheduled => "Scheduled"
  }

  /** Stored payment literals are all upper case, so no stored status is spelled like a gateway status. */
  lemma StoredLiteralsAreNotGatewayLiterals(s: PaymentStatus, g: GatewayStatus)
    ensures PaymentStatusLiteral(s) != GatewayStatusLiteral(g)
  {
    var p := PaymentStatusLiteral(s);
    var q := GatewayStatusLiteral(g);
    assert p[1] != q[1] || |p| != |q| || p[0] != q[0];
  }

  /** Distinct stored statuses have distinct literals. */
  lemma PaymentStatusLiteralInjective(s: PaymentStatus, t: PaymentStatus)
    requires PaymentStatusLiteral(s) == PaymentStatusLiteral(t)
    ensures s == t
  {
    var p := PaymentStatusLiteral(s);
    var q := PaymentStatusLiteral(t);
    assert |p| == |q| && p[0] == q[0] && p[1] == q[1];
  }
}
