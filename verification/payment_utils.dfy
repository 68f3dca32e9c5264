/**
 * The two status translations shared by the synchronous payment handlers and the
 * gateway webhook: gateway status -> stored payment status -> order status.
 */
module PaymentUtils {
  import opened Enums

  /**
   * Gateway status to stored payment status. The source looks the status up in a
   * record and falls back to PENDING; on the typed gateway enumeration every key is
   * present, so the fallback is only reached through `MapStatus`'s own default
   * (see `CieloGateway.UnknownCodeIsStoredPending`).
   */
  function MapCieloStatusToPrisma(g: GatewayStatus): (r: PaymentStatus)
    ensures r != PendingRefund
    ensures r == PendingPayment <==> g in {NotFinished, GwPending}
    ensures g == GwAuthorized <==> r == Authorized
    ensures g == PaymentConfirmed <==> r == PaidPayment
    ensures g == GwDenied <==> r == Denied
    ensures g == GwVoided <==> r == Voided
    ensures g == GwRefunded <==> r == RefundedPayment
    ensures g == GwAborted <==> r == Aborted
    ensures g == GwScheduled <==> r == Scheduled
  {
    match g
    case NotFinished => PendingPayment
    case GwAuthorized => Authorized
    case PaymentConfirmed => PaidPayment
    case GwDenied => Denied
    case GwVoided => Voided
    case GwRefunded => RefundedPayment
    case GwPending => PendingPayment
    case GwAborted => Aborted
    case GwScheduled => Scheduled
  }

  /** The order statuses a payment status can force. */
  predicate PaymentDrivenOrderStatus(o: OrderStatus)
  {
    o in {Pending, PaymentPending, Paid, Cancelled, Refunded}
  }

  /** Stored payment status to the order status it implies. */
  function MapPaymentStatusToOrderStatus(p: PaymentStatus): (r: OrderStatus)
    ensures PaymentDrivenOrderStatus(r)
    ensures r !in {Processing, Shipped, Delivered}
    ensures r == PaymentPending <==> p == Authorized
    ensures r == Paid <==> p == PaidPayment
    ensures r == Cancelled <==> p in {Denied, Voided, Aborted}
    ensures r == Refunded <==> p in {RefundedPayment, PendingRefund}
    ensures r == Pending <==> p in {PendingPayment, Scheduled}
  {
    match p
    case Authorized => PaymentPending
    case PaidPayment => Paid
    case Denied | Voided | Aborted => Cancelled
    case RefundedPayment | PendingRefund => Refunded
    case _ => Pending
  }

  /** The composed translation used by every handler. */
  function OrderStatusForGateway(g: GatewayStatus): (r: OrderStatus)
    ensures r == Paid <==> g == PaymentConfirmed
    ensures r == PaymentPending <==> g == GwAuthorized
    ensures r == Cancelled <==> g in {GwDenied, GwVoided, GwAborted}
    ensures r == Refunded <==> g == GwRefunded
    ensures r == Pending <==> g in {NotFinished, GwPending, GwScheduled}
  {
    MapPaymentStatusToOrderStatus(MapCieloStatusToPrisma(g))
  }
}
