/**
 * The order service: order lookup, the order-status state machine, cancellation, and
 * checkout (turning a user's cart into an order while taking the stock).
 */
module OrderService {
  import opened Common
  import opened Enums
  import opened Store
  import ProductRepository
  import CartRepository
  import OrderRepository

  const OrderNotFoundMessage: string := "Pedido não encontrado"
  const EmptyCartMessage: string := "Carrinho vazio"

  // ------------------------------------------------------------- state machine

  /** The statuses an order may move to from each status. */
  function AllowedTargets(s: OrderStatus): seq<OrderStatus>
  {
    match s
    case Pending => [PaymentPending, Cancelled]
    case PaymentPending => [Paid, Cancelled]
    case Paid => [Processing, Refunded]
    case Processing => [Shipped, Cancelled]
    case Shipped => [Delivered, Cancelled]
    case Delivered => [Refunded]
    case Cancelled => []
    case Refunded => []
  }

  predicate CanTransition(from: OrderStatus, to: OrderStatus)
  {
    to in AllowedTargets(from)
  }

  /** A position in the lifecycle; every allowed transition moves strictly forward. */
  function Rank(s: OrderStatus): nat
  {
    match s
    case Pending => 0
    case PaymentPending => 1
    case Paid => 2
    case Processing => 3
    case Shipped => 4
    case Delivered => 5
    case Cancelled => 6
    case Refunded => 7
  }

  lemma TransitionRaisesRank(from: OrderStatus, to: OrderStatus)
    requires CanTransition(from, to)
    ensures Rank(from) < Rank(to)
  {
  }

  /**
   * The shape of the table: CANCELLED and REFUNDED are terminal, nothing leads back to
   * PENDING, no status moves to itself, and every other status has a way out.
   */
  lemma StateMachineShape(from: OrderStatus, to: OrderStatus)
    ensures from in {Cancelled, Refunded} ==> !CanTransition(from, to)
    ensures !CanTransition(from, Pending)
    ensures !CanTransition(from, from)
    ensures from !in {Cancelled, Refunded} ==> |AllowedTargets(from)| > 0
  {
  }

  /** A sequence of statuses each reachable from the previous one in one step. */
  predicate IsPath(p: seq<OrderStatus>)
  {
    forall i :: 0 <= i < |p| - 1 ==> CanTransition(p[i], p[i + 1])
  }

  /** Along a path the rank grows by at least one per step. */
  lemma {:induction false} PathRaisesRank(p: seq<OrderStatus>)
    requires |p| >= 1 && IsPath(p)
    ensures Rank(p[|p| - 1]) >= Rank(p[0]) + |p| - 1
  {
    if |p| > 1 {
      var q := p[..|p| - 1];
      assert IsPath(q) by {
        forall i | 0 <= i < |q| - 1 ensures CanTransition(q[i], q[i + 1]) {
          assert q[i] == p[i] && q[i + 1] == p[i + 1];
        }
      }
      PathRaisesRank(q);
      TransitionRaisesRank(p[|p| - 2], p[|p| - 1]);
    }
  }

  /** The relation is acyclic: no path of one or more steps returns to where it started. */
  lemma NoCycles(p: seq<OrderStatus>)
    requires |p| >= 2 && IsPath(p)
    ensures p[0] != p[|p| - 1]
  {
    PathRaisesRank(p);
  }

  /** So an order changes status at most seven times. */
  lemma PathsAreShort(p: seq<OrderStatus>)
    requires IsPath(p)
    ensures |p| <= 8
  {
    if |p| > 0 {
      PathRaisesRank(p);
    }
  }

  /** Every status can be reached from PENDING, the status of every new order. */
  lemma EveryStatusReachable(s: OrderStatus)
    ensures exists p :: |p| >= 1 && IsPath(p) && p[0] == Pending && p[|p| - 1] == s
  {
    var p := match s
      case Pending => [Pending]
      case PaymentPending => [Pending, PaymentPending]
      case Paid => [Pending, PaymentPending, Paid]
      case Processing => [Pending, PaymentPending, Paid, Processing]
      case Shipped => [Pending, PaymentPending, Paid, Processing, Shipped]
      case Delivered => [Pending, PaymentPending, Paid, Processing, Shipped, Delivered]
      case Cancelled => [Pending, Cancelled]
      case Refunded => [Pending, PaymentPending, Paid, Refunded];
    assert IsPath(p);
  }

  // ------------------------------------------------------------------- lookups

  /** The order with this id, or the service's not-found error. */
  function GetOrderById(orders: map<string, Order>, id: string): (r: Result<Order, Failure>)
    ensures r.Ok? <==> id in orders
    ensures r.Ok? ==> r.value == orders[id]
    ensures r.Err? ==> r.error == Message(OrderNotFoundMessage)
  {
    if id in orders then Ok(orders[id]) else Err(Message(OrderNotFoundMessage))
  }

  function TransitionMessage(from: OrderStatus, to: OrderStatus): string
  {
    "Não é possível mudar status de " + OrderStatusLiteral(from) + " para " + OrderStatusLiteral(to)
  }

  /** The outcome of a status change on the orders table: the updated order, or why it was refused. */
  function StatusUpdate(orders: map<string, Order>, orderId: string, to: OrderStatus): (r: Result<Order, Failure>)
    ensures r.Ok? <==> orderId in orders && CanTransition(orders[orderId].status, to)
    ensures r.Ok? ==> r.value.status == to && r.value == orders[orderId].(status := to)
    ensures orderId !in orders ==> r == Err(Message(OrderNotFoundMessage))
    ensures orderId in orders && !CanTransition(orders[orderId].status, to) ==>
      r == Err(Message(TransitionMessage(orders[orderId].status, to)))
  {
    if orderId !in orders then Err(Message(OrderNotFoundMessage))
    else if !CanTransition(orders[orderId].status, to) then Err(Message(TransitionMessage(orders[orderId].status, to)))
    else Ok(orders[orderId].(status := to))
  }

  /** Re-applying the current status is refused, and terminal orders refuse every change. */
  lemma StatusUpdateRefusals(orders: map<string, Order>, orderId: string, to: OrderStatus)
    requires orderId in orders
    ensures StatusUpdate(orders, orderId, orders[orderId].status).Err?
    ensures orders[orderId].status in {Cancelled, Refunded} ==> StatusUpdate(orders, orderId, to).Err?
    ensures to == Pending ==> StatusUpdate(orders, orderId, to).Err?
  {
    StateMachineShape(orders[orderId].status, to);
  }

  /** Changes an order's status through the transition table; a refused change writes nothing. */
  method UpdateOrderStatus(db: Database, orderId: string, status: OrderStatus) returns (r: Result<Order, Failure>)
    modifies db
    ensures r == StatusUpdate(old(db.orders), orderId, status)
    ensures r.Ok? ==> db.State() == old(db.State()).(orders := old(db.orders)[orderId := r.value])
    ensures r.Err? ==> db.State() == old(db.State())
    ensures Consistent(old(db.State())) ==> Consistent(db.State())
  {
    var found := GetOrderById(db.orders, orderId);
    if found.Err? {
      return Err(found.error);
    }
    if !CanTransition(found.value.status, status) {
      return Err(Message(TransitionMessage(found.value.status, status)));
    }
    r := OrderRepository.UpdateStatus(db, orderId, status);
  }

  method CancelOrder(db: Database, orderId: string) returns (r: Result<Order, Failure>)
    modifies db
    ensures r == StatusUpdate(old(db.orders), orderId, Cancelled)
    ensures r.Ok? ==> db.State() == old(db.State()).(orders := old(db.orders)[orderId := r.value])
    ensures r.Err? ==> db.State() == old(db.State())
    ensures Consistent(old(db.State())) ==> Consistent(db.State())
  {
    r := UpdateOrderStatus(db, orderId, Cancelled);
  }

  /** A delivered order can only be refunded. */
  lemma DeliveredOnlyRefunds(to: OrderStatus)
    ensures CanTransition(Delivered, to) <==> to == Refunded
  {
    assert AllowedTargets(Delivered) == [Refunded];
  }

  /** Cancelling succeeds exactly before payment and while the order is being prepared or shipped. */
  lemma CancelAllowedFrom(orders: map<string, Order>, orderId: string)
    requires orderId in orders
    ensures StatusUpdate(orders, orderId, Cancelled).Ok? <==>
      orders[orderId].status in {Pending, PaymentPending, Processing, Shipped}
  {
  }

  // ------------------------------------------------------------------ checkout

  function ShortStockMessage(name: string): string
  {
    "Estoque insuficiente para o produto " + name
  }

  /** Position of the first cart row whose product lacks the stock for it, or -1. */
  function FirstShortRow(items: seq<CartItem>, products: map<string, Product>): (k: int)
    ensures -1 <= k < |items|
    ensures k >= 0 ==> !ProductRepository.CheckStock(products, items[k].productId, items[k].quantity)
    ensures forall j :: 0 <= j < |items| && (k < 0 || j < k) ==>
      ProductRepository.CheckStock(products, items[j].productId, items[j].quantity)
  {
    if |items| == 0 then -1
    else if !ProductRepository.CheckStock(products, items[0].productId, items[0].quantity) then 0
    else
      var k := FirstShortRow(items[1..], products);
      if k < 0 then -1 else k + 1
  }

  /** Checks the rows in order and stops at the first one without stock. */
  method CheckCartStock(products: map<string, Product>, items: seq<CartItem>) returns (k: int)
    ensures k == FirstShortRow(items, products)
  {
    var i := 0;
    while i < |items|
      invariant 0 <= i <= |items|
      invariant forall j :: 0 <= j < i ==> ProductRepository.CheckStock(products, items[j].productId, items[j].quantity)
    {
      if !ProductRepository.CheckStock(products, items[i].productId, items[i].quantity) {
        return i;
      }
      i := i + 1;
    }
    k := -1;
  }

  /** The lines of the order: each row's product and quantity at the product's current price. */
  function OrderLines(items: seq<CartItem>, products: map<string, Product>): (lines: seq<OrderRepository.OrderLineInput>)
    requires ItemsReferenceProducts(items, products)
    ensures |lines| == |items|
    ensures forall i :: 0 <= i < |items| ==>
      lines[i] == OrderRepository.OrderLineInput(items[i].productId, items[i].quantity, products[items[i].productId].price)
    ensures OrderRepository.AllProductsExist(lines, products)
  {
    if |items| == 0 then []
    else
      var last := items[|items| - 1];
      OrderLines(items[..|items| - 1], products) + [OrderRepository.OrderLineInput(last.productId, last.quantity, products[last.productId].price)]
  }

  /** The stock table after one row's `updateStock`. */
  function Decremented(products: map<string, Product>, item: CartItem): map<string, Product>
  {
    if item.productId in products
    then products[item.productId := products[item.productId].(stock := products[item.productId].stock - item.quantity)]
    else products
  }

  /** The stock table after `updateStock` for every row, in order. */
  function DecrementAll(products: map<string, Product>, items: seq<CartItem>): (r: map<string, Product>)
    ensures r.Keys == products.Keys
  {
    if |items| == 0 then products
    else Decremented(DecrementAll(products, items[..|items| - 1]), items[|items| - 1])
  }

  /** How many units of the product the rows ask for in total. */
  function QuantityOf(items: seq<CartItem>, productId: string): int
  {
    if |items| == 0 then 0
    else (QuantityOf(items[..|items| - 1], productId)
      + if items[|items| - 1].productId == productId then items[|items| - 1].quantity else 0)
  }

  /** Each product's stock drops by what the rows ask for; nothing else about it changes. */
  lemma {:induction false} DecrementAllEffect(products: map<string, Product>, items: seq<CartItem>, k: string)
    requires k in products
    ensures DecrementAll(products, items)[k] == products[k].(stock := products[k].stock - QuantityOf(items, k))
  {
    if |items| > 0 {
      DecrementAllEffect(products, items[..|items| - 1], k);
    }
  }

  /** With one row per product, a product's total is its row's quantity, or 0 without a row. */
  lemma {:induction false} QuantityOfSingleRow(items: seq<CartItem>, k: string)
    requires OneRowPerProduct(items)
    ensures (forall j :: 0 <= j < |items| ==> items[j].productId != k) ==> QuantityOf(items, k) == 0
    ensures forall j :: 0 <= j < |items| && items[j].productId == k ==> QuantityOf(items, k) == items[j].quantity
  {
    if |items| > 0 {
      var init := items[..|items| - 1];
      assert OneRowPerProduct(init);
      QuantityOfSingleRow(init, k);
      if items[|items| - 1].productId == k {
        assert forall j :: 0 <= j < |init| ==> init[j].productId != k by {
          forall j | 0 <= j < |init| ensures init[j].productId != k {
            assert items[j] == init[j];
          }
        }
      }
    }
  }

  /** Taking stock keeps the tables consistent: no product disappears and no slug changes. */
  lemma DecrementKeepsConsistent(t: Tables, items: seq<CartItem>)
    requires Consistent(t)
    ensures Consistent(t.(products := DecrementAll(t.products, items)))
  {
    var ps := DecrementAll(t.products, items);
    forall k | k in ps ensures ps[k].id == k && ps[k].slug == t.products[k].slug {
      DecrementAllEffect(t.products, items, k);
    }
    ProductsReplaced(t, ps);
  }

  /** Takes the stock for every row, in order, through the product repository. */
  method DecrementStocks(db: Database, items: seq<CartItem>)
    modifies db
    ensures db.State() == old(db.State()).(products := DecrementAll(old(db.products), items))
  {
    var i := 0;
    while i < |items|
      invariant 0 <= i <= |items|
      invariant db.State() == old(db.State()).(products := DecrementAll(old(db.products), items[..i]))
    {
      assert items[..i + 1][..i] == items[..i];
      var updated := ProductRepository.UpdateStock(db, items[i].productId, items[i].quantity);
      i := i + 1;
    }
    assert items[..|items|] == items;
  }

  /** What checkout returns for a user's cart on the given tables. */
  function CheckoutOutcome(t: Tables, userId: string, orderId: string, orderNumber: string): (r: Result<Order, Failure>)
    requires Consistent(t)
  {
    if userId !in t.carts || |t.carts[userId].items| == 0 then Err(Message(EmptyCartMessage))
    else
      var items := t.carts[userId].items;
      var k := FirstShortRow(items, t.products);
      if k >= 0 then Err(Message(ShortStockMessage(t.products[items[k].productId].name)))
      else if OrderRepository.OrderNumberTaken(t.orders, orderNumber) then Err(Db(UniqueViolation))
      else
        Ok(OrderRepository.NewOrder(orderId, orderNumber,
          OrderRepository.CreateOrderInput(userId, CartRepository.CartTotal(items, t.products), OrderLines(items, t.products)),
          t.products))
  }

  /** The tables after a successful checkout: the order stored, the stock taken, the cart emptied. */
  function AfterCheckout(t: Tables, userId: string, order: Order): (u: Tables)
    requires userId in t.carts
    ensures u.payments == t.payments && u.categories == t.categories && u.users == t.users
  {
    t.(orders := t.orders[order.id := order],
       products := DecrementAll(t.products, t.carts[userId].items),
       carts := t.carts[userId := t.carts[userId].(items := [])])
  }

  /**
   * Creates an order from the user's cart. Every rejection (empty cart, a row without
   * stock, a taken order number) happens before anything is written.
   */
  method CreateOrderFromCart(db: Database, userId: string, orderId: string, orderNumber: string)
    returns (r: Result<Order, Failure>)
    requires Consistent(db.State())
    requires orderId !in db.orders
    modifies db
    ensures Consistent(db.State())
    ensures r == CheckoutOutcome(old(db.State()), userId, orderId, orderNumber)
    ensures r.Err? ==> db.State() == old(db.State())
    ensures r.Ok? ==> userId in old(db.carts) && db.State() == AfterCheckout(old(db.State()), userId, r.value)
  {
    ghost var t := db.State();
    if userId !in db.carts || |db.carts[userId].items| == 0 {
      return Err(Message(EmptyCartMessage));
    }
    var items := db.carts[userId].items;
    var short := CheckCartStock(db.products, items);
    if short >= 0 {
      return Err(Message(ShortStockMessage(db.products[items[short].productId].name)));
    }
    var total := CartRepository.CartTotal(items, db.products);
    var lines := OrderLines(items, db.products);
    r := OrderRepository.Create(db, OrderRepository.CreateOrderInput(userId, total, lines), orderId, orderNumber);
    if r.Err? {
      return;
    }
    DecrementKeepsConsistent(db.State(), items);
    DecrementStocks(db, items);
    CartRepository.ClearCart(db, userId);
    assert db.State() == AfterCheckout(t, userId, r.value);
  }

  /**
   * A successful checkout stores a PENDING order for the user whose total is the cart
   * total and whose lines copy the rows at the current prices, and empties the cart.
   */
  lemma CheckoutOrder(t: Tables, userId: string, orderId: string, orderNumber: string)
    requires Consistent(t)
    ensures CheckoutOutcome(t, userId, orderId, orderNumber).Ok? <==>
      && userId in t.carts && |t.carts[userId].items| > 0
      && (forall j :: 0 <= j < |t.carts[userId].items| ==>
            ProductRepository.CheckStock(t.products, t.carts[userId].items[j].productId, t.carts[userId].items[j].quantity))
      && !OrderRepository.OrderNumberTaken(t.orders, orderNumber)
    ensures CheckoutOutcome(t, userId, orderId, orderNumber).Ok? ==>
      var o := CheckoutOutcome(t, userId, orderId, orderNumber).value;
      var items := t.carts[userId].items;
      && o.id == orderId && o.userId == userId && o.status == Pending
      && o.total == CartRepository.CartTotal(items, t.products)
      && |o.items| == |items|
      && (forall i :: 0 <= i < |items| ==>
            o.items[i].productId == items[i].productId && o.items[i].quantity == items[i].quantity
            && o.items[i].price == t.products[items[i].productId].price)
      && AfterCheckout(t, userId, o).carts[userId].items == []
  {
  }

  /**
   * After a successful checkout each product's stock is lower by exactly its cart
   * row's quantity, and because every row was checked first, stock that was not
   * negative stays not negative.
   */
  lemma CheckoutTakesStock(t: Tables, userId: string, orderId: string, orderNumber: string, k: string)
    requires Consistent(t)
    requires CheckoutOutcome(t, userId, orderId, orderNumber).Ok?
    requires k in t.products
    ensures
      var items := t.carts[userId].items;
      var after := AfterCheckout(t, userId, CheckoutOutcome(t, userId, orderId, orderNumber).value).products;
      && k in after
      && (forall j :: 0 <= j < |items| && items[j].productId == k ==> after[k].stock == t.products[k].stock - items[j].quantity)
      && ((forall j :: 0 <= j < |items| ==> items[j].productId != k) ==> after[k] == t.products[k])
      && (t.products[k].stock >= 0 ==> after[k].stock >= 0)
  {
    var items := t.carts[userId].items;
    DecrementAllEffect(t.products, items, k);
    QuantityOfSingleRow(items, k);
  }
}
