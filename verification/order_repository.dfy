/**
 * The order repository: inserting an order with a snapshot of its lines, changing an
 * order's status, and the filter and paging of the order listing.
 */
module OrderRepository {
  import opened Common
  import opened Enums
  import opened Store

  /** One line of an order to create: what was bought, how many, at which unit price. */
  datatype OrderLineInput = OrderLineInput(productId: string, quantity: int, price: int)

  datatype CreateOrderInput = CreateOrderInput(userId: string, total: int, items: seq<OrderLineInput>)

  /** `images[0] || null`: the first image, unless there is none or it is the empty string. */
  function FirstImage(images: seq<string>): (r: Option<string>)
    ensures r.Some? <==> |images| > 0 && images[0] != ""
    ensures r.Some? ==> r.value == images[0]
  {
    if |images| > 0 && images[0] != "" then Some(images[0]) else None
  }

  /** Every line refers to an existing product (the repository dereferences each lookup unchecked). */
  predicate AllProductsExist(lines: seq<OrderLineInput>, products: map<string, Product>)
  {
    forall i :: 0 <= i < |lines| ==> lines[i].productId in products
  }

  /** The stored order line: the input's product, quantity and price, with the product's name and first image. */
  function Snapshot(line: OrderLineInput, products: map<string, Product>): (item: OrderItem)
    requires line.productId in products
    ensures item.productId == line.productId && item.quantity == line.quantity && item.price == line.price
    ensures item.name == products[line.productId].name
    ensures item.image == FirstImage(products[line.productId].images)
  {
    var p := products[line.productId];
    OrderItem(line.productId, line.quantity, line.price, p.name, FirstImage(p.images))
  }

  function Snapshots(lines: seq<OrderLineInput>, products: map<string, Product>): (items: seq<OrderItem>)
    requires AllProductsExist(lines, products)
    ensures |items| == |lines|
    ensures forall i :: 0 <= i < |lines| ==> items[i] == Snapshot(lines[i], products)
  {
    if |lines| == 0 then []
    else Snapshots(lines[..|lines| - 1], products) + [Snapshot(lines[|lines| - 1], products)]
  }

  /** Whether some order already carries the order number (a unique column). */
  predicate OrderNumberTaken(orders: map<string, Order>, orderNumber: string)
  {
    exists k :: k in orders && orders[k].orderNumber == orderNumber
  }

  /** The order a successful insert stores: always PENDING, lines snapshotted. */
  function NewOrder(id: string, orderNumber: string, data: CreateOrderInput, products: map<string, Product>): (o: Order)
    requires AllProductsExist(data.items, products)
    ensures o.id == id && o.orderNumber == orderNumber
    ensures o.status == Pending && o.userId == data.userId && o.total == data.total
    ensures |o.items| == |data.items|
    ensures forall i :: 0 <= i < |data.items| ==> o.items[i] == Snapshot(data.items[i], products)
  {
    Order(id, orderNumber, data.userId, Pending, data.total, Snapshots(data.items, products))
  }

  /**
   * Inserts an order under a fresh id and a caller-chosen order number (the source
   * derives it from the clock). A repeated order number is refused by the database.
   */
  method Create(db: Database, data: CreateOrderInput, id: string, orderNumber: string) returns (r: Result<Order, Failure>)
    requires id !in db.orders
    requires AllProductsExist(data.items, db.products)
    modifies db
    ensures OrderNumberTaken(old(db.orders), orderNumber) ==> r == Err(Db(UniqueViolation)) && db.State() == old(db.State())
    ensures !OrderNumberTaken(old(db.orders), orderNumber) ==>
      && r == Ok(NewOrder(id, orderNumber, data, old(db.products)))
      && db.State() == old(db.State()).(orders := old(db.orders)[id := r.value])
    ensures Consistent(old(db.State())) ==> Consistent(db.State())
  {
    if OrderNumberTaken(db.orders, orderNumber) {
      return Err(Db(UniqueViolation));
    }
    var order := NewOrder(id, orderNumber, data, db.products);
    db.orders := db.orders[id := order];
    r := Ok(order);
  }

  /** Sets the status of an order, whatever it was; a missing order is a database error. */
  method UpdateStatus(db: Database, orderId: string, status: OrderStatus) returns (r: Result<Order, Failure>)
    modifies db
    ensures orderId !in old(db.orders) ==> r == Err(Db(RecordNotFound)) && db.State() == old(db.State())
    ensures orderId in old(db.orders) ==>
      && r == Ok(old(db.orders)[orderId].(status := status))
      && db.State() == old(db.State()).(orders := old(db.orders)[orderId := r.value])
    ensures Consistent(old(db.State())) ==> Consistent(db.State())
  {
    if orderId !in db.orders {
      return Err(Db(RecordNotFound));
    }
    var order := db.orders[orderId].(status := status);
    db.orders := db.orders[orderId := order];
    r := Ok(order);
  }

  // -------------------------------------------------------------------- listing

  datatype OrderListParams = OrderListParams(
    userId: Option<string>, status: Option<string>, page: Option<int>, limit: Option<int>)

  /** The query the listing sends; the status filter is the stored literal the caller passed. */
  datatype OrderQuery = OrderQuery(skip: int, take: int, userId: Option<string>, status: Option<string>)

  function FindAllQuery(params: OrderListParams): (q: OrderQuery)
    ensures q.take == OrNumber(params.limit, 10)
    ensures q.skip == (OrNumber(params.page, 1) - 1) * q.take
    ensures q.userId.Some? <==> Truthy(params.userId)
    ensures q.status.Some? <==> Truthy(params.status)
    ensures q.userId.Some? ==> q.userId == params.userId
    ensures q.status.Some? ==> q.status == params.status
  {
    var page := OrNumber(params.page, 1);
    var limit := OrNumber(params.limit, 10);
    OrderQuery((page - 1) * limit, limit,
      if Truthy(params.userId) then params.userId else None,
      if Truthy(params.status) then params.status else None)
  }

  predicate MatchesOrder(o: Order, q: OrderQuery)
  {
    && (q.userId.Some? ==> o.userId == q.userId.value)
    && (q.status.Some? ==> OrderStatusLiteral(o.status) == q.status.value)
  }

  /**
   * Without filters every order is listed, 10 to a page; an empty user id or status
   * filter is ignored rather than matching nothing.
   */
  lemma ListingFilters(o: Order, params: OrderListParams)
    ensures !Truthy(params.userId) && !Truthy(params.status) ==> MatchesOrder(o, FindAllQuery(params))
    ensures Truthy(params.userId) && MatchesOrder(o, FindAllQuery(params)) ==> o.userId == params.userId.value
    ensures params == OrderListParams(None, None, None, None) ==> FindAllQuery(params) == OrderQuery(0, 10, None, None)
  {
  }
}
