/**
 * The relational store the repositories and handlers work on, held in memory: one map
 * per table, keyed the way the handlers look rows up. Orders, products, categories and
 * users are keyed by id; payments by the gateway's payment id (a unique column); carts
 * by their owner's user id (also unique), each cart holding its item rows.
 * Money columns hold integer cents.
 */
module Store {
  import opened Common
  import opened Enums
  import CieloGateway

  /** An order line: a snapshot of the product's name and first image at order time. */
  datatype OrderItem = OrderItem(productId: string, quantity: int, price: int, name: string, image: Option<string>)

  datatype Order = Order(
    id: string, orderNumber: string, userId: string, status: OrderStatus, total: int, items: seq<OrderItem>)

  datatype Payment = Payment(
    orderId: string, paymentId: string, amount: int, status: PaymentStatus, paymentMethod: PaymentMethod,
    authorizationCode: Option<string>, tid: Option<string>, proofOfSale: Option<string>,
    returnCode: Option<string>, returnMessage: Option<string>, cardBrand: Option<CieloGateway.Brand>)

  datatype Product = Product(
    id: string, name: string, slug: string, description: Option<string>, price: int, sku: string,
    stock: int, images: seq<string>, categoryId: string, featured: bool, active: bool)

  datatype Category = Category(id: string, name: string, slug: string, description: Option<string>, image: Option<string>)

  datatype User = User(
    id: string, name: Option<string>, email: string, password: Option<string>, role: UserRole, image: Option<string>)

  datatype CartItem = CartItem(id: string, productId: string, quantity: int)

  datatype Cart = Cart(id: string, userId: string, items: seq<CartItem>)

  /** A snapshot of every table. */
  datatype Tables = Tables(
    orders: map<string, Order>, payments: map<string, Payment>, products: map<string, Product>,
    categories: map<string, Category>, users: map<string, User>, carts: map<string, Cart>)

  /** Why the database refused a statement. */
  datatype DbError =
    | RecordNotFound        // update or delete of a row that does not exist
    | UniqueViolation       // a unique column would hold a duplicate
    | ForeignKeyViolation   // the row is still referenced

  /** What a repository or service call throws: an `Error` with a message, or a database error. */
  datatype Failure = Message(text: string) | Db(error: DbError)

  /** Messages more than one service raises. */
  const ProductNotFoundMessage: string := "Produto não encontrado"
  const InsufficientStockMessage: string := "Estoque insuficiente"
  const SlugInUseMessage: string := "Slug já está em uso"

  // ------------------------------------------------------------------ constraints

  /** Every row sits under its own key. */
  predicate KeysMatch(t: Tables)
  {
    && (forall k :: k in t.orders ==> t.orders[k].id == k)
    && (forall k :: k in t.payments ==> t.payments[k].paymentId == k)
    && (forall k :: k in t.products ==> t.products[k].id == k)
    && (forall k :: k in t.categories ==> t.categories[k].id == k)
    && (forall k :: k in t.users ==> t.users[k].id == k)
    && (forall k :: k in t.carts ==> t.carts[k].userId == k)
  }

  predicate UniqueProductSlugs(products: map<string, Product>)
  {
    forall a, b :: a in products && b in products && products[a].slug == products[b].slug ==> a == b
  }

  predicate UniqueCategorySlugs(categories: map<string, Category>)
  {
    forall a, b :: a in categories && b in categories && categories[a].slug == categories[b].slug ==> a == b
  }

  predicate UniqueEmails(users: map<string, User>)
  {
    forall a, b :: a in users && b in users && users[a].email == users[b].email ==> a == b
  }

  /** A cart holds at most one row per product (the compound unique key of cart items). */
  predicate OneRowPerProduct(items: seq<CartItem>)
  {
    forall i, j :: 0 <= i < j < |items| ==> items[i].productId != items[j].productId
  }

  /** Every cart row refers to an existing product. */
  predicate ItemsReferenceProducts(items: seq<CartItem>, products: map<string, Product>)
  {
    forall i :: 0 <= i < |items| ==> items[i].productId in products
  }

  /** The ids of a cart's rows. */
  function ItemIds(items: seq<CartItem>): set<string>
  {
    set x | x in items :: x.id
  }

  /** No two rows of a cart share an id. */
  predicate DistinctItemIds(items: seq<CartItem>)
  {
    forall i, j :: 0 <= i < j < |items| ==> items[i].id != items[j].id
  }

  /** A cart row id is a primary key: unique within a cart and across carts. */
  predicate UniqueItemIds(carts: map<string, Cart>)
  {
    && (forall u :: u in carts ==> DistinctItemIds(carts[u].items))
    && (forall u, v :: u in carts && v in carts && u != v ==> ItemIds(carts[u].items) !! ItemIds(carts[v].items))
  }

  /** The unique keys and foreign keys the schema enforces. */
  predicate Consistent(t: Tables)
  {
    && KeysMatch(t)
    && UniqueProductSlugs(t.products)
    && UniqueCategorySlugs(t.categories)
    && UniqueEmails(t.users)
    && (forall k :: k in t.payments ==> t.payments[k].orderId in t.orders)
    && (forall u :: u in t.carts ==> OneRowPerProduct(t.carts[u].items))
    && (forall u :: u in t.carts ==> ItemsReferenceProducts(t.carts[u].items, t.products))
    && UniqueItemIds(t.carts)
  }

  /** Payments stored under their own ids, each for an existing order, can replace the payments table. */
  lemma PaymentsReplaced(t: Tables, ps: map<string, Payment>)
    requires Consistent(t)
    requires forall k :: k in ps ==> ps[k].paymentId == k && ps[k].orderId in t.orders
    ensures Consistent(t.(payments := ps))
  {
  }

  /** Products that keep every key, id and slug can replace the products table. */
  lemma ProductsReplaced(t: Tables, ps: map<string, Product>)
    requires Consistent(t)
    requires ps.Keys == t.products.Keys
    requires forall k :: k in ps ==> ps[k].id == k && ps[k].slug == t.products[k].slug
    ensures Consistent(t.(products := ps))
  {
    forall a, b | a in ps && b in ps && ps[a].slug == ps[b].slug ensures a == b {
      assert t.products[a].slug == t.products[b].slug;
    }
    forall u | u in t.carts ensures ItemsReferenceProducts(t.carts[u].items, ps) {
      assert ItemsReferenceProducts(t.carts[u].items, t.products);
    }
  }

  /** Carts that keep the cart keys and refer to existing products can replace the carts table. */
  lemma CartsReplaced(t: Tables, carts: map<string, Cart>)
    requires Consistent(t)
    requires forall u :: u in carts ==> carts[u].userId == u
    requires forall u :: u in carts ==> OneRowPerProduct(carts[u].items)
    requires forall u :: u in carts ==> ItemsReferenceProducts(carts[u].items, t.products)
    requires UniqueItemIds(carts)
    ensures Consistent(t.(carts := carts))
  {
  }

  /**
   * One cart, under its owner's key, that refers to existing products and whose row ids
   * no other cart uses can be written.
   */
  lemma CartReplaced(t: Tables, cart: Cart)
    requires Consistent(t)
    requires OneRowPerProduct(cart.items) && ItemsReferenceProducts(cart.items, t.products)
    requires DistinctItemIds(cart.items)
    requires forall v :: v in t.carts && v != cart.userId ==> ItemIds(cart.items) !! ItemIds(t.carts[v].items)
    ensures Consistent(t.(carts := t.carts[cart.userId := cart]))
  {
    var carts := t.carts[cart.userId := cart];
    forall u, v | u in carts && v in carts && u != v
      ensures ItemIds(carts[u].items) !! ItemIds(carts[v].items)
    {
      if u == cart.userId {
        assert ItemIds(cart.items) !! ItemIds(t.carts[v].items);
      } else if v == cart.userId {
        assert ItemIds(cart.items) !! ItemIds(t.carts[u].items);
      }
    }
  }

  /** Emptying a user's cart keeps the tables consistent. */
  lemma CartEmptied(t: Tables, userId: string)
    requires Consistent(t) && userId in t.carts
    ensures Consistent(t.(carts := t.carts[userId := t.carts[userId].(items := [])]))
  {
    var cart := t.carts[userId].(items := []);
    assert ItemIds(cart.items) == {};
    CartReplaced(t, cart);
  }

  /** Stock never below zero: what the service-level stock checks are there to keep. */
  predicate StockNonNegative(products: map<string, Product>)
  {
    forall k :: k in products ==> products[k].stock >= 0
  }

  // ----------------------------------------------------------------- the database

  /** The database connection every repository and handler shares. */
  class Database {
    var orders: map<string, Order>
    var payments: map<string, Payment>
    var products: map<string, Product>
    var categories: map<string, Category>
    var users: map<string, User>
    var carts: map<string, Cart>

    constructor ()
      ensures orders == map[] && payments == map[] && products == map[]
      ensures categories == map[] && users == map[] && carts == map[]
      ensures Consistent(State())
    {
      orders := map[];
      payments := map[];
      products := map[];
      categories := map[];
      users := map[];
      carts := map[];
    }

    function State(): (t: Tables)
      reads this
      ensures t.orders == orders && t.payments == payments && t.products == products
      ensures t.categories == categories && t.users == users && t.carts == carts
    {
      Tables(orders, payments, products, categories, users, carts)
    }
  }
}
