/**
 * The cart service: the guards in front of the cart repository (the product must exist,
 * be on sale and have the stock, quantities must be positive) and lazy cart creation.
 */
module CartService {
  import opened Common
  import opened Store
  import ProductRepository
  import CartRepository

  const UnavailableMessage: string := "Produto não está disponível"
  const QuantityMessage: string := "Quantidade deve ser maior que zero"

  /**
   * The user's cart; a user without one gets a new empty cart, so a cart is always
   * returned.
   */
  method GetCart(db: Database, userId: string, cartId: string) returns (cart: Cart)
    requires Consistent(db.State())
    modifies db
    ensures Consistent(db.State())
    ensures cart == CartRepository.FoundOrNewCart(old(db.carts), userId, cartId)
    ensures cart.userId == userId
    ensures userId in old(db.carts) ==> db.State() == old(db.State())
    ensures userId !in old(db.carts) ==>
      cart.items == [] && db.State() == old(db.State()).(carts := old(db.carts)[userId := cart])
  {
    if userId !in db.carts {
      var created := CartRepository.CreateCart(db, userId, cartId);
    }
    cart := db.carts[userId];
  }

  /** Why `addToCart` refuses, checked in the service's order, or None when it goes ahead. */
  function AddRefusal(products: map<string, Product>, data: CartRepository.AddToCartInput): (m: Option<string>)
    ensures data.productId !in products ==> m == Some(ProductNotFoundMessage)
    ensures data.productId in products && !products[data.productId].active ==> m == Some(UnavailableMessage)
    ensures (data.productId in products && products[data.productId].active
             && products[data.productId].stock < data.quantity) ==> m == Some(InsufficientStockMessage)
    ensures (data.productId in products && products[data.productId].active
             && products[data.productId].stock >= data.quantity && data.quantity <= 0) ==> m == Some(QuantityMessage)
    ensures m.None? <==>
      data.productId in products && products[data.productId].active
      && 0 < data.quantity <= products[data.productId].stock
  {
    if data.productId !in products then Some(ProductNotFoundMessage)
    else if !products[data.productId].active then Some(UnavailableMessage)
    else if !ProductRepository.CheckStock(products, data.productId, data.quantity) then Some(InsufficientStockMessage)
    else if data.quantity <= 0 then Some(QuantityMessage)
    else None
  }

  /** Adds to the user's cart once every guard passes; a refusal writes nothing. */
  method AddToCart(db: Database, data: CartRepository.AddToCartInput, cartId: string, itemId: string)
    returns (r: Result<Cart, Failure>)
    requires Consistent(db.State())
    requires !CartRepository.ItemExists(db.carts, itemId)
    modifies db
    ensures Consistent(db.State())
    ensures AddRefusal(old(db.products), data).Some? ==>
      r == Err(Message(AddRefusal(old(db.products), data).value)) && db.State() == old(db.State())
    ensures AddRefusal(old(db.products), data).None? ==>
      && r == Ok(CartRepository.AddedToCart(CartRepository.FoundOrNewCart(old(db.carts), data.userId, cartId), data, itemId))
      && db.State() == old(db.State()).(carts := old(db.carts)[data.userId := r.value])
  {
    var product := if data.productId in db.products then Some(db.products[data.productId]) else None;
    if product.None? {
      return Err(Message(ProductNotFoundMessage));
    }
    if !product.value.active {
      return Err(Message(UnavailableMessage));
    }
    if !ProductRepository.CheckStock(db.products, data.productId, data.quantity) {
      return Err(Message(InsufficientStockMessage));
    }
    if data.quantity <= 0 {
      return Err(Message(QuantityMessage));
    }
    r := CartRepository.AddItem(db, data, cartId, itemId);
  }

  /**
   * The stock guard looks only at the quantity being added: a row already holding the
   * whole stock still accepts one more unit, and the row then exceeds the stock.
   */
  lemma AddedQuantityIsCheckedAlone(p: Product, userId: string, cartId: string, itemId: string)
    requires p.active && p.stock >= 1
    ensures
      var products := map[p.id := p];
      var cart := Cart(cartId, userId, [CartItem(itemId, p.id, p.stock)]);
      var data := CartRepository.AddToCartInput(userId, p.id, 1);
      && AddRefusal(products, data).None?
      && CartRepository.AddedToCart(cart, data, itemId).items[0].quantity == p.stock + 1 > p.stock
  {
    var cart := Cart(cartId, userId, [CartItem(itemId, p.id, p.stock)]);
    assert CartRepository.IndexOfProduct(cart.items, p.id) == 0;
  }

  /** Sets a row's quantity; a quantity that is not positive is refused before any write. */
  method UpdateCartItem(db: Database, cartItemId: string, quantity: int) returns (r: Result<Cart, Failure>)
    requires Consistent(db.State())
    modifies db
    ensures Consistent(db.State())
    ensures quantity <= 0 ==> r == Err(Message(QuantityMessage)) && db.State() == old(db.State())
    ensures quantity > 0 && !CartRepository.ItemExists(old(db.carts), cartItemId) ==>
      r == Err(Db(RecordNotFound)) && db.State() == old(db.State())
    ensures r.Ok? ==>
      && quantity > 0
      && db.State() == old(db.State()).(carts := CartRepository.SetQuantityInCarts(old(db.carts), cartItemId, quantity))
      && CartRepository.HasItem(r.value.items, cartItemId)
    ensures quantity > 0 && CartRepository.ItemExists(old(db.carts), cartItemId) ==> r.Ok?
  {
    if quantity <= 0 {
      return Err(Message(QuantityMessage));
    }
    r := CartRepository.UpdateItem(db, cartItemId, quantity);
  }
}
