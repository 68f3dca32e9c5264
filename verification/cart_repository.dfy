/**
 * The server-side cart repository. A cart belongs to one user and holds at most one
 * row per product; rows are found by their own id or by (cart, product).
 */
module CartRepository {
  import opened Common
  import opened Store

  // ------------------------------------------------------------- row helpers

  /** Position of the cart's row for the product, or -1 when there is none. */
  function IndexOfProduct(items: seq<CartItem>, productId: string): (i: int)
    ensures -1 <= i < |items|
    ensures i >= 0 ==> items[i].productId == productId
    ensures i == -1 <==> forall j :: 0 <= j < |items| ==> items[j].productId != productId
  {
    if |items| == 0 then -1
    else if items[|items| - 1].productId == productId then |items| - 1
    else IndexOfProduct(items[..|items| - 1], productId)
  }

  predicate HasItem(items: seq<CartItem>, itemId: string)
  {
    exists i :: 0 <= i < |items| && items[i].id == itemId
  }

  /** Some cart holds a row with this id. */
  predicate ItemExists(carts: map<string, Cart>, itemId: string)
  {
    exists u :: u in carts && HasItem(carts[u].items, itemId)
  }

  /** The rows with the given id get the new quantity; every other row is untouched. */
  function SetQuantity(items: seq<CartItem>, itemId: string, quantity: int): (r: seq<CartItem>)
    ensures |r| == |items|
    ensures forall i :: 0 <= i < |items| ==>
      r[i] == if items[i].id == itemId then items[i].(quantity := quantity) else items[i]
  {
    if |items| == 0 then []
    else (SetQuantity(items[..|items| - 1], itemId, quantity)
      + [if items[|items| - 1].id == itemId then items[|items| - 1].(quantity := quantity) else items[|items| - 1]])
  }

  /** The rows without the given id, in their original order. */
  function WithoutItem(items: seq<CartItem>, itemId: string): (r: seq<CartItem>)
    ensures |r| <= |items|
    ensures forall x :: x in r <==> x in items && x.id != itemId
  {
    if |items| == 0 then []
    else (WithoutItem(items[..|items| - 1], itemId)
      + (if items[|items| - 1].id == itemId then [] else [items[|items| - 1]]))
  }

  /** Every cart after the row with this id got a new quantity. */
  function SetQuantityInCarts(carts: map<string, Cart>, itemId: string, quantity: int): (r: map<string, Cart>)
    ensures r.Keys == carts.Keys
    ensures forall u :: u in carts ==> r[u] == carts[u].(items := SetQuantity(carts[u].items, itemId, quantity))
  {
    map u | u in carts :: carts[u].(items := SetQuantity(carts[u].items, itemId, quantity))
  }

  /** Every cart after the row with this id was deleted. */
  function RemoveFromCarts(carts: map<string, Cart>, itemId: string): (r: map<string, Cart>)
    ensures r.Keys == carts.Keys
    ensures forall u :: u in carts ==> r[u] == carts[u].(items := WithoutItem(carts[u].items, itemId))
  {
    map u | u in carts :: carts[u].(items := WithoutItem(carts[u].items, itemId))
  }

  /** Removing rows keeps the one-row-per-product key. */
  lemma {:induction false} WithoutItemKeepsKey(items: seq<CartItem>, itemId: string)
    requires OneRowPerProduct(items)
    ensures OneRowPerProduct(WithoutItem(items, itemId))
  {
    if |items| > 0 {
      var init := items[..|items| - 1];
      var last := items[|items| - 1];
      assert OneRowPerProduct(init);
      WithoutItemKeepsKey(init, itemId);
      var rest := WithoutItem(init, itemId);
      forall x | x in rest ensures x.productId != last.productId {
        assert x in init;
        var i :| 0 <= i < |init| && init[i] == x;
        assert items[i] == x;
      }
    }
  }

  /** Quantity changes keep the one-row-per-product key and the product references. */
  lemma SetQuantityKeepsKeys(items: seq<CartItem>, itemId: string, quantity: int, products: map<string, Product>)
    ensures OneRowPerProduct(items) ==> OneRowPerProduct(SetQuantity(items, itemId, quantity))
    ensures ItemsReferenceProducts(items, products) ==> ItemsReferenceProducts(SetQuantity(items, itemId, quantity), products)
  {
    var r := SetQuantity(items, itemId, quantity);
    assert forall i :: 0 <= i < |items| ==> r[i].productId == items[i].productId;
  }

  /** A row id no row holds is not among the cart's ids. */
  lemma NoIdOfAbsentItem(items: seq<CartItem>, itemId: string)
    requires !HasItem(items, itemId)
    ensures itemId !in ItemIds(items)
  {
    forall x | x in items ensures x.id != itemId {
      var i :| 0 <= i < |items| && items[i] == x;
    }
  }

  /** A quantity change keeps every row id. */
  lemma SetQuantityKeepsIds(items: seq<CartItem>, itemId: string, quantity: int)
    ensures ItemIds(SetQuantity(items, itemId, quantity)) == ItemIds(items)
    ensures DistinctItemIds(items) ==> DistinctItemIds(SetQuantity(items, itemId, quantity))
  {
    var r := SetQuantity(items, itemId, quantity);
    forall k | k in ItemIds(r) ensures k in ItemIds(items) {
      var x :| x in r && x.id == k;
      var i :| 0 <= i < |r| && r[i] == x;
      assert items[i] in items;
    }
    forall k | k in ItemIds(items) ensures k in ItemIds(r) {
      var x :| x in items && x.id == k;
      var i :| 0 <= i < |items| && items[i] == x;
      assert r[i] in r;
    }
  }

  /** Deleting rows keeps the remaining ids distinct and adds none. */
  lemma {:induction false} WithoutItemKeepsIds(items: seq<CartItem>, itemId: string)
    ensures ItemIds(WithoutItem(items, itemId)) <= ItemIds(items)
    ensures DistinctItemIds(items) ==> DistinctItemIds(WithoutItem(items, itemId))
  {
    var w := WithoutItem(items, itemId);
    forall k | k in ItemIds(w) ensures k in ItemIds(items) {
      var x :| x in w && x.id == k;
      assert x in items;
    }
    if |items| > 0 && DistinctItemIds(items) {
      var init := items[..|items| - 1];
      var last := items[|items| - 1];
      assert DistinctItemIds(init);
      WithoutItemKeepsIds(init, itemId);
      var rest := WithoutItem(init, itemId);
      forall x | x in rest ensures x.id != last.id {
        assert x in init;
        var i :| 0 <= i < |init| && init[i] == x;
        assert items[i] == x;
      }
    }
  }

  lemma SetQuantityKeepsItem(items: seq<CartItem>, itemId: string, quantity: int)
    requires HasItem(items, itemId)
    ensures HasItem(SetQuantity(items, itemId, quantity), itemId)
  {
    var i :| 0 <= i < |items| && items[i].id == itemId;
    assert SetQuantity(items, itemId, quantity)[i].id == itemId;
  }

  lemma WithoutItemRemoves(items: seq<CartItem>, itemId: string)
    ensures !HasItem(WithoutItem(items, itemId), itemId)
  {
    var w := WithoutItem(items, itemId);
    forall i | 0 <= i < |w| ensures w[i].id != itemId {
      assert w[i] in w;
    }
  }

  /** Changing a quantity everywhere keeps the tables consistent. */
  lemma SetQuantityInCartsConsistent(t: Tables, itemId: string, quantity: int)
    requires Consistent(t)
    ensures Consistent(t.(carts := SetQuantityInCarts(t.carts, itemId, quantity)))
  {
    var carts := SetQuantityInCarts(t.carts, itemId, quantity);
    forall u | u in carts
      ensures OneRowPerProduct(carts[u].items)
      ensures ItemsReferenceProducts(carts[u].items, t.products)
    {
      SetQuantityKeepsKeys(t.carts[u].items, itemId, quantity, t.products);
    }
    forall u | u in carts ensures ItemIds(carts[u].items) == ItemIds(t.carts[u].items) && DistinctItemIds(carts[u].items) {
      SetQuantityKeepsIds(t.carts[u].items, itemId, quantity);
    }
    assert UniqueItemIds(carts) by {
      forall u, v | u in carts && v in carts && u != v ensures ItemIds(carts[u].items) !! ItemIds(carts[v].items) {
        assert ItemIds(t.carts[u].items) !! ItemIds(t.carts[v].items);
      }
    }
    CartsReplaced(t, carts);
  }

  /** Deleting a row everywhere keeps the tables consistent. */
  lemma RemoveFromCartsConsistent(t: Tables, itemId: string)
    requires Consistent(t)
    ensures Consistent(t.(carts := RemoveFromCarts(t.carts, itemId)))
  {
    var carts := RemoveFromCarts(t.carts, itemId);
    forall u | u in carts
      ensures OneRowPerProduct(carts[u].items)
      ensures ItemsReferenceProducts(carts[u].items, t.products)
    {
      WithoutItemKeepsKey(t.carts[u].items, itemId);
      var w := carts[u].items;
      forall i | 0 <= i < |w| ensures w[i].productId in t.products {
        assert w[i] in t.carts[u].items;
      }
    }
    forall u | u in carts ensures ItemIds(carts[u].items) <= ItemIds(t.carts[u].items) && DistinctItemIds(carts[u].items) {
      WithoutItemKeepsIds(t.carts[u].items, itemId);
    }
    assert UniqueItemIds(carts) by {
      forall u, v | u in carts && v in carts && u != v ensures ItemIds(carts[u].items) !! ItemIds(carts[v].items) {
        assert ItemIds(t.carts[u].items) !! ItemIds(t.carts[v].items);
      }
    }
    CartsReplaced(t, carts);
  }

  // --------------------------------------------------------------------- totals

  /** Price times quantity summed over the rows, prices read from the products table. */
  function CartTotal(items: seq<CartItem>, products: map<string, Product>): int
    requires ItemsReferenceProducts(items, products)
  {
    if |items| == 0 then 0
    else (CartTotal(items[..|items| - 1], products)
      + products[items[|items| - 1].productId].price * items[|items| - 1].quantity)
  }

  /** The cart total, or 0 for a user without a cart. */
  function GetCartTotal(t: Tables, userId: string): (total: int)
    requires Consistent(t)
    ensures userId !in t.carts ==> total == 0
    ensures userId in t.carts && t.carts[userId].items == [] ==> total == 0
    ensures userId in t.carts ==> total == CartTotal(t.carts[userId].items, t.products)
  {
    if userId in t.carts then CartTotal(t.carts[userId].items, t.products) else 0
  }

  /** Totals are additive over a split of the rows. */
  lemma {:induction false} CartTotalAppend(a: seq<CartItem>, b: seq<CartItem>, products: map<string, Product>)
    requires ItemsReferenceProducts(a, products) && ItemsReferenceProducts(b, products)
    ensures ItemsReferenceProducts(a + b, products)
    ensures CartTotal(a + b, products) == CartTotal(a, products) + CartTotal(b, products)
  {
    assert ItemsReferenceProducts(a + b, products) by {
      forall i | 0 <= i < |a + b| ensures (a + b)[i].productId in products {
        if i >= |a| {
          assert (a + b)[i] == b[i - |a|];
        }
      }
    }
    if |b| > 0 {
      var b' := b[..|b| - 1];
      var last := b[|b| - 1];
      assert (a + b)[..|a + b| - 1] == a + b';
      assert (a + b)[|a + b| - 1] == last;
      CartTotalAppend(a, b', products);
      calc {
        CartTotal(a + b, products);
        CartTotal(a + b', products) + products[last.productId].price * last.quantity;
        CartTotal(a, products) + CartTotal(b', products) + products[last.productId].price * last.quantity;
        CartTotal(a, products) + CartTotal(b, products);
      }
    } else {
      assert a + b == a;
    }
  }

  /** With non-negative prices and quantities the total is never negative. */
  lemma {:induction false} CartTotalNonNegative(items: seq<CartItem>, products: map<string, Product>)
    requires ItemsReferenceProducts(items, products)
    requires forall i :: 0 <= i < |items| ==> items[i].quantity >= 0 && products[items[i].productId].price >= 0
    ensures CartTotal(items, products) >= 0
  {
    if |items| > 0 {
      CartTotalNonNegative(items[..|items| - 1], products);
    }
  }

  // --------------------------------------------------------------------- writes

  /** Creates an empty cart for the user; the user id column of carts is unique. */
  method CreateCart(db: Database, userId: string, cartId: string) returns (r: Result<Cart, Failure>)
    modifies db
    ensures userId in old(db.carts) ==> r == Err(Db(UniqueViolation)) && db.State() == old(db.State())
    ensures userId !in old(db.carts) ==>
      && r == Ok(Cart(cartId, userId, []))
      && db.State() == old(db.State()).(carts := old(db.carts)[userId := r.value])
    ensures Consistent(old(db.State())) ==> Consistent(db.State())
  {
    if userId in db.carts {
      return Err(Db(UniqueViolation));
    }
    var cart := Cart(cartId, userId, []);
    db.carts := db.carts[userId := cart];
    r := Ok(cart);
  }

  /** The user's cart after adding `quantity` of a product: an existing row grows, otherwise a row is appended. */
  function AddedItems(items: seq<CartItem>, productId: string, quantity: int, itemId: string): (r: seq<CartItem>)
    ensures IndexOfProduct(items, productId) >= 0 ==>
      && |r| == |items|
      && r[IndexOfProduct(items, productId)].quantity == items[IndexOfProduct(items, productId)].quantity + quantity
      && forall j :: 0 <= j < |items| && j != IndexOfProduct(items, productId) ==> r[j] == items[j]
    ensures IndexOfProduct(items, productId) == -1 ==> r == items + [CartItem(itemId, productId, quantity)]
    ensures forall j :: 0 <= j < |r| ==> r[j].productId == (if j < |items| then items[j].productId else productId)
    ensures forall j :: 0 <= j < |r| ==> r[j].id == (if j < |items| then items[j].id else itemId)
  {
    var i := IndexOfProduct(items, productId);
    if i >= 0 then items[i := items[i].(quantity := items[i].quantity + quantity)]
    else items + [CartItem(itemId, productId, quantity)]
  }

  /** Adding keeps at most one row per product, and refers only to products that exist. */
  lemma AddedItemsKeepsKeys(items: seq<CartItem>, productId: string, quantity: int, itemId: string, products: map<string, Product>)
    requires OneRowPerProduct(items) && ItemsReferenceProducts(items, products)
    requires IndexOfProduct(items, productId) >= 0 || productId in products
    ensures OneRowPerProduct(AddedItems(items, productId, quantity, itemId))
    ensures ItemsReferenceProducts(AddedItems(items, productId, quantity, itemId), products)
  {
  }

  /** Adding keeps the row ids distinct when the new row's id is fresh, and uses no id but the new one. */
  lemma AddedItemsKeepsIds(items: seq<CartItem>, productId: string, quantity: int, itemId: string)
    requires DistinctItemIds(items) && itemId !in ItemIds(items)
    ensures DistinctItemIds(AddedItems(items, productId, quantity, itemId))
    ensures ItemIds(AddedItems(items, productId, quantity, itemId)) <= ItemIds(items) + {itemId}
  {
    var r := AddedItems(items, productId, quantity, itemId);
    forall i, j | 0 <= i < j < |r| ensures r[i].id != r[j].id {
      assert items[i] in items;
      if j < |items| {
        assert items[i].id != items[j].id;
      }
    }
    forall k | k in ItemIds(r) ensures k in ItemIds(items) + {itemId} {
      var x :| x in r && x.id == k;
      var i :| 0 <= i < |r| && r[i] == x;
      if i < |items| {
        assert items[i] in items;
      }
    }
  }

  datatype AddToCartInput = AddToCartInput(userId: string, productId: string, quantity: int)

  /** The user's cart, or the empty cart the repository creates for a user without one. */
  function FoundOrNewCart(carts: map<string, Cart>, userId: string, cartId: string): (c: Cart)
    ensures c.userId == userId || userId in carts
    ensures userId in carts ==> c == carts[userId]
    ensures userId !in carts ==> c == Cart(cartId, userId, [])
  {
    if userId in carts then carts[userId] else Cart(cartId, userId, [])
  }

  /** The cart after the increment-or-insert of an add; the cart keeps its id and owner. */
  function AddedToCart(cart: Cart, data: AddToCartInput, itemId: string): (c: Cart)
    ensures c.id == cart.id && c.userId == cart.userId
    ensures c.items == AddedItems(cart.items, data.productId, data.quantity, itemId)
  {
    cart.(items := AddedItems(cart.items, data.productId, data.quantity, itemId))
  }

  /**
   * Both writes of an add keep the tables consistent, and a product that does not exist
   * has no row in the cart, so only its insert can fail.
   */
  lemma AddItemConsistent(t: Tables, data: AddToCartInput, cartId: string, itemId: string)
    requires Consistent(t)
    requires !ItemExists(t.carts, itemId)
    ensures Consistent(t.(carts := t.carts[data.userId := FoundOrNewCart(t.carts, data.userId, cartId)]))
    ensures data.productId !in t.products ==> IndexOfProduct(FoundOrNewCart(t.carts, data.userId, cartId).items, data.productId) == -1
    ensures data.productId in t.products ==>
      Consistent(t.(carts := t.carts[data.userId := AddedToCart(FoundOrNewCart(t.carts, data.userId, cartId), data, itemId)]))
  {
    var cart := FoundOrNewCart(t.carts, data.userId, cartId);
    assert OneRowPerProduct(cart.items) && ItemsReferenceProducts(cart.items, t.products);
    CartReplaced(t, cart);
    if data.productId in t.products {
      var added := AddedToCart(cart, data, itemId);
      AddedItemsKeepsKeys(cart.items, data.productId, data.quantity, itemId, t.products);
      NoIdOfAbsentItem(cart.items, itemId);
      AddedItemsKeepsIds(cart.items, data.productId, data.quantity, itemId);
      forall v | v in t.carts && v != data.userId ensures ItemIds(added.items) !! ItemIds(t.carts[v].items) {
        NoIdOfAbsentItem(t.carts[v].items, itemId);
      }
      CartReplaced(t, added);
    }
  }

  /** The user's cart, created empty first when the user has none. */
  method FindOrCreateCart(db: Database, userId: string, cartId: string) returns (cart: Cart)
    modifies db
    ensures cart == FoundOrNewCart(old(db.carts), userId, cartId)
    ensures db.State() == old(db.State()).(carts := old(db.carts)[userId := cart])
  {
    if userId in db.carts {
      cart := db.carts[userId];
      assert db.carts == db.carts[userId := cart];
    } else {
      cart := Cart(cartId, userId, []);
      db.carts := db.carts[userId := cart];
    }
  }

  /** The write of one user's cart rows (the row update or insert). */
  method PutCart(db: Database, userId: string, cart: Cart)
    modifies db
    ensures db.State() == old(db.State()).(carts := old(db.carts)[userId := cart])
  {
    db.carts := db.carts[userId := cart];
  }

  /**
   * Finds or creates the user's cart, then increments the row for the product or
   * inserts one. A product id that does not exist fails the insert (after the cart
   * was created, as the two statements are separate). The new row's id is the one the
   * database generates, so no row holds it yet.
   */
  method AddItem(db: Database, data: AddToCartInput, cartId: string, itemId: string) returns (r: Result<Cart, Failure>)
    requires Consistent(db.State())
    requires !ItemExists(db.carts, itemId)
    modifies db
    ensures Consistent(db.State())
    ensures db.State() == old(db.State()).(carts := db.carts)
    ensures data.productId !in old(db.products) ==>
      && r == Err(Db(ForeignKeyViolation))
      && db.carts == old(db.carts)[data.userId := FoundOrNewCart(old(db.carts), data.userId, cartId)]
    ensures data.productId in old(db.products) ==>
      && r == Ok(AddedToCart(FoundOrNewCart(old(db.carts), data.userId, cartId), data, itemId))
      && db.carts == old(db.carts)[data.userId := r.value]
  {
    ghost var t := db.State();
    AddItemConsistent(t, data, cartId, itemId);
    var cart := FindOrCreateCart(db, data.userId, cartId);
    var i := IndexOfProduct(cart.items, data.productId);
    if i < 0 && data.productId !in db.products {
      return Err(Db(ForeignKeyViolation));
    }
    var updated := AddedToCart(cart, data, itemId);
    assert t.carts[data.userId := cart][data.userId := updated] == t.carts[data.userId := updated];
    PutCart(db, data.userId, updated);
    r := Ok(updated);
  }

  /** Rows without the id are left as they are by a quantity change. */
  lemma AbsentItemKeepsQuantity(items: seq<CartItem>, itemId: string, quantity: int)
    requires !HasItem(items, itemId)
    ensures SetQuantity(items, itemId, quantity) == items
  {
    var r := SetQuantity(items, itemId, quantity);
    forall i | 0 <= i < |items| ensures r[i] == items[i] {
      assert items[i].id != itemId;
    }
  }

  /** Rows without the id are left as they are by a delete. */
  lemma {:induction false} AbsentItemNotRemoved(items: seq<CartItem>, itemId: string)
    requires !HasItem(items, itemId)
    ensures WithoutItem(items, itemId) == items
  {
    if |items| > 0 {
      var init := items[..|items| - 1];
      assert !HasItem(init, itemId) by {
        forall i | 0 <= i < |init| ensures init[i].id != itemId {
          assert init[i] == items[i];
        }
      }
      AbsentItemNotRemoved(init, itemId);
      assert items[|items| - 1].id != itemId;
      assert init + [items[|items| - 1]] == items;
    }
  }

  /**
   * Row ids are unique across carts, so the update or delete of a row by its id changes
   * only the cart that holds it.
   */
  lemma ItemWriteTouchesOneCart(t: Tables, itemId: string, quantity: int, owner: string)
    requires Consistent(t)
    requires owner in t.carts && HasItem(t.carts[owner].items, itemId)
    ensures forall v :: v in t.carts && v != owner ==>
      SetQuantityInCarts(t.carts, itemId, quantity)[v] == t.carts[v] && RemoveFromCarts(t.carts, itemId)[v] == t.carts[v]
  {
    forall v | v in t.carts && v != owner
      ensures SetQuantityInCarts(t.carts, itemId, quantity)[v] == t.carts[v] && RemoveFromCarts(t.carts, itemId)[v] == t.carts[v]
    {
      assert !HasItem(t.carts[v].items, itemId) by {
        var i :| 0 <= i < |t.carts[owner].items| && t.carts[owner].items[i].id == itemId;
        assert t.carts[owner].items[i] in t.carts[owner].items;
        assert itemId in ItemIds(t.carts[owner].items);
        assert ItemIds(t.carts[owner].items) !! ItemIds(t.carts[v].items);
        forall j | 0 <= j < |t.carts[v].items| ensures t.carts[v].items[j].id != itemId {
          assert t.carts[v].items[j] in t.carts[v].items;
        }
      }
      AbsentItemKeepsQuantity(t.carts[v].items, itemId, quantity);
      AbsentItemNotRemoved(t.carts[v].items, itemId);
    }
  }

  /** The user whose cart holds the row with this id. */
  method OwnerOf(carts: map<string, Cart>, itemId: string) returns (owner: string)
    requires ItemExists(carts, itemId)
    ensures owner in carts && HasItem(carts[owner].items, itemId)
  {
    owner :| owner in carts && HasItem(carts[owner].items, itemId);
  }

  /** Setting a row's quantity keeps the database consistent and the row in its owner's cart. */
  lemma SetQuantityInOwnerCart(t: Tables, itemId: string, quantity: int, owner: string)
    requires Consistent(t)
    requires owner in t.carts && HasItem(t.carts[owner].items, itemId)
    ensures var carts := SetQuantityInCarts(t.carts, itemId, quantity);
      && Consistent(t.(carts := carts))
      && owner in carts && carts[owner].userId == owner
      && HasItem(carts[owner].items, itemId)
  {
    SetQuantityInCartsConsistent(t, itemId, quantity);
    SetQuantityKeepsItem(t.carts[owner].items, itemId, quantity);
  }

  /** Sets the quantity of the row with this id (absolute, not incremental); a missing row is a database error. */
  method UpdateItem(db: Database, cartItemId: string, quantity: int) returns (r: Result<Cart, Failure>)
    requires Consistent(db.State())
    modifies db
    ensures Consistent(db.State())
    ensures !ItemExists(old(db.carts), cartItemId) ==> r == Err(Db(RecordNotFound)) && db.State() == old(db.State())
    ensures ItemExists(old(db.carts), cartItemId) ==> db.State() == old(db.State()).(carts := db.carts)
    ensures ItemExists(old(db.carts), cartItemId) ==> db.carts == SetQuantityInCarts(old(db.carts), cartItemId, quantity)
    ensures ItemExists(old(db.carts), cartItemId) ==> r.Ok?
    ensures r.Ok? ==> r.value.userId in db.carts && db.carts[r.value.userId] == r.value
    ensures r.Ok? ==> HasItem(r.value.items, cartItemId)
  {
    if !ItemExists(db.carts, cartItemId) {
      return Err(Db(RecordNotFound));
    }
    ghost var t := db.State();
    var owner := OwnerOf(db.carts, cartItemId);
    var carts := SetQuantityInCarts(db.carts, cartItemId, quantity);
    SetQuantityInOwnerCart(t, cartItemId, quantity, owner);
    db.carts := carts;
    assert db.State() == t.(carts := carts);
    r := Ok(carts[owner]);
  }

  const ItemNotFoundMessage: string := "Item do carrinho não encontrado"

  /** Deletes the row with this id; a missing row is reported with the repository's own message. */
  method RemoveItem(db: Database, cartItemId: string) returns (r: Result<Cart, Failure>)
    requires Consistent(db.State())
    modifies db
    ensures Consistent(db.State())
    ensures !ItemExists(old(db.carts), cartItemId) ==> r == Err(Message(ItemNotFoundMessage)) && db.State() == old(db.State())
    ensures ItemExists(old(db.carts), cartItemId) ==> db.State() == old(db.State()).(carts := db.carts)
    ensures ItemExists(old(db.carts), cartItemId) ==> db.carts == RemoveFromCarts(old(db.carts), cartItemId)
    ensures ItemExists(old(db.carts), cartItemId) ==> r.Ok?
    ensures r.Ok? ==> r.value.userId in db.carts && db.carts[r.value.userId] == r.value
    ensures r.Ok? ==> !HasItem(r.value.items, cartItemId)
  {
    if !ItemExists(db.carts, cartItemId) {
      return Err(Message(ItemNotFoundMessage));
    }
    var owner := OwnerOf(db.carts, cartItemId);
    RemoveFromCartsConsistent(db.State(), cartItemId);
    WithoutItemRemoves(db.carts[owner].items, cartItemId);
    db.carts := RemoveFromCarts(db.carts, cartItemId);
    r := Ok(db.carts[owner]);
  }

  /** Deletes every row of the user's cart; a user without a cart is left as is. */
  method ClearCart(db: Database, userId: string)
    requires Consistent(db.State())
    modifies db
    ensures Consistent(db.State())
    ensures userId !in old(db.carts) ==> db.State() == old(db.State())
    ensures userId in old(db.carts) ==>
      db.State() == old(db.State()).(carts := old(db.carts)[userId := old(db.carts)[userId].(items := [])])
  {
    if userId in db.carts {
      db.carts := db.carts[userId := db.carts[userId].(items := [])];
    }
  }
}
