/**
 * The browser-side cart store: a list of items and whether the cart drawer is open.
 * The store's setters replace the list wholesale, so the class holds it as a `seq`
 * field that each method reassigns. Prices and quantities are JavaScript numbers; the
 * model keeps them as integers (prices in cents).
 */
module ClientCart {
  import opened Common

  datatype CartItem = CartItem(
    id: string, productId: string, name: string, slug: string,
    price: int, quantity: int, image: Option<string>, stock: int)

  /** What `addItem` receives: an item without its id. */
  datatype NewItem = NewItem(
    productId: string, name: string, slug: string,
    price: int, quantity: int, image: Option<string>, stock: int)

  function WithId(item: NewItem, id: string): CartItem
  {
    CartItem(id, item.productId, item.name, item.slug, item.price, item.quantity, item.image, item.stock)
  }

  /** The id a new item gets: its product id and the clock reading, joined by a dash. */
  function ItemId(productId: string, now: int): string
  {
    productId + "-" + IntToString(now)
  }

  /** Some item of the list is for this product. */
  predicate Holds(items: seq<CartItem>, productId: string)
  {
    exists i :: 0 <= i < |items| && items[i].productId == productId
  }

  /** The invariant addItem's merge keeps: no two items for the same product. */
  predicate OneItemPerProduct(items: seq<CartItem>)
  {
    forall i, j :: 0 <= i < j < |items| ==> items[i].productId != items[j].productId
  }

  /** The list after adding `added` more of a product already held: its quantity is raised and clamped to `stock`. */
  function Merged(items: seq<CartItem>, productId: string, added: int, stock: int): (r: seq<CartItem>)
    ensures |r| == |items|
    ensures forall j :: 0 <= j < |items| ==>
      r[j] == if items[j].productId == productId then items[j].(quantity := Min(items[j].quantity + added, stock)) else items[j]
  {
    if items == [] then []
    else
      var head := items[0];
      [if head.productId == productId then head.(quantity := Min(head.quantity + added, stock)) else head]
        + Merged(items[1..], productId, added, stock)
  }

  /** The list after `addItem`: merged into the product's item when there is one, appended unclamped otherwise. */
  function Added(items: seq<CartItem>, item: NewItem, id: string): seq<CartItem>
  {
    if Holds(items, item.productId) then Merged(items, item.productId, item.quantity, item.stock)
    else items + [WithId(item, id)]
  }

  /** The list without the product's items, the others in their order. */
  function Without(items: seq<CartItem>, productId: string): (r: seq<CartItem>)
    ensures |r| <= |items|
    ensures forall x :: x in r <==> x in items && x.productId != productId
    ensures !Holds(r, productId)
  {
    if items == [] then []
    else if items[0].productId == productId then Without(items[1..], productId)
    else [items[0]] + Without(items[1..], productId)
  }

  /** The list after setting a positive quantity: the product's items take it, clamped to their own stock. */
  function WithQuantity(items: seq<CartItem>, productId: string, quantity: int): (r: seq<CartItem>)
    ensures |r| == |items|
    ensures forall j :: 0 <= j < |items| ==>
      r[j] == if items[j].productId == productId then items[j].(quantity := Min(quantity, items[j].stock)) else items[j]
    ensures forall j :: 0 <= j < |items| && items[j].productId == productId ==> r[j].quantity <= r[j].stock
  {
    if items == [] then []
    else
      var head := items[0];
      [if head.productId == productId then head.(quantity := Min(quantity, head.stock)) else head]
        + WithQuantity(items[1..], productId, quantity)
  }

  /** A left fold of a weight over the list, as `reduce((total, item) => total + w(item), 0)`. */
  function Sum(items: seq<CartItem>, w: CartItem -> int): (r: int)
    ensures (forall i :: 0 <= i < |items| ==> w(items[i]) >= 0) ==> r >= 0
  {
    if items == [] then 0 else Sum(items[..|items| - 1], w) + w(items[|items| - 1])
  }

  function Quantity(item: CartItem): int
  {
    item.quantity
  }

  function Subtotal(item: CartItem): int
  {
    item.price * item.quantity
  }

  class CartStore {
    var items: seq<CartItem>
    var isOpen: bool

    constructor()
      ensures items == [] && !isOpen
    {
      items := [];
      isOpen := false;
    }

    /** Adds an item, merging with the product's existing item; `now` is the clock reading used for a new item's id. */
    method AddItem(item: NewItem, now: int)
      modifies this
      ensures items == Added(old(items), item, ItemId(item.productId, now))
      ensures isOpen
      ensures OneItemPerProduct(old(items)) ==> OneItemPerProduct(items)
    {
      if Holds(items, item.productId) {
        items := Merged(items, item.productId, item.quantity, item.stock);
      } else {
        items := items + [WithId(item, ItemId(item.productId, now))];
      }
      isOpen := true;
      AddKeepsOneItemPerProduct(old(items), item, ItemId(item.productId, now));
    }

    method RemoveItem(productId: string)
      modifies this
      ensures items == Without(old(items), productId) && isOpen == old(isOpen)
      ensures OneItemPerProduct(old(items)) ==> OneItemPerProduct(items)
    {
      items := Without(items, productId);
      WithoutKeepsOneItemPerProduct(old(items), productId);
    }

    /** A quantity of zero or less removes the product, exactly as `RemoveItem`. */
    method UpdateQuantity(productId: string, quantity: int)
      modifies this
      ensures quantity <= 0 ==> items == Without(old(items), productId)
      ensures quantity > 0 ==> items == WithQuantity(old(items), productId, quantity)
      ensures isOpen == old(isOpen)
      ensures OneItemPerProduct(old(items)) ==> OneItemPerProduct(items)
    {
      if quantity <= 0 {
        RemoveItem(productId);
        return;
      }
      items := WithQuantity(items, productId, quantity);
      assert forall j :: 0 <= j < |items| ==> items[j].productId == old(items)[j].productId;
    }

    method ClearCart()
      modifies this
      ensures items == [] && isOpen == old(isOpen)
    {
      items := [];
    }

    method OpenCart()
      modifies this
      ensures isOpen && items == old(items)
    {
      isOpen := true;
    }

    method CloseCart()
      modifies this
      ensures !isOpen && items == old(items)
    {
      isOpen := false;
    }

    method ToggleCart()
      modifies this
      ensures isOpen == !old(isOpen) && items == old(items)
    {
      isOpen := !isOpen;
    }

    /** The number of units in the cart. */
    function GetItemCount(): (n: int)
      reads this
      ensures n == Sum(items, Quantity)
      ensures (forall i :: 0 <= i < |items| ==> items[i].quantity >= 0) ==> n >= 0
    {
      Sum(items, Quantity)
    }

    /** What the cart costs: the sum of price times quantity. */
    function GetTotal(): (total: int)
      reads this
      ensures total == Sum(items, Subtotal)
      ensures (forall i :: 0 <= i < |items| ==> items[i].price >= 0 && items[i].quantity >= 0) ==> total >= 0
    {
      assert forall i :: 0 <= i < |items| && items[i].price >= 0 && items[i].quantity >= 0 ==> Subtotal(items[i]) >= 0;
      Sum(items, Subtotal)
    }
  }

  // ------------------------------------------------------------------- properties

  /**
   * addItem either raises the existing item's quantity to min(old + added, stock), with
   * every other item and every other field unchanged, or appends one item at the end
   * carrying the given quantity, not clamped to stock.
   */
  lemma AddItemMergesOrAppends(items: seq<CartItem>, item: NewItem, id: string)
    ensures var r := Added(items, item, id);
      && (Holds(items, item.productId) ==>
            && |r| == |items|
            && forall j :: 0 <= j < |items| ==>
                 && r[j].id == items[j].id && r[j].productId == items[j].productId
                 && r[j].price == items[j].price && r[j].stock == items[j].stock
                 && r[j].quantity == (if items[j].productId == item.productId
                                      then Min(items[j].quantity + item.quantity, item.stock) else items[j].quantity))
      && (!Holds(items, item.productId) ==>
            && r[..|items|] == items && |r| == |items| + 1
            && r[|items|].id == id && r[|items|].productId == item.productId
            && r[|items|].quantity == item.quantity && r[|items|].stock == item.stock)
  {
    if !Holds(items, item.productId) {
      assert (items + [WithId(item, id)])[..|items|] == items;
    }
  }

  /** addItem keeps at most one item per product. */
  lemma AddKeepsOneItemPerProduct(items: seq<CartItem>, item: NewItem, id: string)
    ensures OneItemPerProduct(items) ==> OneItemPerProduct(Added(items, item, id))
  {
    var r := Added(items, item, id);
    if OneItemPerProduct(items) {
      if Holds(items, item.productId) {
        assert forall j :: 0 <= j < |items| ==> r[j].productId == items[j].productId;
      } else {
        assert forall j :: 0 <= j < |items| ==> r[j] == items[j];
      }
    }
  }

  /** removeItem keeps at most one item per product. */
  lemma WithoutKeepsOneItemPerProduct(items: seq<CartItem>, productId: string)
    ensures OneItemPerProduct(items) ==> OneItemPerProduct(Without(items, productId))
  {
    if items != [] {
      WithoutKeepsOneItemPerProduct(items[1..], productId);
      if OneItemPerProduct(items) && items[0].productId != productId {
        var rest := Without(items[1..], productId);
        assert forall x :: x in rest ==> x in items[1..];
        assert forall x :: x in items[1..] ==> x.productId != items[0].productId;
      }
    }
  }

  /** The fold over a concatenation is the sum of the folds. */
  lemma {:induction false} SumConcat(a: seq<CartItem>, b: seq<CartItem>, w: CartItem -> int)
    ensures Sum(a + b, w) == Sum(a, w) + Sum(b, w)
  {
    if b == [] {
      assert a + b == a;
    } else {
      SumConcat(a, b[..|b| - 1], w);
      assert (a + b)[..|a + b| - 1] == a + b[..|b| - 1];
    }
  }

  /** Removing a product that no item holds leaves the list as it is. */
  lemma {:induction false} WithoutAbsent(items: seq<CartItem>, productId: string)
    requires !Holds(items, productId)
    ensures Without(items, productId) == items
  {
    if items != [] {
      assert items[0].productId != productId;
      assert !Holds(items[1..], productId) by {
        forall i | 0 <= i < |items[1..]| ensures items[1..][i].productId != productId {
          assert items[1..][i] == items[i + 1];
        }
      }
      WithoutAbsent(items[1..], productId);
      assert items == [items[0]] + items[1..];
    }
  }

  /** removeItem is idempotent. */
  lemma RemoveIdempotent(items: seq<CartItem>, productId: string)
    ensures Without(Without(items, productId), productId) == Without(items, productId)
  {
    WithoutAbsent(Without(items, productId), productId);
  }

  lemma {:induction false} WithoutConcat(a: seq<CartItem>, b: seq<CartItem>, productId: string)
    ensures Without(a + b, productId) == Without(a, productId) + Without(b, productId)
  {
    if a != [] {
      var ab := a + b;
      assert ab[0] == a[0] && ab[1..] == a[1..] + b;
      WithoutConcat(a[1..], b, productId);
      if a[0].productId == productId {
        assert Without(ab, productId) == Without(a[1..] + b, productId);
        assert Without(a, productId) == Without(a[1..], productId);
      } else {
        assert Without(ab, productId) == [a[0]] + Without(a[1..] + b, productId);
        assert Without(a, productId) == [a[0]] + Without(a[1..], productId);
      }
    } else {
      assert a + b == b;
    }
  }

  /** A list is its prefix, the item at `i` and its suffix. */
  lemma SplitAt(items: seq<CartItem>, i: int)
    requires 0 <= i < |items|
    ensures items == items[..i] + [items[i]] + items[i + 1..]
  {
  }

  /** Appending one item adds its weight. */
  lemma SumSnoc(a: seq<CartItem>, x: CartItem, w: CartItem -> int)
    ensures Sum(a + [x], w) == Sum(a, w) + w(x)
  {
    assert (a + [x])[..|a|] == a;
  }

  /** Replacing the item at `i` by `x` changes the fold by the difference of their weights. */
  lemma SumReplace(items: seq<CartItem>, i: int, x: CartItem, w: CartItem -> int)
    requires 0 <= i < |items|
    ensures Sum(items[..i] + [x] + items[i + 1..], w) == Sum(items, w) - w(items[i]) + w(x)
  {
    var pre, post := items[..i], items[i + 1..];
    SumConcat(pre + [x], post, w);
    SumSnoc(pre, x, w);
    SplitAt(items, i);
    SumConcat(pre + [items[i]], post, w);
    SumSnoc(pre, items[i], w);
  }

  /** The fold without the item at `i`. */
  lemma SumDelete(items: seq<CartItem>, i: int, w: CartItem -> int)
    requires 0 <= i < |items|
    ensures Sum(items[..i] + items[i + 1..], w) == Sum(items, w) - w(items[i])
  {
    var pre, post := items[..i], items[i + 1..];
    SumConcat(pre, post, w);
    SplitAt(items, i);
    SumConcat(pre + [items[i]], post, w);
    SumSnoc(pre, items[i], w);
  }

  /** With one item per product, no item before or after a product's item is for that product. */
  lemma NotHeldAround(items: seq<CartItem>, i: int)
    requires OneItemPerProduct(items) && 0 <= i < |items|
    ensures !Holds(items[..i], items[i].productId) && !Holds(items[i + 1..], items[i].productId)
  {
    var p := items[i].productId;
    forall k | 0 <= k < i ensures items[..i][k].productId != p {
      assert items[..i][k] == items[k];
    }
    var post := items[i + 1..];
    forall k | 0 <= k < |post| ensures post[k].productId != p {
      assert post[k] == items[i + 1 + k];
    }
  }

  /**
   * With one item per product, removing a held product deletes exactly its item, keeps
   * the others in order, and takes its weight (units, subtotal) off the fold.
   */
  lemma RemoveDeletesOneItem(items: seq<CartItem>, i: int, w: CartItem -> int)
    requires OneItemPerProduct(items) && 0 <= i < |items|
    ensures Without(items, items[i].productId) == items[..i] + items[i + 1..]
    ensures Sum(Without(items, items[i].productId), w) == Sum(items, w) - w(items[i])
  {
    WithoutSplits(items, i);
    SumDelete(items, i, w);
  }

  lemma WithoutSplits(items: seq<CartItem>, i: int)
    requires OneItemPerProduct(items) && 0 <= i < |items|
    ensures Without(items, items[i].productId) == items[..i] + items[i + 1..]
  {
    SplitAt(items, i);
    NotHeldAround(items, i);
    WithoutAroundOne(items[..i], items[i], items[i + 1..]);
  }

  /** Removing the product of the one item between two lists that do not hold it leaves the two lists. */
  lemma WithoutAroundOne(pre: seq<CartItem>, x: CartItem, post: seq<CartItem>)
    requires !Holds(pre, x.productId) && !Holds(post, x.productId)
    ensures Without(pre + [x] + post, x.productId) == pre + post
  {
    var p := x.productId;
    var rest := [x] + post;
    assert pre + [x] + post == pre + rest;
    calc {
      Without(pre + rest, p);
      == { WithoutConcat(pre, rest, p); }
      Without(pre, p) + Without(rest, p);
      == { WithoutAbsent(pre, p); }
      pre + Without(rest, p);
      == { assert rest[0] == x && rest[1..] == post; WithoutAbsent(post, p); }
      pre + post;
    }
  }

  /**
   * With one item per product, adding a held product changes the unit count by the
   * clamped difference, and adding a new product adds exactly the given quantity.
   */
  lemma AddItemCount(items: seq<CartItem>, item: NewItem, id: string)
    requires OneItemPerProduct(items)
    ensures !Holds(items, item.productId) ==>
      Sum(Added(items, item, id), Quantity) == Sum(items, Quantity) + item.quantity
    ensures forall i :: 0 <= i < |items| && items[i].productId == item.productId ==>
      Sum(Added(items, item, id), Quantity)
        == Sum(items, Quantity) - items[i].quantity + Min(items[i].quantity + item.quantity, item.stock)
  {
    if !Holds(items, item.productId) {
      SumSnoc(items, WithId(item, id), Quantity);
    }
    forall i | 0 <= i < |items| && items[i].productId == item.productId
      ensures Sum(Added(items, item, id), Quantity)
        == Sum(items, Quantity) - items[i].quantity + Min(items[i].quantity + item.quantity, item.stock)
    {
      MergedCount(items, item, id, i);
    }
  }

  /** The count after merging into the held item at position `i`. */
  lemma MergedCount(items: seq<CartItem>, item: NewItem, id: string, i: int)
    requires OneItemPerProduct(items) && 0 <= i < |items| && items[i].productId == item.productId
    ensures Sum(Added(items, item, id), Quantity)
      == Sum(items, Quantity) - items[i].quantity + Min(items[i].quantity + item.quantity, item.stock)
  {
    var m := items[i].(quantity := Min(items[i].quantity + item.quantity, item.stock));
    AddedAtHeld(items, item, id, i);
    SumReplace(items, i, m, Quantity);
  }

  /** Adding a held product rewrites its item at position `i` and nothing else. */
  lemma AddedAtHeld(items: seq<CartItem>, item: NewItem, id: string, i: int)
    requires OneItemPerProduct(items) && 0 <= i < |items| && items[i].productId == item.productId
    ensures Added(items, item, id)
      == items[..i] + [items[i].(quantity := Min(items[i].quantity + item.quantity, item.stock))] + items[i + 1..]
  {
    AddedHeld(items, item, id, i);
    MergedAt(items, i, item.quantity, item.stock);
  }

  /** A product held at position `i` is merged, not appended. */
  lemma AddedHeld(items: seq<CartItem>, item: NewItem, id: string, i: int)
    requires 0 <= i < |items| && items[i].productId == item.productId
    ensures Added(items, item, id) == Merged(items, items[i].productId, item.quantity, item.stock)
  {
    assert Holds(items, item.productId);
  }

  /** With one item per product, the merge rewrites the product's item and nothing else. */
  lemma MergedAt(items: seq<CartItem>, i: int, added: int, stock: int)
    requires OneItemPerProduct(items) && 0 <= i < |items|
    ensures Merged(items, items[i].productId, added, stock)
      == items[..i] + [items[i].(quantity := Min(items[i].quantity + added, stock))] + items[i + 1..]
  {
    var r := Merged(items, items[i].productId, added, stock);
    var e := items[..i] + [items[i].(quantity := Min(items[i].quantity + added, stock))] + items[i + 1..];
    assert |r| == |e|;
    forall j | 0 <= j < |r| ensures r[j] == e[j] {
      if j < i {
        assert e[j] == items[j];
      } else if j > i {
        assert e[j] == items[j];
      }
    }
  }

  /** updateQuantity with a positive quantity keeps the products, hence one item per product. */
  lemma UpdateKeepsProducts(items: seq<CartItem>, productId: string, quantity: int)
    ensures forall j :: 0 <= j < |items| ==> WithQuantity(items, productId, quantity)[j].productId == items[j].productId
    ensures OneItemPerProduct(items) ==> OneItemPerProduct(WithQuantity(items, productId, quantity))
  {
  }
}
