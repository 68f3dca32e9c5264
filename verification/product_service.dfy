/**
 * The product service: validation and slug-uniqueness guards in front of the product
 * repository, lookups that fail loudly, and the checked stock decrement.
 */
module ProductService {
  import opened Common
  import opened Store
  import ProductRepository

  const InvalidDataMessage: string := "Dados inválidos"
  const PriceMessage: string := "Preço deve ser maior que zero"
  const StockMessage: string := "Estoque não pode ser negativo"

  /** The product with this id, or the service's not-found error. */
  function GetProductById(products: map<string, Product>, id: string): (r: Result<Product, Failure>)
    ensures r.Ok? <==> id in products
    ensures r.Ok? ==> r.value == products[id]
    ensures r.Err? ==> r.error == Message(ProductNotFoundMessage)
  {
    if id in products then Ok(products[id]) else Err(Message(ProductNotFoundMessage))
  }

  /** The product with this slug, or the service's not-found error; slugs are unique, so there is at most one. */
  method GetProductBySlug(db: Database, slug: string) returns (r: Result<Product, Failure>)
    requires Consistent(db.State())
    ensures r.Ok? <==> ProductRepository.SlugTaken(db.products, slug)
    ensures r.Ok? ==> r.value.slug == slug && r.value.id in db.products && db.products[r.value.id] == r.value
    ensures r.Err? ==> r.error == Message(ProductNotFoundMessage)
  {
    if !ProductRepository.SlugTaken(db.products, slug) {
      return Err(Message(ProductNotFoundMessage));
    }
    var k :| k in db.products && db.products[k].slug == slug;
    r := Ok(db.products[k]);
  }

  /** Why `createProduct` refuses, in the service's order, or None when it goes ahead. */
  function CreateRefusal(products: map<string, Product>, data: ProductRepository.ProductData): (m: Option<string>)
    ensures (data.name == "" || data.slug == "" || data.price == 0) ==> m == Some(InvalidDataMessage)
    ensures m.None? <==>
      data.name != "" && data.slug != "" && data.price > 0 && data.stock >= 0
      && !ProductRepository.SlugTaken(products, data.slug)
    ensures m == Some(SlugInUseMessage) ==> ProductRepository.SlugTaken(products, data.slug)
  {
    if data.name == "" || data.slug == "" || data.price == 0 then Some(InvalidDataMessage)
    else if data.price <= 0 then Some(PriceMessage)
    else if data.stock < 0 then Some(StockMessage)
    else if ProductRepository.SlugTaken(products, data.slug) then Some(SlugInUseMessage)
    else None
  }

  /** Creates a product once the data is valid and its slug is free; a refusal writes nothing. */
  method CreateProduct(db: Database, id: string, data: ProductRepository.ProductData) returns (r: Result<Product, Failure>)
    requires Consistent(db.State())
    requires id !in db.products
    modifies db
    ensures Consistent(db.State())
    ensures CreateRefusal(old(db.products), data).Some? ==>
      r == Err(Message(CreateRefusal(old(db.products), data).value)) && db.State() == old(db.State())
    ensures CreateRefusal(old(db.products), data).None? ==>
      && r == Ok(ProductRepository.NewProduct(id, data))
      && db.State() == old(db.State()).(products := old(db.products)[id := r.value])
    ensures r.Ok? ==> r.value.price > 0 && r.value.stock >= 0
  {
    if data.name == "" || data.slug == "" || data.price == 0 {
      return Err(Message(InvalidDataMessage));
    }
    if data.price <= 0 {
      return Err(Message(PriceMessage));
    }
    if data.stock < 0 {
      return Err(Message(StockMessage));
    }
    if ProductRepository.SlugTaken(db.products, data.slug) {
      return Err(Message(SlugInUseMessage));
    }
    r := ProductRepository.Create(db, id, data);
  }

  /**
   * Why `updateProduct` refuses, in the service's order, or None when it goes ahead.
   * Price and stock are checked only when given; the slug only when it is given,
   * non-empty and different from the current one.
   */
  function UpdateRefusal(products: map<string, Product>, id: string, patch: ProductRepository.ProductPatch): (m: Option<string>)
    ensures id !in products ==> m == Some(ProductNotFoundMessage)
    ensures m.None? <==>
      && id in products
      && (patch.price.Some? ==> patch.price.value > 0)
      && (patch.stock.Some? ==> patch.stock.value >= 0)
      && !(Truthy(patch.slug) && patch.slug.value != products[id].slug && ProductRepository.SlugTaken(products, patch.slug.value))
  {
    if id !in products then Some(ProductNotFoundMessage)
    else if patch.price.Some? && patch.price.value <= 0 then Some(PriceMessage)
    else if patch.stock.Some? && patch.stock.value < 0 then Some(StockMessage)
    else if Truthy(patch.slug) && patch.slug.value != products[id].slug
         && ProductRepository.SlugTaken(products, patch.slug.value) then Some(SlugInUseMessage)
    else None
  }

  method UpdateProduct(db: Database, id: string, patch: ProductRepository.ProductPatch) returns (r: Result<Product, Failure>)
    requires Consistent(db.State())
    modifies db
    ensures Consistent(db.State())
    ensures UpdateRefusal(old(db.products), id, patch).Some? ==>
      r == Err(Message(UpdateRefusal(old(db.products), id, patch).value)) && db.State() == old(db.State())
    ensures r.Err? ==> db.State() == old(db.State())
    ensures r.Ok? ==> UpdateRefusal(old(db.products), id, patch).None?
    ensures UpdateRefusal(old(db.products), id, patch).None? && patch.slug != Some("") ==> r.Ok?
    ensures r.Ok? ==>
      && r.value == ProductRepository.ApplyPatch(old(db.products)[id], patch)
      && db.State() == old(db.State()).(products := old(db.products)[id := r.value])
  {
    if id !in db.products {
      return Err(Message(ProductNotFoundMessage));
    }
    var existing := db.products[id];
    if patch.price.Some? && patch.price.value <= 0 {
      return Err(Message(PriceMessage));
    }
    if patch.stock.Some? && patch.stock.value < 0 {
      return Err(Message(StockMessage));
    }
    if Truthy(patch.slug) && patch.slug.value != existing.slug {
      if ProductRepository.SlugTaken(db.products, patch.slug.value) {
        return Err(Message(SlugInUseMessage));
      }
    }
    UpdateKeepsProductValid(db.products, id, patch);
    r := ProductRepository.Update(db, id, patch);
  }

  /**
   * An accepted update keeps a positive price positive and a non-negative stock
   * non-negative; a given, non-empty slug that passed the guard belongs to no other product.
   */
  lemma UpdateKeepsProductValid(products: map<string, Product>, id: string, patch: ProductRepository.ProductPatch)
    requires UniqueProductSlugs(products)
    requires UpdateRefusal(products, id, patch).None?
    ensures var q := ProductRepository.ApplyPatch(products[id], patch);
      && (products[id].price > 0 ==> q.price > 0)
      && (products[id].stock >= 0 ==> q.stock >= 0)
      && (patch.slug != Some("") ==> !ProductRepository.SlugUsedByOther(products, id, q.slug))
  {
    if patch.slug.None? {
      forall k | k in products && k != id ensures products[k].slug != products[id].slug {
      }
    } else if Truthy(patch.slug) {
      forall k | k in products && k != id ensures products[k].slug != patch.slug.value {
        if patch.slug.value == products[id].slug {
          assert products[k].slug != products[id].slug;
        }
      }
    }
  }

  /** Deletes a known product; the database may still refuse while a cart refers to it. */
  method DeleteProduct(db: Database, id: string) returns (r: Result<(), Failure>)
    requires Consistent(db.State())
    modifies db
    ensures Consistent(db.State())
    ensures id !in old(db.products) ==> r == Err(Message(ProductNotFoundMessage)) && db.State() == old(db.State())
    ensures id in old(db.products) && ProductRepository.InSomeCart(old(db.carts), id) ==>
      r == Err(Db(ForeignKeyViolation)) && db.State() == old(db.State())
    ensures r.Ok? <==> id in old(db.products) && !ProductRepository.InSomeCart(old(db.carts), id)
    ensures r.Ok? ==> db.State() == old(db.State()).(products := old(db.products) - {id})
  {
    var found := GetProductById(db.products, id);
    if found.Err? {
      return Err(found.error);
    }
    r := ProductRepository.Delete(db, id);
  }

  /** Decrements the stock only when it covers the quantity, so this path never drives stock below zero. */
  method DecrementStock(db: Database, id: string, quantity: int) returns (r: Result<Product, Failure>)
    requires Consistent(db.State())
    modifies db
    ensures Consistent(db.State())
    ensures !ProductRepository.CheckStock(old(db.products), id, quantity) ==>
      r == Err(Message(InsufficientStockMessage)) && db.State() == old(db.State())
    ensures ProductRepository.CheckStock(old(db.products), id, quantity) ==>
      && r == Ok(old(db.products)[id].(stock := old(db.products)[id].stock - quantity))
      && db.State() == old(db.State()).(products := old(db.products)[id := r.value])
    ensures r.Ok? ==> r.value.stock >= 0
    ensures StockNonNegative(old(db.products)) ==> StockNonNegative(db.products)
  {
    if !ProductRepository.CheckStock(db.products, id, quantity) {
      return Err(Message(InsufficientStockMessage));
    }
    r := ProductRepository.UpdateStock(db, id, quantity);
  }
}
