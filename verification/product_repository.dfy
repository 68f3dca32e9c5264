/**
 * The product repository: stock checks and decrements, inserts, partial updates,
 * deletes, and the filter and paging of the catalogue listing.
 */
module ProductRepository {
  import opened Common
  import opened Store

  /** True exactly when the product exists and has at least `quantity` units; a missing product has none. */
  function CheckStock(products: map<string, Product>, id: string, quantity: int): (r: bool)
    ensures id !in products ==> !r
    ensures id in products ==> (r <==> products[id].stock >= quantity)
  {
    if id in products then products[id].stock >= quantity else false
  }

  /** Whether some product already uses the slug. */
  predicate SlugTaken(products: map<string, Product>, slug: string)
  {
    exists k :: k in products && products[k].slug == slug
  }

  /** Decrements the stock by `quantity`, with no lower bound; a missing product is a database error. */
  method UpdateStock(db: Database, id: string, quantity: int) returns (r: Result<Product, Failure>)
    modifies db
    ensures id !in old(db.products) ==> r == Err(Db(RecordNotFound)) && db.State() == old(db.State())
    ensures id in old(db.products) ==>
      && r == Ok(old(db.products)[id].(stock := old(db.products)[id].stock - quantity))
      && db.State() == old(db.State()).(products := old(db.products)[id := r.value])
    ensures Consistent(old(db.State())) ==> Consistent(db.State())
  {
    if id !in db.products {
      return Err(Db(RecordNotFound));
    }
    var p := db.products[id];
    var updated := p.(stock := p.stock - quantity);
    db.products := db.products[id := updated];
    r := Ok(updated);
  }

  /** The columns of a new product. */
  datatype ProductData = ProductData(
    name: string, slug: string, description: Option<string>, price: int, sku: string,
    stock: int, images: seq<string>, categoryId: string, featured: bool, active: bool)

  function NewProduct(id: string, data: ProductData): (p: Product)
    ensures p.id == id && p.name == data.name && p.slug == data.slug && p.price == data.price
    ensures p.stock == data.stock && p.active == data.active && p.featured == data.featured
    ensures p.description == data.description && p.sku == data.sku && p.images == data.images
    ensures p.categoryId == data.categoryId
  {
    Product(id, data.name, data.slug, data.description, data.price, data.sku, data.stock,
      data.images, data.categoryId, data.featured, data.active)
  }

  /** Inserts a product under a fresh id; the slug column is unique. */
  method Create(db: Database, id: string, data: ProductData) returns (r: Result<Product, Failure>)
    requires id !in db.products
    modifies db
    ensures SlugTaken(old(db.products), data.slug) ==> r == Err(Db(UniqueViolation)) && db.State() == old(db.State())
    ensures !SlugTaken(old(db.products), data.slug) ==>
      && r == Ok(NewProduct(id, data))
      && db.State() == old(db.State()).(products := old(db.products)[id := r.value])
    ensures Consistent(old(db.State())) ==> Consistent(db.State())
  {
    if SlugTaken(db.products, data.slug) {
      return Err(Db(UniqueViolation));
    }
    var p := NewProduct(id, data);
    db.products := db.products[id := p];
    r := Ok(p);
  }

  /** A partial update: absent fields are left alone. */
  datatype ProductPatch = ProductPatch(
    name: Option<string>, slug: Option<string>, description: Option<Option<string>>, price: Option<int>,
    sku: Option<string>, stock: Option<int>, images: Option<seq<string>>, categoryId: Option<string>,
    featured: Option<bool>, active: Option<bool>)

  /**
   * The row after a partial update. The repository passes the price on only when it
   * is truthy, so a price of 0 leaves the stored price unchanged.
   */
  function ApplyPatch(p: Product, patch: ProductPatch): (q: Product)
    ensures q.id == p.id
    ensures q.price == (if patch.price.Some? && patch.price.value != 0 then patch.price.value else p.price)
    ensures patch.slug.None? ==> q.slug == p.slug
    ensures patch.slug.Some? ==> q.slug == patch.slug.value
    ensures patch.stock.None? ==> q.stock == p.stock
    ensures patch.stock.Some? ==> q.stock == patch.stock.value
  {
    Product(
      p.id,
      Patched(patch.name, p.name),
      Patched(patch.slug, p.slug),
      Patched(patch.description, p.description),
      if patch.price.Some? && patch.price.value != 0 then patch.price.value else p.price,
      Patched(patch.sku, p.sku),
      Patched(patch.stock, p.stock),
      Patched(patch.images, p.images),
      Patched(patch.categoryId, p.categoryId),
      Patched(patch.featured, p.featured),
      Patched(patch.active, p.active))
  }

  /** Whether another product than `id` uses the slug. */
  predicate SlugUsedByOther(products: map<string, Product>, id: string, slug: string)
  {
    exists k :: k in products && k != id && products[k].slug == slug
  }

  method Update(db: Database, id: string, patch: ProductPatch) returns (r: Result<Product, Failure>)
    modifies db
    ensures id !in old(db.products) ==> r == Err(Db(RecordNotFound)) && db.State() == old(db.State())
    ensures id in old(db.products) && SlugUsedByOther(old(db.products), id, ApplyPatch(old(db.products)[id], patch).slug) ==>
      r == Err(Db(UniqueViolation)) && db.State() == old(db.State())
    ensures r.Ok? <==> id in old(db.products) && !SlugUsedByOther(old(db.products), id, ApplyPatch(old(db.products)[id], patch).slug)
    ensures r.Ok? ==>
      && id in old(db.products)
      && r.value == ApplyPatch(old(db.products)[id], patch)
      && db.State() == old(db.State()).(products := old(db.products)[id := r.value])
    ensures r.Err? ==> db.State() == old(db.State())
    ensures Consistent(old(db.State())) ==> Consistent(db.State())
  {
    if id !in db.products {
      return Err(Db(RecordNotFound));
    }
    var q := ApplyPatch(db.products[id], patch);
    if SlugUsedByOther(db.products, id, q.slug) {
      return Err(Db(UniqueViolation));
    }
    db.products := db.products[id := q];
    r := Ok(q);
  }

  /** Whether some cart row still refers to the product. */
  predicate InSomeCart(carts: map<string, Cart>, id: string)
  {
    exists u, i :: u in carts && 0 <= i < |carts[u].items| && carts[u].items[i].productId == id
  }

  /** Deletes a product; the database refuses while a cart row refers to it. */
  method Delete(db: Database, id: string) returns (r: Result<(), Failure>)
    modifies db
    ensures id !in old(db.products) ==> r == Err(Db(RecordNotFound))
    ensures id in old(db.products) && InSomeCart(old(db.carts), id) ==> r == Err(Db(ForeignKeyViolation))
    ensures r.Err? ==> db.State() == old(db.State())
    ensures r.Ok? <==> id in old(db.products) && !InSomeCart(old(db.carts), id)
    ensures r.Ok? ==> db.State() == old(db.State()).(products := old(db.products) - {id})
    ensures Consistent(old(db.State())) ==> Consistent(db.State())
  {
    if id !in db.products {
      return Err(Db(RecordNotFound));
    }
    if InSomeCart(db.carts, id) {
      return Err(Db(ForeignKeyViolation));
    }
    db.products := db.products - {id};
    r := Ok(());
  }

  // -------------------------------------------------------------------- listing

  datatype ListParams = ListParams(
    page: Option<int>, limit: Option<int>, categoryId: Option<string>, search: Option<string>, featured: Option<bool>)

  /** The query the listing sends: always active products only, each other filter only when given. */
  datatype ProductQuery = ProductQuery(
    skip: int, take: int, categoryId: Option<string>, search: Option<string>, featured: Option<bool>)

  function FindAllQuery(params: ListParams): (q: ProductQuery)
    ensures q.take == OrNumber(params.limit, 12)
    ensures q.skip == (OrNumber(params.page, 1) - 1) * q.take
    ensures q.categoryId.Some? <==> Truthy(params.categoryId)
    ensures q.search.Some? <==> Truthy(params.search)
    ensures q.featured == params.featured
    ensures q.categoryId.Some? ==> q.categoryId == params.categoryId
    ensures q.search.Some? ==> q.search == params.search
  {
    var page := OrNumber(params.page, 1);
    var limit := OrNumber(params.limit, 12);
    ProductQuery((page - 1) * limit, limit,
      if Truthy(params.categoryId) then params.categoryId else None,
      if Truthy(params.search) then params.search else None,
      params.featured)
  }

  /**
   * Whether a product satisfies the query's filter. Text search is a case-insensitive
   * substring match done by the database; `contains` stands for it.
   */
  predicate Matches(p: Product, q: ProductQuery, contains: (string, string) -> bool)
  {
    && p.active
    && (q.categoryId.Some? ==> p.categoryId == q.categoryId.value)
    && (q.search.Some? ==>
         contains(p.name, q.search.value) || (p.description.Some? && contains(p.description.value, q.search.value)))
    && (q.featured.Some? ==> p.featured == q.featured.value)
  }

  /** The listing never shows an inactive product; without filters it shows every active one, page 1 of 12. */
  lemma ListingShowsActiveOnly(p: Product, params: ListParams, contains: (string, string) -> bool)
    ensures Matches(p, FindAllQuery(params), contains) ==> p.active
    ensures params == ListParams(None, None, None, None, None) ==>
      && FindAllQuery(params) == ProductQuery(0, 12, None, None, None)
      && (Matches(p, FindAllQuery(params), contains) <==> p.active)
  {
  }
}
