/**
 * The category service: lookups that fail loudly, required fields, and slug uniqueness
 * on create and update. The repository it calls does single-row writes, which are
 * written out here on the categories table.
 */
module CategoryService {
  import opened Common
  import opened Store

  const CategoryNotFoundMessage: string := "Categoria não encontrada"
  const RequiredFieldsMessage: string := "Nome e slug são obrigatórios"

  predicate CategorySlugTaken(categories: map<string, Category>, slug: string)
  {
    exists k :: k in categories && categories[k].slug == slug
  }

  predicate CategorySlugUsedByOther(categories: map<string, Category>, id: string, slug: string)
  {
    exists k :: k in categories && k != id && categories[k].slug == slug
  }

  function GetCategoryById(categories: map<string, Category>, id: string): (r: Result<Category, Failure>)
    ensures r.Ok? <==> id in categories
    ensures r.Ok? ==> r.value == categories[id]
    ensures r.Err? ==> r.error == Message(CategoryNotFoundMessage)
  {
    if id in categories then Ok(categories[id]) else Err(Message(CategoryNotFoundMessage))
  }

  /** The category with this slug, or the not-found error; slugs are unique, so there is at most one. */
  method GetCategoryBySlug(db: Database, slug: string) returns (r: Result<Category, Failure>)
    requires Consistent(db.State())
    ensures r.Ok? <==> CategorySlugTaken(db.categories, slug)
    ensures r.Ok? ==> r.value.slug == slug && r.value.id in db.categories && db.categories[r.value.id] == r.value
    ensures r.Err? ==> r.error == Message(CategoryNotFoundMessage)
  {
    if !CategorySlugTaken(db.categories, slug) {
      return Err(Message(CategoryNotFoundMessage));
    }
    var k :| k in db.categories && db.categories[k].slug == slug;
    r := Ok(db.categories[k]);
  }

  datatype CategoryData = CategoryData(name: string, slug: string, description: Option<string>, image: Option<string>)

  /** Creates a category under a fresh id once name and slug are given and the slug is free. */
  method CreateCategory(db: Database, id: string, data: CategoryData) returns (r: Result<Category, Failure>)
    requires Consistent(db.State())
    requires id !in db.categories
    modifies db
    ensures Consistent(db.State())
    ensures (data.name == "" || data.slug == "") ==> r == Err(Message(RequiredFieldsMessage))
    ensures data.name != "" && data.slug != "" && CategorySlugTaken(old(db.categories), data.slug) ==>
      r == Err(Message(SlugInUseMessage))
    ensures r.Err? ==> db.State() == old(db.State())
    ensures r.Ok? <==> data.name != "" && data.slug != "" && !CategorySlugTaken(old(db.categories), data.slug)
    ensures r.Ok? ==>
      && r.value == Category(id, data.name, data.slug, data.description, data.image)
      && db.State() == old(db.State()).(categories := old(db.categories)[id := r.value])
  {
    if data.name == "" || data.slug == "" {
      return Err(Message(RequiredFieldsMessage));
    }
    if CategorySlugTaken(db.categories, data.slug) {
      return Err(Message(SlugInUseMessage));
    }
    var c := Category(id, data.name, data.slug, data.description, data.image);
    db.categories := db.categories[id := c];
    r := Ok(c);
  }

  /** A partial update: absent fields are left alone. */
  datatype CategoryPatch = CategoryPatch(
    name: Option<string>, slug: Option<string>, description: Option<Option<string>>, image: Option<Option<string>>)

  function ApplyCategoryPatch(c: Category, patch: CategoryPatch): (d: Category)
    ensures d.id == c.id
    ensures d.slug == if patch.slug.Some? then patch.slug.value else c.slug
    ensures d.name == if patch.name.Some? then patch.name.value else c.name
  {
    Category(
      c.id,
      Patched(patch.name, c.name),
      Patched(patch.slug, c.slug),
      Patched(patch.description, c.description),
      Patched(patch.image, c.image))
  }

  /**
   * Updates a known category. The service checks the slug only when it is given,
   * non-empty and changed; a write that would still duplicate a slug is refused by the
   * database.
   */
  method UpdateCategory(db: Database, id: string, patch: CategoryPatch) returns (r: Result<Category, Failure>)
    requires Consistent(db.State())
    modifies db
    ensures Consistent(db.State())
    ensures id !in old(db.categories) ==> r == Err(Message(CategoryNotFoundMessage))
    ensures (id in old(db.categories) && Truthy(patch.slug) && patch.slug.value != old(db.categories)[id].slug
             && CategorySlugTaken(old(db.categories), patch.slug.value)) ==> r == Err(Message(SlugInUseMessage))
    ensures r.Err? ==> db.State() == old(db.State())
    ensures r.Ok? ==>
      && id in old(db.categories)
      && r.value == ApplyCategoryPatch(old(db.categories)[id], patch)
      && db.State() == old(db.State()).(categories := old(db.categories)[id := r.value])
    ensures id in old(db.categories) && !CategorySlugUsedByOther(old(db.categories), id, ApplyCategoryPatch(old(db.categories)[id], patch).slug)
      ==> r.Ok?
  {
    var found := GetCategoryById(db.categories, id);
    if found.Err? {
      return Err(found.error);
    }
    if Truthy(patch.slug) && patch.slug.value != found.value.slug {
      if CategorySlugTaken(db.categories, patch.slug.value) {
        return Err(Message(SlugInUseMessage));
      }
    }
    var c := ApplyCategoryPatch(found.value, patch);
    if CategorySlugUsedByOther(db.categories, id, c.slug) {
      return Err(Db(UniqueViolation));
    }
    ghost var t := db.State();
    CategoryWriteConsistent(t, id, c);
    db.categories := db.categories[id := c];
    assert db.State() == t.(categories := t.categories[id := c]);
    r := Ok(c);
  }

  /** Overwriting a category under its own id with a slug no other category uses keeps the tables consistent. */
  lemma CategoryWriteConsistent(t: Tables, id: string, c: Category)
    requires Consistent(t) && id in t.categories && c.id == id
    requires !CategorySlugUsedByOther(t.categories, id, c.slug)
    ensures Consistent(t.(categories := t.categories[id := c]))
  {
    var cs := t.categories[id := c];
    forall a, b | a in cs && b in cs && cs[a].slug == cs[b].slug ensures a == b {
      if a != id && b != id {
        assert cs[a] == t.categories[a] && cs[b] == t.categories[b];
      }
    }
  }

  /** Deletes a known category and nothing else. */
  method DeleteCategory(db: Database, id: string) returns (r: Result<(), Failure>)
    requires Consistent(db.State())
    modifies db
    ensures Consistent(db.State())
    ensures id !in old(db.categories) ==> r == Err(Message(CategoryNotFoundMessage)) && db.State() == old(db.State())
    ensures id in old(db.categories) ==>
      r.Ok? && db.State() == old(db.State()).(categories := old(db.categories) - {id})
  {
    var found := GetCategoryById(db.categories, id);
    if found.Err? {
      return Err(found.error);
    }
    db.categories := db.categories - {id};
    r := Ok(());
  }
}
