/**
  The product side of the connector: dirty tracking on `write`, the export
  payload, category get-or-create, and the import upsert keyed by remote id.
*/
module ProductTemplate {
  import opened Common
  import opened Schema
  import opened Sync

  // ------------------------------------------------------------ dirty tracking

  /** The values of one `write`/`create` call; `None` means the key is absent. */
  datatype ProductVals = ProductVals(
    name: Option<string>,
    descriptionSale: Option<string>,
    listPrice: Option<real>,
    discountPercentage: Option<real>,
    rating: Option<real>,
    brand: Option<string>,
    stock: Option<real>,
    categId: Option<nat>,
    detailedType: Option<string>,
    taxes: Option<set<nat>>,
    image: Option<Image>,
    websitePublished: Option<bool>,
    integrationId: Option<nat>,
    dummyErpId: Option<int>,
    updateToDummyErp: Option<bool>)

  const NoVals := ProductVals(None, None, None, None, None, None, None, None, None, None, None, None, None, None, None)

  /** The keys of `vals`, by their field names. */
  function FieldNames(v: ProductVals): set<string> {
    (if v.name.Some? then {"name"} else {}) +
    (if v.descriptionSale.Some? then {"description_sale"} else {}) +
    (if v.listPrice.Some? then {"list_price"} else {}) +
    (if v.discountPercentage.Some? then {"discount_percentage"} else {}) +
    (if v.rating.Some? then {"dummy_erp_rating"} else {}) +
    (if v.brand.Some? then {"dummy_erp_brand"} else {}) +
    (if v.stock.Some? then {"dummy_erp_stock"} else {}) +
    (if v.categId.Some? then {"categ_id"} else {}) +
    (if v.detailedType.Some? then {"detailed_type"} else {}) +
    (if v.taxes.Some? then {"taxes_id"} else {}) +
    (if v.image.Some? then {"image_1920"} else {}) +
    (if v.websitePublished.Some? then {"website_published"} else {}) +
    (if v.integrationId.Some? then {"dummy_erp_integration_id"} else {}) +
    (if v.dummyErpId.Some? then {"dummy_erp_id"} else {}) +
    (if v.updateToDummyErp.Some? then {"update_to_dummy_erp"} else {})
  }

  /**
    The fields whose change must reach the remote side. The list names
    `product_categ_id`, which is not a field of the product model, so a change of
    `categ_id` is not among them.
  */
  const WatchedFields: set<string> := {
    "image_1920", "name", "description_sale", "list_price", "discount_percentage",
    "dummy_erp_rating", "dummy_erp_brand", "product_categ_id", "dummy_erp_stock"}

  /** Whether a write marks the product: a watched key is present and tracking is not suppressed. */
  predicate Tracked(vals: ProductVals, suppress: bool) {
    FieldNames(vals) * WatchedFields != {} && !suppress
  }

  /** Every key present in `v` holds its value in `p`. */
  predicate Carries(p: Product, v: ProductVals) {
    && (v.name.Some? ==> p.name == v.name.value)
    && (v.descriptionSale.Some? ==> p.descriptionSale == v.descriptionSale)
    && (v.listPrice.Some? ==> p.listPrice == v.listPrice.value)
    && (v.discountPercentage.Some? ==> p.discountPercentage == v.discountPercentage.value)
    && (v.rating.Some? ==> p.rating == v.rating.value)
    && (v.brand.Some? ==> p.brand == v.brand)
    && (v.stock.Some? ==> p.stock == v.stock.value)
    && (v.categId.Some? ==> p.categId == v.categId.value)
    && (v.detailedType.Some? ==> p.detailedType == v.detailedType.value)
    && (v.taxes.Some? ==> p.taxes == v.taxes.value)
    && (v.image.Some? ==> p.image == v.image.value)
    && (v.websitePublished.Some? ==> p.websitePublished == v.websitePublished.value)
    && (v.integrationId.Some? ==> p.integrationId == v.integrationId)
    && (v.dummyErpId.Some? ==> p.dummyErpId == v.dummyErpId.value)
    && (v.updateToDummyErp.Some? ==> p.updateToDummyErp == v.updateToDummyErp.value)
  }

  /**
    The plain ORM write: every present key overwrites its field, and a write
    without keys changes nothing.
  */
  function ApplyVals(p: Product, v: ProductVals): (r: Product)
    ensures Carries(r, v)
    ensures v == NoVals ==> r == p
  {
    Product(
      v.name.GetOr(p.name),
      if v.descriptionSale.Some? then v.descriptionSale else p.descriptionSale,
      v.listPrice.GetOr(p.listPrice),
      v.discountPercentage.GetOr(p.discountPercentage),
      v.rating.GetOr(p.rating),
      if v.brand.Some? then v.brand else p.brand,
      v.stock.GetOr(p.stock),
      v.categId.GetOr(p.categId),
      v.detailedType.GetOr(p.detailedType),
      v.taxes.GetOr(p.taxes),
      v.image.GetOr(p.image),
      v.websitePublished.GetOr(p.websitePublished),
      if v.integrationId.Some? then v.integrationId else p.integrationId,
      v.dummyErpId.GetOr(p.dummyErpId),
      v.updateToDummyErp.GetOr(p.updateToDummyErp))
  }

  /**
    The overridden `write`: the flag is raised after the plain write, so it wins
    over an `update_to_dummy_erp` value in `vals`; otherwise the flag is what
    the plain write left. The tracker only ever sets the flag.
  */
  function AfterWrite(p: Product, vals: ProductVals, suppress: bool): (r: Product)
    ensures r.updateToDummyErp <==> Tracked(vals, suppress) || vals.updateToDummyErp.GetOr(p.updateToDummyErp)
    ensures !Tracked(vals, suppress) ==> r == ApplyVals(p, vals)
    ensures r.(updateToDummyErp := false) == ApplyVals(p, vals).(updateToDummyErp := false)
  {
    var q := ApplyVals(p, vals);
    if Tracked(vals, suppress) then q.(updateToDummyErp := true) else q
  }

  /** A write that only changes the category does not mark the product. */
  lemma CategoryChangeUntracked(p: Product, c: nat)
    ensures AfterWrite(p, NoVals.(categId := Some(c)), false).updateToDummyErp == p.updateToDummyErp
  {
    assert FieldNames(NoVals.(categId := Some(c))) == {"categ_id"};
  }

  /** Writing values a product already holds changes nothing, so a repeated write is a no-op. */
  lemma ApplyValsIdempotent(p: Product, v: ProductVals)
    requires Carries(p, v)
    ensures ApplyVals(p, v) == p
  {
  }

  /** A product created through `create`: defaults, then the given values; new products are dirty by default. */
  function NewProduct(vals: ProductVals): (r: Product)
    ensures vals.updateToDummyErp.None? ==> r.updateToDummyErp
    ensures r.dummyErpId == vals.dummyErpId.GetOr(0)
  {
    ApplyVals(Product("", None, 0.0, 0.0, 0.0, None, 0.0, 0, "consu", {}, NoImage, false, None, 0, true), vals)
  }

  /** `product.write(vals)` on one product, with the suppression context as a parameter. */
  method Write(store: Store, id: nat, vals: ProductVals, suppress: bool)
    requires Valid(store.State()) && id < |store.products|
    requires vals.categId.Some? ==> vals.categId.value < |store.categories|
    modifies store
    ensures Valid(store.State())
    ensures store.State() == old(store.State()).(products :=
      old(store.products)[id := AfterWrite(old(store.products)[id], vals, suppress)])
  {
    var updatedFields := FieldNames(vals) * WatchedFields;
    store.products := store.products[id := ApplyVals(store.products[id], vals)];
    if updatedFields != {} && !suppress {
      store.products := store.products[id := store.products[id].(updateToDummyErp := true)];
    }
  }

  // ------------------------------------------------------------ export payload

  datatype ProductPayload = ProductPayload(
    title: string,
    description: string,
    price: real,
    discountPercentage: real,
    rating: real,
    stock: real,
    brand: string,
    category: string,
    thumbnail: string,
    images: seq<string>)

  const ImagePath := "/web/image/product.template/"
  const ImageSizes: seq<string> := ["128", "256", "512", "1024", "1920"]

  /** The URL at which the host serves one resolution of a product's image. */
  function ImageUrl(baseUrl: string, id: nat, size: string): string {
    baseUrl + ImagePath + NatToString(id) + "/image_" + size
  }

  /** The export payload of one product (`id` is its local id, `category` its category's name). */
  function PayloadOf(p: Product, id: nat, category: string, baseUrl: string): (r: ProductPayload)
    ensures r.title == p.name && r.price == p.listPrice && r.category == category
    ensures r.description == p.descriptionSale.GetOr("") && r.brand == p.brand.GetOr("")
    ensures r.discountPercentage == p.discountPercentage && r.rating == p.rating && r.stock == p.stock
    ensures |r.images| == |ImageSizes| && r.thumbnail == r.images[0]
    ensures forall k :: 0 <= k < |ImageSizes| ==> r.images[k] == ImageUrl(baseUrl, id, ImageSizes[k])
  {
    var urls := [ImageUrl(baseUrl, id, "128"), ImageUrl(baseUrl, id, "256"), ImageUrl(baseUrl, id, "512"),
                 ImageUrl(baseUrl, id, "1024"), ImageUrl(baseUrl, id, "1920")];
    ProductPayload(
      p.name,
      TextOr(p.descriptionSale, ""),
      p.listPrice,
      FloatOr(p.discountPercentage, 0.0),
      FloatOr(p.rating, 0.0),
      FloatOr(p.stock, 0.0),
      TextOr(p.brand, ""),
      category,
      urls[0],
      urls)
  }

  predicate AllDigits(s: string) {
    forall k :: 0 <= k < |s| ==> '0' <= s[k] <= '9'
  }

  lemma FirstSlash(a: string, x: string)
    requires AllDigits(a)
    ensures FirstIndex(a + "/" + x, '/') == Some(|a|)
  {
    var s := a + "/" + x;
    assert s[|a|] == '/';
    assert s[..|a|] == a;
    assert '/' !in a;
  }

  /** Digits followed by '/' split uniquely. */
  lemma DigitsSlashSplit(a: string, x: string, b: string, y: string)
    requires AllDigits(a) && AllDigits(b) && a + "/" + x == b + "/" + y
    ensures a == b && x == y
  {
    FirstSlash(a, x);
    FirstSlash(b, y);
    assert |a| == |b|;
    var s := a + "/" + x;
    assert a == s[..|a|];
    assert b == (b + "/" + y)[..|b|];
    assert x == s[|a| + 1..];
    assert y == (b + "/" + y)[|b| + 1..];
  }

  /** An image URL determines the product and the resolution it was built from. */
  lemma {:induction false} ImageUrlIdentifies(baseUrl: string, i: nat, j: nat, s: string, t: string)
    requires ImageUrl(baseUrl, i, s) == ImageUrl(baseUrl, j, t)
    ensures i == j && s == t
  {
    var pre := baseUrl + ImagePath;
    var di, dj := NatToString(i), NatToString(j);
    var ti, tj := di + "/" + ("image_" + s), dj + "/" + ("image_" + t);
    assert ImageUrl(baseUrl, i, s) == pre + ti;
    assert ImageUrl(baseUrl, j, t) == pre + tj;
    assert ti == (pre + ti)[|pre|..];
    assert tj == (pre + tj)[|pre|..];
    DigitsSlashSplit(di, "image_" + s, dj, "image_" + t);
    NatToStringInjective(i, j);
    assert s == ("image_" + s)[6..];
    assert t == ("image_" + t)[6..];
  }

  /** The five images of a payload are five different URLs. */
  lemma PayloadImagesDistinct(p: Product, id: nat, category: string, baseUrl: string, k: nat, m: nat)
    requires k < m < |ImageSizes|
    ensures PayloadOf(p, id, category, baseUrl).images[k] != PayloadOf(p, id, category, baseUrl).images[m]
  {
    if ImageUrl(baseUrl, id, ImageSizes[k]) == ImageUrl(baseUrl, id, ImageSizes[m]) {
      ImageUrlIdentifies(baseUrl, id, id, ImageSizes[k], ImageSizes[m]);
    }
  }

  function DirtyFlags(ps: seq<Product>): (flags: seq<bool>)
    ensures |flags| == |ps| && forall i :: 0 <= i < |ps| ==> flags[i] == ps[i].updateToDummyErp
  {
    seq(|ps|, i requires 0 <= i < |ps| => ps[i].updateToDummyErp)
  }

  /** `search([("update_to_dummy_erp", "=", True)])`: the dirty products, in id order. */
  function DirtyProducts(ps: seq<Product>): (ids: seq<nat>)
    ensures forall i: nat :: i in ids <==> i < |ps| && ps[i].updateToDummyErp
    ensures Increasing(ids)
    ensures forall k :: 0 <= k < |ids| ==> ids[k] < |ps|
  {
    Marked(DirtyFlags(ps))
  }

  /** `get_products_to_update`: one payload per dirty product, in the order of `DirtyProducts`. */
  function ProductsToUpdate(db: DB, webBaseUrl: string): (r: seq<ProductPayload>)
    requires Valid(db)
    ensures |r| == |DirtyProducts(db.products)|
    ensures forall k :: 0 <= k < |r| ==>
      var id := DirtyProducts(db.products)[k];
      r[k] == PayloadOf(db.products[id], id, db.categories[db.products[id].categId], webBaseUrl)
  {
    var ids := DirtyProducts(db.products);
    seq(|ids|, k requires 0 <= k < |ids| =>
      PayloadOf(db.products[ids[k]], ids[k], db.categories[db.products[ids[k]].categId], webBaseUrl))
  }

  // ------------------------------------------------------------ categories

  /**
    `get_category_by_name` on the category table: the first category with that
    exact name, or a new one appended. Returns the table and the id.
  */
  function GetOrCreateCategory(cats: seq<string>, name: string): (r: (seq<string>, nat))
    ensures r.1 < |r.0| && r.0[r.1] == name && name !in r.0[..r.1]
    ensures name in cats ==> r.0 == cats
    ensures name !in cats ==> r.0 == cats + [name]
  {
    match FirstIndex(cats, name)
    case Some(i) => (cats, i)
    case None =>
      assert (cats + [name])[..|cats|] == cats;
      (cats + [name], |cats|)
  }

  /** Looking a name up again finds the same category and creates nothing. */
  lemma GetOrCreateIdempotent(cats: seq<string>, name: string)
    ensures var (c1, id1) := GetOrCreateCategory(cats, name);
      GetOrCreateCategory(c1, name) == (c1, id1)
  {
    var (c1, id1) := GetOrCreateCategory(cats, name);
    FirstIndexUnique(c1, name, id1);
  }

  /** `get_category_by_name` as a store operation. */
  method GetCategoryByName(store: Store, name: string) returns (id: nat)
    requires Valid(store.State())
    modifies store
    ensures Valid(store.State())
    ensures (store.categories, id) == GetOrCreateCategory(old(store.categories), name)
    ensures store.State() == old(store.State()).(categories := store.categories)
  {
    var found := FirstIndex(store.categories, name);
    if found.Some? {
      id := found.value;
    } else {
      id := |store.categories|;
      store.categories := store.categories + [name];
    }
  }

  // ------------------------------------------------------------ import

  /** One element of the remote `products` list. */
  datatype RemoteProduct = RemoteProduct(
    id: int, title: string, price: real, description: string, rating: real,
    brand: string, stock: real, category: string, images: seq<string>)

  /** The field values prepared for one remote product (its `id` key is the entry's remote id). */
  function PrepareVals(rp: RemoteProduct, categId: nat, taxes: set<nat>, integrationId: nat): (v: ProductVals)
    ensures v.dummyErpId == Some(rp.id) && v.integrationId == Some(integrationId)
    ensures v.updateToDummyErp == Some(false) && v.websitePublished == Some(true)
    ensures v.categId == Some(categId) && v.taxes == Some(taxes) && v.detailedType == Some("product")
    ensures v.name == Some(rp.title) && v.listPrice == Some(rp.price) && v.discountPercentage.None?
    ensures v.image == Some(if |rp.images| > 0 then Fetched(rp.images[0]) else NoImage)
  {
    ProductVals(
      name := Some(rp.title),
      descriptionSale := Some(rp.description),
      listPrice := Some(rp.price),
      discountPercentage := None,
      rating := Some(rp.rating),
      brand := Some(rp.brand),
      stock := Some(rp.stock),
      categId := Some(categId),
      detailedType := Some("product"),
      taxes := Some(taxes),
      image := Some(if |rp.images| > 0 then Fetched(rp.images[0]) else NoImage),
      websitePublished := Some(true),
      integrationId := Some(integrationId),
      dummyErpId := Some(rp.id),
      updateToDummyErp := Some(false))
  }

  /**
    `prepare_dicts_from_dummy_erp_payload`: one entry per remote product, in
    order, each resolving its category by name (creating it when missing) in
    the category table threaded through the list.
  */
  function Prepared(cats: seq<string>, payload: seq<RemoteProduct>, taxes: set<nat>, integrationId: nat)
    : (r: (seq<string>, seq<Entry<ProductVals>>))
    ensures |r.1| == |payload| && |cats| <= |r.0| && r.0[..|cats|] == cats
    ensures forall k :: 0 <= k < |payload| ==>
      && r.1[k].remoteId == payload[k].id
      && r.1[k].vals.categId.Some?
      && r.1[k].vals.categId.value < |r.0|
      && r.0[r.1[k].vals.categId.value] == payload[k].category
      && r.1[k].vals == PrepareVals(payload[k], r.1[k].vals.categId.value, taxes, integrationId)
    ensures forall c :: c in r.0[|cats|..] ==> c !in cats
    decreases |payload|
  {
    if payload == [] then (cats, [])
    else
      var n := |payload| - 1;
      var (c0, es) := Prepared(cats, payload[..n], taxes, integrationId);
      var (c1, id) := GetOrCreateCategory(c0, payload[n].category);
      assert c1[..|c0|] == c0;
      assert c1[..|cats|] == c0[..|cats|];
      assert forall c :: c in c1[|cats|..] ==> c in c0[|cats|..] || c == payload[n].category;
      (c1, es + [Entry(payload[n].id, PrepareVals(payload[n], id, taxes, integrationId))])
  }

  /** The lookup key of the upsert: a product's remote id. */
  function RemoteIdOf(p: Product): int {
    p.dummyErpId
  }

  /**
    The create branch of the upsert. The local id the new record will get is a
    parameter of every create branch (users need it to pair a user with its
    partner); a product's values do not depend on it.
  */
  function CreateProduct(vals: ProductVals, id: nat): Product {
    NewProduct(vals)
  }

  /**
    `get_product_id_by_dummy_erp_id`: the first product carrying the remote id
    (products and their single variant share the local id here).
  */
  function ProductIdByRemoteId(products: seq<Product>, remoteId: int): (r: Option<nat>)
    ensures r.Some? <==> exists i :: 0 <= i < |products| && products[i].dummyErpId == remoteId
    ensures r.Some? ==> r.value < |products| && products[r.value].dummyErpId == remoteId
    ensures r.Some? ==> forall i :: 0 <= i < r.value ==> products[i].dummyErpId != remoteId
  {
    var ks := Keys(products, RemoteIdOf);
    var r := FirstIndex(ks, remoteId);
    if r.Some? then
      assert forall i :: 0 <= i < r.value ==> ks[..r.value][i] == ks[i];
      r
    else
      assert forall i :: 0 <= i < |products| ==> ks[i] in ks;
      r
  }

  /** The update branch of the upsert: a write under the suppression context. */
  function WriteSuppressed(p: Product, vals: ProductVals): Product {
    AfterWrite(p, vals, true)
  }

  /**
    `create_or_update_from_dummy_erp_payload` on a database: only the products
    and the categories change, existing categories stay in place, no product
    is removed, and at most one is created per remote product.
  */
  function ImportedProducts(db: DB, integrationId: nat, payload: seq<RemoteProduct>): (r: DB)
    requires integrationId in db.integrations
    ensures r == db.(categories := r.categories, products := r.products)
    ensures |db.categories| <= |r.categories| && r.categories[..|db.categories|] == db.categories
    ensures |db.products| <= |r.products| <= |db.products| + |payload|
  {
    var prepared := Prepared(db.categories, payload, db.integrations[integrationId].defaultTaxes, integrationId);
    db.(categories := prepared.0, products := Upserted(db.products, RemoteIdOf, prepared.1, WriteSuppressed, CreateProduct))
  }

  /** What an imported product looks like: in sync, published, bound to the integration, default taxes. */
  predicate InSync(p: Product, integrationId: nat, taxes: set<nat>) {
    !p.updateToDummyErp && p.websitePublished && p.integrationId == Some(integrationId) && p.taxes == taxes
  }

  /** Both branches of the upsert leave a prepared product keyed by its remote id and in sync. */
  lemma PrepareValsInSync(rp: RemoteProduct, categId: nat, taxes: set<nat>, integrationId: nat)
    ensures var v := PrepareVals(rp, categId, taxes, integrationId);
      && RemoteIdOf(NewProduct(v)) == rp.id && InSync(NewProduct(v), integrationId, taxes)
      && forall r :: RemoteIdOf(WriteSuppressed(r, v)) == rp.id && InSync(WriteSuppressed(r, v), integrationId, taxes)
  {
  }

  lemma PreparedConsistent(cats: seq<string>, payload: seq<RemoteProduct>, taxes: set<nat>, integrationId: nat)
    ensures var es := Prepared(cats, payload, taxes, integrationId).1;
      && KeyConsistent(RemoteIdOf, es, WriteSuppressed, CreateProduct)
      && forall e | e in es && e.remoteId != 0 ::
           (forall n: nat :: InSync(CreateProduct(e.vals, n), integrationId, taxes)) &&
           forall r :: InSync(WriteSuppressed(r, e.vals), integrationId, taxes)
  {
    var es := Prepared(cats, payload, taxes, integrationId).1;
    forall e | e in es && e.remoteId != 0
      ensures forall n: nat :: RemoteIdOf(CreateProduct(e.vals, n)) == e.remoteId && InSync(CreateProduct(e.vals, n), integrationId, taxes)
      ensures forall r :: RemoteIdOf(WriteSuppressed(r, e.vals)) == e.remoteId && InSync(WriteSuppressed(r, e.vals), integrationId, taxes)
    {
      var k :| 0 <= k < |es| && es[k] == e;
      PrepareValsInSync(payload[k], e.vals.categId.value, taxes, integrationId);
    }
  }

  /**
    After an import, for every remote product with a non-zero id, the product a
    lookup by that id finds is in sync: not dirty, published, bound to the
    integration and carrying its default taxes. A second import of the same
    payload creates no product.
  */
  lemma {:induction false} ImportedProductsInSync(db: DB, integrationId: nat, payload: seq<RemoteProduct>)
    requires integrationId in db.integrations
    ensures var out := ImportedProducts(db, integrationId, payload).products;
      var taxes := db.integrations[integrationId].defaultTaxes;
      forall k :: 0 <= k < |payload| && payload[k].id != 0 ==>
        payload[k].id in Keys(out, RemoteIdOf) &&
        InSync(out[FirstIndex(Keys(out, RemoteIdOf), payload[k].id).value], integrationId, taxes)
    ensures var once := ImportedProducts(db, integrationId, payload);
      |ImportedProducts(once, integrationId, payload).products| == |once.products|
  {
    var taxes := db.integrations[integrationId].defaultTaxes;
    var (cats, es) := Prepared(db.categories, payload, taxes, integrationId);
    PreparedConsistent(db.categories, payload, taxes, integrationId);
    var p := (r: Product) => InSync(r, integrationId, taxes);
    UpsertedFirstMatch(db.products, RemoteIdOf, es, WriteSuppressed, CreateProduct, p);
    forall k | 0 <= k < |payload| && payload[k].id != 0
      ensures es[k] in es && es[k].remoteId == payload[k].id
    {
    }
    // the second run resolves the same categories and finds every remote id
    var once := ImportedProducts(db, integrationId, payload);
    var (cats2, es2) := Prepared(once.categories, payload, taxes, integrationId);
    PreparedConsistent(once.categories, payload, taxes, integrationId);
    UpsertedCovers(db.products, RemoteIdOf, es, WriteSuppressed, CreateProduct);
    forall e | e in es2 && e.remoteId != 0 ensures e.remoteId in Keys(once.products, RemoteIdOf) {
      var k :| 0 <= k < |es2| && es2[k] == e;
      assert es[k] in es;
    }
    UpsertedKnown(once.products, RemoteIdOf, es2, WriteSuppressed, CreateProduct);
  }

  /** `prepare_dicts_from_dummy_erp_payload` as a store operation: it creates missing categories. */
  method PrepareDictsFromPayload(store: Store, integrationId: nat, payload: seq<RemoteProduct>)
    returns (es: seq<Entry<ProductVals>>)
    requires Valid(store.State()) && integrationId in store.integrations
    modifies store
    ensures Valid(store.State())
    ensures (store.categories, es) ==
      Prepared(old(store.categories), payload, old(store.integrations)[integrationId].defaultTaxes, integrationId)
    ensures store.State() == old(store.State()).(categories := store.categories)
  {
    var taxes := store.integrations[integrationId].defaultTaxes;
    es := [];
    var i := 0;
    while i < |payload|
      invariant 0 <= i <= |payload|
      invariant Valid(store.State())
      invariant store.State() == old(store.State()).(categories := store.categories)
      invariant (store.categories, es) == Prepared(old(store.categories), payload[..i], taxes, integrationId)
    {
      es := PrepareOne(store, old(store.categories), payload, i, taxes, integrationId, es);
      i := i + 1;
    }
    assert payload[..i] == payload;
  }

  /** One iteration of `prepare_dicts_from_dummy_erp_payload`: prepare the `i`-th remote product. */
  method PrepareOne(store: Store, ghost cats: seq<string>, payload: seq<RemoteProduct>, i: nat, taxes: set<nat>,
                    integrationId: nat, es: seq<Entry<ProductVals>>)
    returns (es': seq<Entry<ProductVals>>)
    requires Valid(store.State()) && i < |payload|
    requires (store.categories, es) == Prepared(cats, payload[..i], taxes, integrationId)
    modifies store
    ensures Valid(store.State())
    ensures (store.categories, es') == Prepared(cats, payload[..i + 1], taxes, integrationId)
    ensures store.State() == old(store.State()).(categories := store.categories)
  {
    assert payload[..i + 1][..i] == payload[..i];
    var categId := GetCategoryByName(store, payload[i].category);
    es' := es + [Entry(payload[i].id, PrepareVals(payload[i], categId, taxes, integrationId))];
  }

  /** One iteration of the import loop: write the first product with the remote id, or create one. */
  method UpsertOne(store: Store, e: Entry<ProductVals>)
    requires Valid(store.State())
    requires e.vals.categId.Some? && e.vals.categId.value < |store.categories|
    modifies store
    ensures Valid(store.State())
    ensures store.State() == old(store.State()).(products :=
      UpsertStep(old(store.products), RemoteIdOf, e, WriteSuppressed, CreateProduct))
  {
    if e.remoteId != 0 {
      var found := FirstIndex(Keys(store.products, RemoteIdOf), e.remoteId);
      if found.Some? {
        Write(store, found.value, e.vals, true);
      } else {
        store.products := store.products + [CreateProduct(e.vals, |store.products|)];
      }
    }
  }

  /** `create_or_update_from_dummy_erp_payload` as a store operation. */
  method CreateOrUpdateFromPayload(store: Store, integrationId: nat, payload: seq<RemoteProduct>)
    requires Valid(store.State()) && integrationId in store.integrations
    modifies store
    ensures Valid(store.State())
    ensures store.State() == ImportedProducts(old(store.State()), integrationId, payload)
  {
    var es := PrepareDictsFromPayload(store, integrationId, payload);
    UpsertProducts(store, es);
  }

  /** The loop of the product import: upsert the prepared entries one by one. */
  method UpsertProducts(store: Store, es: seq<Entry<ProductVals>>)
    requires Valid(store.State())
    requires forall k :: 0 <= k < |es| ==> es[k].vals.categId.Some? && es[k].vals.categId.value < |store.categories|
    modifies store
    ensures Valid(store.State())
    ensures store.State() == old(store.State()).(products := Upserted(old(store.products), RemoteIdOf, es, WriteSuppressed, CreateProduct))
  {
    var i := 0;
    while i < |es|
      invariant 0 <= i <= |es|
      invariant Valid(store.State())
      invariant store.State() == old(store.State()).(products := store.products)
      invariant store.products == Upserted(old(store.products), RemoteIdOf, es[..i], WriteSuppressed, CreateProduct)
    {
      assert es[..i + 1][..i] == es[..i];
      UpsertOne(store, es[i]);
      i := i + 1;
    }
    assert es[..i] == es;
  }
}
