/** The product catalogue: the schema of models/Product.js and the handlers of
    routes/productRoutes.js over a store of products.

    Create runs six checks in a fixed order and answers with the first that fails;
    only then does the schema see the document, and it can still refuse an image
    without a public_id or url. The listing builds a filter from the optional query
    parameters. An update writes the body over the product without running the
    schema's validators, and answers 200 with null for an unknown id. */
module Products {
  import opened Wrappers
  import opened Text
  import opened Collection
  import opened Schema

  // ---------------------------------------------------------------- schema

  datatype Image = Image(publicId: string, url: string)

  datatype Details = Details(materials: Option<string>, careInstructions: seq<string>, features: seq<string>)

  /** The `details` stored when the body has none: no materials, empty arrays. */
  const NoDetails := Details(None, [], [])

  /** A stored product; `sizes` holds each size subdocument's `size`, `colors` each
      color subdocument's `name`. */
  datatype Product = Product(
    id: nat,
    name: string,
    description: string,
    thumbnail: Image,
    images: seq<Image>,
    originalPrice: int,
    discountedPrice: Option<int>,
    ratings: int,
    inStock: bool,
    productLabel: string,
    featured: bool,
    details: Details,
    sizes: seq<string>,
    colors: seq<string>,
    category: Option<nat>,
    isActive: bool,
    createdAt: int,
    updatedAt: int)

  function ProductId(p: Product): nat {
    p.id
  }

  /** What the schema's `required` String paths demand of a product. */
  predicate WellFormed(p: Product) {
    && p.name != "" && p.description != ""
    && p.thumbnail.publicId != "" && p.thumbnail.url != ""
    && (forall i :: 0 <= i < |p.images| ==> p.images[i].publicId != "" && p.images[i].url != "")
    && (forall i :: 0 <= i < |p.sizes| ==> p.sizes[i] != "")
    && (forall i :: 0 <= i < |p.colors| ==> p.colors[i] != "")
  }

  // ---------------------------------------------------------------- create

  /** A body path expected to hold an array: falsy, truthy but not an array, or an
      array. */
  datatype Listish<T> = Absent | NotAnArray | Items(elems: seq<T>)

  datatype ImageInput = ImageInput(publicId: Option<string>, url: Option<string>)

  /** The body of POST /. Numbers are integers; a falsy number or string is None or
      the value 0 or "". `sizes` carries each element's `size`, `colors` each
      element's `name`. */
  datatype ProductInput = ProductInput(
    name: Option<string>,
    description: Option<string>,
    originalPrice: Option<int>,
    discountedPrice: Option<int>,
    ratings: Option<int>,
    details: Option<Details>,
    category: Option<nat>,
    thumbnail: Option<ImageInput>,
    images: Listish<ImageInput>,
    sizes: Listish<Option<string>>,
    colors: Listish<Option<string>>,
    productLabel: Option<string>,
    featured: Option<bool>,
    isActive: Option<bool>)

  const FieldsRequired := "Name, description, and originalPrice are required"
  const InvalidCategory := "Invalid category"
  const ThumbnailRequired := "Thumbnail is required"
  const ImageRequired := "At least one image is required"
  const SizesInvalid := "Sizes must be an array of objects with a 'size' field"
  const ColorsInvalid := "Colors must be an array of objects with a 'name' field"
  const NotFound := "Product not found"
  const Deleted := "Product deleted successfully"

  /** The messages of the six create checks, in the order they run. */
  const Messages: seq<string> := [FieldsRequired, InvalidCategory, ThumbnailRequired, ImageRequired, SizesInvalid, ColorsInvalid]

  /** Name, description and a non-zero original price are given. */
  predicate FieldsGiven(b: ProductInput) {
    Truthy(b.name) && Truthy(b.description) && b.originalPrice.Some? && b.originalPrice.value != 0
  }

  /** The category lookup finds a category (an absent id finds none). */
  predicate CategoryExists(b: ProductInput, categories: set<nat>) {
    b.category.Some? && b.category.value in categories
  }

  predicate ThumbnailGiven(b: ProductInput) {
    b.thumbnail.Some? && Truthy(b.thumbnail.value.publicId) && Truthy(b.thumbnail.value.url)
  }

  predicate ImagesGiven(b: ProductInput) {
    b.images.Items? && |b.images.elems| > 0
  }

  /** Whether some element lacks a truthy field (Array.prototype.some). */
  function SomeMissing(xs: seq<Option<string>>): (r: bool)
    ensures r <==> exists i :: 0 <= i < |xs| && !Truthy(xs[i])
  {
    if |xs| == 0 then false
    else if !Truthy(xs[0]) then true
    else
      var r := SomeMissing(xs[1..]);
      assert forall i :: 1 <= i < |xs| ==> xs[i] == xs[1..][i - 1];
      r
  }

  /** The sizes (or colors) check: absent, or an array whose every element has the
      field. */
  predicate ListOk(l: Listish<Option<string>>) {
    match l
    case Absent => true
    case NotAnArray => false
    case Items(xs) => !SomeMissing(xs)
  }

  /** The k-th create check, in the order the route runs them. */
  predicate Check(k: nat, b: ProductInput, categories: set<nat>)
    requires k < 6
  {
    if k == 0 then FieldsGiven(b)
    else if k == 1 then CategoryExists(b, categories)
    else if k == 2 then ThumbnailGiven(b)
    else if k == 3 then ImagesGiven(b)
    else if k == 4 then ListOk(b.sizes)
    else ListOk(b.colors)
  }

  /** Check k fails and every earlier check passes. */
  predicate FirstFailing(k: int, b: ProductInput, categories: set<nat>) {
    0 <= k < 6 && !Check(k, b, categories) && forall j :: 0 <= j < k ==> Check(j, b, categories)
  }

  /** The route's guard chain: the message of the first check that fails, if any. */
  function FirstError(b: ProductInput, categories: set<nat>): (e: Option<string>)
    ensures e.None? <==> forall k :: 0 <= k < 6 ==> Check(k, b, categories)
    ensures e.Some? ==> exists k :: FirstFailing(k, b, categories) && e.value == Messages[k]
  {
    if !FieldsGiven(b) then
      assert FirstFailing(0, b, categories);
      Some(FieldsRequired)
    else if !CategoryExists(b, categories) then
      assert Check(0, b, categories) && FirstFailing(1, b, categories);
      Some(InvalidCategory)
    else if !ThumbnailGiven(b) then
      assert Check(1, b, categories) && FirstFailing(2, b, categories);
      Some(ThumbnailRequired)
    else if !ImagesGiven(b) then
      assert Check(2, b, categories) && FirstFailing(3, b, categories);
      Some(ImageRequired)
    else if !ListOk(b.sizes) then
      assert Check(3, b, categories) && FirstFailing(4, b, categories);
      Some(SizesInvalid)
    else if !ListOk(b.colors) then
      assert Check(4, b, categories) && FirstFailing(5, b, categories);
      Some(ColorsInvalid)
    else
      assert forall k :: 0 <= k < 6 ==> Check(k, b, categories) by {
        assert Check(0, b, categories) && Check(1, b, categories) && Check(2, b, categories);
        assert Check(3, b, categories) && Check(4, b, categories) && Check(5, b, categories);
      }
      None
  }

  /** An original price of 0 is refused like a missing one, whatever else the body
      holds, and nothing later is consulted. */
  lemma ZeroPriceRejected(b: ProductInput, categories: set<nat>)
    requires b.originalPrice == Some(0)
    ensures FirstError(b, categories) == Some(FieldsRequired)
  {
  }

  /** The required image paths one element misses. */
  function ImageMissing(im: ImageInput): (m: set<string>)
    ensures m == {} <==> Truthy(im.publicId) && Truthy(im.url)
  {
    (if !Truthy(im.publicId) then {"public_id"} else {})
    + (if !Truthy(im.url) then {"url"} else {})
  }

  /** The schema's verdict on the images, once the guards have passed. */
  function ImageViolations(b: ProductInput): (v: set<string>)
    requires ImagesGiven(b)
    ensures v == {} <==> forall i :: 0 <= i < |b.images.elems| ==> ImageMissing(b.images.elems[i]) == {}
  {
    ElementViolationsEmpty("images", b.images.elems, ImageMissing, 0);
    ElementViolations("images", b.images.elems, ImageMissing, 0)
  }

  function ToImage(im: ImageInput): (r: Image)
    requires ImageMissing(im) == {}
    ensures r.publicId != "" && r.url != ""
  {
    Image(im.publicId.value, im.url.value)
  }

  function ToImages(ims: seq<ImageInput>): (r: seq<Image>)
    requires forall i :: 0 <= i < |ims| ==> ImageMissing(ims[i]) == {}
    ensures |r| == |ims|
    ensures forall i :: 0 <= i < |ims| ==> r[i] == ToImage(ims[i])
  {
    if |ims| == 0 then [] else [ToImage(ims[0])] + ToImages(ims[1..])
  }

  /** The values of an array whose every element has its field. */
  function Given(xs: seq<Option<string>>): (r: seq<string>)
    requires forall i :: 0 <= i < |xs| ==> Truthy(xs[i])
    ensures |r| == |xs|
    ensures forall i :: 0 <= i < |xs| ==> xs[i] == Some(r[i]) && r[i] != ""
  {
    if |xs| == 0 then []
    else
      assert Truthy(xs[0]);
      [xs[0].value] + Given(xs[1..])
  }

  /** The stored values of an array path that passed its check; absent gives []. */
  function ListValues(l: Listish<Option<string>>): (r: seq<string>)
    requires ListOk(l)
    ensures l.Absent? ==> r == []
    ensures l.Items? ==> r == Given(l.elems)
  {
    match l
    case Absent => []
    case Items(xs) => Given(xs)
  }

  /** A body that passed every check and whose images the schema accepts. */
  predicate Storable(b: ProductInput, categories: set<nat>) {
    FirstError(b, categories).None? && ImageViolations(b) == {}
  }

  /** The document Product.create stores, with its defaults: ratings 0, details
      empty, no sizes or colors, label "", not featured, not active, in stock. */
  function Build(b: ProductInput, categories: set<nat>, id: nat, now: int): (p: Product)
    requires Storable(b, categories)
    ensures WellFormed(p)
    ensures p.id == id && p.createdAt == now && p.updatedAt == now
    ensures p.name == b.name.value && p.description == b.description.value
    ensures p.originalPrice == b.originalPrice.value && p.discountedPrice == b.discountedPrice
    ensures p.category == b.category && p.category.value in categories
    ensures p.thumbnail == Image(b.thumbnail.value.publicId.value, b.thumbnail.value.url.value)
    ensures |p.images| == |b.images.elems| > 0
    ensures forall i :: 0 <= i < |p.images| ==> p.images[i] == ToImage(b.images.elems[i])
    ensures p.ratings == b.ratings.GetOr(0) && p.details == b.details.GetOr(NoDetails)
    ensures p.sizes == ListValues(b.sizes) && p.colors == ListValues(b.colors)
    ensures p.productLabel == (if Truthy(b.productLabel) then b.productLabel.value else "")
    ensures p.featured <==> b.featured == Some(true)
    ensures p.isActive <==> b.isActive == Some(true)
    ensures p.inStock
  {
    assert Check(4, b, categories) && Check(5, b, categories);
    Product(
      id,
      b.name.value,
      b.description.value,
      ToImage(b.thumbnail.value),
      ToImages(b.images.elems),
      b.originalPrice.value,
      b.discountedPrice,
      if b.ratings.Some? && b.ratings.value != 0 then b.ratings.value else 0,
      true,
      if Truthy(b.productLabel) then b.productLabel.value else "",
      b.featured == Some(true),
      if b.details.Some? then b.details.value else NoDetails,
      ListValues(b.sizes),
      ListValues(b.colors),
      b.category,
      b.isActive == Some(true),
      now,
      now)
  }

  /** A body that leaves out every optional path gets the schema's and the route's
      defaults. */
  lemma DefaultsWhenAbsent(b: ProductInput, categories: set<nat>, id: nat, now: int)
    requires Storable(b, categories)
    requires b.ratings.None? && b.details.None? && b.sizes.Absent? && b.colors.Absent?
    requires b.productLabel.None? && b.featured.None? && b.isActive.None? && b.discountedPrice.None?
    ensures var p := Build(b, categories, id, now);
      && p.ratings == 0 && p.details == NoDetails && p.sizes == [] && p.colors == []
      && p.productLabel == "" && !p.featured && !p.isActive && p.inStock && p.discountedPrice.None?
  {
  }

  // ---------------------------------------------------------------- update

  /** The body of PUT /:id after strict mode: the declared paths it sets. */
  datatype ProductPatch = ProductPatch(
    name: Option<string>,
    description: Option<string>,
    thumbnail: Option<Image>,
    images: Option<seq<Image>>,
    originalPrice: Option<int>,
    discountedPrice: Option<int>,
    ratings: Option<int>,
    inStock: Option<bool>,
    productLabel: Option<string>,
    featured: Option<bool>,
    details: Option<Details>,
    sizes: Option<seq<string>>,
    colors: Option<seq<string>>,
    category: Option<nat>,
    isActive: Option<bool>)

  const NoPatch := ProductPatch(None, None, None, None, None, None, None, None, None, None, None, None, None, None, None)

  /** findByIdAndUpdate without validators: every path the body sets is overwritten,
      the rest kept; the id and creation time never change. */
  function Apply(p: Product, u: ProductPatch, now: int): (r: Product)
    ensures r.id == p.id && r.createdAt == p.createdAt && r.updatedAt == now
  {
    Product(
      p.id,
      u.name.GetOr(p.name),
      u.description.GetOr(p.description),
      u.thumbnail.GetOr(p.thumbnail),
      u.images.GetOr(p.images),
      u.originalPrice.GetOr(p.originalPrice),
      if u.discountedPrice.Some? then u.discountedPrice else p.discountedPrice,
      u.ratings.GetOr(p.ratings),
      u.inStock.GetOr(p.inStock),
      u.productLabel.GetOr(p.productLabel),
      u.featured.GetOr(p.featured),
      u.details.GetOr(p.details),
      u.sizes.GetOr(p.sizes),
      u.colors.GetOr(p.colors),
      if u.category.Some? then u.category else p.category,
      u.isActive.GetOr(p.isActive),
      p.createdAt,
      now)
  }

  /** An update that sets nothing only moves the update time. */
  lemma ApplyNothing(p: Product, now: int)
    ensures Apply(p, NoPatch, now) == p.(updatedAt := now)
  {
  }

  /** Applying the same update twice is applying it once. */
  lemma ApplyIdempotent(p: Product, u: ProductPatch, now: int)
    ensures Apply(Apply(p, u, now), u, now) == Apply(p, u, now)
  {
  }

  /** The later of two settings of one path: the second if it sets the path. */
  function Later<T>(a: Option<T>, b: Option<T>): Option<T> {
    if b.Some? then b else a
  }

  /** One update holding everything two successive updates set, the second winning
      where both set a path. */
  function Merge(u: ProductPatch, v: ProductPatch): ProductPatch {
    ProductPatch(
      Later(u.name, v.name), Later(u.description, v.description),
      Later(u.thumbnail, v.thumbnail), Later(u.images, v.images),
      Later(u.originalPrice, v.originalPrice), Later(u.discountedPrice, v.discountedPrice),
      Later(u.ratings, v.ratings), Later(u.inStock, v.inStock),
      Later(u.productLabel, v.productLabel), Later(u.featured, v.featured),
      Later(u.details, v.details), Later(u.sizes, v.sizes), Later(u.colors, v.colors),
      Later(u.category, v.category), Later(u.isActive, v.isActive))
  }

  /** Two successive updates store what their merge stores in one: each path holds the
      value the last update to set it gave, and every path neither sets is kept. */
  lemma ApplyCompose(p: Product, u: ProductPatch, v: ProductPatch, t: int, t': int)
    ensures Apply(Apply(p, u, t), v, t') == Apply(p, Merge(u, v), t')
  {
  }

  /** The paths an update sets, as a product's required paths need them. */
  predicate PatchWellFormed(u: ProductPatch) {
    && (u.name.Some? ==> u.name.value != "")
    && (u.description.Some? ==> u.description.value != "")
    && (u.thumbnail.Some? ==> u.thumbnail.value.publicId != "" && u.thumbnail.value.url != "")
    && (u.images.Some? ==> forall i :: 0 <= i < |u.images.value| ==> u.images.value[i].publicId != "" && u.images.value[i].url != "")
    && (u.sizes.Some? ==> forall i :: 0 <= i < |u.sizes.value| ==> u.sizes.value[i] != "")
    && (u.colors.Some? ==> forall i :: 0 <= i < |u.colors.value| ==> u.colors.value[i] != "")
  }

  /** An update keeps a product well formed exactly when what it sets would pass the
      required validators itself: nothing else can break the stored document. */
  lemma ApplyKeepsWellFormed(p: Product, u: ProductPatch, now: int)
    requires WellFormed(p)
    ensures WellFormed(Apply(p, u, now)) <==> PatchWellFormed(u)
  {
    var r := Apply(p, u, now);
    if WellFormed(r) {
      assert u.images.Some? ==> r.images == u.images.value;
      assert u.sizes.Some? ==> r.sizes == u.sizes.value;
      assert u.colors.Some? ==> r.colors == u.colors.value;
    }
  }

  /** Since the update runs no validators, it can store what create would refuse: an
      empty name. */
  lemma UpdateSkipsValidation(p: Product, now: int)
    ensures !WellFormed(Apply(p, NoPatch.(name := Some("")), now))
  {
  }

  // ---------------------------------------------------------------- listing

  /** The query parameters of GET /, a falsy one being None. */
  datatype ListParams = ListParams(
    categoryId: Option<nat>,
    productName: Option<string>,
    minPrice: Option<string>,
    maxPrice: Option<string>)

  /** The Mongo filter the route builds. */
  datatype Filter = Filter(category: Option<nat>, name: Option<string>, gte: Option<Number>, lte: Option<Number>)

  /** Mongoose casts each bound to a Number and fails on NaN. */
  predicate Castable(f: Filter) {
    (f.gte.Some? ==> f.gte.value.Num?) && (f.lte.Some? ==> f.lte.value.Num?)
  }

  /** The filter's meaning: a product matches when it satisfies every condition the
      filter holds; a product without a discounted price satisfies no price bound. */
  predicate Admits(f: Filter, p: Product) {
    && (f.category.Some? ==> p.category == f.category)
    && (f.name.Some? ==> ContainsIgnoreCase(p.name, f.name.value))
    && (f.gte.Some? ==> f.gte.value.Num? && p.discountedPrice.Some? && f.gte.value.value <= p.discountedPrice.value)
    && (f.lte.Some? ==> f.lte.value.Num? && p.discountedPrice.Some? && p.discountedPrice.value <= f.lte.value.value)
  }

  /** The product has a discounted price, and it is at least the bound. */
  predicate AtLeast(p: Product, bound: Number) {
    bound.Num? && p.discountedPrice.Some? && bound.value <= p.discountedPrice.value
  }

  /** The product has a discounted price, and it is at most the bound. */
  predicate AtMost(p: Product, bound: Number) {
    bound.Num? && p.discountedPrice.Some? && p.discountedPrice.value <= bound.value
  }

  /** What the parameters ask for, read off the request directly: each supplied
      parameter is one condition, and the others ask nothing. */
  predicate RequestAdmits(q: ListParams, p: Product) {
    && (q.categoryId.Some? ==> p.category == q.categoryId)
    && (Truthy(q.productName) ==> ContainsIgnoreCase(p.name, q.productName.value))
    && (Truthy(q.minPrice) ==> AtLeast(p, NumberOf(q.minPrice.value)))
    && (Truthy(q.maxPrice) ==> AtMost(p, NumberOf(q.maxPrice.value)))
  }

  /** Every supplied price parameter reads as a number. */
  predicate NumericPrices(q: ListParams) {
    (Truthy(q.minPrice) ==> NumberOf(q.minPrice.value).Num?) && (Truthy(q.maxPrice) ==> NumberOf(q.maxPrice.value).Num?)
  }

  /** The route's filter builder, one parameter at a time. */
  method BuildFilter(q: ListParams) returns (f: Filter)
    ensures Castable(f) <==> NumericPrices(q)
    ensures forall p :: Admits(f, p) <==> RequestAdmits(q, p)
  {
    f := Filter(None, None, None, None);
    if q.categoryId.Some? {
      f := f.(category := q.categoryId);
    }
    if Truthy(q.productName) {
      f := f.(name := q.productName);
    }
    if Truthy(q.minPrice) || Truthy(q.maxPrice) {
      if Truthy(q.minPrice) {
        f := f.(gte := Some(NumberOf(q.minPrice.value)));
      }
      if Truthy(q.maxPrice) {
        f := f.(lte := Some(NumberOf(q.maxPrice.value)));
      }
    }
  }

  /** With no parameters, every product is listed. */
  lemma NoParamsAdmitAll(p: Product)
    ensures RequestAdmits(ListParams(None, None, None, None), p)
  {
  }

  /** The price bounds are inclusive and independent: a product priced at the bound
      is kept, and each bound constrains only its own side. */
  lemma PriceBounds(q: ListParams, p: Product)
    requires q.categoryId.None? && q.productName.None? && Truthy(q.minPrice) && Truthy(q.maxPrice)
    requires NumberOf(q.minPrice.value).Num? && NumberOf(q.maxPrice.value).Num?
    ensures RequestAdmits(q, p) <==> RequestAdmits(q.(maxPrice := None), p) && RequestAdmits(q.(minPrice := None), p)
    ensures p.discountedPrice == Some(NumberOf(q.minPrice.value).value) ==> RequestAdmits(q.(maxPrice := None), p)
    ensures p.discountedPrice == Some(NumberOf(q.maxPrice.value).value) ==> RequestAdmits(q.(minPrice := None), p)
  {
  }

  /** The name match ignores case on both sides, and finds every exact substring. */
  lemma NameMatchIgnoresCase(name: string, pattern: string)
    ensures ContainsIgnoreCase(name, pattern) == ContainsIgnoreCase(Lower(name), Lower(pattern))
    ensures Contains(name, pattern) ==> ContainsIgnoreCase(name, pattern)
  {
    LowerIsLowerCase(name);
    LowerIsLowerCase(pattern);
    if Contains(name, pattern) {
      var i: nat :| OccursAt(name, pattern, i);
      assert Lower(name)[i..i + |pattern|] == Lower(pattern) by {
        forall k | 0 <= k < |pattern| ensures Lower(name)[i..i + |pattern|][k] == Lower(pattern)[k] {
          assert name[i..i + |pattern|][k] == pattern[k];
        }
      }
      assert OccursAt(Lower(name), Lower(pattern), i);
    }
  }

  // ---------------------------------------------------------------- the store

  class ProductStore {
    var docs: seq<Product>
    var nextId: nat

    ghost predicate Valid()
      reads this
    {
      Ascending(docs, ProductId) && Below(docs, ProductId, nextId)
    }

    constructor()
      ensures Valid() && docs == []
    {
      docs := [];
      nextId := 0;
    }

    /** POST /: the guard chain, then the schema, then the insert. */
    method Create(b: ProductInput, categories: set<nat>, now: int) returns (r: Response<Product>)
      requires Valid()
      modifies this
      ensures Valid()
      ensures FirstError(b, categories).Some? ==> r == Failure(400, FirstError(b, categories).value) && docs == old(docs) && nextId == old(nextId)
      ensures FirstError(b, categories).None? && !Storable(b, categories) ==>
        r == Invalid(400, ImageViolations(b)) && docs == old(docs) && nextId == old(nextId)
      ensures Storable(b, categories) ==>
        && r == Success(201, Build(b, categories, old(nextId), now))
        && docs == old(docs) + [Build(b, categories, old(nextId), now)]
        && nextId == old(nextId) + 1
    {
      var e := FirstError(b, categories);
      if e.Some? {
        return Failure(400, e.value);
      }
      assert Check(3, b, categories);
      if ImageViolations(b) != {} {
        return Invalid(400, ImageViolations(b));
      }
      var p := Build(b, categories, nextId, now);
      AppendAscending(docs, ProductId, p);
      docs := docs + [p];
      nextId := nextId + 1;
      r := Success(201, p);
    }

    /** GET /: the products the parameters admit, in natural order; a price that is
      not a number fails the cast. */
    method List(q: ListParams) returns (r: Response<seq<Product>>)
      requires Valid()
      ensures r.Success? <==> NumericPrices(q)
      ensures !r.Success? ==> r == Invalid(500, {"discountedPrice"})
      ensures r.Success? ==> r.status == 200 && forall p :: p in r.value <==> p in docs && RequestAdmits(q, p)
    {
      var f := BuildFilter(q);
      if !Castable(f) {
        return Invalid(500, {"discountedPrice"});
      }
      r := Success(200, Where(docs, p => Admits(f, p)));
    }

    /** GET /:id. */
    method Get(id: nat) returns (r: Response<Product>)
      requires Valid()
      ensures Lookup(docs, ProductId, id).Some? ==> r == Success(200, Lookup(docs, ProductId, id).value)
      ensures Lookup(docs, ProductId, id).None? ==> r == Failure(404, NotFound)
    {
      match Lookup(docs, ProductId, id)
      case Some(p) => r := Success(200, p);
      case None => r := Failure(404, NotFound);
    }

    /** PUT /:id: an unknown id answers 200 with null. */
    method Update(id: nat, u: ProductPatch, now: int) returns (r: Response<Option<Product>>)
      requires Valid()
      modifies this
      ensures Valid() && nextId == old(nextId)
      ensures Lookup(old(docs), ProductId, id).None? ==> r == Success(200, None) && docs == old(docs)
      ensures Lookup(old(docs), ProductId, id).Some? ==>
        var p := Apply(Lookup(old(docs), ProductId, id).value, u, now);
        r == Success(200, Some(p)) && docs == ReplaceById(old(docs), ProductId, id, p)
    {
      match Lookup(docs, ProductId, id)
      case None =>
        r := Success(200, None);
      case Some(p) =>
        var v := Apply(p, u, now);
        ReplaceKeepsIds(docs, ProductId, id, v);
        docs := ReplaceById(docs, ProductId, id, v);
        r := Success(200, Some(v));
    }

    /** DELETE /:id: looked up first, then removed. */
    method Delete(id: nat) returns (r: Response<string>)
      requires Valid()
      modifies this
      ensures Valid() && nextId == old(nextId)
      ensures Lookup(old(docs), ProductId, id).None? ==> r == Failure(404, NotFound) && docs == old(docs)
      ensures Lookup(old(docs), ProductId, id).Some? ==>
        r == Success(200, Deleted) && docs == Without(old(docs), ProductId, id)
    {
      var found := Lookup(docs, ProductId, id);
      if found.None? {
        return Failure(404, NotFound);
      }
      docs := Without(docs, ProductId, id);
      r := Success(200, Deleted);
    }
  }

  /** Deleting a product removes that product and keeps every other one. */
  lemma DeleteRemovesOnly(docs: seq<Product>, id: nat)
    requires Ascending(docs, ProductId) && Lookup(docs, ProductId, id).Some?
    ensures |Without(docs, ProductId, id)| == |docs| - 1
    ensures Lookup(Without(docs, ProductId, id), ProductId, id).None?
    ensures forall p :: p in docs && p.id != id ==> p in Without(docs, ProductId, id)
  {
    WithoutRemovesOne(docs, ProductId, id);
  }
}
