/**
  The route handlers of the shop API: translation of the product listing's
  query parameters into a store filter, the fixed filters of the other list
  endpoints, the rewriting of each returned document's `_id` into a string
  `id`, and the create endpoints, which validate the body before anything
  reaches the store.

  The store itself is a parameter: `Finder` answers a find call with the
  documents found and `Inserter` answers an insert with the new identifier;
  either may instead raise, with the exception's text. No handler catches
  such an exception: it reaches the caller as a server error.
*/
module Routes {
  import opened Wrappers
  import opened Documents
  import opened Schemas

  /** The five collections the system knows about. */
  datatype Collection = UserCollection | CategoryCollection | ProductCollection | OrderCollection | WishlistCollection

  function CollectionName(c: Collection): string {
    match c
    case UserCollection => "user"
    case CategoryCollection => "category"
    case ProductCollection => "product"
    case OrderCollection => "order"
    case WishlistCollection => "wishlist"
  }

  /** The collection list the schema endpoint reports. */
  function SchemaInfo(): (r: seq<string>)
    ensures |r| == 5
    ensures forall c: Collection :: CollectionName(c) in r
    ensures forall i, j :: 0 <= i < j < |r| ==> r[i] != r[j]
  {
    ["user", "category", "product", "order", "wishlist"]
  }

  /** The liveness message of the root endpoint. */
  function RootMessage(): (r: string)
    ensures r == "Shop API running"
  {
    "Shop API running"
  }

  // ---------------------------------------------------------------------
  // Store calls

  /** One find call: collection, filter document and limit, passed through untouched. */
  datatype FindRequest = FindRequest(collection: string, filter: Document, limit: int)

  type Finder = FindRequest -> Result<seq<Document>, string>

  /**
    A list endpoint's answer: an HTTP error raised by the handler, a rejected
    parameter, the find call that raised (a server error with nothing
    returned), or the find call made and the items returned.
  */
  datatype Reply =
    | Failed(status: int, detail: string)
    | Rejected(error: SchemaError)
    | StoreError(request: FindRequest, message: string)
    | Items(request: FindRequest, items: seq<Document>)

  const DefaultProductLimit: int := 50
  const DefaultCategoryLimit: int := 100
  const DefaultWishlistLimit: int := 100
  const DefaultOrderLimit: int := 50

  function LimitOr(limit: Option<int>, default: int): int {
    match limit
    case None => default
    case Some(n) => n
  }

  // ---------------------------------------------------------------------
  // Product query

  /** The optional query parameters of the product listing. */
  datatype ProductFilters = ProductFilters(
    q: Option<string>,
    category: Option<string>,
    brand: Option<string>,
    minPrice: Option<real>,
    maxPrice: Option<real>)

  /** The case-insensitive title search clause. */
  function TitleClause(q: string): (v: Value)
    ensures v.VMap? && v.fields.Keys == {"$regex", "$options"}
    ensures v.fields["$regex"] == VStr(q) && v.fields["$options"] == VStr("i")
  {
    VMap(map["$regex" := VStr(q), "$options" := VStr("i")])
  }

  /** The price range clause has exactly the bounds that were given. */
  predicate IsPriceClause(v: Value, f: ProductFilters) {
    && v.VMap?
    && v.fields.Keys <= {"$gte", "$lte"}
    && ("$gte" in v.fields <==> f.minPrice.Some?)
    && ("$lte" in v.fields <==> f.maxPrice.Some?)
    && (f.minPrice.Some? ==> v.fields["$gte"] == VFloat(f.minPrice.value))
    && (f.maxPrice.Some? ==> v.fields["$lte"] == VFloat(f.maxPrice.value))
  }

  /**
    What the product filter is: a title clause exactly when the search text
    is non-empty, exact-match category and brand entries exactly when those
    are non-empty, one price clause exactly when some bound is given, and
    nothing else.
  */
  predicate IsProductQuery(query: Document, f: ProductFilters) {
    && query.Keys <= {"title", "category", "brand", "price"}
    && ("title" in query <==> Truthy(f.q))
    && (Truthy(f.q) ==> query["title"] == TitleClause(f.q.value))
    && ("category" in query <==> Truthy(f.category))
    && (Truthy(f.category) ==> query["category"] == VStr(f.category.value))
    && ("brand" in query <==> Truthy(f.brand))
    && (Truthy(f.brand) ==> query["brand"] == VStr(f.brand.value))
    && ("price" in query <==> f.minPrice.Some? || f.maxPrice.Some?)
    && ("price" in query ==> IsPriceClause(query["price"], f))
  }

  /** Grows the filter one optional parameter at a time. */
  method BuildProductQuery(f: ProductFilters) returns (query: Document)
    ensures IsProductQuery(query, f)
    ensures query == map[] <==>
      !Truthy(f.q) && !Truthy(f.category) && !Truthy(f.brand) && f.minPrice.None? && f.maxPrice.None?
  {
    query := map[];
    if Truthy(f.q) {
      query := query["title" := TitleClause(f.q.value)];
    }
    if Truthy(f.category) {
      query := query["category" := VStr(f.category.value)];
    }
    if Truthy(f.brand) {
      query := query["brand" := VStr(f.brand.value)];
    }
    var priceFilter: Document := map[];
    if f.minPrice.Some? {
      priceFilter := priceFilter["$gte" := VFloat(f.minPrice.value)];
    }
    if f.maxPrice.Some? {
      priceFilter := priceFilter["$lte" := VFloat(f.maxPrice.value)];
    }
    assert priceFilter == map[] <==> "$gte" !in priceFilter && "$lte" !in priceFilter;
    if priceFilter != map[] {
      query := query["price" := VMap(priceFilter)];
    }
  }

  /** The description of the product filter leaves no freedom: it fixes the filter document. */
  lemma ProductQueryDetermined(a: Document, b: Document, f: ProductFilters)
    requires IsProductQuery(a, f) && IsProductQuery(b, f)
    ensures a == b
  {
    if "price" in a {
      var pa, pb := a["price"].fields, b["price"].fields;
      assert pa.Keys == pb.Keys;
      assert pa == pb;
    }
    assert a.Keys == b.Keys;
  }

  // ---------------------------------------------------------------------
  // Identifier normalisation

  /** A returned document with its store identifier `_id` replaced by the string field `id`. */
  function Normalized(d: Document): (r: Document)
    ensures "_id" !in r
    ensures "_id" in d ==> "id" in r && r["id"] == VStr(Str(d["_id"]))
    ensures "_id" !in d ==> r == d
    ensures forall k :: k in d && k != "_id" && k != "id" ==> k in r && r[k] == d[k]
    ensures forall k :: k in r ==> k in d || k == "id"
  {
    if "_id" in d then (d - {"_id"})["id" := VStr(Str(d["_id"]))] else d
  }

  /** Rewrites every document of the list in place. */
  method NormalizeIds(docs: array<Document>)
    modifies docs
    ensures forall i :: 0 <= i < docs.Length ==> docs[i] == Normalized(old(docs[i]))
  {
    for i := 0 to docs.Length
      invariant forall k :: 0 <= k < i ==> docs[k] == Normalized(old(docs[k]))
      invariant forall k :: i <= k < docs.Length ==> docs[k] == old(docs[k])
    {
      var d := docs[i];
      if "_id" in d {
        var id := d["_id"];
        d := d - {"_id"};
        d := d["id" := VStr(Str(id))];
        docs[i] := d;
      }
    }
  }

  /** The items are the store's answer to the request, normalised one by one, in order. */
  ghost predicate ServedFrom(find: Finder, request: FindRequest, items: seq<Document>) {
    && find(request).Success?
    && |items| == |find(request).value|
    && forall i :: 0 <= i < |items| ==> items[i] == Normalized(find(request).value[i])
  }

  /**
    The reply to one find call: the items served when the store answers, the
    store's error, with nothing returned, when it raises.
  */
  ghost predicate Answers(find: Finder, request: FindRequest, reply: Reply) {
    && (reply.Items? || reply.StoreError?)
    && reply.request == request
    && (reply.Items? ==> ServedFrom(find, request, reply.items))
    && (reply.StoreError? ==> find(request) == Failure(reply.message))
  }

  method FindNormalized(find: Finder, request: FindRequest) returns (reply: Reply)
    ensures Answers(find, request, reply)
  {
    var found := find(request);
    if found.Failure? {
      return StoreError(request, found.error);
    }
    var docs := new Document[|found.value|](i requires 0 <= i < |found.value| => found.value[i]);
    NormalizeIds(docs);
    reply := Items(request, docs[..]);
  }

  // ---------------------------------------------------------------------
  // List endpoints

  method ListProducts(db: Option<Finder>, f: ProductFilters, limit: Option<int>) returns (reply: Reply)
    ensures db.None? ==> reply == Failed(500, "Database unavailable")
    ensures db.Some? ==>
      && (reply.Items? || reply.StoreError?)
      && reply.request.collection == CollectionName(ProductCollection)
      && IsProductQuery(reply.request.filter, f)
      && reply.request.limit == LimitOr(limit, DefaultProductLimit)
      && Answers(db.value, reply.request, reply)
  {
    if db.None? {
      return Failed(500, "Database unavailable");
    }
    var query := BuildProductQuery(f);
    var request := FindRequest(CollectionName(ProductCollection), query, LimitOr(limit, DefaultProductLimit));
    reply := FindNormalized(db.value, request);
  }

  method ListCategories(find: Finder, limit: Option<int>) returns (reply: Reply)
    ensures Answers(find, FindRequest(CollectionName(CategoryCollection), map[], LimitOr(limit, DefaultCategoryLimit)), reply)
  {
    var request := FindRequest(CollectionName(CategoryCollection), map[], LimitOr(limit, DefaultCategoryLimit));
    reply := FindNormalized(find, request);
  }

  /** `user_email` is a required query parameter: without it the request is rejected. */
  method GetWishlist(find: Finder, userEmail: Option<string>, limit: Option<int>) returns (reply: Reply)
    ensures userEmail.None? ==> reply == Rejected(Missing("user_email"))
    ensures userEmail.Some? ==>
      Answers(find, FindRequest(CollectionName(WishlistCollection), map["user_email" := VStr(userEmail.value)],
                                LimitOr(limit, DefaultWishlistLimit)), reply)
  {
    if userEmail.None? {
      return Rejected(Missing("user_email"));
    }
    var request := FindRequest(CollectionName(WishlistCollection), map["user_email" := VStr(userEmail.value)],
                               LimitOr(limit, DefaultWishlistLimit));
    reply := FindNormalized(find, request);
  }

  method ListOrders(find: Finder, userEmail: Option<string>, limit: Option<int>) returns (reply: Reply)
    ensures userEmail.None? ==> reply == Rejected(Missing("user_email"))
    ensures userEmail.Some? ==>
      Answers(find, FindRequest(CollectionName(OrderCollection), map["user_email" := VStr(userEmail.value)],
                                LimitOr(limit, DefaultOrderLimit)), reply)
  {
    if userEmail.None? {
      return Rejected(Missing("user_email"));
    }
    var request := FindRequest(CollectionName(OrderCollection), map["user_email" := VStr(userEmail.value)],
                               LimitOr(limit, DefaultOrderLimit));
    reply := FindNormalized(find, request);
  }

  // ---------------------------------------------------------------------
  // Create endpoints

  /** A validated record, tagged with its kind. */
  datatype Record =
    | ProductRecord(product: Product)
    | CategoryRecord(category: Category)
    | WishlistRecord(wishlist: Wishlist)
    | OrderRecord(order: Order)

  predicate ValidRecord(r: Record) {
    match r
    case ProductRecord(p) => ValidProduct(p)
    case CategoryRecord(_) => true
    case WishlistRecord(_) => true
    case OrderRecord(o) => ValidOrder(o)
  }

  predicate RecordHolds(raw: Document, r: Record) {
    match r
    case ProductRecord(p) => ProductHolds(raw, p)
    case CategoryRecord(c) => CategoryHolds(raw, c)
    case WishlistRecord(w) => WishlistHolds(raw, w)
    case OrderRecord(o) => OrderHolds(raw, o)
  }

  /** The collection a record is inserted into. */
  function RecordCollection(r: Record): Collection {
    match r
    case ProductRecord(_) => ProductCollection
    case CategoryRecord(_) => CategoryCollection
    case WishlistRecord(_) => WishlistCollection
    case OrderRecord(_) => OrderCollection
  }

  /** One insert call: collection and record. */
  datatype InsertRequest = InsertRequest(collection: string, record: Record)

  type Inserter = InsertRequest -> Result<string, string>

  /**
    A create endpoint's answer: a validation error, the insert issued with the
    identifier it returned, or the insert that raised (a server error).
  */
  datatype CreateReply =
    | Invalid(error: SchemaError)
    | Created(request: InsertRequest, id: string)
    | InsertError(request: InsertRequest, message: string)

  /** The body of a create request, validated against the collection's record shape. */
  function ValidateBody(c: Collection, body: Document): (r: Result<Record, SchemaError>)
    requires c != UserCollection
    ensures r.Success? ==> RecordCollection(r.value) == c && ValidRecord(r.value) && RecordHolds(body, r.value)
  {
    match c
    case ProductCollection =>
      var p :- ValidateProduct(body); Success(ProductRecord(p))
    case CategoryCollection =>
      var cat :- ValidateCategory(body); Success(CategoryRecord(cat))
    case WishlistCollection =>
      var w :- ValidateWishlist(body); Success(WishlistRecord(w))
    case OrderCollection =>
      var o :- ValidateOrder(body); Success(OrderRecord(o))
  }

  /**
    The create endpoints (products, categories, wishlist entries, orders; there
    is none for users): a body that fails validation never reaches the store;
    a valid one is inserted into its own collection exactly as validated, and
    the reply is the store's identifier or, when the insert raises, its error.
  */
  function Create(c: Collection, body: Document, insert: Inserter): (r: CreateReply)
    requires c != UserCollection
    ensures r.Invalid? <==> ValidateBody(c, body).Failure?
    ensures !r.Invalid? ==>
      && r.request.collection == CollectionName(c)
      && RecordCollection(r.request.record) == c
      && ValidRecord(r.request.record)
      && RecordHolds(body, r.request.record)
    ensures r.Created? ==> insert(r.request) == Success(r.id)
    ensures r.InsertError? ==> insert(r.request) == Failure(r.message)
  {
    match ValidateBody(c, body)
    case Failure(e) => Invalid(e)
    case Success(record) =>
      var request := InsertRequest(CollectionName(c), record);
      match insert(request)
      case Success(id) => Created(request, id)
      case Failure(message) => InsertError(request, message)
  }

  /** A product body with a negative price is refused and nothing is inserted. */
  lemma NegativePriceRefused(body: Document, insert: Inserter)
    requires "price" in body && AsReal(body["price"]).Some? && AsReal(body["price"]).value < 0.0
    ensures Create(ProductCollection, body, insert).Invalid?
  {
  }

  /** Every valid product is inserted as itself once dumped and posted. */
  lemma ValidProductCreated(p: Product, insert: Inserter)
    requires ValidProduct(p)
    ensures !Create(ProductCollection, ProductDoc(p), insert).Invalid?
    ensures Create(ProductCollection, ProductDoc(p), insert).request == InsertRequest("product", ProductRecord(p))
    ensures Create(ProductCollection, ProductDoc(p), insert).Created? <==>
      insert(InsertRequest("product", ProductRecord(p))).Success?
  {
    ProductRoundTrip(p);
  }
}
