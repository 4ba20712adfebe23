/**
  The six record shapes of the shop (users, categories, products, order
  items, orders and wishlist entries), each with its required fields, its
  optional fields, its defaults and its numeric bounds.

  A raw request body is a `Document`. `ValidateX` turns it into a record or
  reports the first field that is missing, has the wrong type or breaks a
  bound, checking the fields in declaration order. Keys the record does not
  declare are ignored. `XHolds(raw, x)` says that `raw` carries exactly the
  field values of `x` (an absent optional field meaning its default), and
  each validator is proved sound and complete against it.
*/
module Schemas {
  import opened Wrappers
  import opened Documents

  datatype SchemaError =
    | Missing(field: string)
    | WrongType(field: string)
    | OutOfRange(field: string)
    | ItemNotRecord(index: nat)
    | InItem(index: nat, cause: SchemaError)

  datatype User = User(name: string, email: string, address: Option<string>, age: Option<int>, isActive: bool)

  datatype Category = Category(name: string, slug: string)

  datatype Product = Product(
    title: string,
    description: Option<string>,
    price: real,
    category: string,
    brand: Option<string>,
    image: Option<string>,
    inStock: bool)

  datatype OrderItem = OrderItem(productId: string, title: string, price: real, quantity: int)

  datatype Order = Order(
    userEmail: string,
    shippingAddress: string,
    paymentMethod: string,
    status: string,
    items: seq<OrderItem>,
    total: real)

  datatype Wishlist = Wishlist(userEmail: string, productId: string)

  const MinAge: int := 0
  const MaxAge: int := 120
  const MinQuantity: int := 1
  const DefaultStatus: string := "pending"

  // ---------------------------------------------------------------------
  // Validity of records

  predicate ValidUser(u: User) {
    u.age.Some? ==> MinAge <= u.age.value <= MaxAge
  }

  predicate ValidProduct(p: Product) {
    p.price >= 0.0
  }

  predicate ValidOrderItem(it: OrderItem) {
    it.price >= 0.0 && it.quantity >= MinQuantity
  }

  predicate ValidOrder(o: Order) {
    o.total >= 0.0 && forall i :: 0 <= i < |o.items| ==> ValidOrderItem(o.items[i])
  }

  // ---------------------------------------------------------------------
  // What it means for a raw document to carry a field value

  /** The numeric value a JSON number denotes as a float field. */
  function AsReal(v: Value): Option<real> {
    match v
    case VInt(i) => Some(i as real)
    case VFloat(r) => Some(r)
    case _ => None
  }

  predicate HoldsStr(raw: Document, key: string, s: string) {
    key in raw && raw[key] == VStr(s)
  }

  predicate HoldsOptStr(raw: Document, key: string, o: Option<string>) {
    match o
    case None => key !in raw || raw[key] == VNull
    case Some(s) => key in raw && raw[key] == VStr(s)
  }

  predicate HoldsStrOr(raw: Document, key: string, default: string, s: string) {
    if key in raw then raw[key] == VStr(s) else s == default
  }

  predicate HoldsBoolOr(raw: Document, key: string, default: bool, b: bool) {
    if key in raw then raw[key] == VBool(b) else b == default
  }

  predicate HoldsReal(raw: Document, key: string, x: real) {
    key in raw && AsReal(raw[key]) == Some(x)
  }

  predicate HoldsInt(raw: Document, key: string, n: int) {
    key in raw && raw[key] == VInt(n)
  }

  predicate HoldsOptInt(raw: Document, key: string, o: Option<int>) {
    match o
    case None => key !in raw || raw[key] == VNull
    case Some(n) => key in raw && raw[key] == VInt(n)
  }

  // ---------------------------------------------------------------------
  // Field readers: one per kind of field declaration

  /** A required string field, `Field(...)`. */
  function ReadStr(raw: Document, key: string): (r: Result<string, SchemaError>)
    ensures r.Success? <==> key in raw && raw[key].VStr?
    ensures r.Success? ==> HoldsStr(raw, key, r.value)
    ensures key !in raw ==> r == Failure(Missing(key))
  {
    if key !in raw then Failure(Missing(key))
    else if raw[key].VStr? then Success(raw[key].s)
    else Failure(WrongType(key))
  }

  /** An optional string field, `Optional[str] = Field(None)`: absent and null both read as None. */
  function ReadOptStr(raw: Document, key: string): (r: Result<Option<string>, SchemaError>)
    ensures r.Success? <==> key !in raw || raw[key] == VNull || raw[key].VStr?
    ensures r.Success? ==> HoldsOptStr(raw, key, r.value)
  {
    if key !in raw || raw[key] == VNull then Success(None)
    else if raw[key].VStr? then Success(Some(raw[key].s))
    else Failure(WrongType(key))
  }

  /** A string field with a default, `str = Field(default)`. */
  function ReadStrOr(raw: Document, key: string, default: string): (r: Result<string, SchemaError>)
    ensures r.Success? <==> key !in raw || raw[key].VStr?
    ensures r.Success? ==> HoldsStrOr(raw, key, default, r.value)
  {
    if key !in raw then Success(default)
    else if raw[key].VStr? then Success(raw[key].s)
    else Failure(WrongType(key))
  }

  /** A boolean field with a default, `bool = Field(default)`. */
  function ReadBoolOr(raw: Document, key: string, default: bool): (r: Result<bool, SchemaError>)
    ensures r.Success? <==> key !in raw || raw[key].VBool?
    ensures r.Success? ==> HoldsBoolOr(raw, key, default, r.value)
  {
    if key !in raw then Success(default)
    else if raw[key].VBool? then Success(raw[key].b)
    else Failure(WrongType(key))
  }

  /** A required float field with a lower bound, `float = Field(..., ge=lo)`. */
  function ReadReal(raw: Document, key: string, lo: real): (r: Result<real, SchemaError>)
    ensures r.Success? <==> key in raw && AsReal(raw[key]).Some? && AsReal(raw[key]).value >= lo
    ensures r.Success? ==> HoldsReal(raw, key, r.value) && r.value >= lo
    ensures key !in raw ==> r == Failure(Missing(key))
  {
    if key !in raw then Failure(Missing(key))
    else match AsReal(raw[key])
      case None => Failure(WrongType(key))
      case Some(x) => if x < lo then Failure(OutOfRange(key)) else Success(x)
  }

  /** A required integer field with a lower bound, `int = Field(..., ge=lo)`. */
  function ReadInt(raw: Document, key: string, lo: int): (r: Result<int, SchemaError>)
    ensures r.Success? <==> key in raw && raw[key].VInt? && raw[key].i >= lo
    ensures r.Success? ==> HoldsInt(raw, key, r.value) && r.value >= lo
    ensures key !in raw ==> r == Failure(Missing(key))
  {
    if key !in raw then Failure(Missing(key))
    else if !raw[key].VInt? then Failure(WrongType(key))
    else if raw[key].i < lo then Failure(OutOfRange(key))
    else Success(raw[key].i)
  }

  /** An optional bounded integer field, `Optional[int] = Field(None, ge=lo, le=hi)`. */
  function ReadOptInt(raw: Document, key: string, lo: int, hi: int): (r: Result<Option<int>, SchemaError>)
    ensures r.Success? <==>
      key !in raw || raw[key] == VNull || (raw[key].VInt? && lo <= raw[key].i <= hi)
    ensures r.Success? ==> HoldsOptInt(raw, key, r.value)
    ensures r.Success? && r.value.Some? ==> lo <= r.value.value <= hi
  {
    if key !in raw || raw[key] == VNull then Success(None)
    else if !raw[key].VInt? then Failure(WrongType(key))
    else if raw[key].i < lo || raw[key].i > hi then Failure(OutOfRange(key))
    else Success(Some(raw[key].i))
  }

  // ---------------------------------------------------------------------
  // User

  predicate UserHolds(raw: Document, u: User) {
    && HoldsStr(raw, "name", u.name)
    && HoldsStr(raw, "email", u.email)
    && HoldsOptStr(raw, "address", u.address)
    && HoldsOptInt(raw, "age", u.age)
    && HoldsBoolOr(raw, "is_active", true, u.isActive)
  }

  function ValidateUser(raw: Document): (r: Result<User, SchemaError>)
    ensures r.Success? ==> ValidUser(r.value) && UserHolds(raw, r.value)
    ensures "name" !in raw ==> r == Failure(Missing("name"))
    ensures "email" !in raw ==> r.Failure?
    ensures r.Success? && "is_active" !in raw ==> r.value.isActive
    ensures r.Success? && "address" !in raw ==> r.value.address == None
  {
    var name :- ReadStr(raw, "name");
    var email :- ReadStr(raw, "email");
    var address :- ReadOptStr(raw, "address");
    var age :- ReadOptInt(raw, "age", MinAge, MaxAge);
    var isActive :- ReadBoolOr(raw, "is_active", true);
    Success(User(name, email, address, age, isActive))
  }

  /** Every raw document that carries a valid user's fields is accepted as that user. */
  lemma ValidateUserComplete(raw: Document, u: User)
    requires ValidUser(u) && UserHolds(raw, u)
    ensures ValidateUser(raw) == Success(u)
  {
  }

  // ---------------------------------------------------------------------
  // Category

  predicate CategoryHolds(raw: Document, c: Category) {
    HoldsStr(raw, "name", c.name) && HoldsStr(raw, "slug", c.slug)
  }

  function ValidateCategory(raw: Document): (r: Result<Category, SchemaError>)
    ensures r.Success? <==> "name" in raw && raw["name"].VStr? && "slug" in raw && raw["slug"].VStr?
    ensures r.Success? ==> CategoryHolds(raw, r.value)
    ensures "name" !in raw ==> r == Failure(Missing("name"))
  {
    var name :- ReadStr(raw, "name");
    var slug :- ReadStr(raw, "slug");
    Success(Category(name, slug))
  }

  // ---------------------------------------------------------------------
  // Product

  predicate ProductHolds(raw: Document, p: Product) {
    && HoldsStr(raw, "title", p.title)
    && HoldsOptStr(raw, "description", p.description)
    && HoldsReal(raw, "price", p.price)
    && HoldsStr(raw, "category", p.category)
    && HoldsOptStr(raw, "brand", p.brand)
    && HoldsOptStr(raw, "image", p.image)
    && HoldsBoolOr(raw, "in_stock", true, p.inStock)
  }

  function ValidateProduct(raw: Document): (r: Result<Product, SchemaError>)
    ensures r.Success? ==> ValidProduct(r.value) && ProductHolds(raw, r.value)
    ensures "title" !in raw ==> r == Failure(Missing("title"))
    ensures "price" !in raw || "category" !in raw ==> r.Failure?
    ensures "price" in raw && AsReal(raw["price"]).Some? && AsReal(raw["price"]).value < 0.0 ==> r.Failure?
    ensures r.Success? && "in_stock" !in raw ==> r.value.inStock
    ensures r.Success? && "description" !in raw ==> r.value.description == None
    ensures r.Success? && "brand" !in raw ==> r.value.brand == None
    ensures r.Success? && "image" !in raw ==> r.value.image == None
  {
    var title :- ReadStr(raw, "title");
    var description :- ReadOptStr(raw, "description");
    var price :- ReadReal(raw, "price", 0.0);
    var category :- ReadStr(raw, "category");
    var brand :- ReadOptStr(raw, "brand");
    var image :- ReadOptStr(raw, "image");
    var inStock :- ReadBoolOr(raw, "in_stock", true);
    Success(Product(title, description, price, category, brand, image, inStock))
  }

  lemma ValidateProductComplete(raw: Document, p: Product)
    requires ValidProduct(p) && ProductHolds(raw, p)
    ensures ValidateProduct(raw) == Success(p)
  {
  }

  // ---------------------------------------------------------------------
  // OrderItem

  predicate OrderItemHolds(raw: Document, it: OrderItem) {
    && HoldsStr(raw, "product_id", it.productId)
    && HoldsStr(raw, "title", it.title)
    && HoldsReal(raw, "price", it.price)
    && HoldsInt(raw, "quantity", it.quantity)
  }

  function ValidateOrderItem(raw: Document): (r: Result<OrderItem, SchemaError>)
    ensures r.Success? ==> ValidOrderItem(r.value) && OrderItemHolds(raw, r.value)
    ensures "product_id" !in raw ==> r == Failure(Missing("product_id"))
    ensures "title" !in raw || "price" !in raw || "quantity" !in raw ==> r.Failure?
    ensures "quantity" in raw && raw["quantity"].VInt? && raw["quantity"].i < 1 ==> r.Failure?
  {
    var productId :- ReadStr(raw, "product_id");
    var title :- ReadStr(raw, "title");
    var price :- ReadReal(raw, "price", 0.0);
    var quantity :- ReadInt(raw, "quantity", MinQuantity);
    Success(OrderItem(productId, title, price, quantity))
  }

  /** The raw value at position `index` of an order's `items` list. */
  function ValidateItemAt(index: nat, v: Value): (r: Result<OrderItem, SchemaError>)
    ensures r.Success? <==> v.VMap? && ValidateOrderItem(v.fields).Success?
    ensures r.Success? ==> r.value == ValidateOrderItem(v.fields).value
  {
    match v
    case VMap(fields) =>
      (match ValidateOrderItem(fields)
       case Success(it) => Success(it)
       case Failure(e) => Failure(InItem(index, e)))
    case _ => Failure(ItemNotRecord(index))
  }

  /** The raw `items` list carries exactly the given order items, position by position. */
  predicate ItemsHold(vs: seq<Value>, items: seq<OrderItem>) {
    && |vs| == |items|
    && forall i :: 0 <= i < |vs| ==> vs[i].VMap? && OrderItemHolds(vs[i].fields, items[i])
  }

  /** Validates a list of raw order items, reporting the first bad position. */
  function ValidateItems(vs: seq<Value>): (r: Result<seq<OrderItem>, SchemaError>)
    ensures r.Success? ==> ItemsHold(vs, r.value)
    ensures r.Success? ==> forall i :: 0 <= i < |r.value| ==> ValidOrderItem(r.value[i])
    ensures r.Success? <==> forall i :: 0 <= i < |vs| ==> ValidateItemAt(i, vs[i]).Success?
    decreases |vs|
  {
    if vs == [] then Success([])
    else
      var init :- ValidateItems(vs[..|vs| - 1]);
      var last :- ValidateItemAt(|vs| - 1, vs[|vs| - 1]);
      Success(init + [last])
  }

  lemma {:induction false} ValidateItemsComplete(vs: seq<Value>, items: seq<OrderItem>)
    requires ItemsHold(vs, items)
    requires forall i :: 0 <= i < |items| ==> ValidOrderItem(items[i])
    ensures ValidateItems(vs) == Success(items)
    decreases |vs|
  {
    if vs != [] {
      var n := |vs| - 1;
      assert ItemsHold(vs[..n], items[..n]) by {
        forall i | 0 <= i < n ensures vs[..n][i].VMap? && OrderItemHolds(vs[..n][i].fields, items[..n][i]) {
          assert vs[..n][i] == vs[i] && items[..n][i] == items[i];
        }
      }
      ValidateItemsComplete(vs[..n], items[..n]);
      assert vs[n].VMap? && OrderItemHolds(vs[n].fields, items[n]);
      assert ValidOrderItem(items[n]);
      assert items[..n] + [items[n]] == items;
    }
  }

  predicate OrderHolds(raw: Document, o: Order) {
    && HoldsStr(raw, "user_email", o.userEmail)
    && HoldsStr(raw, "shipping_address", o.shippingAddress)
    && HoldsStr(raw, "payment_method", o.paymentMethod)
    && HoldsStrOr(raw, "status", DefaultStatus, o.status)
    && "items" in raw && raw["items"].VList? && ItemsHold(raw["items"].elems, o.items)
    && HoldsReal(raw, "total", o.total)
  }

  /** A required list field of order items, `List[OrderItem] = Field(...)`. */
  function ReadItems(raw: Document, key: string): (r: Result<seq<OrderItem>, SchemaError>)
    ensures key !in raw ==> r == Failure(Missing(key))
    ensures r.Success? ==> key in raw && raw[key].VList? && ItemsHold(raw[key].elems, r.value)
    ensures r.Success? ==> forall i :: 0 <= i < |r.value| ==> ValidOrderItem(r.value[i])
  {
    if key !in raw then Failure(Missing(key))
    else if !raw[key].VList? then Failure(WrongType(key))
    else ValidateItems(raw[key].elems)
  }

  function ValidateOrder(raw: Document): (r: Result<Order, SchemaError>)
    ensures r.Success? ==> ValidOrder(r.value) && OrderHolds(raw, r.value)
    ensures "user_email" !in raw ==> r == Failure(Missing("user_email"))
    ensures "shipping_address" !in raw || "payment_method" !in raw || "items" !in raw || "total" !in raw ==>
      r.Failure?
    ensures "total" in raw && AsReal(raw["total"]).Some? && AsReal(raw["total"]).value < 0.0 ==> r.Failure?
    ensures r.Success? && "status" !in raw ==> r.value.status == DefaultStatus
  {
    var userEmail :- ReadStr(raw, "user_email");
    var shippingAddress :- ReadStr(raw, "shipping_address");
    var paymentMethod :- ReadStr(raw, "payment_method");
    var status :- ReadStrOr(raw, "status", DefaultStatus);
    var items :- ReadItems(raw, "items");
    var total :- ReadReal(raw, "total", 0.0);
    Success(Order(userEmail, shippingAddress, paymentMethod, status, items, total))
  }

  /**
    Every raw document that carries a valid order's fields is accepted as
    that order: whatever its payment method, however many items it has
    (none included) and whatever its total, as long as that is not negative.
  */
  lemma ValidateOrderComplete(raw: Document, o: Order)
    requires ValidOrder(o) && OrderHolds(raw, o)
    ensures ValidateOrder(raw) == Success(o)
  {
    ValidateItemsComplete(raw["items"].elems, o.items);
  }

  // ---------------------------------------------------------------------
  // Wishlist

  predicate WishlistHolds(raw: Document, w: Wishlist) {
    HoldsStr(raw, "user_email", w.userEmail) && HoldsStr(raw, "product_id", w.productId)
  }

  function ValidateWishlist(raw: Document): (r: Result<Wishlist, SchemaError>)
    ensures r.Success? <==>
      "user_email" in raw && raw["user_email"].VStr? && "product_id" in raw && raw["product_id"].VStr?
    ensures r.Success? ==> WishlistHolds(raw, r.value)
    ensures "user_email" !in raw ==> r == Failure(Missing("user_email"))
  {
    var userEmail :- ReadStr(raw, "user_email");
    var productId :- ReadStr(raw, "product_id");
    Success(Wishlist(userEmail, productId))
  }

  // ---------------------------------------------------------------------
  // Records as documents: the field values a validated record dumps to

  function OptStrValue(o: Option<string>): Value {
    match o
    case None => VNull
    case Some(s) => VStr(s)
  }

  function OptIntValue(o: Option<int>): Value {
    match o
    case None => VNull
    case Some(n) => VInt(n)
  }

  function UserDoc(u: User): (d: Document)
    ensures UserHolds(d, u)
    ensures d.Keys == {"name", "email", "address", "age", "is_active"}
  {
    map["name" := VStr(u.name), "email" := VStr(u.email), "address" := OptStrValue(u.address),
        "age" := OptIntValue(u.age), "is_active" := VBool(u.isActive)]
  }

  function CategoryDoc(c: Category): (d: Document)
    ensures CategoryHolds(d, c)
    ensures d.Keys == {"name", "slug"}
  {
    map["name" := VStr(c.name), "slug" := VStr(c.slug)]
  }

  function ProductDoc(p: Product): (d: Document)
    ensures ProductHolds(d, p)
    ensures d.Keys == {"title", "description", "price", "category", "brand", "image", "in_stock"}
  {
    map["title" := VStr(p.title), "description" := OptStrValue(p.description), "price" := VFloat(p.price),
        "category" := VStr(p.category), "brand" := OptStrValue(p.brand), "image" := OptStrValue(p.image),
        "in_stock" := VBool(p.inStock)]
  }

  function OrderItemDoc(it: OrderItem): (d: Document)
    ensures OrderItemHolds(d, it)
    ensures d.Keys == {"product_id", "title", "price", "quantity"}
  {
    map["product_id" := VStr(it.productId), "title" := VStr(it.title), "price" := VFloat(it.price),
        "quantity" := VInt(it.quantity)]
  }

  function ItemsValue(items: seq<OrderItem>): (v: Value)
    ensures v.VList? && ItemsHold(v.elems, items)
  {
    VList(seq(|items|, i requires 0 <= i < |items| => VMap(OrderItemDoc(items[i]))))
  }

  function OrderDoc(o: Order): (d: Document)
    ensures OrderHolds(d, o)
    ensures d.Keys == {"user_email", "shipping_address", "payment_method", "status", "items", "total"}
  {
    map["user_email" := VStr(o.userEmail), "shipping_address" := VStr(o.shippingAddress),
        "payment_method" := VStr(o.paymentMethod), "status" := VStr(o.status),
        "items" := ItemsValue(o.items), "total" := VFloat(o.total)]
  }

  function WishlistDoc(w: Wishlist): (d: Document)
    ensures WishlistHolds(d, w)
    ensures d.Keys == {"user_email", "product_id"}
  {
    map["user_email" := VStr(w.userEmail), "product_id" := VStr(w.productId)]
  }

  // ---------------------------------------------------------------------
  // Round trips: a valid record survives being dumped and validated again

  lemma UserRoundTrip(u: User)
    requires ValidUser(u)
    ensures ValidateUser(UserDoc(u)) == Success(u)
  {
    ValidateUserComplete(UserDoc(u), u);
  }

  lemma CategoryRoundTrip(c: Category)
    ensures ValidateCategory(CategoryDoc(c)) == Success(c)
  {
  }

  lemma ProductRoundTrip(p: Product)
    requires ValidProduct(p)
    ensures ValidateProduct(ProductDoc(p)) == Success(p)
  {
    ValidateProductComplete(ProductDoc(p), p);
  }

  lemma OrderRoundTrip(o: Order)
    requires ValidOrder(o)
    ensures ValidateOrder(OrderDoc(o)) == Success(o)
  {
    ValidateOrderComplete(OrderDoc(o), o);
  }

  lemma WishlistRoundTrip(w: Wishlist)
    ensures ValidateWishlist(WishlistDoc(w)) == Success(w)
  {
  }

  // ---------------------------------------------------------------------
  // What order validation does not check

  /** The sum of price times quantity over the items, which the total is expected to match. */
  function Subtotal(items: seq<OrderItem>): real
    decreases |items|
  {
    if items == [] then 0.0
    else
      var last := items[|items| - 1];
      Subtotal(items[..|items| - 1]) + last.price * last.quantity as real
  }

  lemma {:induction false} SubtotalNonNegative(items: seq<OrderItem>)
    requires forall i :: 0 <= i < |items| ==> ValidOrderItem(items[i])
    ensures Subtotal(items) >= 0.0
    decreases |items|
  {
    if items != [] {
      var n := |items| - 1;
      assert forall i :: 0 <= i < n ==> items[..n][i] == items[i];
      SubtotalNonNegative(items[..n]);
      assert ValidOrderItem(items[n]);
      var p, q := items[n].price, items[n].quantity as real;
      assert p * q >= 0.0 by {
        assert p >= 0.0 && q >= 1.0;
      }
    }
  }

  /**
    An order whose total disagrees with the sum of its items is accepted all
    the same: validation only bounds the total below by zero.
  */
  lemma MismatchedTotalAccepted(o: Order)
    requires ValidOrder(o)
    ensures var o' := o.(total := Subtotal(o.items) + 1.0);
      o'.total != Subtotal(o'.items) && ValidateOrder(OrderDoc(o')) == Success(o')
  {
    SubtotalNonNegative(o.items);
    OrderRoundTrip(o.(total := Subtotal(o.items) + 1.0));
  }

  /** An order with no items at all is accepted. */
  lemma EmptyOrderAccepted(o: Order)
    requires o.total >= 0.0
    ensures ValidateOrder(OrderDoc(o.(items := []))) == Success(o.(items := []))
  {
    OrderRoundTrip(o.(items := []));
  }
}
