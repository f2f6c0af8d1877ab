/** The Mongoose schemas of models/Product.js, models/User.js and
    models/Order.js: one datatype per document kind, a constructor function
    per schema that applies its defaults and its `required` checks, and the
    sums over cart lines and order items that the order engine relies on. */
module Models {
  import opened Wrappers

  /** Document ids (ObjectIds) as their hexadecimal text. */
  type Id = string

  // The status names the routes and pages compare against. The schema itself
  // stores any string (`status: { type: String }`, no enum).
  const Placed := "Placed"
  const Processing := "Processing"
  const Shipped := "Shipped"
  const Delivered := "Delivered"
  const Cancelled := "Cancelled"

  /** Why Mongoose refuses to create a document: a `required` path is
      missing (for strings, Mongoose's required check also refuses ""). */
  datatype ValidationError = Required(path: string)

  // ---------------------------------------------------------------- Product

  datatype Product = Product(
    name: string,
    description: string,
    price: int,          // money in paise
    stock: int,          // the schema has no lower bound
    unit: string,
    quantityValue: int,
    imageUrl: string,
    category: string,
    keywords: seq<string>)

  /** The fields a create request may supply; absent ones take the defaults. */
  datatype ProductFields = ProductFields(
    name: Option<string>,
    description: Option<string>,
    price: Option<int>,
    stock: Option<int>,
    unit: Option<string>,
    quantityValue: Option<int>,
    imageUrl: Option<string>,
    category: Option<string>,
    keywords: Option<seq<string>>)

  function CreateProduct(f: ProductFields): (r: Result<Product, ValidationError>)
    ensures r.Err? <==> f.name == None || f.name == Some("")
    ensures r.Err? ==> r.error == Required("name")
    ensures r.Ok? ==> r.value.name == f.name.value
    ensures r.Ok? ==> r.value.price == f.price.GetOr(0) && r.value.stock == f.stock.GetOr(0)
    ensures r.Ok? ==> r.value.unit == f.unit.GetOr("gm") && r.value.category == f.category.GetOr("General")
    ensures r.Ok? ==> r.value.keywords == f.keywords.GetOr([]) && r.value.description == f.description.GetOr("")
    ensures r.Ok? ==> r.value.quantityValue == f.quantityValue.GetOr(0) && r.value.imageUrl == f.imageUrl.GetOr("")
  {
    if f.name == None || f.name == Some("") then Err(Required("name"))
    else Ok(Product(
      f.name.value,
      f.description.GetOr(""),
      f.price.GetOr(0),
      f.stock.GetOr(0),
      f.unit.GetOr("gm"),
      f.quantityValue.GetOr(0),
      f.imageUrl.GetOr(""),
      f.category.GetOr("General"),
      f.keywords.GetOr([])))
  }

  /** The schema admits a product with negative stock: nothing but the order
      engine's own check keeps stock from going below zero. */
  lemma SchemaAllowsNegativeStock()
    ensures var r := CreateProduct(ProductFields(Some("Khakhra"), None, None, Some(-3), None, None, None, None, None));
            r.Ok? && r.value.stock == -3 && r.value.unit == "gm" && r.value.category == "General"
  {
  }

  // ------------------------------------------------------------------- User

  datatype CartItem = CartItem(productId: Id, quantity: int)

  /** A cart line; the quantity defaults to 1 and is not range-checked. */
  function NewCartItem(productId: Id, quantity: Option<int>): (c: CartItem)
    ensures c.productId == productId
    ensures quantity == None ==> c.quantity == 1
    ensures quantity.Some? ==> c.quantity == quantity.value
  {
    CartItem(productId, quantity.GetOr(1))
  }

  /** The saved delivery address of models/User.js:14-20: five optional
      strings, none of them required and none with a default. */
  datatype SavedAddress = SavedAddress(
    house: Option<string>,
    landmark: Option<string>,
    address: Option<string>,
    city: Option<string>,
    postalCode: Option<string>)

  const NoSavedAddress := SavedAddress(None, None, None, None, None)

  datatype User = User(
    email: string,
    passwordHash: string,
    name: string,
    contact: string,
    isAdmin: bool,
    defaultAddress: SavedAddress,
    cart: seq<CartItem>,
    resetToken: Option<string>,
    resetExpires: Option<int>,   // milliseconds since the epoch
    createdAt: int)

  /** A new user: email and password hash are required; name and contact
      default to "", isAdmin to false, the cart to empty, and there is no
      saved address and no reset token. */
  function NewUser(email: string, passwordHash: string, now: int): (r: Result<User, ValidationError>)
    ensures r.Err? <==> email == "" || passwordHash == ""
    ensures r.Ok? ==> r.value.email == email && r.value.passwordHash == passwordHash
    ensures r.Ok? ==> !r.value.isAdmin && r.value.cart == [] && r.value.name == "" && r.value.contact == ""
    ensures r.Ok? ==> r.value.defaultAddress == NoSavedAddress
    ensures r.Ok? ==> r.value.resetToken == None && r.value.resetExpires == None && r.value.createdAt == now
  {
    if email == "" then Err(Required("email"))
    else if passwordHash == "" then Err(Required("passwordHash"))
    else Ok(User(email, passwordHash, "", "", false, NoSavedAddress, [], None, None, now))
  }

  // ------------------------------------------------------------------ Order

  /** A line of an order: its own copy of the product's name and price. */
  datatype OrderItem = OrderItem(productId: Id, name: string, price: int, quantity: int)

  datatype Address = Address(name: string, house: string, landmark: string, address: string, city: string, postalCode: string)

  datatype HistoryEntry = HistoryEntry(status: string, reason: string, updatedBy: Id, updatedAt: int)

  datatype Order = Order(
    id: Id,
    userId: Id,
    items: seq<OrderItem>,
    totalAmount: int,
    shippingAddress: Address,
    status: string,
    userReason: string,
    adminReason: string,
    statusHistory: seq<HistoryEntry>,
    createdAt: int)

  /** A history entry; `updatedAt` defaults to the current time. */
  function NewHistoryEntry(status: string, reason: string, updatedBy: Id, updatedAt: Option<int>, now: int): (h: HistoryEntry)
    ensures h.status == status && h.reason == reason && h.updatedBy == updatedBy
    ensures h.updatedAt == updatedAt.GetOr(now)
  {
    HistoryEntry(status, reason, updatedBy, updatedAt.GetOr(now))
  }

  /** A new order: the status defaults to "Placed", both reasons to "", the
      history to empty, and `createdAt` to the current time. */
  function NewOrder(id: Id, userId: Id, items: seq<OrderItem>, totalAmount: int, shippingAddress: Address,
                    status: Option<string>, now: int): (o: Order)
    ensures o.id == id && o.userId == userId && o.items == items && o.totalAmount == totalAmount
    ensures o.shippingAddress == shippingAddress
    ensures o.status == status.GetOr(Placed)
    ensures o.userReason == "" && o.adminReason == ""
    ensures o.statusHistory == [] && o.createdAt == now
  {
    Order(id, userId, items, totalAmount, shippingAddress, status.GetOr(Placed), "", "", [], now)
  }

  // ------------------------------------------------------- sums over lines

  /** The quantity of product `p` that the cart lines ask for. */
  function Demand(cart: seq<CartItem>, p: Id): int
    decreases |cart|
  {
    if cart == [] then 0
    else (if cart[0].productId == p then cart[0].quantity else 0) + Demand(cart[1..], p)
  }

  /** The quantity of product `p` in the order lines. */
  function ItemDemand(items: seq<OrderItem>, p: Id): int
    decreases |items|
  {
    if items == [] then 0
    else (if items[0].productId == p then items[0].quantity else 0) + ItemDemand(items[1..], p)
  }

  /** The sum of price times quantity over the order lines. */
  function ItemsTotal(items: seq<OrderItem>): int
    decreases |items|
  {
    if items == [] then 0 else items[0].price * items[0].quantity + ItemsTotal(items[1..])
  }

  /** An order's amount is the sum of its lines. */
  predicate TotalMatches(o: Order) {
    o.totalAmount == ItemsTotal(o.items)
  }

  lemma {:induction false} DemandAppend(a: seq<CartItem>, b: seq<CartItem>, p: Id)
    ensures Demand(a + b, p) == Demand(a, p) + Demand(b, p)
    decreases |a|
  {
    if a != [] {
      assert (a + b)[1..] == a[1..] + b;
      DemandAppend(a[1..], b, p);
    } else {
      assert a + b == b;
    }
  }

  lemma {:induction false} ItemDemandAppend(a: seq<OrderItem>, b: seq<OrderItem>, p: Id)
    ensures ItemDemand(a + b, p) == ItemDemand(a, p) + ItemDemand(b, p)
    decreases |a|
  {
    if a != [] {
      assert (a + b)[1..] == a[1..] + b;
      ItemDemandAppend(a[1..], b, p);
    } else {
      assert a + b == b;
    }
  }

  lemma {:induction false} ItemsTotalAppend(a: seq<OrderItem>, b: seq<OrderItem>)
    ensures ItemsTotal(a + b) == ItemsTotal(a) + ItemsTotal(b)
    decreases |a|
  {
    if a != [] {
      assert (a + b)[1..] == a[1..] + b;
      ItemsTotalAppend(a[1..], b);
    } else {
      assert a + b == b;
    }
  }
}
