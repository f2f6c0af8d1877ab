/** The order engine of routes/orders.js: placing an order from the user's
    cart, listing a user's orders, and cancelling an order, each inside one
    database transaction. A transaction works on local copies and assigns
    them to the database only when it commits, so a request that fails
    leaves the database as it was. The older copy of placement and listing
    in middleware/orders.js is modelled at the end. */
module OrderRoutes {
  import opened Wrappers
  import opened Models
  import opened Database
  import Sorting

  // --------------------------------------------------------------- placing

  datatype PlaceError =
    | Unauthorized           // the token carries no user id
    | CartEmpty              // no such user, or an empty cart
    | NotEnoughStock(name: string)
    | ServerError            // a cart line whose product no longer exists

  function PlaceStatus(e: PlaceError): int {
    match e
    case Unauthorized => 401
    case CartEmpty => 400
    case NotEnoughStock(_) => 400
    case ServerError => 500
  }

  function PlaceMessage(e: PlaceError): string {
    match e
    case Unauthorized => "Unauthorized"
    case CartEmpty => "Cart empty"
    case NotEnoughStock(name) => "Not enough stock for " + name
    case ServerError => "Server error"
  }

  /** What the placement loop has built once it has gone through the cart:
      the catalog with the stock taken out, the item snapshots and the total. */
  datatype Reservation = Reservation(catalog: map<Id, Product>, items: seq<OrderItem>, total: int)

  /** The placement loop over `cart`, one line at a time. A line whose product
      is missing makes the populated `productId` null, and reading its `_id`
      throws, which the route turns into a server error. */
  function Reserve(catalog: map<Id, Product>, cart: seq<CartItem>): Result<Reservation, PlaceError>
    decreases |cart|
  {
    if cart == [] then Ok(Reservation(catalog, [], 0))
    else
      var line := cart[0];
      if line.productId !in catalog then Err(ServerError)
      else
        var p := catalog[line.productId];
        if p.stock < line.quantity then Err(NotEnoughStock(p.name))
        else
          match Reserve(catalog[line.productId := p.(stock := p.stock - line.quantity)], cart[1..])
          case Err(e) => Err(e)
          case Ok(rest) =>
            Ok(Reservation(rest.catalog,
                           [OrderItem(line.productId, p.name, p.price, line.quantity)] + rest.items,
                           p.price * line.quantity + rest.total))
  }

  /** A reservation of the rest of the cart, after the lines already done. */
  function Resume(items: seq<OrderItem>, total: int, r: Result<Reservation, PlaceError>): Result<Reservation, PlaceError> {
    match r
    case Err(e) => Err(e)
    case Ok(rest) => Ok(Reservation(rest.catalog, items + rest.items, total + rest.total))
  }

  /** `POST /orders`: the whole request, as a function of the store before it.
      `orderId` is the id the new order receives and `now` the clock. */
  function Place(s: Store, token: Option<Id>, address: Address, orderId: Id, now: int): (Result<Order, PlaceError>, Store) {
    if token.None? then (Err(Unauthorized), s)
    else
      var uid := token.value;
      if uid !in s.users || s.users[uid].cart == [] then (Err(CartEmpty), s)
      else
        match Reserve(s.products, s.users[uid].cart)
        case Err(e) => (Err(e), s)
        case Ok(res) =>
          var order := NewOrder(orderId, uid, res.items, res.total, address, Some(Placed), now);
          (Ok(order), Store(res.catalog, s.users[uid := s.users[uid].(cart := [])], s.orders + [order]))
  }

  lemma ResumeStep(items: seq<OrderItem>, total: int, catalog: map<Id, Product>, cart: seq<CartItem>)
    requires cart != [] && cart[0].productId in catalog
    requires catalog[cart[0].productId].stock >= cart[0].quantity
    ensures var line := cart[0];
            var p := catalog[line.productId];
            Resume(items, total, Reserve(catalog, cart))
            == Resume(items + [OrderItem(line.productId, p.name, p.price, line.quantity)],
                      total + p.price * line.quantity,
                      Reserve(catalog[line.productId := p.(stock := p.stock - line.quantity)], cart[1..]))
  {
    var line := cart[0];
    var p := catalog[line.productId];
    var item := OrderItem(line.productId, p.name, p.price, line.quantity);
    match Reserve(catalog[line.productId := p.(stock := p.stock - line.quantity)], cart[1..])
    case Err(e) =>
    case Ok(rest) =>
      assert items + ([item] + rest.items) == (items + [item]) + rest.items;
  }

  lemma ResumeNothing(r: Result<Reservation, PlaceError>)
    ensures Resume([], 0, r) == r
  {
    if r.Ok? {
      assert [] + r.value.items == r.value.items;
    }
  }

  /** The loop only fails with a missing or a short product. */
  lemma {:induction false} ReserveErrorKinds(catalog: map<Id, Product>, cart: seq<CartItem>)
    ensures Reserve(catalog, cart).Err? ==> Reserve(catalog, cart).error.ServerError? || Reserve(catalog, cart).error.NotEnoughStock?
    decreases |cart|
  {
    if cart != [] && cart[0].productId in catalog && catalog[cart[0].productId].stock >= cart[0].quantity {
      ReserveErrorKinds(TakeFirst(catalog, cart), cart[1..]);
    }
  }

  /** The placement handler: the loop of routes/orders.js:41-52 on a local
      copy of the catalog, then the order, the emptied cart and the commit. */
  method PlaceOrder(db: Db, token: Option<Id>, address: Address, orderId: Id, now: int)
    returns (r: Result<Order, PlaceError>)
    modifies db
    ensures (r, db.Contents()) == Place(old(db.Contents()), token, address, orderId, now)
  {
    if token.None? {
      return Err(Unauthorized);
    }
    var uid := token.value;
    if uid !in db.users || db.users[uid].cart == [] {
      return Err(CartEmpty);
    }
    var cart := db.users[uid].cart;
    var catalog := db.products;
    var items: seq<OrderItem> := [];
    var total := 0;
    var i := 0;
    assert cart[0..] == cart;
    ResumeNothing(Reserve(catalog, cart));
    while i < |cart|
      invariant 0 <= i <= |cart|
      invariant unchanged(db)
      invariant Reserve(db.products, cart) == Resume(items, total, Reserve(catalog, cart[i..]))
    {
      var line := cart[i];
      assert cart[i..][0] == line && cart[i..][1..] == cart[i + 1..];
      if line.productId !in catalog {
        return Err(ServerError);
      }
      var p := catalog[line.productId];
      if p.stock < line.quantity {
        return Err(NotEnoughStock(p.name));
      }
      ResumeStep(items, total, catalog, cart[i..]);
      catalog := catalog[line.productId := p.(stock := p.stock - line.quantity)];
      items := items + [OrderItem(line.productId, p.name, p.price, line.quantity)];
      total := total + p.price * line.quantity;
      i := i + 1;
    }
    assert items + [] == items;
    var order := NewOrder(orderId, uid, items, total, address, Some(Placed), now);
    db.products := catalog;
    db.users := db.users[uid := db.users[uid].(cart := [])];
    db.orders := db.orders + [order];
    return Ok(order);
  }

  // ---------------------------------------------- what placing guarantees

  /** The stock a product has when the loop reaches line `i`. */
  function StockAt(catalog: map<Id, Product>, cart: seq<CartItem>, i: nat, p: Id): int
    requires i <= |cart| && p in catalog
  {
    catalog[p].stock - Demand(cart[..i], p)
  }

  /** Line `i` passes the loop's check. */
  predicate LineFits(catalog: map<Id, Product>, cart: seq<CartItem>, i: nat)
    requires i < |cart|
  {
    cart[i].productId in catalog && StockAt(catalog, cart, i, cart[i].productId) >= cart[i].quantity
  }

  /** The catalog after taking the first line's quantity out of its product. */
  function TakeFirst(catalog: map<Id, Product>, cart: seq<CartItem>): map<Id, Product>
    requires cart != [] && cart[0].productId in catalog
  {
    var p := catalog[cart[0].productId];
    catalog[cart[0].productId := p.(stock := p.stock - cart[0].quantity)]
  }

  /** The stock a later line sees is the stock before the first line, less the
      first line's quantity when it is the same product. */
  lemma StockAtAfterFirst(catalog: map<Id, Product>, cart: seq<CartItem>, i: nat)
    requires 0 < i < |cart| && cart[0].productId in catalog && cart[i].productId in catalog
    ensures StockAt(TakeFirst(catalog, cart), cart[1..], i - 1, cart[i].productId)
            == StockAt(catalog, cart, i, cart[i].productId)
  {
    var q := cart[i].productId;
    assert cart[..i] == [cart[0]] + cart[1..][..i - 1];
    DemandAppend([cart[0]], cart[1..][..i - 1], q);
    assert Demand([cart[0]], q) == (if cart[0].productId == q then cart[0].quantity else 0) by {
      assert [cart[0]][1..] == [];
    }
  }

  /** Placement's loop succeeds exactly when every line fits the stock that
      is left for it after the earlier lines. */
  lemma {:induction false} ReserveOkIff(catalog: map<Id, Product>, cart: seq<CartItem>)
    ensures Reserve(catalog, cart).Ok? <==> forall i :: 0 <= i < |cart| ==> LineFits(catalog, cart, i)
    decreases |cart|
  {
    if cart != [] {
      assert cart[..0] == [];
      if LineFits(catalog, cart, 0) {
        var next := TakeFirst(catalog, cart);
        ReserveOkIff(next, cart[1..]);
        forall i | 0 < i < |cart|
          ensures LineFits(catalog, cart, i) <==> LineFits(next, cart[1..], i - 1)
        {
          if cart[i].productId in catalog {
            StockAtAfterFirst(catalog, cart, i);
          }
        }
        if forall i :: 0 <= i < |cart| ==> LineFits(catalog, cart, i) {
          forall j | 0 <= j < |cart[1..]|
            ensures LineFits(next, cart[1..], j)
          {
            assert LineFits(catalog, cart, j + 1);
          }
        } else {
          var i :| 0 <= i < |cart| && !LineFits(catalog, cart, i);
          assert !LineFits(next, cart[1..], i - 1);
        }
      }
    }
  }

  /** When the loop fails, the response is decided by the first line that does
      not fit: a missing product is a server error, a short one names it. */
  lemma {:induction false} ReserveFailsAtFirstShortLine(catalog: map<Id, Product>, cart: seq<CartItem>, i: nat)
    requires i < |cart|
    requires forall j :: 0 <= j < i ==> LineFits(catalog, cart, j)
    requires !LineFits(catalog, cart, i)
    ensures Reserve(catalog, cart)
            == if cart[i].productId !in catalog then Err(ServerError)
               else Err(NotEnoughStock(catalog[cart[i].productId].name))
    decreases i
  {
    assert cart[..0] == [];
    if i > 0 {
      assert LineFits(catalog, cart, 0);
      var next := TakeFirst(catalog, cart);
      forall j | 0 <= j < i - 1
        ensures LineFits(next, cart[1..], j)
      {
        assert LineFits(catalog, cart, j + 1);
        StockAtAfterFirst(catalog, cart, j + 1);
      }
      if cart[i].productId in catalog {
        StockAtAfterFirst(catalog, cart, i);
      }
      ReserveFailsAtFirstShortLine(next, cart[1..], i - 1);
      assert cart[1..][i - 1] == cart[i];
    }
  }

  /** Only stock changes: each product loses exactly what the cart asks of it. */
  lemma {:induction false} ReserveStock(catalog: map<Id, Product>, cart: seq<CartItem>)
    requires Reserve(catalog, cart).Ok?
    ensures var after := Reserve(catalog, cart).value.catalog;
            after.Keys == catalog.Keys &&
            forall p :: p in catalog ==> after[p] == catalog[p].(stock := catalog[p].stock - Demand(cart, p))
    decreases |cart|
  {
    if cart != [] {
      ReserveStock(TakeFirst(catalog, cart), cart[1..]);
    }
  }

  /** Each product the cart touches ends with stock ≥ 0, whatever it started
      with; a product the cart does not touch keeps its record. */
  lemma {:induction false} ReserveLeavesNoNegativeStock(catalog: map<Id, Product>, cart: seq<CartItem>)
    requires Reserve(catalog, cart).Ok?
    ensures var after := Reserve(catalog, cart).value.catalog;
            forall p :: p in catalog ==> p in after && (after[p].stock >= 0 || after[p] == catalog[p])
    ensures var after := Reserve(catalog, cart).value.catalog;
            forall k :: 0 <= k < |cart| ==> cart[k].productId in after && after[cart[k].productId].stock >= 0
    decreases |cart|
  {
    if cart != [] {
      var next := TakeFirst(catalog, cart);
      ReserveLeavesNoNegativeStock(next, cart[1..]);
      ReserveStock(next, cart[1..]);
      var after := Reserve(catalog, cart).value.catalog;
      forall k | 0 <= k < |cart|
        ensures cart[k].productId in after && after[cart[k].productId].stock >= 0
      {
        if k > 0 {
          assert cart[1..][k - 1] == cart[k];
        }
      }
    }
  }

  /** The items are snapshots of the cart lines, in cart order, with the
      product's name and price at the time of placement. */
  lemma {:induction false} ReserveItems(catalog: map<Id, Product>, cart: seq<CartItem>)
    requires Reserve(catalog, cart).Ok?
    ensures var items := Reserve(catalog, cart).value.items;
            |items| == |cart| &&
            forall k :: 0 <= k < |cart| ==>
              cart[k].productId in catalog &&
              items[k] == OrderItem(cart[k].productId, catalog[cart[k].productId].name,
                                    catalog[cart[k].productId].price, cart[k].quantity)
    decreases |cart|
  {
    if cart != [] {
      var next := TakeFirst(catalog, cart);
      ReserveItems(next, cart[1..]);
      var items := Reserve(catalog, cart).value.items;
      forall k | 0 < k < |cart|
        ensures cart[k].productId in catalog
        ensures items[k] == OrderItem(cart[k].productId, catalog[cart[k].productId].name,
                                      catalog[cart[k].productId].price, cart[k].quantity)
      {
        assert cart[1..][k - 1] == cart[k];
      }
    }
  }

  /** The total is the sum of the snapshots' price times quantity. */
  lemma {:induction false} ReserveTotal(catalog: map<Id, Product>, cart: seq<CartItem>)
    requires Reserve(catalog, cart).Ok?
    ensures Reserve(catalog, cart).value.total == ItemsTotal(Reserve(catalog, cart).value.items)
    decreases |cart|
  {
    if cart != [] {
      var next := TakeFirst(catalog, cart);
      ReserveTotal(next, cart[1..]);
      var items := Reserve(catalog, cart).value.items;
      assert items[1..] == Reserve(next, cart[1..]).value.items;
    }
  }

  /** The snapshots ask for each product what the cart asked for it. */
  lemma {:induction false} ReserveItemDemand(catalog: map<Id, Product>, cart: seq<CartItem>, p: Id)
    requires Reserve(catalog, cart).Ok?
    ensures ItemDemand(Reserve(catalog, cart).value.items, p) == Demand(cart, p)
    decreases |cart|
  {
    if cart != [] {
      var next := TakeFirst(catalog, cart);
      ReserveItemDemand(next, cart[1..], p);
      var items := Reserve(catalog, cart).value.items;
      assert items[1..] == Reserve(next, cart[1..]).value.items;
    }
  }

  /** Everything `POST /orders` promises, in one place: a failure changes
      nothing; a success appends exactly one `Placed` order with no history,
      whose items are the cart's snapshots and whose amount is their sum,
      takes each product's demand out of its stock and empties the cart. */
  lemma PlaceEffects(s: Store, token: Option<Id>, address: Address, orderId: Id, now: int)
    ensures var (r, t) := Place(s, token, address, orderId, now);
            (r.Err? ==> t == s) &&
            (r == Err(Unauthorized) <==> token.None?) &&
            (r == Err(CartEmpty) <==> token.Some? && (token.value !in s.users || s.users[token.value].cart == []))
    ensures var (r, t) := Place(s, token, address, orderId, now);
            r.Ok? ==>
              var uid := token.value;
              var cart := s.users[uid].cart;
              uid in s.users && cart != [] &&
              t.orders == s.orders + [r.value] &&
              r.value.id == orderId && r.value.userId == uid && r.value.status == Placed &&
              r.value.statusHistory == [] && r.value.createdAt == now &&
              r.value.userReason == "" && r.value.adminReason == "" &&
              TotalMatches(r.value) &&
              |r.value.items| == |cart| &&
              (forall k :: 0 <= k < |cart| ==>
                cart[k].productId in s.products &&
                r.value.items[k] == OrderItem(cart[k].productId, s.products[cart[k].productId].name,
                                              s.products[cart[k].productId].price, cart[k].quantity)) &&
              t.products.Keys == s.products.Keys &&
              (forall p :: p in s.products ==>
                t.products[p] == s.products[p].(stock := s.products[p].stock - Demand(cart, p))) &&
              t.users == s.users[uid := s.users[uid].(cart := [])]
  {
    if token.Some? && token.value in s.users && s.users[token.value].cart != [] {
      var cart := s.users[token.value].cart;
      ReserveErrorKinds(s.products, cart);
      if Reserve(s.products, cart).Ok? {
        ReserveStock(s.products, cart);
        ReserveItems(s.products, cart);
        ReserveTotal(s.products, cart);
      }
    }
  }

  /** Placement succeeds exactly when every line fits; otherwise the first
      line that does not fit decides the error and nothing changes. */
  lemma PlaceSucceedsIff(s: Store, uid: Id, address: Address, orderId: Id, now: int)
    requires uid in s.users && s.users[uid].cart != []
    ensures var cart := s.users[uid].cart;
            Place(s, Some(uid), address, orderId, now).0.Ok?
            <==> forall i :: 0 <= i < |cart| ==> LineFits(s.products, cart, i)
  {
    ReserveOkIff(s.products, s.users[uid].cart);
  }

  /** A placement that fails on a short line answers 400 naming the product of
      the first line that does not fit, and changes nothing. */
  lemma PlaceNotEnoughStock(s: Store, uid: Id, address: Address, orderId: Id, now: int, i: nat)
    requires uid in s.users
    requires var cart := s.users[uid].cart;
             i < |cart| && (forall j :: 0 <= j < i ==> LineFits(s.products, cart, j)) &&
             !LineFits(s.products, cart, i) && cart[i].productId in s.products
    ensures var cart := s.users[uid].cart;
            var (r, t) := Place(s, Some(uid), address, orderId, now);
            r == Err(NotEnoughStock(s.products[cart[i].productId].name)) && t == s &&
            PlaceStatus(r.error) == 400
  {
    ReserveFailsAtFirstShortLine(s.products, s.users[uid].cart, i);
  }

  /** Stock never goes below zero: when every product starts with stock ≥ 0,
      every product still has stock ≥ 0 after any placement. */
  lemma PlaceKeepsStockNonNegative(s: Store, token: Option<Id>, address: Address, orderId: Id, now: int)
    requires forall p :: p in s.products ==> s.products[p].stock >= 0
    ensures var t := Place(s, token, address, orderId, now).1;
            forall p :: p in t.products ==> t.products[p].stock >= 0
  {
    if token.Some? && token.value in s.users && s.users[token.value].cart != [] {
      var cart := s.users[token.value].cart;
      if Reserve(s.products, cart).Ok? {
        ReserveStock(s.products, cart);
        ReserveLeavesNoNegativeStock(s.products, cart);
      }
    }
  }

  /** With a fresh order id, placement keeps order ids distinct and does not
      touch any email. */
  lemma PlaceKeepsValid(s: Store, token: Option<Id>, address: Address, orderId: Id, now: int)
    requires Valid(s)
    requires forall k :: 0 <= k < |s.orders| ==> s.orders[k].id != orderId
    ensures Valid(Place(s, token, address, orderId, now).1)
  {
    var (r, t) := Place(s, token, address, orderId, now);
    if r.Ok? {
      PlaceEffects(s, token, address, orderId, now);
      var uid := token.value;
      forall a, b | a in t.users && b in t.users && t.users[a].email == t.users[b].email
        ensures a == b
      {
        assert t.users[a].email == s.users[a].email && t.users[b].email == s.users[b].email;
      }
    }
  }

  // --------------------------------------------------------------- listing

  /** The orders that belong to `uid`, in collection order. */
  function OrdersOf(orders: seq<Order>, uid: Id): (r: seq<Order>)
    ensures forall o :: o in r <==> o in orders && o.userId == uid
    ensures |r| <= |orders|
    decreases |orders|
  {
    if orders == [] then []
    else if orders[0].userId == uid then [orders[0]] + OrdersOf(orders[1..], uid)
    else OrdersOf(orders[1..], uid)
  }

  function CreatedAt(o: Order): int { o.createdAt }

  /** `GET /orders`: the user's orders, newest first. */
  function MyOrders(orders: seq<Order>, uid: Id): (r: seq<Order>)
    ensures Sorting.SortedDesc(r, CreatedAt)
    ensures multiset(r) == multiset(OrdersOf(orders, uid))
    ensures forall o :: o in r <==> o in orders && o.userId == uid
  {
    var r := Sorting.SortDesc(OrdersOf(orders, uid), CreatedAt);
    assert forall o :: o in r <==> o in multiset(r);
    r
  }

  // ------------------------------------------------------------ cancelling

  /** Who makes a request: the user id from the token and the admin flag. */
  datatype Actor = Actor(id: Id, isAdmin: bool)

  datatype CancelError = OrderNotFound | Forbidden | CannotCancel(status: string)

  function CancelStatus(e: CancelError): int {
    match e
    case OrderNotFound => 404
    case Forbidden => 403
    case CannotCancel(_) => 400
  }

  /** The statuses a cancellation refuses. */
  predicate Cancellable(status: string) {
    status != Shipped && status != Delivered && status != Cancelled
  }

  /** A JavaScript value that is a non-empty string is truthy. */
  predicate Given(reason: Option<string>) {
    reason.Some? && reason.value != ""
  }

  /** The catalog after the cancel loop: every line's quantity goes back to its
      product when that product still exists; a missing one is skipped. */
  function Restore(catalog: map<Id, Product>, items: seq<OrderItem>): map<Id, Product>
    decreases |items|
  {
    if items == [] then catalog
    else
      var it := items[0];
      var next := if it.productId in catalog
                  then catalog[it.productId := catalog[it.productId].(stock := catalog[it.productId].stock + it.quantity)]
                  else catalog;
      Restore(next, items[1..])
  }

  /** `PUT /orders/:id/cancel`, as a function of the store before it. */
  function Cancel(s: Store, orderId: Id, actor: Actor, reason: Option<string>, now: int): (Result<Order, CancelError>, Store) {
    var i := FindOrder(s.orders, orderId);
    if i < 0 then (Err(OrderNotFound), s)
    else
      var o := s.orders[i];
      if o.userId != actor.id && !actor.isAdmin then (Err(Forbidden), s)
      else if !Cancellable(o.status) then (Err(CannotCancel(o.status)), s)
      else
        var entry := HistoryEntry(Cancelled, if Given(reason) then reason.value else "Cancelled by user", actor.id, now);
        var c := o.(statusHistory := o.statusHistory + [entry], status := Cancelled,
                    userReason := if Given(reason) then reason.value else o.userReason);
        (Ok(c), s.(products := Restore(s.products, o.items), orders := s.orders[i := c]))
  }

  /** The cancel handler: the checks, the restore loop of
      routes/orders.js:123-134 on a local catalog, then the history entry,
      the status and the user's reason. */
  method CancelOrder(db: Db, orderId: Id, actor: Actor, reason: Option<string>, now: int)
    returns (r: Result<Order, CancelError>)
    modifies db
    ensures (r, db.Contents()) == Cancel(old(db.Contents()), orderId, actor, reason, now)
  {
    var i := FindOrder(db.orders, orderId);
    if i < 0 {
      return Err(OrderNotFound);
    }
    var order := db.orders[i];
    if order.userId != actor.id && !actor.isAdmin {
      return Err(Forbidden);
    }
    if !Cancellable(order.status) {
      return Err(CannotCancel(order.status));
    }
    var catalog := db.products;
    var k := 0;
    assert order.items[0..] == order.items;
    while k < |order.items|
      invariant 0 <= k <= |order.items|
      invariant Restore(catalog, order.items[k..]) == Restore(db.products, order.items)
    {
      var item := order.items[k];
      assert order.items[k..][0] == item && order.items[k..][1..] == order.items[k + 1..];
      if item.productId in catalog {
        var p := catalog[item.productId];
        catalog := catalog[item.productId := p.(stock := p.stock + item.quantity)];
      }
      k := k + 1;
    }
    var reasonText := if Given(reason) then reason.value else "Cancelled by user";
    order := order.(statusHistory := order.statusHistory + [HistoryEntry(Cancelled, reasonText, actor.id, now)]);
    order := order.(status := Cancelled);
    if Given(reason) {
      order := order.(userReason := reason.value);
    }
    db.products := catalog;
    db.orders := db.orders[i := order];
    return Ok(order);
  }

  // ---------------------------------------------- what cancelling guarantees

  /** The restore loop gives every existing product back what the items ask
      of it, and keeps the set of products. */
  lemma {:induction false} RestoreStock(catalog: map<Id, Product>, items: seq<OrderItem>)
    ensures var after := Restore(catalog, items);
            after.Keys == catalog.Keys &&
            forall p :: p in catalog ==> after[p] == catalog[p].(stock := catalog[p].stock + ItemDemand(items, p))
    decreases |items|
  {
    if items != [] {
      var it := items[0];
      var next := if it.productId in catalog
                  then catalog[it.productId := catalog[it.productId].(stock := catalog[it.productId].stock + it.quantity)]
                  else catalog;
      RestoreStock(next, items[1..]);
    }
  }

  /** Everything the cancel route promises: the three refusals change nothing;
      a success changes only the stock of existing products (each gains its
      quantity in the order) and that one order, which gains exactly one
      history entry, becomes `Cancelled`, and takes the reason as
      `userReason` only when one was given. */
  lemma CancelEffects(s: Store, orderId: Id, actor: Actor, reason: Option<string>, now: int)
    ensures var (r, t) := Cancel(s, orderId, actor, reason, now);
            var i := FindOrder(s.orders, orderId);
            (r.Err? ==> t == s) &&
            (r == Err(OrderNotFound) <==> forall k :: 0 <= k < |s.orders| ==> s.orders[k].id != orderId) &&
            (r == Err(Forbidden) <==> 0 <= i && s.orders[i].userId != actor.id && !actor.isAdmin) &&
            (r.Err? && r.error.CannotCancel? <==> 0 <= i && (s.orders[i].userId == actor.id || actor.isAdmin) && !Cancellable(s.orders[i].status))
    ensures var (r, t) := Cancel(s, orderId, actor, reason, now);
            var i := FindOrder(s.orders, orderId);
            r.Ok? ==>
              var o := s.orders[i];
              o.id == orderId && Cancellable(o.status) &&
              |t.orders| == |s.orders| && t.orders[i] == r.value &&
              (forall k :: 0 <= k < |s.orders| && k != i ==> t.orders[k] == s.orders[k]) &&
              r.value.status == Cancelled &&
              r.value.statusHistory == o.statusHistory +
                [HistoryEntry(Cancelled, if Given(reason) then reason.value else "Cancelled by user", actor.id, now)] &&
              r.value.userReason == (if Given(reason) then reason.value else o.userReason) &&
              r.value == o.(status := Cancelled, statusHistory := r.value.statusHistory, userReason := r.value.userReason) &&
              t.users == s.users &&
              t.products.Keys == s.products.Keys &&
              (forall p :: p in s.products ==>
                t.products[p] == s.products[p].(stock := s.products[p].stock + ItemDemand(o.items, p)))
  {
    var i := FindOrder(s.orders, orderId);
    if 0 <= i {
      RestoreStock(s.products, s.orders[i].items);
    }
  }

  /** Restoring what a reservation took gives back the catalog it started from. */
  lemma RestoreUndoesReserve(catalog: map<Id, Product>, cart: seq<CartItem>)
    requires Reserve(catalog, cart).Ok?
    ensures var res := Reserve(catalog, cart).value;
            Restore(res.catalog, res.items) == catalog
  {
    var res := Reserve(catalog, cart).value;
    ReserveStock(catalog, cart);
    RestoreStock(res.catalog, res.items);
    var u := Restore(res.catalog, res.items);
    forall p | p in catalog
      ensures u[p] == catalog[p]
    {
      ReserveItemDemand(catalog, cart, p);
    }
  }

  /** Placing an order and then cancelling it as its owner gives every product
      exactly the stock it had before the order. */
  lemma PlaceThenCancelRestoresStock(s: Store, uid: Id, address: Address, orderId: Id, now: int,
                                     reason: Option<string>, later: int)
    requires forall k :: 0 <= k < |s.orders| ==> s.orders[k].id != orderId
    requires Place(s, Some(uid), address, orderId, now).0.Ok?
    ensures var t := Place(s, Some(uid), address, orderId, now).1;
            var (r, u) := Cancel(t, orderId, Actor(uid, false), reason, later);
            r.Ok? && u.products == s.products
  {
    var cart := s.users[uid].cart;
    var res := Reserve(s.products, cart).value;
    var (o, t) := Place(s, Some(uid), address, orderId, now);
    assert t.orders == s.orders + [o.value] && o.value.id == orderId;
    assert t.orders[|s.orders|].id == orderId;
    assert FindOrder(t.orders, orderId) == |s.orders|;
    assert t.products == res.catalog && o.value.items == res.items;
    RestoreUndoesReserve(s.products, cart);
  }

  // ------------------------------------------- the older copy in middleware

  /** `POST /orders` of middleware/orders.js: the same placement, without the
      401 check; a token without an id finds no user and answers "Cart empty". */
  function LegacyPlace(s: Store, token: Option<Id>, address: Address, orderId: Id, now: int): (Result<Order, PlaceError>, Store) {
    if token.None? then (Err(CartEmpty), s) else Place(s, token, address, orderId, now)
  }

  method LegacyPlaceOrder(db: Db, token: Option<Id>, address: Address, orderId: Id, now: int)
    returns (r: Result<Order, PlaceError>)
    modifies db
    ensures (r, db.Contents()) == LegacyPlace(old(db.Contents()), token, address, orderId, now)
  {
    if token.None? {
      return Err(CartEmpty);
    }
    r := PlaceOrder(db, token, address, orderId, now);
  }

  /** The older copy never answers 401, and agrees with the mounted route on
      every request that carries a user id. */
  lemma LegacyAgreesWithPlace(s: Store, token: Option<Id>, address: Address, orderId: Id, now: int)
    ensures LegacyPlace(s, token, address, orderId, now).0 != Err(Unauthorized)
    ensures token.Some? ==> LegacyPlace(s, token, address, orderId, now) == Place(s, token, address, orderId, now)
  {
    PlaceEffects(s, token, address, orderId, now);
  }
}
