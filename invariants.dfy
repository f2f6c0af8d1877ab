/** The stock invariant across the mounted routes. The cart routes store any
    quantity they are sent (routes/cart.js:12, routes/cart.js:29), placement
    only compares stock with the line quantity (routes/orders.js:43-45), and
    cancellation adds the item quantities back (routes/orders.js:123-134). A
    negative quantity therefore raises stock when ordered and lowers it when
    cancelled, and a sequence of requests can drive stock below zero. With cart
    quantities required to be positive, stock stays non-negative in every
    state the order and cart routes reach. */
module Invariants {
  import opened Wrappers
  import opened Models
  import opened Database
  import opened CartRoutes
  import opened OrderRoutes
  import AdminRoutes

  /** One request to the cart, order or admin order routes. */
  datatype Request =
    | AddItem(uid: Id, productId: Id, added: Option<int>)
    | SetItem(uid: Id, productId: Id, quantity: Option<int>)
    | RemoveItem(uid: Id, productId: Id)
    | PlaceFor(uid: Id, address: Address, orderId: Id, now: int)
    | CancelBy(orderId: Id, actor: Actor, reason: Option<string>, now: int)
    | AdminSet(orderId: Id, status: Option<string>, adminReason: Option<string>, admin: Id, now: int)

  function WithCart(s: Store, uid: Id, cart: seq<CartItem>): Store
    requires uid in s.users
  {
    s.(users := s.users[uid := s.users[uid].(cart := cart)])
  }

  /** The store after one request, as the routes handle it. */
  function Step(s: Store, r: Request): Store {
    match r
    case AddItem(uid, pid, q) =>
      if uid !in s.users then s else WithCart(s, uid, AddLine(s.users[uid].cart, pid, q.GetOr(1)))
    case SetItem(uid, pid, q) =>
      if uid !in s.users then s
      else (match PutLine(s.users[uid].cart, pid, q)
            case Err(_) => s
            case Ok(cart) => WithCart(s, uid, cart))
    case RemoveItem(uid, pid) =>
      if uid !in s.users then s else WithCart(s, uid, RemoveLines(s.users[uid].cart, pid))
    case PlaceFor(uid, address, orderId, now) => Place(s, Some(uid), address, orderId, now).1
    case CancelBy(orderId, actor, reason, now) => Cancel(s, orderId, actor, reason, now).1
    case AdminSet(orderId, status, adminReason, actor, now) =>
      AdminRoutes.AdminUpdate(s, orderId, status, adminReason, actor, now).1
  }

  function Run(s: Store, rs: seq<Request>): Store
    decreases |rs|
  {
    if rs == [] then s else Run(Step(s, rs[0]), rs[1..])
  }

  /** The quantity a cart request would store, if it stores one. */
  function RequestedQuantity(r: Request): Option<int> {
    match r
    case AddItem(_, _, q) => Some(q.GetOr(1))
    case SetItem(_, _, q) => q
    case _ => None
  }

  /** The cart routes with the check they lack: a quantity below 1 is refused
      and nothing changes. */
  function CheckedStep(s: Store, r: Request): (t: Store)
    ensures RequestedQuantity(r).Some? && RequestedQuantity(r).value <= 0 ==> t == s
    ensures RequestedQuantity(r).None? || RequestedQuantity(r).value > 0 ==> t == Step(s, r)
  {
    var q := RequestedQuantity(r);
    if q.Some? && q.value <= 0 then s else Step(s, r)
  }

  function CheckedRun(s: Store, rs: seq<Request>): Store
    decreases |rs|
  {
    if rs == [] then s else CheckedRun(CheckedStep(s, rs[0]), rs[1..])
  }

  predicate PositiveLines(cart: seq<CartItem>) {
    forall x :: x in cart ==> x.quantity > 0
  }

  predicate PositiveItems(items: seq<OrderItem>) {
    forall x :: x in items ==> x.quantity > 0
  }

  /** No stock is negative, and every cart line and order line holds a
      positive quantity. */
  predicate Sound(s: Store) {
    && (forall p :: p in s.products ==> s.products[p].stock >= 0)
    && (forall u :: u in s.users ==> PositiveLines(s.users[u].cart))
    && (forall o :: o in s.orders ==> PositiveItems(o.items))
  }

  lemma {:induction false} ItemDemandNonNegative(items: seq<OrderItem>, p: Id)
    requires PositiveItems(items)
    ensures ItemDemand(items, p) >= 0
    decreases |items|
  {
    if items != [] {
      assert PositiveItems(items[1..]) by {
        forall x | x in items[1..] ensures x.quantity > 0 {
          assert x in items;
        }
      }
      ItemDemandNonNegative(items[1..], p);
    }
  }

  lemma AddLineKeepsPositive(cart: seq<CartItem>, productId: Id, quantity: int)
    requires PositiveLines(cart) && quantity > 0
    ensures PositiveLines(AddLine(cart, productId, quantity))
  {
    var i := FindLine(cart, productId);
    if i >= 0 {
      var c := AddLine(cart, productId, quantity);
      forall x | x in c ensures x.quantity > 0 {
        var k :| 0 <= k < |c| && c[k] == x;
        if k != i {
          assert c[k] == cart[k];
        }
      }
    }
  }

  lemma SetLineKeepsPositive(cart: seq<CartItem>, productId: Id, quantity: int)
    requires PositiveLines(cart) && quantity > 0
    requires SetLine(cart, productId, quantity).Ok?
    ensures PositiveLines(SetLine(cart, productId, quantity).value)
  {
    var i := FindLine(cart, productId);
    var c := SetLine(cart, productId, quantity).value;
    forall x | x in c ensures x.quantity > 0 {
      var k :| 0 <= k < |c| && c[k] == x;
      if k != i {
        assert c[k] == cart[k];
      }
    }
  }

  lemma PlaceKeepsSound(s: Store, uid: Id, address: Address, orderId: Id, now: int)
    requires Sound(s)
    ensures Sound(Place(s, Some(uid), address, orderId, now).1)
  {
    PlaceKeepsStockNonNegative(s, Some(uid), address, orderId, now);
    if uid in s.users && s.users[uid].cart != [] && Reserve(s.products, s.users[uid].cart).Ok? {
      var cart := s.users[uid].cart;
      var res := Reserve(s.products, cart).value;
      ReserveItems(s.products, cart);
      var t := Place(s, Some(uid), address, orderId, now).1;
      var o := t.orders[|s.orders|];
      assert t.orders == s.orders + [o] && o.items == res.items;
      assert PositiveItems(o.items) by {
        forall x | x in o.items ensures x.quantity > 0 {
          var k :| 0 <= k < |res.items| && res.items[k] == x;
          assert cart[k] in cart;
        }
      }
      forall v | v in t.users ensures PositiveLines(t.users[v].cart) {
        if v != uid {
          assert t.users[v] == s.users[v];
        }
      }
    }
  }

  lemma CancelKeepsSound(s: Store, orderId: Id, actor: Actor, reason: Option<string>, now: int)
    requires Sound(s)
    ensures Sound(Cancel(s, orderId, actor, reason, now).1)
  {
    var i := FindOrder(s.orders, orderId);
    var (r, t) := Cancel(s, orderId, actor, reason, now);
    if r.Ok? {
      var o := s.orders[i];
      assert o in s.orders;
      RestoreStock(s.products, o.items);
      forall p | p in t.products ensures t.products[p].stock >= 0 {
        ItemDemandNonNegative(o.items, p);
      }
      forall x | x in t.orders ensures PositiveItems(x.items) {
        var k :| 0 <= k < |t.orders| && t.orders[k] == x;
        assert t.orders[k].items == s.orders[k].items;
        assert s.orders[k] in s.orders;
      }
    }
  }

  lemma AdminSetKeepsSound(s: Store, orderId: Id, status: Option<string>, adminReason: Option<string>, actor: Id, now: int)
    requires Sound(s)
    ensures Sound(AdminRoutes.AdminUpdate(s, orderId, status, adminReason, actor, now).1)
  {
    var (r, t) := AdminRoutes.AdminUpdate(s, orderId, status, adminReason, actor, now);
    if r.Ok? {
      forall x | x in t.orders ensures PositiveItems(x.items) {
        var k :| 0 <= k < |t.orders| && t.orders[k] == x;
        assert t.orders[k].items == s.orders[k].items;
        assert s.orders[k] in s.orders;
      }
    }
  }

  /** A cart of positive lines in place of a user's cart keeps the store sound. */
  lemma WithCartKeepsSound(s: Store, uid: Id, cart: seq<CartItem>)
    requires Sound(s) && uid in s.users && PositiveLines(cart)
    ensures Sound(WithCart(s, uid, cart))
  {
    var t := WithCart(s, uid, cart);
    assert forall v :: v in t.users && v != uid ==> t.users[v] == s.users[v];
  }

  /** Every request with the quantity check keeps the store sound. */
  lemma CheckedStepKeepsSound(s: Store, r: Request)
    requires Sound(s)
    ensures Sound(CheckedStep(s, r))
  {
    var t := CheckedStep(s, r);
    match r
    case AddItem(uid, pid, q) =>
      if uid in s.users && q.GetOr(1) > 0 {
        AddLineKeepsPositive(s.users[uid].cart, pid, q.GetOr(1));
        WithCartKeepsSound(s, uid, AddLine(s.users[uid].cart, pid, q.GetOr(1)));
      }
    case SetItem(uid, pid, q) =>
      if uid in s.users && q.Some? && q.value > 0 && PutLine(s.users[uid].cart, pid, q).Ok? {
        SetLineKeepsPositive(s.users[uid].cart, pid, q.value);
        WithCartKeepsSound(s, uid, SetLine(s.users[uid].cart, pid, q.value).value);
      }
    case RemoveItem(uid, pid) =>
      if uid in s.users {
        RemoveLinesKeepsOthers(s.users[uid].cart, pid);
        WithCartKeepsSound(s, uid, RemoveLines(s.users[uid].cart, pid));
      }
    case PlaceFor(uid, address, orderId, now) => PlaceKeepsSound(s, uid, address, orderId, now);
    case CancelBy(orderId, actor, reason, now) => CancelKeepsSound(s, orderId, actor, reason, now);
    case AdminSet(orderId, status, adminReason, actor, now) =>
      AdminSetKeepsSound(s, orderId, status, adminReason, actor, now);
  }

  /** With positive cart quantities no sequence of requests makes stock negative. */
  lemma {:induction false} CheckedRunKeepsSound(s: Store, rs: seq<Request>)
    requires Sound(s)
    ensures Sound(CheckedRun(s, rs))
    ensures forall p :: p in CheckedRun(s, rs).products ==> CheckedRun(s, rs).products[p].stock >= 0
    decreases |rs|
  {
    if rs != [] {
      CheckedStepKeepsSound(s, rs[0]);
      CheckedRunKeepsSound(CheckedStep(s, rs[0]), rs[1..]);
    }
  }

  // ---------------------------------------------- the routes as written

  const Flour := Product("Flour", "", 50, 0, "gm", 500, "", "General", [])

  function Shopper(email: string): User {
    User(email, "h", "", "", false, NoSavedAddress, [], None, None, 0)
  }

  const Home := Address("A", "1", "", "Road", "Surat", "395001")

  /** Both shoppers start with empty carts and the product is sold out. */
  const Start := Store(map["p" := Flour], map["a" := Shopper("a@x"), "b" := Shopper("b@x")], [])

  /** Shopper a puts -5 in the cart and orders it, which raises stock to 5;
      shopper b buys those 5; a cancels, and the restore takes 5 back out. */
  const Scenario := [
    AddItem("a", "p", Some(-5)),
    PlaceFor("a", Home, "o1", 1),
    AddItem("b", "p", None),
    SetItem("b", "p", Some(5)),
    PlaceFor("b", Home, "o2", 2),
    CancelBy("o1", Actor("a", false), None, 3)
  ]

  /** Shopper a's order o1 of -5 units is placed, stock is 5 and b's cart is
      empty. */
  predicate AfterFirstOrder(s: Store) {
    && s.products == map["p" := Flour.(stock := 5)]
    && "b" in s.users && s.users["b"].cart == []
    && |s.orders| == 1 && s.orders[0].id == "o1" && s.orders[0].userId == "a"
    && s.orders[0].status == Placed && s.orders[0].items == [OrderItem("p", "Flour", 50, -5)]
  }

  /** Shopper b has bought the 5 units and o1 is still open. */
  predicate BeforeCancel(s: Store) {
    && s.products == map["p" := Flour.(stock := 0)]
    && |s.orders| >= 1 && s.orders[0].id == "o1" && s.orders[0].userId == "a"
    && s.orders[0].status == Placed && s.orders[0].items == [OrderItem("p", "Flour", 50, -5)]
  }

  /** The first two requests: the -5 line goes in the cart and is ordered. */
  lemma FirstOrderRaisesStock()
    ensures AfterFirstOrder(Step(Step(Start, Scenario[0]), Scenario[1]))
  {
    var s1 := Step(Start, Scenario[0]);
    var cartA := [CartItem("p", -5)];
    assert s1.users["a"].cart == cartA;
    assert cartA[1..] == [];
    assert s1.products == map["p" := Flour];
    assert map["p" := Flour]["p" := Flour.(stock := 5)] == map["p" := Flour.(stock := 5)];
    assert Reserve(map["p" := Flour.(stock := 5)], []) == Ok(Reservation(map["p" := Flour.(stock := 5)], [], 0));
    assert [OrderItem("p", "Flour", 50, -5)] + [] == [OrderItem("p", "Flour", 50, -5)];
    assert Reserve(s1.products, cartA)
        == Ok(Reservation(map["p" := Flour.(stock := 5)], [OrderItem("p", "Flour", 50, -5)], -250));
  }

  /** Shopper b's cart holds the 5 units and o1 is still the only order. */
  predicate CartFilled(s: Store) {
    && s.products == map["p" := Flour.(stock := 5)]
    && "b" in s.users && s.users["b"].cart == [CartItem("p", 5)]
    && |s.orders| == 1 && s.orders[0].id == "o1" && s.orders[0].userId == "a"
    && s.orders[0].status == Placed && s.orders[0].items == [OrderItem("p", "Flour", 50, -5)]
  }

  /** The next two requests: b adds one unit and sets the line to 5. */
  lemma SecondCartFilled(s: Store)
    requires AfterFirstOrder(s)
    ensures CartFilled(Step(Step(s, Scenario[2]), Scenario[3]))
  {
    var s3 := Step(s, Scenario[2]);
    assert s3.users["b"].cart == [CartItem("p", 1)];
  }

  /** The fifth request: b orders the 5 units. */
  lemma SecondOrderTakesStock(s: Store)
    requires CartFilled(s)
    ensures BeforeCancel(Step(s, Scenario[4]))
  {
    var cartB := [CartItem("p", 5)];
    assert cartB[1..] == [];
    assert map["p" := Flour.(stock := 5)]["p" := Flour.(stock := 0)] == map["p" := Flour.(stock := 0)];
    assert Reserve(map["p" := Flour.(stock := 0)], []) == Ok(Reservation(map["p" := Flour.(stock := 0)], [], 0));
    assert [OrderItem("p", "Flour", 50, 5)] + [] == [OrderItem("p", "Flour", 50, 5)];
    assert Reserve(s.products, cartB)
        == Ok(Reservation(map["p" := Flour.(stock := 0)], [OrderItem("p", "Flour", 50, 5)], 250));
  }

  /** The last request: a cancels o1 and the restore adds -5. */
  lemma CancelOverdrawsStock(s: Store)
    requires BeforeCancel(s)
    ensures "p" in Step(s, Scenario[5]).products && Step(s, Scenario[5]).products["p"].stock == -5
  {
    assert FindOrder(s.orders, "o1") == 0;
    var items := [OrderItem("p", "Flour", 50, -5)];
    assert items[1..] == [];
    assert s.products["p" := Flour.(stock := -5)] == map["p" := Flour.(stock := -5)];
    assert Restore(s.products, items) == map["p" := Flour.(stock := -5)];
  }

  /** Six requests, one after the other. */
  lemma RunOfSix(s: Store, rs: seq<Request>)
    requires |rs| == 6
    ensures Run(s, rs) == Step(Step(Step(Step(Step(Step(s, rs[0]), rs[1]), rs[2]), rs[3]), rs[4]), rs[5])
  {
    var s1 := Step(s, rs[0]);
    assert Run(s, rs) == Run(s1, rs[1..]);
    assert rs[1..][0] == rs[1] && rs[1..][1..] == rs[2..];
    var s2 := Step(s1, rs[1]);
    assert Run(s1, rs[1..]) == Run(s2, rs[2..]);
    assert rs[2..][0] == rs[2] && rs[2..][1..] == rs[3..];
    var s3 := Step(s2, rs[2]);
    assert Run(s2, rs[2..]) == Run(s3, rs[3..]);
    assert rs[3..][0] == rs[3] && rs[3..][1..] == rs[4..];
    var s4 := Step(s3, rs[3]);
    assert Run(s3, rs[3..]) == Run(s4, rs[4..]);
    assert rs[4..][0] == rs[4] && rs[4..][1..] == rs[5..];
    var s5 := Step(s4, rs[4]);
    assert Run(s4, rs[4..]) == Run(s5, rs[5..]);
    assert rs[5..][0] == rs[5] && rs[5..][1..] == [];
    assert Run(s5, rs[5..]) == Step(s5, rs[5]);
  }

  lemma StartIsSound()
    ensures Sound(Start)
  {
  }

  lemma NegativeQuantityDrivesStockNegative()
    ensures Sound(Start)
    ensures "p" in Run(Start, Scenario).products && Run(Start, Scenario).products["p"].stock == -5
  {
    StartIsSound();
    FirstOrderRaisesStock();
    var s2 := Step(Step(Start, Scenario[0]), Scenario[1]);
    SecondCartFilled(s2);
    var s4 := Step(Step(s2, Scenario[2]), Scenario[3]);
    SecondOrderTakesStock(s4);
    CancelOverdrawsStock(Step(s4, Scenario[4]));
    RunOfSix(Start, Scenario);
  }
}
