/** The cart handlers of routes/cart.js (middleware/cart.js holds the same
    four handlers, line for line): read the cart, add or increment a line,
    set a line's quantity, and remove every line for a product. The cart is
    the user's sequence of lines; the handlers change it in place and save. */
module CartRoutes {
  import opened Wrappers
  import opened Models
  import opened Database

  /** A handler's failure: a token whose user no longer exists makes
      `user.cart` throw, so no response is sent and nothing is saved; an
      update for a product with no line answers 404 "Item not found"; an
      update whose quantity is missing, null or not a number fails the
      required check or the Number cast of models/User.js:5 when the user is
      saved, and the handler, which has no catch, sends no response and
      saves nothing. */
  datatype CartError = NoSuchUser | ItemNotFound | SaveRejected

  /** `cart.findIndex(i => i.productId.toString() === productId)`. */
  function FindLine(cart: seq<CartItem>, productId: Id): (i: int)
    ensures -1 <= i < |cart|
    ensures 0 <= i ==> cart[i].productId == productId && forall j :: 0 <= j < i ==> cart[j].productId != productId
    ensures i == -1 <==> forall j :: 0 <= j < |cart| ==> cart[j].productId != productId
    decreases |cart|
  {
    if cart == [] then -1
    else if cart[0].productId == productId then 0
    else
      var k := FindLine(cart[1..], productId);
      if k < 0 then -1 else k + 1
  }

  /** At most one line per product. */
  predicate UniqueLines(cart: seq<CartItem>) {
    forall i, j :: 0 <= i < j < |cart| ==> cart[i].productId != cart[j].productId
  }

  /** `POST /cart` on a cart value: the first line for the product gains the
      quantity; without one, a new line is appended. */
  function AddLine(cart: seq<CartItem>, productId: Id, quantity: int): seq<CartItem> {
    var i := FindLine(cart, productId);
    if i < 0 then cart + [CartItem(productId, quantity)]
    else cart[i := cart[i].(quantity := cart[i].quantity + quantity)]
  }

  /** `PUT /cart/:productId` on a cart value: the first line for the product
      takes the new quantity, whatever it is. */
  function SetLine(cart: seq<CartItem>, productId: Id, quantity: int): Result<seq<CartItem>, CartError> {
    var i := FindLine(cart, productId);
    if i < 0 then Err(ItemNotFound)
    else Ok(cart[i := cart[i].(quantity := quantity)])
  }

  /** The whole of `PUT /cart/:productId` on a cart value. `quantity` is the
      body's quantity as a number, `None` when it is missing, null or not a
      number. The line is looked up first, so a missing line answers 404
      whatever the quantity; a line with an unusable quantity fails on save. */
  function PutLine(cart: seq<CartItem>, productId: Id, quantity: Option<int>): (r: Result<seq<CartItem>, CartError>)
    ensures r == Err(ItemNotFound) <==> FindLine(cart, productId) < 0
    ensures r == Err(SaveRejected) <==> FindLine(cart, productId) >= 0 && quantity.None?
    ensures r.Ok? <==> FindLine(cart, productId) >= 0 && quantity.Some?
    ensures quantity.Some? ==> r == SetLine(cart, productId, quantity.value)
  {
    if FindLine(cart, productId) < 0 then Err(ItemNotFound)
    else if quantity.None? then Err(SaveRejected)
    else SetLine(cart, productId, quantity.value)
  }

  /** `DELETE /cart/:productId` on a cart value: the lines for other products. */
  function RemoveLines(cart: seq<CartItem>, productId: Id): (r: seq<CartItem>)
    ensures |r| <= |cart|
    decreases |cart|
  {
    if cart == [] then []
    else if cart[0].productId == productId then RemoveLines(cart[1..], productId)
    else [cart[0]] + RemoveLines(cart[1..], productId)
  }

  /** A cart line with its product filled in, or `None` when the product no
      longer exists (`populate` yields null). */
  datatype CartLine = CartLine(item: CartItem, product: Option<Product>)

  function Populate(cart: seq<CartItem>, products: map<Id, Product>): (r: seq<CartLine>)
    ensures |r| == |cart|
    ensures forall k :: 0 <= k < |r| ==> r[k].item == cart[k]
    ensures forall k :: 0 <= k < |r| ==> (r[k].product.Some? <==> cart[k].productId in products)
    ensures forall k :: 0 <= k < |r| ==> r[k].product.Some? ==> r[k].product.value == products[cart[k].productId]
  {
    seq(|cart|, k requires 0 <= k < |cart| =>
      CartLine(cart[k], if cart[k].productId in products then Some(products[cart[k].productId]) else None))
  }

  /** `GET /cart`: the user's lines, populated. The cart field defaults to [],
      so `user.cart || []` is the cart itself. */
  method GetCart(db: Db, uid: Id) returns (r: Result<seq<CartLine>, CartError>)
    ensures r.Err? <==> uid !in db.users
    ensures r.Err? ==> r.error == NoSuchUser
    ensures r.Ok? ==> |r.value| == |db.users[uid].cart|
    ensures r.Ok? ==> forall k :: 0 <= k < |r.value| ==> r.value[k].item == db.users[uid].cart[k]
    ensures r.Ok? ==> forall k :: 0 <= k < |r.value| ==>
              r.value[k].product == (if db.users[uid].cart[k].productId in db.products
                                     then Some(db.products[db.users[uid].cart[k].productId]) else None)
  {
    if uid !in db.users {
      return Err(NoSuchUser);
    }
    r := Ok(Populate(db.users[uid].cart, db.products));
  }

  /** `POST /cart`: the quantity defaults to 1. */
  method AddToCart(db: Db, uid: Id, productId: Id, quantity: Option<int>) returns (r: Result<seq<CartItem>, CartError>)
    modifies db
    ensures uid !in old(db.users) ==> r == Err(NoSuchUser) && unchanged(db)
    ensures uid in old(db.users) ==>
              r == Ok(AddLine(old(db.users[uid].cart), productId, quantity.GetOr(1))) &&
              db.users == old(db.users)[uid := old(db.users[uid]).(cart := r.value)] &&
              db.products == old(db.products) && db.orders == old(db.orders)
  {
    if uid !in db.users {
      return Err(NoSuchUser);
    }
    var cart := db.users[uid].cart;
    var i := FindLine(cart, productId);
    if i >= 0 {
      cart := cart[i := cart[i].(quantity := cart[i].quantity + quantity.GetOr(1))];
    } else {
      cart := cart + [NewCartItem(productId, quantity)];
    }
    db.users := db.users[uid := db.users[uid].(cart := cart)];
    return Ok(cart);
  }

  /** `PUT /cart/:productId`; see `PutLine` for `quantity`. */
  method UpdateQuantity(db: Db, uid: Id, productId: Id, quantity: Option<int>) returns (r: Result<seq<CartItem>, CartError>)
    modifies db
    ensures uid !in old(db.users) ==> r == Err(NoSuchUser) && unchanged(db)
    ensures uid in old(db.users) ==> r == PutLine(old(db.users[uid].cart), productId, quantity)
    ensures uid in old(db.users) && r.Err? ==> unchanged(db)
    ensures uid in old(db.users) && r.Ok? ==>
              db.users == old(db.users)[uid := old(db.users[uid]).(cart := r.value)] &&
              db.products == old(db.products) && db.orders == old(db.orders)
  {
    if uid !in db.users {
      return Err(NoSuchUser);
    }
    var cart := db.users[uid].cart;
    var i := FindLine(cart, productId);
    if i == -1 {
      return Err(ItemNotFound);
    }
    if quantity.None? {
      return Err(SaveRejected);
    }
    cart := cart[i := cart[i].(quantity := quantity.value)];
    db.users := db.users[uid := db.users[uid].(cart := cart)];
    return Ok(cart);
  }

  /** `DELETE /cart/:productId`: always answers `{ success: true }`. */
  method RemoveFromCart(db: Db, uid: Id, productId: Id) returns (r: Result<bool, CartError>)
    modifies db
    ensures uid !in old(db.users) ==> r == Err(NoSuchUser) && unchanged(db)
    ensures uid in old(db.users) ==>
              r == Ok(true) &&
              db.users == old(db.users)[uid := old(db.users[uid]).(cart := RemoveLines(old(db.users[uid].cart), productId))] &&
              db.products == old(db.products) && db.orders == old(db.orders)
  {
    if uid !in db.users {
      return Err(NoSuchUser);
    }
    var cart := RemoveLines(db.users[uid].cart, productId);
    db.users := db.users[uid := db.users[uid].(cart := cart)];
    return Ok(true);
  }

  // --------------------------------------------------- what the cart keeps

  /** The contribution of one line to a product's demand. */
  function LineDemand(line: CartItem, p: Id): int {
    if line.productId == p then line.quantity else 0
  }

  /** Replacing one line changes a product's demand by the difference. */
  lemma {:induction false} DemandUpdate(cart: seq<CartItem>, i: nat, line: CartItem, p: Id)
    requires i < |cart|
    ensures Demand(cart[i := line], p) == Demand(cart, p) - LineDemand(cart[i], p) + LineDemand(line, p)
    decreases i
  {
    if i > 0 {
      assert cart[i := line][1..] == cart[1..][i - 1 := line];
      DemandUpdate(cart[1..], i - 1, line, p);
    } else {
      assert cart[i := line][1..] == cart[1..];
    }
  }

  lemma DemandOfOne(line: CartItem, p: Id)
    ensures Demand([line], p) == LineDemand(line, p)
  {
    assert [line][1..] == [];
  }

  /** Adding asks for exactly `quantity` more of that product and nothing
      more of any other, whether it increments a line or appends one. */
  lemma AddLineDemand(cart: seq<CartItem>, productId: Id, quantity: int, p: Id)
    ensures Demand(AddLine(cart, productId, quantity), p) == Demand(cart, p) + (if p == productId then quantity else 0)
  {
    var i := FindLine(cart, productId);
    if i < 0 {
      DemandAppend(cart, [CartItem(productId, quantity)], p);
      DemandOfOne(CartItem(productId, quantity), p);
    } else {
      DemandUpdate(cart, i, cart[i].(quantity := cart[i].quantity + quantity), p);
    }
  }

  /** Adding a product that has a line increments that line and changes no
      other; adding one that has none appends exactly one line. */
  lemma AddLineShape(cart: seq<CartItem>, productId: Id, quantity: int)
    ensures var r := AddLine(cart, productId, quantity);
            var i := FindLine(cart, productId);
            (i >= 0 ==> |r| == |cart| && r[i] == CartItem(productId, cart[i].quantity + quantity) &&
                        forall k :: 0 <= k < |cart| && k != i ==> r[k] == cart[k]) &&
            (i < 0 ==> r == cart + [CartItem(productId, quantity)] && forall k :: 0 <= k < |cart| ==> cart[k].productId != productId)
  {
  }

  /** Adding never creates a second line for a product. */
  lemma AddLineKeepsLinesUnique(cart: seq<CartItem>, productId: Id, quantity: int)
    requires UniqueLines(cart)
    ensures UniqueLines(AddLine(cart, productId, quantity))
  {
    var r := AddLine(cart, productId, quantity);
    if FindLine(cart, productId) < 0 {
      forall i, j | 0 <= i < j < |r|
        ensures r[i].productId != r[j].productId
      {
        if j == |cart| {
          assert r[i] == cart[i];
        }
      }
    }
  }

  /** An update for a product without a line is a 404 and changes nothing;
      otherwise only that line's quantity changes, to any value at all. */
  lemma SetLineEffects(cart: seq<CartItem>, productId: Id, quantity: int)
    ensures var r := SetLine(cart, productId, quantity);
            (r.Err? <==> forall k :: 0 <= k < |cart| ==> cart[k].productId != productId) &&
            (r.Err? ==> r.error == ItemNotFound)
    ensures var r := SetLine(cart, productId, quantity);
            var i := FindLine(cart, productId);
            r.Ok? ==> |r.value| == |cart| && r.value[i] == CartItem(productId, quantity) &&
                      forall k :: 0 <= k < |cart| && k != i ==> r.value[k] == cart[k]
  {
  }

  /** With one line per product, the update makes the product's demand the
      new quantity and leaves every other product's demand alone. */
  lemma SetLineDemand(cart: seq<CartItem>, productId: Id, quantity: int, p: Id)
    requires UniqueLines(cart)
    requires SetLine(cart, productId, quantity).Ok?
    ensures Demand(SetLine(cart, productId, quantity).value, p)
            == if p == productId then quantity else Demand(cart, p)
  {
    var i := FindLine(cart, productId);
    DemandUpdate(cart, i, cart[i].(quantity := quantity), p);
    if p == productId {
      DemandOfLineAt(cart, i);
    }
  }

  /** With one line per product, that line's quantity is the product's demand. */
  lemma {:induction false} DemandOfLineAt(cart: seq<CartItem>, i: nat)
    requires UniqueLines(cart) && i < |cart|
    ensures Demand(cart, cart[i].productId) == cart[i].quantity
    decreases |cart|
  {
    var p := cart[i].productId;
    if i == 0 {
      DemandOfAbsent(cart[1..], p);
    } else {
      assert cart[1..][i - 1] == cart[i];
      DemandOfLineAt(cart[1..], i - 1);
    }
  }

  /** A product with no line is not asked for. */
  lemma {:induction false} DemandOfAbsent(cart: seq<CartItem>, p: Id)
    requires forall k :: 0 <= k < |cart| ==> cart[k].productId != p
    ensures Demand(cart, p) == 0
    decreases |cart|
  {
    if cart != [] {
      DemandOfAbsent(cart[1..], p);
    }
  }

  /** Removing keeps exactly the lines for other products, in their order. */
  lemma {:induction false} RemoveLinesKeepsOthers(cart: seq<CartItem>, productId: Id)
    ensures forall k :: 0 <= k < |RemoveLines(cart, productId)| ==> RemoveLines(cart, productId)[k].productId != productId
    ensures forall x :: x in RemoveLines(cart, productId) <==> x in cart && x.productId != productId
    decreases |cart|
  {
    if cart != [] {
      RemoveLinesKeepsOthers(cart[1..], productId);
    }
  }

  /** The lines that stay keep their relative order: removing is the same as
      removing from each part of the cart. */
  lemma {:induction false} RemoveLinesAppend(a: seq<CartItem>, b: seq<CartItem>, productId: Id)
    ensures RemoveLines(a + b, productId) == RemoveLines(a, productId) + RemoveLines(b, productId)
    decreases |a|
  {
    if a == [] {
      assert a + b == b;
    } else {
      assert (a + b)[1..] == a[1..] + b;
      RemoveLinesAppend(a[1..], b, productId);
    }
  }

  /** Removing a product with no line leaves the cart as it was. */
  lemma {:induction false} RemoveLinesAbsent(cart: seq<CartItem>, productId: Id)
    requires forall k :: 0 <= k < |cart| ==> cart[k].productId != productId
    ensures RemoveLines(cart, productId) == cart
    decreases |cart|
  {
    if cart != [] {
      RemoveLinesAbsent(cart[1..], productId);
      assert [cart[0]] + cart[1..] == cart;
    }
  }

  /** After removing, nothing is asked for that product and every other
      product is asked for as before. */
  lemma {:induction false} RemoveLinesDemand(cart: seq<CartItem>, productId: Id, p: Id)
    ensures Demand(RemoveLines(cart, productId), p) == if p == productId then 0 else Demand(cart, p)
    decreases |cart|
  {
    if cart != [] {
      RemoveLinesDemand(cart[1..], productId, p);
      if cart[0].productId != productId {
        var rest := RemoveLines(cart[1..], productId);
        assert ([cart[0]] + rest)[1..] == rest;
      }
    }
  }
}
