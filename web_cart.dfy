/** The cart page of web/pages/cart.js. A guest's cart lives in the browser's
    storage under `guestCart` and is edited there; a signed-in user's cart is
    edited through the cart API, whose requests the page records in `sent`. */
module WebCart {
  import opened Wrappers
  import opened Models
  import Text
  import CartRoutes

  /** What the page shows of a product; `price` is `None` when missing. */
  datatype ShownProduct = ShownProduct(id: Id, name: string, price: Option<int>, imageUrl: string)

  /** One cart entry as the page holds it: the product may be missing (a
      deleted product populates as null) and so may the quantity. */
  datatype Line = Line(productId: Id, product: Option<ShownProduct>, quantity: Option<int>)

  /** A cart API request, with the product id as the text of its path. */
  datatype CartCall = PutQuantity(productId: string, quantity: int) | DeleteLine(productId: string)

  /** `i.productId && i.productId.price || 0`. */
  function PriceOf(l: Line): int {
    if l.product.None? then 0 else l.product.value.price.GetOr(0)
  }

  /** `i.quantity || 1`: a missing or zero quantity counts, and shows, as 1. */
  function QuantityOf(l: Line): (q: int)
    ensures q != 0
    ensures l.quantity.Some? && l.quantity.value != 0 ==> q == l.quantity.value
  {
    if l.quantity.None? || l.quantity.value == 0 then 1 else l.quantity.value
  }

  function LineTotal(l: Line): int { PriceOf(l) * QuantityOf(l) }

  /** The order total of line 53: the sum of the line totals. */
  function Total(cart: seq<Line>): int
    decreases |cart|
  {
    if cart == [] then 0 else LineTotal(cart[0]) + Total(cart[1..])
  }

  lemma {:induction false} TotalAppend(a: seq<Line>, b: seq<Line>)
    ensures Total(a + b) == Total(a) + Total(b)
    decreases |a|
  {
    if a == [] {
      assert a + b == b;
    } else {
      assert (a + b)[1..] == a[1..] + b;
      TotalAppend(a[1..], b);
    }
  }

  /** Changing one line changes the total by the difference of its line totals. */
  lemma {:induction false} TotalUpdate(cart: seq<Line>, i: nat, l: Line)
    requires i < |cart|
    ensures Total(cart[i := l]) == Total(cart) - LineTotal(cart[i]) + LineTotal(l)
    decreases |cart|
  {
    if i > 0 {
      assert cart[i := l][1..] == cart[1..][i - 1 := l];
      TotalUpdate(cart[1..], i - 1, l);
    }
  }

  /** `guestCart.find(i => i.productId === productId)`, as an index or -1. */
  function FirstLine(cart: seq<Line>, productId: Id): (i: int)
    ensures -1 <= i < |cart|
    ensures 0 <= i ==> cart[i].productId == productId && forall j :: 0 <= j < i ==> cart[j].productId != productId
    ensures i == -1 <==> forall j :: 0 <= j < |cart| ==> cart[j].productId != productId
    decreases |cart|
  {
    if cart == [] then -1
    else if cart[0].productId == productId then 0
    else
      var k := FirstLine(cart[1..], productId);
      if k < 0 then -1 else k + 1
  }

  /** The guest update of lines 61-64: the first entry for the product takes
      the new quantity. */
  function SetQuantity(cart: seq<Line>, productId: Id, qty: int): (r: seq<Line>)
    ensures |r| == |cart|
  {
    var i := FirstLine(cart, productId);
    if i < 0 then cart else cart[i := cart[i].(quantity := Some(qty))]
  }

  /** The guest remove of line 80: the entries for other products. */
  function Without(cart: seq<Line>, productId: Id): (r: seq<Line>)
    ensures forall l :: l in r <==> l in cart && l.productId != productId
    ensures |r| <= |cart|
    decreases |cart|
  {
    if cart == [] then []
    else if cart[0].productId == productId then Without(cart[1..], productId)
    else [cart[0]] + Without(cart[1..], productId)
  }

  /** The guest update touches at most the first matching entry, and only its
      quantity; with no match it changes nothing. */
  lemma SetQuantityEffects(cart: seq<Line>, productId: Id, qty: int)
    ensures var r := SetQuantity(cart, productId, qty);
            var i := FirstLine(cart, productId);
            (i < 0 ==> r == cart)
            && (i >= 0 ==> r[i] == cart[i].(quantity := Some(qty))
                           && forall j :: 0 <= j < |cart| && j != i ==> r[j] == cart[j])
  {
  }

  /** After a guest update the total moves by the changed line alone. */
  lemma SetQuantityTotal(cart: seq<Line>, productId: Id, qty: int)
    requires FirstLine(cart, productId) >= 0
    requires qty != 0
    ensures var i := FirstLine(cart, productId);
            Total(SetQuantity(cart, productId, qty)) == Total(cart) - LineTotal(cart[i]) + PriceOf(cart[i]) * qty
  {
    var i := FirstLine(cart, productId);
    TotalUpdate(cart, i, cart[i].(quantity := Some(qty)));
  }

  /** Removing distributes over concatenation, so the rest keep their order. */
  lemma {:induction false} WithoutAppend(a: seq<Line>, b: seq<Line>, productId: Id)
    ensures Without(a + b, productId) == Without(a, productId) + Without(b, productId)
    decreases |a|
  {
    if a == [] {
      assert a + b == b;
    } else {
      assert (a + b)[1..] == a[1..] + b;
      WithoutAppend(a[1..], b, productId);
    }
  }

  /** A cart without the product is left as it is. */
  lemma {:induction false} WithoutAbsent(cart: seq<Line>, productId: Id)
    requires forall l :: l in cart ==> l.productId != productId
    ensures Without(cart, productId) == cart
    decreases |cart|
  {
    if cart != [] {
      assert forall l :: l in cart[1..] ==> l in cart;
      WithoutAbsent(cart[1..], productId);
    }
  }

  /** The id the remove, − and + buttons pass (lines 155, 169 and 178):
      `product._id || item.productId` with `product = item.productId || {}`
      (line 126). An entry with its product passes that product's id. An
      entry without one passes no id: a signed-in user's line whose product
      was deleted populates as null, and a guest entry without a stored
      product has nothing there either. */
  function ButtonTarget(l: Line): (t: Option<Id>)
    ensures t.Some? <==> l.product.Some?
    ensures t.Some? ==> t.value == l.product.value.id
  {
    if l.product.Some? then Some(l.product.value.id) else None
  }

  /** The path segment `${productId}` of a cart request: a missing id is
      written as "null". */
  function PathId(target: Option<Id>): string {
    if target.Some? then target.value else "null"
  }

  /** `updateQty(productId, qty)`: a quantity of 0 or less removes the line;
      otherwise a guest's entry is set in storage, and a user's through
      `PUT /cart/:productId`. A guest update with no id matches no entry. */
  function AfterUpdate(isGuest: bool, cart: seq<Line>, sent: seq<CartCall>, target: Option<Id>, qty: int): (seq<Line>, seq<CartCall>) {
    if qty <= 0 then AfterRemove(isGuest, cart, sent, target)
    else if isGuest then (if target.Some? then SetQuantity(cart, target.value, qty) else cart, sent)
    else (cart, sent + [PutQuantity(PathId(target), qty)])
  }

  /** `removeItem(productId)`. A guest remove with no id keeps every entry,
      since every stored entry has an id. */
  function AfterRemove(isGuest: bool, cart: seq<Line>, sent: seq<CartCall>, target: Option<Id>): (seq<Line>, seq<CartCall>) {
    if isGuest then (if target.Some? then Without(cart, target.value) else cart, sent)
    else (cart, sent + [DeleteLine(PathId(target))])
  }

  /** Where the checkout button leads. */
  function CheckoutTarget(isGuest: bool): (r: string)
    ensures isGuest <==> r == "/login?redirect=checkout"
    ensures !isGuest <==> r == "/checkout"
  {
    if isGuest then "/login?redirect=checkout" else "/checkout"
  }

  /** The quantities the − and + buttons of lines 169 and 178 ask for. */
  function Minus(l: Line): int { QuantityOf(l) - 1 }
  function Plus(l: Line): int { QuantityOf(l) + 1 }

  /** − on a line that shows 1 asks to remove it; − and + otherwise ask for
      the shown quantity moved by exactly one, and the page never asks the
      API for a quantity below 1. A line with its product is addressed by
      that product's id; a line without one is addressed as "null" and, for
      a guest, changes nothing. */
  lemma ButtonsStepByOne(isGuest: bool, cart: seq<Line>, sent: seq<CartCall>, l: Line)
    ensures QuantityOf(l) == 1 ==> AfterUpdate(isGuest, cart, sent, ButtonTarget(l), Minus(l)) == AfterRemove(isGuest, cart, sent, ButtonTarget(l))
    ensures QuantityOf(l) == 1 && l.product.Some? ==>
              AfterUpdate(isGuest, cart, sent, ButtonTarget(l), Minus(l))
                == if isGuest then (Without(cart, l.product.value.id), sent) else (cart, sent + [DeleteLine(l.product.value.id)])
    ensures QuantityOf(l) > 1 ==>
              AfterUpdate(isGuest, cart, sent, ButtonTarget(l), Minus(l))
                == if !isGuest then (cart, sent + [PutQuantity(PathId(ButtonTarget(l)), QuantityOf(l) - 1)])
                   else if l.product.Some? then (SetQuantity(cart, l.product.value.id, QuantityOf(l) - 1), sent)
                   else (cart, sent)
    ensures QuantityOf(l) >= 0 ==>
              AfterUpdate(isGuest, cart, sent, ButtonTarget(l), Plus(l))
                == if !isGuest then (cart, sent + [PutQuantity(PathId(ButtonTarget(l)), QuantityOf(l) + 1)])
                   else if l.product.Some? then (SetQuantity(cart, l.product.value.id, QuantityOf(l) + 1), sent)
                   else (cart, sent)
    ensures l.product.None? ==> PathId(ButtonTarget(l)) == "null"
    ensures l.product.None? && isGuest ==>
              AfterUpdate(isGuest, cart, sent, ButtonTarget(l), Minus(l)).0 == cart
              && AfterUpdate(isGuest, cart, sent, ButtonTarget(l), Plus(l)).0 == cart
    ensures forall c :: c in AfterUpdate(isGuest, cart, sent, ButtonTarget(l), Minus(l)).1 && c !in sent && c.PutQuantity? ==> c.quantity >= 1
  {
  }

  /** A signed-in line whose product was deleted cannot be edited: the server
      cart holds ObjectIds, so the "null" its buttons send matches no line.
      The DELETE answers success and keeps the line, and the PUT answers 404
      "Item not found". */
  lemma DeletedProductLineIsStuck(cart: seq<CartItem>, l: Line, q: Option<int>)
    requires l.product.None?
    requires forall i :: 0 <= i < |cart| ==> Text.IsObjectIdText(cart[i].productId)
    ensures CartRoutes.RemoveLines(cart, PathId(ButtonTarget(l))) == cart
    ensures CartRoutes.PutLine(cart, PathId(ButtonTarget(l)), q) == Err(CartRoutes.ItemNotFound)
  {
    assert forall i :: 0 <= i < |cart| ==> cart[i].productId != "null";
    CartRoutes.RemoveLinesAbsent(cart, "null");
  }

  /** The page state the handlers change. */
  class CartPage {
    const isGuest: bool
    var guestCart: seq<Line>
    var sent: seq<CartCall>
    var route: Option<string>

    constructor (isGuest: bool, guestCart: seq<Line>)
      ensures this.isGuest == isGuest && this.guestCart == guestCart && sent == [] && route == None
    {
      this.isGuest := isGuest;
      this.guestCart := guestCart;
      sent := [];
      route := None;
    }

    /** `removeItem` with the id a button passes. */
    method RemoveItem(target: Option<Id>)
      modifies this
      ensures (guestCart, sent) == AfterRemove(isGuest, old(guestCart), old(sent), target)
      ensures route == old(route)
    {
      if isGuest {
        if target.Some? {
          var filtered := Without(guestCart, target.value);
          guestCart := filtered;
        }
      } else {
        sent := sent + [DeleteLine(PathId(target))];
      }
    }

    /** `updateQty` with the id a button passes. */
    method UpdateQty(target: Option<Id>, qty: int)
      modifies this
      ensures (guestCart, sent) == AfterUpdate(isGuest, old(guestCart), old(sent), target, qty)
      ensures route == old(route)
    {
      if qty <= 0 {
        RemoveItem(target);
        return;
      }
      if isGuest {
        if target.Some? {
          var i := FirstLine(guestCart, target.value);
          if i >= 0 {
            guestCart := guestCart[i := guestCart[i].(quantity := Some(qty))];
          }
        }
      } else {
        sent := sent + [PutQuantity(PathId(target), qty)];
      }
    }

    method HandleCheckout()
      modifies this
      ensures route == Some(CheckoutTarget(isGuest))
      ensures guestCart == old(guestCart) && sent == old(sent)
    {
      if isGuest {
        route := Some("/login?redirect=checkout");
      } else {
        route := Some("/checkout");
      }
    }
  }
}
