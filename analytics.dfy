/** The roll-ups of `GET /admin/analytics` (routes/admin.js:144-251): revenue,
    order and customer counts, repeat customers, category figures, top
    products and the status distribution. The route accumulates into plain
    objects keyed by strings; such an object is modelled as a list of
    entries in the order their keys were first added, which is the order
    `Object.values` and `Object.entries` return for keys that are not
    integer-like (an integer-like key, such as a category named "2024",
    would come first there). A key naming an `Object.prototype` member,
    such as "constructor", is treated as absent until the route adds it,
    although in the route's plain objects it reads as the inherited member.
    Each accumulation is a loop proved equal to a fold over the orders, and
    the folds are characterised by reference counts and sums. */
module Analytics {
  import opened Models
  import Sorting
  import Text

  // ------------------------------------------ objects as lists of entries

  datatype Entry<V> = Entry(key: string, value: V)

  /** The position of a key, or -1. */
  function KeyIndex<V>(es: seq<Entry<V>>, k: string): (i: int)
    ensures -1 <= i < |es|
    ensures 0 <= i ==> es[i].key == k && forall j :: 0 <= j < i ==> es[j].key != k
    ensures i == -1 <==> forall j :: 0 <= j < |es| ==> es[j].key != k
    decreases |es|
  {
    if es == [] then -1
    else if es[0].key == k then 0
    else
      var i := KeyIndex(es[1..], k);
      if i < 0 then -1 else i + 1
  }

  predicate DistinctKeys<V>(es: seq<Entry<V>>) {
    forall i, j :: 0 <= i < j < |es| ==> es[i].key != es[j].key
  }

  /** `obj[k]`, or `absent` when the key is not there. */
  function Get<V>(es: seq<Entry<V>>, k: string, absent: V): V {
    var i := KeyIndex(es, k);
    if i < 0 then absent else es[i].value
  }

  /** `if (!obj[k]) obj[k] = init; obj[k] = step(obj[k])`. */
  function Bump<V>(es: seq<Entry<V>>, k: string, init: V, step: V -> V): seq<Entry<V>> {
    var i := KeyIndex(es, k);
    if i < 0 then es + [Entry(k, step(init))] else es[i := Entry(k, step(es[i].value))]
  }

  /** Two lists with the same keys at the same positions. */
  predicate SameKeys<V>(a: seq<Entry<V>>, b: seq<Entry<V>>) {
    |a| == |b| && forall j :: 0 <= j < |a| ==> a[j].key == b[j].key
  }

  lemma SameKeysIndex<V>(a: seq<Entry<V>>, b: seq<Entry<V>>, k: string)
    requires SameKeys(a, b)
    ensures KeyIndex(a, k) == KeyIndex(b, k)
  {
    var i, j := KeyIndex(a, k), KeyIndex(b, k);
    if i >= 0 && j >= 0 {
      assert !(i < j) && !(j < i);
    }
  }

  /** The position of any other key is the same after appending a key. */
  lemma KeyIndexAppend<V>(es: seq<Entry<V>>, e: Entry<V>, k: string)
    requires e.key != k
    ensures KeyIndex(es + [e], k) == KeyIndex(es, k)
  {
    var a, b := KeyIndex(es + [e], k), KeyIndex(es, k);
    if a >= 0 {
      assert a < |es| && es[a].key == k;
    }
    if b >= 0 {
      assert (es + [e])[b].key == k;
    }
  }

  /** Bumping a key changes that key's value by `step` and no other value. */
  lemma BumpGet<V>(es: seq<Entry<V>>, k: string, init: V, step: V -> V, k2: string, absent: V)
    ensures Get(Bump(es, k, init, step), k2, absent) == if k2 == k then step(Get(es, k, init)) else Get(es, k2, absent)
    ensures KeyIndex(Bump(es, k, init, step), k2) >= 0 <==> KeyIndex(es, k2) >= 0 || k2 == k
  {
    var i := KeyIndex(es, k);
    var r := Bump(es, k, init, step);
    if i < 0 {
      if k2 != k {
        KeyIndexAppend(es, Entry(k, step(init)), k2);
      } else {
        assert r[|es|].key == k;
        assert KeyIndex(r, k) == |es|;
      }
    } else {
      SameKeysIndex(r, es, k2);
    }
  }

  lemma BumpKeepsDistinct<V>(es: seq<Entry<V>>, k: string, init: V, step: V -> V)
    requires DistinctKeys(es)
    ensures DistinctKeys(Bump(es, k, init, step))
  {
    var r := Bump(es, k, init, step);
    if KeyIndex(es, k) < 0 {
      forall i, j | 0 <= i < j < |r|
        ensures r[i].key != r[j].key
      {
        if j == |es| {
          assert r[i] == es[i];
        }
      }
    }
  }

  /** The values, in key order (`Object.values`). */
  function Values<V>(es: seq<Entry<V>>): (r: seq<V>)
    ensures |r| == |es| && forall i :: 0 <= i < |es| ==> r[i] == es[i].value
  {
    seq(|es|, i requires 0 <= i < |es| => es[i].value)
  }

  function Last<T>(s: seq<T>): T
    requires s != []
  {
    s[|s| - 1]
  }

  function Init<T>(s: seq<T>): seq<T>
    requires s != []
  {
    s[..|s| - 1]
  }

  // ------------------------------------------------------------- revenue

  /** `orders.reduce((sum, o) => sum + (o.totalAmount || 0), 0)`. */
  function Revenue(orders: seq<Order>): int
    decreases |orders|
  {
    if orders == [] then 0 else Revenue(Init(orders)) + Last(orders).totalAmount
  }

  /** The average order value as a fraction `(numerator, denominator)`: the
      route divides revenue by the number of orders, and answers 0 when there
      are none. */
  function AverageOrderValue(orders: seq<Order>): (r: (int, int))
    ensures r.1 >= 1
    ensures orders == [] ==> r.0 == 0
    ensures orders != [] ==> r == (Revenue(orders), |orders|)
  {
    if |orders| > 0 then (Revenue(orders), |orders|) else (0, 1)
  }

  /** The ids of the customers who placed orders and still exist (`populate`
      yields null for a deleted user, and `filter(Boolean)` drops it). */
  function Customers(orders: seq<Order>, users: map<Id, User>): (r: set<Id>)
    ensures |r| <= |orders|
    ensures forall u :: u in r <==> u in users && exists k :: 0 <= k < |orders| && orders[k].userId == u
    decreases |orders|
  {
    if orders == [] then {}
    else
      var prev := Customers(Init(orders), users);
      var o := Last(orders);
      var r := if o.userId in users then prev + {o.userId} else prev;
      assert forall u :: u in r <==> u in users && exists k :: 0 <= k < |orders| && orders[k].userId == u by {
        forall u
          ensures u in r <==> u in users && exists k :: 0 <= k < |orders| && orders[k].userId == u
        {
          if u in users && (exists k :: 0 <= k < |orders| && orders[k].userId == u) {
            var k :| 0 <= k < |orders| && orders[k].userId == u;
            if k < |orders| - 1 {
              assert Init(orders)[k].userId == u;
            }
          }
          if u in prev {
            var k :| 0 <= k < |Init(orders)| && Init(orders)[k].userId == u;
            assert orders[k].userId == u;
          }
        }
      }
      r
  }

  // -------------------------------------------------------- status counts

  /** `order.status || 'Placed'`. */
  function StatusOf(o: Order): string {
    if o.status == "" then Placed else o.status
  }

  function Increment(n: int): int { n + 1 }

  /** The status distribution: one entry per status, in first-seen order. */
  function StatusCounts(orders: seq<Order>): seq<Entry<int>>
    decreases |orders|
  {
    if orders == [] then [] else Bump(StatusCounts(Init(orders)), StatusOf(Last(orders)), 0, Increment)
  }

  /** How many orders report status `s`: the reference count. */
  function CountWithStatus(orders: seq<Order>, s: string): nat
    decreases |orders|
  {
    if orders == [] then 0
    else CountWithStatus(Init(orders), s) + (if StatusOf(Last(orders)) == s then 1 else 0)
  }

  method CountStatuses(orders: seq<Order>) returns (counts: seq<Entry<int>>)
    ensures counts == StatusCounts(orders)
  {
    counts := [];
    var i := 0;
    while i < |orders|
      invariant 0 <= i <= |orders|
      invariant counts == StatusCounts(orders[..i])
    {
      assert Init(orders[..i + 1]) == orders[..i] && Last(orders[..i + 1]) == orders[i];
      var status := if orders[i].status == "" then Placed else orders[i].status;
      var k := KeyIndex(counts, status);
      if k < 0 {
        counts := counts + [Entry(status, 0 + 1)];
      } else {
        counts := counts[k := Entry(status, counts[k].value + 1)];
      }
      i := i + 1;
    }
    assert orders[..|orders|] == orders;
  }

  /** The sum of the counts. */
  function Total(es: seq<Entry<int>>): int
    decreases |es|
  {
    if es == [] then 0 else es[0].value + Total(es[1..])
  }

  lemma {:induction false} TotalAppend(es: seq<Entry<int>>, e: Entry<int>)
    ensures Total(es + [e]) == Total(es) + e.value
    decreases |es|
  {
    if es == [] {
      assert ([] + [e])[1..] == [];
    } else {
      assert (es + [e])[1..] == es[1..] + [e];
      TotalAppend(es[1..], e);
    }
  }

  lemma {:induction false} TotalUpdate(es: seq<Entry<int>>, i: nat, e: Entry<int>)
    requires i < |es|
    ensures Total(es[i := e]) == Total(es) - es[i].value + e.value
    decreases i
  {
    if i == 0 {
      assert es[i := e][1..] == es[1..];
    } else {
      assert es[i := e][1..] == es[1..][i - 1 := e];
      TotalUpdate(es[1..], i - 1, e);
    }
  }

  /** Each order is counted under exactly one status: the status counts add
      up to the number of orders, each key appears once, and the count of a
      status is the number of orders reporting it (a missing status counts as
      `Placed`). */
  lemma {:induction false} StatusCountsFacts(orders: seq<Order>)
    ensures Total(StatusCounts(orders)) == |orders|
    ensures DistinctKeys(StatusCounts(orders))
    ensures forall s :: Get(StatusCounts(orders), s, 0) == CountWithStatus(orders, s)
    decreases |orders|
  {
    if orders != [] {
      var prev := StatusCounts(Init(orders));
      var s := StatusOf(Last(orders));
      StatusCountsFacts(Init(orders));
      BumpKeepsDistinct(prev, s, 0, Increment);
      var i := KeyIndex(prev, s);
      if i < 0 {
        TotalAppend(prev, Entry(s, 1));
      } else {
        TotalUpdate(prev, i, Entry(s, prev[i].value + 1));
      }
      forall s2
        ensures Get(StatusCounts(orders), s2, 0) == CountWithStatus(orders, s2)
      {
        BumpGet(prev, s, 0, Increment, s2, 0);
      }
    }
  }

  // ------------------------------------------------------------ customers

  /** A customer's running figures: the populated user's name and email, the
      number of orders, the amount spent and the latest order time. */
  datatype Customer = Customer(name: string, email: string, orders: int, spent: int, last: int)

  function AddOrder(o: Order): Customer -> Customer {
    (c: Customer) => c.(orders := c.orders + 1, spent := c.spent + o.totalAmount,
             last := if c.orders == 0 || o.createdAt > c.last then o.createdAt else c.last)
  }

  function NoOrders(u: User): Customer {
    Customer(u.name, u.email, 0, 0, 0)
  }

  /** routes/admin.js:156-170: orders whose user no longer exists are skipped. */
  function CustomerStats(orders: seq<Order>, users: map<Id, User>): seq<Entry<Customer>>
    decreases |orders|
  {
    if orders == [] then []
    else
      var prev := CustomerStats(Init(orders), users);
      var o := Last(orders);
      if o.userId in users then Bump(prev, o.userId, NoOrders(users[o.userId]), AddOrder(o)) else prev
  }

  method TallyCustomers(orders: seq<Order>, users: map<Id, User>) returns (stats: seq<Entry<Customer>>)
    ensures stats == CustomerStats(orders, users)
  {
    stats := [];
    var i := 0;
    while i < |orders|
      invariant 0 <= i <= |orders|
      invariant stats == CustomerStats(orders[..i], users)
    {
      assert Init(orders[..i + 1]) == orders[..i] && Last(orders[..i + 1]) == orders[i];
      var order := orders[i];
      if order.userId in users {
        var k := KeyIndex(stats, order.userId);
        var c := if k < 0 then NoOrders(users[order.userId]) else stats[k].value;
        c := c.(orders := c.orders + 1, spent := c.spent + order.totalAmount,
                last := if c.orders == 0 || order.createdAt > c.last then order.createdAt else c.last);
        if k < 0 {
          stats := stats + [Entry(order.userId, c)];
        } else {
          stats := stats[k := Entry(order.userId, c)];
        }
      }
      i := i + 1;
    }
    assert orders[..|orders|] == orders;
  }

  /** The number of orders by `u`: the reference count. */
  function OrdersBy(orders: seq<Order>, u: Id): nat
    decreases |orders|
  {
    if orders == [] then 0 else OrdersBy(Init(orders), u) + (if Last(orders).userId == u then 1 else 0)
  }

  /** The amount `u` spent, summed over their orders. */
  function SpentBy(orders: seq<Order>, u: Id): int
    decreases |orders|
  {
    if orders == [] then 0 else SpentBy(Init(orders), u) + (if Last(orders).userId == u then Last(orders).totalAmount else 0)
  }

  /** An existing customer's entry counts their orders and sums what they
      spent. */
  lemma {:induction false} CustomerStatsFacts(orders: seq<Order>, users: map<Id, User>, u: Id)
    requires u in users
    ensures Get(CustomerStats(orders, users), u, NoOrders(users[u])).orders == OrdersBy(orders, u)
    ensures Get(CustomerStats(orders, users), u, NoOrders(users[u])).spent == SpentBy(orders, u)
    ensures KeyIndex(CustomerStats(orders, users), u) >= 0 <==> OrdersBy(orders, u) > 0
    decreases |orders|
  {
    if orders != [] {
      CustomerStatsFacts(Init(orders), users, u);
      var o := Last(orders);
      if o.userId in users {
        BumpGet(CustomerStats(Init(orders), users), o.userId, NoOrders(users[o.userId]), AddOrder(o), u, NoOrders(users[u]));
      }
    }
  }

  /** No order counts for `u` exactly when none of the orders is theirs. */
  lemma {:induction false} OrdersByNone(orders: seq<Order>, u: Id)
    ensures OrdersBy(orders, u) == 0 <==> forall i :: 0 <= i < |orders| ==> orders[i].userId != u
    decreases |orders|
  {
    if orders != [] {
      OrdersByNone(Init(orders), u);
      assert forall i :: 0 <= i < |orders| - 1 ==> orders[i] == Init(orders)[i];
    }
  }

  /** `t` is the latest `createdAt` among `u`'s orders: one of them was
      placed at `t` and none later. */
  predicate LatestOf(orders: seq<Order>, u: Id, t: int) {
    && (exists i :: 0 <= i < |orders| && orders[i].userId == u && orders[i].createdAt == t)
    && (forall i :: 0 <= i < |orders| && orders[i].userId == u ==> orders[i].createdAt <= t)
  }

  /** A customer with orders has as `last` the time of their latest order,
      `Math.max` over their orders' dates at routes/admin.js:179. */
  lemma {:induction false} CustomerLastOrder(orders: seq<Order>, users: map<Id, User>, u: Id)
    requires u in users
    ensures OrdersBy(orders, u) > 0 ==> LatestOf(orders, u, Get(CustomerStats(orders, users), u, NoOrders(users[u])).last)
    decreases |orders|
  {
    if orders != [] {
      var init, o := Init(orders), Last(orders);
      var prev := CustomerStats(init, users);
      var z := NoOrders(users[u]);
      CustomerLastOrder(init, users, u);
      CustomerStatsFacts(init, users, u);
      OrdersByNone(init, u);
      if o.userId in users {
        BumpGet(prev, o.userId, NoOrders(users[o.userId]), AddOrder(o), u, z);
      }
      var c := Get(prev, u, z);
      var t := Get(CustomerStats(orders, users), u, z).last;
      assert forall i :: 0 <= i < |init| ==> orders[i] == init[i];
      if o.userId == u {
        assert t == if c.orders == 0 || o.createdAt > c.last then o.createdAt else c.last;
        if c.orders == 0 || o.createdAt > c.last {
          assert orders[|orders| - 1].createdAt == t;
        } else {
          var j :| 0 <= j < |init| && init[j].userId == u && init[j].createdAt == c.last;
          assert orders[j].userId == u && orders[j].createdAt == t;
        }
      } else if OrdersBy(orders, u) > 0 {
        assert t == c.last;
        var j :| 0 <= j < |init| && init[j].userId == u && init[j].createdAt == c.last;
        assert orders[j].userId == u && orders[j].createdAt == t;
      }
    }
  }

  /** Every customer row is keyed by an existing user, once, and carries
      that user's name and email. */
  predicate CustomersKeyed(es: seq<Entry<Customer>>, users: map<Id, User>) {
    && DistinctKeys(es)
    && forall i :: 0 <= i < |es| ==>
         es[i].key in users && es[i].value.name == users[es[i].key].name && es[i].value.email == users[es[i].key].email
  }

  lemma {:induction false} CustomerStatsKeyed(orders: seq<Order>, users: map<Id, User>)
    ensures CustomersKeyed(CustomerStats(orders, users), users)
    decreases |orders|
  {
    if orders != [] {
      var prev := CustomerStats(Init(orders), users);
      CustomerStatsKeyed(Init(orders), users);
      var o := Last(orders);
      if o.userId in users {
        var init := NoOrders(users[o.userId]);
        BumpKeepsDistinct(prev, o.userId, init, AddOrder(o));
        var r := Bump(prev, o.userId, init, AddOrder(o));
        var k := KeyIndex(prev, o.userId);
        forall i | 0 <= i < |r|
          ensures r[i].key in users && r[i].value.name == users[r[i].key].name && r[i].value.email == users[r[i].key].email
        {
          if k < 0 && i == |prev| {
            assert r[i] == Entry(o.userId, AddOrder(o)(init));
          } else if i == k {
            assert r[i] == Entry(o.userId, AddOrder(o)(prev[k].value));
          } else {
            assert r[i] == prev[i];
          }
        }
      }
    }
  }

  /** A row of the repeat-customer table. */
  datatype RepeatCustomer = RepeatCustomer(name: string, email: string, orderCount: int, totalSpent: int, lastOrder: int)

  function Row(c: Customer): RepeatCustomer {
    RepeatCustomer(c.name, c.email, c.orders, c.spent, c.last)
  }

  function TotalSpent(r: RepeatCustomer): int { r.totalSpent }

  function IsRepeat(e: Entry<Customer>): bool { e.value.orders > 1 }

  /** The rows for customers with more than one order. */
  function RepeatRows(stats: seq<Entry<Customer>>): (r: seq<RepeatCustomer>)
    ensures forall x :: x in r <==> exists e :: e in stats && IsRepeat(e) && x == Row(e.value)
  {
    var repeat := Sorting.Filter(stats, IsRepeat);
    var rows := seq(|repeat|, i requires 0 <= i < |repeat| => Row(repeat[i].value));
    assert forall x :: x in rows <==> exists e :: e in repeat && x == Row(e.value) by {
      forall x | x in rows
        ensures exists e :: e in repeat && x == Row(e.value)
      {
        var i :| 0 <= i < |rows| && rows[i] == x;
        assert repeat[i] in repeat;
      }
      forall e | e in repeat
        ensures Row(e.value) in rows
      {
        var i :| 0 <= i < |repeat| && repeat[i] == e;
        assert rows[i] == Row(e.value);
      }
    }
    rows
  }

  /** routes/admin.js:172-182: filter, sort by amount spent, first ten. */
  function RepeatCustomers(stats: seq<Entry<Customer>>): seq<RepeatCustomer> {
    Sorting.Take(Sorting.SortDesc(RepeatRows(stats), TotalSpent), 10)
  }

  /** The repeat customers are at most ten customers with more than one order
      each, largest spenders first; a repeat customer left out spent no more
      than anyone listed. */
  lemma RepeatCustomersFacts(stats: seq<Entry<Customer>>)
    ensures var r := RepeatCustomers(stats);
            |r| <= 10 && Sorting.SortedDesc(r, TotalSpent) &&
            (forall x :: x in r ==> x.orderCount > 1 && exists e :: e in stats && x == Row(e.value))
    ensures var r := RepeatCustomers(stats);
            forall x :: x in RepeatRows(stats) && x !in r ==>
              |r| == 10 && forall y :: y in r ==> y.totalSpent >= x.totalSpent
  {
    var rows := RepeatRows(stats);
    var sorted := Sorting.SortDesc(rows, TotalSpent);
    var r := Sorting.Take(sorted, 10);
    Sorting.SortDescSameElements(rows, TotalSpent);
    assert Sorting.SortedDesc(r, TotalSpent);
    forall x | x in r
      ensures x.orderCount > 1 && exists e :: e in stats && x == Row(e.value)
    {
      assert x in sorted;
    }
    forall x | x in rows && x !in r
      ensures |r| == 10 && forall y :: y in r ==> y.totalSpent >= x.totalSpent
    {
      Sorting.TakeKeepsLargest(sorted, TotalSpent, 10, x);
    }
  }

  /** Each repeat-customer row belongs to an existing user: it has their
      name and email, the number of their orders, more than one, what those
      orders cost in total, and the time of the latest. */
  lemma RepeatCustomersOfOrders(orders: seq<Order>, users: map<Id, User>)
    ensures forall x :: x in RepeatCustomers(CustomerStats(orders, users)) ==>
              exists u :: u in users && x.name == users[u].name && x.email == users[u].email
                          && x.orderCount == OrdersBy(orders, u) > 1 && x.totalSpent == SpentBy(orders, u)
                          && LatestOf(orders, u, x.lastOrder)
  {
    var stats := CustomerStats(orders, users);
    RepeatCustomersFacts(stats);
    CustomerStatsKeyed(orders, users);
    forall x | x in RepeatCustomers(stats)
      ensures exists u :: u in users && x.name == users[u].name && x.email == users[u].email
                          && x.orderCount == OrdersBy(orders, u) > 1 && x.totalSpent == SpentBy(orders, u)
                          && LatestOf(orders, u, x.lastOrder)
    {
      var e :| e in stats && x == Row(e.value);
      var i :| 0 <= i < |stats| && stats[i] == e;
      var u := e.key;
      assert KeyIndex(stats, u) == i;
      CustomerStatsFacts(orders, users, u);
      CustomerLastOrder(orders, users, u);
    }
  }

  // ----------------------------------------------------------- categories

  /** `item.productId?.category || 'Uncategorized'` with the product looked up
      now: a deleted product, or one with an empty category, is uncategorised. */
  function CategoryOf(item: OrderItem, products: map<Id, Product>): string {
    if item.productId in products && products[item.productId].category != "" then products[item.productId].category
    else "Uncategorized"
  }

  datatype CategoryRow = CategoryRow(revenue: int, orderCount: int, itemsSold: int)

  function NoSales(): CategoryRow { CategoryRow(0, 0, 0) }

  function Sell(item: OrderItem): CategoryRow -> CategoryRow {
    (c: CategoryRow) => c.(revenue := c.revenue + item.price * item.quantity, itemsSold := c.itemsSold + item.quantity)
  }

  function AddItems(es: seq<Entry<CategoryRow>>, items: seq<OrderItem>, products: map<Id, Product>): seq<Entry<CategoryRow>>
    decreases |items|
  {
    if items == [] then es
    else Bump(AddItems(es, Init(items), products), CategoryOf(Last(items), products), NoSales(), Sell(Last(items)))
  }

  /** routes/admin.js:185-200: revenue and items sold per category. */
  function CategorySales(orders: seq<Order>, products: map<Id, Product>): seq<Entry<CategoryRow>>
    decreases |orders|
  {
    if orders == [] then [] else AddItems(CategorySales(Init(orders), products), Last(orders).items, products)
  }

  /** The distinct categories of an order's items, in first-seen order (the
      `Set` of routes/admin.js:204). */
  function OrderCategories(items: seq<OrderItem>, products: map<Id, Product>): (r: seq<string>)
    ensures forall i, j :: 0 <= i < j < |r| ==> r[i] != r[j]
    ensures forall c :: c in r <==> exists k :: 0 <= k < |items| && CategoryOf(items[k], products) == c
    decreases |items|
  {
    if items == [] then []
    else
      var prev := OrderCategories(Init(items), products);
      var c := CategoryOf(Last(items), products);
      var r := if c in prev then prev else prev + [c];
      assert forall c2 :: c2 in r <==> exists k :: 0 <= k < |items| && CategoryOf(items[k], products) == c2 by {
        forall c2
          ensures c2 in r <==> exists k :: 0 <= k < |items| && CategoryOf(items[k], products) == c2
        {
          if c2 in prev {
            var k :| 0 <= k < |Init(items)| && CategoryOf(Init(items)[k], products) == c2;
            assert CategoryOf(items[k], products) == c2;
          }
          if exists k :: 0 <= k < |items| && CategoryOf(items[k], products) == c2 {
            var k :| 0 <= k < |items| && CategoryOf(items[k], products) == c2;
            if k < |items| - 1 {
              assert CategoryOf(Init(items)[k], products) == c2;
            }
          }
        }
      }
      r
  }

  /** `if (categoryStats[c]) categoryStats[c].orderCount += 1` for each
      category of one order. */
  function CountOrder(es: seq<Entry<CategoryRow>>, cats: seq<string>): seq<Entry<CategoryRow>>
    decreases |cats|
  {
    if cats == [] then es
    else
      var prev := CountOrder(es, Init(cats));
      var i := KeyIndex(prev, Last(cats));
      if i < 0 then prev else prev[i := Entry(Last(cats), prev[i].value.(orderCount := prev[i].value.orderCount + 1))]
  }

  /** routes/admin.js:203-210: each order adds one to each of its categories. */
  function CountOrders(es: seq<Entry<CategoryRow>>, orders: seq<Order>, products: map<Id, Product>): seq<Entry<CategoryRow>>
    decreases |orders|
  {
    if orders == [] then es
    else CountOrder(CountOrders(es, Init(orders), products), OrderCategories(Last(orders).items, products))
  }

  function CategoryStats(orders: seq<Order>, products: map<Id, Product>): seq<Entry<CategoryRow>> {
    CountOrders(CategorySales(orders, products), orders, products)
  }

  function CategoryRevenue(e: Entry<CategoryRow>): int { e.value.revenue }

  /** `categoryAnalytics`: the categories by revenue, largest first. */
  function CategoryAnalytics(orders: seq<Order>, products: map<Id, Product>): seq<Entry<CategoryRow>> {
    Sorting.SortDesc(CategoryStats(orders, products), CategoryRevenue)
  }

  /** The body of the inner loop of routes/admin.js:185-200 for one item:
      create the category's row on first sight, then add the line to it. */
  method SellOne(stats0: seq<Entry<CategoryRow>>, item: OrderItem, products: map<Id, Product>)
    returns (stats: seq<Entry<CategoryRow>>)
    ensures stats == Bump(stats0, CategoryOf(item, products), NoSales(), Sell(item))
  {
    var category := CategoryOf(item, products);
    var k := KeyIndex(stats0, category);
    var c := if k < 0 then NoSales() else stats0[k].value;
    c := c.(revenue := c.revenue + item.price * item.quantity, itemsSold := c.itemsSold + item.quantity);
    if k < 0 {
      stats := stats0 + [Entry(category, c)];
    } else {
      stats := stats0[k := Entry(category, c)];
    }
  }

  method SellItems(stats0: seq<Entry<CategoryRow>>, items: seq<OrderItem>, products: map<Id, Product>)
    returns (stats: seq<Entry<CategoryRow>>)
    ensures stats == AddItems(stats0, items, products)
  {
    stats := stats0;
    var j := 0;
    assert items[..0] == [];
    while j < |items|
      invariant 0 <= j <= |items|
      invariant stats == AddItems(stats0, items[..j], products)
    {
      assert Init(items[..j + 1]) == items[..j] && Last(items[..j + 1]) == items[j];
      stats := SellOne(stats, items[j], products);
      j := j + 1;
    }
    assert items[..|items|] == items;
  }

  /** The inner loop of routes/admin.js:205-209 over one order's categories. */
  method CountOrderIn(stats0: seq<Entry<CategoryRow>>, cats: seq<string>) returns (stats: seq<Entry<CategoryRow>>)
    ensures stats == CountOrder(stats0, cats)
  {
    stats := stats0;
    var j := 0;
    assert cats[..0] == [];
    while j < |cats|
      invariant 0 <= j <= |cats|
      invariant stats == CountOrder(stats0, cats[..j])
    {
      assert Init(cats[..j + 1]) == cats[..j] && Last(cats[..j + 1]) == cats[j];
      var k := KeyIndex(stats, cats[j]);
      if k >= 0 {
        stats := stats[k := Entry(cats[j], stats[k].value.(orderCount := stats[k].value.orderCount + 1))];
      }
      j := j + 1;
    }
    assert cats[..|cats|] == cats;
  }

  /** The first pass, routes/admin.js:185-200. */
  method SalesPass(orders: seq<Order>, products: map<Id, Product>) returns (stats: seq<Entry<CategoryRow>>)
    ensures stats == CategorySales(orders, products)
  {
    stats := [];
    var i := 0;
    while i < |orders|
      invariant 0 <= i <= |orders|
      invariant stats == CategorySales(orders[..i], products)
    {
      assert Init(orders[..i + 1]) == orders[..i] && Last(orders[..i + 1]) == orders[i];
      stats := SellItems(stats, orders[i].items, products);
      i := i + 1;
    }
    assert orders[..|orders|] == orders;
  }

  /** The second pass, routes/admin.js:203-210. */
  method CountPass(sales: seq<Entry<CategoryRow>>, orders: seq<Order>, products: map<Id, Product>) returns (stats: seq<Entry<CategoryRow>>)
    ensures stats == CountOrders(sales, orders, products)
  {
    stats := sales;
    var i := 0;
    while i < |orders|
      invariant 0 <= i <= |orders|
      invariant stats == CountOrders(sales, orders[..i], products)
    {
      assert Init(orders[..i + 1]) == orders[..i] && Last(orders[..i + 1]) == orders[i];
      stats := CountOrderIn(stats, OrderCategories(orders[i].items, products));
      i := i + 1;
    }
    assert orders[..|orders|] == orders;
  }

  /** The two passes of routes/admin.js:185-210. */
  method TallyCategories(orders: seq<Order>, products: map<Id, Product>) returns (stats: seq<Entry<CategoryRow>>)
    ensures stats == CategoryStats(orders, products)
  {
    var sales := SalesPass(orders, products);
    stats := CountPass(sales, orders, products);
  }

  /** An order has an item in category `c`. */
  predicate HasCategory(o: Order, c: string, products: map<Id, Product>) {
    exists k :: 0 <= k < |o.items| && CategoryOf(o.items[k], products) == c
  }

  /** The number of orders with an item in category `c`: the reference count. */
  function OrdersIn(orders: seq<Order>, c: string, products: map<Id, Product>): nat
    decreases |orders|
  {
    if orders == [] then 0
    else OrdersIn(Init(orders), c, products) + (if HasCategory(Last(orders), c, products) then 1 else 0)
  }

  /** The revenue of the items in category `c` of some lines. */
  function ItemsRevenueIn(items: seq<OrderItem>, c: string, products: map<Id, Product>): int
    decreases |items|
  {
    if items == [] then 0
    else ItemsRevenueIn(Init(items), c, products) +
         (if CategoryOf(Last(items), products) == c then Last(items).price * Last(items).quantity else 0)
  }

  function RevenueIn(orders: seq<Order>, c: string, products: map<Id, Product>): int
    decreases |orders|
  {
    if orders == [] then 0 else RevenueIn(Init(orders), c, products) + ItemsRevenueIn(Last(orders).items, c, products)
  }

  /** Every entry's order count is still zero. */
  predicate NoOrderCounts(es: seq<Entry<CategoryRow>>) {
    forall j :: 0 <= j < |es| ==> es[j].value.orderCount == 0
  }

  /** Selling some lines adds their revenue in `c` to the entry for `c`. */
  lemma {:induction false} AddItemsRevenue(es: seq<Entry<CategoryRow>>, items: seq<OrderItem>, products: map<Id, Product>, c: string)
    ensures Get(AddItems(es, items, products), c, NoSales()).revenue == Get(es, c, NoSales()).revenue + ItemsRevenueIn(items, c, products)
    decreases |items|
  {
    if items != [] {
      AddItemsRevenue(es, Init(items), products, c);
      BumpGet(AddItems(es, Init(items), products), CategoryOf(Last(items), products), NoSales(), Sell(Last(items)), c, NoSales());
    }
  }

  /** After selling some lines, `c` has an entry exactly when it had one or
      one of the lines is in `c`. */
  lemma {:induction false} AddItemsKeys(es: seq<Entry<CategoryRow>>, items: seq<OrderItem>, products: map<Id, Product>, c: string)
    ensures KeyIndex(AddItems(es, items, products), c) >= 0 <==>
            KeyIndex(es, c) >= 0 || exists k :: 0 <= k < |items| && CategoryOf(items[k], products) == c
    decreases |items|
  {
    if items != [] {
      AddItemsKeys(es, Init(items), products, c);
      var it := Last(items);
      BumpGet(AddItems(es, Init(items), products), CategoryOf(it, products), NoSales(), Sell(it), c, NoSales());
      if exists k :: 0 <= k < |items| && CategoryOf(items[k], products) == c {
        var k :| 0 <= k < |items| && CategoryOf(items[k], products) == c;
        if k < |items| - 1 {
          assert CategoryOf(Init(items)[k], products) == c;
        }
      }
      if exists k :: 0 <= k < |Init(items)| && CategoryOf(Init(items)[k], products) == c {
        var k :| 0 <= k < |Init(items)| && CategoryOf(Init(items)[k], products) == c;
        assert CategoryOf(items[k], products) == c;
      }
    }
  }

  /** Selling never touches an order count. */
  lemma {:induction false} AddItemsNoCounts(es: seq<Entry<CategoryRow>>, items: seq<OrderItem>, products: map<Id, Product>)
    requires NoOrderCounts(es)
    ensures NoOrderCounts(AddItems(es, items, products))
    decreases |items|
  {
    if items != [] {
      AddItemsNoCounts(es, Init(items), products);
    }
  }

  /** The sales pass: each category's revenue is the revenue of its items,
      every category of every item has an entry, and no order is counted yet. */
  lemma {:induction false} CategorySalesFacts(orders: seq<Order>, products: map<Id, Product>, c: string)
    ensures Get(CategorySales(orders, products), c, NoSales()).revenue == RevenueIn(orders, c, products)
    ensures KeyIndex(CategorySales(orders, products), c) >= 0 <==> OrdersIn(orders, c, products) > 0
    ensures NoOrderCounts(CategorySales(orders, products))
    decreases |orders|
  {
    if orders != [] {
      CategorySalesFacts(Init(orders), products, c);
      var prev := CategorySales(Init(orders), products);
      AddItemsRevenue(prev, Last(orders).items, products, c);
      AddItemsKeys(prev, Last(orders).items, products, c);
      AddItemsNoCounts(prev, Last(orders).items, products);
    }
  }

  lemma {:induction false} CountOrderFacts(es: seq<Entry<CategoryRow>>, cats: seq<string>, c: string)
    requires forall i, j :: 0 <= i < j < |cats| ==> cats[i] != cats[j]
    ensures SameKeys(CountOrder(es, cats), es)
    ensures Get(CountOrder(es, cats), c, NoSales()).orderCount
            == Get(es, c, NoSales()).orderCount + (if c in cats && KeyIndex(es, c) >= 0 then 1 else 0)
    ensures Get(CountOrder(es, cats), c, NoSales()).revenue == Get(es, c, NoSales()).revenue
    decreases |cats|
  {
    if cats != [] {
      var prev := CountOrder(es, Init(cats));
      CountOrderFacts(es, Init(cats), c);
      SameKeysIndex(prev, es, c);
      SameKeysIndex(prev, es, Last(cats));
      var r := CountOrder(es, cats);
      assert SameKeys(r, prev);
      SameKeysIndex(r, prev, c);
      assert c in cats <==> c in Init(cats) || c == Last(cats);
      if c == Last(cats) {
        assert c !in Init(cats);
      }
    }
  }

  lemma {:induction false} CountOrdersFacts(es: seq<Entry<CategoryRow>>, orders: seq<Order>, products: map<Id, Product>, c: string)
    requires OrdersIn(orders, c, products) > 0 ==> KeyIndex(es, c) >= 0
    ensures SameKeys(CountOrders(es, orders, products), es)
    ensures Get(CountOrders(es, orders, products), c, NoSales()).orderCount
            == Get(es, c, NoSales()).orderCount + OrdersIn(orders, c, products)
    ensures Get(CountOrders(es, orders, products), c, NoSales()).revenue == Get(es, c, NoSales()).revenue
    decreases |orders|
  {
    if orders != [] {
      var prev := CountOrders(es, Init(orders), products);
      CountOrdersFacts(es, Init(orders), products, c);
      var cats := OrderCategories(Last(orders).items, products);
      CountOrderFacts(prev, cats, c);
      SameKeysIndex(prev, es, c);
    }
  }

  /** A category's `orderCount` counts each order with an item in it exactly
      once, however many such items the order has; its revenue is the sum of
      those items' price times quantity. */
  lemma CategoryStatsFacts(orders: seq<Order>, products: map<Id, Product>, c: string)
    ensures Get(CategoryStats(orders, products), c, NoSales()).orderCount == OrdersIn(orders, c, products)
    ensures Get(CategoryStats(orders, products), c, NoSales()).revenue == RevenueIn(orders, c, products)
    ensures OrdersIn(orders, c, products) <= |orders|
  {
    var sales := CategorySales(orders, products);
    CategorySalesFacts(orders, products, c);
    CountOrdersFacts(sales, orders, products, c);
    var i := KeyIndex(sales, c);
    OrdersInAtMost(orders, c, products);
  }

  lemma {:induction false} OrdersInAtMost(orders: seq<Order>, c: string, products: map<Id, Product>)
    ensures OrdersIn(orders, c, products) <= |orders|
    decreases |orders|
  {
    if orders != [] {
      OrdersInAtMost(Init(orders), c, products);
    }
  }

  // ------------------------------------------------------------- products

  datatype ProductRow = ProductRow(id: Id, name: string, category: string, imageUrl: string, unitsSold: int, revenue: int)

  function SoldLine(item: OrderItem): ProductRow -> ProductRow {
    (r: ProductRow) => r.(unitsSold := r.unitsSold + item.quantity, revenue := r.revenue + item.price * item.quantity)
  }

  /** A product's first row: its current name (or 'Unknown Product'), its
      category and image. */
  function FirstRow(item: OrderItem, products: map<Id, Product>): ProductRow
    requires item.productId in products
  {
    var p := products[item.productId];
    ProductRow(item.productId, Text.OrElse(p.name, "Unknown Product"), CategoryOf(item, products), p.imageUrl, 0, 0)
  }

  /** Lines whose product no longer exists are skipped. */
  function AddLines(es: seq<Entry<ProductRow>>, items: seq<OrderItem>, products: map<Id, Product>): seq<Entry<ProductRow>>
    decreases |items|
  {
    if items == [] then es
    else
      var prev := AddLines(es, Init(items), products);
      var it := Last(items);
      if it.productId in products then Bump(prev, it.productId, FirstRow(it, products), SoldLine(it)) else prev
  }

  /** routes/admin.js:216-235. */
  function ProductStats(orders: seq<Order>, products: map<Id, Product>): seq<Entry<ProductRow>>
    decreases |orders|
  {
    if orders == [] then [] else AddLines(ProductStats(Init(orders), products), Last(orders).items, products)
  }

  function RowRevenue(r: ProductRow): int { r.revenue }

  /** routes/admin.js:237-239: the ten products with the most revenue. */
  function TopProducts(orders: seq<Order>, products: map<Id, Product>): seq<ProductRow> {
    Sorting.Take(Sorting.SortDesc(Values(ProductStats(orders, products)), RowRevenue), 10)
  }

  /** The inner loop of routes/admin.js:218-234 over one order's items. */
  method SellLines(stats0: seq<Entry<ProductRow>>, items: seq<OrderItem>, products: map<Id, Product>)
    returns (stats: seq<Entry<ProductRow>>)
    ensures stats == AddLines(stats0, items, products)
  {
    stats := stats0;
    var j := 0;
    assert items[..0] == [];
    while j < |items|
      invariant 0 <= j <= |items|
      invariant stats == AddLines(stats0, items[..j], products)
    {
      assert Init(items[..j + 1]) == items[..j] && Last(items[..j + 1]) == items[j];
      var item := items[j];
      if item.productId in products {
        var k := KeyIndex(stats, item.productId);
        var r := if k < 0 then FirstRow(item, products) else stats[k].value;
        r := r.(unitsSold := r.unitsSold + item.quantity, revenue := r.revenue + item.price * item.quantity);
        if k < 0 {
          stats := stats + [Entry(item.productId, r)];
        } else {
          stats := stats[k := Entry(item.productId, r)];
        }
      }
      j := j + 1;
    }
    assert items[..|items|] == items;
  }

  method TallyProducts(orders: seq<Order>, products: map<Id, Product>) returns (stats: seq<Entry<ProductRow>>)
    ensures stats == ProductStats(orders, products)
  {
    stats := [];
    var i := 0;
    while i < |orders|
      invariant 0 <= i <= |orders|
      invariant stats == ProductStats(orders[..i], products)
    {
      assert Init(orders[..i + 1]) == orders[..i] && Last(orders[..i + 1]) == orders[i];
      stats := SellLines(stats, orders[i].items, products);
      i := i + 1;
    }
    assert orders[..|orders|] == orders;
  }

  /** The units of `p` over all orders, as the orders' own line demand. */
  function UnitsOf(orders: seq<Order>, p: Id): int
    decreases |orders|
  {
    if orders == [] then 0 else UnitsOf(Init(orders), p) + ItemDemand(Last(orders).items, p)
  }

  lemma GetUnits(es: seq<Entry<ProductRow>>, p: Id, a: ProductRow, b: ProductRow)
    requires a.unitsSold == b.unitsSold
    ensures Get(es, p, a).unitsSold == Get(es, p, b).unitsSold
  {
  }

  lemma {:induction false} AddLinesUnits(es: seq<Entry<ProductRow>>, items: seq<OrderItem>, products: map<Id, Product>, p: Id, zero: ProductRow)
    requires p in products && zero.unitsSold == 0
    ensures Get(AddLines(es, items, products), p, zero).unitsSold == Get(es, p, zero).unitsSold + ItemDemand(items, p)
    decreases |items|
  {
    if items == [] {
    } else {
      var prev := AddLines(es, Init(items), products);
      AddLinesUnits(es, Init(items), products, p, zero);
      var it := Last(items);
      assert items == Init(items) + [it];
      ItemDemandAppend(Init(items), [it], p);
      assert ItemDemand([it], p) == (if it.productId == p then it.quantity else 0) by {
        assert [it][1..] == [];
      }
      if it.productId in products {
        BumpGet(prev, it.productId, FirstRow(it, products), SoldLine(it), p, zero);
        if it.productId == p {
          GetUnits(prev, p, FirstRow(it, products), zero);
        }
      }
    }
  }

  /** A product's `unitsSold` is the quantity of all order lines for it, as
      long as the product exists. */
  lemma {:induction false} ProductStatsUnits(orders: seq<Order>, products: map<Id, Product>, p: Id, zero: ProductRow)
    requires p in products && zero.unitsSold == 0
    ensures Get(ProductStats(orders, products), p, zero).unitsSold == UnitsOf(orders, p)
    decreases |orders|
  {
    if orders != [] {
      ProductStatsUnits(Init(orders), products, p, zero);
      AddLinesUnits(ProductStats(Init(orders), products), Last(orders).items, products, p, zero);
    }
  }

  /** The revenue of `p` in some order lines: price times quantity over its lines. */
  function ItemRevenue(items: seq<OrderItem>, p: Id): int
    decreases |items|
  {
    if items == [] then 0
    else ItemRevenue(Init(items), p) + (if Last(items).productId == p then Last(items).price * Last(items).quantity else 0)
  }

  /** The revenue of `p` over all orders, from the orders' own lines. */
  function RevenueOfProduct(orders: seq<Order>, p: Id): int
    decreases |orders|
  {
    if orders == [] then 0 else RevenueOfProduct(Init(orders), p) + ItemRevenue(Last(orders).items, p)
  }

  lemma GetRevenue(es: seq<Entry<ProductRow>>, p: Id, a: ProductRow, b: ProductRow)
    requires a.revenue == b.revenue
    ensures Get(es, p, a).revenue == Get(es, p, b).revenue
  {
  }

  lemma {:induction false} AddLinesRevenue(es: seq<Entry<ProductRow>>, items: seq<OrderItem>, products: map<Id, Product>, p: Id, zero: ProductRow)
    requires p in products && zero.revenue == 0
    ensures Get(AddLines(es, items, products), p, zero).revenue == Get(es, p, zero).revenue + ItemRevenue(items, p)
    decreases |items|
  {
    if items != [] {
      var prev := AddLines(es, Init(items), products);
      AddLinesRevenue(es, Init(items), products, p, zero);
      var it := Last(items);
      if it.productId in products {
        BumpGet(prev, it.productId, FirstRow(it, products), SoldLine(it), p, zero);
        if it.productId == p {
          GetRevenue(prev, p, FirstRow(it, products), zero);
        }
      }
    }
  }

  /** A product's `revenue` is price times quantity over all order lines for
      it, as long as the product exists. */
  lemma {:induction false} ProductStatsRevenue(orders: seq<Order>, products: map<Id, Product>, p: Id, zero: ProductRow)
    requires p in products && zero.revenue == 0
    ensures Get(ProductStats(orders, products), p, zero).revenue == RevenueOfProduct(orders, p)
    decreases |orders|
  {
    if orders != [] {
      ProductStatsRevenue(Init(orders), products, p, zero);
      AddLinesRevenue(ProductStats(Init(orders), products), Last(orders).items, products, p, zero);
    }
  }

  /** Every row of the product table is keyed by its own, existing product. */
  predicate RowsKeyed(es: seq<Entry<ProductRow>>, products: map<Id, Product>) {
    && DistinctKeys(es)
    && forall i :: 0 <= i < |es| ==> es[i].key in products && es[i].value.id == es[i].key
  }

  lemma {:induction false} AddLinesKeyed(es: seq<Entry<ProductRow>>, items: seq<OrderItem>, products: map<Id, Product>)
    requires RowsKeyed(es, products)
    ensures RowsKeyed(AddLines(es, items, products), products)
    decreases |items|
  {
    if items != [] {
      var prev := AddLines(es, Init(items), products);
      AddLinesKeyed(es, Init(items), products);
      var it := Last(items);
      if it.productId in products {
        BumpKeepsDistinct(prev, it.productId, FirstRow(it, products), SoldLine(it));
        var r := Bump(prev, it.productId, FirstRow(it, products), SoldLine(it));
        var k := KeyIndex(prev, it.productId);
        assert forall i :: 0 <= i < |r| ==> r[i].key in products && r[i].value.id == r[i].key by {
          forall i | 0 <= i < |r|
            ensures r[i].key in products && r[i].value.id == r[i].key
          {
            if k < 0 && i == |prev| {
              assert r[i] == Entry(it.productId, SoldLine(it)(FirstRow(it, products)));
            } else if i == k {
              assert r[i] == Entry(it.productId, SoldLine(it)(prev[k].value));
            } else {
              assert r[i] == prev[i];
            }
          }
        }
      }
    }
  }

  lemma {:induction false} ProductStatsKeyed(orders: seq<Order>, products: map<Id, Product>)
    ensures RowsKeyed(ProductStats(orders, products), products)
    decreases |orders|
  {
    if orders != [] {
      ProductStatsKeyed(Init(orders), products);
      AddLinesKeyed(ProductStats(Init(orders), products), Last(orders).items, products);
    }
  }

  /** The top products are at most ten rows, by revenue, largest first; a
      product left out earned no more than any listed. */
  lemma TopProductsFacts(orders: seq<Order>, products: map<Id, Product>)
    ensures var r := TopProducts(orders, products);
            |r| <= 10 && Sorting.SortedDesc(r, RowRevenue) &&
            forall x :: x in r ==> x in Values(ProductStats(orders, products))
    ensures var r := TopProducts(orders, products);
            forall x :: x in Values(ProductStats(orders, products)) && x !in r ==>
              |r| == 10 && forall y :: y in r ==> y.revenue >= x.revenue
  {
    var rows := Values(ProductStats(orders, products));
    var sorted := Sorting.SortDesc(rows, RowRevenue);
    var r := Sorting.Take(sorted, 10);
    Sorting.SortDescSameElements(rows, RowRevenue);
    assert Sorting.SortedDesc(r, RowRevenue);
    forall x | x in r
      ensures x in rows
    {
      assert x in sorted;
    }
    forall x | x in rows && x !in r
      ensures |r| == 10 && forall y :: y in r ==> y.revenue >= x.revenue
    {
      Sorting.TakeKeepsLargest(sorted, RowRevenue, 10, x);
    }
  }

  /** Each listed product's figures are its own: an existing product whose
      revenue is price times quantity, and whose units the quantity, over
      all the order lines for it. So the top ten are ranked by what the
      orders say each product earned. */
  lemma TopProductsRevenue(orders: seq<Order>, products: map<Id, Product>)
    ensures forall x :: x in TopProducts(orders, products) ==>
              x.id in products && x.revenue == RevenueOfProduct(orders, x.id) && x.unitsSold == UnitsOf(orders, x.id)
  {
    var es := ProductStats(orders, products);
    ProductStatsKeyed(orders, products);
    TopProductsFacts(orders, products);
    var zero := ProductRow("", "", "", "", 0, 0);
    forall x | x in TopProducts(orders, products)
      ensures x.id in products && x.revenue == RevenueOfProduct(orders, x.id) && x.unitsSold == UnitsOf(orders, x.id)
    {
      assert x in Values(es);
      var i :| 0 <= i < |es| && Values(es)[i] == x;
      var k := KeyIndex(es, x.id);
      assert es[i].key == x.id;
      assert k == i;
      assert Get(es, x.id, zero) == x;
      ProductStatsRevenue(orders, products, x.id, zero);
      ProductStatsUnits(orders, products, x.id, zero);
    }
  }
}
