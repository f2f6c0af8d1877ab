/** The three MongoDB collections the routes work on: products and users by
    id, and orders in insertion order. A request reads and writes them
    through a `Db` object; a `Store` is their value at one moment. */
module Database {
  import opened Models

  datatype Store = Store(products: map<Id, Product>, users: map<Id, User>, orders: seq<Order>)

  /** `_id` is unique in the orders collection. */
  predicate DistinctOrderIds(orders: seq<Order>) {
    forall i, j :: 0 <= i < j < |orders| ==> orders[i].id != orders[j].id
  }

  /** The unique index on `email` (models/User.js). */
  predicate UniqueEmails(users: map<Id, User>) {
    forall a, b :: a in users && b in users && users[a].email == users[b].email ==> a == b
  }

  predicate Valid(s: Store) {
    DistinctOrderIds(s.orders) && UniqueEmails(s.users)
  }

  /** `Order.findById(id)`: the index of the first order with that id, or -1. */
  function FindOrder(orders: seq<Order>, id: Id): (i: int)
    ensures -1 <= i < |orders|
    ensures 0 <= i ==> orders[i].id == id && forall j :: 0 <= j < i ==> orders[j].id != id
    ensures i == -1 <==> forall j :: 0 <= j < |orders| ==> orders[j].id != id
    decreases |orders|
  {
    if orders == [] then -1
    else if orders[0].id == id then 0
    else
      var k := FindOrder(orders[1..], id);
      if k < 0 then -1 else k + 1
  }

  /** The database a request works on. */
  class Db {
    var products: map<Id, Product>
    var users: map<Id, User>
    var orders: seq<Order>

    function Contents(): Store
      reads this
    {
      Store(products, users, orders)
    }

    constructor (s: Store)
      ensures Contents() == s
    {
      products := s.products;
      users := s.users;
      orders := s.orders;
    }
  }
}
