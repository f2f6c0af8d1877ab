/** The admin order routes of routes/admin.js: the status update
    `PUT /admin/orders/:id` and the search `GET /admin/orders`. */
module AdminRoutes {
  import opened Wrappers
  import opened Models
  import opened Database
  import Text
  import Sorting
  import OrderRoutes

  // --------------------------------------------------------- status update

  datatype UpdateError = StatusRequired | OrderNotFound | OrderCompleted

  function UpdateStatus(e: UpdateError): int {
    match e
    case StatusRequired => 400
    case OrderNotFound => 404
    case OrderCompleted => 400
  }

  function UpdateMessage(e: UpdateError): string {
    match e
    case StatusRequired => "Status is required"
    case OrderNotFound => "Order not found"
    case OrderCompleted => "Cannot update a completed order"
  }

  /** The statuses after which an order can no longer be updated. */
  predicate Completed(status: string) {
    status == Cancelled || status == Delivered
  }

  /** The update request as a function of the store. `status` and
      `adminReason` are `None` when the body leaves them out. */
  function AdminUpdate(s: Store, orderId: Id, status: Option<string>, adminReason: Option<string>, actor: Id, now: int)
    : (Result<Order, UpdateError>, Store)
  {
    if status.None? || status.value == "" then (Err(StatusRequired), s)
    else
      var i := FindOrder(s.orders, orderId);
      if i < 0 then (Err(OrderNotFound), s)
      else
        var o := s.orders[i];
        if Completed(o.status) then (Err(OrderCompleted), s)
        else
          var u := o.(status := status.value,
                      adminReason := if adminReason.Some? then adminReason.value else o.adminReason,
                      statusHistory := o.statusHistory + [HistoryEntry(status.value, adminReason.GetOr(""), actor, now)]);
          (Ok(u), s.(orders := s.orders[i := u]))
  }

  /** The update handler: status, then the admin's reason, then the history
      entry, on the found order, saved. */
  method AdminUpdateOrder(db: Db, orderId: Id, status: Option<string>, adminReason: Option<string>, actor: Id, now: int)
    returns (r: Result<Order, UpdateError>)
    modifies db
    ensures (r, db.Contents()) == AdminUpdate(old(db.Contents()), orderId, status, adminReason, actor, now)
  {
    if status.None? || status.value == "" {
      return Err(StatusRequired);
    }
    var i := FindOrder(db.orders, orderId);
    if i < 0 {
      return Err(OrderNotFound);
    }
    var order := db.orders[i];
    if order.status == Cancelled || order.status == Delivered {
      return Err(OrderCompleted);
    }
    order := order.(status := status.value);
    if adminReason.Some? {
      order := order.(adminReason := adminReason.value);
    }
    order := order.(statusHistory := order.statusHistory + [HistoryEntry(status.value, adminReason.GetOr(""), actor, now)]);
    db.orders := db.orders[i := order];
    return Ok(order);
  }

  /** What the update promises: a missing status is refused before the order
      is looked up, an unknown order is a 404, a completed order is refused;
      all three change nothing. Otherwise any status string is stored, one
      history entry is appended, the admin's reason replaces the old one only
      when it was sent, and the user's reason, the other orders, the users
      and the stock are left alone. */
  lemma AdminUpdateEffects(s: Store, orderId: Id, status: Option<string>, adminReason: Option<string>, actor: Id, now: int)
    ensures var (r, t) := AdminUpdate(s, orderId, status, adminReason, actor, now);
            var i := FindOrder(s.orders, orderId);
            (r.Err? ==> t == s) &&
            (r == Err(StatusRequired) <==> status.None? || status.value == "") &&
            (r == Err(OrderNotFound) <==> status.Some? && status.value != "" && i < 0) &&
            (r == Err(OrderCompleted) <==> status.Some? && status.value != "" && 0 <= i && Completed(s.orders[i].status))
    ensures var (r, t) := AdminUpdate(s, orderId, status, adminReason, actor, now);
            var i := FindOrder(s.orders, orderId);
            r.Ok? ==>
              0 <= i && !Completed(s.orders[i].status) &&
              r.value.status == status.value &&
              r.value.statusHistory == s.orders[i].statusHistory + [HistoryEntry(status.value, adminReason.GetOr(""), actor, now)] &&
              (adminReason.Some? ==> r.value.adminReason == adminReason.value) &&
              (adminReason.None? ==> r.value.adminReason == s.orders[i].adminReason) &&
              r.value.userReason == s.orders[i].userReason &&
              r.value.items == s.orders[i].items && r.value.totalAmount == s.orders[i].totalAmount &&
              r.value.userId == s.orders[i].userId && r.value.id == orderId &&
              |t.orders| == |s.orders| && t.orders[i] == r.value &&
              (forall k :: 0 <= k < |s.orders| && k != i ==> t.orders[k] == s.orders[k]) &&
              t.products == s.products && t.users == s.users
  {
  }

  /** A `Cancelled` or `Delivered` order is never changed by an update. */
  lemma CompletedOrdersAreFrozen(s: Store, orderId: Id, status: Option<string>, adminReason: Option<string>, actor: Id, now: int)
    requires 0 <= FindOrder(s.orders, orderId) && Completed(s.orders[FindOrder(s.orders, orderId)].status)
    ensures AdminUpdate(s, orderId, status, adminReason, actor, now).1 == s
    ensures AdminUpdate(s, orderId, status, adminReason, actor, now).0.Err?
  {
  }

  /** There is no transition table: a shipped order can be cancelled by an
      admin, though the shopper's cancel refuses it, and no stock comes back;
      afterwards the shopper's cancel refuses it as well. */
  lemma AdminCancelsShippedWithoutRestock(s: Store, orderId: Id, actor: Id, now: int, shopper: OrderRoutes.Actor, reason: Option<string>)
    requires 0 <= FindOrder(s.orders, orderId) && s.orders[FindOrder(s.orders, orderId)].status == Shipped
    ensures OrderRoutes.Cancel(s, orderId, shopper, reason, now).0.Err?
    ensures var (r, t) := AdminUpdate(s, orderId, Some(Cancelled), None, actor, now);
            r.Ok? && r.value.status == Cancelled && t.products == s.products &&
            OrderRoutes.Cancel(t, orderId, shopper, reason, now).0.Err?
  {
    var (r, t) := AdminUpdate(s, orderId, Some(Cancelled), None, actor, now);
    var i := FindOrder(s.orders, orderId);
    assert t.orders[i].id == orderId;
    forall k | 0 <= k < i
      ensures t.orders[k].id != orderId
    {
      assert t.orders[k] == s.orders[k];
    }
    assert FindOrder(t.orders, orderId) == i;
  }

  /** An order can be moved back to `Placed`, and from there the shopper may
      cancel it again, though its stock may have been restored already. */
  lemma AdminMayReopen(s: Store, orderId: Id, actor: Id, now: int)
    requires 0 <= FindOrder(s.orders, orderId) && s.orders[FindOrder(s.orders, orderId)].status == Shipped
    ensures var (r, t) := AdminUpdate(s, orderId, Some(Placed), None, actor, now);
            r.Ok? && r.value.status == Placed && OrderRoutes.Cancellable(r.value.status)
  {
  }

  // ---------------------------------------------------------------- search

  /** The query-string filters; an absent one is "" (or `None` for dates,
      given as timestamps). */
  datatype SearchFilters = SearchFilters(status: string, q: string, from: Option<int>, to: Option<int>)

  /** The MongoDB query built from the filters. `idOrUser` is the `$or` of an
      order-id match and a user-id match. */
  datatype OrderQuery = OrderQuery(status: Option<string>, from: Option<int>, to: Option<int>,
                                   userId: Option<Id>, idOrUser: Option<Id>)

  /** The case-insensitive, anchored email lookup. */
  predicate EmailMatches(email: string, text: string) {
    Text.ToLower(email) == Text.ToLower(text)
  }

  /** Two ObjectId texts name the same ObjectId when they agree up to the
      case of their hex digits. */
  predicate SameObjectId(a: Id, b: Id) {
    Text.ToLower(a) == Text.ToLower(b)
  }

  predicate IsEmailSearch(q: string) {
    q != "" && '@' in Text.Trim(q)
  }

  predicate IsIdSearch(q: string) {
    q != "" && '@' !in Text.Trim(q) && Text.IsObjectIdText(Text.Trim(q))
  }

  /** A non-empty q that is neither: the partial filter applies. */
  predicate IsPartialSearch(q: string) {
    q != "" && '@' !in Text.Trim(q) && !Text.IsObjectIdText(Text.Trim(q))
  }

  /** The partial filter of routes/admin.js:63-68 with the trimmed q: the order
      id starts with it, or the shipping name or some item name contains it,
      all compared in lower case. */
  predicate PartialMatch(o: Order, t: string) {
    var needle := Text.ToLower(t);
    || Text.StartsWith(Text.ToLower(o.id), needle)
    || Text.Contains(Text.ToLower(o.shippingAddress.name), needle)
    || exists k :: 0 <= k < |o.items| && Text.Contains(Text.ToLower(o.items[k].name), needle)
  }

  /** Whether the database query selects an order. */
  predicate Matches(query: OrderQuery, o: Order) {
    && (query.status.Some? ==> o.status == query.status.value)
    && (query.from.Some? ==> o.createdAt >= query.from.value)
    && (query.to.Some? ==> o.createdAt <= query.to.value)
    && (query.userId.Some? ==> o.userId == query.userId.value)
    && (query.idOrUser.Some? ==> SameObjectId(o.id, query.idOrUser.value) || SameObjectId(o.userId, query.idOrUser.value))
  }

  /** The status and date filters alone. */
  predicate BaseMatch(f: SearchFilters, o: Order) {
    && (f.status != "" ==> o.status == f.status)
    && (f.from.Some? ==> o.createdAt >= f.from.value)
    && (f.to.Some? ==> o.createdAt <= f.to.value)
  }

  /** What the email lookup and the ObjectId test leave in the query. */
  predicate QueryFor(users: map<Id, User>, f: SearchFilters, query: OrderQuery) {
    && query.status == (if f.status != "" then Some(f.status) else None)
    && query.from == f.from && query.to == f.to
    && (!IsEmailSearch(f.q) ==> query.userId == None)
    && (IsEmailSearch(f.q) && query.userId.Some? ==>
          query.userId.value in users && EmailMatches(users[query.userId.value].email, Text.Trim(f.q)))
    && (IsEmailSearch(f.q) && query.userId.None? ==>
          forall u :: u in users ==> !EmailMatches(users[u].email, Text.Trim(f.q)))
    && query.idOrUser == (if IsIdSearch(f.q) then Some(Text.Trim(f.q)) else None)
  }

  /** The user lookup of routes/admin.js:31-36: some user whose email
      matches, if there is one. */
  method FindByEmail(users: map<Id, User>, email: string) returns (found: Option<Id>)
    ensures found.Some? ==> found.value in users && EmailMatches(users[found.value].email, email)
    ensures found.None? ==> forall u :: u in users ==> !EmailMatches(users[u].email, email)
  {
    found := None;
    if exists u :: u in users && EmailMatches(users[u].email, email) {
      var u :| u in users && EmailMatches(users[u].email, email);
      found := Some(u);
    }
  }

  /** Builds the query field by field, as routes/admin.js:17-46 does; the email
      lookup returns some user whose email matches, if there is one. */
  method BuildQuery(db: Db, f: SearchFilters) returns (query: OrderQuery)
    ensures QueryFor(db.users, f, query)
  {
    query := OrderQuery(None, None, None, None, None);
    if f.status != "" {
      query := query.(status := Some(f.status));
    }
    if f.from.Some? || f.to.Some? {
      if f.from.Some? {
        query := query.(from := f.from);
      }
      if f.to.Some? {
        query := query.(to := f.to);
      }
    }
    if f.q != "" {
      var trimmed := Text.Trim(f.q);
      if '@' in trimmed {
        var found := FindByEmail(db.users, trimmed);
        if found.Some? {
          query := query.(userId := found);
        }
      } else if Text.IsObjectIdText(trimmed) {
        query := query.(idOrUser := Some(trimmed));
      }
    }
  }

  function CreatedAt(o: Order): int { o.createdAt }

  /** The orders the query selects, newest first, then the partial filter
      when q is neither an email nor an ObjectId. */
  function SearchResult(orders: seq<Order>, f: SearchFilters, query: OrderQuery): (r: seq<Order>)
    ensures Sorting.SortedDesc(r, CreatedAt)
    ensures forall o :: o in r <==> o in orders && Matches(query, o) &&
                                    (IsPartialSearch(f.q) ==> PartialMatch(o, Text.Trim(f.q)))
  {
    var selected := Sorting.Filter(orders, o => Matches(query, o));
    var sorted := Sorting.SortDesc(selected, CreatedAt);
    Sorting.SortDescSameElements(selected, CreatedAt);
    if IsPartialSearch(f.q) then
      var t := Text.Trim(f.q);
      Sorting.FilterKeepsSorted(sorted, o => PartialMatch(o, t), CreatedAt);
      Sorting.Filter(sorted, o => PartialMatch(o, t))
    else sorted
  }

  /** What the search answers, by the kind of q. */
  ghost predicate SearchAnswer(users: map<Id, User>, orders: seq<Order>, f: SearchFilters, r: seq<Order>) {
    && Sorting.SortedDesc(r, CreatedAt)
    && (f.q == "" ==> forall o :: o in r <==> o in orders && BaseMatch(f, o))
    && (IsPartialSearch(f.q) ==>
          forall o :: o in r <==> o in orders && BaseMatch(f, o) && PartialMatch(o, Text.Trim(f.q)))
    && (IsIdSearch(f.q) ==>
          forall o :: o in r <==> (o in orders && BaseMatch(f, o) &&
                                  (SameObjectId(o.id, Text.Trim(f.q)) || SameObjectId(o.userId, Text.Trim(f.q)))))
    && (IsEmailSearch(f.q) && (forall u :: u in users ==> !EmailMatches(users[u].email, Text.Trim(f.q))) ==>
          forall o :: o in r <==> o in orders && BaseMatch(f, o))
    && (IsEmailSearch(f.q) && (exists u :: u in users && EmailMatches(users[u].email, Text.Trim(f.q))) ==>
          exists u :: u in users && EmailMatches(users[u].email, Text.Trim(f.q)) &&
                      forall o :: o in r <==> o in orders && BaseMatch(f, o) && o.userId == u)
  }

  /** How the built query selects an order, by the kind of q. */
  lemma MatchesByKind(users: map<Id, User>, f: SearchFilters, query: OrderQuery, o: Order)
    requires QueryFor(users, f, query)
    ensures !IsEmailSearch(f.q) && !IsIdSearch(f.q) ==> (Matches(query, o) <==> BaseMatch(f, o))
    ensures IsIdSearch(f.q) ==>
              (Matches(query, o) <==> BaseMatch(f, o) &&
                                      (SameObjectId(o.id, Text.Trim(f.q)) || SameObjectId(o.userId, Text.Trim(f.q))))
    ensures IsEmailSearch(f.q) && query.userId.None? ==> (Matches(query, o) <==> BaseMatch(f, o))
    ensures IsEmailSearch(f.q) && query.userId.Some? ==> (Matches(query, o) <==> BaseMatch(f, o) && o.userId == query.userId.value)
  {
  }

  /** With q neither an email nor an ObjectId, the status and date filters
      and, for a non-empty q, the partial filter decide. */
  lemma PlainAnswer(users: map<Id, User>, orders: seq<Order>, f: SearchFilters, query: OrderQuery)
    requires QueryFor(users, f, query) && !IsEmailSearch(f.q) && !IsIdSearch(f.q)
    ensures forall o :: o in SearchResult(orders, f, query) <==>
                        o in orders && BaseMatch(f, o) && (IsPartialSearch(f.q) ==> PartialMatch(o, Text.Trim(f.q)))
  {
    forall o
      ensures Matches(query, o) <==> BaseMatch(f, o)
    {
      MatchesByKind(users, f, query, o);
    }
  }

  /** An ObjectId q selects the orders with that id or that customer. */
  lemma IdAnswer(users: map<Id, User>, orders: seq<Order>, f: SearchFilters, query: OrderQuery)
    requires QueryFor(users, f, query) && IsIdSearch(f.q)
    ensures forall o :: o in SearchResult(orders, f, query) <==>
                        (o in orders && BaseMatch(f, o) &&
                         (SameObjectId(o.id, Text.Trim(f.q)) || SameObjectId(o.userId, Text.Trim(f.q))))
  {
    forall o
      ensures Matches(query, o) <==> BaseMatch(f, o) &&
                                     (SameObjectId(o.id, Text.Trim(f.q)) || SameObjectId(o.userId, Text.Trim(f.q)))
    {
      MatchesByKind(users, f, query, o);
    }
  }

  /** An email q selects the orders of the user found, or, when none is
      found, only the status and date filters apply. */
  lemma EmailAnswer(users: map<Id, User>, orders: seq<Order>, f: SearchFilters, query: OrderQuery)
    requires QueryFor(users, f, query) && IsEmailSearch(f.q)
    ensures query.userId.None? ==> forall o :: o in SearchResult(orders, f, query) <==> o in orders && BaseMatch(f, o)
    ensures query.userId.Some? ==>
              forall o :: o in SearchResult(orders, f, query) <==> o in orders && BaseMatch(f, o) && o.userId == query.userId.value
  {
    forall o
      ensures query.userId.None? ==> (Matches(query, o) <==> BaseMatch(f, o))
      ensures query.userId.Some? ==> (Matches(query, o) <==> BaseMatch(f, o) && o.userId == query.userId.value)
    {
      MatchesByKind(users, f, query, o);
    }
  }

  lemma SearchResultAnswers(users: map<Id, User>, orders: seq<Order>, f: SearchFilters, query: OrderQuery)
    requires QueryFor(users, f, query)
    ensures SearchAnswer(users, orders, f, SearchResult(orders, f, query))
  {
    if IsEmailSearch(f.q) {
      EmailAnswer(users, orders, f, query);
      if query.userId.Some? {
        var u := query.userId.value;
        assert u in users && EmailMatches(users[u].email, Text.Trim(f.q));
      }
    } else if IsIdSearch(f.q) {
      IdAnswer(users, orders, f, query);
    } else {
      PlainAnswer(users, orders, f, query);
    }
  }

  /** `GET /admin/orders`. */
  method SearchOrders(db: Db, f: SearchFilters) returns (r: seq<Order>)
    ensures SearchAnswer(db.users, db.orders, f, r)
  {
    var query := BuildQuery(db, f);
    r := SearchResult(db.orders, f, query);
    SearchResultAnswers(db.users, db.orders, f, query);
  }

  /** A q of only white space is truthy but trims to "", and every order
      passes the partial filter with "": such a search filters nothing. */
  lemma BlankSearchKeepsEveryOrder(q: string, o: Order)
    requires q != "" && Text.AllSpace(q)
    ensures IsPartialSearch(q)
    ensures PartialMatch(o, Text.Trim(q))
  {
    assert Text.Trim(q) == [];
    assert Text.ToLower([]) == [];
  }
}
