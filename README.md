# Swaad Sagar storefront core, modelled in Dafny

Swaad Sagar is a small online snack shop: an Express API over MongoDB and
a Next.js front end. This project models the parts of it that hold the
shop's rules:

- the order engine: placing an order from the cart, listing a shopper's
  orders and cancelling an order. It includes the older, unmounted copy of
  placement and listing in `middleware/orders.js`.
- the admin routes: the status update, the order search and the analytics
  roll-ups.
- the cart routes. `routes/cart.js` and the unmounted copy in
  `middleware/cart.js` have the same handlers, so one model covers both.
- the three Mongoose schemas.
- the auth routes:
  - registration, login and the profile;
  - the password-reset token lifecycle.
- the client-side rules of six screens:
  - the cart page;
  - the shopper's orders page;
  - the admin orders page;
  - the admin products page;
  - the address autocomplete field;
  - the reset-password page.

The model is split into modules:

| module | what it holds |
|---|---|
| `Models` | the schemas and their defaults |
| `Database` | a `Db` object holding the three collections, `products`, `users` and `orders` |
| `CartRoutes`, `OrderRoutes`, `AdminRoutes`, `Analytics`, `AuthRoutes` | the route files |
| `Invariants` | a stock invariant across all the state-changing routes |
| `WebCart`, `OrdersPage`, `AdminOrdersPage`, `AdminProductsPage`, `AddressAutocomplete`, `ResetPasswordPage` | one module per screen |
| `CancelReasons` | the cancel-reason form that two screens share |
| `Text`, `Sorting`, `Wrappers` | the JavaScript string and array built-ins the code uses, and `Option`/`Result` |

How the routes are modelled:

- Each route that changes the database is a method on `Db`. Its
  postcondition says the method equals a pure function on the store value,
  for example
  `(r, db.Contents()) == Place(old(db.Contents()), …)`.
- The transaction is modelled as "work on local copies, assign them to the
  database on commit". So "a failed request changes nothing" is a lemma
  about that pure function, and so are the other promises of each route.
- Loops that build up values, such as the analytics passes and the query
  builder, are methods proved equal to folds.
- Each screen is a class. Its fields are the component's state. It records
  the requests it sent (`sent`) and the alerts it raised (`alerts`). The
  outcome of each request is a parameter.

Behaviours of the code worth knowing:

- **Placement with a deleted product.** A cart line whose product was
  deleted does not answer "Not enough stock". Its populated `productId` is
  null, so reading `._id` throws, and the route answers 500
  (routes/orders.js:42, 70-75).
- **The user's reason on cancel.** A cancel stores `userReason` whenever a
  reason is given, also when an admin makes the request
  (routes/orders.js:140).
- **Which statuses a cancel refuses.** Cancel refuses only `Shipped`,
  `Delivered` and `Cancelled`. Any other status string an admin stored can
  still be cancelled (routes/orders.js:116-120).
- **The password-length rule.** The six-character rule exists only on the
  reset page (web/pages/reset-password.js:33-37). The reset route takes any
  password (routes/auth.js:123-147).
- **A cart line whose product was deleted is stuck.** The cart page's
  buttons pass `product._id || item.productId`, and for such a line both are
  missing (web/pages/cart.js:126, 155, 169, 178). The request goes to
  `/cart/null`. The DELETE matches no line and answers success
  (routes/cart.js:36-38). The PUT answers 404 "Item not found"
  (routes/cart.js:27-28). The line cannot be ordered either (see
  above).

## Model

| member | source | states |
|---|---|---|
| Models.CreateProduct | models/Product.js:3-12 | a product needs a non-empty name, else `Required("name")`; every other field is the value supplied or its default ('' description, price 0, stock 0, unit 'gm', quantityValue 0, '' image, category 'General', no keywords) |
| Models.SchemaAllowsNegativeStock | models/Product.js:7 | the schema accepts a product with stock -3: stock has no lower bound |
| Models.NewCartItem | models/User.js:3-6 | a cart line keeps its product; its quantity defaults to 1, and a given quantity is stored unchecked |
| Models.NewUser | models/User.js:8-25 | creation fails exactly when email or password hash is empty; a new user has '' name and contact, is not an admin, has no saved address, has an empty cart, has no reset token or expiry, and is stamped with the current time |
| Models.NewHistoryEntry | models/Order.js:27-34 | a history entry has exactly status, reason and updatedBy; `updatedAt` defaults to now |
| Models.NewOrder | models/Order.js:10-36 | a new order's status defaults to `Placed`; `userReason` and `adminReason` are separate and both ''; the history starts empty; `createdAt` is now |
| Database.FindOrder | routes/orders.js:105 | `findById`: the position of the first order with that id, and -1 exactly when no order has it |
| CartRoutes.FindLine | routes/cart.js:27 | the first cart line for the product, and -1 exactly when there is none |
| CartRoutes.Populate | routes/cart.js:7 | one entry per cart line, in order; each has its product when that product exists and none otherwise |
| CartRoutes.GetCart | routes/cart.js:6-9 | fails exactly when the user is gone; otherwise gives the user's cart lines in order, each with its product or none; the unmounted copy at middleware/cart.js:7-10 is the same handler |
| CartRoutes.AddToCart | routes/cart.js:11-22 | a missing user changes nothing; otherwise the user's cart becomes the cart with the add applied, quantity default 1, and is returned; no other user, product or order changes; the unmounted copy at middleware/cart.js:13-24 is the same handler |
| CartRoutes.UpdateQuantity | routes/cart.js:24-32 | a missing user changes nothing; otherwise the answer is `PutLine` on the caller's cart: a 404 or a rejected save changes nothing, and success changes only that user's cart, to the cart with the one line updated; the unmounted copy at middleware/cart.js:27-35 is the same handler |
| CartRoutes.PutLine | routes/cart.js:25-30 | 404 exactly when no line has the product; otherwise the save is rejected exactly when the body has no number quantity, since the required quantity is then unset (models/User.js:5); with a quantity the result is the one-line update |
| CartRoutes.RemoveFromCart | routes/cart.js:34-39 | for an existing user it always succeeds; the cart becomes the lines for other products, and nothing else changes; the unmounted copy at middleware/cart.js:38-43 is the same handler |
| CartRoutes.RemoveLines | routes/cart.js:36 | the filtered cart is never longer than the cart; what it keeps is stated by the lemmas below |
| CartRoutes.AddLineDemand | routes/cart.js:14-19 | adding asks for exactly `quantity` more of that product and changes no other product's demand, whether it increments a line or appends one |
| CartRoutes.AddLineShape | routes/cart.js:14-19 | with a line for the product, only that line changes and it gains the quantity; without one, exactly one line is appended |
| CartRoutes.AddLineKeepsLinesUnique | routes/cart.js:17-19 | adding never creates a second line for a product |
| CartRoutes.SetLineEffects | routes/cart.js:27-29 | 404 exactly when no line has the product; otherwise the length stays, the first line for the product takes the new quantity, whatever it is, and every other line is unchanged |
| CartRoutes.SetLineDemand | routes/cart.js:29 | with one line per product, the update makes that product's demand the new quantity and leaves every other product's demand alone |
| CartRoutes.RemoveLinesKeepsOthers | routes/cart.js:36 | no line for the product is left, and a line survives exactly when it is in the cart and is for another product |
| CartRoutes.RemoveLinesAppend | routes/cart.js:36 | removing works part by part, so the remaining lines keep their order |
| CartRoutes.RemoveLinesAbsent | routes/cart.js:36-38 | removing a product that has no line leaves the cart as it was, and the request still succeeds |
| CartRoutes.RemoveLinesDemand | routes/cart.js:36 | after removing, that product's demand is 0 and every other product's demand is unchanged |
| OrderRoutes.ReserveErrorKinds | routes/orders.js:41-47 | the placement loop fails only because a product is missing or short of stock |
| OrderRoutes.PlaceOrder | routes/orders.js:9-76 | the handler's answer and the database afterwards are those of the placement function on the database before it |
| OrderRoutes.ReserveOkIff | routes/orders.js:41-47 | the loop succeeds exactly when every line's product exists and has at least the line's quantity left after the earlier lines took theirs |
| OrderRoutes.ReserveFailsAtFirstShortLine | routes/orders.js:42-46 | the first line that does not fit decides the answer: a server error for a missing product, otherwise "Not enough stock" naming that product |
| OrderRoutes.ReserveStock | routes/orders.js:48 | the set of products is unchanged and each product loses exactly the total its cart lines ask for; nothing but stock changes |
| OrderRoutes.ReserveLeavesNoNegativeStock | routes/orders.js:43-48 | every product the cart touches ends with stock ≥ 0; an untouched product keeps its record |
| OrderRoutes.ReserveItems | routes/orders.js:50 | one item per cart line, in cart order, each a snapshot of the product id, the product's current name and price, and the line's quantity |
| OrderRoutes.ReserveTotal | routes/orders.js:51 | the total is the sum of price × quantity over the snapshots |
| OrderRoutes.ReserveItemDemand | routes/orders.js:50 | the snapshots ask for each product exactly what the cart asked for it |
| OrderRoutes.PlaceEffects | routes/orders.js:13-66 | any failure leaves the store unchanged; 401 exactly without a user id; "Cart empty" exactly for a missing user or an empty cart; a success appends exactly one `Placed` order with no history and no reasons, whose items are the cart's snapshots and whose amount is their sum, takes each product's demand out of its stock and empties that cart |
| OrderRoutes.PlaceSucceedsIff | routes/orders.js:41-47 | for a user with a non-empty cart, placement succeeds exactly when every line fits the stock left for it |
| OrderRoutes.PlaceNotEnoughStock | routes/orders.js:43-46 | when the first line that does not fit has an existing product, the answer is 400 "Not enough stock" with that product's name, and nothing changes |
| OrderRoutes.PlaceKeepsStockNonNegative | routes/orders.js:43-49 | if every product starts with stock ≥ 0, every product has stock ≥ 0 after any placement |
| OrderRoutes.PlaceKeepsValid | routes/orders.js:55-61 | given a fresh order id, placement keeps order ids distinct and emails unique |
| OrderRoutes.OrdersOf | routes/orders.js:84 | an order is listed exactly when it is in the collection and belongs to the user |
| OrderRoutes.MyOrders | routes/orders.js:78-92 | the user's orders and no others, each as often as in the collection, newest first; the unmounted copy at middleware/orders.js:71-74 runs the same query and sort |
| OrderRoutes.CancelOrder | routes/orders.js:95-151 | the handler's answer and the database afterwards are those of the cancel function on the database before it |
| OrderRoutes.RestoreStock | routes/orders.js:123-134 | the restore loop keeps the set of products, gives each existing product back exactly the quantity the items hold of it, and skips missing products |
| OrderRoutes.CancelEffects | routes/orders.js:105-140 | 404 exactly for an unknown id, 403 exactly for a user who is neither the owner nor an admin, 400 exactly for `Shipped`, `Delivered` or `Cancelled`, and all three change nothing; a success changes only that order and the stock of existing products: one history entry (the reason, or 'Cancelled by user', by the actor), status `Cancelled`, `userReason` replaced only when a non-empty reason was given, and every other field and order kept |
| OrderRoutes.RestoreUndoesReserve | routes/orders.js:123-134 | restoring a reservation's items to the catalog it left gives back the catalog it started from |
| OrderRoutes.PlaceThenCancelRestoresStock | routes/orders.js:41-134 | placing an order and then cancelling it as its owner succeeds and leaves every product with the stock it had before |
| OrderRoutes.LegacyPlaceOrder | middleware/orders.js:10-68 | the older handler's answer and database afterwards are those of the older placement function |
| OrderRoutes.LegacyAgreesWithPlace | middleware/orders.js:12-22 | the older copy never answers 401, and for a request with a user id it agrees with the mounted route in answer and effect |
| AdminRoutes.AdminUpdateOrder | routes/admin.js:107-142 | the handler's answer and the database afterwards are those of the update function on the database before it |
| AdminRoutes.AdminUpdateEffects | routes/admin.js:111-135 | every refusal changes nothing; 400 exactly for a missing or empty status, 404 exactly for an unknown order, 400 exactly for a `Cancelled` or `Delivered` order. Otherwise: any status string is stored; exactly one history entry (status, the reason or '', the admin) is appended; `adminReason` is replaced only when sent; `userReason`, items, amount and owner stay; no other order, user or product changes |
| AdminRoutes.CompletedOrdersAreFrozen | routes/admin.js:116-118 | a `Cancelled` or `Delivered` order is refused and the store is unchanged, whatever the request |
| AdminRoutes.AdminCancelsShippedWithoutRestock | routes/admin.js:120-135 | a `Shipped` order, which the shopper's cancel refuses, is set to `Cancelled` by an admin without restoring any stock, and the shopper's cancel still refuses it afterwards |
| AdminRoutes.AdminMayReopen | routes/admin.js:121 | there is no transition table: a `Shipped` order can be moved back to `Placed`, and the shopper's cancel then accepts that status |
| AdminRoutes.FindByEmail | routes/admin.js:31-36 | the lookup finds a user whose email matches the text ignoring case, and finds none only when no user's email matches |
| AdminRoutes.BuildQuery | routes/admin.js:17-46 | the status and date filters are copied when set; an email q adds the found user's id, or nothing when no user matches; a 24-hex q adds an id-or-owner match; any other q adds nothing |
| AdminRoutes.SearchResult | routes/admin.js:51-69 | the result is newest first, and an order is in it exactly when it is in the collection, matches the query, and, for a q that is neither an email nor an ObjectId, passes the partial filter |
| AdminRoutes.MatchesByKind | routes/admin.js:17-46 | how the built query picks orders for each kind of q: by status and dates only, plus the id-or-owner match, plus the found user |
| AdminRoutes.PlainAnswer | routes/admin.js:59-69 | for a q that is neither an email nor an ObjectId, an order is found exactly when it passes the status and date filters and, for a non-empty q, its id starts with q or its shipping name or an item name contains q, ignoring case |
| AdminRoutes.IdAnswer | routes/admin.js:38-45 | a 24-hex q finds exactly the filtered orders whose id, or whose owner's id, is that ObjectId |
| AdminRoutes.EmailAnswer | routes/admin.js:31-37 | an email q finds exactly the filtered orders of the user found, and, when no user matches, every filtered order |
| AdminRoutes.SearchResultAnswers | routes/admin.js:15-80 | for a query built from the filters, the result is newest first and holds exactly the filtered orders that the kind of q admits: all of them for no q, prefix or substring matches for a plain q, the id-or-owner matches for an ObjectId, and the found user's orders, or all when no user matches, for an email |
| AdminRoutes.SearchOrders | routes/admin.js:15-85 | `GET /admin/orders`, from building the query to the partial filter, gives the answer just described for every kind of q |
| AdminRoutes.BlankSearchKeepsEveryOrder | routes/admin.js:59-68 | a q of only white space counts as a partial search, but trims to '' and so filters nothing out |
| Analytics.BumpGet | routes/admin.js:245 | updating one key of a result dictionary changes that key's value by one step and no other value, and adds at most that key |
| Analytics.BumpKeepsDistinct | routes/admin.js:245 | a result dictionary never holds a key twice |
| Analytics.AverageOrderValue | routes/admin.js:153 | the average is 0 without orders, and otherwise revenue over the number of orders, as a fraction with a positive denominator |
| Analytics.Customers | routes/admin.js:152 | the distinct customers are exactly the existing users with at least one order, and there are no more of them than orders |
| Analytics.CountStatuses | routes/admin.js:242-246 | the counting loop computes the status distribution |
| Analytics.StatusCountsFacts | routes/admin.js:242-251 | each status appears once; its count is the number of orders with that status, a missing status counting as `Placed`; the counts sum to the number of orders |
| Analytics.TallyCustomers | routes/admin.js:156-170 | the per-customer loop computes the customer table |
| Analytics.CustomerStatsFacts | routes/admin.js:156-170 | an existing user has an entry exactly when they placed an order; the entry's order count and amount spent are their number of orders and the sum of their orders' amounts |
| Analytics.CustomerLastOrder | routes/admin.js:179 | for a user with orders, the entry's latest time is the `createdAt` of one of their orders and no order of theirs is later |
| Analytics.CustomerStatsKeyed | routes/admin.js:157-166 | each customer entry is keyed once, by an existing user, and carries that user's name and email |
| Analytics.RepeatRows | routes/admin.js:172-180 | a row is listed exactly when some customer with more than one order has it |
| Analytics.RepeatCustomersFacts | routes/admin.js:172-182 | at most ten repeat customers, each with more than one order, largest spenders first; a repeat customer left out spent no more than anyone listed, and ten are listed |
| Analytics.RepeatCustomersOfOrders | routes/admin.js:156-182 | each row is an existing user's: their name and email, their number of orders (more than one), the sum of their orders' amounts, and as `lastOrder` the latest `createdAt` of their orders |
| Analytics.OrderCategories | routes/admin.js:204 | an order's categories: each category of its items exactly once, with 'Uncategorized' for a missing product |
| Analytics.SellOne | routes/admin.js:187-198 | one item adds its revenue and quantity to its category's entry, creating the entry when needed |
| Analytics.SellItems | routes/admin.js:187-199 | the loop over one order's items computes its sales fold |
| Analytics.CountOrderIn | routes/admin.js:205-209 | the loop over one order's categories computes its count fold |
| Analytics.SalesPass | routes/admin.js:185-200 | the first pass computes revenue and items sold per category |
| Analytics.CountPass | routes/admin.js:203-210 | the second pass computes the order counts |
| Analytics.TallyCategories | routes/admin.js:185-210 | the two passes together compute the category table |
| Analytics.AddItemsRevenue | routes/admin.js:197 | selling some items adds exactly their revenue in a category to that category's entry |
| Analytics.AddItemsKeys | routes/admin.js:188-196 | after selling some items, a category has an entry exactly when it had one or one of the items is in it |
| Analytics.AddItemsNoCounts | routes/admin.js:193 | the sales pass never touches an order count |
| Analytics.CategorySalesFacts | routes/admin.js:185-200 | after the first pass, a category's revenue is the revenue of its items over all orders; it has an entry exactly when some order has an item in it; every order count is still 0 |
| Analytics.CountOrderFacts | routes/admin.js:204-209 | counting one order's distinct categories adds one to each and leaves the keys and revenues alone |
| Analytics.CountOrdersFacts | routes/admin.js:203-210 | the second pass adds to each category's count the number of orders with an item in it, keeping keys and revenue |
| Analytics.CategoryStatsFacts | routes/admin.js:185-210 | a category's order count is the number of orders with an item in it, counting each order once, so it is at most the number of orders; its revenue is its items' revenue |
| Analytics.OrdersInAtMost | routes/admin.js:203-210 | no category is counted in more orders than exist |
| Analytics.SellLines | routes/admin.js:218-234 | the loop over one order's items computes its product fold, skipping items whose product is gone |
| Analytics.TallyProducts | routes/admin.js:216-235 | the loop over all orders computes the product table |
| Analytics.AddLinesUnits | routes/admin.js:231 | selling some items adds exactly their quantity of a product to its units sold |
| Analytics.ProductStatsUnits | routes/admin.js:216-235 | an existing product's units sold is the quantity of it over all orders' items |
| Analytics.AddLinesRevenue | routes/admin.js:218-233 | one order's lines raise an existing product's revenue by exactly price times quantity over its lines in that order |
| Analytics.ProductStatsRevenue | routes/admin.js:216-235 | an existing product's revenue is price times quantity summed over all orders' lines for it (`RevenueOfProduct`) |
| Analytics.ProductStatsKeyed | routes/admin.js:219-229 | the product table has one row per key; each key is an existing product and the row's `id` is that key |
| Analytics.TopProductsFacts | routes/admin.js:237-239 | at most ten product rows, each one of the product table's rows, by revenue largest first; a product left out earned no more than any listed, and ten are listed |
| Analytics.TopProductsRevenue | routes/admin.js:216-239 | every listed row is an existing product whose revenue is `RevenueOfProduct` and whose units are `UnitsOf` over all orders, so the ranking is by what the orders say each product earned |
| AuthRoutes.WithEmail | routes/auth.js:15 | `findOne({ email })` looks among exactly the users whose email is that text |
| AuthRoutes.WithEmailAtMostOne | models/User.js:9 | under the unique index, a user found by email is the only one |
| AuthRoutes.Register | routes/auth.js:12-25 | 400 exactly when the email is in use; a failure changes nothing; products and orders never change |
| AuthRoutes.RegisterUser | routes/auth.js:12-25 | the handler's answer and the database afterwards are those of the register function |
| AuthRoutes.RegisterEffects | routes/auth.js:15-20 | registering succeeds exactly when the email is unused and the email and hash are non-empty; it adds one non-admin user with that email, the password's hash and an empty cart, changes no other user, and returns a token signed for the new id with the public fields |
| AuthRoutes.RegisterKeepsValid | models/User.js:9 | given a fresh id, registration keeps emails unique |
| AuthRoutes.Login | routes/auth.js:28-40 | login succeeds exactly when a user with that email has a hash the password verifies against, and then answers with that user's session; every failure is "Invalid credentials" |
| AuthRoutes.LoginFailuresLookAlike | routes/auth.js:31-34 | a wrong password gets the same answer as an email no account has |
| AuthRoutes.RegisterThenLogin | routes/auth.js:15-36 | after registering, the same email and password log in as the new user |
| AuthRoutes.ProfileOf | routes/auth.js:45 | the profile has every field of the user except the password hash, the saved address included |
| AuthRoutes.Me | routes/auth.js:44-47 | the caller's profile when the user exists, and null otherwise |
| AuthRoutes.UpdateProfile | routes/auth.js:50-63 | the answer is the caller's profile after the update, with a key the body leaves out kept as stored; products, orders and the set of users do not change |
| AuthRoutes.UpdateMe | routes/auth.js:50-63 | the handler's answer and the database afterwards are those of the update function |
| AuthRoutes.UpdateProfileOnlyNameAndContact | routes/auth.js:51-57 | only the caller's name and contact change: each to the value sent, or kept when the body leaves it out; every other field and user stays; emails stay unique |
| AuthRoutes.Hex | routes/auth.js:76 | hex text has two characters per byte |
| AuthRoutes.HexUsesDigits | routes/auth.js:76 | every character of hex text is a lower-case hex digit |
| AuthRoutes.UnhexHex | routes/auth.js:76 | reading the hex text back gives the bytes, so distinct bytes give distinct tokens |
| AuthRoutes.TokenShape | routes/auth.js:76 | a token made from 32 bytes is 64 lower-case hex digits |
| AuthRoutes.Forgot | routes/auth.js:66-120 | products, orders and the set of users never change; a success is the fixed message; a failure is a server error |
| AuthRoutes.ForgotPassword | routes/auth.js:66-120 | the handler's answer and the database afterwards are those of the forgot function |
| AuthRoutes.ForgotAnswerHidesAccounts | routes/auth.js:69-115 | with mail delivered, a known and an unknown email get the identical answer |
| AuthRoutes.ForgotEffects | routes/auth.js:76-82 | an unknown email changes nothing; a known one gives exactly that user the hex token, expiring one hour (3 600 000 ms) after now, and changes nothing else, even when the mail then fails |
| AuthRoutes.Holders | routes/auth.js:126-129 | the users the reset query finds: the token matches and the expiry is strictly after now |
| AuthRoutes.ResetPassword | routes/auth.js:123-147 | a reset fails exactly when no user holds the token unexpired, and then changes nothing; otherwise it redeems one such user's token with the new hash |
| AuthRoutes.RedeemIsSingleUse | routes/auth.js:136-140 | after a reset, the user no longer holds the token at any time, and the other holders are unchanged |
| AuthRoutes.SoleHolderSecondResetFails | routes/auth.js:126-140 | a token only one user held works for exactly one reset |
| AuthRoutes.IssuedTokenWindow | routes/auth.js:77 | an issued token is accepted at a time exactly when that time is before issue + one hour |
| AuthRoutes.RedeemKeepsValid | routes/auth.js:136-140 | a reset keeps emails unique and order ids distinct |
| AuthRoutes.ForgotKeepsValid | routes/auth.js:80-82 | issuing a token keeps emails unique and order ids distinct |
| Invariants.CheckedStep | routes/cart.js:12 | the corrected cart routes: a request that would store a quantity ≤ 0 is refused and changes nothing; every other request is handled by the routes as written |
| Invariants.AddLineKeepsPositive | routes/cart.js:14-19 | adding a positive quantity keeps every cart quantity positive |
| Invariants.SetLineKeepsPositive | routes/cart.js:29 | setting a positive quantity keeps every cart quantity positive |
| Invariants.PlaceKeepsSound | routes/orders.js:41-63 | placement keeps stock ≥ 0, cart quantities positive and order quantities positive |
| Invariants.CancelKeepsSound | routes/orders.js:123-134 | with positive order quantities, cancelling keeps stock ≥ 0, because the restore only adds |
| Invariants.AdminSetKeepsSound | routes/admin.js:120-135 | an admin update keeps the stock invariant: it changes no stock and no items |
| Invariants.CheckedStepKeepsSound | routes/cart.js:11-39 | every request to the corrected routes keeps the invariant |
| Invariants.CheckedRunKeepsSound | routes/orders.js:43-48 | with positive cart quantities enforced, no sequence of cart, order and admin requests makes any stock negative |
| Invariants.FirstOrderRaisesStock | routes/orders.js:43-48 | a line of -5 passes the stock check of a sold-out product and raises its stock to 5 |
| Invariants.SecondCartFilled | routes/cart.js:15-29 | a second shopper adds the product and sets the line to 5 |
| Invariants.SecondOrderTakesStock | routes/orders.js:43-48 | the second shopper's order takes the 5 units and stock returns to 0 |
| Invariants.CancelOverdrawsStock | routes/orders.js:123-134 | cancelling the -5 order adds -5 back, leaving stock at -5 |
| Invariants.NegativeQuantityDrivesStockNegative | routes/cart.js:12 | from a sound store, six requests to the routes as written leave a product with stock -5 |
| WebCart.QuantityOf | web/pages/cart.js:53 | a missing or zero quantity counts as 1; any other quantity counts as itself |
| WebCart.TotalAppend | web/pages/cart.js:53 | the total of two parts of a cart is the sum of their totals |
| WebCart.TotalUpdate | web/pages/cart.js:53 | changing one line moves the total by the difference of that line's price × quantity |
| WebCart.FirstLine | web/pages/cart.js:62 | the first guest entry for the product, and -1 exactly when there is none |
| WebCart.SetQuantity | web/pages/cart.js:61-64 | a guest update keeps the number of entries |
| WebCart.Without | web/pages/cart.js:80 | a guest remove keeps exactly the entries for other products |
| WebCart.SetQuantityEffects | web/pages/cart.js:61-64 | a guest update sets the first entry for the product to the new quantity, changes no other entry, and does nothing when the product is absent |
| WebCart.SetQuantityTotal | web/pages/cart.js:53-64 | after a guest update the total moves by the changed line alone |
| WebCart.WithoutAppend | web/pages/cart.js:80 | a guest remove works part by part, so the rest keep their order |
| WebCart.WithoutAbsent | web/pages/cart.js:80 | removing a product not in the guest cart leaves it as it was |
| WebCart.CheckoutTarget | web/pages/cart.js:92-98 | guests go to `/login?redirect=checkout`, and signed-in users go to `/checkout` |
| WebCart.ButtonTarget | web/pages/cart.js:126-155 | the buttons pass an id exactly when the line has its product, and then it is that product's id |
| WebCart.ButtonsStepByOne | web/pages/cart.js:155-178 | − on a line showing 1 asks to remove it, by the product's id when the line has one; − and + otherwise set the shown quantity minus or plus one: a user's page sends that PUT, and a guest's cart becomes `SetQuantity` of the product's id with it; − never asks the API for less than 1; a line without its product is addressed as "null" and, for a guest, changes nothing |
| WebCart.DeletedProductLineIsStuck | routes/cart.js:24-38 | for a cart page line whose product was deleted, the DELETE the page sends keeps every cart line and the PUT answers 404, because server cart ids are ObjectIds |
| WebCart.CartPage.constructor | web/pages/cart.js:7-8 | the page starts from the guest flag and the stored guest cart, with no requests sent and no route taken |
| WebCart.CartPage.RemoveItem | web/pages/cart.js:75-90 | a guest's cart becomes the entries for other products, or stays when no id is passed; a user's page sends one DELETE to the id's path, "null" when there is none |
| WebCart.CartPage.UpdateQty | web/pages/cart.js:55-73 | a quantity ≤ 0 removes; otherwise a guest's entry for the id is set, nothing when no id is passed, and a user's page sends one PUT with the quantity to the id's path |
| WebCart.CartPage.HandleCheckout | web/pages/cart.js:92-99 | the page routes to the checkout target and changes nothing else |
| CancelReasons.Problem | web/pages/orders.js:30-39 | refused exactly when no reason is chosen, or 'Other' is chosen with only white space typed, the choice being checked first; the admin page's copy at web/pages/admin/orders.js:361-368 is the same |
| CancelReasons.FinalReason | web/pages/orders.js:35 | the reason sent is the typed text, untrimmed, for 'Other', and otherwise the chosen option; the admin page's copy at web/pages/admin/orders.js:372 is the same |
| CancelReasons.AcceptedReasonIsNotBlank | web/pages/orders.js:30-39 | a reason that passes the form is never empty, and for 'Other' never only white space |
| OrdersPage.OfferedIsCancellable | web/pages/orders.js:109 | the cancel button appears only for statuses the server accepts; the server also accepts some the page does not offer |
| OrdersPage.SentReasonIsRecorded | web/pages/orders.js:35-46 | a reason that passes the dialog is one the server stores as the user's reason |
| OrdersPage.OrdersView.constructor | web/pages/orders.js:6-9 | the page starts with the dialog closed, both reason fields empty and nothing sent |
| OrdersPage.OrdersView.ChooseReason | web/pages/orders.js:128-146 | choosing and typing a reason change only the two reason fields |
| OrdersPage.OrdersView.OpenCancelModal | web/pages/orders.js:17-21 | opening the dialog for an order resets both reason fields |
| OrdersPage.OrdersView.CloseCancelModal | web/pages/orders.js:23-27 | closing the dialog clears the order and both reason fields |
| OrdersPage.OrdersView.HandleCancelOrder | web/pages/orders.js:29-54 | a refused form only alerts, with the form's message, and sends nothing; otherwise exactly one cancel with the final reason is sent; on success the dialog closes, and on failure the error is alerted and the dialog stays |
| AdminOrdersPage.SetMembers | web/pages/admin/orders.js:31-35 | a filter becomes a parameter exactly when it has a value |
| AdminOrdersPage.EncodeEmpty | web/pages/admin/orders.js:36 | the query string is empty exactly when there are no parameters |
| AdminOrdersPage.BuildParams | web/pages/admin/orders.js:31-35 | the `qs.set` calls keep the set filters in the order status, q, from, to, and give no parameters exactly when every filter is '' |
| AdminOrdersPage.SetOfFilters | web/pages/admin/orders.js:31-35 | the kept parameters are the set filters, one after another in the page's order |
| AdminOrdersPage.ListUrl | web/pages/admin/orders.js:30-36 | the URL has no '?' exactly when every filter is empty; otherwise '?' and the encoded parameters follow |
| AdminOrdersPage.ListUrlOfStatusAndTo | web/pages/admin/orders.js:31-36 | with only status and to set, the URL is `?status=…&to=…`: unset filters leave no trace |
| AdminOrdersPage.Toolbar.constructor | web/pages/admin/orders.js:30 | the toolbar starts with every filter '' |
| AdminOrdersPage.Toolbar.SetField | web/pages/admin/orders.js:66-97 | typing in one field changes that filter only |
| AdminOrdersPage.Toolbar.Clear | web/pages/admin/orders.js:103 | Clear resets all four filters to '', so the list URL has no query string |
| AdminOrdersPage.Toolbar.Url | web/pages/admin/orders.js:31-36 | the URL built step by step is the list URL of the filters |
| AdminOrdersPage.OrderRow.constructor | web/pages/admin/orders.js:143-151 | a row starts with the server's status, or `Placed` when it has none, no dialog and nothing sent |
| AdminOrdersPage.OrderRow.HandleStatusChange | web/pages/admin/orders.js:168-182 | a final order ignores every selection; `Cancelled` only sets the local status and clears both reason inputs; another status different from the server's opens the dialog with it pending and an empty note; the server's own status just sets it; each branch keeps every field it does not name, and no request is sent |
| AdminOrdersPage.OrderRow.ConfirmStatusChange | web/pages/admin/orders.js:184-203 | with nothing pending nothing changes; otherwise exactly one update with the pending status and the note is sent; a success adopts the status and note as admin reason and closes the dialog; a failure alerts and keeps the dialog; the cancel reasons and the note are never touched |
| AdminOrdersPage.OrderRow.TypeModalReason | web/pages/admin/orders.js:456 | typing in the dialog changes only the note; status, pending change, dialog, the three reasons, saving flag, requests and alerts stay |
| AdminOrdersPage.OrderRow.CancelStatusChange | web/pages/admin/orders.js:205-209 | dismissing clears the pending status, the note and the dialog; status, the three reasons, requests and alerts stay |
| AdminOrdersPage.OrderRow.ChooseCancelReason | web/pages/admin/orders.js:337-352 | choosing and typing a cancel reason change only the two reason fields; status, pending change, dialog and its note, admin reason, saving flag, requests and alerts stay |
| AdminOrdersPage.OrderRow.ConfirmCancel | web/pages/admin/orders.js:360-383 | a refused form only alerts; otherwise exactly one update to `Cancelled` with the final reason is sent, and a failure is alerted; status, dialog, pending change, note and the three reasons stay |
| AdminOrdersPage.FinalRowIgnoresSelections | web/pages/admin/orders.js:153-155 | a `Cancelled` or `Delivered` row keeps its status, has nothing pending and sends nothing, after any run of selections and confirmations |
| AdminProductsPage.Cleaned | web/pages/admin/products.js:47 | trimming and dropping empty parts never adds a part |
| AdminProductsPage.CleanedAreKeywords | web/pages/admin/products.js:47 | parts without commas clean to keywords: trimmed, non-empty, comma-free |
| AdminProductsPage.ParseKeywords | web/pages/admin/products.js:47 | empty text gives no keywords, and every parsed keyword is trimmed, non-empty and comma-free |
| AdminProductsPage.JoinedNotEmpty | web/pages/admin/products.js:93 | the edit form's text of a non-empty keyword list is never empty |
| AdminProductsPage.KeywordsRoundTrip | web/pages/admin/products.js:93 | joining keywords with ', ' for the edit form and parsing them on save gives back the same list, when each keyword is trimmed, non-empty and comma-free |
| AdminProductsPage.CommaSplitsKeyword | web/pages/admin/products.js:47 | a keyword holding a comma does not survive the round trip: it comes back as two keywords |
| AdminProductsPage.FilteredProducts | web/pages/admin/products.js:100-106 | a product is listed exactly when it matches the search, the term found in its name or description ignoring case, and the category filter by equality; an empty filter matches all |
| AdminProductsPage.BlankFiltersKeepAll | web/pages/admin/products.js:100-106 | with neither filter set the whole list shows, in its order |
| AdminProductsPage.SearchIgnoresCase | web/pages/admin/products.js:101-103 | the search gives the same answer for a term and its lower-case form |
| AdminProductsPage.Distinct | web/pages/admin/products.js:108 | `[...new Set(s)]`: the same values as `s`, each once, in order of first occurrence |
| AdminProductsPage.NamedCategories | web/pages/admin/products.js:108 | the non-empty categories of the products |
| AdminProductsPage.Categories | web/pages/admin/products.js:108 | the category list holds each non-empty product category exactly once |
| AdminProductsPage.CheckImage | web/pages/admin/products.js:16-29 | no file does nothing; a file is accepted exactly when its type starts with 'image/' and its size is at most 2·1024·1024 bytes; the type is checked first, and each refusal has its own message |
| AdminProductsPage.ImageSizeBoundary | web/pages/admin/products.js:26 | exactly 2 MiB is accepted, and one byte more is refused |
| AdminProductsPage.StockBadge | web/pages/admin/products.js:378-380 | green exactly above 10, yellow exactly for 1 to 10, red exactly at 0 or below |
| AddressAutocomplete.FirstNonEmpty | web/components/AddressAutocomplete.js:86 | `a \|\| b \|\| …`: '' exactly when every part is empty, otherwise the first part that is not |
| AddressAutocomplete.Named | web/components/AddressAutocomplete.js:90 | `filter(Boolean)` leaves no empty part |
| AddressAutocomplete.MapAddress | web/components/AddressAutocomplete.js:85-97 | the full address is the display name, the city the first city-like part, the postal code the postcode or '', and the state the state or 'Gujarat' |
| AddressAutocomplete.CityPreference | web/components/AddressAutocomplete.js:86 | city wins over town, town over village, village over county |
| AddressAutocomplete.AddressLineCases | web/components/AddressAutocomplete.js:90 | a house and road that are empty or only white space fall back to the display name up to its first comma; a blank house with a real road gives the trimmed road; a real house gives the trimmed house alone, or joined by a space with a non-empty road; a house and road without commas give a line without a comma |
| AddressAutocomplete.MapAddressExample | web/components/AddressAutocomplete.js:85-97 | a town stands in for a missing city, and a missing state becomes Gujarat |
| AddressAutocomplete.Awaiting | web/components/AddressAutocomplete.js:21-27 | a blank query waits for nothing; any other waits with its trimmed text |
| AddressAutocomplete.Field.constructor | web/components/AddressAutocomplete.js:9-13 | the field starts empty, with no list, no selection and nothing waiting |
| AddressAutocomplete.Field.QueryChanged | web/components/AddressAutocomplete.js:18-30 | an empty or white-space query drops the waiting request and clears and hides the list; any other query waits with its trimmed text |
| AddressAutocomplete.Field.SetQuery | web/components/AddressAutocomplete.js:61-63 | an unchanged query changes nothing; a changed one runs the effect: blank clears and hides the list, otherwise the list stays and the trimmed query waits; the selection never changes |
| AddressAutocomplete.Field.Fire | web/components/AddressAutocomplete.js:26-28 | the timer sends the waiting query to the geocoder; query, list, visibility, selection and choices stay |
| AddressAutocomplete.Field.OnResults | web/components/AddressAutocomplete.js:51-53 | results replace the list, reset the selection to -1, and show the list exactly when it is not empty |
| AddressAutocomplete.Field.OnError | web/components/AddressAutocomplete.js:54-58 | a failed request clears and hides the list |
| AddressAutocomplete.Field.Select | web/components/AddressAutocomplete.js:81-98 | the list hides, the query becomes the display name, and the mapped address is reported once; the selection stays; an unchanged query keeps the list and the waiting request; a changed one waits with its trimmed text and keeps the list, or clears it when blank |
| AddressAutocomplete.Field.Report | web/components/AddressAutocomplete.js:92-98 | `onAddressSelect` receives the mapped address |
| AddressAutocomplete.Field.KeyDown | web/components/AddressAutocomplete.js:65-79 | keys change nothing while the list is hidden; ArrowDown stops at the last entry, ArrowUp at the first; Escape hides the list; Enter with a selection acts as `selectSuggestion` on that entry (query, report, list and waiting request as for Select), and without one changes nothing; keys other than Enter never touch the list, query or waiting request |
| AddressAutocomplete.Field.Click | web/components/AddressAutocomplete.js:120-123 | pressing a shown entry acts as `selectSuggestion` on it: the query becomes its display name, its mapped address is reported once, the list hides, and the list and waiting request follow as for Select |
| AddressAutocomplete.PressKeys | web/components/AddressAutocomplete.js:67-72 | a run of arrow presses on a shown list changes only the selection, to `Navigate` of the old one; the list, query and choices stay |
| AddressAutocomplete.NavigateInRange | web/components/AddressAutocomplete.js:69-72 | arrow presses keep the selection between -1 and the last entry, and after an arrow press some entry is selected |
| AddressAutocomplete.ArrowDownsStopAtLast | web/components/AddressAutocomplete.js:69 | k ArrowDown presses move the selection down by k, but never past the last entry |
| ResetPasswordPage.ViewFor | web/pages/reset-password.js:56-66 | the invalid-link view shows exactly when there is no token |
| ResetPasswordPage.Refusal | web/pages/reset-password.js:27-37 | "Passwords do not match" exactly when the two differ; the length message exactly when they agree but are shorter than 6; no refusal otherwise |
| ResetPasswordPage.MismatchReportedFirst | web/pages/reset-password.js:27-37 | a mismatch is reported even when the password is also too short |
| ResetPasswordPage.Page.constructor | web/pages/reset-password.js:14-19 | the token comes from the link, and the page starts with nothing typed or sent |
| ResetPasswordPage.Page.Type | web/pages/reset-password.js:6-7 | typing changes only the two password fields; token, messages, loading flag, requests and route stay |
| ResetPasswordPage.Page.Submit | web/pages/reset-password.js:21-54 | a refusal sets its error and sends nothing; otherwise exactly the token and the password are sent; success shows the message and goes to `/login`; failure shows the error's message or the network message |
| Text.Trim | routes/admin.js:28 | `trim()`: the result has no white space at either end, is no longer than `s`, and is empty exactly for white-space text |
| Text.TrimIsInfix | routes/admin.js:28 | `trim()` only cuts: `s` is a white-space prefix, then `Trim(s)`, then a white-space suffix |
| Text.SpaceCutIsSlice | routes/admin.js:28 | the text kept by such a cut is exactly the slice of `s` between the two cut points |
| Text.ToLower | routes/admin.js:64 | `toLowerCase()` character by character, keeping the length |
| Text.OrElse | web/components/AddressAutocomplete.js:97 | `s \|\| fallback`: the fallback exactly when `s` is empty |
| Text.Split | web/pages/admin/products.js:47 | `split(',')` gives at least one part, and no part holds the separator |
| Sorting.SortDesc | routes/orders.js:85 | `sort({ createdAt: -1 })`: a permutation ordered by descending key |
| Sorting.Take | routes/admin.js:182 | `slice(0, n)`: the first `n` elements, or all when there are fewer |
| Sorting.TakeKeepsLargest | routes/admin.js:182 | an element the slice leaves out of a sorted list has a key no larger than any kept one, and the slice is full |
| Sorting.Filter | routes/admin.js:63-68 | `filter`: exactly the elements that pass |
| Sorting.FilterKeepsSorted | routes/admin.js:51-68 | filtering the newest-first list keeps it newest first |

## Left out

- MongoDB and Mongoose themselves are not modelled: sessions, `populate`,
  `lean`, `save` and query execution. Each collection is a map or a
  sequence, and a transaction is one atomic assignment on commit.
- Concurrent requests are not modelled: requests are handled one at a
  time.
- ObjectId coercion and the raw-id fallbacks (routes/orders.js:18-25,
  80-84, 98-101) are not modelled. Ids are strings, and ownership is
  equality of ids.
- Money is JavaScript `Number` in the source. Here it is an integer
  amount, for example paise. `toFixed`, `parseFloat` and `parseInt` in the
  products form (web/pages/admin/products.js:44-46) are left out.
- Analytics.AverageOrderValue: the average is the pair (revenue, number of
  orders), not a floating-point quotient.
- The monthly trend buckets (routes/admin.js:253-283) are left out, because
  they depend on the clock and the locale.
- `new Date(from/to)` parsing is left out: date filters are integer
  timestamps compared with `createdAt`.
- The `lastOrder` of a repeat customer (routes/admin.js:179) is the
  largest `createdAt` of their orders, an integer timestamp. The `new Date`
  conversion around it is not modelled.
- AdminRoutes.FindByEmail: the anchored regex lookup (routes/admin.js:32)
  is case-insensitive equality of emails. Regex characters in the query are
  not interpreted.
- AdminRoutes.FindByEmail: when several users match ignoring case, the
  model finds some one of them. MongoDB's choice is not modelled.
- Text.ToLower: only ASCII letters are lowered. Other Unicode case
  mappings are not modelled.
- Opaque library calls are parameters of the model: bcrypt hashing and
  comparison, jwt signing, the random bytes of `crypto.randomBytes`, the
  mail delivery outcome, the clock and the id each new document receives.
- Every fetch outcome a page sees is a parameter. This covers the cart API,
  the order APIs, the admin update and the reset request.
- The Nominatim request is not modelled. Its answers arrive as
  `OnResults` and `OnError`.
- The 300 ms debounce timer is not modelled: the waiting query is the
  `pending` field, and `Fire` stands for the timer going off.
- The Gemini description generator (`routes/ai.js`,
  web/pages/admin/products.js:55-80) is not modelled, because it calls an
  external service.
- FileReader's base64 encoding (web/pages/admin/products.js:31-37) is not
  modelled, for the same reason.
- Browser storage is not modelled: the guest cart is a field of the page.
  JSON round-tripping, `web/lib/api.js` and toasts are left out.
- JSX rendering is left out, and so are `cart-change` events, SWR
  revalidation and the reloads after a request.
- Some screens are not part of this model: `Nav.js`, `ProductCard.js`,
  `AuthContext.js`, home, login, register, forgot-password, profile,
  checkout, admin analytics, `_app.js` and `_document.js`.
- The product CRUD routes (`routes/products.js`) are not modelled: they pass
  request bodies straight to the database.
- `server.js`, the `auth` and `admin` middleware, `/debug-orders` and all
  console logging are left out.
- The `/admin/products` listing is a plain `find()`, and it is left out.
- The `auth` middleware's own 401 for a missing or bad token is not
  modelled: routes start from the user id the token carries.
- AdminOrdersPage.ListUrl: `URLSearchParams` percent-encoding is not
  modelled, so values are copied as typed.
- ResetPasswordPage.Refusal: length counts characters, not JavaScript's
  UTF-16 code units. The two differ only for characters outside the Basic
  Multilingual Plane.
- ResetPasswordPage.Page.Submit: the two-second delay before the redirect
  is left out, and the redirect is recorded at once.
- Sorting.SortDesc: the order among orders with equal `createdAt`, or
  rows with equal amounts, is not stated.
- OrderRoutes.MyOrders: the populate of `statusHistory.updatedBy` is left
  out, so the orders come back as stored.
- CartRoutes.GetCart: a populated product is left whole, not restricted to
  selected fields.
- AuthRoutes.Login: it assumes the unique index on email. With duplicate
  emails, `findOne`'s choice would matter, and the model does not cover
  that case.
- AuthRoutes.ForgotPassword: the token's 32 random bytes are a parameter.
  Their randomness, and so the tokens' unguessability, is not modelled.
- CartRoutes.UpdateQuantity: a missing quantity, `null` or any value that
  is not a number is one case, a rejected save. Mongoose's cast of a
  numeric string such as "3" and fractional quantities are not modelled.
- CartRoutes.AddToCart: a `null` or non-number quantity in the body is not
  modelled. Quantities are integers, and an absent one defaults to 1.
- AuthRoutes.UpdateProfile: a key the body leaves out is dropped from the
  update and the stored value stays, as Mongoose 6 and later do. Mongoose 5
  would store null. Which version runs is not modelled, and neither is the
  cast of a non-string name or contact.
- The saved address (models/User.js:14-20) is carried unchanged on every
  user and profile. No route in this model writes it.
- Analytics.CountStatuses, Analytics.StatusCountsFacts and
  Analytics.TallyCategories: rows come in first-insertion order.
  `Object.values` lists integer-like keys first, in numeric order. That
  order is not modelled, so a status or category named "2024" may be
  placed differently.
- Status and category keys that name an `Object.prototype` member are not
  modelled. The route fills plain `{}` objects (routes/admin.js:185, 242).
  There, `constructor`, `toString` or `hasOwnProperty` already reads as the
  inherited function, and an assignment to `__proto__` is ignored. The
  model treats every key as absent until the route adds it. The members
  below state their facts for keys that do not name such a member.
- Analytics.BumpGet: models `obj[k]` for own keys only. In the source an
  inherited key already has a value.
- Analytics.CountStatuses: a status "constructor" is counted as 1. There
  routes/admin.js:245 stores a string, the inherited function's text
  followed by "1". A status "__proto__" is counted, where the source keeps
  no entry.
- Analytics.StatusCountsFacts: "each status appears once with its count" holds for
  statuses that do not name an `Object.prototype` member.
- Analytics.SellOne: a category such as "toString" gets a row, where
  routes/admin.js:189 creates none and adds `NaN` onto the inherited
  function.
- Analytics.SalesPass: the per-category sales table differs from the source for such
  categories, as SellOne does.
- Analytics.CountPass: for such categories `if (categoryStats[category])`
  (routes/admin.js:206) is true and counts onto the inherited function;
  the model counts onto the category's own row.
- Analytics.TallyCategories: the category table lacks such categories in the source
  and has them here.
- Analytics.AddItemsKeys: "an entry exactly when one of the items is in it" holds for
  categories that do not name an `Object.prototype` member.
- Analytics.CategorySalesFacts: for such categories the source has no entry.
- Analytics.CategoryStatsFacts: the reference characterisation holds for categories
  that do not name an `Object.prototype` member. The customer and product
  tables are keyed by ObjectId text and are not affected.
- WebCart.ButtonTarget: a guest entry whose stored product has no `_id` is
  not modelled. Its buttons would pass the product object itself, which
  matches no entry. The model takes a stored product to carry its `_id`.
- An error thrown while the cancel route restores stock is caught and
  skipped (routes/orders.js:130-133). Reads in the model cannot fail, so
  this path is not modelled. Only a missing product is skipped, as the
  route itself does.

## Findings

| source | as written | input that shows it | evidently intended | confidence | as-written member | corrected member |
|---|---|---|---|---|---|---|
| routes/cart.js:12 | The cart accepts any quantity on `POST /cart` and `PUT /cart/:productId` (routes/cart.js:12, routes/cart.js:29). The placement check `product.stock < cartItem.quantity` (routes/orders.js:43) lets a negative line through, and the line then raises stock. Cancelling that order adds the negative quantity back (routes/orders.js:123-134). | Product p has stock 0. Shopper a adds p with quantity -5 and places order o1, which raises the stock to 5. Shopper b adds p, sets the quantity to 5 and orders; the stock is 0. Shopper a then cancels o1, and the stock becomes -5. | Stock never goes below zero. This holds once the cart refuses quantities ≤ 0. | not executed | Invariants.NegativeQuantityDrivesStockNegative | Invariants.CheckedRunKeepsSound |
