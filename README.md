# Cart and order core of an e-commerce backend, in Dafny

This project models the part of the e-commerce backend that holds real logic.
Three route files are covered:

- **The shopping cart** (`routes/cartRoutes.js`). Each user has one cart, a
  list of line items and a stored `totalPrice`. The handlers change that total
  by deltas (`+=`, `-=`) instead of recomputing it.
- **The order record** (`routes/orderRoutes.js`). Placing an order builds a
  document whose `totalAmount` is frozen at the current price. Every later
  handler reads an order or overwrites one of its fields.
- **The search and report helpers** (`routes/searchAndFilter.js`). These are
  the keyword search pattern, the low-stock listing, the dashboard figures and
  the self-only purchase history.

Each handler is a pure function from the stored collection to the new
collection and the handler's outcome (`CartRoutes.AddItem`,
`OrderRoutes.CancelOrder`, ...). An `Outcome` datatype takes the place of
HTTP codes and messages: `Ok`, `NotFound(reason)`, `BadRequest`, `Forbidden`,
`NoChange` and `Error`. `Error` stands for an exception caught by the
handler's `catch` block. The classes `CartRoutes.CartStore` (a
`map<UserId, Cart>` field) and `OrderRoutes.OrderStore` (a `seq<Order>`
field, in insertion order) run the same handlers as in-place edits of that
field. Each of their methods is proved equal to its function. The lemmas state
what the handlers promise:

- the quantity defaults;
- the find-or-create behaviour and matching line items by name;
- the distinct not-found answers;
- the stored total staying equal to Σ quantity × price for a fixed catalog;
- clear twice, and add followed by remove;
- cancel from any status, cancel twice, and track after an update;
- the frozen order totals and the revenue;
- the shape and length of the search pattern;
- the purchase history's contents and order.

Prices are whole numbers (cents). The product catalog is a parameter, a
sequence of product documents in the collection's natural order. The caller's
identity, new order ids and timestamps are parameters too. The admin-only
handlers are modelled as called by an admin.
Two lookups keep the source's choice of the first match:
`Product.find({ name })[0]` and `findById`.

Some of the handlers' behaviour is easy to miss in the code. The model keeps it as it is:

- An unknown product name in add-to-cart and place-order does not reach the
  handler's "Product not found" check. `productDetails[0]._id` (or
  `productDetails._id`) throws first. The outcome is `Error`.
- The admin total override, with no cart for the user, reads a field of
  `undefined` and throws. The outcome is `Error`. An unchanged total is
  refused. The model's outcome for that is `NoChange`; the source answers it
  with status 404.
- Quantities are not validated. The code accepts any non-zero quantity as
  given, negative ones included, and so does the model.
- Fetching the cart fails only when the user has no cart. The code does not
  check for a cart with zero items, and the handlers never leave one.
- The search query is put into the regular expression without escaping.
  A query such as `(` gives a pattern the store refuses, and the search
  answers with an error. `SearchAndFilter.Search` takes the store's test of
  a valid pattern as a parameter.

## Model

| member | source | states |
|---|---|---|
| `Common.DefaultQuantity` | routes/cartRoutes.js:37-41 | an absent or zero quantity becomes 1; any other value, negative ones included, is kept |
| `Common.FirstIndex` | routes/cartRoutes.js:62-64 | `findIndex`: the index found matches and no earlier element does; `None` (-1) only when nothing matches |
| `Common.Select` | routes/searchAndFilter.js:70 | a filter keeps exactly the elements that pass, drawn from the input |
| `Common.SelectAppend` | routes/searchAndFilter.js:70 | filtering the concatenation of two lists gives the two filtered lists one after the other, so kept elements keep their order and multiplicity |
| `Common.CountWhere` | routes/searchAndFilter.js:96-98 | the count is at most the collection size; it is 0 exactly when nothing matches and the full size exactly when everything matches |
| `Common.CountWhereIsSelectLength` | routes/searchAndFilter.js:96-98 | a count query and the listing with the same filter agree |
| `Catalog.FindByName` | routes/cartRoutes.js:30-31 | the product found carries the requested name; none is found only when no product has it |
| `Catalog.FindById` | routes/cartRoutes.js:108 | the product found carries the id; none is found only when no product has it |
| `Catalog.NameLookupFindsEachProduct` | routes/cartRoutes.js:115-117 | with one product per name, the by-name lookup finds the by-id product again, so both see the same price |
| `Catalog.IdLookupFindsEachProduct` | routes/cartRoutes.js:108 | with one product per id, `findById` finds each product by its own id |
| `CartRoutes.IndexOfName` | routes/cartRoutes.js:62-64 | line items are matched by name: the first item with the name, or none |
| `CartRoutes.RemoveAt` | routes/cartRoutes.js:124 | `splice(i, 1)` removes exactly item i and keeps the others in order (the same multiset minus one item) |
| `CartRoutes.ValueAppend` | routes/cartRoutes.js:78-83 | the value of two item lists put together is the sum of their values |
| `CartRoutes.ValueRemoveAt` | routes/cartRoutes.js:124-125 | removing a line lowers the cart's value by quantity × price of that line |
| `CartRoutes.ValueBumpAt` | routes/cartRoutes.js:68-69 | raising a line's quantity by d raises the value by d × its price |
| `CartRoutes.ValueAppendOne` | routes/cartRoutes.js:78-83 | appending a line raises the value by its line total |
| `CartRoutes.GetCart` | routes/cartRoutes.js:9-15 | the user's cart when there is one, otherwise the "cart is empty" answer |
| `CartRoutes.AddItem` | routes/cartRoutes.js:24-93 | add fails (Error, nothing changed) exactly when no product has the name; otherwise it stores the answered cart under the user and touches no other cart |
| `CartRoutes.AddCreatesCart` | routes/cartRoutes.js:43-58 | with no cart, add creates one holding only `{productId, name, quantity}` with total price × quantity |
| `CartRoutes.AddMergesSameName` | routes/cartRoutes.js:61-75 | the answer is the old cart (same owner) whose first item of that name has the quantity added and whose total rises by price × quantity; it is stored under the user and no other cart changes |
| `CartRoutes.AddAppendsNewName` | routes/cartRoutes.js:77-88 | the answer is the old cart (same owner) with the new line appended after the existing items and the total up by price × quantity; it is stored under the user and no other cart changes |
| `CartRoutes.RemoveFailures` | routes/cartRoutes.js:102-121 | remove answers "no cart", "no product" and "no item" each exactly in its own case, and then changes nothing |
| `CartRoutes.RemoveTakesFirstMatch` | routes/cartRoutes.js:114-137 | remove deletes the first item of the product's name, keeps the rest in order, subtracts its quantity × current price, and deletes an emptied cart with an empty-cart answer |
| `CartRoutes.RemoveItem` | routes/cartRoutes.js:97-142 | remove answers the cart or not-found. A kept cart is stored under its owner and has exactly one item fewer, a strict sub-multiset of its items. An emptied one-item cart is deleted. Every other failure changes nothing |
| `CartRoutes.UpdateMovesLineToEnd` | routes/cartRoutes.js:164-190 | update puts the item last with the new quantity (not defaulted), total = old − old quantity × price + new quantity × price; the answered cart is stored under the user and no other cart changes |
| `CartRoutes.UpdateFailsLikeRemove` | routes/cartRoutes.js:152-171 | update fails exactly when remove would fail, with the same answer, and changes nothing |
| `CartRoutes.UpdateItem` | routes/cartRoutes.js:146-196 | update answers the cart or a not-found other than "cart is empty". A success keeps the item count, ends with the product's item at the new quantity, and stores the cart under its owner. A failure changes nothing |
| `CartRoutes.ClearCart` | routes/cartRoutes.js:200-210 | clear deletes the user's cart and answers with it, or answers "cart not found" |
| `CartRoutes.SetTotal` | routes/cartRoutes.js:220-238 | the admin override: Error with no cart, NoChange for the same total, and otherwise it succeeds, replacing only the total |
| `CartRoutes.AddKeepsTotals` | routes/cartRoutes.js:43-84 | add keeps every stored total equal to Σ quantity × catalog price of its items |
| `CartRoutes.RemoveKeepsTotals` | routes/cartRoutes.js:114-133 | with one product per name, remove keeps that equality |
| `CartRoutes.UpdateKeepsTotals` | routes/cartRoutes.js:173-186 | with one product per name, update keeps that equality |
| `CartRoutes.ClearKeepsTotals` | routes/cartRoutes.js:204-210 | clear keeps that equality for the carts that remain |
| `CartRoutes.SetTotalBreaksTotals` | routes/cartRoutes.js:228-237 | overwriting a consistent total with a different value breaks the equality: the override bypasses it |
| `CartRoutes.AddKeepsCartsWellFormed` | routes/cartRoutes.js:52-84 | after add, every cart is filed under its owner and has at least one item |
| `CartRoutes.RemoveKeepsCartsWellFormed` | routes/cartRoutes.js:129-133 | remove never leaves an empty cart stored |
| `CartRoutes.OtherHandlersKeepCartsWellFormed` | routes/cartRoutes.js:173-186 | update, clear and the override keep every cart owned and non-empty |
| `CartRoutes.ClearTwiceFindsNoCart` | routes/cartRoutes.js:204-207 | a second clear answers "cart not found" |
| `CartRoutes.AddThenRemoveRestores` | routes/cartRoutes.js:43-133 | with no cart, adding a product by name and removing it by id deletes the cart again, also when several products share the name: collection as before, empty-cart answer |
| `CartRoutes.CartStore.Show` | routes/cartRoutes.js:9-15 | the method answers as `GetCart` |
| `CartRoutes.CartStore.Add` | routes/cartRoutes.js:24-93 | the in-place add (quantity `+=`, `push`, total `+=`) leaves the carts and answer `AddItem` describes |
| `CartRoutes.CartStore.Remove` | routes/cartRoutes.js:97-142 | the in-place `splice`, total `-=` and delete leave the carts and answer `RemoveItem` describes |
| `CartRoutes.CartStore.Update` | routes/cartRoutes.js:146-196 | the in-place `splice`, `push` and total edits leave the carts and answer `UpdateItem` describes |
| `CartRoutes.CartStore.Clear` | routes/cartRoutes.js:200-216 | the deletion leaves the carts and answer `ClearCart` describes |
| `CartRoutes.CartStore.OverrideTotal` | routes/cartRoutes.js:220-244 | the override leaves the carts and answer `SetTotal` describes |
| `OrderRoutes.NewOrder` | routes/orderRoutes.js:30-53 | one line item named as requested with the defaulted quantity; total = price × that quantity; status "Processing", payment "Pending"; address exactly the five body fields |
| `OrderRoutes.FindOrder` | routes/orderRoutes.js:102 | the position of the order with the id, or none when no order has it |
| `OrderRoutes.PlaceOrder` | routes/orderRoutes.js:9-62 | place fails (Error, nothing changed) exactly when no product has the name; otherwise the new order is appended and answered |
| `OrderRoutes.ListAll` | routes/orderRoutes.js:66-73 | every order, or "no orders yet" exactly when there are none |
| `OrderRoutes.GetOrder` | routes/orderRoutes.js:100-108 | an order with the requested id, or "order not found" exactly when no order has it |
| `OrderRoutes.Track` | routes/orderRoutes.js:190-198 | track answers exactly the stored status, or "order not found" |
| `OrderRoutes.UnknownOrderChangesNothing` | routes/orderRoutes.js:100-195 | get, track, status update, cancel and address update all answer "order not found" for an unknown id and change nothing |
| `OrderRoutes.FindOrderAfterUpdate` | routes/orderRoutes.js:121-125 | an update that keeps the id is found at the same place afterwards |
| `OrderRoutes.UpdateByIdRewritesOneOrder` | routes/orderRoutes.js:121-125 | `findByIdAndUpdate` rewrites only the order with the id, in place, and answers the new version |
| `OrderRoutes.UpdateById` | routes/orderRoutes.js:121-125 | `findByIdAndUpdate` succeeds exactly when some order has the id, and otherwise answers "order not found" with nothing changed. The collection keeps its length, and orders with other ids stay as they were |
| `OrderRoutes.UpdateStatus` | routes/orderRoutes.js:118-133 | succeeds exactly when the order exists, and answers the stored order with only its status replaced; otherwise "order not found" with nothing changed |
| `OrderRoutes.CancelOrder` | routes/orderRoutes.js:143-154 | succeeds exactly when the order exists, and answers the stored order with only its status set to "Cancelled"; otherwise "order not found" with nothing changed |
| `OrderRoutes.UpdateAddress` | routes/orderRoutes.js:164-180 | succeeds exactly when the order exists, and answers the stored order with only its address replaced; otherwise "order not found" with nothing changed |
| `OrderRoutes.UpdateStatusOverwrites` | routes/orderRoutes.js:118-133 | any status is written as given and no other field changes; tracking then answers that status |
| `OrderRoutes.CancelFromAnyStatus` | routes/orderRoutes.js:143-154 | cancel succeeds from every status and the answer is the old order with only the status set to "Cancelled"; tracking then answers "Cancelled" |
| `OrderRoutes.CancelIsIdempotent` | routes/orderRoutes.js:145-149 | cancelling twice leaves the orders as cancelling once |
| `OrderRoutes.UpdateAddressReplaces` | routes/orderRoutes.js:164-180 | the address is replaced as a whole (not merged) and nothing else changes |
| `OrderRoutes.PlacedOrderIsFound` | routes/orderRoutes.js:47-56 | a placed order can be fetched by its id, tracks as "Processing", and list-all succeeds |
| `OrderRoutes.HandlersKeepIdsDistinct` | routes/orderRoutes.js:47-54 | placing under a fresh id and the three updates keep order ids distinct |
| `OrderRoutes.OrderStore.Place` | routes/orderRoutes.js:9-56 | saving the new order leaves the orders and answer `PlaceOrder` describes |
| `OrderRoutes.OrderStore.All` | routes/orderRoutes.js:66-73 | the method answers as `ListAll` |
| `OrderRoutes.OrderStore.Get` | routes/orderRoutes.js:100-108 | the method answers as `GetOrder` |
| `OrderRoutes.OrderStore.SetStatus` | routes/orderRoutes.js:118-133 | the in-place status overwrite leaves the orders and answer `UpdateStatus` describes |
| `OrderRoutes.OrderStore.Cancel` | routes/orderRoutes.js:143-154 | the in-place cancel leaves the orders and answer `CancelOrder` describes |
| `OrderRoutes.OrderStore.SetAddress` | routes/orderRoutes.js:164-180 | the in-place address overwrite leaves the orders and answer `UpdateAddress` describes |
| `OrderRoutes.OrderStore.TrackStatus` | routes/orderRoutes.js:190-198 | the method answers as `Track` |
| `SearchAndFilter.TrimStart` | routes/searchAndFilter.js:16 | the result is a suffix of the input that does not start with whitespace, and everything dropped before it is whitespace |
| `SearchAndFilter.TrimEnd` | routes/searchAndFilter.js:16 | the result is a prefix of the input that does not end with whitespace, and everything dropped after it is whitespace |
| `SearchAndFilter.Trim` | routes/searchAndFilter.js:16 | the trimmed text neither starts nor ends with whitespace; it is empty exactly when the input is all whitespace |
| `SearchAndFilter.StripSpaces` | routes/searchAndFilter.js:16 | `replace(/\s+/g, "")` leaves no whitespace character |
| `SearchAndFilter.StripSpacesAppend` | routes/searchAndFilter.js:16 | removing whitespace works piece by piece |
| `SearchAndFilter.StripSpacesKeepsTheRest` | routes/searchAndFilter.js:16 | removing whitespace keeps exactly the other characters, in order |
| `SearchAndFilter.StripIgnoresTrimStart` | routes/searchAndFilter.js:16 | removing leading whitespace first changes nothing |
| `SearchAndFilter.StripIgnoresTrimEnd` | routes/searchAndFilter.js:16 | removing trailing whitespace first changes nothing |
| `SearchAndFilter.Sanitize` | routes/searchAndFilter.js:16 | the sanitized query holds no whitespace |
| `SearchAndFilter.SanitizeStripsAllSpaces` | routes/searchAndFilter.js:16 | the sanitized query is the query with all whitespace removed and every other character kept in order |
| `SearchAndFilter.Chars` | routes/searchAndFilter.js:22 | `split("")` gives one one-character string per character |
| `SearchAndFilter.Join` | routes/searchAndFilter.js:22 | `join(sep)` starts with the first part |
| `SearchAndFilter.Pattern` | routes/searchAndFilter.js:22 | the pattern is empty exactly when the query is, and starts with the query's first character (no leading gap) |
| `SearchAndFilter.PatternEndsWithLastChar` | routes/searchAndFilter.js:22 | the pattern ends with the query's last character (no trailing gap) |
| `SearchAndFilter.PatternUnfolds` | routes/searchAndFilter.js:22 | the pattern is the first character, `\s*`, then the pattern of the rest |
| `SearchAndFilter.PatternLength` | routes/searchAndFilter.js:22 | n ≥ 1 characters give a pattern of n + 3(n − 1) characters; none give the empty pattern |
| `SearchAndFilter.PatternKeepsQuery` | routes/searchAndFilter.js:22 | the query's characters are at pattern positions 0, 4, 8, ...: reading them back gives the query |
| `SearchAndFilter.PatternGaps` | routes/searchAndFilter.js:22 | between two consecutive query characters stands exactly `\s*` |
| `SearchAndFilter.BuildQuery` | routes/searchAndFilter.js:11-33 | an absent or empty query is a bad request; otherwise name and description use the same pattern, case-insensitively |
| `SearchAndFilter.Matching` | routes/searchAndFilter.js:17-34 | a product is listed exactly when the name pattern matches its name or the description pattern matches its description |
| `SearchAndFilter.Search` | routes/searchAndFilter.js:9-41 | bad request exactly for an absent or empty query; an error exactly when the store refuses the pattern; otherwise the matching products, or "no products found" when none match |
| `SearchAndFilter.SearchFindsExactlyTheMatches` | routes/searchAndFilter.js:16-41 | a refused pattern makes the search fail; with an accepted one, a catalog product is in the answer exactly when the whitespace-free query's pattern matches its name or description |
| `SearchAndFilter.LowStockProducts` | routes/searchAndFilter.js:70 | exactly the products with stock below 10 |
| `SearchAndFilter.LowStock` | routes/searchAndFilter.js:68-77 | the low-stock products, or "not found" exactly when every product has stock of 10 or more |
| `SearchAndFilter.RevenueGroups` | routes/searchAndFilter.js:101-103 | the aggregate has no group exactly when there are no orders, and at most one group otherwise |
| `SearchAndFilter.SumAmounts` | routes/searchAndFilter.js:102 | the `$sum` of order totals is non-negative when every total is, and 0 when every total is 0 |
| `SearchAndFilter.Revenue` | routes/searchAndFilter.js:101-109 | `revenue[0]?.total \|\| 0` is the sum of `totalAmount` over all orders, and 0 with no orders |
| `SearchAndFilter.Dashboard` | routes/searchAndFilter.js:87-110 | product and order counts; `lowStockCount` is the number of low-stock products; `totalRevenue` is the sum of order totals |
| `SearchAndFilter.SumAmountsAppend` | routes/searchAndFilter.js:101-103 | one more order adds its total to the sum |
| `SearchAndFilter.SumAmountsReplace` | routes/searchAndFilter.js:101-103 | replacing an order by one with the same total keeps the sum |
| `SearchAndFilter.PlacingAddsToRevenue` | routes/orderRoutes.js:45-54 | placing an order raises the revenue by price × defaulted quantity |
| `SearchAndFilter.UpdatesKeepRevenue` | routes/orderRoutes.js:118-180 | status updates, cancels and address changes leave the revenue unchanged: order totals are frozen |
| `SearchAndFilter.InsertByDate` | routes/searchAndFilter.js:134-136 | inserting into a newest-first list keeps it newest first and adds exactly that order |
| `SearchAndFilter.SortNewestFirst` | routes/searchAndFilter.js:134-136 | `sort({ createdAt: -1 })` is a permutation ordered by `createdAt` descending |
| `SearchAndFilter.OrdersOf` | routes/searchAndFilter.js:134 | `Order.find({ user })` holds exactly the user's orders, and is empty exactly when no order is the user's |
| `SearchAndFilter.PurchaseHistory` | routes/searchAndFilter.js:124-145 | forbidden exactly when the caller asks for someone else's history; otherwise "not found" exactly when the user has no orders, and else a newest-first permutation of the user's orders |
| `SearchAndFilter.PurchaseHistoryHoldsOwnOrders` | routes/searchAndFilter.js:134-144 | an order is in the history exactly when it belongs to the user; "not found" exactly when the user has no orders |

## Left out

- HTTP wiring and the JSON bodies. Outcomes are the `Outcome` datatype, not status codes and message strings.
- The authentication and admin middlewares. They verify a JWT, a foreign library. The caller's id is an input of the handlers. The admin-only handlers (the total override, list-all, the status update, low stock, the dashboard) are modelled as called by an admin; the middleware's refusal of other callers is left out.
- The user, product, category and review routes. They are single-document create, read, update and delete calls passed straight to the store, or foreign calls (bcrypt, JWT).
- Listing orders by user (routes/orderRoutes.js:83-97). It filters on `req.params.id`, which the route never defines. What the store does with an undefined filter value is store behaviour this model does not include.
- Sorting products by a field named in the URL (routes/searchAndFilter.js:50-65). The ordering of arbitrary fields is store behaviour.
- Regular-expression matching and case folding. `SearchAndFilter.Search` takes the store's matcher as a parameter `matches(pattern, text)`. Only the pattern text is modelled.
- `CartRoutes.GetCart`: the source answers a list of the user's carts. The model keeps one cart per user and answers that cart.
- Request values that are not numbers. A quantity sent as a string (`+=` would concatenate), an update with no quantity (the handler computes a `NaN` total; what the store's save does with it is store behaviour) and a malformed object id (a cast error, i.e. `Error`) are not modelled. Quantities, prices and totals are integers, not JavaScript floating-point numbers.
- A status update whose body has no `orderStatus`, and an admin override with no `totalPrice`, are not modelled. Both are strings and integers here.
- Characters outside the Basic Multilingual Plane. Strings are sequences of Unicode code points. JavaScript's `split("")` splits UTF-16 code units, so a character such as an emoji becomes two surrogate halves with `\s*` between them in the source's pattern. The model keeps it as one character. The n of `SearchAndFilter.PatternLength` counts code units only for text in the Basic Multilingual Plane.
- Concurrency. Each handler runs atomically. The lost updates possible between `findOne` and `save` are not modelled.
- Timestamps. `placedAt` and `createdAt` are given values, and `updatedAt` is not kept. The extra `save()` after `findByIdAndUpdate` changes nothing and is not modelled.
- Fresh ids. The store generates new order ids. `OrderRoutes.PlaceOrder` takes the id as a parameter. The lemmas that need freshness require that no stored order has that id.
- `CartRoutes.RemoveKeepsTotals` and `CartRoutes.UpdateKeepsTotals` assume that names are unique in the catalog and that prices do not change between handlers. Remove and update refund at the current price of the product looked up by id, while items are matched by name. A renamed, re-priced or duplicated product makes the stored total drift.
