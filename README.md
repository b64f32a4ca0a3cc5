# Food delivery backend — a Dafny model

This project models the request-handling core of a small food-delivery API.
The API lists restaurants and their menus, seeds sample data, and takes orders.
It is written in Python with FastAPI, pydantic and a MongoDB driver.

The model covers:

- **Identifiers.** `to_obj_id` parses a 24-digit hexadecimal `ObjectId`, in either case, or answers 400. `str(id)` prints it in lower case.
- **Documents and `serialize`.** A stored document is a dict. `serialize` moves `_id` to a string `id` field and returns empty or missing documents unchanged.
- **The schemas.** `Restaurant`, `MenuItem`, `OrderItem` and `Order` each have validation that applies defaults and lists every offending field. The module also records which collection each model is stored in.
- **The store.** Named collections keep their documents in insertion order. Lookups go by id, by `$in` over ids, and by field equality. `create_document` appends a document under an id the driver picks. It fails with a 500 when there is no store or the id is already taken.
- **Checkout (`create_order`).**
  1. Parse every item id.
  2. Fetch the menu items with one query and key them by the string of their id.
  3. Walk the submitted lines, adding price × quantity.
  4. Look up the restaurant and read its delivery fee.
  5. Build the `Order` record and insert it.
  6. Answer `{id, status: "pending", total}`.

  Each failure is a 400, 404 or 500, and the first failing step decides which. `Orders.Checkout` is the specification as a function. `Handlers.CreateOrder` runs the same steps against a `Store` object and is proved equal to it.
- **Seeding (`seed_sample_data`).** When there are no restaurants, the handler inserts two restaurants and four menu items one at a time. Seeding is not atomic: a failed insert leaves the earlier inserts in place.
- **The read handlers.** `list_restaurants`, `get_restaurant`, `get_menu` and `list_orders` are modelled as functions of the store.

Money and ratings are exact integers in hundredths: `VNum(1299)` is 12.99. On such values `round(x, 2)` is the identity.

Inputs that come from outside the service are parameters:

- the ids the driver picks for new documents;
- the `EmailStr` check (`isEmail`);
- whether a database is configured.

## Model

| member | source | states |
|---|---|---|
| Text.Lower | main.py:24-28 | Lower-casing keeps the length and lower-cases each character in place. This is how `str(ObjectId(s))` prints `s`. |
| Text.NatStr | main.py:34 | The numeral `str()` prints for a natural number is non-empty and all digits. Read left to right, it denotes exactly that number. It starts with 0 only for 0. |
| Text.ReadDigitsSnoc | main.py:34 | Reading one more digit at the end of a numeral multiplies its value by ten and adds that digit. |
| Ids.Canon | main.py:24-28 | The printed form of a well-formed id is canonical: 24 lower-case hex digits. A canonical id prints as itself. |
| Ids.ToObjId | main.py:24-28 | Parsing succeeds exactly on 24 hex digits of either case and yields the canonical id. Anything else is 400 "Invalid id". |
| Ids.ParsePrinted | main.py:24-28 | Parsing the printed form of an id gives the id back. |
| Ids.ParseCanon | main.py:24-28 | An id string and its printed form parse to the same id. |
| Ids.UpperCaseIsNotCanonical | main.py:24-28 | An id with an upper-case digit parses, but to a string different from the one submitted. |
| Documents.Serialize | main.py:31-35 | A missing or empty document is returned unchanged. A document without `_id` raises (500). Otherwise the keys are the old keys minus `_id` plus `id`, `id` holds `str(_id)`, and every other field is unchanged. |
| Documents.SerializeStored | main.py:31-35 | A stored document (one with an ObjectId) always serializes, to the document with `_id` replaced by its string under `id`. |
| Documents.SerializeAll | main.py:112 | Serializing a list of stored documents never fails. Entry i is `serialize` of document i. |
| Schemas.RequiredErrors | schemas.py:18 | A required field yields errors exactly when it is absent or null. The errors name that field alone. |
| Schemas.NotNullErrors | schemas.py:56-59 | A non-Optional field with a default rejects null and accepts absence. |
| Schemas.NotNullFields | schemas.py:56-59 | A null in such a field is reported under that field's name, and under no other. |
| Schemas.BoundErrors | schemas.py:22-24 | `ge`/`le` bounds report the field exactly when a given value falls outside them. |
| Schemas.RestaurantErrors | schemas.py:17-24 | The fields the errors name are exactly the offending ones: a missing name, a rating outside 0–5, a negative fee, an ETA below 1. |
| Schemas.ValidateRestaurant | schemas.py:17-24 | Accepts exactly the bodies with no offending field, and the result satisfies the constraints. The name is kept. Each optional field keeps a given value, turns null into None, and takes its default when absent: rating 4.5, fee 2.99, ETA 30, None for the strings. A rejection lists every offending field. |
| Schemas.RestaurantRoundTrip | schemas.py:17-24 | A restaurant written out as a body validates exactly when it is valid, and then comes back unchanged. |
| Schemas.RestaurantDefaults | schemas.py:22-24 | A body with only a name gets rating 4.50, fee 2.99, ETA 30 and no optional strings. |
| Schemas.MenuItemErrors | schemas.py:27-34 | The fields the errors name are exactly the offending ones: missing restaurant_id or name, a missing or negative price, a spicy level outside 0–3. |
| Schemas.ValidateMenuItem | schemas.py:27-34 | Accepts exactly the bodies with no offending field. restaurant_id, name and price are kept. Each optional field keeps a given value, turns null into None, and takes its default when absent: `is_veg` false, `spicy_level` 0, None for the strings. |
| Schemas.MenuItemRoundTrip | schemas.py:27-34 | A menu item written out as a body validates exactly when it is valid, and then comes back unchanged. |
| Schemas.ValidateOrderItem | schemas.py:44-46 | Accepts exactly the bodies that give both fields with quantity ≥ 1, and keeps both values. |
| Schemas.RawOfOrderItemsInjective | schemas.py:55 | Different item lists are written out as different bodies. |
| Schemas.ItemsErrors | schemas.py:55 | A list of items has no errors exactly when every item validates. |
| Schemas.ItemsErrorsUnder | schemas.py:55 | Every error about an item is located under the list field. |
| Schemas.NestedAt | schemas.py:55 | An item's errors, once nested, are all located at that item's position in the list. |
| Schemas.ItemsErrorsAtInvalid | schemas.py:55 | Every item error is located at the position of an item that fails `OrderItem` validation. |
| Schemas.InvalidItemHasError | schemas.py:55 | Every item that fails `OrderItem` validation has an error located at its position. |
| Schemas.ItemsValue | schemas.py:55 | Item i of the validated list is what validating body i yields. |
| Schemas.ItemsValueRoundTrip | schemas.py:55 | Validated items are valid and are written out as the bodies they came from. |
| Schemas.ItemsRoundTrip | schemas.py:44-55 | Valid items written out as bodies validate with no errors and come back unchanged. |
| Schemas.EmailErrors | schemas.py:54 | An email is rejected exactly when it is given and the `EmailStr` check refuses it. |
| Schemas.OrderErrors | schemas.py:49-59 | There are no errors exactly when: restaurant_id is given, the email (if any) passes, items are given and each validates, and no defaulted field is null. |
| Schemas.OrderErrorFields | schemas.py:49-59 | The fields the errors name are exactly the offending ones: a missing restaurant_id, a refused email, missing items or an invalid item, and each null amount or status. |
| Schemas.ValidateOrderNamesOffending | schemas.py:49-59 | A rejected order body names exactly its offending fields. |
| Schemas.ValidateOrder | schemas.py:49-59 | Accepts exactly the same bodies. restaurant_id and the items are kept. Each customer field keeps a given value, turns null into None, and is None when absent. A given amount or status is kept. Absent amounts default to 0 and an absent status to "pending". |
| Schemas.StatusIsUnconstrained | schemas.py:59 | Any status string is accepted and kept, even one outside the documented lifecycle. |
| Schemas.UndocumentedStatusIsKept | schemas.py:59 | "refunded" is not one of the documented statuses, yet an order with it is accepted and stores it. |
| Schemas.OrderDefaults | schemas.py:56-59 | An order given only restaurant and items has zero amounts, no customer fields and status "pending". |
| Schemas.CollectionName | schemas.py:4-8 | Each model's collection is the lower-cased class name. |
| Schemas.CollectionNames | schemas.py:4-8 | The collection names the handlers use ("restaurant", "menuitem", "order") are the ones the naming rule gives. |
| Database.FindOne | main.py:117 | `find_one` by id finds something exactly when some stored document has that id, and what it finds is that document. |
| Database.FindIn | main.py:141 | `$in` returns only stored documents whose id is in the set, and every such document. |
| Database.FindEq | main.py:125 | Field-equality `find` returns exactly the stored documents whose field equals the value. A single document is kept exactly when it matches. |
| Database.FindInNone | main.py:141 | When no stored document carries a requested id, the `$in` lookup returns nothing. |
| Database.FindEqAppend | main.py:125 | The filter keeps store order and multiplicity: filtering two runs of documents is filtering each and concatenating the results. |
| Database.FindEqNone | main.py:125 | When no document holds the value, field-equality `find` returns nothing. |
| Database.Insert | main.py:170 | `create_document` succeeds exactly on a configured store and a new id. It appends the document under that id, returns the id, and leaves other collections unchanged. On failure it is a 500 and changes nothing. |
| Database.InsertWellFormed | main.py:170 | Inserting keeps every collection's ids present and distinct. |
| Database.Take | main.py:176 | A limit of 0 returns all documents. Otherwise the result is a prefix of min(count, abs(limit)) documents. |
| Database.Store.constructor | main.py:8 | The store starts empty and well formed, configured or not. |
| Database.Store.CreateDocument | main.py:170 | The answer and the new store state are those of `Insert` on the old state. |
| Orders.RequestErrors | main.py:130-135 | There are no errors exactly when restaurant_id, items, customer_name and customer_address are given and every item validates. |
| Orders.RequestErrorFields | main.py:130-135 | The fields the errors name are exactly the offending ones: each missing required field, and items when an item is invalid. |
| Orders.ValidateOrderRequest | main.py:130-135 | The request body validates exactly when restaurant_id, items, customer_name and customer_address are given and every item validates. An accepted request keeps the given restaurant_id, items, customer_name and customer_address. The email stays a plain optional string: given, null or absent. A rejected body names exactly its offending fields. |
| Orders.ParseItemIds | main.py:141 | Succeeds exactly when every item id is well formed. Yields their canonical ids in order. Otherwise 400 "Invalid id". |
| Orders.MenuIndex | main.py:141 | Every key maps to a fetched document whose id is that key, and every fetched document's id is a key. |
| Orders.FetchMenu | main.py:141 | Every key of the fetched menu is a canonical id that was requested, and it maps to a stored menu item with that id. |
| Orders.FetchedKey | main.py:141 | A key of the fetched menu is already canonical and is the stored id of some menu item. |
| Orders.RequestedIsFetched | main.py:141 | A stored menu item whose id was requested appears in the fetched menu under that id. |
| Orders.FetchedIsStored | main.py:141 | In a well-formed collection, each requested stored id maps to the one document that holds it. |
| Orders.AsHundredths | main.py:150 | `float()` of a stored value: a number reads as its value in hundredths, an int n as 100·n, a bool as 1 or 0. Null, ids, lists and dicts raise, and so, in this model, do strings. |
| Orders.NumberField | main.py:150 | A missing field reads as 0. A present field succeeds exactly when `float()` accepts its value, and then yields that value. Otherwise it is a 500. |
| Orders.LineAmount | main.py:147-150 | A line whose raw id is not a fetched key fails with 400 "Menu item not found". Otherwise it adds the item's stored price × quantity, or fails with the price's error. |
| Orders.Subtotal | main.py:145-150 | The loop fails only with 400 "Menu item not found" or a 500, and only with the error of some line. |
| Orders.SubtotalAppend | main.py:145-150 | Summing two runs of lines one after the other: the first failure wins, otherwise the sums add. |
| Orders.SubtotalIsLineSum | main.py:145-150 | When every line resolves, the loop's subtotal equals the sum of stored price × quantity, read front to back. |
| Orders.FirstFailingLineDecides | main.py:146-150 | The loop fails with the error of the first line that fails. |
| Orders.FirstMissingItemDecides | main.py:147-149 | If the first failing line is an unknown id, the loop answers 400 "Menu item not found". |
| Orders.DuplicateLinesCountTwice | main.py:146-150 | A line submitted twice is counted twice. |
| Orders.MissingPriceCountsZero | main.py:150 | A fetched item with no price adds 0. |
| Orders.PriceItems | main.py:141-150 | A malformed item id anywhere is 400 "Invalid id", and an empty order 400 "Invalid items". Pricing fails only with those errors, 400 "Menu item not found" or a 500. |
| Orders.RestaurantFee | main.py:152-156 | A malformed restaurant id is 400. An id no restaurant has is 404. Otherwise the answer is `float()` of the delivery_fee of the stored restaurant with that id. |
| Orders.StoredFeeReadsBack | main.py:152-156 | A restaurant stored from its record reads back its delivery fee. A null fee makes `float()` raise, a 500. |
| Orders.StoredPriceReadsBack | main.py:150 | A menu item stored from its record reads back its price. |
| Orders.NullFeeRestaurantIs500 | main.py:152-156 | Once the items price, a restaurant stored with a null delivery fee makes checkout a 500 that changes nothing. |
| Orders.OrderBodyValidates | main.py:159-169 | The `Order` record validates exactly when every item is valid and the email passes. It then holds the request's fields, the amounts, total = subtotal + fee and status "pending". |
| Orders.OrderBodyAccepted | main.py:159-169 | A valid request with an accepted email gives an `Order` record that validates. |
| Orders.AcceptedOrderBody | main.py:159-169 | An `Order` record that validates came from a valid request with an accepted email, and holds the placed order. |
| Orders.PlaceOrder | main.py:157-171 | Succeeds exactly when the order validates and the insert succeeds. It then answers (new id, "pending", subtotal + fee) and the store is the insert's. On failure the store is unchanged. |
| Orders.Checkout | main.py:138-171 | No store is a 500. Any failure leaves the store exactly as it was. A success answers the new id and "pending", and the store stays configured. |
| Orders.MalformedItemIdIs400 | main.py:141 | A malformed item id anywhere gives 400 "Invalid id" and no change. |
| Orders.NoItemResolvesIs400 | main.py:141-143 | When no submitted id names a stored item, the answer is 400 "Invalid items". |
| Orders.EmptyOrderIs400 | main.py:141-143 | An order with no items is 400 "Invalid items". |
| Orders.ItemErrorsPrecedeRestaurant | main.py:141-154 | When pricing fails, that error is the answer whatever the restaurant id. |
| Orders.FirstMissingItemIs400 | main.py:146-149 | If some item was fetched and the first failing line is an unknown raw id, the answer is 400 "Menu item not found". |
| Orders.NonCanonicalItemIdIsNotFound | main.py:141-149 | When line k carries an upper-case id of a stored item and every earlier line resolves, the item is fetched, yet the answer is 400 "Menu item not found". |
| Orders.RestaurantLookupErrors | main.py:152-154 | Once the items price, a malformed restaurant id is 400 and an unknown one 404, with no change to the store. |
| Orders.SuccessPassedEveryStep | main.py:138-171 | A success had a configured store, priced items and a fee, and is the order step applied to them. |
| Orders.SubtotalOkResolves | main.py:145-150 | A loop that succeeds resolved every line and equals the line sum. |
| Orders.PricedLinesResolve | main.py:141-150 | Pricing that succeeds had every id well formed and every line resolved, and equals the line sum. |
| Orders.SuccessPricesEveryLine | main.py:141-150 | A successful checkout priced every line, and its subtotal is the line sum. |
| Orders.OrderInsertAppends | main.py:159-170 | Inserting the order appends exactly one document: new id, "pending", the items, subtotal, fee and total. |
| Orders.SuccessAppendsOneOrder | main.py:157-171 | A success appends exactly that one order and answers its id, "pending" and subtotal + fee. Every other collection is unchanged. |
| Orders.PricingSucceeds | main.py:141-150 | With at least one line, well-formed ids and every line resolving, pricing yields the line sum. |
| Orders.CheckoutReachesPlaceOrder | main.py:138-171 | With the items priced and the fee read, checkout is the order step. |
| Orders.SuccessConditions | main.py:138-171 | Checkout succeeds when every line resolves, the restaurant exists with a numeric or missing fee, the email passes and the new id is unused. |
| Orders.PricedItemsStored | main.py:141-150 | When pricing succeeds, every line named, by its exact raw id, a menu item present in the store. |
| Orders.PlacedItemsExisted | main.py:141-150 | Every item of a placed order named, by its exact raw id, a menu item stored at the time. |
| Orders.CheckoutWellFormed | main.py:170 | Checkout keeps the store well formed. |
| Seed.SampleRestaurantsValidate | main.py:81-98 | Both sample restaurant bodies validate into the sample records. |
| Seed.SampleMenuValidates | main.py:100-103 | All four sample menu bodies validate into the sample records. `is_veg` defaults to false except for Paneer Tikka, and `spicy_level` to 0. |
| Seed.InsertAll | main.py:81-103 | Inserts run in order and the first failure is a 500. Collections only grow, and on a missing store nothing changes. |
| Seed.InsertAllFresh | main.py:81-103 | With fresh ids every insert succeeds, and each collection grows by exactly its planned documents. |
| Seed.InsertAllWellFormed | main.py:81-103 | A run of inserts keeps the store well formed, whether or not one fails. |
| Seed.FreshAfterInsert | main.py:81-103 | The first insert of a fresh plan succeeds and leaves the rest fresh. |
| Seed.SeedPlanShaped | main.py:81-103 | The seed inserts two restaurants then four menu items, under the driver's ids. |
| Seed.AddedBySeedPlan | main.py:81-103 | The seed adds the two restaurants to `restaurant`, the four items to `menuitem`, and nothing else. |
| Seed.Seeding | main.py:75-105 | No store is 500 "Database not configured". A store with a restaurant is left unchanged and answers "ok". |
| Seed.SeedingLeavesRestaurant | main.py:80-98 | After seeding, a configured store has a restaurant, whatever happened. |
| Seed.SeedingIsIdempotent | main.py:80-105 | Seeding twice is seeding once: the second call answers "ok" and changes nothing. |
| Seed.SeedingFresh | main.py:75-105 | On an empty configured store with distinct ids, seeding answers "ok" and adds exactly the two restaurants and four items, in order. Nothing else changes. |
| Seed.SeedingWellFormed | main.py:75-105 | Seeding keeps the store well formed. |
| Seed.SeedingFailureKeepsFirstRestaurant | main.py:80-98 | When the second restaurant insert fails, the first restaurant stays and no menu items are added. The answer is a 500, and every later seed call does nothing. |
| Scenario.SeededStore | main.py:75-105 | The seeded empty store is well formed and holds the two restaurants, the four items and no orders. |
| Scenario.SeededMenuPrices | main.py:100-101 | The first two seeded items are priced 12.99 and 14.50. |
| Scenario.SampleIdsParse | main.py:141 | Printed ids parse to themselves. |
| Scenario.SampleMenuFetched | main.py:141 | The sample order's fetched menu holds both seeded items with their prices. |
| Scenario.SubtotalOfTwoLines | main.py:145-150 | Two resolving lines sum to price × quantity added up. |
| Scenario.SampleOrderPrices | main.py:141-150 | 2 × 12.99 + 1 × 14.50 prices to 40.48. |
| Scenario.SampleRestaurantFee | main.py:152-156 | Pasta Palace's fee is 2.99. |
| Scenario.PlacesOnSeeded | main.py:157-171 | With subtotal 40.48 and fee 2.99, the order is placed with total 43.47. |
| Scenario.SampleOrderAccepted | main.py:138-171 | On any store with the seeded data and no orders, the sample order answers (new id, "pending", 43.47). |
| Scenario.SampleOrderTotal | main.py:138-171 | On the seeded store the sample order answers (new id, "pending", 43.47). |
| Handlers.SubtotalFailsEarly | main.py:146-150 | A failure in the first k lines is the failure of all the lines. |
| Handlers.SumLines | main.py:145-150 | The loop computes exactly the subtotal specification, including the first error. |
| Handlers.PriceOrderItems | main.py:141-150 | Parsing, fetching and summing compute exactly `PriceItems`. |
| Handlers.PlaceOrderIn | main.py:157-171 | The answer and the new store state are those of `PlaceOrder` on the old state. |
| Handlers.CreateOrder | main.py:138-171 | The answer and the new store state are those of `Checkout` on the old state. |
| Handlers.CreateNext | main.py:81-103 | One `create_document` call either ends the run with its error or leaves the rest of the run to follow. |
| Handlers.SeedSampleData | main.py:75-105 | The answer and the new store state are those of `Seeding` on the old state. |
| Reads.ListRestaurants | main.py:110-112 | Answers every restaurant, serialized, in insertion order, or 500 with no store. |
| Reads.GetRestaurant | main.py:115-120 | No store is 500, a malformed id 400, an unknown id 404. Otherwise the answer is the stored restaurant with that id, serialized, with `id` in canonical form. |
| Reads.GetMenu | main.py:123-126 | Answers the menu items whose `restaurant_id` equals the raw string asked for, serialized, in order. |
| Reads.UnknownRestaurantHasEmptyMenu | main.py:123-126 | An id no menu item names gives an empty menu, not a 404. |
| Reads.UpperCaseRestaurantIdHasEmptyMenu | main.py:123-126 | An upper-case spelling of a restaurant id finds no menu items. |
| Reads.ListOrders | main.py:174-177 | Answers the first `limit` orders, serialized, in insertion order. |
| Reads.ListOrdersDefaultLimit | main.py:175-176 | The default lists min(count, 50) orders, oldest first, each under its id. |
| Reads.AppendedOrderIsListed | main.py:170-177 | After an order is appended, the full listing ends with it, with the receipt's id, status and total. |
| Reads.PlacedOrderIsListed | main.py:157-177 | After the order step succeeds, the full listing ends with the placed order, as its receipt describes it. |
| Reads.CheckedOutOrderIsListed | main.py:138-177 | After a successful checkout, the full listing ends with the new order, as its receipt describes it. |

## Left out

- The FastAPI application is not modelled: routing, CORS middleware, uvicorn start-up, response status codes other than those of `HTTPException`, and the `/` and `/test` endpoints.
- database.py is not part of this model. `create_document` and `get_documents` are modelled as an append with a driver-chosen id and as a prefix under pymongo's limit rules: 0 means all, and a negative limit counts as its absolute value. Timestamps that helper may add are left out.
- Mongo query semantics beyond id lookup, `$in` over ids and scalar equality are left out. In particular, matching into arrays is not modelled.
- `ObjectId` parsing follows `bytes.fromhex` only for 24-character hex strings. Its acceptance of 12-byte `bytes` values and of embedded whitespace is left out.
- The `EmailStr` check belongs to a foreign library and is the parameter `isEmail`.
- Request bodies are typed in the model (`RawRestaurant`, `RawOrder` and the others). Pydantic's rejection of a value of the wrong type (a string for `rating`) and its lax coercion ("4.5" to 4.5, 1 to True) cannot be expressed and are left out.
- Schemas.ValidateOrder: keeps `customer_email` verbatim. `EmailStr` stores the normalized address instead (domain lower-cased, surrounding whitespace and any display name removed). Only the accept/reject decision of that foreign check is modelled, as `isEmail`.
- Orders.Checkout: takes any request, including one whose item quantity is below 1. The framework rejects such a body before the handler runs; `Orders.ValidateOrderRequest` models that rejection separately.
- `Customer` (schemas.py:37-41) is not used by any handler and is left out.
- Floating point is not modelled. Amounts are exact hundredths, so values finer than a cent and float rounding error do not arise, and `round(x, 2)` is the identity.
- Dict key order is not modelled, because documents are maps.
- `serialize` mutates the dict it is given. The model returns a new value, so aliasing between the stored document and the response is not captured.
- Concurrency between requests is left out. Each handler runs against one state of the store.
- Documents.Serialize: requires that `_id`, when present, is a scalar. `str()` of a list or dict value is not modelled.
- Reads.ListRestaurants: requires every restaurant to have a distinct ObjectId `_id`. A document without one (a 500 in `serialize`) cannot be written by any modelled handler.
- Reads.GetRestaurant: requires well-formed restaurants, for the same reason.
- Reads.GetMenu: requires well-formed menu items, for the same reason.
- Reads.ListOrders: requires well-formed orders, for the same reason.
- Orders.AsHundredths, Orders.NumberField: `float()` of a string that spells a number (`"12.5"`) returns that number in Python. The model treats every string as a 500, like any other non-numeric value.
- Where the code and its design notes disagree, the model follows the code:
  - The restaurant name is required but may be empty.
  - Order amounts are not constrained to be non-negative.
  - `list_orders` returns orders in insertion order, not most recent first.
  - The restaurant lookup comes after pricing, so an unknown restaurant gives a 404 only when the items price. Item errors come first.
