# AgriLink marketplace: catalogue, cart and checkout in Dafny

This project models the catalogue, cart and order core of AgriLink, a Django marketplace where buyers order farm produce from many farmers.

- **Catalogue.** The derived fields `Product.save` fills in: slug, SKU and stock status. Also the selling price, the advertised discount percentage and the in-stock test.
- **Carts.** The line totals and the cart totals. The delivery-fee estimate is a base fee of 200 plus 100 for every further farmer. The views that add, update, remove and clear cart rows.
- **Checkout.** The per-farmer grouping shown by the cart and checkout pages, and the stock checks. The totals: subtotal, delivery fee, a 5% service fee, and their sum. The transaction of `process_checkout`: it creates the order with a generated order number, snapshots each cart line into an order line, decrements tracked stock and empties the cart.
- **Small pieces.** The recently-viewed list kept in the session. The identifiers generated on save: `AG<yyyymmdd><6 hex>` order numbers, `FARM-<8 hex>` SKUs and `TKT-<8 hex>` ticket numbers.

Modules:

- `Wrappers`: `Option` and `Result`.
- `Identifiers`: hex upper-casing, the date stamp and the three number formats, with round-trip lemmas.
- `Catalog`: categories, products, prices, discount and images (farmers_app/models.py).
- `Carts`: cart rows, totals, delivery estimate, the per-farmer grouping loop, and the row changes of the cart views.
- `Orders`: the `Order.save` and `OrderItem.save` hooks, order totals, stock checks, stock decrement, and the order `process_checkout` places.
- `Shop`: the database as a `Marketplace` class whose fields are the tables. The state-changing views are its methods.
- `Pages`: `cart_detail`, the `checkout` page and the recently-viewed update of `product_detail`.
- `Support`: `SupportTicket.save`.

How the model represents the source:

- Money and quantities are exact `real`s, standing in for Python's `Decimal`.
- A cart row joined with its product (`select_related`) is a `Line`.
- `save()` hooks are functions that return the row as written.
- The clock, `uuid4().hex` and `slugify` output are parameters. `IsUuidHex` means 32 lower-case hex digits.

## Model

| member | source | states |
|---|---|---|
| Identifiers.UpperHex | farmers_app/models.py:363-364 | upper-casing hex digits keeps the length and maps each digit to its upper-case form |
| Identifiers.UpperHexInjective | farmers_app/models.py:363-364 | two lower-case hex strings with the same upper-case form are equal |
| Identifiers.Digits | farmers_app/models.py:490 | zero-padded decimal field of the given width, all digits |
| Identifiers.DigitsRoundTrip | farmers_app/models.py:490 | reading back a zero-padded number wide enough to hold it gives the number |
| Identifiers.DateStamp | farmers_app/models.py:490 | `%Y%m%d` of a valid date is eight digits |
| Identifiers.DateStampRoundTrip | farmers_app/models.py:490 | the date stamp parses back to the date it was made from |
| Identifiers.OrderNumber | farmers_app/models.py:488-491 | order number is 16 characters (within max_length 20): "AG", the eight-digit date stamp, six upper-case hex digits |
| Identifiers.OrderNumberCarriesDate | farmers_app/models.py:490 | the date can be recovered from characters 2..10 of an order number |
| Identifiers.OrderNumbersOfDifferentDays | farmers_app/models.py:490 | numbers generated on different days never collide, whatever the uuids |
| Identifiers.Sku | farmers_app/models.py:363-364 | SKU is "FARM-" plus eight upper-case hex digits, 13 characters |
| Identifiers.SkuDeterminedByHex | farmers_app/models.py:363-364 | equal SKUs come from uuids with the same first eight hex digits |
| Identifiers.TicketNumber | farmers_app/models.py:827-830 | ticket number is "TKT-" plus eight upper-case hex digits, within max_length 20 |
| Catalog.SaveCategory | farmers_app/models.py:237-240 | a blank slug gets the slugified name; a set slug and every other field are kept |
| Catalog.SaveCategoryIdempotent | farmers_app/models.py:237-240 | a second save never changes the slug the first one gave |
| Catalog.SaveSubCategory | farmers_app/models.py:260-263 | same rule as categories: slug filled only when blank |
| Catalog.StatusFor | farmers_app/models.py:366-372 | sold out iff quantity is 0; low stock iff nonzero and at most the threshold; available iff above it |
| Catalog.ProductSave | farmers_app/models.py:358-374 | slug and SKU generated only when blank; stock status recomputed on every save, so harvesting/pre-order never survive a save; in stock iff quantity nonzero; nothing else changes |
| Catalog.ProductSaveIdempotent | farmers_app/models.py:358-374 | saving a saved product again changes nothing |
| Catalog.SellingPrice | farmers_app/models.py:376-379 | the discount price whenever it is set and nonzero; the price when there is no discount or it is 0 (Decimal zero is falsy); never above the price unless the discount is |
| Catalog.IsInStock | farmers_app/models.py:388-390 | in stock exactly in the states available and low stock (a predicate; ProductSave ties it to a nonzero quantity) |
| Catalog.HasDiscountBelowPrice | farmers_app/models.py:383 | the guard of the discount percentage: a discount that is set, nonzero and below the price (a predicate) |
| Catalog.RoundHalfEven | farmers_app/models.py:384 | Python `round`: within 0.5 of the argument, ties to the even integer |
| Catalog.RatioBelowOne | farmers_app/models.py:383-384 | a positive discount below the price gives a percentage strictly between 0 and 100 |
| Catalog.RatioAboveOne | farmers_app/models.py:383-384 | a negative discount on a positive price gives a percentage off above 100 |
| Catalog.DiscountPercentage | farmers_app/models.py:381-386 | 0 unless the discount is set, nonzero and below the price; otherwise the percentage off rounded half-to-even (within 0.5 of the exact value), 0..100 for a positive price and a positive discount, at least 100 for a positive price and a negative discount (the source does not forbid one); undefined (division by zero) exactly when the price is 0 under the guard |
| Catalog.DiscountAbovePriceIsCharged | farmers_app/models.py:376-386 | a discount at or above the price is what the buyer pays, while 0% off is advertised |
| Catalog.PositiveDiscountSellsBelowPrice | farmers_app/models.py:376-386 | a positive advertised discount implies a selling price below the price |
| Catalog.SaveImage | farmers_app/models.py:408-414 | the row is written; a main image clears the main flag of every other image of its product and touches no other row |
| Catalog.SaveImageKeepsOneMain | farmers_app/models.py:408-414 | saving an image preserves "at most one main image per product" |
| Carts.Lines | farmers_app/views.py:849 | the joined lines pair each cart row with its current product row, in order |
| Carts.LineTotal | farmers_app/models.py:740-742 | quantity times selling price; 0 for a zero quantity and non-negative for non-negative inputs |
| Carts.TotalItems | farmers_app/models.py:696-699 | the sum of the row quantities: 0 for an empty cart, non-negative for non-negative quantities, positive for a non-empty cart of positive quantities |
| Carts.TotalAmount | farmers_app/models.py:701-707 | the sum of the line totals; a one-row cart costs its line total (TotalAmountAppend and TotalAmountPermutation give the sum's laws) |
| Carts.TotalAmountAppend | farmers_app/models.py:701-707 | the cart total of two row lists is the sum of their totals |
| Carts.TotalAmountPermutation | farmers_app/models.py:701-707 | the cart total does not depend on the query's row order |
| Carts.TotalAmountRemoveAt | farmers_app/models.py:701-707 | removing a row removes exactly its line total from the cart total |
| Carts.TotalAmountNonNegative | farmers_app/models.py:701-707 | with non-negative quantities and prices the total is non-negative |
| Carts.FeeForFarmers | farmers_app/models.py:709-723 | 200 for one farmer, plus 100 for each further farmer, never below 200 |
| Carts.FeeMonotone | farmers_app/models.py:709-723 | more farmers never make delivery cheaper |
| Carts.DeliveryFeeEstimate | farmers_app/models.py:709-723 | 0 without a buyer; otherwise the fee for the number of distinct farmers |
| Carts.DeliveryFeeAddLine | farmers_app/models.py:709-723 | for a non-empty cart, a row from a farmer already in it leaves the estimate unchanged; from a new farmer it adds 100 |
| Carts.GroupIndex | farmers_app/views.py:855 | the position of the farmer's group, or -1 exactly when the farmer has none |
| Carts.DistinctFarmersCount | farmers_app/views.py:871 | groups with distinct farmers are as many as their farmers |
| Carts.GroupAddLine | farmers_app/views.py:861-862 | adding a line to its farmer's group keeps every group exact and the subtotals summing to the total |
| Carts.GroupByFarmer | farmers_app/views.py:851-862 | one group per distinct farmer, each holding exactly that farmer's lines in cart order with their total as subtotal; the subtotals add up to the cart total |
| Carts.AddToGroup | farmers_app/views.py:853-862 | one loop step: opening the farmer's group when missing and appending the line keeps the grouping exact |
| Carts.QuantityError | farmers_app/views.py:880-900 | the three quantity checks in source order: not positive, below minimum order, above a tracked stock |
| Carts.AddError | farmers_app/views.py:779-792 | the quantity checks, then the in-stock check; passes iff all pass |
| Carts.ProductIndex | farmers_app/views.py:797-801 | the cart's row of the product, or -1 exactly when there is none |
| Carts.ItemIndex | farmers_app/views.py:886 | the cart's row with that id, or -1 exactly when there is none |
| Carts.Clamp | farmers_app/views.py:807-809 | the merged quantity is cut to the available stock only for tracked products |
| Carts.AddItem | farmers_app/views.py:797-812 | a new row with the asked quantity, or the existing row grown by it and clamped, others untouched |
| Carts.AddItemMerges | farmers_app/views.py:797-812 | after an add the product has exactly one row, within tracked stock, other products' rows unchanged |
| Carts.AddTwiceMerges | farmers_app/views.py:797-812 | two adds of a new product give one row with the clamped sum |
| Carts.UpdateItem | farmers_app/views.py:885-900 | missing row first, then the quantity checks in order; on success only that row's quantity changes |
| Carts.RemoveItem | farmers_app/views.py:917-925 | missing row fails; otherwise exactly that row is deleted, the others keep their order |
| Orders.SaveOrder | farmers_app/models.py:488-491 | a blank order number is filled with a well-formed number recording today's date; nothing else changes |
| Orders.SaveOrderIdempotent | farmers_app/models.py:488-491 | saving again never renumbers an order |
| Orders.SaveOrderItem | farmers_app/models.py:523-529 | name, SKU, unit and farmer copied from the product; total is quantity times unit price |
| Orders.Snapshot | farmers_app/views.py:1092-1102 | the order line records the product, farmer, quantity, the product's selling price, the cart line's total, and the product's name, SKU and unit |
| Orders.Snapshots | farmers_app/views.py:1091-1102 | one order line per cart line, in order |
| Orders.OrderTotalItems | farmers_app/models.py:493-495 | the sum of the order's line quantities, non-negative for non-negative quantities (SnapshotsTotals ties it to the cart) |
| Orders.UniqueFarmers | farmers_app/models.py:497-500 | the set of farmers of the order lines' live products (SnapshotFarmers ties it to the cart's farmers) |
| Orders.SnapshotsTotals | farmers_app/models.py:493-495 | the order lines carry the cart's item count and amount |
| Orders.LineStockIssue | farmers_app/views.py:1060-1067 | a line fails when the product is not in stock (reported as not in stock), or when its quantity exceeds a tracked stock (reported with the product and its available quantity) |
| Orders.StockIssues | farmers_app/views.py:971-982 | at most one issue per line; empty iff all lines are in stock |
| Orders.StockIssuesListsEveryFailure | farmers_app/views.py:971-982 | an issue is listed exactly when some line of the cart has it |
| Orders.StockIssuesAppend | farmers_app/views.py:971-982 | the issues of a cart are those of its first part followed by those of the rest, so they come in cart order |
| Orders.StockIssuesSingle | farmers_app/views.py:973-978 | one line contributes its own issue and nothing else |
| Orders.FirstStockIssue | farmers_app/views.py:1059-1067 | the first failing line; none iff all lines are in stock |
| Orders.FirstIssueIsFirstListed | farmers_app/views.py:971-982 | the checkout page and the final check agree on the first problem |
| Orders.CheckoutTotals | farmers_app/views.py:1069-1073 | subtotal is the cart total, delivery is the estimate, service fee 5%, total is their sum and at least the subtotal |
| Orders.Tracked | farmers_app/views.py:1105 | a product's stock is tracked when its quantity is positive (a predicate) |
| Orders.RestockAsWritten | farmers_app/views.py:1104-1107 | the decrement as written: only the quantity changes, the stored stock status stays |
| Orders.SoldOutStaysOnSale | farmers_app/views.py:1104-1107 | any tracked product on sale, sold down to 0, keeps its status, stays in stock and untracked, and passes every add and stock check for any quantity meeting the minimum |
| Orders.SoldOutExample | farmers_app/views.py:1104-1107 | the finding's input: 5 kg at low stock, 5 kg sold, then 1000 kg pass the add and stock checks |
| Orders.Restock | farmers_app/views.py:1104-1107 | the decrement with the status recomputed as Product.save does |
| Orders.RestockSellsOut | farmers_app/views.py:1104-1107 | selling the whole stock marks the product sold out and refuses further adds |
| Orders.RestockAll | farmers_app/views.py:1091-1107 | the product rows after the loop, each tracked line's product written with RestockAsWritten (its properties are RestockAllKeys and RestockAllEffect) |
| Orders.RestockAllKeys | farmers_app/views.py:1091-1107 | the decrement loop adds and removes no product rows |
| Orders.RestockAllEffect | farmers_app/views.py:1091-1107 | products not in the cart are untouched; each tracked product loses exactly the ordered quantity, never below 0, and keeps its stored stock status; untracked ones are untouched |
| Orders.CheckoutRejection | farmers_app/views.py:1028-1067 | each error iff its check fails and every earlier one passes, in source order: profile, empty cart, delivery fields, county, stock (the first failing line), order-number uniqueness; none iff all pass |
| Orders.PlacedOrder | farmers_app/views.py:1076-1102 | a pending order with the checkout totals and the cart's snapshots |
| Orders.SnapshotFarmers | farmers_app/models.py:497-500 | the farmers of the order lines are the farmers of the cart |
| Orders.PlacedOrderConsistent | farmers_app/views.py:1069-1102 | the placed order's lines sum to its subtotal, the total adds delivery and 5%, and the delivery fee is the fee for its distinct farmers |
| Orders.DiscountedCheckoutScenario | farmers_app/views.py:1069-1107 | 5 units at a discount price of 80 from one farmer: 400 + 200 + 20 = 620, stock 50 to 45 with the status as stored before |
| Shop.AddKeepsRowsValid | farmers_app/models.py:733-734 | an add keeps one row per product and fresh ids |
| Shop.UpdateKeepsRowsValid | farmers_app/views.py:899-900 | an update keeps the cart's rows valid |
| Shop.RemoveKeepsRowsValid | farmers_app/views.py:921 | a delete keeps the cart's rows valid |
| Shop.InsertKeepsNumbersDistinct | farmers_app/models.py:488-491 | an order with an unused number keeps order numbers unique |
| Shop.Marketplace.Valid | farmers_app/models.py:733-734 | the database invariant: cart rows point at products, one row per product per cart, distinct row ids below the next id, order ids below the next id, unique order numbers, at most one main image per product |
| Shop.Marketplace.constructor | farmers_app/models.py:686-734 | a database with the given products and counties and no carts, orders or images, satisfying Valid |
| Shop.Marketplace.AddToCart | farmers_app/views.py:771-812 | succeeds iff the product exists, is active and passes the add checks; otherwise ProductUnavailable or the first failing check, with nothing changed; on success the cart is the merged rows |
| Shop.Marketplace.UpdateCartItem | farmers_app/views.py:878-900 | the cart becomes the updated rows, or nothing changes and the error is returned |
| Shop.Marketplace.RemoveCartItem | farmers_app/views.py:917-925 | the row is gone, or nothing changes and ItemNotFound is returned |
| Shop.Marketplace.ClearCart | farmers_app/views.py:943-946 | the cart keeps no rows, nothing else changes |
| Shop.Marketplace.OpenCart | farmers_app/views.py:729-754 | the existing cart, or a new empty one |
| Shop.Marketplace.SaveProduct | farmers_app/models.py:358-374 | the product row becomes the saved product, nothing else changes |
| Shop.Marketplace.SaveProductImage | farmers_app/models.py:408-414 | the image table becomes SaveImage of the old one, keeping at most one main image per product |
| Shop.Marketplace.NumberTaken | farmers_app/models.py:446 | some stored order already carries the number (the unique constraint; a predicate) |
| Shop.Marketplace.ProcessCheckout | farmers_app/views.py:1022-1110 | for a buyer's own cart (as `get_or_create_cart` hands it over): fails iff a check fails, with that error and nothing changed; otherwise the new order is PlacedOrder, the products are RestockAll of the old rows (quantity-only decrement, as the code stores it), and the cart is empty; the order-id counter moves on by one only on success |
| Shop.Marketplace.CreateOrder | farmers_app/views.py:1069-1110 | the writes after the checks: the order row under the next id, its lines, the decrement, the emptied cart, and the id counter moved on by one |
| Shop.FindStockIssue | farmers_app/views.py:1059-1067 | the loop's early exit reports exactly the first failing line |
| Shop.PlaceLines | farmers_app/views.py:1091-1107 | the loop builds exactly the snapshots and the product rows with only the tracked quantities decremented |
| Shop.FirstStockIssueAt | farmers_app/views.py:1059-1067 | a failing line after passing ones is the first issue |
| Pages.CartDetail | farmers_app/views.py:846-872 | the groups are exact per farmer, the subtotal is the cart total and the sum of the group subtotals, the estimate is the delivery fee, and the total adds them |
| Pages.CheckoutPage | farmers_app/views.py:956-1001 | profile required, then non-empty cart, then every failing line listed; success iff all lines are in stock, with the checkout totals and groups that hold exactly each farmer's lines with their totals |
| Pages.FirstIndex | farmers_app/views.py:216-217 | the position of the first occurrence: it holds the id and no earlier entry does |
| Pages.RemoveFirst | farmers_app/views.py:216-217 | `list.remove`: exactly the first occurrence is cut out and the entries before and after it keep their order; absent ids leave the list as it was |
| Pages.Without | farmers_app/views.py:216-217 | the list without the id, others in order |
| Pages.RemoveFirstIsWithout | farmers_app/views.py:216-217 | on a duplicate-free list, removing the first occurrence removes the id entirely |
| Pages.WithoutDistinct | farmers_app/views.py:216-219 | filtering keeps a list duplicate-free |
| Pages.RecordView | farmers_app/views.py:215-220 | the viewed product is first, at most 10 ids, and nothing new but it enters |
| Pages.RecordViewKeepsOrder | farmers_app/views.py:215-220 | a duplicate-free list stays duplicate-free; behind the viewed product come the others in their old order, cut to 10 |
| Pages.RecordViewIdempotent | farmers_app/views.py:215-220 | viewing the same product twice in a row changes nothing the second time |
| Pages.RecordViewDropsOldest | farmers_app/views.py:215-220 | a new product viewed with ten ids recorded pushes out the oldest |
| Support.SaveTicket | farmers_app/models.py:827-830 | a blank ticket number is filled with a well-formed one; nothing else changes |
| Support.SaveTicketIdempotent | farmers_app/models.py:827-830 | a saved ticket keeps its number on later saves |

## Left out

- Request parsing, redirects, flash messages and JSON responses are left out. The views' outcomes are results and error values.
- The session and user lookup in `get_or_create_cart` is left out. The current cart is an input; `Shop.Marketplace.OpenCart` keeps only its get-or-create effect.
- Whitespace stripping of the form fields is left out; the fields arrive already stripped.
- A non-numeric county id is left out. `County.objects.get` raises `ValueError` for it, which is not caught. The county is an `Option` of a numeric id.
- Catalogue listing, search and filtering are left out, as are review statistics, related products and the product detail page beyond the recently-viewed update. They are not part of this core.
- Image resizing in `ProductImage.save` is left out: it is file I/O.
- Concurrency is left out: the model runs operations one at a time, which the source does not guarantee. `transaction.atomic` makes `process_checkout` all-or-nothing but takes no row lock. Two concurrent checkouts can both pass the stock check before either decrements (farmers_app/views.py:1059-1107), and that overselling is not modelled.
- Decimal quantisation to two places and Decimal's 28-digit precision in the discount division are left out. Money is exact.
- The order status lifecycle after `pending`, payments, M-Pesa and notifications are left out. They are not part of this core.
- Slug and SKU uniqueness constraints are left out: a generated SKU is assumed not to collide. Order-number uniqueness is modelled as the `DuplicateOrderNumber` error that rolls the transaction back.
- Years below 1000 are formatted to four digits. Some platforms' `strftime` writes fewer.
- Field length limits other than the order-number and ticket-number `max_length` are left out.
- Admin, templates and front-end scripts are left out.
- Save hooks are functions returning the row as written. The source mutates the model instance in place before writing it.
- Catalog.DiscountPercentage: the result is `RoundHalfEven` of the exact rational percentage. `Decimal` division to 28 significant digits is not reproduced, so a quotient that Decimal rounds onto or off a .5 tie may differ.
- Carts.TotalAmountNonNegative: it needs non-negative quantities and prices. The source puts no lower bound on prices or stock (no validators on those fields), and quantities are positive only through the view checks, so the lemma takes non-negativity as a premise.
- Pages.RecordViewKeepsOrder: the order and no-duplicate guarantees need a duplicate-free session list. Every list this view writes is duplicate-free, but a list planted in the session by other code need not be.

Where parts of the source disagree with each other, the model follows the code that runs:

- `process_checkout` stores only the new quantity after an order (farmers_app/views.py:1104-1107). `Shop.Marketplace.ProcessCheckout` therefore leaves each product's stored stock status as it was. The intended decrement, with the status recomputed, is `Orders.Restock` under "## Findings".

- `selling_price` (farmers_app/models.py:376-379) returns the discount price whenever it is set and nonzero, even when it is not below the price. `discount_percentage` then reports 0.
- `Product.save` recomputes the stock status on every save (farmers_app/models.py:366-372). A product marked harvesting or pre-order is therefore turned into sold out, low stock or available by its next save.

## Findings

| source | as written | input that shows it | evidently intended | confidence | as-written member | corrected member |
|---|---|---|---|---|---|---|
| farmers_app/views.py:1104-1107 | after an order the stock is decremented with `save(update_fields=['available_quantity'])`, so the stock-status recomputation of `Product.save` is never stored; a product sold down to 0 keeps `low_stock`/`available`, and since 0 means "untracked" it then accepts any quantity | a product with 5 kg in stock, status low stock, bought 5 kg; afterwards an add of 1000 kg passes every check | the status follows the new quantity, so a product sold out refuses further orders | not executed | Orders.SoldOutStaysOnSale | Orders.RestockSellsOut |
