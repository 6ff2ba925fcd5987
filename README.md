# Cart pricing and checkout of the shop backend

A Dafny model of the part of the Django shop backend that has real behaviour:
- how a cart line is priced (`compute_unit_price` and `Product.get_price`);
- the cart endpoints `add_to_cart`, `view_cart`, `update_cart_item`, `remove_from_cart` and `clear_cart`;
- the all-or-nothing `checkout`;
- the cart aggregates `Cart.total` and `Cart.items_count`.

Layout:
- `wrappers.dfy` (module `Wrappers`): the `Option` type.
- `models.dfy` (module `Models`): the entities of `shop/models.py` as values, `GetPrice`, and the cart aggregates. `Cart.total` is a loop, so it is the method `CartTotal`, proved against the recursive sum `Total`.
- `cart_items.dfy` (module `CartItems`): the CartItem-table queries and row updates the views run, and lemmas about them:
  - the `get_or_create` lookup;
  - the ownership-checked lookup;
  - merge-or-insert;
  - single-row and bulk deletion;
  - the copy of lines into order items.
- `views.dfy` (module `Views`): `ComputeUnitPrice`, the add-to-cart validation, and the class `Shop`. Its fields are the tables the endpoints change, and its methods are the endpoints.

Modelling choices:
- Money is an integer number of cents. Every money column is a 2-place `DecimalField`, so the `quantize(Decimal("0.01"))` in `compute_unit_price` is the identity.
- The requesting customer is an `Option<nat>` parameter. `None` means that no customer could be resolved.
- Ids are `Option<int>` and are tested for Python truthiness: `None` and `0` are false.
- The `quantity` field is `Absent`, an integer, or not an integer.
- The checkout `shipping` payload is an optional string map. It is truthy when it is present and non-empty.
- An HTTP response is a `Response` value: a 400 carries an `Error`, and `get_object_or_404` gives `NotFound`.
- Each customer has at most one cart, held in a map from customer to cart. `Cart.customer` is a plain ForeignKey (shop/models.py:105), but the views only ever reach a cart through `get_or_create` or `.first()`.
- "The cart's items" is the set of lines whose cart is this cart (`LinesOf`), kept in table order. `CartItem.cart` declares no `related_name` (shop/models.py:126), yet the code reads `cart.items` throughout. Also, `Decimal` is not imported in shop/models.py. The model reads both as evidently intended.
- The modelled `Order` has the fields `checkout` writes: `total_amount`, `payment_status` and `order_status`. The `Order` model declares none of them (shop/models.py:63-75); it has a single `status`.
- As written, those three slips make the code fail at run time; the model does not reproduce this:
  - `CartSerializer` reads `cart.items`, so every answer that serializes a cart raises `AttributeError`. That covers `add_to_cart`, after its cart and line are already saved, and `view_cart`, `update_cart_item` and `remove_from_cart` once a cart exists.
  - `clear_cart` with a cart, and `checkout` at its emptiness test (shop/views.py:319), raise `AttributeError` too.
  - `Order.objects.create` (shop/views.py:325-330) would raise `TypeError` inside the atomic block.
  - `Cart.total` would raise `NameError`.
- `add_to_cart` accepts any integer quantity, including zero and negative ones (shop/views.py:222-225), as the code does. The `PositiveIntegerField` on `CartItem.quantity` only enters as an explicit hypothesis: the non-negativity of `Total` and `ItemsCount` assumes non-negative lines.
- `get_price` returns the discount price when it is truthy, not merely when it is set. A discount of 0.00 therefore falls back to the list price. The model follows the code. `GetPriceVersusDiscountIsSet` states exactly where the two readings differ.

## Model

| member | source | states |
|---|---|---|
| Models.GetPrice | shop/models.py:36-37 | the price is the list price or the discount; it differs from the list price only when a non-zero discount is set, and a set non-zero discount is always what is charged |
| Models.ZeroDiscountFallsBack | shop/models.py:36-37 | a discount of 0.00 does not apply: the list price is charged |
| Models.GetPriceVersusDiscountIsSet | shop/models.py:36-37 | the truthiness test and "the discount when it is set" agree exactly unless the discount is 0 on a product whose list price is not 0 |
| Models.LinesOf | shop/models.py:113 | a cart has no more lines than the table; which lines they are is `LinesOfMembers` |
| Models.LinesOfMembers | shop/models.py:113 | a cart's items are exactly the table's lines that point at that cart |
| Models.Total | shop/models.py:112-117 | with non-negative quantities and unit prices, a cart total is never negative |
| Models.ItemsCount | shop/models.py:119-120 | with non-negative quantities and unit prices, an item count is never negative |
| Models.CartTotal | shop/models.py:112-117 | the accumulator loop, starting at 0.00, returns exactly the sum of unit price times quantity over the cart's lines; the loop invariant is "accumulator = sum of the lines seen so far" |
| Models.LinesOfConcat | shop/models.py:113 | a cart's lines in two consecutive stretches of the table are the lines of each stretch, in order |
| Models.TotalConcat | shop/models.py:112-117 | the total over two runs of lines is the sum of their totals |
| Models.ItemsCountConcat | shop/models.py:119-120 | the item count over two runs of lines is the sum of their counts |
| Models.AddedLineRaisesAggregates | shop/models.py:115-120 | one more line with price p and quantity q raises the total by exactly p*q and the item count by exactly q |
| CartItems.FindLine | shop/views.py:237-242 | the get-or-create lookup finds a line with exactly the (cart, product, variant) key, and finds none only when no line has that key |
| CartItems.FindOwned | shop/views.py:270 | an item is found only when it has the requested id and belongs to the requesting customer's cart; nothing is found for an unresolved customer, or when no such line exists |
| CartItems.AddToLines | shop/views.py:237-247 | merge-or-insert keeps the table's length when the key has a line and grows it by one row otherwise, and never touches a line with another key; its meaning in full is `AddLineForKey`, `AddCartEffects` and `AddKeepsKeysUnique` |
| CartItems.DeleteAt | shop/views.py:277 | deleting one row keeps every other row, in order |
| CartItems.WithoutCart | shop/views.py:303 | after the bulk delete no line of the cart is left, and every remaining line was in the table before; that every other cart's line survives is `WithoutCartKeepsLines` and `WithoutCartKeepsOthers` |
| CartItems.OrderLines | shop/views.py:332-338 | checkout creates one order item per cart line, copying its product, its quantity and its unit price as the price |
| CartItems.OrderLinesTotal | shop/views.py:323-338 | the order's items add up to exactly the total the order is charged |
| CartItems.AddKeepsKeysUnique | shop/views.py:237-247 | merge-or-insert keeps at most one line per (cart, product, variant), where a null variant is a key of its own |
| CartItems.AddKeepsIdsFresh | shop/views.py:237-242 | with a fresh id, merge-or-insert keeps line ids unique and below the next id, which advances only when a line is created |
| CartItems.AddKeepsCartsBelow | shop/views.py:237-242 | an add only refers to carts that already exist |
| CartItems.AddLineForKey | shop/views.py:237-247 | after an add, the key's line holds the new unit price, and its quantity is the old quantity plus q (q for a new line); a new line is appended as one row; every line with another key is unchanged |
| CartItems.AddAggregates | shop/views.py:237-247 | an add raises the cart's item count by exactly q; a new line raises the total by price*q, and a merge re-prices the whole line |
| CartItems.AddLeavesOtherCarts | shop/views.py:237-247 | an add leaves every other cart's lines unchanged |
| CartItems.AddCartEffects | shop/views.py:237-247 | an add raises the cart's item count by exactly q, and no other cart's lines change |
| CartItems.RepeatedAddsMerge | shop/views.py:237-247 | two adds of the same key give one line, holding the summed quantity and the second add's price |
| CartItems.DeleteKeepsUniqueness | shop/views.py:277 | deleting a line keeps keys unique, ids unique and ids below the next id |
| CartItems.DeletedIdGone | shop/views.py:292 | after a delete, no line has the deleted id |
| CartItems.DeleteAggregates | shop/views.py:277 | a delete takes the line's amount off its cart's total and its quantity off the cart's count; other carts keep their lines |
| CartItems.SetQuantityAggregates | shop/views.py:280-281 | setting a quantity moves the cart's total by unit price times the difference, and its count by the difference; other carts keep their lines |
| CartItems.WithoutCartKeepsOthers | shop/views.py:303 | the bulk delete leaves every other cart's lines unchanged, in order |
| CartItems.WithoutCartKeepsLines | shop/views.py:303 | the bulk delete keeps every line of every other cart |
| CartItems.WithoutCartEmpties | shop/views.py:303 | after the bulk delete the cart has no lines |
| CartItems.WithoutCartKeepsKeysUnique | shop/views.py:303 | the bulk delete keeps keys unique |
| CartItems.WithoutCartKeepsIdsUnique | shop/views.py:303 | the bulk delete keeps line ids unique |
| CartItems.WithoutCartKeepsIdsBelow | shop/views.py:303 | the bulk delete keeps line ids below the next id |
| Views.ComputeUnitPrice | shop/views.py:60-65 | the unit price is the effective price plus the variant's surcharge; with no variant, or a zero surcharge, it is exactly the effective price |
| Views.Surcharge | shop/views.py:62-64 | the variant's additional price, and 0.00 without a variant |
| Views.UnitPriceFitsLineColumn | shop/views.py:60-65 | prices that fit their 8- and 6-digit columns give a unit price that fits the 10-digit unit_price column |
| Views.ValidateAdd | shop/views.py:214-232 | a request is accepted exactly when there is a customer, a truthy product id, an integer quantity, an existing product, and, for a truthy variant id, a variant of that product; failures are answered in source order: the three 400s differ from each other, and both failed lookups give 404; an accepted request carries the quantity (1 when absent) and the computed unit price |
| Views.Field | shop/views.py:345-348 | a shipping field is the payload's value for it, or "" when the payload leaves it out |
| Views.ShippingFieldsDefault | shop/views.py:342-349 | the shipping record belongs to the customer and the new order, and each of address, city, zip code and country is the payload's value or "" |
| Views.UpdatedQuantity | shop/views.py:272 | the quantity to apply is the given integer, or the line's current quantity when the field is absent |
| Views.Shop.constructor | shop/models.py:104-131 | an empty shop satisfies the table invariants |
| Views.Shop.CartIdOf | shop/views.py:259 | a customer's cart is found exactly when one exists for them |
| Views.Shop.AddToCart | shop/views.py:208-250 | a rejected request answers with its error and changes nothing; an accepted one gets or creates the customer's cart, applies merge-or-insert to its lines, answers with the cart and its lines, and keeps the table invariants; a cart id is used up only when a cart is created and a line id only when a line is created |
| Views.Shop.AddAccepted | shop/views.py:234-247 | get-or-create the cart, then merge-or-insert the line; no order, order item or shipping record changes |
| Views.Shop.GetOrCreateCart | shop/views.py:234 | the customer's existing cart is returned unchanged; otherwise exactly one cart is created for them with a fresh id, and the next cart id advances by one |
| Views.Shop.MergeLine | shop/views.py:237-247 | the CartItem table becomes the merge-or-insert of the old table; the next line id advances only when a line is created; the invariants hold |
| Views.Shop.ViewCart | shop/views.py:253-263 | with no customer or no cart, the answer is the empty listing with total 0.00; otherwise it is the cart and its lines; no state changes |
| Views.Shop.UpdateCartItem | shop/views.py:266-283 | an item that is not the customer's gives not-found and no change; a non-integer quantity gives 400 and no change; a quantity <= 0 (the current one when absent) deletes the line; any other quantity sets it and keeps the unit price; other carts keep their lines |
| Views.Shop.DeleteLine | shop/views.py:277 | the one row is deleted, its id disappears, other carts keep their lines, and the invariants hold |
| Views.Shop.SetLineQuantity | shop/views.py:280-281 | only the row's quantity changes, other carts keep their lines, and the invariants hold |
| Views.Shop.RemoveFromCart | shop/views.py:286-294 | an item that is not the customer's gives not-found and no change; otherwise exactly that line is deleted, no line keeps its id, other carts are unchanged, and the answer is the cart with its remaining lines |
| Views.Shop.ClearCart | shop/views.py:297-304 | the answer is always "Cart cleared"; without a cart nothing changes; otherwise the cart is kept, all its lines are deleted, and other carts keep their lines |
| Views.Shop.EmptyCart | shop/views.py:303 | the cart's lines are deleted, other carts' lines are kept, and the invariants hold |
| Views.Shop.Checkout | shop/views.py:311-353 | no customer, no cart, or a cart with no lines each fail with no change; otherwise exactly one unpaid, pending order is charged the sum of the lines; one order item is created per line; a shipping record is created only for a non-empty payload, with missing fields empty; the cart is kept but emptied; other carts are unchanged |
| Views.Shop.CommitOrder | shop/views.py:322-351 | the transaction's effects: order, order items, optional shipping record and bulk delete, and nothing else |
| Views.Shop.PlaceOrder | shop/views.py:323-338 | the order is charged the sum of the line amounts; the loop appends exactly one order item per line, in order |

## Left out

- Authentication, JWT registration and login, and the resolution of a user to a customer (`get_customer_for_user`). The customer is an explicit parameter.
- The ModelViewSet classes, serializers, admin and URL routing. A cart answer is the cart id with its lines, not the serialized JSON.
- Parsing the request: what `int()` accepts as a quantity (strings, floats) is folded into `RawQuantity`. A product or variant id that is not an integer is not modelled.
- A `shipping` value that is not a dictionary is not modelled: the payload is a string map.
- Timestamps, images, `stock`, `is_available`, the wishlist, the `__str__` methods, and the fields the views never write: `Order.complete`, `Order.transaction_id`, and `OrderItem.variant`, which checkout leaves null.
- `transaction.atomic` as a database mechanism, storage failures and concurrent requests. Checkout is one step that fails with no change or applies all its effects.
- The database check that rejects a negative `PositiveIntegerField` value on save. Quantities are unbounded integers, as the view code treats them.
- Integer width and decimal digit limits are not enforced on updates. `UnitPriceFitsLineColumn` states the column bounds for the unit price only.
- Views.Shop.AddToCart: its contract states the new table as `AddToLines` of the old one. The per-cart effects are proved as lemmas about `AddToLines` and are not repeated in the method contract: `AddCartEffects` (the count rises by exactly q, other carts are untouched), `AddAggregates` and `AddLineForKey`.
- Views.Shop.Checkout: the order's total is stated as `Total` of the cart's lines. That order items add up to the same amount is the separate lemma `OrderLinesTotal`.
