/**
 * The cart and checkout endpoints of shop/views.py.
 *
 * The database is a `Shop` object whose fields are the tables the endpoints
 * touch; a query becomes a function over a table and a row change an
 * assignment to it. The requesting customer is an explicit parameter
 * (`None` when no customer could be resolved), the catalog is a read-only
 * parameter, and an HTTP response is a `Response` value.
 */
module Views {
  import opened Wrappers
  import opened Models
  import opened CartItems

  /** Product and variant lookup by id. */
  datatype Catalog = Catalog(products: map<int, Product>, variants: map<int, ProductVariant>)

  /** The `quantity` request field: absent, an integer, or something `int()` rejects. */
  datatype RawQuantity = Absent | Given(n: int) | NotInteger

  /** The optional `shipping` object of a checkout request. */
  type ShippingPayload = map<string, string>

  datatype Error = CustomerNotFound | ProductIdRequired | QuantityNotInteger | CartIsEmpty

  datatype Response =
    | CartBody(cartId: nat, lines: seq<CartItem>)   // 200, the serialized cart with its lines
    | Listing(items: seq<CartItem>, total: Cents)    // 200, the body for a customer without a cart
    | ItemRemoved                                    // 200, {"message": "Item removed"}
    | CartCleared                                    // 200, {"message": "Cart cleared"}
    | OrderCreated(orderId: nat)                     // 201
    | BadRequest(error: Error)                       // 400
    | NotFound                                       // 404, from get_object_or_404

  /** Python truthiness of an optional id: None and 0 are false. */
  predicate Truthy(id: Option<int>) {
    id.Some? && id.value != 0
  }

  /** The variant's `additional_price`, and 0.00 without a variant. */
  function Surcharge(v: Option<ProductVariant>): (r: Cents)
    ensures v.None? ==> r == 0
    ensures v.Some? ==> r == v.value.additionalPrice
  {
    if v.Some? then v.value.additionalPrice else 0
  }

  /** `compute_unit_price`: the product's effective price plus the variant's
      surcharge. Money is whole cents, so the final quantization to 0.01 is
      the identity. */
  function ComputeUnitPrice(p: Product, v: Option<ProductVariant>): (r: Cents)
    ensures r - GetPrice(p) == Surcharge(v)
    ensures Surcharge(v) == 0 ==> r == GetPrice(p)
  {
    GetPrice(p) + Surcharge(v)
  }

  /** Prices within their columns give a unit price that fits CartItem.unit_price. */
  lemma UnitPriceFitsLineColumn(p: Product, v: Option<ProductVariant>)
    requires Fits(p.price, ProductPriceLimit)
    requires p.discountPrice.Some? ==> Fits(p.discountPrice.value, ProductPriceLimit)
    requires v.Some? ==> Fits(v.value.additionalPrice, SurchargeLimit)
    ensures Fits(ComputeUnitPrice(p, v), LinePriceLimit)
  {
  }

  /** The accepted fields of an add-to-cart request. */
  datatype AddRequest = AddRequest(customer: nat, productId: int, variantId: Option<int>,
                                   quantity: int, unitPrice: Cents)

  datatype AddCheck = Accept(request: AddRequest) | Reject(response: Response)

  /** The checks `add_to_cart` makes before touching any cart, in the order it
      makes them: a customer, a truthy product_id, an integer quantity
      (default 1), an existing product, and, for a truthy variant_id, a
      variant of that product. */
  function ValidateAdd(catalog: Catalog, customer: Option<nat>, productId: Option<int>,
                       variantId: Option<int>, quantity: RawQuantity): (r: AddCheck)
    ensures r.Accept? <==>
              && customer.Some? && Truthy(productId) && !quantity.NotInteger?
              && productId.value in catalog.products
              && (Truthy(variantId) ==> variantId.value in catalog.variants
                                        && catalog.variants[variantId.value].product == productId.value)
    ensures r.Accept? ==>
              && r.request.customer == customer.value
              && r.request.productId == productId.value
              && r.request.variantId == (if Truthy(variantId) then variantId else None)
              && r.request.quantity == (if quantity.Given? then quantity.n else 1)
              && r.request.unitPrice == ComputeUnitPrice(
                   catalog.products[productId.value],
                   if Truthy(variantId) then Some(catalog.variants[variantId.value]) else None)
    ensures customer.None? ==> r == Reject(BadRequest(CustomerNotFound))
    ensures customer.Some? && !Truthy(productId) ==> r == Reject(BadRequest(ProductIdRequired))
    ensures customer.Some? && Truthy(productId) && quantity.NotInteger? ==> r == Reject(BadRequest(QuantityNotInteger))
    ensures customer.Some? && Truthy(productId) && !quantity.NotInteger? && r.Reject? ==> r == Reject(NotFound)
  {
    if customer.None? then Reject(BadRequest(CustomerNotFound))
    else if !Truthy(productId) then Reject(BadRequest(ProductIdRequired))
    else if quantity.NotInteger? then Reject(BadRequest(QuantityNotInteger))
    else if productId.value !in catalog.products then Reject(NotFound)
    else if Truthy(variantId) && (variantId.value !in catalog.variants
                                  || catalog.variants[variantId.value].product != productId.value)
    then Reject(NotFound)
    else
      var variant := if Truthy(variantId) then Some(catalog.variants[variantId.value]) else None;
      Accept(AddRequest(customer.value, productId.value, if Truthy(variantId) then variantId else None,
                        if quantity.Given? then quantity.n else 1,
                        ComputeUnitPrice(catalog.products[productId.value], variant)))
  }

  /** A shipping field, "" when the payload leaves it out. */
  function Field(payload: ShippingPayload, key: string): (r: string)
    ensures key in payload ==> r == payload[key]
    ensures key !in payload ==> r == ""
  {
    if key in payload then payload[key] else ""
  }

  /** The shipping record checkout creates from a non-empty payload. */
  function ShippingFrom(customer: nat, order: nat, payload: ShippingPayload): ShippingAddress {
    ShippingAddress(customer, order, Field(payload, "address"), Field(payload, "city"),
                    Field(payload, "zip_code"), Field(payload, "country"))
  }

  /** The shipping record belongs to the customer and the order, and each
      address field is the payload's value for it, or "" when it is missing. */
  lemma ShippingFieldsDefault(customer: nat, order: nat, payload: ShippingPayload)
    ensures var r := ShippingFrom(customer, order, payload);
            && r.customer == customer && r.order == order
            && r.address == (if "address" in payload then payload["address"] else "")
            && r.city == (if "city" in payload then payload["city"] else "")
            && r.zipCode == (if "zip_code" in payload then payload["zip_code"] else "")
            && r.country == (if "country" in payload then payload["country"] else "")
  {
  }

  /** The quantity `update_cart_item` applies: the given integer, or the
      line's current quantity when the field is absent. */
  function UpdatedQuantity(quantity: RawQuantity, current: int): (r: int)
    requires !quantity.NotInteger?
    ensures quantity.Absent? ==> r == current
    ensures quantity.Given? ==> r == quantity.n
  {
    if quantity.Given? then quantity.n else current
  }

  class Shop {
    var carts: map<nat, Cart>          // customer id -> that customer's one cart
    var items: seq<CartItem>           // the CartItem table
    var orders: seq<Order>
    var orderItems: seq<OrderItem>
    var shippingAddresses: seq<ShippingAddress>
    var nextCartId: nat
    var nextItemId: nat
    var nextOrderId: nat

    /** One cart per customer with distinct ids; every line points at an
        allocated cart; line ids are unique; at most one line per
        (cart, product, variant); ids to come are fresh. */
    ghost predicate Valid()
      reads this
    {
      && (forall c :: c in carts ==> carts[c].customer == c && carts[c].id < nextCartId)
      && (forall c, d :: c in carts && d in carts && c != d ==> carts[c].id != carts[d].id)
      && (forall i {:trigger items[i].cart} :: 0 <= i < |items| ==> items[i].cart < nextCartId)
      && IdsBelow(items, nextItemId) && IdsUnique(items) && KeysUnique(items)
      && (forall i :: 0 <= i < |orders| ==> orders[i].id < nextOrderId)
    }

    constructor ()
      ensures Valid()
      ensures carts == map[] && items == [] && orders == [] && orderItems == [] && shippingAddresses == []
    {
      carts, items, orders, orderItems, shippingAddresses := map[], [], [], [], [];
      nextCartId, nextItemId, nextOrderId := 1, 1, 1;
    }

    /** `Cart.objects.filter(customer=customer).first()`, as the cart's id. */
    function CartIdOf(customer: Option<nat>): (r: Option<nat>)
      reads this
      ensures r.Some? <==> customer.Some? && customer.value in carts
      ensures r.Some? ==> r.value == carts[customer.value].id
    {
      if customer.Some? && customer.value in carts then Some(carts[customer.value].id) else None
    }

    /** `add_to_cart`. A rejected request changes nothing. An accepted one gets
        or creates the customer's cart, then merges into the line with the
        same (product, variant) or appends one, and answers with the cart.
        What this does to each cart's lines and aggregates is stated about
        `AddToLines` (`AddCartEffects`, `AddAggregates`, `AddLineForKey`). */
    method AddToCart(catalog: Catalog, customer: Option<nat>, productId: Option<int>,
                     variantId: Option<int>, quantity: RawQuantity) returns (r: Response)
      requires Valid()
      modifies this
      ensures Valid()
      ensures orders == old(orders) && orderItems == old(orderItems)
      ensures shippingAddresses == old(shippingAddresses) && nextOrderId == old(nextOrderId)
      ensures var check := ValidateAdd(catalog, customer, productId, variantId, quantity);
              check.Reject? ==> r == check.response && unchanged(this)
      ensures var check := ValidateAdd(catalog, customer, productId, variantId, quantity);
              check.Accept? ==>
                && AddApplied(check.request, old(carts), old(items), old(nextCartId), old(nextItemId))
                && var cart := carts[check.request.customer].id;
                   r == CartBody(cart, LinesOf(items, cart))
    {
      var check := ValidateAdd(catalog, customer, productId, variantId, quantity);
      if check.Reject? {
        return check.response;
      }
      var cart := AddAccepted(check.request);
      r := CartBody(cart, LinesOf(items, cart));
    }

    /** The state after an accepted add: the customer's cart, got or created,
        with the request merged into its lines; a cart id is used up only when
        a cart is created, and a line id only when a line is created. */
    ghost predicate AddApplied(req: AddRequest, carts0: map<nat, Cart>, items0: seq<CartItem>,
                               nextCartId0: nat, nextItemId0: nat)
      reads this
    {
      && req.customer in carts
      && carts == (if req.customer in carts0 then carts0
                   else carts0[req.customer := Cart(nextCartId0, req.customer)])
      && nextCartId == (if req.customer in carts0 then nextCartId0 else nextCartId0 + 1)
      && var k := LineKey(carts[req.customer].id, req.productId, req.variantId);
         && items == AddToLines(items0, k, req.quantity, req.unitPrice, nextItemId0)
         && nextItemId == (if FindLine(items0, k).Some? then nextItemId0 else nextItemId0 + 1)
    }

    /** The part of `add_to_cart` after validation; returns the cart's id. */
    method AddAccepted(req: AddRequest) returns (cart: nat)
      requires Valid()
      modifies this
      ensures Valid()
      ensures orders == old(orders) && orderItems == old(orderItems)
      ensures shippingAddresses == old(shippingAddresses) && nextOrderId == old(nextOrderId)
      ensures AddApplied(req, old(carts), old(items), old(nextCartId), old(nextItemId))
      ensures cart == carts[req.customer].id
    {
      var c := GetOrCreateCart(req.customer);
      MergeLine(LineKey(c.id, req.productId, req.variantId), req.quantity, req.unitPrice);
      cart := c.id;
    }

    /** `Cart.objects.get_or_create(customer=customer)`. */
    method GetOrCreateCart(customer: nat) returns (cart: Cart)
      requires Valid()
      modifies this`carts, this`nextCartId
      ensures Valid()
      ensures customer in carts && cart == carts[customer] && cart.id < nextCartId
      ensures carts == (if customer in old(carts) then old(carts)
                        else old(carts)[customer := Cart(old(nextCartId), customer)])
      ensures nextCartId == (if customer in old(carts) then old(nextCartId) else old(nextCartId) + 1)
    {
      if customer !in carts {
        carts := carts[customer := Cart(nextCartId, customer)];
        nextCartId := nextCartId + 1;
      }
      cart := carts[customer];
    }

    /** `CartItem.objects.get_or_create(cart, product, variant, defaults)` followed,
        for an existing line, by adding to its quantity, overwriting its unit
        price and saving it. */
    method MergeLine(k: LineKey, q: int, price: Cents)
      requires Valid() && k.cart < nextCartId
      modifies this`items, this`nextItemId
      ensures Valid()
      ensures items == AddToLines(old(items), k, q, price, old(nextItemId))
      ensures nextItemId == (if FindLine(old(items), k).Some? then old(nextItemId) else old(nextItemId) + 1)
    {
      var after := AddToLines(items, k, q, price, nextItemId);
      AddKeepsKeysUnique(items, k, q, price, nextItemId);
      AddKeepsIdsFresh(items, k, q, price, nextItemId);
      AddKeepsCartsBelow(items, k, q, price, nextItemId, nextCartId);
      var n := if FindLine(items, k).Some? then nextItemId else nextItemId + 1;
      items, nextItemId := after, n;
    }

    /** `view_cart`: never creates a cart; without one, the empty listing with
        total 0.00. */
    method ViewCart(customer: Option<nat>) returns (r: Response)
      ensures CartIdOf(customer).None? ==> r == Listing([], 0)
      ensures CartIdOf(customer).Some? ==>
                r == CartBody(CartIdOf(customer).value, LinesOf(items, CartIdOf(customer).value))
    {
      if customer.None? {
        return Listing([], 0);
      }
      if customer.value !in carts {
        return Listing([], 0);
      }
      var cart := carts[customer.value];
      r := CartBody(cart.id, LinesOf(items, cart.id));
    }

    /** `update_cart_item`: only a line of the customer's own cart is found;
        a quantity <= 0 deletes it, any other sets its quantity and keeps
        its unit price, an absent quantity keeps the current one. */
    method UpdateCartItem(customer: Option<nat>, itemId: int, quantity: RawQuantity) returns (r: Response)
      requires Valid()
      modifies this
      ensures Valid()
      ensures carts == old(carts) && nextCartId == old(nextCartId) && nextItemId == old(nextItemId)
      ensures orders == old(orders) && orderItems == old(orderItems)
      ensures shippingAddresses == old(shippingAddresses) && nextOrderId == old(nextOrderId)
      ensures var found := FindOwned(old(items), old(CartIdOf(customer)), itemId);
              found.None? ==> r == NotFound && items == old(items)
      ensures var found := FindOwned(old(items), old(CartIdOf(customer)), itemId);
              found.Some? && quantity.NotInteger? ==> r == BadRequest(QuantityNotInteger) && items == old(items)
      ensures var found := FindOwned(old(items), old(CartIdOf(customer)), itemId);
              found.Some? && !quantity.NotInteger? ==>
                var i := found.value;
                var line := old(items)[i];
                var q := UpdatedQuantity(quantity, line.quantity);
                && (forall d :: d != line.cart ==> LinesOf(items, d) == LinesOf(old(items), d))
                && (q <= 0 ==> r == ItemRemoved && items == DeleteAt(old(items), i))
                && (q > 0 ==> && items == old(items)[i := line.(quantity := q)]
                              && r == CartBody(line.cart, LinesOf(items, line.cart)))
    {
      var found := FindOwned(items, CartIdOf(customer), itemId);
      if found.None? {
        return NotFound;
      }
      var i := found.value;
      if quantity.NotInteger? {
        return BadRequest(QuantityNotInteger);
      }
      var line := items[i];
      var q := UpdatedQuantity(quantity, line.quantity);
      if q <= 0 {
        DeleteLine(i);
        return ItemRemoved;
      }
      SetLineQuantity(i, q);
      r := CartBody(line.cart, LinesOf(items, line.cart));
    }

    /** Deletes the line at index `i`; every other cart keeps its lines. */
    method DeleteLine(i: nat)
      requires Valid() && i < |items|
      modifies this`items
      ensures Valid()
      ensures items == DeleteAt(old(items), i)
      ensures forall x :: x in items ==> x.id != old(items)[i].id
      ensures forall d :: d != old(items)[i].cart ==> LinesOf(items, d) == LinesOf(old(items), d)
    {
      forall d | d != items[i].cart
        ensures LinesOf(DeleteAt(items, i), d) == LinesOf(items, d)
      {
        DeleteAggregates(items, i, d);
      }
      DeleteKeepsUniqueness(items, i, nextItemId);
      DeletedIdGone(items, i);
      items := DeleteAt(items, i);
    }

    /** Sets the quantity of the line at index `i`, keeping its unit price;
        every other cart keeps its lines. */
    method SetLineQuantity(i: nat, q: int)
      requires Valid() && i < |items|
      modifies this`items
      ensures Valid()
      ensures items == old(items)[i := old(items)[i].(quantity := q)]
      ensures forall d :: d != old(items)[i].cart ==> LinesOf(items, d) == LinesOf(old(items), d)
    {
      forall d | d != items[i].cart
        ensures LinesOf(items[i := items[i].(quantity := q)], d) == LinesOf(items, d)
      {
        SetQuantityAggregates(items, i, q, d);
      }
      ghost var before := items;
      items := items[i := items[i].(quantity := q)];
      assert forall j :: 0 <= j < |items| ==> KeyOf(items[j]) == KeyOf(before[j]);
    }

    /** `remove_from_cart`: deletes exactly the one line of the customer's own
        cart with that id and answers with the cart. */
    method RemoveFromCart(customer: Option<nat>, itemId: int) returns (r: Response)
      requires Valid()
      modifies this
      ensures Valid()
      ensures carts == old(carts) && nextCartId == old(nextCartId) && nextItemId == old(nextItemId)
      ensures orders == old(orders) && orderItems == old(orderItems)
      ensures shippingAddresses == old(shippingAddresses) && nextOrderId == old(nextOrderId)
      ensures var found := FindOwned(old(items), old(CartIdOf(customer)), itemId);
              found.None? ==> r == NotFound && items == old(items)
      ensures var found := FindOwned(old(items), old(CartIdOf(customer)), itemId);
              found.Some? ==>
                var line := old(items)[found.value];
                && items == DeleteAt(old(items), found.value)
                && (forall x :: x in items ==> x.id != itemId)
                && (forall d :: d != line.cart ==> LinesOf(items, d) == LinesOf(old(items), d))
                && r == CartBody(line.cart, LinesOf(items, line.cart))
    {
      var found := FindOwned(items, CartIdOf(customer), itemId);
      if found.None? {
        return NotFound;
      }
      var i := found.value;
      var cart := items[i].cart;
      DeleteLine(i);
      r := CartBody(cart, LinesOf(items, cart));
    }

    /** `clear_cart`: deletes every line of the customer's cart, keeping the
        cart; without a cart nothing changes. Always answers "Cart cleared". */
    method ClearCart(customer: Option<nat>) returns (r: Response)
      requires Valid()
      modifies this
      ensures Valid()
      ensures r == CartCleared
      ensures carts == old(carts) && nextCartId == old(nextCartId) && nextItemId == old(nextItemId)
      ensures orders == old(orders) && orderItems == old(orderItems)
      ensures shippingAddresses == old(shippingAddresses) && nextOrderId == old(nextOrderId)
      ensures old(CartIdOf(customer)).None? ==> items == old(items)
      ensures old(CartIdOf(customer)).Some? ==>
                var cart := old(CartIdOf(customer)).value;
                && items == WithoutCart(old(items), cart)
                && LinesOf(items, cart) == []
                && (forall d :: d != cart ==> LinesOf(items, d) == LinesOf(old(items), d))
    {
      r := CartCleared;
      if customer.None? || customer.value !in carts {
        return;
      }
      var cart := carts[customer.value].id;
      EmptyCart(cart);
    }

    /** Deletes every line of cart `cart` (the bulk delete shared by clear and checkout). */
    method EmptyCart(cart: nat)
      requires Valid()
      modifies this`items
      ensures Valid()
      ensures items == WithoutCart(old(items), cart)
      ensures LinesOf(items, cart) == []
      ensures forall d :: d != cart ==> LinesOf(items, d) == LinesOf(old(items), d)
    {
      forall d | d != cart
        ensures LinesOf(WithoutCart(items, cart), d) == LinesOf(items, d)
      {
        WithoutCartKeepsOthers(items, cart, d);
      }
      WithoutCartEmpties(items, cart);
      WithoutCartKeepsKeysUnique(items, cart);
      WithoutCartKeepsIdsUnique(items, cart);
      WithoutCartKeepsIdsBelow(items, cart, nextItemId);
      var kept := WithoutCart(items, cart);
      assert forall j :: 0 <= j < |kept| ==> kept[j] in items;
      items := kept;
    }

    /** `checkout`. Without a customer, or without a cart with lines, it fails
        and changes nothing. Otherwise, as one step: one order charged the sum
        of the frozen line amounts, unpaid and pending; one order item per
        line; a shipping record only for a non-empty shipping payload; and the
        cart kept but emptied. */
    method Checkout(customer: Option<nat>, shipping: Option<ShippingPayload>) returns (r: Response)
      requires Valid()
      modifies this
      ensures Valid()
      ensures carts == old(carts) && nextCartId == old(nextCartId) && nextItemId == old(nextItemId)
      ensures customer.None? ==> r == BadRequest(CustomerNotFound) && unchanged(this)
      ensures customer.Some? && (old(CartIdOf(customer)).None? || LinesOf(old(items), old(CartIdOf(customer)).value) == [])
              ==> r == BadRequest(CartIsEmpty) && unchanged(this)
      ensures customer.Some? && old(CartIdOf(customer)).Some? && LinesOf(old(items), old(CartIdOf(customer)).value) != [] ==>
                var cart := old(CartIdOf(customer)).value;
                var lines := LinesOf(old(items), cart);
                var order := old(nextOrderId);
                && r == OrderCreated(order)
                && nextOrderId == order + 1
                && orders == old(orders) + [Order(order, customer.value, Total(lines), Unpaid, Pending)]
                && orderItems == old(orderItems) + OrderLines(order, lines)
                && shippingAddresses == old(shippingAddresses)
                     + (if shipping.Some? && |shipping.value| > 0
                        then [ShippingFrom(customer.value, order, shipping.value)] else [])
                && items == WithoutCart(old(items), cart)
                && LinesOf(items, cart) == []
                && (forall d :: d != cart ==> LinesOf(items, d) == LinesOf(old(items), d))
    {
      if customer.None? {
        return BadRequest(CustomerNotFound);
      }
      var c := customer.value;
      if c !in carts || LinesOf(items, carts[c].id) == [] {
        return BadRequest(CartIsEmpty);
      }
      var order := CommitOrder(c, carts[c], shipping);
      r := OrderCreated(order);
    }

    /** Checkout's transaction for a cart with lines: the order and its items,
        the optional shipping record, then the bulk delete of the lines. */
    method CommitOrder(customer: nat, cart: Cart, shipping: Option<ShippingPayload>) returns (order: nat)
      requires Valid()
      modifies this`orders, this`orderItems, this`nextOrderId, this`shippingAddresses, this`items
      ensures Valid()
      ensures order == old(nextOrderId) && nextOrderId == order + 1
      ensures orders == old(orders) + [Order(order, customer, Total(LinesOf(old(items), cart.id)), Unpaid, Pending)]
      ensures orderItems == old(orderItems) + OrderLines(order, LinesOf(old(items), cart.id))
      ensures shippingAddresses == old(shippingAddresses)
                + (if shipping.Some? && |shipping.value| > 0
                   then [ShippingFrom(customer, order, shipping.value)] else [])
      ensures items == WithoutCart(old(items), cart.id)
      ensures LinesOf(items, cart.id) == []
      ensures forall d :: d != cart.id ==> LinesOf(items, d) == LinesOf(old(items), d)
    {
      order := PlaceOrder(customer, cart);
      if shipping.Some? && |shipping.value| > 0 {
        shippingAddresses := shippingAddresses + [ShippingFrom(customer, order, shipping.value)];
      }
      EmptyCart(cart.id);
    }

    /** Checkout's order creation: the sum of the line amounts (the generator
        sum, accumulated by the same loop as `Cart.total`), one unpaid and
        pending order, then a loop creating one order item per line. */
    method PlaceOrder(customer: nat, cart: Cart) returns (order: nat)
      requires Valid()
      modifies this`orders, this`orderItems, this`nextOrderId
      ensures Valid()
      ensures order == old(nextOrderId) && nextOrderId == order + 1
      ensures orders == old(orders) + [Order(order, customer, Total(LinesOf(items, cart.id)), Unpaid, Pending)]
      ensures orderItems == old(orderItems) + OrderLines(order, LinesOf(items, cart.id))
    {
      var lines := LinesOf(items, cart.id);
      var total := CartTotal(cart, items);
      order := nextOrderId;
      orders := orders + [Order(order, customer, total, Unpaid, Pending)];
      nextOrderId := nextOrderId + 1;
      for k := 0 to |lines|
        invariant orderItems == old(orderItems) + OrderLines(order, lines[..k])
        invariant orders == old(orders) + [Order(order, customer, total, Unpaid, Pending)]
        invariant nextOrderId == order + 1
      {
        assert lines[..k + 1][..k] == lines[..k];
        var line := lines[k];
        orderItems := orderItems + [OrderItem(order, line.product, line.quantity, line.unitPrice)];
      }
      assert lines[..|lines|] == lines;
    }
  }
}
