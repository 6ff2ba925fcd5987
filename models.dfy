/**
 * The shop's entities (shop/models.py) as values, with the two aggregates a
 * cart offers: `Cart.total` and `Cart.items_count`.
 *
 * Every money column is a DecimalField with two decimal places, so money is
 * held here as an integer number of cents and no rounding ever happens.
 */
module Models {
  import opened Wrappers

  /** An amount of money in cents (a 2-place decimal scaled by 100). */
  type Cents = int

  /** Column capacities, in cents: a DecimalField(max_digits = d, decimal_places = 2)
      holds values of absolute value below 10^(d - 2) units, i.e. 10^d cents. */
  const ProductPriceLimit: int := 100_000_000        // Product.price, Product.discount_price (8 digits)
  const SurchargeLimit: int := 1_000_000             // ProductVariant.additional_price (6 digits)
  const LinePriceLimit: int := 10_000_000_000        // CartItem.unit_price, OrderItem.price (10 digits)

  predicate Fits(amount: Cents, limit: int) {
    -limit < amount < limit
  }

  datatype Product = Product(id: int, price: Cents, discountPrice: Option<Cents>)

  datatype ProductVariant = ProductVariant(id: int, product: int, additionalPrice: Cents)

  /** A cart row: its id and the customer owning it (timestamps are not modelled). */
  datatype Cart = Cart(id: nat, customer: nat)

  /** A cart line. `unitPrice` is frozen when the line is added or merged into. */
  datatype CartItem = CartItem(id: nat, cart: nat, product: int, variant: Option<int>,
                               quantity: int, unitPrice: Cents)

  datatype PaymentStatus = Unpaid | Paid

  datatype OrderStatus = Pending | Processing | Shipped | Delivered | Cancelled

  /** An order, with the fields the checkout view writes. */
  datatype Order = Order(id: nat, customer: nat, totalAmount: Cents,
                         paymentStatus: PaymentStatus, orderStatus: OrderStatus)

  datatype OrderItem = OrderItem(order: nat, product: int, quantity: int, price: Cents)

  datatype ShippingAddress = ShippingAddress(customer: nat, order: nat, address: string,
                                             city: string, zipCode: string, country: string)

  /** `Product.get_price`: the discount price when it is set and non-zero
      (a truthiness test), otherwise the list price. */
  function GetPrice(p: Product): (r: Cents)
    ensures r == p.price || (p.discountPrice.Some? && r == p.discountPrice.value)
    ensures r != p.price ==> p.discountPrice.Some? && p.discountPrice.value != 0
    ensures p.discountPrice.Some? && p.discountPrice.value != 0 ==> r == p.discountPrice.value
  {
    if p.discountPrice.Some? && p.discountPrice.value != 0 then p.discountPrice.value else p.price
  }

  /** A discount of 0.00 is falsy, so it does not apply: the list price is charged. */
  lemma ZeroDiscountFallsBack(p: Product)
    requires p.discountPrice == Some(0)
    ensures GetPrice(p) == p.price
  {
  }

  /** Reading "discount price when it is set" and the truthiness test used by
      `get_price` agree except on a discount of exactly zero on a non-free product. */
  lemma GetPriceVersusDiscountIsSet(p: Product)
    ensures GetPrice(p) == (if p.discountPrice.Some? then p.discountPrice.value else p.price)
            <==> !(p.discountPrice == Some(0) && p.price != 0)
  {
  }

  /** The lines of `items` that belong to cart `cart`, in table order
      (the reverse relation the source calls `cart.items`). */
  function LinesOf(items: seq<CartItem>, cart: nat): (r: seq<CartItem>)
    ensures |r| <= |items|
  {
    if items == [] then []
    else
      var last := items[|items| - 1];
      LinesOf(items[..|items| - 1], cart) + (if last.cart == cart then [last] else [])
  }

  /** The cart's lines are exactly the table's lines whose cart is this cart. */
  lemma {:induction false} LinesOfMembers(items: seq<CartItem>, cart: nat)
    ensures forall x :: x in LinesOf(items, cart) <==> x in items && x.cart == cart
  {
    if items != [] {
      var prefix := items[..|items| - 1];
      LinesOfMembers(prefix, cart);
      assert items == prefix + [items[|items| - 1]];
    }
  }

  function LineAmount(it: CartItem): Cents {
    it.unitPrice * it.quantity
  }

  predicate NonNegativeLines(lines: seq<CartItem>) {
    forall i :: 0 <= i < |lines| ==> lines[i].quantity >= 0 && lines[i].unitPrice >= 0
  }

  /** Sum of unit price times quantity over `lines` (the value `Cart.total` returns). */
  function Total(lines: seq<CartItem>): (r: Cents)
    ensures NonNegativeLines(lines) ==> r >= 0
  {
    if lines == [] then 0
    else
      var prefix := lines[..|lines| - 1];
      assert NonNegativeLines(lines) ==> NonNegativeLines(prefix);
      Total(prefix) + LineAmount(lines[|lines| - 1])
  }

  /** `Cart.items_count`: the sum of the line quantities. */
  function ItemsCount(lines: seq<CartItem>): (r: int)
    ensures NonNegativeLines(lines) ==> r >= 0
  {
    if lines == [] then 0
    else
      var prefix := lines[..|lines| - 1];
      assert NonNegativeLines(lines) ==> NonNegativeLines(prefix);
      ItemsCount(prefix) + lines[|lines| - 1].quantity
  }

  /** `Cart.total`: a loop that adds each line's amount to an accumulator
      starting at 0.00; it returns exactly the sum over the cart's lines. */
  method CartTotal(cart: Cart, items: seq<CartItem>) returns (total: Cents)
    ensures total == Total(LinesOf(items, cart.id))
  {
    var lines := LinesOf(items, cart.id);
    total := 0;
    for k := 0 to |lines|
      invariant total == Total(lines[..k])
    {
      assert lines[..k + 1][..k] == lines[..k];
      total := total + lines[k].unitPrice * lines[k].quantity;
    }
    assert lines[..|lines|] == lines;
  }

  lemma {:induction false} LinesOfConcat(a: seq<CartItem>, b: seq<CartItem>, cart: nat)
    ensures LinesOf(a + b, cart) == LinesOf(a, cart) + LinesOf(b, cart)
    decreases |b|
  {
    if b == [] {
      assert a + b == a;
    } else {
      var b' := b[..|b| - 1];
      assert (a + b)[..|a + b| - 1] == a + b';
      LinesOfConcat(a, b', cart);
    }
  }

  lemma {:induction false} TotalConcat(a: seq<CartItem>, b: seq<CartItem>)
    ensures Total(a + b) == Total(a) + Total(b)
    decreases |b|
  {
    if b == [] {
      assert a + b == a;
    } else {
      var b' := b[..|b| - 1];
      assert (a + b)[..|a + b| - 1] == a + b';
      TotalConcat(a, b');
    }
  }

  lemma {:induction false} ItemsCountConcat(a: seq<CartItem>, b: seq<CartItem>)
    ensures ItemsCount(a + b) == ItemsCount(a) + ItemsCount(b)
    decreases |b|
  {
    if b == [] {
      assert a + b == a;
    } else {
      var b' := b[..|b| - 1];
      assert (a + b)[..|a + b| - 1] == a + b';
      ItemsCountConcat(a, b');
    }
  }

  /** Adding one line with price p and quantity q to a cart raises its total
      by exactly p * q and its item count by exactly q. */
  lemma AddedLineRaisesAggregates(lines: seq<CartItem>, x: CartItem)
    ensures Total(lines + [x]) == Total(lines) + x.unitPrice * x.quantity
    ensures ItemsCount(lines + [x]) == ItemsCount(lines) + x.quantity
  {
    assert (lines + [x])[..|lines|] == lines;
  }

  /** Totals over three consecutive runs of lines add up. */
  lemma SumsOfThree(a: seq<CartItem>, m: seq<CartItem>, b: seq<CartItem>)
    ensures Total(a + m + b) == Total(a) + Total(m) + Total(b)
    ensures ItemsCount(a + m + b) == ItemsCount(a) + ItemsCount(m) + ItemsCount(b)
  {
    TotalConcat(a + m, b);
    TotalConcat(a, m);
    ItemsCountConcat(a + m, b);
    ItemsCountConcat(a, m);
  }
}
