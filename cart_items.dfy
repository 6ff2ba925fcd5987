/**
 * The CartItem table and the queries and row updates the cart views run on it
 * (shop/views.py): the get-or-create lookup by (cart, product, variant), the
 * ownership-checked lookup by id, merge-or-insert, deletion of one row, bulk
 * deletion of a cart's rows, and the copy of a cart's lines into order items.
 */
module CartItems {
  import opened Wrappers
  import opened Models

  /** The key repeated adds merge on; a null variant is a key of its own. */
  datatype LineKey = LineKey(cart: nat, product: int, variant: Option<int>)

  function KeyOf(it: CartItem): LineKey {
    LineKey(it.cart, it.product, it.variant)
  }

  /** At most one line per (cart, product, variant). */
  ghost predicate KeysUnique(items: seq<CartItem>) {
    forall i, j {:trigger KeyOf(items[i]), KeyOf(items[j])} :: 0 <= i < j < |items| ==> KeyOf(items[i]) != KeyOf(items[j])
  }

  ghost predicate IdsUnique(items: seq<CartItem>) {
    forall i, j {:trigger items[i].id, items[j].id} :: 0 <= i < j < |items| ==> items[i].id != items[j].id
  }

  ghost predicate IdsBelow(items: seq<CartItem>, bound: nat) {
    forall i {:trigger items[i].id} :: 0 <= i < |items| ==> items[i].id < bound
  }

  /** The lookup half of `CartItem.objects.get_or_create(cart, product, variant)`. */
  function FindLine(items: seq<CartItem>, k: LineKey): (r: Option<nat>)
    ensures r.Some? ==> r.value < |items| && KeyOf(items[r.value]) == k
    ensures r.None? <==> forall i :: 0 <= i < |items| ==> KeyOf(items[i]) != k
  {
    if items == [] then None
    else if KeyOf(items[|items| - 1]) == k then Some(|items| - 1)
    else FindLine(items[..|items| - 1], k)
  }

  /** The lookup sees only the keys of the lines. */
  lemma {:induction false} FindLineSameKeys(s: seq<CartItem>, t: seq<CartItem>, k: LineKey)
    requires |s| == |t| && forall j :: 0 <= j < |s| ==> KeyOf(s[j]) == KeyOf(t[j])
    ensures FindLine(s, k) == FindLine(t, k)
  {
    if s != [] {
      FindLineSameKeys(s[..|s| - 1], t[..|t| - 1], k);
    }
  }

  /** `get_object_or_404(CartItem, id = itemId, cart__customer = customer)`, where
      `cart` is the id of the requesting customer's cart, if any. */
  function FindOwned(items: seq<CartItem>, cart: Option<nat>, itemId: int): (r: Option<nat>)
    ensures r.Some? ==> cart.Some? && r.value < |items|
                        && items[r.value].id == itemId && items[r.value].cart == cart.value
    ensures r.None? <==> cart.None? ||
                         forall i :: 0 <= i < |items| ==> items[i].id != itemId || items[i].cart != cart.value
  {
    if cart.None? || items == [] then None
    else if items[|items| - 1].id == itemId && items[|items| - 1].cart == cart.value then Some(|items| - 1)
    else FindOwned(items[..|items| - 1], cart, itemId)
  }

  /** `add_to_cart` on the table: a line with key `k` has `q` added to its
      quantity and its unit price overwritten; with no such line, one new line
      (with id `freshId`) is appended. */
  function AddToLines(items: seq<CartItem>, k: LineKey, q: int, price: Cents, freshId: nat): (r: seq<CartItem>)
    ensures |r| == (if FindLine(items, k).Some? then |items| else |items| + 1)
    ensures forall i :: 0 <= i < |items| && KeyOf(items[i]) != k ==> r[i] == items[i]
  {
    match FindLine(items, k)
    case Some(i) => items[i := items[i].(quantity := items[i].quantity + q, unitPrice := price)]
    case None => items + [CartItem(freshId, k.cart, k.product, k.variant, q, price)]
  }

  /** `cart_item.delete()`. */
  function DeleteAt(items: seq<CartItem>, i: nat): (r: seq<CartItem>)
    requires i < |items|
    ensures |r| == |items| - 1
    ensures forall j :: 0 <= j < |r| ==> r[j] == items[if j < i then j else j + 1]
  {
    items[..i] + items[i + 1..]
  }

  /** `cart.items.all().delete()`: every line of `cart` removed, the rest kept in order. */
  function WithoutCart(items: seq<CartItem>, cart: nat): (r: seq<CartItem>)
    ensures |r| <= |items|
    ensures forall i :: 0 <= i < |r| ==> r[i].cart != cart
    ensures forall x :: x in r ==> x in items
  {
    if items == [] then []
    else
      var last := items[|items| - 1];
      WithoutCart(items[..|items| - 1], cart) + (if last.cart != cart then [last] else [])
  }

  /** The order items checkout creates: one per cart line, copying the
      product, the quantity and the frozen unit price. */
  function OrderLines(order: nat, lines: seq<CartItem>): (r: seq<OrderItem>)
    ensures |r| == |lines|
    ensures forall i :: 0 <= i < |lines| ==>
              r[i] == OrderItem(order, lines[i].product, lines[i].quantity, lines[i].unitPrice)
  {
    if lines == [] then []
    else
      var last := lines[|lines| - 1];
      OrderLines(order, lines[..|lines| - 1]) + [OrderItem(order, last.product, last.quantity, last.unitPrice)]
  }

  /** Sum of price times quantity over order items. */
  function OrderItemsTotal(ois: seq<OrderItem>): Cents {
    if ois == [] then 0
    else OrderItemsTotal(ois[..|ois| - 1]) + ois[|ois| - 1].price * ois[|ois| - 1].quantity
  }

  // ---------------------------------------------------------------------------
  // Order items

  /** The order's items add up to the cart total the order was charged. */
  lemma {:induction false} OrderLinesTotal(order: nat, lines: seq<CartItem>)
    ensures OrderItemsTotal(OrderLines(order, lines)) == Total(lines)
  {
    if lines != [] {
      var r := OrderLines(order, lines);
      assert r[..|r| - 1] == OrderLines(order, lines[..|lines| - 1]);
      OrderLinesTotal(order, lines[..|lines| - 1]);
    }
  }

  // ---------------------------------------------------------------------------
  // How one row change moves a cart's lines and aggregates

  function Share(x: CartItem, cart: nat): seq<CartItem> {
    if x.cart == cart then [x] else []
  }

  lemma ShareAggregates(x: CartItem, cart: nat)
    ensures Total(Share(x, cart)) == (if x.cart == cart then LineAmount(x) else 0)
    ensures ItemsCount(Share(x, cart)) == (if x.cart == cart then x.quantity else 0)
  {
    assert [x][..0] == [];
  }

  lemma LinesOfSingle(x: CartItem, cart: nat)
    ensures LinesOf([x], cart) == Share(x, cart)
  {
    assert [x][..0] == [];
  }

  lemma LinesOfSplit(s: seq<CartItem>, i: nat, cart: nat)
    requires i < |s|
    ensures LinesOf(s, cart) == LinesOf(s[..i], cart) + Share(s[i], cart) + LinesOf(s[i + 1..], cart)
  {
    assert s == s[..i] + [s[i]] + s[i + 1..];
    LinesOfConcat(s[..i] + [s[i]], s[i + 1..], cart);
    LinesOfConcat(s[..i], [s[i]], cart);
    LinesOfSingle(s[i], cart);
  }

  /** Row i replaced by x: the cart's lines before and after, around row i. */
  lemma ReplaceLineLines(s: seq<CartItem>, i: nat, x: CartItem, cart: nat)
    requires i < |s|
    ensures LinesOf(s[i := x], cart) == LinesOf(s[..i], cart) + Share(x, cart) + LinesOf(s[i + 1..], cart)
  {
    var t := s[i := x];
    assert t[..i] == s[..i] && t[i + 1..] == s[i + 1..] && t[i] == x;
    LinesOfSplit(t, i, cart);
  }

  /** Replacing row i by x changes a cart's lines only in x's and s[i]'s share. */
  lemma ReplaceLine(s: seq<CartItem>, i: nat, x: CartItem, cart: nat)
    requires i < |s|
    ensures Total(LinesOf(s[i := x], cart))
            == Total(LinesOf(s, cart)) - Total(Share(s[i], cart)) + Total(Share(x, cart))
    ensures ItemsCount(LinesOf(s[i := x], cart))
            == ItemsCount(LinesOf(s, cart)) - ItemsCount(Share(s[i], cart)) + ItemsCount(Share(x, cart))
    ensures s[i].cart != cart && x.cart != cart ==> LinesOf(s[i := x], cart) == LinesOf(s, cart)
  {
    var a, b := LinesOf(s[..i], cart), LinesOf(s[i + 1..], cart);
    var before, after := LinesOf(s, cart), LinesOf(s[i := x], cart);
    LinesOfSplit(s, i, cart);
    ReplaceLineLines(s, i, x, cart);
    assert before == a + Share(s[i], cart) + b;
    assert after == a + Share(x, cart) + b;
    SumsOfThree(a, Share(x, cart), b);
    SumsOfThree(a, Share(s[i], cart), b);
  }

  /** Row i deleted: the cart's lines are those before and after row i. */
  lemma RemoveLineLines(s: seq<CartItem>, i: nat, cart: nat)
    requires i < |s|
    ensures LinesOf(DeleteAt(s, i), cart) == LinesOf(s[..i], cart) + [] + LinesOf(s[i + 1..], cart)
  {
    LinesOfConcat(s[..i], s[i + 1..], cart);
  }

  /** Deleting row i removes exactly s[i]'s share from a cart's lines. */
  lemma RemoveLine(s: seq<CartItem>, i: nat, cart: nat)
    requires i < |s|
    ensures Total(LinesOf(DeleteAt(s, i), cart)) == Total(LinesOf(s, cart)) - Total(Share(s[i], cart))
    ensures ItemsCount(LinesOf(DeleteAt(s, i), cart)) == ItemsCount(LinesOf(s, cart)) - ItemsCount(Share(s[i], cart))
    ensures s[i].cart != cart ==> LinesOf(DeleteAt(s, i), cart) == LinesOf(s, cart)
  {
    var a, b := LinesOf(s[..i], cart), LinesOf(s[i + 1..], cart);
    var before, after := LinesOf(s, cart), LinesOf(DeleteAt(s, i), cart);
    LinesOfSplit(s, i, cart);
    RemoveLineLines(s, i, cart);
    assert before == a + Share(s[i], cart) + b;
    assert after == a + [] + b;
    SumsOfThree(a, [], b);
    SumsOfThree(a, Share(s[i], cart), b);
  }

  // ---------------------------------------------------------------------------
  // add_to_cart

  /** Merge-or-insert keeps "at most one line per (cart, product, variant)". */
  lemma AddKeepsKeysUnique(items: seq<CartItem>, k: LineKey, q: int, price: Cents, freshId: nat)
    requires KeysUnique(items)
    ensures KeysUnique(AddToLines(items, k, q, price, freshId))
  {
    var r := AddToLines(items, k, q, price, freshId);
    match FindLine(items, k)
    case Some(i) =>
      assert forall j :: 0 <= j < |r| ==> KeyOf(r[j]) == KeyOf(items[j]);
    case None =>
      assert forall j :: 0 <= j < |items| ==> r[j] == items[j];
  }

  /** With a fresh id, merge-or-insert keeps ids unique and below the next id. */
  lemma AddKeepsIdsFresh(items: seq<CartItem>, k: LineKey, q: int, price: Cents, freshId: nat)
    requires IdsUnique(items) && IdsBelow(items, freshId)
    ensures var r := AddToLines(items, k, q, price, freshId);
            IdsUnique(r) && IdsBelow(r, if FindLine(items, k).Some? then freshId else freshId + 1)
  {
    var r := AddToLines(items, k, q, price, freshId);
    match FindLine(items, k)
    case Some(i) =>
      assert forall j :: 0 <= j < |r| ==> r[j].id == items[j].id;
    case None =>
      assert forall j :: 0 <= j < |items| ==> r[j] == items[j];
  }

  /** An add only refers to the carts the table and the key already refer to. */
  lemma AddKeepsCartsBelow(items: seq<CartItem>, k: LineKey, q: int, price: Cents, freshId: nat, bound: nat)
    requires k.cart < bound && forall i :: 0 <= i < |items| ==> items[i].cart < bound
    ensures var r := AddToLines(items, k, q, price, freshId);
            forall i :: 0 <= i < |r| ==> r[i].cart < bound
  {
  }

  /** After an add, the line for key k holds the fresh unit price and the old
      quantity plus q (q alone for a new line); every other line keeps its
      place and content, and at most one line was appended. */
  lemma AddLineForKey(items: seq<CartItem>, k: LineKey, q: int, price: Cents, freshId: nat)
    ensures var r := AddToLines(items, k, q, price, freshId);
            var old_ := FindLine(items, k);
            && FindLine(r, k).Some?
            && r[FindLine(r, k).value].unitPrice == price
            && r[FindLine(r, k).value].quantity == (if old_.Some? then items[old_.value].quantity + q else q)
            && |r| == (if old_.Some? then |items| else |items| + 1)
            && (old_.None? ==> r[|items|] == CartItem(freshId, k.cart, k.product, k.variant, q, price))
            && forall i :: 0 <= i < |items| && KeyOf(items[i]) != k ==> r[i] == items[i]
  {
    var r := AddToLines(items, k, q, price, freshId);
    match FindLine(items, k)
    case Some(i) =>
      FindLineSameKeys(items, r, k);
    case None =>
      assert KeyOf(r[|items|]) == k;
      assert FindLine(r, k).Some?;
  }

  /** In the cart added to, an add raises the item count by exactly q; the
      total moves by the new line amount minus the replaced one (a merge
      re-prices the whole line). */
  lemma AddAggregates(items: seq<CartItem>, k: LineKey, q: int, price: Cents, freshId: nat)
    ensures var r := AddToLines(items, k, q, price, freshId);
            ItemsCount(LinesOf(r, k.cart)) == ItemsCount(LinesOf(items, k.cart)) + q
    ensures var r := AddToLines(items, k, q, price, freshId);
            match FindLine(items, k)
            case Some(i) =>
              Total(LinesOf(r, k.cart)) == Total(LinesOf(items, k.cart))
                                           - LineAmount(items[i]) + price * (items[i].quantity + q)
            case None =>
              Total(LinesOf(r, k.cart)) == Total(LinesOf(items, k.cart)) + price * q
  {
    match FindLine(items, k)
    case Some(i) =>
      var x := items[i].(quantity := items[i].quantity + q, unitPrice := price);
      ReplaceLine(items, i, x, k.cart);
      ShareAggregates(items[i], k.cart);
      ShareAggregates(x, k.cart);
    case None =>
      var x := CartItem(freshId, k.cart, k.product, k.variant, q, price);
      LinesOfConcat(items, [x], k.cart);
      LinesOfSingle(x, k.cart);
      AddedLineRaisesAggregates(LinesOf(items, k.cart), x);
  }

  /** An add touches no other cart. */
  lemma AddLeavesOtherCarts(items: seq<CartItem>, k: LineKey, q: int, price: Cents, freshId: nat, cart: nat)
    requires cart != k.cart
    ensures LinesOf(AddToLines(items, k, q, price, freshId), cart) == LinesOf(items, cart)
  {
    match FindLine(items, k)
    case Some(i) =>
      ReplaceLine(items, i, items[i].(quantity := items[i].quantity + q, unitPrice := price), cart);
    case None =>
      var x := CartItem(freshId, k.cart, k.product, k.variant, q, price);
      LinesOfConcat(items, [x], cart);
      LinesOfSingle(x, cart);
  }

  /** What an add does to carts: the item count of the cart added to rises by
      exactly q, and every other cart keeps its lines. */
  lemma AddCartEffects(items: seq<CartItem>, k: LineKey, q: int, price: Cents, freshId: nat)
    ensures var r := AddToLines(items, k, q, price, freshId);
            && ItemsCount(LinesOf(r, k.cart)) == ItemsCount(LinesOf(items, k.cart)) + q
            && forall d :: d != k.cart ==> LinesOf(r, d) == LinesOf(items, d)
  {
    AddAggregates(items, k, q, price, freshId);
    forall d | d != k.cart
      ensures LinesOf(AddToLines(items, k, q, price, freshId), d) == LinesOf(items, d)
    {
      AddLeavesOtherCarts(items, k, q, price, freshId, d);
    }
  }

  /** Two adds of the same key to a cart without it give one line, with the
      summed quantity and the price of the second add. */
  lemma {:induction false} RepeatedAddsMerge(items: seq<CartItem>, k: LineKey, q1: int, p1: Cents, q2: int, p2: Cents,
                                             id1: nat, id2: nat)
    requires FindLine(items, k).None?
    ensures var r := AddToLines(AddToLines(items, k, q1, p1, id1), k, q2, p2, id2);
            |r| == |items| + 1 && r[|items|] == CartItem(id1, k.cart, k.product, k.variant, q1 + q2, p2)
  {
    var r1 := AddToLines(items, k, q1, p1, id1);
    AddLineForKey(items, k, q1, p1, id1);
    assert forall j :: 0 <= j < |items| ==> r1[j] == items[j];
    assert FindLine(r1, k) == Some(|items|) by {
      assert forall j :: 0 <= j < |items| ==> KeyOf(r1[j]) != k;
    }
  }

  // ---------------------------------------------------------------------------
  // update_cart_item and remove_from_cart

  lemma DeleteKeepsUniqueness(items: seq<CartItem>, i: nat, bound: nat)
    requires i < |items|
    ensures KeysUnique(items) ==> KeysUnique(DeleteAt(items, i))
    ensures IdsUnique(items) ==> IdsUnique(DeleteAt(items, i))
    ensures IdsBelow(items, bound) ==> IdsBelow(DeleteAt(items, i), bound)
  {
  }

  /** A deleted row is gone: no remaining line has its id. */
  lemma DeletedIdGone(items: seq<CartItem>, i: nat)
    requires i < |items| && IdsUnique(items)
    ensures forall x :: x in DeleteAt(items, i) ==> x.id != items[i].id
  {
    var r := DeleteAt(items, i);
    assert forall j :: 0 <= j < |r| ==> r[j] == items[if j < i then j else j + 1];
  }

  /** Deleting a line takes its amount off its cart's total and its quantity
      off its cart's item count; other carts keep their lines. */
  lemma DeleteAggregates(items: seq<CartItem>, i: nat, cart: nat)
    requires i < |items|
    ensures items[i].cart == cart ==>
              Total(LinesOf(DeleteAt(items, i), cart)) == Total(LinesOf(items, cart)) - LineAmount(items[i])
              && ItemsCount(LinesOf(DeleteAt(items, i), cart)) == ItemsCount(LinesOf(items, cart)) - items[i].quantity
    ensures items[i].cart != cart ==> LinesOf(DeleteAt(items, i), cart) == LinesOf(items, cart)
  {
    RemoveLine(items, i, cart);
    ShareAggregates(items[i], cart);
  }

  /** Setting a line's quantity keeps its key, its id and its unit price, and
      moves its cart's aggregates by the quantity difference; other carts keep
      their lines. */
  lemma SetQuantityAggregates(items: seq<CartItem>, i: nat, q: int, cart: nat)
    requires i < |items|
    ensures var r := items[i := items[i].(quantity := q)];
            items[i].cart == cart ==>
              Total(LinesOf(r, cart)) == Total(LinesOf(items, cart)) + items[i].unitPrice * (q - items[i].quantity)
              && ItemsCount(LinesOf(r, cart)) == ItemsCount(LinesOf(items, cart)) + (q - items[i].quantity)
    ensures items[i].cart != cart ==> LinesOf(items[i := items[i].(quantity := q)], cart) == LinesOf(items, cart)
  {
    var x := items[i].(quantity := q);
    ReplaceLine(items, i, x, cart);
    ShareAggregates(items[i], cart);
    ShareAggregates(x, cart);
    assert LineAmount(x) - LineAmount(items[i]) == items[i].unitPrice * (q - items[i].quantity);
  }

  // ---------------------------------------------------------------------------
  // clear_cart and checkout's deletion

  lemma {:induction false} WithoutCartKeepsOthers(items: seq<CartItem>, cart: nat, other: nat)
    requires other != cart
    ensures LinesOf(WithoutCart(items, cart), other) == LinesOf(items, other)
  {
    if items != [] {
      var last := items[|items| - 1];
      var prefix := WithoutCart(items[..|items| - 1], cart);
      WithoutCartKeepsOthers(items[..|items| - 1], cart, other);
      if last.cart != cart {
        LinesOfConcat(prefix, [last], other);
        LinesOfSingle(last, other);
      } else {
        assert WithoutCart(items, cart) == prefix;
      }
    }
  }

  /** The bulk delete keeps every line of every other cart. */
  lemma {:induction false} WithoutCartKeepsLines(items: seq<CartItem>, cart: nat)
    ensures forall x :: x in items && x.cart != cart ==> x in WithoutCart(items, cart)
  {
    if items != [] {
      var prefix := items[..|items| - 1];
      WithoutCartKeepsLines(prefix, cart);
      assert items == prefix + [items[|items| - 1]];
    }
  }

  /** After the bulk delete the cart has no lines left. */
  lemma {:induction false} WithoutCartEmpties(items: seq<CartItem>, cart: nat)
    ensures LinesOf(WithoutCart(items, cart), cart) == []
  {
    NoLinesOf(WithoutCart(items, cart), cart);
  }

  lemma {:induction false} NoLinesOf(s: seq<CartItem>, cart: nat)
    requires forall i :: 0 <= i < |s| ==> s[i].cart != cart
    ensures LinesOf(s, cart) == []
  {
    if s != [] {
      NoLinesOf(s[..|s| - 1], cart);
    }
  }

  lemma {:induction false} WithoutCartKeepsKeysUnique(items: seq<CartItem>, cart: nat)
    requires KeysUnique(items)
    ensures KeysUnique(WithoutCart(items, cart))
  {
    if items != [] {
      var prefix, last := items[..|items| - 1], items[|items| - 1];
      WithoutCartKeepsKeysUnique(prefix, cart);
      var w := WithoutCart(prefix, cart);
      forall j | 0 <= j < |w|
        ensures KeyOf(w[j]) != KeyOf(last)
      {
        assert w[j] in prefix;
      }
    }
  }

  lemma {:induction false} WithoutCartKeepsIdsUnique(items: seq<CartItem>, cart: nat)
    requires IdsUnique(items)
    ensures IdsUnique(WithoutCart(items, cart))
  {
    if items != [] {
      var prefix, last := items[..|items| - 1], items[|items| - 1];
      WithoutCartKeepsIdsUnique(prefix, cart);
      var w := WithoutCart(prefix, cart);
      forall j | 0 <= j < |w|
        ensures w[j].id != last.id
      {
        assert w[j] in prefix;
      }
    }
  }

  lemma WithoutCartKeepsIdsBelow(items: seq<CartItem>, cart: nat, bound: nat)
    requires IdsBelow(items, bound)
    ensures IdsBelow(WithoutCart(items, cart), bound)
  {
    var w := WithoutCart(items, cart);
    forall j | 0 <= j < |w|
      ensures w[j].id < bound
    {
      assert w[j] in items;
    }
  }
}
