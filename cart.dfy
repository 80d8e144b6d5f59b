/** The cart page: an ordered list of line items that the quantity buttons and the
    remove button replace, and the totals derived from it on every render.
    Money is exact (`real`), so 8% of a subtotal is not rounded. */
module Cart {
  import opened Optional

  datatype CartItem = CartItem(
    id: string,
    name: string,
    price: real,
    quantity: int,
    customizations: Option<string>)

  /** The delivery fee charged on a non-empty cart. */
  const DeliveryFeeAmount: real := 2.99
  /** The tax rate applied to the subtotal. */
  const TaxRate: real := 0.08

  /** The two line items the page starts with. */
  function InitialCartItems(): seq<CartItem> {
    [ CartItem("m2", "Margherita Pizza", 12.99, 1, Some("Size: Medium")),
      CartItem("m1", "Garlic Bread", 5.99, 2, None) ]
  }

  /** Every line carrying `itemId` with its quantity set to `q`, all other lines as they
      were, in the same order. */
  function WithQuantity(items: seq<CartItem>, itemId: string, q: int): (r: seq<CartItem>)
    ensures |r| == |items|
    ensures forall i :: 0 <= i < |items| ==>
      r[i] == if items[i].id == itemId then items[i].(quantity := q) else items[i]
  {
    if |items| == 0 then []
    else [if items[0].id == itemId then items[0].(quantity := q) else items[0]]
         + WithQuantity(items[1..], itemId, q)
  }

  /** The list after `handleQuantityChange(itemId, newQuantity)`: a quantity below 1 is
      ignored, otherwise every item with that id gets the new quantity. */
  function QuantityChanged(items: seq<CartItem>, itemId: string, newQuantity: int): (r: seq<CartItem>)
    ensures newQuantity < 1 ==> r == items
    ensures |r| == |items|
    ensures forall i :: 0 <= i < |items| ==>
      r[i].id == items[i].id && r[i].name == items[i].name && r[i].price == items[i].price &&
      r[i].customizations == items[i].customizations
    ensures forall i :: 0 <= i < |items| ==>
      r[i].quantity == if items[i].id == itemId && newQuantity >= 1 then newQuantity else items[i].quantity
  {
    if newQuantity < 1 then items else WithQuantity(items, itemId, newQuantity)
  }

  /** The lines whose id differs from `itemId`, in their original order. */
  function RemoveItem(items: seq<CartItem>, itemId: string): (r: seq<CartItem>)
    ensures forall i :: 0 <= i < |r| ==> r[i].id != itemId && r[i] in items
    ensures forall i :: 0 <= i < |items| && items[i].id != itemId ==> items[i] in r
    ensures |r| <= |items|
  {
    if |items| == 0 then []
    else if items[0].id == itemId then RemoveItem(items[1..], itemId)
    else [items[0]] + RemoveItem(items[1..], itemId)
  }

  /** Removal keeps the surviving items in their original order: it distributes over `+`. */
  lemma {:induction false} RemoveItemAppend(a: seq<CartItem>, b: seq<CartItem>, itemId: string)
    ensures RemoveItem(a + b, itemId) == RemoveItem(a, itemId) + RemoveItem(b, itemId)
  {
    if |a| == 0 {
      assert a + b == b;
    } else {
      assert (a + b)[1..] == a[1..] + b;
      RemoveItemAppend(a[1..], b, itemId);
    }
  }

  /** Removing an id no item carries leaves the list as it was. */
  lemma {:induction false} RemoveAbsentItem(items: seq<CartItem>, itemId: string)
    requires forall i :: 0 <= i < |items| ==> items[i].id != itemId
    ensures RemoveItem(items, itemId) == items
  {
    if |items| > 0 {
      RemoveAbsentItem(items[1..], itemId);
      assert [items[0]] + items[1..] == items;
    }
  }

  /** Removing the same id twice is removing it once. */
  lemma RemoveItemIdempotent(items: seq<CartItem>, itemId: string)
    ensures RemoveItem(RemoveItem(items, itemId), itemId) == RemoveItem(items, itemId)
  {
    RemoveAbsentItem(RemoveItem(items, itemId), itemId);
  }

  /** Every line item has a quantity of at least 1. */
  predicate QuantitiesPositive(items: seq<CartItem>) {
    forall i :: 0 <= i < |items| ==> items[i].quantity >= 1
  }

  /** No quantity change, whatever the requested value, can bring a quantity below 1;
      in particular the minus button (quantity - 1) stops at 1. */
  lemma QuantityChangeKeepsPositive(items: seq<CartItem>, itemId: string, newQuantity: int)
    requires QuantitiesPositive(items)
    ensures QuantitiesPositive(QuantityChanged(items, itemId, newQuantity))
  {
  }

  /** The minus and plus buttons of the item at position k. */
  lemma ButtonsKeepPositive(items: seq<CartItem>, k: nat, delta: int)
    requires QuantitiesPositive(items)
    requires k < |items| && (delta == -1 || delta == 1)
    ensures QuantitiesPositive(QuantityChanged(items, items[k].id, items[k].quantity + delta))
    ensures delta == -1 && items[k].quantity == 1 ==>
      QuantityChanged(items, items[k].id, items[k].quantity + delta) == items
  {
    QuantityChangeKeepsPositive(items, items[k].id, items[k].quantity + delta);
  }

  /** One line's contribution to the subtotal. */
  function LineTotal(item: CartItem): real {
    item.price * (item.quantity as real)
  }

  /** The sum of price times quantity over all lines, accumulated from the first line to
      the last (a left fold). */
  function Subtotal(items: seq<CartItem>): (r: real)
    ensures items == [] ==> r == 0.0
    ensures (forall i :: 0 <= i < |items| ==> items[i].price >= 0.0 && items[i].quantity >= 1) ==> r >= 0.0
  {
    if |items| == 0 then 0.0
    else
      var last := items[|items| - 1];
      assert last.price >= 0.0 && last.quantity >= 1 ==> LineTotal(last) >= 0.0 by {
        if last.price >= 0.0 && last.quantity >= 1 { LineTotalNonNegative(last); }
      }
      Subtotal(items[..|items| - 1]) + LineTotal(last)
  }

  lemma LineTotalNonNegative(item: CartItem)
    requires item.price >= 0.0 && item.quantity >= 1
    ensures LineTotal(item) >= 0.0
  {
    var q := item.quantity as real;
    assert q >= 1.0;
    assert item.price * q >= item.price * 1.0;
  }

  /** The subtotal of two lists laid end to end is the sum of their subtotals. */
  lemma {:induction false} SubtotalAppend(a: seq<CartItem>, b: seq<CartItem>)
    ensures Subtotal(a + b) == Subtotal(a) + Subtotal(b)
  {
    if |b| == 0 {
      assert a + b == a;
    } else {
      var b' := b[..|b| - 1];
      assert (a + b)[..|a + b| - 1] == a + b';
      assert (a + b)[|a + b| - 1] == b[|b| - 1];
      SubtotalAppend(a, b');
    }
  }

  /** The subtotal, as a sum over the items from the first to the last. */
  lemma {:induction false} SubtotalFirst(items: seq<CartItem>)
    requires |items| > 0
    ensures Subtotal(items) == LineTotal(items[0]) + Subtotal(items[1..])
  {
    assert items == [items[0]] + items[1..];
    SubtotalAppend([items[0]], items[1..]);
    assert [items[0]][..0] == [];
  }

  /** Removing an id takes exactly the lines carrying it off the subtotal. */
  lemma {:induction false} SubtotalAfterRemove(items: seq<CartItem>, itemId: string)
    ensures Subtotal(items) == Subtotal(RemoveItem(items, itemId)) + Subtotal(Matching(items, itemId))
  {
    if |items| > 0 {
      SubtotalFirst(items);
      SubtotalAfterRemove(items[1..], itemId);
      if items[0].id == itemId {
        SubtotalFirst(Matching(items, itemId));
      } else {
        SubtotalFirst(RemoveItem(items, itemId));
      }
    }
  }

  /** The lines that carry `itemId`, in order. */
  function Matching(items: seq<CartItem>, itemId: string): (r: seq<CartItem>)
    ensures forall i :: 0 <= i < |r| ==> r[i].id == itemId
  {
    if |items| == 0 then []
    else if items[0].id == itemId then [items[0]] + Matching(items[1..], itemId)
    else Matching(items[1..], itemId)
  }

  /** After a quantity change, the subtotal is that of the lines not carrying `itemId`
      plus that of the changed lines. */
  lemma SubtotalAfterQuantityChange(items: seq<CartItem>, itemId: string, q: int)
    requires q >= 1
    ensures Subtotal(QuantityChanged(items, itemId, q)) ==
      Subtotal(RemoveItem(items, itemId)) + Subtotal(WithQuantity(Matching(items, itemId), itemId, q))
  {
    SubtotalWithQuantity(items, itemId, q);
  }

  lemma {:induction false} SubtotalWithQuantity(items: seq<CartItem>, itemId: string, q: int)
    ensures Subtotal(WithQuantity(items, itemId, q)) ==
      Subtotal(RemoveItem(items, itemId)) + Subtotal(WithQuantity(Matching(items, itemId), itemId, q))
  {
    if |items| > 0 {
      var changed := WithQuantity(items, itemId, q);
      var rest := items[1..];
      SubtotalFirst(changed);
      assert changed[1..] == WithQuantity(rest, itemId, q);
      SubtotalWithQuantity(rest, itemId, q);
      if items[0].id == itemId {
        var m := WithQuantity(Matching(items, itemId), itemId, q);
        assert Matching(items, itemId)[1..] == Matching(rest, itemId);
        assert m[1..] == WithQuantity(Matching(rest, itemId), itemId, q);
        SubtotalFirst(m);
      } else {
        SubtotalFirst(RemoveItem(items, itemId));
      }
    }
  }

  /** An id carried by a single line matches that line only. */
  lemma {:induction false} MatchingUnique(items: seq<CartItem>, k: nat)
    requires k < |items|
    requires forall j :: 0 <= j < |items| && j != k ==> items[j].id != items[k].id
    ensures Matching(items, items[k].id) == [items[k]]
  {
    var id := items[k].id;
    if k == 0 {
      NoneMatching(items[1..], id);
    } else {
      MatchingUnique(items[1..], k - 1);
    }
  }

  lemma {:induction false} NoneMatching(items: seq<CartItem>, itemId: string)
    requires forall j :: 0 <= j < |items| ==> items[j].id != itemId
    ensures Matching(items, itemId) == []
  {
    if |items| > 0 {
      NoneMatching(items[1..], itemId);
    }
  }

  /** The quantity buttons on a line whose id no other line carries change the subtotal
      by exactly the difference of that line's totals. */
  lemma UniqueLineQuantityChange(items: seq<CartItem>, k: nat, q: int)
    requires k < |items| && q >= 1
    requires forall j :: 0 <= j < |items| && j != k ==> items[j].id != items[k].id
    ensures Subtotal(QuantityChanged(items, items[k].id, q)) ==
      Subtotal(items) - LineTotal(items[k]) + LineTotal(items[k].(quantity := q))
  {
    var id := items[k].id;
    MatchingUnique(items, k);
    SubtotalAfterQuantityChange(items, id, q);
    SubtotalAfterRemove(items, id);
    var m := WithQuantity([items[k]], id, q);
    assert m == [items[k].(quantity := q)];
    SubtotalFirst(m);
    SubtotalFirst([items[k]]);
  }

  /** The figures of the Payment Details card. */
  datatype Totals = Totals(subtotal: real, deliveryFee: real, taxes: real, grandTotal: real)

  /** `subtotal`, `deliveryFee`, `taxes` and `grandTotal` as the page derives them. */
  function CartTotals(items: seq<CartItem>): (t: Totals)
    ensures t.subtotal == Subtotal(items)
    ensures t.deliveryFee == (if |items| > 0 then DeliveryFeeAmount else 0.0)
    ensures t.taxes == t.subtotal * TaxRate
    ensures t.grandTotal == t.subtotal + t.deliveryFee + t.taxes
    ensures t.grandTotal == t.subtotal * 1.08 + t.deliveryFee
    ensures items == [] ==> t == Totals(0.0, 0.0, 0.0, 0.0)
  {
    var subtotal := Subtotal(items);
    var deliveryFee := if |items| > 0 then DeliveryFeeAmount else 0.0;
    var taxes := subtotal * TaxRate;
    Totals(subtotal, deliveryFee, taxes, subtotal + deliveryFee + taxes)
  }

  /** "Proceed to Checkout" is disabled exactly when the cart is empty, which is exactly
      when no delivery fee is charged; a disabled cart shows all-zero totals. */
  function CheckoutDisabled(items: seq<CartItem>): (r: bool)
    ensures r <==> CartTotals(items).deliveryFee == 0.0
    ensures r ==> CartTotals(items) == Totals(0.0, 0.0, 0.0, 0.0)
  {
    |items| == 0
  }

  /** Removing an id disables checkout exactly when every line carried that id. */
  lemma CheckoutDisabledAfterRemove(items: seq<CartItem>, itemId: string)
    ensures CheckoutDisabled(RemoveItem(items, itemId)) <==>
      forall i :: 0 <= i < |items| ==> items[i].id == itemId
  {
    var r := RemoveItem(items, itemId);
    if |r| > 0 {
      assert r[0] in items && r[0].id != itemId;
      var j :| 0 <= j < |items| && items[j] == r[0];
      assert items[j].id != itemId;
    }
  }

  /** The quantity buttons never enable or disable checkout: the list keeps its length. */
  lemma QuantityChangeKeepsCheckoutState(items: seq<CartItem>, itemId: string, q: int)
    ensures CheckoutDisabled(QuantityChanged(items, itemId, q)) == CheckoutDisabled(items)
  {
  }

  /** The starting cart: 12.99 x 1 + 5.99 x 2. */
  lemma InitialCartTotals()
    ensures CartTotals(InitialCartItems()) == Totals(24.97, 2.99, 1.9976, 29.9576)
    ensures !CheckoutDisabled(InitialCartItems())
    ensures QuantitiesPositive(InitialCartItems())
  {
    var items := InitialCartItems();
    SubtotalFirst(items);
    SubtotalFirst(items[1..]);
  }

  /** The route "Proceed to Checkout" leads to. */
  const CheckoutPath: string := "/checkout"

  /** The page's `cartItems` state, its two handlers and the checkout button. */
  class CartPage {
    var cartItems: seq<CartItem>

    ghost predicate Valid()
      reads this
    {
      QuantitiesPositive(cartItems)
    }

    constructor ()
      ensures Valid()
      ensures cartItems == InitialCartItems()
    {
      cartItems := InitialCartItems();
    }

    /** The quantity handler: a request below 1 is ignored, otherwise the lines with that
        id take the new quantity. */
    method HandleQuantityChange(itemId: string, newQuantity: int)
      requires Valid()
      modifies this
      ensures Valid()
      ensures newQuantity < 1 ==> cartItems == old(cartItems)
      ensures |cartItems| == |old(cartItems)|
      ensures forall i :: 0 <= i < |cartItems| ==>
        cartItems[i] == if old(cartItems)[i].id == itemId && newQuantity >= 1
                        then old(cartItems)[i].(quantity := newQuantity) else old(cartItems)[i]
    {
      if newQuantity < 1 {
        return;
      }
      cartItems := WithQuantity(cartItems, itemId, newQuantity);
    }

    /** The minus button of the item at position k. */
    method DecrementAt(k: nat)
      requires Valid() && k < |cartItems|
      modifies this
      ensures Valid()
      ensures cartItems == QuantityChanged(old(cartItems), old(cartItems)[k].id, old(cartItems)[k].quantity - 1)
    {
      HandleQuantityChange(cartItems[k].id, cartItems[k].quantity - 1);
    }

    /** The plus button of the item at position k. */
    method IncrementAt(k: nat)
      requires Valid() && k < |cartItems|
      modifies this
      ensures Valid()
      ensures cartItems == QuantityChanged(old(cartItems), old(cartItems)[k].id, old(cartItems)[k].quantity + 1)
    {
      HandleQuantityChange(cartItems[k].id, cartItems[k].quantity + 1);
    }

    /** The remove button: every line with that id leaves the cart. */
    method HandleRemoveItem(itemId: string)
      requires Valid()
      modifies this
      ensures Valid()
      ensures cartItems == RemoveItem(old(cartItems), itemId)
    {
      cartItems := RemoveItem(cartItems, itemId);
    }

    /** "Proceed to Checkout": the route it navigates to, or nothing while the button is
        disabled, which is exactly when the cart is empty. */
    method ProceedToCheckout() returns (target: Option<string>)
      ensures target.None? <==> CheckoutDisabled(cartItems)
      ensures target.None? <==> CartTotals(cartItems).deliveryFee == 0.0
      ensures target.Some? ==> target.value == CheckoutPath
    {
      if |cartItems| == 0 {
        target := None;
      } else {
        target := Some(CheckoutPath);
      }
    }
  }
}
