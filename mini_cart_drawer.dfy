/** The cart drawer's derived values: delivery threshold, amount remaining, header label, count badge. */
module MiniCartDrawer {

  import opened Wrappers
  import opened Decimal
  import opened CartTypes
  import CartStore
  import QtyStepper

  /** Delivery needs a subtotal of at least 25. */
  const DeliveryMin := 25.0

  predicate DeliveryAllowed(subtotal: real) {
    subtotal >= DeliveryMin
  }

  /**
   * `Math.max(0, deliveryMin - subtotal)`: never negative, zero exactly when delivery is
   * allowed, and otherwise exactly what brings the subtotal up to the threshold.
   */
  function Remaining(subtotal: real): (r: real)
    ensures r >= 0.0
    ensures r == 0.0 <==> DeliveryAllowed(subtotal)
    ensures !DeliveryAllowed(subtotal) ==> subtotal + r == DeliveryMin
  {
    if 0.0 >= DeliveryMin - subtotal then 0.0 else DeliveryMin - subtotal
  }

  /**
   * `headerLabel`: `Cart` for no items, `Cart (1 item)` for one, otherwise the count,
   * printed in decimal, between `Cart (` and ` items)`.
   */
  function HeaderLabel(itemCount: int): (s: string)
    ensures itemCount == 0 ==> s == "Cart"
    ensures itemCount == 1 ==> s == "Cart (1 item)"
    ensures itemCount != 0 && itemCount != 1 ==>
      && |s| > 13 && s[..6] == "Cart (" && s[|s| - 7..] == " items)"
      && ParseInt(s[6..|s| - 7]) == Some(itemCount)
  {
    if itemCount == 0 then "Cart"
    else if itemCount == 1 then "Cart (1 item)"
    else
      var digits := IntToString(itemCount);
      var s := "Cart (" + digits + " items)";
      assert s[6..|s| - 7] == digits;
      IntToStringValue(itemCount);
      s
  }

  /** `itemCount > 0`: the count badge beside the header is shown. */
  predicate ShowsCountBadge(itemCount: int) {
    itemCount > 0
  }

  /** For a valid cart, the badge shows and the label names a count exactly when the cart has lines. */
  lemma BadgeIffItems(items: seq<CartItem>)
    requires CartStore.ValidCart(items)
    ensures ShowsCountBadge(CartStore.ItemCount(items)) <==> items != []
    ensures HeaderLabel(CartStore.ItemCount(items)) == "Cart" <==> items == []
  {
    CartStore.ItemCountPositive(items);
    var n := CartStore.ItemCount(items);
    if n != 0 {
      assert HeaderLabel(n) != "Cart" by {
        if n != 1 { assert |HeaderLabel(n)| > 13; }
      }
    }
  }

  /**
   * The drawer's stepper is bounded to 1..99, so for a line of a valid cart either step
   * hands `setQty` a positive quantity: the line stays, with the new quantity, and only
   * the Remove button takes a line out.
   */
  lemma StepperNeverRemoves(items: seq<CartItem>, k: nat)
    requires CartStore.ValidCart(items) && k < |items|
    ensures var next := QtyStepper.Dec(items[k].qty, 1);
      && |CartStore.SetQtyIn(items, items[k].id, next)| == |items|
      && CartStore.SetQtyIn(items, items[k].id, next)[k].qty == next
    ensures var next := QtyStepper.Inc(items[k].qty, 99);
      && |CartStore.SetQtyIn(items, items[k].id, next)| == |items|
      && CartStore.SetQtyIn(items, items[k].id, next)[k].qty == next
  {
    CartStore.SetQtyPositiveAssigns(items, items[k].id, QtyStepper.Dec(items[k].qty, 1));
    CartStore.SetQtyPositiveAssigns(items, items[k].id, QtyStepper.Inc(items[k].qty, 99));
  }
}
