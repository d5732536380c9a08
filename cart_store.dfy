/**
 * The cart state engine: the four transitions over the list of line items, the two
 * derived totals, the load rule for the persisted cart, and the store object that
 * holds the current items and the browser storage entry they are saved to.
 */
module CartStore {

  import opened Wrappers
  import opened CartTypes
  import opened Subsequences
  import Money

  // ---------------------------------------------------------------------------
  // Invariants of a cart

  predicate HasId(items: seq<CartItem>, id: string) {
    exists k :: 0 <= k < |items| && items[k].id == id
  }

  /** At most one line per product id. */
  predicate UniqueIds(items: seq<CartItem>) {
    forall i, j :: 0 <= i < j < |items| ==> items[i].id != items[j].id
  }

  /** Every line has a positive quantity. */
  predicate AllPositive(items: seq<CartItem>) {
    forall k :: 0 <= k < |items| ==> items[k].qty > 0
  }

  predicate ValidCart(items: seq<CartItem>) {
    UniqueIds(items) && AllPositive(items)
  }

  // ---------------------------------------------------------------------------
  // Transitions

  /** `items.map(x => x.id === id ? { ...x, qty: x.qty + qty } : x)` */
  function BumpQty(items: seq<CartItem>, id: string, qty: int): (r: seq<CartItem>)
    ensures |r| == |items|
    ensures forall k :: 0 <= k < |r| ==> r[k].id == items[k].id && r[k].price == items[k].price
    ensures forall k :: 0 <= k < |r| && items[k].id != id ==> r[k] == items[k]
  {
    seq(|items|, k requires 0 <= k < |items| =>
      if items[k].id == id then items[k].(qty := items[k].qty + qty) else items[k])
  }

  /** `addItem`: merge into the line with the same id if there is one, else append a new line. */
  function AddItemTo(items: seq<CartItem>, item: NewItem, qty: int): (r: seq<CartItem>)
    ensures |items| <= |r| <= |items| + 1
    ensures forall k :: 0 <= k < |items| ==> r[k].id == items[k].id && r[k].price == items[k].price
  {
    if HasId(items, item.id) then BumpQty(items, item.id, qty)
    else items + [WithQty(item, qty)]
  }

  /** `removeItem`: `items.filter(x => x.id !== id)` */
  function RemoveItemFrom(items: seq<CartItem>, id: string): (r: seq<CartItem>)
    ensures |r| <= |items|
    ensures forall k :: 0 <= k < |r| ==> r[k].id != id
  {
    if items == [] then []
    else if items[0].id == id then RemoveItemFrom(items[1..], id)
    else [items[0]] + RemoveItemFrom(items[1..], id)
  }

  /** `items.map(x => x.id === id ? { ...x, qty } : x)` */
  function AssignQty(items: seq<CartItem>, id: string, qty: int): (r: seq<CartItem>)
    ensures |r| == |items|
    ensures forall k :: 0 <= k < |r| ==> r[k].id == items[k].id && r[k].price == items[k].price
    ensures forall k :: 0 <= k < |r| && items[k].id != id ==> r[k] == items[k]
  {
    seq(|items|, k requires 0 <= k < |items| =>
      if items[k].id == id then items[k].(qty := qty) else items[k])
  }

  /** `items.filter(x => x.qty > 0)` */
  function KeepPositive(items: seq<CartItem>): (r: seq<CartItem>)
    ensures |r| <= |items|
  {
    if items == [] then []
    else if items[0].qty > 0 then [items[0]] + KeepPositive(items[1..])
    else KeepPositive(items[1..])
  }

  /** `setQty`: assign the quantity, then drop every line whose quantity is not positive. */
  function SetQtyIn(items: seq<CartItem>, id: string, qty: int): (r: seq<CartItem>)
    ensures |r| <= |items|
  {
    KeepPositive(AssignQty(items, id, qty))
  }

  /** `clear` */
  function EmptyCart(): (r: seq<CartItem>)
    ensures |r| == 0
  {
    []
  }

  // ---------------------------------------------------------------------------
  // Derived totals: left folds, as `reduce` computes them

  /** `items.reduce((sum, it) => sum + it.qty, 0)` */
  function ItemCount(items: seq<CartItem>): int {
    if items == [] then 0 else ItemCount(items[..|items| - 1]) + items[|items| - 1].qty
  }

  /** `it.price * it.qty` */
  function LineTotal(it: CartItem): real {
    it.price * it.qty as real
  }

  /** `items.reduce((sum, it) => sum + it.price * it.qty, 0)` */
  function RawSubtotal(items: seq<CartItem>): real {
    if items == [] then 0.0 else RawSubtotal(items[..|items| - 1]) + LineTotal(items[|items| - 1])
  }

  /** `subtotal`: the rounded sum, a whole number of cents within half a cent of the exact sum. */
  function Subtotal(items: seq<CartItem>): (r: real)
    ensures Money.IsWholeCents(r)
    ensures RawSubtotal(items) - 0.005 < r <= RawSubtotal(items) + 0.005
  {
    Money.Round2(RawSubtotal(items))
  }

  // ---------------------------------------------------------------------------
  // Loading the persisted cart

  /** What `JSON.parse` gives for a stored text: a non-object, or an object whose `items` may be missing. */
  datatype ParsedCart = NonObject | CartObject(items: Option<seq<CartItem>>)

  /** The browser storage entry under the cart key. */
  datatype CartSlot = Absent | Corrupt | Stored(value: ParsedCart)

  /** `saveCart`: the entry written for a cart. */
  function SaveCart(items: seq<CartItem>): CartSlot {
    Stored(CartObject(Some(items)))
  }

  /**
   * `loadCart`: empty without a window, with nothing stored, with text that does not
   * parse, or with a value that has no items; otherwise the stored items as they are.
   */
  function LoadCart(hasWindow: bool, slot: CartSlot): (items: seq<CartItem>)
    ensures items != [] <==>
      hasWindow && slot.Stored? && slot.value.CartObject? &&
      slot.value.items.Some? && slot.value.items.value != []
    ensures items != [] ==> items == slot.value.items.value
  {
    if !hasWindow then []
    else match slot
      case Absent => []
      case Corrupt => []
      case Stored(NonObject) => []
      case Stored(CartObject(None)) => []
      case Stored(CartObject(Some(s))) => if |s| == 0 then [] else s
  }

  /** A saved cart loads back unchanged; an empty one loads as the empty cart. */
  lemma SaveThenLoad(items: seq<CartItem>)
    ensures LoadCart(true, SaveCart(items)) == items
  {
  }

  // ---------------------------------------------------------------------------
  // Properties of addItem

  /** Adding an id already present adds `qty` to that line only; its snapshot fields stay. */
  lemma AddItemExisting(items: seq<CartItem>, item: NewItem, qty: int, k: nat)
    requires UniqueIds(items) && k < |items| && items[k].id == item.id
    ensures AddItemTo(items, item, qty) == items[k := items[k].(qty := items[k].qty + qty)]
  {
    var r := AddItemTo(items, item, qty);
    assert HasId(items, item.id);
    forall j | 0 <= j < |items|
      ensures r[j] == items[k := items[k].(qty := items[k].qty + qty)][j]
    {
      if j != k {
        assert items[j].id != items[k].id by {
          if j < k { assert items[j].id != items[k].id; } else { assert items[k].id != items[j].id; }
        }
      }
    }
  }

  /** Adding a new id appends one line with the given quantity; earlier lines are untouched. */
  lemma AddItemNew(items: seq<CartItem>, item: NewItem, qty: int)
    requires !HasId(items, item.id)
    ensures AddItemTo(items, item, qty) == items + [WithQty(item, qty)]
  {
  }

  /** `addItem` with a positive quantity keeps the cart valid. */
  lemma AddItemValid(items: seq<CartItem>, item: NewItem, qty: int)
    requires ValidCart(items) && qty > 0
    ensures ValidCart(AddItemTo(items, item, qty))
  {
    var r := AddItemTo(items, item, qty);
    if HasId(items, item.id) {
      assert forall j :: 0 <= j < |r| ==> r[j].id == items[j].id;
    } else {
      assert forall j :: 0 <= j < |items| ==> r[j] == items[j];
    }
  }

  /** Adding X with 2 and then X again with 3 gives one line with 5, priced as first added. */
  lemma AddTwiceMerges(items: seq<CartItem>, first: NewItem, again: NewItem)
    requires ValidCart(items) && !HasId(items, first.id) && again.id == first.id
    ensures AddItemTo(AddItemTo(items, first, 2), again, 3) == items + [WithQty(first, 5)]
  {
    AddItemNew(items, first, 2);
    var once := items + [WithQty(first, 2)];
    AddItemValid(items, first, 2);
    AddItemExisting(once, again, 3, |items|);
    assert once[|items| := once[|items|].(qty := 5)] == items + [WithQty(first, 5)];
  }

  // ---------------------------------------------------------------------------
  // Properties of removeItem

  /** The lines kept by `removeItem` are exactly the lines with another id. */
  lemma {:induction false} RemoveItemMembers(items: seq<CartItem>, id: string)
    ensures forall x :: x in RemoveItemFrom(items, id) <==> x in items && x.id != id
  {
    if items != [] {
      RemoveItemMembers(items[1..], id);
      assert items == [items[0]] + items[1..];
    }
  }

  /** `removeItem` keeps the remaining lines in their order. */
  lemma {:induction false} RemoveItemKeepsOrder(items: seq<CartItem>, id: string)
    ensures IsSubsequence(RemoveItemFrom(items, id), items)
  {
    if items == [] {
      EmptyIsSubsequence(items);
    } else {
      RemoveItemKeepsOrder(items[1..], id);
      if items[0].id == id {
        SkipHead(RemoveItemFrom(items[1..], id), items);
      } else {
        KeepHead(RemoveItemFrom(items[1..], id), items);
      }
    }
  }

  /** Removing an absent id changes nothing. */
  lemma {:induction false} RemoveItemAbsent(items: seq<CartItem>, id: string)
    requires !HasId(items, id)
    ensures RemoveItemFrom(items, id) == items
  {
    if items != [] {
      assert !HasId(items[1..], id) by {
        forall k | 0 <= k < |items| - 1 ensures items[1..][k].id != id {
          assert items[1..][k] == items[k + 1];
        }
      }
      RemoveItemAbsent(items[1..], id);
    }
  }

  /** In a cart with unique ids, removing the id of line `k` drops that line and keeps the others in order. */
  lemma {:induction false} RemoveItemSplice(items: seq<CartItem>, k: nat)
    requires UniqueIds(items) && k < |items|
    ensures RemoveItemFrom(items, items[k].id) == items[..k] + items[k + 1..]
  {
    var id := items[k].id;
    if k == 0 {
      assert !HasId(items[1..], id) by {
        forall j | 0 <= j < |items| - 1 ensures items[1..][j].id != id {
          assert items[1..][j] == items[j + 1];
        }
      }
      RemoveItemAbsent(items[1..], id);
    } else {
      assert items[0].id != id;
      assert items[1..][k - 1] == items[k];
      RemoveItemSplice(items[1..], k - 1);
      assert items[..k] == [items[0]] + items[1..][..k - 1];
      assert items[k + 1..] == items[1..][k..];
    }
  }

  /** `removeItem` keeps the cart valid. */
  lemma RemoveItemValid(items: seq<CartItem>, id: string)
    requires ValidCart(items)
    ensures ValidCart(RemoveItemFrom(items, id))
  {
    if k :| 0 <= k < |items| && items[k].id == id {
      RemoveItemSplice(items, k);
      var r := items[..k] + items[k + 1..];
      forall i, j | 0 <= i < j < |r| ensures r[i].id != r[j].id {
        var i' := if i < k then i else i + 1;
        var j' := if j < k then j else j + 1;
        assert r[i] == items[i'] && r[j] == items[j'] && i' < j';
      }
    } else {
      RemoveItemAbsent(items, id);
    }
  }

  // ---------------------------------------------------------------------------
  // Properties of setQty

  /** Dropping non-positive lines leaves only positive ones. */
  lemma {:induction false} KeepPositiveAllPositive(items: seq<CartItem>)
    ensures AllPositive(KeepPositive(items))
    ensures forall x :: x in KeepPositive(items) <==> x in items && x.qty > 0
  {
    if items != [] {
      KeepPositiveAllPositive(items[1..]);
      assert items == [items[0]] + items[1..];
    }
  }

  /** Dropping non-positive lines keeps the remaining lines in their order. */
  lemma {:induction false} KeepPositiveKeepsOrder(items: seq<CartItem>)
    ensures IsSubsequence(KeepPositive(items), items)
  {
    if items == [] {
      EmptyIsSubsequence(items);
    } else {
      KeepPositiveKeepsOrder(items[1..]);
      if items[0].qty > 0 {
        KeepHead(KeepPositive(items[1..]), items);
      } else {
        SkipHead(KeepPositive(items[1..]), items);
      }
    }
  }

  /** Dropping non-positive lines from an all-positive list changes nothing. */
  lemma {:induction false} KeepPositiveNoop(items: seq<CartItem>)
    requires AllPositive(items)
    ensures KeepPositive(items) == items
  {
    if items != [] {
      KeepPositiveNoop(items[1..]);
    }
  }

  /** After `setQty` every remaining line has a positive quantity. */
  lemma SetQtyAllPositive(items: seq<CartItem>, id: string, qty: int)
    ensures AllPositive(SetQtyIn(items, id, qty))
  {
    KeepPositiveAllPositive(AssignQty(items, id, qty));
  }

  /** `setQty` with a quantity of zero or less removes the line, as `removeItem` does. */
  lemma {:induction false} SetQtyNonPositiveRemoves(items: seq<CartItem>, id: string, qty: int)
    requires AllPositive(items) && qty <= 0
    ensures SetQtyIn(items, id, qty) == RemoveItemFrom(items, id)
  {
    if items != [] {
      assert AssignQty(items, id, qty)[1..] == AssignQty(items[1..], id, qty);
      SetQtyNonPositiveRemoves(items[1..], id, qty);
    }
  }

  /** `setQty` with a positive quantity sets that line's quantity and drops nothing. */
  lemma SetQtyPositiveAssigns(items: seq<CartItem>, id: string, qty: int)
    requires AllPositive(items) && qty > 0
    ensures |SetQtyIn(items, id, qty)| == |items|
    ensures forall k :: 0 <= k < |items| ==>
      SetQtyIn(items, id, qty)[k] == if items[k].id == id then items[k].(qty := qty) else items[k]
  {
    KeepPositiveNoop(AssignQty(items, id, qty));
  }

  /** `setQty` on an id that is not in an all-positive cart leaves it unchanged. */
  lemma SetQtyAbsent(items: seq<CartItem>, id: string, qty: int)
    requires AllPositive(items) && !HasId(items, id)
    ensures SetQtyIn(items, id, qty) == items
  {
    assert AssignQty(items, id, qty) == items;
    KeepPositiveNoop(items);
  }

  /** `setQty` keeps a valid cart valid, whatever the quantity. */
  lemma SetQtyValid(items: seq<CartItem>, id: string, qty: int)
    requires ValidCart(items)
    ensures ValidCart(SetQtyIn(items, id, qty))
  {
    if qty <= 0 {
      SetQtyNonPositiveRemoves(items, id, qty);
      RemoveItemValid(items, id);
    } else {
      SetQtyPositiveAssigns(items, id, qty);
    }
  }

  // ---------------------------------------------------------------------------
  // Properties of the totals

  /** The folds split over concatenation. */
  lemma {:induction false} TotalsConcat(a: seq<CartItem>, b: seq<CartItem>)
    ensures ItemCount(a + b) == ItemCount(a) + ItemCount(b)
    ensures RawSubtotal(a + b) == RawSubtotal(a) + RawSubtotal(b)
  {
    if b == [] {
      assert a + b == a;
    } else {
      var ab := a + b;
      assert ab[..|ab| - 1] == a + b[..|b| - 1];
      assert ab[|ab| - 1] == b[|b| - 1];
      TotalsConcat(a, b[..|b| - 1]);
    }
  }

  /** The folds over a list of one line. */
  lemma TotalsSingle(x: CartItem)
    ensures ItemCount([x]) == x.qty
    ensures RawSubtotal([x]) == LineTotal(x)
  {
    assert [x][..0] == [];
  }

  /** The folds split around line `k`. */
  lemma TotalsAround(items: seq<CartItem>, k: nat)
    requires k < |items|
    ensures ItemCount(items) == ItemCount(items[..k]) + items[k].qty + ItemCount(items[k + 1..])
    ensures RawSubtotal(items) ==
      RawSubtotal(items[..k]) + LineTotal(items[k]) + RawSubtotal(items[k + 1..])
  {
    var pre, x, post := items[..k], items[k], items[k + 1..];
    assert items == (pre + [x]) + post;
    TotalsConcat(pre + [x], post);
    TotalsConcat(pre, [x]);
    TotalsSingle(x);
  }

  /** With positive quantities the item count is at least the number of lines, and zero only for an empty cart. */
  lemma {:induction false} ItemCountPositive(items: seq<CartItem>)
    requires AllPositive(items)
    ensures ItemCount(items) >= |items|
    ensures ItemCount(items) == 0 <==> items == []
  {
    if items != [] {
      ItemCountPositive(items[..|items| - 1]);
    }
  }

  /** Raising a line's quantity by `q` raises its total by `q` times its price. */
  lemma LineTotalBump(x: CartItem, q: int)
    ensures LineTotal(x.(qty := x.qty + q)) == LineTotal(x) + x.price * q as real
  {
    var p, a, b := x.price, x.qty as real, q as real;
    assert (x.qty + q) as real == a + b;
    assert p * (a + b) == p * a + p * b;
  }

  /** Replacing line `k` changes the totals by the difference of the two lines. */
  lemma TotalsReplace(items: seq<CartItem>, k: nat, y: CartItem)
    requires k < |items|
    ensures ItemCount(items[k := y]) == ItemCount(items) - items[k].qty + y.qty
    ensures RawSubtotal(items[k := y]) == RawSubtotal(items) - LineTotal(items[k]) + LineTotal(y)
  {
    var r := items[k := y];
    TotalsAround(items, k);
    TotalsAround(r, k);
    assert r[..k] == items[..k] && r[k + 1..] == items[k + 1..];
  }

  /** Raising line `k`'s quantity by `qty` raises the totals by `qty` lines of its price. */
  lemma BumpLineTotals(items: seq<CartItem>, k: nat, qty: int)
    requires k < |items|
    ensures ItemCount(items[k := items[k].(qty := items[k].qty + qty)]) == ItemCount(items) + qty
    ensures RawSubtotal(items[k := items[k].(qty := items[k].qty + qty)]) ==
      RawSubtotal(items) + items[k].price * qty as real
  {
    TotalsReplace(items, k, items[k].(qty := items[k].qty + qty));
    LineTotalBump(items[k], qty);
  }

  /** Merging into line `k` raises the totals by `qty` lines at that line's price. */
  lemma AddExistingTotals(items: seq<CartItem>, item: NewItem, qty: int, k: nat)
    requires UniqueIds(items) && k < |items| && items[k].id == item.id
    ensures ItemCount(AddItemTo(items, item, qty)) == ItemCount(items) + qty
    ensures RawSubtotal(AddItemTo(items, item, qty)) == RawSubtotal(items) + items[k].price * qty as real
  {
    AddItemExisting(items, item, qty, k);
    BumpLineTotals(items, k, qty);
  }

  /** Appending a new line raises the totals by `qty` lines at the added item's price. */
  lemma AddNewTotals(items: seq<CartItem>, item: NewItem, qty: int)
    requires !HasId(items, item.id)
    ensures ItemCount(AddItemTo(items, item, qty)) == ItemCount(items) + qty
    ensures RawSubtotal(AddItemTo(items, item, qty)) == RawSubtotal(items) + item.price * qty as real
  {
    AddItemNew(items, item, qty);
    var line := WithQty(item, qty);
    TotalsConcat(items, [line]);
    TotalsSingle(line);
  }

  /** Removing line `k` of a cart with unique ids lowers the totals by that line's share. */
  lemma RemoveItemTotals(items: seq<CartItem>, k: nat)
    requires UniqueIds(items) && k < |items|
    ensures ItemCount(RemoveItemFrom(items, items[k].id)) == ItemCount(items) - items[k].qty
    ensures RawSubtotal(RemoveItemFrom(items, items[k].id)) ==
      RawSubtotal(items) - LineTotal(items[k])
  {
    RemoveItemSplice(items, k);
    TotalsAround(items, k);
    TotalsConcat(items[..k], items[k + 1..]);
  }

  // ---------------------------------------------------------------------------
  // The store

  /**
   * The cart provider's state: the current items and the browser storage entry
   * they are persisted to. Every transition replaces `items` and leaves the entry
   * alone; `Persist` is the effect that writes the entry after a change.
   */
  class Store {
    var items: seq<CartItem>
    var slot: CartSlot

    /** The provider starts with no items, before hydration reads the stored entry. */
    constructor (stored: CartSlot)
      ensures items == [] && slot == stored
    {
      items := [];
      slot := stored;
    }

    function Count(): int
      reads this
    {
      ItemCount(items)
    }

    /** The rounded subtotal of the current items: whole cents, within half a cent of the exact sum. */
    function Total(): (r: real)
      reads this
      ensures Money.IsWholeCents(r)
      ensures RawSubtotal(items) - 0.005 < r <= RawSubtotal(items) + 0.005
    {
      Subtotal(items)
    }

    /** The mount effect: replace the items with what `loadCart` gives. */
    method Hydrate(hasWindow: bool)
      modifies this`items
      ensures items == LoadCart(hasWindow, slot)
    {
      items := LoadCart(hasWindow, slot);
    }

    /** The save effect: write the items; a failing write is swallowed and leaves the entry. */
    method Persist(writeFails: bool)
      modifies this`slot
      ensures slot == if writeFails then old(slot) else SaveCart(items)
      ensures !writeFails ==> LoadCart(true, slot) == items
    {
      if !writeFails {
        slot := SaveCart(items);
        SaveThenLoad(items);
      }
    }

    method AddItem(item: NewItem, qty: int)
      modifies this`items
      ensures items == AddItemTo(old(items), item, qty)
      ensures old(ValidCart(items)) && qty > 0 ==> ValidCart(items)
      ensures old(UniqueIds(items)) ==> Count() == old(Count()) + qty
    {
      if ValidCart(items) && qty > 0 {
        AddItemValid(items, item, qty);
      }
      if k :| 0 <= k < |items| && items[k].id == item.id {
        if UniqueIds(items) {
          AddExistingTotals(items, item, qty, k);
        }
      } else {
        AddNewTotals(items, item, qty);
      }
      items := AddItemTo(items, item, qty);
    }

    method RemoveItem(id: string)
      modifies this`items
      ensures items == RemoveItemFrom(old(items), id)
      ensures old(ValidCart(items)) ==> ValidCart(items)
      ensures forall x :: x in items <==> x in old(items) && x.id != id
    {
      if ValidCart(items) {
        RemoveItemValid(items, id);
      }
      RemoveItemMembers(items, id);
      items := RemoveItemFrom(items, id);
    }

    method SetQty(id: string, qty: int)
      modifies this`items
      ensures items == SetQtyIn(old(items), id, qty)
      ensures AllPositive(items)
      ensures old(ValidCart(items)) ==> ValidCart(items)
    {
      SetQtyAllPositive(items, id, qty);
      if ValidCart(items) {
        SetQtyValid(items, id, qty);
      }
      items := SetQtyIn(items, id, qty);
    }

    method Clear()
      modifies this`items
      ensures items == [] && Count() == 0
    {
      items := EmptyCart();
    }
  }
}
