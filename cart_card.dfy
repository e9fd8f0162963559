/** The cart card of the cart feature (app/features/cart/components/cart.tsx): its total, the
    amount on each row, and the remove and clear controls. */
module CartCard {
  import opened Util
  import opened MenuTypes

  /** `items.reduce((sum, item) => sum + item.price * item.quantity, 0)`. */
  function Total(items: seq<CartItem>): int
  {
    Reduce(items, LineAmount, 0)
  }

  /** The amount shown on a row. */
  function RowAmount(item: CartItem): (r: int)
    ensures item.quantity == 1 ==> r == item.price
    ensures item.price >= 0 && item.quantity >= 0 ==> r >= 0
  {
    LineAmount(item)
  }

  /** One more unit of a row adds its price to the amount; with the empty row at 0 this fixes the
      amount at `price * quantity` for every quantity. */
  lemma RowAmountStep(item: CartItem)
    ensures RowAmount(item.(quantity := 0)) == 0
    ensures RowAmount(item.(quantity := item.quantity + 1)) == RowAmount(item) + item.price
  {
    assert item.price * (item.quantity + 1) == item.price * item.quantity + item.price;
  }

  /** The total is the sum of the row amounts: 0 for an empty card, and each appended row adds
      exactly its price times its quantity, which is the amount shown on that row. */
  lemma TotalOfRows(items: seq<CartItem>, item: CartItem)
    ensures Total([]) == 0
    ensures Total(items + [item]) == Total(items) + item.price * item.quantity
    ensures Total(items + [item]) == Total(items) + RowAmount(item)
  {
    ReduceSnoc(items, item, LineAmount, 0);
  }

  /** The total does not depend on the order of the rows. */
  lemma TotalOrderIndependent(a: seq<CartItem>, b: seq<CartItem>)
    requires multiset(a) == multiset(b)
    ensures Total(a) == Total(b)
  {
    ReducePermutation(a, b, LineAmount);
  }

  /** The controls of the card: a remove button per row and the Clear Cart button. */
  datatype Control = Remove(row: int) | ClearCartButton

  /** The parent callback a control reaches. */
  datatype CardCall = RemoveItem(itemId: int) | ClearCart

  /** Pressing a control: remove passes exactly the row's `item.id`; Clear Cart is disabled
      exactly when the list is empty; an empty card has no rows. */
  function Press(items: seq<CartItem>, control: Control): (r: Option<CardCall>)
    ensures control.Remove? ==> (r.Some? <==> 0 <= control.row < |items|)
    ensures control.Remove? && r.Some? ==> r.value == RemoveItem(items[control.row].id)
    ensures control.ClearCartButton? ==> (r.Some? <==> |items| > 0) && (r.Some? ==> r.value == ClearCart)
    ensures items == [] ==> r == None
  {
    match control
    case Remove(row) => if 0 <= row < |items| then Some(RemoveItem(items[row].id)) else None
    case ClearCartButton => if |items| == 0 then None else Some(ClearCart)
  }
}
