/** The header cart button (app/components/cart-button.tsx): item count and price with the
    per-line surcharge `extraPrice`. */
module CartButton {
  import opened Util
  import opened MenuTypes

  function LineQuantity(item: CartItem): int { item.quantity }

  /** The amount one line contributes: `(item.price + item.extraPrice) * item.quantity`. */
  function LineWithExtras(item: CartItem): int { (item.price + item.extraPrice) * item.quantity }

  /** `items.reduce((sum, item) => sum + item.quantity, 0)`. */
  function TotalItems(items: seq<CartItem>): int
  {
    Reduce(items, LineQuantity, 0)
  }

  /** `items.reduce((sum, item) => sum + (item.price + item.extraPrice) * item.quantity, 0)`. */
  function TotalPrice(items: seq<CartItem>): int
  {
    Reduce(items, LineWithExtras, 0)
  }

  /** An empty list shows no items and a zero price. */
  lemma EmptyButton()
    ensures TotalItems([]) == 0 && TotalPrice([]) == 0
  {
  }

  /** Appending a line adds exactly its quantity to the count and its price with surcharge,
      times its quantity, to the price. */
  lemma AppendLine(items: seq<CartItem>, item: CartItem)
    ensures TotalItems(items + [item]) == TotalItems(items) + item.quantity
    ensures TotalPrice(items + [item]) == TotalPrice(items) + (item.price + item.extraPrice) * item.quantity
  {
    ReduceSnoc(items, item, LineQuantity, 0);
    ReduceSnoc(items, item, LineWithExtras, 0);
  }

  /** With no negative surcharge or quantity, the price is at least the sum of base prices
      times quantities. */
  lemma PriceCoversBase(items: seq<CartItem>)
    requires forall i :: 0 <= i < |items| ==> items[i].extraPrice >= 0 && items[i].quantity >= 0
    ensures TotalPrice(items) >= Reduce(items, LineAmount, 0)
  {
    forall i | 0 <= i < |items| ensures LineAmount(items[i]) <= LineWithExtras(items[i]) {
      var it := items[i];
      assert (it.price + it.extraPrice) * it.quantity == it.price * it.quantity + it.extraPrice * it.quantity;
      assert it.extraPrice * it.quantity >= 0;
    }
    ReduceMonotone(items, LineAmount, LineWithExtras, 0);
  }

  /** With no surcharges at all, the button's price is the plain total of the lines. */
  lemma NoExtrasMeansPlainTotal(items: seq<CartItem>)
    requires forall i :: 0 <= i < |items| ==> items[i].extraPrice == 0
    ensures TotalPrice(items) == Reduce(items, LineAmount, 0)
  {
    ReducePointwise(items, LineWithExtras, items, LineAmount, 0);
  }
}
