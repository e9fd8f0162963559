/** The cart side sheet (app/components/cart-sheet.tsx): its total, the catalog lookup of each
    line's base item, and which parent callback each control reaches. */
module CartSheet {
  import opened Util
  import opened MenuTypes
  import MenuData
  import IngredientSelector

  /** `items.reduce((sum, item) => sum + item.price * item.quantity, 0)`. */
  function Total(items: seq<CartItem>): int
  {
    Reduce(items, LineAmount, 0)
  }

  /** The empty cart totals 0, and appending a line adds exactly its price times its quantity,
      which is the subtotal shown beside that line. */
  lemma TotalOfEmptyAndAppend(items: seq<CartItem>, item: CartItem)
    ensures Total([]) == 0
    ensures Total(items + [item]) == Total(items) + item.price * item.quantity
    ensures Total(items + [item]) == Total(items) + LineSubtotal(item)
  {
    ReduceSnoc(items, item, LineAmount, 0);
  }

  /** The total sees only prices and quantities: two carts that agree on those line by line have
      the same total, whatever their ingredient modifications or surcharges. */
  lemma TotalIgnoresModifications(a: seq<CartItem>, b: seq<CartItem>)
    requires |a| == |b|
    requires forall i :: 0 <= i < |a| ==> a[i].price == b[i].price && a[i].quantity == b[i].quantity
    ensures Total(a) == Total(b)
  {
    ReducePointwise(a, LineAmount, b, LineAmount, 0);
  }

  /** With no negative price or quantity the total is not negative. */
  lemma TotalNonNegative(items: seq<CartItem>)
    requires forall i :: 0 <= i < |items| ==> items[i].price >= 0 && items[i].quantity >= 0
    ensures Total(items) >= 0
  {
    forall i | 0 <= i < |items| ensures LineAmount(items[i]) >= 0 {
      assert items[i].price * items[i].quantity >= 0;
    }
    ReduceAtLeastStart(items, LineAmount, 0);
  }

  /** The line's subtotal as shown beside it. */
  function LineSubtotal(item: CartItem): (r: int)
    ensures item.quantity == 0 ==> r == 0
    ensures item.quantity == 1 ==> r == item.price
  {
    LineAmount(item)
  }

  /** One more unit of a line adds its price to the subtotal; with the empty line at 0 this
      fixes the subtotal at every quantity. */
  lemma LineSubtotalStep(item: CartItem)
    ensures LineSubtotal(item.(quantity := 0)) == 0
    ensures LineSubtotal(item.(quantity := item.quantity + 1)) == LineSubtotal(item) + item.price
  {
    assert item.price * (item.quantity + 1) == item.price * item.quantity + item.price;
  }

  /** A line whose base item is in the catalog: the source asserts it is never missing. */
  predicate HasBaseItem(cartItem: CartItem)
  {
    exists i :: 0 <= i < |MenuData.MenuItems()| && MenuData.MenuItems()[i].id == cartItem.originalItemId
  }

  /** `getBaseItem`: the catalog entry the line was made from. */
  function GetBaseItem(cartItem: CartItem): (base: MenuItem)
    requires HasBaseItem(cartItem)
    ensures base in MenuData.MenuItems() && base.id == cartItem.originalItemId
  {
    match FindById(MenuData.MenuItems(), cartItem.originalItemId)
    case Some(base) => base
  }

  /** The ingredient selector is shown under a line only when its base item has ingredients. */
  function SelectorShown(cartItem: CartItem): (shown: bool)
    requires HasBaseItem(cartItem)
    ensures shown <==> GetBaseItem(cartItem).itemType == Food
  {
    MenuData.FoodShape();
    MenuData.DrinksAreAllDay();
    GetBaseItem(cartItem).ingredients.Some?
  }

  /** The controls of the sheet: per line the minus and plus buttons and the ingredient badges,
      then the Clear and Checkout buttons. */
  datatype Control =
    | Minus(line: int)
    | Plus(line: int)
    | Badge(line: int, ingredient: string)
    | ClearButton
    | CheckoutButton

  /** The parent callback a control reaches. */
  datatype SheetCall =
    | UpdateQuantity(item: CartItem, delta: int)
    | ModifyIngredient(item: CartItem, ingredient: string, modification: IngredientModification)
    | ClearCart
    | Checkout

  /** The sheet renders every line's base item, so every line must have one. */
  predicate Renderable(items: seq<CartItem>)
  {
    forall i :: 0 <= i < |items| ==> HasBaseItem(items[i])
  }

  /** Pressing a control: the callback it reaches, or `None` when the control does not exist or
      is disabled. */
  function Press(items: seq<CartItem>, control: Control): (r: Option<SheetCall>)
    requires Renderable(items)
    ensures items == [] ==> r == None
    ensures control.ClearButton? ==> (r.Some? <==> items != []) && (r.Some? ==> r.value == ClearCart)
    ensures control.CheckoutButton? ==> (r.Some? <==> items != []) && (r.Some? ==> r.value == Checkout)
    ensures control.Minus? && 0 <= control.line < |items| ==> r == Some(UpdateQuantity(items[control.line], -1))
    ensures control.Plus? && 0 <= control.line < |items| ==> r == Some(UpdateQuantity(items[control.line], 1))
    ensures control.Badge? ==>
              (r.Some? <==> 0 <= control.line < |items| && SelectorShown(items[control.line]) &&
                            control.ingredient in GetBaseItem(items[control.line]).ingredients.value)
    ensures control.Badge? && r.Some? ==>
              r.value.ModifyIngredient? && r.value.item == items[control.line] &&
              r.value.ingredient == control.ingredient &&
              r.value.modification == IngredientSelector.NextModification(
                IngredientSelector.GetModification(ModificationsOf(items[control.line]), control.ingredient))
  {
    match control
    case Minus(i) => if 0 <= i < |items| then Some(UpdateQuantity(items[i], -1)) else None
    case Plus(i) => if 0 <= i < |items| then Some(UpdateQuantity(items[i], 1)) else None
    case Badge(i, ingredient) =>
      if 0 <= i < |items| && SelectorShown(items[i]) && ingredient in GetBaseItem(items[i]).ingredients.value then
        var change := IngredientSelector.CycleModification(ModificationsOf(items[i]), ingredient)[0];
        Some(ModifyIngredient(items[i], change.ingredient, change.modification))
      else None
    case ClearButton => if items != [] then Some(ClearCart) else None
    case CheckoutButton => if items != [] then Some(Checkout) else None
  }

  /** The list handed to the selector: the line's modifications, or the default empty list. */
  function ModificationsOf(item: CartItem): seq<CartItemIngredient>
  {
    match item.ingredients
    case Some(mods) => mods
    case None => []
  }
}
