/** The menu card of one catalog item (app/components/menu-item-card.tsx). The card reads each
    ingredient as a record with an id, a name and a surcharge, so that is how they are modelled
    here; its modification list is initialised once and never set again. */
module MenuItemCard {
  import opened Util
  import opened MenuTypes

  /** An ingredient as the card reads it. */
  datatype CardIngredient = CardIngredient(id: string, name: string, extraPrice: int)

  /** A catalog item as the card reads it. */
  datatype CardItem = CardItem(
    id: int,
    name: Name,
    price: int,
    timeOfDay: TimeOfDay,
    ingredients: Option<seq<CardIngredient>>,
    itemType: ItemType)

  /** An entry of the card's modification list. */
  datatype CardModification = CardModification(id: string, name: string, modification: IngredientModification, extraPrice: int)

  /** One call of `onAddToCart(item, modifications)`. */
  datatype AddCall = AddCall(item: CardItem, modifications: seq<CardModification>)

  /** The card's state: its props and the modification list it keeps. */
  datatype Card = Card(item: CardItem, quantity: int, modifications: seq<CardModification>)

  /** One `regular` entry per ingredient, in order, carrying its id, name and surcharge. */
  function RegularEntries(ingredients: seq<CardIngredient>): (mods: seq<CardModification>)
    ensures |mods| == |ingredients|
    ensures forall i :: 0 <= i < |ingredients| ==>
              mods[i] == CardModification(ingredients[i].id, ingredients[i].name, Regular, ingredients[i].extraPrice)
  {
    if ingredients == [] then []
    else
      var ing := ingredients[0];
      [CardModification(ing.id, ing.name, Regular, ing.extraPrice)] + RegularEntries(ingredients[1..])
  }

  /** The initial modification list: one `regular` entry per ingredient, or empty for an item
      without ingredients. */
  function InitialModifications(item: CardItem): (mods: seq<CardModification>)
    ensures item.ingredients.None? ==> mods == []
    ensures item.ingredients.Some? ==> |mods| == |item.ingredients.value|
    ensures forall m :: m in mods ==> m.modification == Regular
  {
    match item.ingredients
    case None => []
    case Some(ings) => RegularEntries(ings)
  }

  /** The card as it is mounted. Nothing calls the setter afterwards, so this is its state for
      its whole life. */
  function Mount(item: CardItem, quantity: int): Card
  {
    Card(item, quantity, InitialModifications(item))
  }

  /** `modifications.filter(mod => mod.modification !== 'regular')`. */
  function ActiveModifications(mods: seq<CardModification>): (r: seq<CardModification>)
    ensures forall m :: m in r ==> m in mods && m.modification != Regular
    ensures forall m :: m in mods && m.modification != Regular ==> m in r
    ensures IsSubsequence(r, mods)
  {
    if mods == [] then []
    else if mods[0].modification != Regular then [mods[0]] + ActiveModifications(mods[1..])
    else ActiveModifications(mods[1..])
  }

  /** A list without active entries filters to nothing. */
  lemma {:induction false} NoActiveWhenAllRegular(mods: seq<CardModification>)
    requires forall m :: m in mods ==> m.modification == Regular
    ensures ActiveModifications(mods) == []
  {
    if mods != [] {
      assert mods[0] in mods;
      assert forall m :: m in mods[1..] ==> m in mods;
      NoActiveWhenAllRegular(mods[1..]);
    }
  }

  /** `handleAddToCart`: the card's item and its non-regular modifications, in order. */
  function HandleAddToCart(card: Card): (call: AddCall)
    ensures call.item == card.item
    ensures IsSubsequence(call.modifications, card.modifications)
    ensures forall m :: m in call.modifications <==> m in card.modifications && m.modification != Regular
  {
    AddCall(card.item, ActiveModifications(card.modifications))
  }

  /** Since the list is never changed after mounting, every add passes an empty list. */
  lemma AddPassesNoModifications(item: CardItem, quantity: int)
    ensures HandleAddToCart(Mount(item, quantity)) == AddCall(item, [])
  {
    NoActiveWhenAllRegular(InitialModifications(item));
  }

  /** The remove control exists only while the quantity is positive; pressing it passes the
      card's item to `onRemoveFromCart`. */
  function PressRemove(card: Card): (r: Option<CardItem>)
    ensures r.Some? <==> card.quantity > 0
    ensures r.Some? ==> r.value == card.item
  {
    if card.quantity > 0 then Some(card.item) else None
  }
}
