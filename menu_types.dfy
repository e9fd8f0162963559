/** The shared record shapes of the ordering UI (app/types/menu.ts). Prices are integer cents. */
module MenuTypes {
  import opened Util

  /** When an item may be ordered; drinks marked `All` go with either menu. */
  datatype TimeOfDay = Morning | Night | All

  datatype ItemType = Food | Drink

  /** A bilingual display string. */
  datatype Name = Name(en: string, es: string)

  /** A catalog entry. The `image` path of the source is presentation and is not carried. */
  datatype MenuItem = MenuItem(
    id: int,
    name: Name,
    price: int,
    timeOfDay: TimeOfDay,
    ingredients: Option<seq<string>>,
    itemType: ItemType)

  /** The modification vocabulary of app/types/menu.ts. */
  datatype IngredientModification = Regular | Removed | Extra

  datatype CartItemIngredient = CartItemIngredient(name: string, modification: IngredientModification)

  /** A cart line: a snapshot of a catalog entry, a quantity, optional modifications and the id
      of the catalog entry it came from. `extraPrice` is not declared by the type but is read by
      the cart button, so it is carried here as a field of its own. */
  datatype CartItem = CartItem(
    id: int,
    name: Name,
    price: int,
    timeOfDay: TimeOfDay,
    itemType: ItemType,
    quantity: int,
    ingredients: Option<seq<CartItemIngredient>>,
    originalItemId: int,
    extraPrice: int)

  /** `item.price * item.quantity`, the amount one line contributes without surcharges. */
  function LineAmount(item: CartItem): int
  {
    item.price * item.quantity
  }

  /** `items.find(item => item.id === id)`: the first entry with that id, if any. */
  function FindById(items: seq<MenuItem>, id: int): (r: Option<MenuItem>)
    ensures r.None? <==> forall i :: 0 <= i < |items| ==> items[i].id != id
    ensures r.Some? ==> exists i :: 0 <= i < |items| && items[i] == r.value &&
                          r.value.id == id && forall j :: 0 <= j < i ==> items[j].id != id
  {
    if items == [] then None
    else if items[0].id == id then Some(items[0])
    else
      var r := FindById(items[1..], id);
      assert forall i :: 1 <= i < |items| ==> items[i] == items[1..][i - 1];
      r
  }

  /** No two entries of a catalog share an id. */
  ghost predicate UniqueIds(items: seq<MenuItem>)
  {
    forall i, j :: 0 <= i < j < |items| ==> items[i].id != items[j].id
  }

  /** In a catalog with unique ids, looking up the id of an entry finds that entry. */
  lemma FindByIdAt(items: seq<MenuItem>, k: int)
    requires UniqueIds(items) && 0 <= k < |items|
    ensures FindById(items, items[k].id) == Some(items[k])
  {
    var r := FindById(items, items[k].id);
    var i :| 0 <= i < |items| && items[i] == r.value && r.value.id == items[k].id &&
             forall j :: 0 <= j < i ==> items[j].id != items[k].id;
    assert i == k;
  }
}
