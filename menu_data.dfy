/** The catalog shared by the cart sheet and the routed menu page (app/lib/menu-data.ts). */
module MenuData {
  import opened Util
  import opened MenuTypes

  /** `menuItems`: the twelve entries, morning food, night food, then drinks. */
  function MenuItems(): seq<MenuItem>
  {
    [
      // Morning menu
      MenuItem(1, Name("Breakfast Burrito", "Burrito de Desayuno"), 899, Morning,
        Some(["Eggs", "Cheese", "Bacon", "Potatoes", "Salsa"]), Food),
      MenuItem(2, Name("Avocado Toast", "Tostada de Aguacate"), 799, Morning,
        Some(["Avocado", "Bread", "Tomatoes", "Feta Cheese", "Olive Oil"]), Food),
      MenuItem(3, Name("Pancakes", "Panqueques"), 699, Morning,
        Some(["Flour", "Eggs", "Milk", "Butter", "Maple Syrup"]), Food),
      MenuItem(4, Name("French Toast", "Pan Francés"), 799, Morning,
        Some(["Bread", "Eggs", "Milk", "Cinnamon", "Vanilla"]), Food),
      // Night menu
      MenuItem(5, Name("Nashville Hot Chicken", "Pollo Picante de Nashville"), 1299, Night,
        Some(["Chicken", "Hot Spices", "Pickles", "Coleslaw", "Ranch"]), Food),
      MenuItem(6, Name("BBQ Pulled Pork", "Cerdo Desmenuzado BBQ"), 1199, Night,
        Some(["Pork", "BBQ Sauce", "Coleslaw", "Pickles", "Bun"]), Food),
      MenuItem(7, Name("Southern Fried Catfish", "Bagre Frito Sureño"), 1399, Night,
        Some(["Catfish", "Cornmeal", "Remoulade", "Lemon", "Herbs"]), Food),
      // Drinks go with either menu
      MenuItem(8, Name("Sweet Tea", "Té Dulce"), 299, All, None, Drink),
      MenuItem(9, Name("Lemonade", "Limonada"), 299, All, None, Drink),
      MenuItem(10, Name("Coffee", "Café"), 249, All, None, Drink),
      MenuItem(11, Name("Craft Beer", "Cerveza Artesanal"), 599, All, None, Drink),
      MenuItem(12, Name("House Wine", "Vino de la Casa"), 699, All, None, Drink)
    ]
  }

  /** The ids are 1 to 12, in order, so they are unique and ascending. */
  lemma CatalogIds()
    ensures |MenuItems()| == 12
    ensures forall i :: 0 <= i < |MenuItems()| ==> MenuItems()[i].id == i + 1
    ensures UniqueIds(MenuItems())
  {
  }

  /** Every drink goes with both menus and has no ingredient list. */
  lemma DrinksAreAllDay()
    ensures forall i :: 0 <= i < |MenuItems()| && MenuItems()[i].itemType == Drink ==>
              MenuItems()[i].timeOfDay == All && MenuItems()[i].ingredients == None
  {
  }

  /** Every food item lists exactly five ingredients; ids 1-4 are morning food, 5-7 night food. */
  lemma FoodShape()
    ensures forall i :: 0 <= i < |MenuItems()| && MenuItems()[i].itemType == Food ==>
              MenuItems()[i].ingredients.Some? && |MenuItems()[i].ingredients.value| == 5
    ensures forall i :: 0 <= i < |MenuItems()| ==>
              (MenuItems()[i].itemType == Food <==> 1 <= MenuItems()[i].id <= 7)
    ensures forall i :: 0 <= i < |MenuItems()| ==>
              (MenuItems()[i].timeOfDay == Morning <==> 1 <= MenuItems()[i].id <= 4) &&
              (MenuItems()[i].timeOfDay == Night <==> 5 <= MenuItems()[i].id <= 7)
  {
  }

  /** Every price is positive. */
  lemma PricesPositive()
    ensures forall i :: 0 <= i < |MenuItems()| ==> MenuItems()[i].price > 0
  {
  }

  /** Looking up a catalog id finds the entry at position `id - 1`; any other id finds nothing. */
  lemma FindInCatalog(id: int)
    ensures 1 <= id <= 12 ==> FindById(MenuItems(), id) == Some(MenuItems()[id - 1])
    ensures !(1 <= id <= 12) ==> FindById(MenuItems(), id) == None
  {
    CatalogIds();
    if 1 <= id <= 12 {
      FindByIdAt(MenuItems(), id - 1);
    }
  }
}
