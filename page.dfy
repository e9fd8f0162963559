/** The menu page (app/page.tsx): its own catalog, the cart rules of `updateQuantity`, the totals
    derived from the quantity map, the per-ingredient state cycle, the menu filter and the
    morning/night swipe. Prices are integer cents. */
module MenuPage {
  import opened Util
  import opened MenuTypes

  // ---------------------------------------------------------------------------
  // Catalog
  // ---------------------------------------------------------------------------

  /** The page's own catalog, distinct from the shared one, written column by column. Names in
      English and Spanish. */
  function CatalogName(i: int): Name
  {
    if i == 0 then Name("Breakfast Burrito", "Burrito de Desayuno")
    else if i == 1 then Name("Avocado Toast", "Tostada de Aguacate")
    else if i == 2 then Name("Pancakes", "Panqueques")
    else if i == 3 then Name("Nashville Hot Chicken", "Pollo Picante de Nashville")
    else if i == 4 then Name("BBQ Pulled Pork Sandwich", "Sándwich de Cerdo Desmenuzado BBQ")
    else if i == 5 then Name("Grilled Salmon", "Salmón a la Parrilla")
    else if i == 6 then Name("Coca-Cola", "Coca-Cola")
    else if i == 7 then Name("Iced Tea", "Té Helado")
    else if i == 8 then Name("Lemonade", "Limonada")
    else if i == 9 then Name("Bottled Water", "Agua Embotellada")
    else if i == 10 then Name("Espresso", "Café Espresso")
    else if i == 11 then Name("Cappuccino", "Capuchino")
    else if i == 12 then Name("Craft Beer", "Cerveza Artesanal")
    else if i == 13 then Name("Margarita", "Margarita")
    else if i == 14 then Name("Mojito", "Mojito")
    else Name("Orange Juice", "Jugo de Naranja")
  }

  /** Prices in cents. */
  function CatalogPrice(i: int): int
  {
    if i == 0 then 899
    else if i == 1 then 799
    else if i == 2 then 699
    else if i == 3 then 1299
    else if i == 4 then 1099
    else if i == 5 then 1499
    else if i == 6 then 249
    else if i == 7 then 199
    else if i == 8 then 229
    else if i == 9 then 149
    else if i == 10 then 299
    else if i == 11 then 349
    else if i == 12 then 599
    else if i == 13 then 799
    else if i == 14 then 699
    else 299
  }

  /** Three breakfast dishes, three dinner dishes, six all-day drinks, three night drinks and a
      last all-day drink. */
  function CatalogTime(i: int): TimeOfDay
  {
    if i < 3 then Morning
    else if i < 6 then Night
    else if 12 <= i < 15 then Night
    else All
  }

  /** The dishes list five ingredients each; drinks have none. */
  function CatalogIngredients(i: int): Option<seq<string>>
  {
    if i == 0 then Some(["Eggs", "Cheese", "Bacon", "Potatoes", "Salsa"])
    else if i == 1 then Some(["Avocado", "Bread", "Tomatoes", "Feta Cheese", "Olive Oil"])
    else if i == 2 then Some(["Flour", "Milk", "Eggs", "Butter", "Maple Syrup"])
    else if i == 3 then Some(["Chicken", "Spices", "Bread", "Pickles", "Coleslaw"])
    else if i == 4 then Some(["Pork", "BBQ Sauce", "Bun", "Onions", "Pickles"])
    else if i == 5 then Some(["Salmon", "Lemon", "Herbs", "Asparagus", "Rice"])
    else None
  }

  /** Entry `i` has id `i + 1`; the first six entries are dishes, the other ten drinks. */
  function CatalogEntry(i: int): MenuItem
  {
    MenuItem(i + 1, CatalogName(i), CatalogPrice(i), CatalogTime(i), CatalogIngredients(i), if i < 6 then Food else Drink)
  }

  /** The page's catalog, `menuItems`. */
  function Catalog(): seq<MenuItem>
  {
    seq(16, CatalogEntry)
  }

  /** Some entry of `items` has that id. */
  predicate HasId(items: seq<MenuItem>, id: int)
  {
    exists i :: 0 <= i < |items| && items[i].id == id
  }

  /** The ids are 1 to 16 in order, so each names exactly one entry, and every price is
      positive. */
  lemma CatalogIds()
    ensures |Catalog()| == 16
    ensures forall i :: 0 <= i < |Catalog()| ==> Catalog()[i].id == i + 1 && Catalog()[i].price > 0
    ensures UniqueIds(Catalog())
  {
    forall i | 0 <= i < 16 ensures Catalog()[i] == CatalogEntry(i) && CatalogEntry(i).id == i + 1 && CatalogEntry(i).price > 0 {
    }
  }

  /** `menuItems.find(item => item.id === id)` on this catalog: entry `id - 1` for an id from 1
      to 16, nothing otherwise (`LookupIsFind` proves the two agree). */
  function Lookup(id: int): Option<MenuItem>
  {
    if 1 <= id <= |Catalog()| then Some(Catalog()[id - 1]) else None
  }

  /** The direct lookup finds exactly the ids the catalog has, and the entry it finds has that
      id. */
  lemma LookupHasId(id: int)
    ensures Lookup(id).Some? <==> HasId(Catalog(), id)
    ensures Lookup(id).Some? ==> Lookup(id).value.id == id
  {
    CatalogIds();
  }

  /** The direct lookup is the catalog's `find`. */
  lemma LookupIsFind(id: int)
    ensures Lookup(id) == FindById(Catalog(), id)
  {
    CatalogIds();
    if 1 <= id <= 16 {
      FindByIdAt(Catalog(), id - 1);
    }
  }

  // ---------------------------------------------------------------------------
  // The quantity map and its reductions
  // ---------------------------------------------------------------------------

  /** `quantities[id] || 0`. */
  function Quantity(q: map<int, int>, id: int): int
  {
    if id in q then q[id] else 0
  }

  /** The reductions the page runs over `Object.entries(quantities)`: the food count, the drink
      count, the item total and the price total. */
  datatype Measure = TypeQuantity(itemType: ItemType) | CartQuantity | CartPrice

  /** What the entry of `id` adds to a reduction: for a type count, its quantity when the
      catalog item it names has that type; for the totals, only entries with a positive
      quantity (the `cartItems` filter), the price adding nothing for an id not in the
      catalog. */
  function Entry(q: map<int, int>, m: Measure, id: int): int
  {
    if id !in q then 0
    else
      match m
      case TypeQuantity(t) =>
        (match Lookup(id)
         case Some(item) => if item.itemType == t then q[id] else 0
         case None => 0)
      case CartQuantity => if q[id] > 0 then q[id] else 0
      case CartPrice =>
        if q[id] <= 0 then 0
        else
          (match Lookup(id)
           case Some(item) => item.price * q[id]
           case None => 0)
  }

  /** A reduction over the entries of the map, visited in the order `keys`:
      `Object.entries(quantities).reduce(...)` with `Entry` as the step. */
  function EntriesSum(keys: seq<int>, q: map<int, int>, m: Measure): int
  {
    if keys == [] then 0 else Entry(q, m, keys[0]) + EntriesSum(keys[1..], q, m)
  }

  /** `keys` lists every key of the map exactly once, in some order. */
  ghost predicate EntryOrder(keys: seq<int>, q: map<int, int>)
  {
    && (forall i, j :: 0 <= i < j < |keys| ==> keys[i] != keys[j])
    && (forall x :: x in keys <==> x in q)
  }

  lemma {:induction false} EntriesSumPointwise(keys: seq<int>, q: map<int, int>, q': map<int, int>, m: Measure)
    requires forall x :: x in keys ==> Entry(q, m, x) == Entry(q', m, x)
    ensures EntriesSum(keys, q, m) == EntriesSum(keys, q', m)
  {
    if keys != [] {
      assert forall x :: x in keys[1..] ==> x in keys;
      EntriesSumPointwise(keys[1..], q, q', m);
    }
  }

  /** The same reduction run over a catalog: `Entry` summed over its ids, in catalog order. */
  function CatalogSum(items: seq<MenuItem>, q: map<int, int>, m: Measure): int
  {
    if items == [] then 0 else Entry(q, m, items[0].id) + CatalogSum(items[1..], q, m)
  }

  lemma {:induction false} CatalogSumPointwise(items: seq<MenuItem>, q: map<int, int>, q': map<int, int>, m: Measure)
    requires forall i :: 0 <= i < |items| ==> Entry(q, m, items[i].id) == Entry(q', m, items[i].id)
    ensures CatalogSum(items, q, m) == CatalogSum(items, q', m)
  {
    if items != [] {
      assert forall i :: 0 <= i < |items| - 1 ==> items[1..][i] == items[i + 1];
      CatalogSumPointwise(items[1..], q, q', m);
    }
  }

  /** Summing over the entries of the map, in any order, is summing over a catalog with unique
      ids that holds every key. */
  lemma {:induction false} EntriesMatchCatalog(items: seq<MenuItem>, q: map<int, int>, keys: seq<int>, m: Measure)
    requires UniqueIds(items)
    requires forall x :: x in q ==> HasId(items, x)
    requires EntryOrder(keys, q)
    ensures EntriesSum(keys, q, m) == CatalogSum(items, q, m)
    decreases |keys|
  {
    if keys == [] {
      forall i | 0 <= i < |items| ensures Entry(q, m, items[i].id) == Entry(map[], m, items[i].id) {
        assert items[i].id !in keys;
      }
      CatalogSumPointwise(items, q, map[], m);
      CatalogSumZero(items, map[], m);
    } else {
      var k := keys[0];
      var q' := q - {k};
      var rest := keys[1..];
      forall x ensures x in rest <==> x in q' {
        if x in rest {
          var j :| 0 <= j < |rest| && rest[j] == x;
          assert keys[j + 1] == x && keys[0] != keys[j + 1];
        }
        if x in q' {
          assert x in keys && x != keys[0];
          var j :| 0 <= j < |keys| && keys[j] == x;
          assert rest[j - 1] == x;
        }
      }
      EntriesMatchCatalog(items, q', rest, m);
      forall x | x in rest ensures Entry(q, m, x) == Entry(q', m, x) {
        assert x != k;
      }
      EntriesSumPointwise(rest, q, q', m);
      CatalogSumChange(items, q, q', m, k);
    }
  }

  /** Changing the map at `id` alone changes a catalog sum by the change of that one entry. */
  lemma {:induction false} CatalogSumChange(items: seq<MenuItem>, q: map<int, int>, q': map<int, int>, m: Measure, id: int)
    requires UniqueIds(items)
    requires forall x :: x != id ==> Entry(q, m, x) == Entry(q', m, x)
    ensures CatalogSum(items, q', m) ==
              CatalogSum(items, q, m) + (if HasId(items, id) then Entry(q', m, id) - Entry(q, m, id) else 0)
  {
    if items != [] {
      var rest := items[1..];
      assert forall i :: 0 <= i < |rest| ==> rest[i] == items[i + 1];
      assert UniqueIds(rest);
      CatalogSumChange(rest, q, q', m, id);
      if items[0].id == id {
        assert !HasId(rest, id);
      } else {
        if HasId(items, id) {
          var i :| 0 <= i < |items| && items[i].id == id;
          assert rest[i - 1].id == id;
        }
        if HasId(rest, id) {
          var i :| 0 <= i < |rest| && rest[i].id == id;
          assert items[i + 1].id == id;
        }
      }
    }
  }

  /** A catalog sum of entries that are never negative is at least each of them. */
  lemma {:induction false} CatalogSumBounds(items: seq<MenuItem>, q: map<int, int>, m: Measure)
    requires forall i :: 0 <= i < |items| ==> Entry(q, m, items[i].id) >= 0
    ensures CatalogSum(items, q, m) >= 0
    ensures forall i :: 0 <= i < |items| ==> CatalogSum(items, q, m) >= Entry(q, m, items[i].id)
  {
    if items != [] {
      var rest := items[1..];
      assert forall i :: 0 <= i < |rest| ==> rest[i] == items[i + 1];
      CatalogSumBounds(rest, q, m);
    }
  }

  /** A catalog sum is additive in the entries. */
  lemma {:induction false} CatalogSumAdditive(items: seq<MenuItem>, q: map<int, int>, m1: Measure, m2: Measure, m: Measure)
    requires forall i :: 0 <= i < |items| ==> Entry(q, m, items[i].id) == Entry(q, m1, items[i].id) + Entry(q, m2, items[i].id)
    ensures CatalogSum(items, q, m) == CatalogSum(items, q, m1) + CatalogSum(items, q, m2)
  {
    if items != [] {
      var rest := items[1..];
      assert forall i :: 0 <= i < |rest| ==> rest[i] == items[i + 1];
      CatalogSumAdditive(rest, q, m1, m2, m);
    }
  }

  /** `foodCount` and `drinkCount`: the quantities of the entries naming an item of that type. */
  function TypeCount(q: map<int, int>, t: ItemType): int
  {
    CatalogSum(Catalog(), q, TypeQuantity(t))
  }

  /** `totalItems`: the sum of the positive quantities. */
  function TotalItems(q: map<int, int>): int
  {
    CatalogSum(Catalog(), q, CartQuantity)
  }

  /** `totalPrice`: the sum of price times quantity over the positive entries. */
  function TotalPrice(q: map<int, int>): int
  {
    CatalogSum(Catalog(), q, CartPrice)
  }

  /** The counts and totals computed over the catalog are the page's reductions over the map's
      entries, whatever order the entries come in, as long as every key is a catalog id. */
  lemma ReductionsOverEntries(q: map<int, int>, keys: seq<int>)
    requires forall x :: x in q ==> Lookup(x).Some?
    requires EntryOrder(keys, q)
    ensures TypeCount(q, Food) == EntriesSum(keys, q, TypeQuantity(Food))
    ensures TypeCount(q, Drink) == EntriesSum(keys, q, TypeQuantity(Drink))
    ensures TotalItems(q) == EntriesSum(keys, q, CartQuantity)
    ensures TotalPrice(q) == EntriesSum(keys, q, CartPrice)
  {
    CatalogIds();
    forall x | x in q ensures HasId(Catalog(), x) {
      LookupHasId(x);
    }
    EntriesMatchCatalog(Catalog(), q, keys, TypeQuantity(Food));
    EntriesMatchCatalog(Catalog(), q, keys, TypeQuantity(Drink));
    EntriesMatchCatalog(Catalog(), q, keys, CartQuantity);
    EntriesMatchCatalog(Catalog(), q, keys, CartPrice);
  }

  // ---------------------------------------------------------------------------
  // updateQuantity
  // ---------------------------------------------------------------------------

  /** The reference time of the cart, `menuItems.find(item => quantities[item.id] > 0)?.timeOfDay`:
      the time of the first catalog item with a positive quantity. */
  function FirstPositiveTime(items: seq<MenuItem>, q: map<int, int>): (r: Option<TimeOfDay>)
    ensures r.None? <==> forall i :: 0 <= i < |items| ==> Quantity(q, items[i].id) <= 0
    ensures r.Some? ==> exists i :: 0 <= i < |items| && Quantity(q, items[i].id) > 0 &&
                          items[i].timeOfDay == r.value &&
                          forall j :: 0 <= j < i ==> Quantity(q, items[j].id) <= 0
  {
    if items == [] then None
    else if Quantity(q, items[0].id) > 0 then Some(items[0].timeOfDay)
    else
      var r := FirstPositiveTime(items[1..], q);
      assert forall i :: 1 <= i < |items| ==> items[i] == items[1..][i - 1];
      r
  }

  /** `null` for an empty map, else the reference time. */
  function CartTime(q: map<int, int>): Option<TimeOfDay>
  {
    if |q| > 0 then FirstPositiveTime(Catalog(), q) else None
  }

  /** The mixing guard: a reference time exists and the item's time is neither `All` nor it. */
  predicate Mixes(cartTime: Option<TimeOfDay>, itemTime: TimeOfDay)
  {
    cartTime.Some? && itemTime != All && itemTime != cartTime.value
  }

  /** `Math.max(0, Math.min(x, 10))`. */
  function Clamp(x: int): (r: int)
    ensures 0 <= r <= 10
    ensures 0 <= x <= 10 ==> r == x
    ensures x < 0 ==> r == 0
    ensures x > 10 ==> r == 10
  {
    if x < 0 then 0 else if x > 10 then 10 else x
  }

  /** Storing a quantity: 0 deletes the key, anything else overwrites it. */
  function SetQuantity(q: map<int, int>, id: int, v: int): (r: map<int, int>)
    ensures Quantity(r, id) == v
    ensures forall x :: x != id ==> Quantity(r, x) == Quantity(q, x) && (x in r <==> x in q)
    ensures id in r <==> v != 0
  {
    if v == 0 then q - {id} else q[id := v]
  }

  /** Why an update is refused (the message itself is left out). */
  datatype Rejection = MixedMenus(cartTime: TimeOfDay, itemTime: TimeOfDay) | TypeLimit(itemType: ItemType)

  /** What a call of `updateQuantity` does: nothing for an unknown id, an error, or a new map. */
  datatype Outcome = Ignored | Rejected(reason: Rejection) | Accepted(quantities: map<int, int>)

  /** `updateQuantity(id, delta)` on the map `q`: the guards in the source's order, then the
      clamped store. */
  function Update(q: map<int, int>, id: int, delta: int): (r: Outcome)
    ensures r == Ignored <==> !HasId(Catalog(), id)
    ensures Lookup(id).Some? ==>
              ((r.Rejected? && r.reason.MixedMenus?) <==> Mixes(CartTime(q), Lookup(id).value.timeOfDay))
    ensures Lookup(id).Some? ==>
              ((r.Rejected? && r.reason.TypeLimit?) <==>
                 !Mixes(CartTime(q), Lookup(id).value.timeOfDay) && TypeCount(q, Lookup(id).value.itemType) + delta > 2)
    ensures r.Accepted? ==> Quantity(r.quantities, id) == Clamp(Quantity(q, id) + delta)
    ensures r.Accepted? ==> (id in r.quantities <==> Clamp(Quantity(q, id) + delta) != 0)
    ensures r.Accepted? ==> forall x :: x != id ==> Quantity(r.quantities, x) == Quantity(q, x) && (x in r.quantities <==> x in q)
  {
    LookupHasId(id);
    match Lookup(id)
    case None => Ignored
    case Some(item) =>
      var cartTime := CartTime(q);
      if cartTime.Some? && item.timeOfDay != All && item.timeOfDay != cartTime.value then
        Rejected(MixedMenus(cartTime.value, item.timeOfDay))
      else if (item.itemType == Food && TypeCount(q, Food) + delta > 2) ||
              (item.itemType == Drink && TypeCount(q, Drink) + delta > 2) then
        Rejected(TypeLimit(item.itemType))
      else
        Accepted(SetQuantity(q, id, Clamp(Quantity(q, id) + delta)))
  }

  /** Some item of time `t` has a positive quantity. */
  ghost predicate Serves(q: map<int, int>, t: TimeOfDay)
  {
    exists i :: 0 <= i < |Catalog()| && Quantity(q, Catalog()[i].id) > 0 && Catalog()[i].timeOfDay == t
  }

  /** What the page keeps true of its map: positive values under catalog ids, at most two
      dishes and two drinks, and never a morning item beside a night item. */
  ghost predicate ValidCart(q: map<int, int>)
  {
    && (forall x :: x in q ==> q[x] > 0 && Lookup(x).Some?)
    && TypeCount(q, Food) <= 2 && TypeCount(q, Drink) <= 2
    && !(Serves(q, Morning) && Serves(q, Night))
  }

  /** The store an accepted update makes. */
  function Stored(q: map<int, int>, id: int, delta: int): map<int, int>
  {
    SetQuantity(q, id, Clamp(Quantity(q, id) + delta))
  }

  /** Storing at `id` changes a type count by the change of that entry alone. */
  lemma TypeCountAfterStore(q: map<int, int>, id: int, v: int, t: ItemType)
    requires Lookup(id).Some?
    ensures TypeCount(SetQuantity(q, id, v), t) ==
              TypeCount(q, t) + (if Lookup(id).value.itemType == t then v - Quantity(q, id) else 0)
  {
    CatalogIds();
    LookupHasId(id);
    var q' := SetQuantity(q, id, v);
    forall x | x != id ensures Entry(q, TypeQuantity(t), x) == Entry(q', TypeQuantity(t), x) {
      assert Quantity(q', x) == Quantity(q, x) && (x in q' <==> x in q);
    }
    CatalogSumChange(Catalog(), q, q', TypeQuantity(t), id);
  }

  /** A store that passed the cap guard keeps each type count within 2. */
  lemma StoreKeepsCaps(q: map<int, int>, id: int, delta: int, t: ItemType)
    requires ValidCart(q) && Lookup(id).Some?
    requires TypeCount(q, Lookup(id).value.itemType) + delta <= 2
    ensures TypeCount(Stored(q, id, delta), t) <= 2
  {
    TypeCountAfterStore(q, id, Clamp(Quantity(q, id) + delta), t);
    assert Quantity(q, id) >= 0;
  }

  /** A cart with a positive entry has a reference time, and serves it. */
  lemma CartTimeServed(q: map<int, int>, t: TimeOfDay)
    requires Serves(q, t)
    ensures CartTime(q).Some? && Serves(q, CartTime(q).value)
  {
    var i :| 0 <= i < |Catalog()| && Quantity(q, Catalog()[i].id) > 0 && Catalog()[i].timeOfDay == t;
    assert Catalog()[i].id in q;
  }

  /** A store that passed the mixing guard never puts a morning item beside a night item: the
      item is `All`, or it has the reference time, which is the only menu time already in the
      cart. */
  lemma StoreKeepsMenusApart(q: map<int, int>, id: int, delta: int)
    requires ValidCart(q) && Lookup(id).Some?
    requires !Mixes(CartTime(q), Lookup(id).value.timeOfDay)
    ensures !(Serves(Stored(q, id, delta), Morning) && Serves(Stored(q, id, delta), Night))
  {
    CatalogIds();
    var item := Lookup(id).value;
    var q' := Stored(q, id, delta);
    forall t | t != item.timeOfDay && Serves(q', t) ensures Serves(q, t) {
      var i :| 0 <= i < |Catalog()| && Quantity(q', Catalog()[i].id) > 0 && Catalog()[i].timeOfDay == t;
      assert Catalog()[i].id != id;
    }
    if item.timeOfDay != All {
      var other := if item.timeOfDay == Morning then Night else Morning;
      if Serves(q, other) {
        CartTimeServed(q, other);
        assert false;
      }
    }
  }

  /** Every accepted update keeps the cart valid. */
  lemma UpdatePreservesValidCart(q: map<int, int>, id: int, delta: int)
    requires ValidCart(q) && Update(q, id, delta).Accepted?
    ensures Update(q, id, delta).quantities == Stored(q, id, delta)
    ensures ValidCart(Update(q, id, delta).quantities)
  {
    var q' := Stored(q, id, delta);
    forall x | x in q' ensures q'[x] > 0 && Lookup(x).Some? {
      if x != id {
        assert x in q && Quantity(q', x) == Quantity(q, x);
      }
    }
    StoreKeepsCaps(q, id, delta, Food);
    StoreKeepsCaps(q, id, delta, Drink);
    StoreKeepsMenusApart(q, id, delta);
  }

  /** The first positive entry of a list fixes its reference time. */
  lemma FirstPositiveAt(items: seq<MenuItem>, q: map<int, int>, k: int)
    requires 0 <= k < |items| && Quantity(q, items[k].id) > 0
    requires forall j :: 0 <= j < k ==> Quantity(q, items[j].id) <= 0
    ensures FirstPositiveTime(items, q) == Some(items[k].timeOfDay)
  {
    var r := FirstPositiveTime(items, q);
    var i :| 0 <= i < |items| && Quantity(q, items[i].id) > 0 && items[i].timeOfDay == r.value &&
             forall j :: 0 <= j < i ==> Quantity(q, items[j].id) <= 0;
    assert i <= k;
  }

  /** The reference time is the time of the first catalog entry with a positive quantity. */
  lemma FirstPositiveIs(q: map<int, int>, k: int)
    requires 0 <= k < |Catalog()| && Quantity(q, Catalog()[k].id) > 0
    requires forall j :: 0 <= j < k ==> Quantity(q, Catalog()[j].id) <= 0
    ensures CartTime(q) == Some(Catalog()[k].timeOfDay)
  {
    assert Catalog()[k].id in q;
    FirstPositiveAt(Catalog(), q, k);
  }

  /** A cart with one positive entry has that entry's time as its reference. */
  lemma CartTimeOfOne(id: int, v: int)
    requires Lookup(id).Some? && v > 0
    ensures CartTime(map[id := v]) == Some(Lookup(id).value.timeOfDay)
  {
    CatalogIds();
    FirstPositiveIs(map[id := v], id - 1);
  }

  /** Over the catalog, a one-entry map sums to that entry alone. */
  lemma CatalogSumOfOne(id: int, v: int, m: Measure)
    requires Lookup(id).Some?
    ensures CatalogSum(Catalog(), map[id := v], m) == Entry(map[id := v], m, id)
  {
    var q' := map[id := v];
    CatalogIds();
    LookupHasId(id);
    forall x | x != id ensures Entry(map[], m, x) == Entry(q', m, x) {
      assert x !in q';
    }
    CatalogSumChange(Catalog(), map[], q', m, id);
    CatalogSumZero(Catalog(), map[], m);
  }

  /** The counts of a one-entry cart. */
  lemma TypeCountOfOne(id: int, v: int, t: ItemType)
    requires Lookup(id).Some?
    ensures TypeCount(map[id := v], t) == if Lookup(id).value.itemType == t then v else 0
  {
    CatalogSumOfOne(id, v, TypeQuantity(t));
  }

  /** The first add to the empty cart is accepted and stores exactly the delta, up to the cap of
      two per type. */
  lemma FirstAddAccepted(id: int, delta: int)
    requires Lookup(id).Some? && 0 < delta <= 2
    ensures Update(map[], id, delta) == Accepted(map[id := delta])
  {
    assert CartTime(map[]) == None;
    assert TypeCount(map[], Food) == 0 && TypeCount(map[], Drink) == 0 by {
      CatalogSumZero(Catalog(), map[], TypeQuantity(Food));
      CatalogSumZero(Catalog(), map[], TypeQuantity(Drink));
    }
    assert SetQuantity(map[], id, Clamp(Quantity(map[], id) + delta)) == map[id := delta] by {
      assert map[][id := delta] == map[id := delta];
    }
  }

  /** The reference time can be `All`: with only an all-day item in the cart (a Coca-Cola, say),
      every dish is refused, morning or night, although the cart holds no menu time at all. */
  lemma AllDayCartRefusesDishes(allDay: int, v: int, dish: int, delta: int)
    requires Lookup(allDay).Some? && Lookup(allDay).value.timeOfDay == All && v > 0
    requires Lookup(dish).Some? && Lookup(dish).value.timeOfDay != All
    ensures Update(map[allDay := v], dish, delta) == Rejected(MixedMenus(All, Lookup(dish).value.timeOfDay))
  {
    CartTimeOfOne(allDay, v);
  }

  /** The guard also applies to a decrement: with a night item and an all-day item listed before
      it (a Craft Beer and a Coca-Cola, say), the reference is the all-day item's `All`, and
      taking the night item back out is refused. */
  lemma DecrementCanBeRefused(allDay: int, night: int, v: int, w: int)
    requires Lookup(allDay).Some? && Lookup(allDay).value.timeOfDay == All
    requires Lookup(night).Some? && Lookup(night).value.timeOfDay == Night
    requires allDay < night && v > 0 && w > 0
    ensures Update(map[night := v, allDay := w], night, -1) == Rejected(MixedMenus(All, Night))
  {
    CatalogIds();
    FirstPositiveIs(map[night := v, allDay := w], allDay - 1);
  }

  /** A catalog sum over an empty map is 0. */
  lemma {:induction false} CatalogSumZero(items: seq<MenuItem>, q: map<int, int>, m: Measure)
    requires q == map[]
    ensures CatalogSum(items, q, m) == 0
  {
    if items != [] {
      CatalogSumZero(items[1..], q, m);
    }
  }

  // ---------------------------------------------------------------------------
  // Totals
  // ---------------------------------------------------------------------------

  /** The cleared cart has no items and costs nothing. */
  lemma EmptyCartTotals()
    ensures TotalItems(map[]) == 0 && TotalPrice(map[]) == 0
    ensures TypeCount(map[], Food) == 0 && TypeCount(map[], Drink) == 0
  {
    CatalogSumZero(Catalog(), map[], CartQuantity);
    CatalogSumZero(Catalog(), map[], CartPrice);
    CatalogSumZero(Catalog(), map[], TypeQuantity(Food));
    CatalogSumZero(Catalog(), map[], TypeQuantity(Drink));
  }

  /** The empty map is a valid cart. */
  lemma EmptyCartValid()
    ensures ValidCart(map[])
  {
    EmptyCartTotals();
  }

  /** In a valid cart the item total is the dish count plus the drink count, so at most 4, and
      it is positive exactly when the map has an entry. */
  lemma TotalItemsOfValidCart(q: map<int, int>)
    requires ValidCart(q)
    ensures TotalItems(q) == TypeCount(q, Food) + TypeCount(q, Drink)
    ensures TotalItems(q) <= 4
    ensures TotalItems(q) > 0 <==> exists id :: id in q
  {
    CatalogIds();
    CatalogSumAdditive(Catalog(), q, TypeQuantity(Food), TypeQuantity(Drink), CartQuantity);
    CatalogSumBounds(Catalog(), q, CartQuantity);
    forall x | x in q ensures TotalItems(q) > 0 {
      assert Entry(q, CartQuantity, Catalog()[x - 1].id) > 0;
    }
    if !exists id :: id in q {
      CatalogSumPointwise(Catalog(), q, map[], CartQuantity);
      CatalogSumZero(Catalog(), map[], CartQuantity);
    }
  }

  /** No price or quantity in a valid cart is negative, so neither is the price total. */
  lemma TotalPriceNonNegative(q: map<int, int>)
    requires ValidCart(q)
    ensures TotalPrice(q) >= 0
  {
    CatalogIds();
    forall i | 0 <= i < |Catalog()| ensures Entry(q, CartPrice, Catalog()[i].id) >= 0 {
      if Catalog()[i].id in q && q[Catalog()[i].id] > 0 {
        assert Catalog()[i].price * q[Catalog()[i].id] >= 0;
      }
    }
    CatalogSumBounds(Catalog(), q, CartPrice);
  }

  // ---------------------------------------------------------------------------
  // Ingredient states
  // ---------------------------------------------------------------------------

  /** The page's own vocabulary, `'regular' | 'remove' | 'extra'`. */
  datatype IngredientState = Regular | Remove | Extra

  /** The key `${itemId}-${ingredient}`. */
  function IngredientKey(itemId: int, ingredient: string): string
  {
    IntToString(itemId) + "-" + ingredient
  }

  /** Keys of items with non-negative ids name one (item, ingredient) pair each: the digits in
      front of the first dash are the id, and the rest is the ingredient, dashes and all. */
  lemma IngredientKeyInjective(a: nat, x: string, b: nat, y: string)
    requires IngredientKey(a, x) == IngredientKey(b, y)
    ensures a == b && x == y
  {
    var key := IngredientKey(a, x);
    assert key == NatToString(a) + ("-" + x);
    assert key == NatToString(b) + ("-" + y);
    LeadingDigitsOfDigitsThen(NatToString(a), "-" + x);
    LeadingDigitsOfDigitsThen(NatToString(b), "-" + y);
    NatToStringInjective(a, b);
    var n := |NatToString(a)| + 1;
    assert key[n..] == x;
    assert key[n..] == y;
  }

  /** `getIngredientState`: the stored state, `Regular` when the key is missing. */
  function GetIngredientState(states: map<string, IngredientState>, itemId: int, ingredient: string): IngredientState
  {
    var key := IngredientKey(itemId, ingredient);
    if key in states then states[key] else IngredientState.Regular
  }

  /** The cycle `regular -> remove -> extra -> regular`. */
  function NextState(s: IngredientState): (n: IngredientState)
    ensures n != s
  {
    match s
    case Regular => Remove
    case Remove => IngredientState.Extra
    case Extra => IngredientState.Regular
  }

  /** `cycleIngredientState`'s update of the state map. */
  function CycleState(states: map<string, IngredientState>, itemId: int, ingredient: string): map<string, IngredientState>
  {
    states[IngredientKey(itemId, ingredient) := NextState(GetIngredientState(states, itemId, ingredient))]
  }

  /** A cycle moves the pair's reading one step, changes no other pair's reading, and three
      cycles bring the reading back. */
  lemma CycleFacts(states: map<string, IngredientState>, itemId: nat, ingredient: string, otherId: nat, other: string)
    ensures GetIngredientState(map[], itemId, ingredient) == IngredientState.Regular
    ensures GetIngredientState(CycleState(states, itemId, ingredient), itemId, ingredient) ==
              NextState(GetIngredientState(states, itemId, ingredient))
    ensures (otherId, other) != (itemId, ingredient) ==>
              GetIngredientState(CycleState(states, itemId, ingredient), otherId, other) ==
              GetIngredientState(states, otherId, other)
    ensures GetIngredientState(CycleState(CycleState(CycleState(states, itemId, ingredient), itemId, ingredient), itemId, ingredient), itemId, ingredient) ==
              GetIngredientState(states, itemId, ingredient)
  {
    if (otherId, other) != (itemId, ingredient) && IngredientKey(otherId, other) == IngredientKey(itemId, ingredient) {
      IngredientKeyInjective(otherId, other, itemId, ingredient);
    }
  }

  // ---------------------------------------------------------------------------
  // Menu filter and swipe
  // ---------------------------------------------------------------------------

  /** The page's menu is morning or night; `All` marks only items. */
  type MenuTime = t: TimeOfDay | t != All witness Morning

  /** The filter's condition, grouped as JavaScript's precedence groups it: `&&` binds tighter
      than `||`, so `item.timeOfDay === 'night'` stands on its own. */
  predicate Listed(item: MenuItem, showDrinks: bool, timeOfDay: MenuTime)
    ensures item.timeOfDay == Night ==> Listed(item, showDrinks, timeOfDay)
    ensures item.timeOfDay == All ==> (Listed(item, showDrinks, timeOfDay) <==> showDrinks)
    ensures item.timeOfDay == Morning ==> (Listed(item, showDrinks, timeOfDay) <==> !showDrinks && timeOfDay == Morning)
  {
    ((showDrinks && item.timeOfDay == All) || item.timeOfDay == Night) ||
    (!showDrinks && item.timeOfDay == timeOfDay)
  }

  /** `items.filter(...)`: the listed items, in order. */
  function FilterItems(items: seq<MenuItem>, showDrinks: bool, timeOfDay: MenuTime): (r: seq<MenuItem>)
    ensures forall x :: x in r <==> x in items && Listed(x, showDrinks, timeOfDay)
    ensures |r| <= |items|
    ensures IsSubsequence(r, items)
  {
    if items == [] then []
    else if Listed(items[0], showDrinks, timeOfDay) then [items[0]] + FilterItems(items[1..], showDrinks, timeOfDay)
    else FilterItems(items[1..], showDrinks, timeOfDay)
  }

  function FilteredItems(showDrinks: bool, timeOfDay: MenuTime): seq<MenuItem>
  {
    FilterItems(Catalog(), showDrinks, timeOfDay)
  }

  /** Every night item is listed, an all-day item exactly when drinks are shown, and a
      morning item exactly on the morning food menu. */
  lemma MenuFilter(showDrinks: bool, timeOfDay: MenuTime, k: int)
    requires 0 <= k < |Catalog()|
    ensures Catalog()[k].timeOfDay == Night ==> Catalog()[k] in FilteredItems(showDrinks, timeOfDay)
    ensures Catalog()[k].timeOfDay == All ==> (Catalog()[k] in FilteredItems(showDrinks, timeOfDay) <==> showDrinks)
    ensures Catalog()[k].timeOfDay == Morning ==>
              (Catalog()[k] in FilteredItems(showDrinks, timeOfDay) <==> !showDrinks && timeOfDay == Morning)
  {
  }

  /** `handleSwipe`: a positive direction turns morning into night, a negative one night into
      morning; anything else keeps the time. */
  function Swiped(direction: int, timeOfDay: MenuTime): (r: MenuTime)
    ensures r != timeOfDay <==> (direction > 0 && timeOfDay == Morning) || (direction < 0 && timeOfDay == Night)
  {
    if direction > 0 && timeOfDay == Morning then Night
    else if direction < 0 && timeOfDay == Night then Morning
    else timeOfDay
  }

  /** `handleDragEnd`: only a drag of more than 100 pixels either way swipes. */
  function DragEnd(offsetX: int, timeOfDay: MenuTime): (r: MenuTime)
    ensures r != timeOfDay <==> (offsetX > 100 && timeOfDay == Morning) || (offsetX < -100 && timeOfDay == Night)
  {
    if (if offsetX < 0 then -offsetX else offsetX) > 100 then Swiped(offsetX, timeOfDay) else timeOfDay
  }

  /** Swiping forward and then back restores the time whenever the first swipe changed it. */
  lemma SwipeBack(offsetX: int, timeOfDay: MenuTime)
    requires DragEnd(offsetX, timeOfDay) != timeOfDay
    ensures DragEnd(-offsetX, DragEnd(offsetX, timeOfDay)) == timeOfDay
  {
  }

  /** The map and the error after an outcome: an ignored update keeps both, a refused one keeps
      the map and records the reason, an accepted one stores the new map. */
  function Applied(outcome: Outcome, q: map<int, int>, error: Option<Rejection>): (map<int, int>, Option<Rejection>)
  {
    match outcome
    case Ignored => (q, error)
    case Rejected(reason) => (q, Some(reason))
    case Accepted(q') => (q', error)
  }

  /** The method form of `Update`, which `MenuState.UpdateQuantity` calls: the body of
      `updateQuantity` on the map `q`, step by step: the catalog lookup, the
      reference time, the mixing guard, the two counts, the cap guard, then the store that the
      state updater makes (a quantity of 0 deletes the key). */
  method CheckUpdate(q: map<int, int>, id: int, delta: int) returns (outcome: Outcome)
    ensures outcome == Update(q, id, delta)
  {
    var found := Lookup(id);
    if found.None? {
      return Ignored;
    }
    var item := found.value;

    var currentCartTimeOfDay := if |q| > 0 then FirstPositiveTime(Catalog(), q) else None;
    if currentCartTimeOfDay.Some? && item.timeOfDay != All && item.timeOfDay != currentCartTimeOfDay.value {
      return Rejected(MixedMenus(currentCartTimeOfDay.value, item.timeOfDay));
    }

    var foodCount := TypeCount(q, Food);
    var drinkCount := TypeCount(q, Drink);
    if (item.itemType == Food && foodCount + delta > 2) || (item.itemType == Drink && drinkCount + delta > 2) {
      return Rejected(TypeLimit(item.itemType));
    }

    var newQuantity := Clamp(Quantity(q, id) + delta);
    if newQuantity == 0 {
      outcome := Accepted(q - {id});
    } else {
      outcome := Accepted(q[id := newQuantity]);
    }
  }

  // ---------------------------------------------------------------------------
  // The page's state
  // ---------------------------------------------------------------------------

  /** The state the page's handlers update. */
  class MenuState {
    var timeOfDay: MenuTime
    var showDrinks: bool
    var quantities: map<int, int>
    var ingredientStates: map<string, IngredientState>
    var showCheckout: bool
    var errorMessage: Option<Rejection>

    ghost predicate Valid()
      reads this`quantities
    {
      ValidCart(quantities)
    }

    constructor ()
      ensures Valid()
      ensures timeOfDay == Morning && !showDrinks && quantities == map[] && ingredientStates == map[]
      ensures !showCheckout && errorMessage == None
    {
      timeOfDay := Morning;
      showDrinks := false;
      quantities := map[];
      ingredientStates := map[];
      showCheckout := false;
      errorMessage := None;
      EmptyCartValid();
    }

    /** `updateQuantity`: unknown ids change nothing; a refused update records the reason and
        keeps the map; an accepted one stores the clamped quantity. */
    method UpdateQuantity(id: int, delta: int)
      requires Valid()
      modifies this
      ensures Valid()
      ensures timeOfDay == old(timeOfDay) && showDrinks == old(showDrinks)
      ensures ingredientStates == old(ingredientStates) && showCheckout == old(showCheckout)
      ensures (quantities, errorMessage) == Applied(Update(old(quantities), id, delta), old(quantities), old(errorMessage))
    {
      var q := quantities;
      var outcome := CheckUpdate(q, id, delta);
      match outcome
      case Ignored =>
      case Rejected(reason) =>
        errorMessage := Some(reason);
      case Accepted(newQuantities) =>
        assert ValidCart(newQuantities) by {
          UpdatePreservesValidCart(q, id, delta);
        }
        quantities := newQuantities;
    }

    /** `cycleIngredientState`: the pair's key moves one step along the cycle. */
    method CycleIngredientState(itemId: int, ingredient: string)
      modifies this`ingredientStates
      ensures ingredientStates == CycleState(old(ingredientStates), itemId, ingredient)
    {
      var key := IngredientKey(itemId, ingredient);
      var currentState := if key in ingredientStates then ingredientStates[key] else IngredientState.Regular;
      var nextState :=
        if currentState == IngredientState.Regular then Remove
        else if currentState == Remove then IngredientState.Extra
        else IngredientState.Regular;
      ingredientStates := ingredientStates[key := nextState];
    }

    /** `handleCheckout`: checkout opens only with at least one item in the cart. */
    method HandleCheckout()
      requires Valid()
      modifies this`showCheckout
      ensures showCheckout == (old(showCheckout) || exists id :: id in quantities)
    {
      if TotalItems(quantities) > 0 {
        showCheckout := true;
      }
      TotalItemsOfValidCart(quantities);
    }

    /** `clearCart`: the map is emptied and checkout closes. */
    method ClearCart()
      modifies this`quantities, this`showCheckout
      ensures Valid() && quantities == map[] && !showCheckout
      ensures TotalItems(quantities) == 0 && TotalPrice(quantities) == 0
    {
      quantities := map[];
      showCheckout := false;
      EmptyCartValid();
      EmptyCartTotals();
    }

    /** The back arrow of the checkout view. */
    method CloseCheckout()
      modifies this`showCheckout
      ensures !showCheckout
    {
      showCheckout := false;
    }

    /** The drinks switch. */
    method SetShowDrinks(checked: bool)
      modifies this`showDrinks
      ensures showDrinks == checked
    {
      showDrinks := checked;
    }

    /** The sun/moon button flips the menu time. */
    method ToggleTimeOfDay()
      modifies this`timeOfDay
      ensures timeOfDay != old(timeOfDay)
    {
      timeOfDay := if timeOfDay == Morning then Night else Morning;
    }

    method HandleSwipe(direction: int)
      modifies this`timeOfDay
      ensures timeOfDay == Swiped(direction, old(timeOfDay))
    {
      if direction > 0 && timeOfDay == Morning {
        timeOfDay := Night;
      } else if direction < 0 && timeOfDay == Night {
        timeOfDay := Morning;
      }
    }

    method HandleDragEnd(offsetX: int)
      modifies this`timeOfDay
      ensures timeOfDay == DragEnd(offsetX, old(timeOfDay))
    {
      if (if offsetX < 0 then -offsetX else offsetX) > 100 {
        HandleSwipe(offsetX);
      }
    }
  }
}
