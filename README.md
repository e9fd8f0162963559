# nashdash ordering rules in Dafny

This project models the rules of the nashdash restaurant-ordering UI: the cart, menu, pickup-time
and theme logic that the React components run. It proves what those rules promise. Prices are
integer cents, dates are day numbers counted from 1970-01-01, and the picked time is a
(day, hour, minute) triple.

- `MenuPage` (`page.dfy`) is the menu page.
  - It carries the page's own 16-item catalog.
  - The class `MenuState` holds the page's state: the quantity map, the ingredient states, the
    menu time, the drinks switch, the checkout flag and the last error. Its handlers are
    methods.
  - `updateQuantity` is specified by the function `Update`. The method `CheckUpdate` runs the
    same steps in the source's order. `UpdateQuantity` keeps the invariant `ValidCart`: every
    value positive and under a catalog id, at most two dishes and two drinks, and never a
    morning item beside a night item.
  - The page reduces over `Object.entries(quantities)`. The model sums over the catalog
    instead, and `ReductionsOverEntries` proves the two equal for every order of the entries.
  - Two behaviours are kept as the code has them and proved as lemmas:
    - an all-day item can be the cart's reference time, and then every dish is refused, even
      when the change is a decrement;
    - the filter's `&&`/`||` grouping lists night items whatever the switches say.
- `TimePicker` (`time_picker.dfy`) models the pickup-time picker.
  - The business-day loop and the nested 15-minute slot loops are methods with loop
    invariants.
  - The "h:mm AM/PM" parser is a function, proved to invert the label of every clock time.
- `IngredientSelector`, `MenuItemCard`, `CartSheet`, `CartButton` and `CartCard` model the
  component logic: modification cycling, the add-to-cart filter, the three cart-total reductions
  and which callback each control reaches.
- `MenuData` is the shared 12-item catalog and its structural facts.
- `ThemeHooks` and `ThemeIndex` are the theme resolution, the light/dark toggle, the night-hour
  test and `getThemeClass`.
- `MenuTypes` holds the shared record shapes.
- `Util` holds `reduce` as a left fold and the JavaScript string operations the components use:
  `String(n)`, `padStart`, `split` and `parseInt`.

## Model

| member | source | states |
|---|---|---|
| `MenuTypes.FindById` | app/page.tsx:74 | `find` by id: `None` exactly when no entry has the id; otherwise the first entry with that id |
| `MenuTypes.FindByIdAt` | app/components/cart-sheet.tsx:42 | in a catalog with unique ids, finding an entry's id returns that entry |
| `MenuData.CatalogIds` | app/lib/menu-data.ts:3-111 | the shared catalog has 12 entries with ids 1..12 in order, so the ids are unique |
| `MenuData.MenuItems` | app/lib/menu-data.ts:3-111 | the twelve catalog entries with their ids, names, prices in cents, times, ingredients and types; the lemmas below state its structure |
| `MenuData.DrinksAreAllDay` | app/lib/menu-data.ts:71-110 | every drink is `all`-day and has no ingredient list |
| `MenuData.FoodShape` | app/lib/menu-data.ts:4-69 | every food item has exactly five ingredients; food is ids 1-7, morning ids 1-4, night ids 5-7 |
| `MenuData.PricesPositive` | app/lib/menu-data.ts:8-107 | every price is positive |
| `MenuData.FindInCatalog` | app/lib/menu-data.ts:3-111 | looking up id 1..12 finds entry `id - 1`; any other id finds nothing |
| `CartCard.RowAmount` | app/features/cart/components/cart.tsx:37 | a row's amount is its price for quantity 1, and not negative for non-negative price and quantity; `RowAmountStep` fixes it at `price * quantity` for every quantity |
| `CartCard.RowAmountStep` | app/features/cart/components/cart.tsx:37 | a row of quantity 0 shows 0, and each further unit adds the price, so the amount is `price * quantity` at every quantity |
| `CartCard.Total` | app/features/cart/components/cart.tsx:15 | the card total, the left fold of `price * quantity` over the rows; `TotalOfRows` and `TotalOrderIndependent` state its meaning |
| `CartCard.TotalOfRows` | app/features/cart/components/cart.tsx:15 | the empty card totals 0; appending a row adds exactly `price * quantity`, which is that row's shown amount |
| `CartCard.TotalOrderIndependent` | app/features/cart/components/cart.tsx:15 | two permutations of the same rows have the same total |
| `CartCard.Press` | app/features/cart/components/cart.tsx:38-49 | remove passes exactly the row's `item.id`; Clear Cart works iff the list is non-empty; an empty card has no controls |
| `CartButton.EmptyButton` | app/components/cart-button.tsx:13-14 | an empty list shows 0 items and price 0 |
| `CartButton.TotalItems` | app/components/cart-button.tsx:13 | the left fold of the quantities; `EmptyButton` and `AppendLine` fix it on every list |
| `CartButton.TotalPrice` | app/components/cart-button.tsx:14 | the left fold of `(price + extraPrice) * quantity`; `EmptyButton`, `AppendLine`, `PriceCoversBase` and `NoExtrasMeansPlainTotal` state its meaning |
| `CartButton.AppendLine` | app/components/cart-button.tsx:13-14 | appending a line adds its quantity to the count and `(price + extraPrice) * quantity` to the price |
| `CartButton.PriceCoversBase` | app/components/cart-button.tsx:14 | with no negative surcharge or quantity, the price is at least the sum of `price * quantity` |
| `CartButton.NoExtrasMeansPlainTotal` | app/components/cart-button.tsx:14 | with every surcharge 0 the price is the plain sum of `price * quantity` |
| `CartSheet.TotalOfEmptyAndAppend` | app/components/cart-sheet.tsx:39 | the empty sheet totals 0; appending a line adds `price * quantity`, which is that line's shown subtotal |
| `CartSheet.Total` | app/components/cart-sheet.tsx:39 | the sheet total, the left fold of `price * quantity` over the lines; its partner lemmas are the three rows that follow |
| `CartSheet.TotalIgnoresModifications` | app/components/cart-sheet.tsx:39 | lists that agree on prices and quantities have equal totals, whatever their modifications and surcharges |
| `CartSheet.TotalNonNegative` | app/components/cart-sheet.tsx:39 | non-negative prices and quantities give a non-negative total |
| `CartSheet.LineSubtotal` | app/components/cart-sheet.tsx:77 | a line's subtotal is 0 at quantity 0 and the price at quantity 1; `LineSubtotalStep` and `TotalOfEmptyAndAppend` fix it at every quantity and tie it to the total |
| `CartSheet.LineSubtotalStep` | app/components/cart-sheet.tsx:77 | the subtotal is 0 at quantity 0 and each further unit adds the price, so it is `price * quantity` at every quantity |
| `CartSheet.GetBaseItem` | app/components/cart-sheet.tsx:41-43 | the base item is a catalog entry with the line's `originalItemId`, required to exist as the `!` asserts |
| `CartSheet.SelectorShown` | app/components/cart-sheet.tsx:108-117 | the ingredient selector shows exactly when the base item is food, which is when it has ingredients |
| `CartSheet.Press` | app/components/cart-sheet.tsx:88-154 | minus and plus send the line with -1 and +1; a badge forwards the same line and ingredient with the next modification, only for an ingredient of the base item; Clear and Checkout work iff the cart is non-empty |
| `IngredientSelector.GetModification` | app/components/ingredient-selector.tsx:77-79 | the modification of the first entry with that name, or `regular` when none has it |
| `IngredientSelector.DefaultIsRegular` | app/components/ingredient-selector.tsx:72-79 | with the default empty list every ingredient reads `regular` |
| `IngredientSelector.NextModification` | app/components/ingredient-selector.tsx:83-86 | the next value always differs from the current one |
| `IngredientSelector.CycleHasPeriodThree` | app/components/ingredient-selector.tsx:83-86 | three steps are the identity, and two steps are not |
| `IngredientSelector.CycleModification` | app/components/ingredient-selector.tsx:81-89 | exactly one parent call, with the same ingredient and the next value, which differs from the current |
| `IngredientSelector.ClickBadge` | app/components/ingredient-selector.tsx:49 | a disabled badge makes no call; an enabled one makes the cycle's call |
| `IngredientSelector.GetVariant` | app/components/ingredient-selector.tsx:16-35 | `destructive` iff removed by day, `secondary` iff extra, `outline` for regular |
| `MenuItemCard.RegularEntries` | app/components/menu-item-card.tsx:28-32 | one `regular` entry per ingredient, in order, with its id, name and surcharge |
| `MenuItemCard.InitialModifications` | app/components/menu-item-card.tsx:27-34 | an item without ingredients gets an empty list; otherwise one entry per ingredient, all `regular` |
| `MenuItemCard.Mount` | app/components/menu-item-card.tsx:27-34 | the card as mounted, holding `InitialModifications` of its item; `AddPassesNoModifications` states what that means for every add |
| `MenuItemCard.ActiveModifications` | app/components/menu-item-card.tsx:37 | the filter keeps exactly the non-`regular` entries, as a subsequence of the list |
| `MenuItemCard.NoActiveWhenAllRegular` | app/components/menu-item-card.tsx:37 | a list of only `regular` entries filters to nothing |
| `MenuItemCard.HandleAddToCart` | app/components/menu-item-card.tsx:36-39 | the add passes the card's item and exactly its non-`regular` entries, in order |
| `MenuItemCard.AddPassesNoModifications` | app/components/menu-item-card.tsx:27-39 | since the list is never set after mounting, every add passes an empty list |
| `MenuItemCard.PressRemove` | app/components/menu-item-card.tsx:94-103 | the remove control exists iff the quantity is positive, and passes the card's item |
| `ThemeHooks.StoredTheme` | app/styles/theme/hooks.ts:10-14 | a stored value is adopted iff it is exactly `dark` or `light`, and is then that theme |
| `ThemeHooks.MountedTheme` | app/styles/theme/hooks.ts:8-20 | a valid stored theme wins; otherwise dark iff the system prefers dark or the theme already was dark |
| `ThemeHooks.Toggled` | app/styles/theme/hooks.ts:23 | the toggle always changes the theme |
| `ThemeHooks.ToggleTwice` | app/styles/theme/hooks.ts:23 | toggling twice is the identity |
| `ThemeHooks.ToggleIsReadBack` | app/styles/theme/hooks.ts:10-25 | what the toggle stores is what the next mount adopts, whatever the system prefers |
| `ThemeHooks.FreshMountFollowsSystem` | app/styles/theme/hooks.ts:6-19 | a fresh hook with nothing valid stored is dark iff the system prefers dark |
| `ThemeHooks.IsNightHour` | app/styles/theme/hooks.ts:39 | the hour test `hour >= 17 \|\| hour < 8`; `NightWindow` states it as a window of clock hours |
| `ThemeHooks.ThemeHook.constructor` | app/styles/theme/hooks.ts:6 | the hook starts `light` over the given storage |
| `ThemeHooks.ThemeHook.Mount` | app/styles/theme/hooks.ts:8-20 | the mount effect sets the theme to `MountedTheme` of the storage and the old theme |
| `ThemeHooks.ThemeHook.ToggleTheme` | app/styles/theme/hooks.ts:22-27 | the theme flips and the storage gains the new theme under `theme`, nothing else |
| `ThemeHooks.NightWindow` | app/styles/theme/hooks.ts:39 | on a clock hour, night mode is on iff the hour is 17-23 or 0-7, i.e. off exactly from 8 to 16 |
| `ThemeIndex.GetThemeClass` | app/styles/theme/index.ts:7-14 | the base class alone unless night mode is on and the night class is given and non-empty, then base, space, night class; the base is always a prefix and the length is one of the two |
| `TimePicker.DayOfWeek` | app/components/time-picker.tsx:32 | `getDay` of a day number lies in 0..6 |
| `TimePicker.BusinessDays` | app/components/time-picker.tsx:25-40 | exactly 5 days, all weekdays from today on, strictly increasing, no weekday skipped before the last |
| `TimePicker.BusinessDaysAreConsecutive` | app/components/time-picker.tsx:30-40 | consecutive days are one apart, or three apart from a Friday |
| `TimePicker.SlotIsQuarterSteps` | app/components/time-picker.tsx:69-72 | slot `k` lies `15 * k` minutes after the start of the schedule |
| `TimePicker.Label` | app/components/time-picker.tsx:73-76 | the slot label; `LabelMeridiem` and `ParseLabel` state its meridiem and that it reads back as its time |
| `TimePicker.LabelMeridiem` | app/components/time-picker.tsx:73-76 | every label ends with a space and `AM` exactly before noon, `PM` from noon on |
| `TimePicker.SlotCount` | app/components/time-picker.tsx:56-72 | the number of quarter-hour slots between the schedule bounds; `SlotCountValues` gives its value for each kind of day |
| `TimePicker.SlotCountValues` | app/components/time-picker.tsx:56-66 | 0 slots for a Friday night, 20 for a weekday morning, 15 for a Friday morning, 11 for a night; no slots exactly on a Friday night |
| `TimePicker.TimeSlots` | app/components/time-picker.tsx:53-78 | the slot count of the day, and label `k` is the label of slot `k`; no night slots on a Friday |
| `TimePicker.SlotBounds` | app/components/time-picker.tsx:58-72 | the first slot is at `scheduleStart:00` and the last at `scheduleEnd:scheduleEndMinutes` |
| `TimePicker.SlotsAscending` | app/components/time-picker.tsx:69-78 | the slots come in strictly increasing time order |
| `TimePicker.ParseMinute` | app/components/time-picker.tsx:75 | the two-digit minute is all digits and reads back as the minute |
| `TimePicker.SplitLabel` | app/components/time-picker.tsx:103-104 | a label splits at the space into time and meridiem, and the time at the colon into hour and minute |
| `TimePicker.ParseLabelParts` | app/components/time-picker.tsx:103-109 | the parse of such a label adds 12 to a PM hour other than 12 and turns 12 AM into 0 |
| `TimePicker.ParseTime` | app/components/time-picker.tsx:103-109 | `handleTimeSelect`'s reading of a label; `ParseTimeFails` states when it fails and `ParseLabel` that it inverts `Label` |
| `TimePicker.ParseTimeFails` | app/components/time-picker.tsx:103-114 | the NaN path: the parse fails exactly when the hour or minute piece has no leading digits or the minute is missing, so any string not starting with a digit or without a colon fails; a successful parse gives non-negative numbers |
| `TimePicker.ParseLabel` | app/components/time-picker.tsx:73-109 | parsing the label of any time from 0:00 to 23:59 gives that hour and minute back |
| `TimePicker.MeridiemRestoresHour` | app/components/time-picker.tsx:108-109 | the PM and 12 AM adjustment undoes the 12-hour display of a label, for every hour of the day |
| `TimePicker.SetTime` | app/components/time-picker.tsx:112-114 | on a clock hour and minute, `setHours` then `setMinutes` keep the day and set that time |
| `TimePicker.ChoosingSlotPicksIt` | app/components/time-picker.tsx:99-116 | choosing a generated slot picks exactly that slot on the selected day |
| `TimePicker.TimePickerState.constructor` | app/components/time-picker.tsx:20-22 | no days, no selected day, no times |
| `TimePicker.TimePickerState.LoadDays` | app/components/time-picker.tsx:25-47 | the offered days are a business-day list, and the first is selected only when none was |
| `TimePicker.TimePickerState.LoadTimes` | app/components/time-picker.tsx:50-81 | without a selected day nothing changes; otherwise the times are that day's slot list |
| `TimePicker.TimePickerState.HandleDaySelect` | app/components/time-picker.tsx:91-97 | the day is selected iff it is offered, else none is, and the parent's time is always reset to `''` |
| `TimePicker.TimePickerState.HandleTimeSelect` | app/components/time-picker.tsx:99-119 | nothing without a selected day; a label without numbers throws; otherwise the selected day at the parsed time |
| `Util.PadTwo` | app/components/time-picker.tsx:75 | `padStart(2, '0')`: a string of two or more is kept, a shorter one gets leading zeros up to length 2 |
| `Util.ParseInt` | app/components/time-picker.tsx:105 | `parseInt` as the labels need it: the value of the leading digits, `None` for NaN; `ParseIntOfNatToString` states that it reads back `String(n)` |
| `Util.Split` | app/components/time-picker.tsx:103-104 | `split` on one character, never empty; `SplitAt` and `SplitNone` state where it cuts |
| `Util.SplitNone` | app/components/time-picker.tsx:103-104 | a string without the separator splits into itself alone |
| `Util.ParseIntOfNatToString` | app/components/time-picker.tsx:105 | `parseInt` reads back a number written by `String`, whatever non-digit follows it |
| `Util.SplitAt` | app/components/time-picker.tsx:103-104 | `split` gives everything before the first separator as the first piece |
| `Util.SplitFirst` | app/components/time-picker.tsx:103-104 | the first piece of `split` is a prefix of the string and holds no separator |
| `MenuPage.CatalogIds` | app/page.tsx:24-41 | the page catalog has 16 entries with ids 1..16 in order, unique, every price positive |
| `MenuPage.Catalog` | app/page.tsx:24-41 | the page's sixteen entries, with their ids, names, prices in cents, times, ingredients and types; `CatalogIds` states its structure |
| `MenuPage.LookupHasId` | app/page.tsx:74-75 | an item is found iff the catalog has the id, and the item found has that id |
| `MenuPage.Lookup` | app/page.tsx:74-75 | the catalog entry of an id, or nothing; `LookupHasId` and `LookupIsFind` prove it is the catalog's `find` |
| `MenuPage.LookupIsFind` | app/page.tsx:74 | the direct lookup equals the catalog's `find` by id |
| `MenuPage.EntriesMatchCatalog` | app/page.tsx:89-97 | a reduction over the map's entries, in any order that lists each key once, equals the sum over a catalog holding every key |
| `MenuPage.TypeCount` | app/page.tsx:89-97 | `foodCount` and `drinkCount` as sums over the catalog; `ReductionsOverEntries` proves them equal to the page's sums over the entries |
| `MenuPage.TotalItems` | app/page.tsx:150-151 | `totalItems` as a sum over the catalog; `ReductionsOverEntries` and `TotalItemsOfValidCart` state its meaning |
| `MenuPage.TotalPrice` | app/page.tsx:150-155 | `totalPrice` as a sum over the catalog; `ReductionsOverEntries` and `TotalPriceNonNegative` state its meaning |
| `MenuPage.ReductionsOverEntries` | app/page.tsx:150-155 | food count, drink count, `totalItems` and `totalPrice` over the entries equal the catalog sums, for every entry order |
| `MenuPage.FirstPositiveTime` | app/page.tsx:77-79 | the reference time is `None` iff no catalog item has a positive quantity; else the time of the first that has one |
| `MenuPage.CartTime` | app/page.tsx:77-79 | `null` for an empty map, else the reference time; `FirstPositiveIs` and `CartTimeServed` state which time it is |
| `MenuPage.Clamp` | app/page.tsx:108 | `max(0, min(x, 10))`: within 0..10, and `x` itself inside that range |
| `MenuPage.SetQuantity` | app/page.tsx:107-114 | the id gets the value, a 0 deletes the key, and no other key or value changes |
| `MenuPage.Update` | app/page.tsx:73-114 | ignored iff the id is not in the catalog; refused for mixing iff the guard holds; refused for the cap iff not mixing and the type's count plus delta exceeds 2; else the clamped quantity is stored, the key deleted at 0, all other entries unchanged |
| `MenuPage.CheckUpdate` | app/page.tsx:73-114 | the steps of `updateQuantity`, in order, produce exactly the outcome `Update` specifies |
| `MenuPage.TypeCountAfterStore` | app/page.tsx:89-97 | storing at one id changes a type count by that entry's change if it has the type, else not at all |
| `MenuPage.StoreKeepsCaps` | app/page.tsx:99-114 | a store that passed the cap guard leaves each type count at most 2 |
| `MenuPage.CartTimeServed` | app/page.tsx:77-79 | a cart serving some time has a reference time, and serves it |
| `MenuPage.StoreKeepsMenusApart` | app/page.tsx:81-114 | a store that passed the mixing guard never puts a morning item beside a night item |
| `MenuPage.UpdatePreservesValidCart` | app/page.tsx:73-114 | every accepted update stores `Stored` and keeps the cart valid |
| `MenuPage.FirstPositiveIs` | app/page.tsx:77-79 | the first catalog entry with a positive quantity fixes the reference time |
| `MenuPage.CartTimeOfOne` | app/page.tsx:77-79 | a one-entry cart has its item's time as reference |
| `MenuPage.TypeCountOfOne` | app/page.tsx:89-97 | a one-entry cart counts its quantity for its item's type and 0 for the other |
| `MenuPage.FirstAddAccepted` | app/page.tsx:73-114 | a first add of 1 or 2 of a catalog item to the empty cart is accepted and stores exactly the delta |
| `MenuPage.AllDayCartRefusesDishes` | app/page.tsx:77-87 | with only an all-day item in the cart, every morning or night item is refused as mixing `all` with its time |
| `MenuPage.DecrementCanBeRefused` | app/page.tsx:77-87 | a decrement of a night item is refused when an all-day item listed before it is in the cart |
| `MenuPage.EmptyCartTotals` | app/page.tsx:150-155 | the cleared cart has 0 items, price 0 and no dishes or drinks |
| `MenuPage.EmptyCartValid` | app/page.tsx:58 | the initial empty map is a valid cart |
| `MenuPage.TotalItemsOfValidCart` | app/page.tsx:150-155 | in a valid cart `totalItems` is dishes plus drinks, at most 4, and positive iff the map has an entry |
| `MenuPage.TotalPriceNonNegative` | app/page.tsx:152-155 | a valid cart's price total is not negative |
| `MenuPage.IngredientKeyInjective` | app/page.tsx:158 | keys `${itemId}-${ingredient}` of non-negative ids name one (item, ingredient) pair each |
| `MenuPage.NextState` | app/page.tsx:161-163 | the next state always differs from the current one |
| `MenuPage.GetIngredientState` | app/page.tsx:168-170 | the stored state of the pair's key, `regular` when missing; `CycleFacts` states its behaviour |
| `MenuPage.CycleState` | app/page.tsx:157-166 | `cycleIngredientState`'s update of the state map; `CycleFacts` proves it moves only that pair, one step |
| `MenuPage.CycleFacts` | app/page.tsx:157-170 | a missing key reads `regular`; a cycle moves the pair one step, changes no other pair's reading, and three cycles restore it |
| `MenuPage.Listed` | app/page.tsx:127-130 | night items are always listed, all-day items iff drinks are shown, morning items iff drinks are hidden and the menu is morning |
| `MenuPage.FilterItems` | app/page.tsx:127-130 | the filter keeps exactly the listed items, in the catalog's order, and never grows the list |
| `MenuPage.FilteredItems` | app/page.tsx:127-130 | `filteredItems`, the filter over the page catalog; `MenuFilter` states which items it lists |
| `MenuPage.MenuFilter` | app/page.tsx:127-130 | the same three rules stated over the page catalog |
| `MenuPage.Swiped` | app/page.tsx:136-142 | the time changes iff a positive swipe from morning or a negative one from night |
| `MenuPage.DragEnd` | app/page.tsx:144-148 | the time changes iff the drag exceeds 100 pixels in the swiping direction |
| `MenuPage.SwipeBack` | app/page.tsx:136-148 | a drag that changed the time, done in reverse, restores it |
| `MenuPage.MenuState.constructor` | app/page.tsx:56-64 | the page starts on the morning menu, drinks hidden, empty maps, checkout closed, no error, and a valid cart |
| `MenuPage.MenuState.UpdateQuantity` | app/page.tsx:73-125 | the cart stays valid; the map and error become what `Update`'s outcome gives (unknown id: nothing changes; refusal: map kept, reason recorded; acceptance: the new map); the other fields stay |
| `MenuPage.MenuState.CycleIngredientState` | app/page.tsx:157-166 | the state map becomes `CycleState` of the old one |
| `MenuPage.MenuState.HandleCheckout` | app/page.tsx:172-176 | checkout opens iff it was open or the cart has an entry, which in a valid cart is `totalItems > 0` |
| `MenuPage.MenuState.ClearCart` | app/page.tsx:178-181 | the map is empty, checkout closed, the cart valid, and both totals 0 |
| `MenuPage.MenuState.CloseCheckout` | app/page.tsx:281 | the checkout view's back arrow closes checkout |
| `MenuPage.MenuState.SetShowDrinks` | app/page.tsx:411 | the drinks switch sets `showDrinks` to its checked value |
| `MenuPage.MenuState.ToggleTimeOfDay` | app/page.tsx:420 | the sun/moon button flips the menu time between morning and night |
| `MenuPage.MenuState.HandleSwipe` | app/page.tsx:136-142 | the time becomes `Swiped` of the direction and the old time |
| `MenuPage.MenuState.HandleDragEnd` | app/page.tsx:144-148 | the time becomes `DragEnd` of the offset and the old time |

## Left out

- JSX rendering, framer-motion animation and the flash and pulse effects of `updateQuantity` (app/page.tsx:115-124) are presentation driven by timers and the DOM.
- The splash screen, language choice, style picker and enlarged image of app/page.tsx are display state with no rule attached. The error message text is one of them: a refusal is recorded as its kind (`MixedMenus`, `TypeLimit`) without the English or Spanish sentence.
- The `image` field of catalog entries is not carried; no rule reads it.
- Prices are integer cents, not floating-point dollars, and `toFixed(2)` formatting is not modelled.
- Dates are day numbers with `getDay` as `(day + 4) % 7`. `startOfToday`, time zones, date-fns `format` and `toISOString` are not modelled. A selected day is matched by its day number rather than by its formatted `yyyy-MM-dd` string.
- `TimePicker.SetTime` carries overflowing hours and minutes into later days and hours the way `setHours` and `setMinutes` do, with no daylight-saving shifts. Seconds and milliseconds are dropped because they are always set to 0.
- `localStorage`, `matchMedia`, `setInterval` and `document.documentElement.classList` in app/styles/theme/hooks.ts are not modelled as effects. The storage is a map, the system preference and the current hour are parameters, and `useIsNightMode`'s polling is reduced to its hour test.
- `CartButton.TotalPrice` models `extraPrice` as an integer surcharge on each line. The `CartItem` type (app/types/menu.ts:18-22) does not declare that field, and the only code that builds cart lines (app/(routes)/page.tsx:72-77) never sets it. On those lines `item.price + item.extraPrice` is `NaN`, so the button shows no number for any non-empty cart. An `int` cannot express the missing value; `CartButton.NoExtrasMeansPlainTotal` gives the total the button would show if the missing field counted as 0.
- `MenuItemCard.InitialModifications` reads `ing.id`, `ing.name` and `ing.extraPrice` (app/components/menu-item-card.tsx:27-34), but the catalog supplies ingredients as plain strings (app/types/menu.ts:7, app/lib/menu-data.ts). The `CardIngredient` records describe what the file reads, not the data it actually receives, where those three reads are `undefined`.
- `Util.ParseInt` reads leading decimal digits only. Leading whitespace, signs and radix prefixes, which `parseInt` also accepts, never occur in the labels the picker builds.
- React state updates are modelled as taking effect at once. The updater `prev` of `setQuantities` is the state the handler read, since each click runs one handler.
- The drag offset of `handleDragEnd` is an integer number of pixels.
- Map keys are the integer ids; the page's string keys and `parseInt(id)` on them are not modelled separately.
- `Object.entries` order is left open: `MenuPage.ReductionsOverEntries` holds for every order that lists each key once.
- The page catalog is written one column per function (`CatalogName`, `CatalogPrice`, …), which is a layout choice and changes no entry.
- app/components/auth-button.tsx, app/layout.tsx, app/components/orders-button.tsx, app/components/menu-toggle.tsx, app/features/menu/components/menu-item-card.tsx, app/styles/theme/base.ts and the two routed pages are not part of this model: they render or call third-party services and hold no cart or menu rule.
