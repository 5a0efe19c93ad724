# The Piquant Pan storefront, modelled in Dafny

The Piquant Pan is a restaurant storefront built with Angular. This project models the part
of it that holds state and logic.

- **Admin menu store** (`MenuAdminService`). Everything the administrator maintains is kept
  as one collection under the `admin_menu_items` storage key. Every write replaces the whole
  collection, and outside a browser nothing is read or written. The model covers reads, the
  whole-collection save, add with a clock-given id, update by id, delete by id, the one-time
  seed, clearing, and the 47-item catalogue the store is seeded with.
- **Menu page** (`Menu`). It turns admin items into displayable dishes and falls back to three
  built-in bowls when the store is empty. It filters dishes by food type and splits add-ons
  into free and premium. It runs the add-on dialog session. It keeps a wishlist.
- **Checkout page** (`Checkout`). It validates the order form using JavaScript's `trim()` and
  UTF-16 `length`. It totals the cart, and it puts the new order at the head of the stored
  order history.
- **Admin dashboard** (`AdminDashboard`). It seeds the store and lists it. It adds and deletes
  items through the store, labels categories, and summarises two fixed five-day charts.

Each page component is a `class` with the component's fields. Its methods have `modifies`
frames and state the component's whole new state. The pure rules behind them are functions:

- the add-on lists, filtering, price sums and totals;
- the category labels;
- `trim()` and the UTF-16 length, with the string helpers in `JsText`;
- the find-then-splice-or-push toggle, with the keyed-sequence helpers in `KeyedSeq`.

Lemmas about those functions state what the source promises: for example toggle round trips,
partitions, concatenation laws and the fixed figures of the given data.

Storage is a field per key: `None` means the key is absent, and `Some(xs)` holds the collection
stored there. The environment's inputs are parameters:

- whether the code runs in a browser;
- `Date.now()` and `new Date().toISOString()`;
- `window.innerWidth`;
- the answer to `confirm()`.

The cart service is not part of this model (`src/app/services/cart.ts` is not among the files
modelled). `CartStore.Cart` stands in for it with the two calls its callers make: append a line,
and empty the cart.

Three behaviours of the menu page are worth stating plainly, because the model keeps them as written:

- `getFallbackMenu` returns three dishes, one of each food type (src/app/pages/menu/menu.ts:177-211);
- `filteredFoods` filters on `type` only; there is no category filter (src/app/pages/menu/menu.ts:217-220);
- `mapAdminToFood` sets `category: 'sprouts'` on every dish (src/app/pages/menu/menu.ts:137). `'sprouts'` is not
  one of the fourteen categories of `Food` (src/app/models/food.ts:6), which is why `MenuPage.MenuFood.category`
  is a plain string rather than a checked category.

## Model

| member | source | states |
|---|---|---|
| `MenuAdmin.MenuItemDraft.WithId` | src/app/services/menu-admin.service.ts:66-69 | spreading a draft and adding an id gives an item with that id whose other fields are exactly the draft's |
| `MenuAdmin.MenuAdminService.constructor` | src/app/services/menu-admin.service.ts:35-37 | the service starts with the given platform flag and storage contents |
| `MenuAdmin.MenuAdminService.GetAll` | src/app/services/menu-admin.service.ts:42-46 | outside a browser, or with the key absent, the result is empty; otherwise it is the stored collection |
| `MenuAdmin.MenuAdminService.GetById` | src/app/services/menu-admin.service.ts:48-50 | the result is absent exactly when no stored item has the id; otherwise it is the item at the first position holding that id |
| `MenuAdmin.MenuAdminService.Save` | src/app/services/menu-admin.service.ts:55-58 | in a browser the stored collection becomes the argument; outside one, storage is untouched |
| `MenuAdmin.MenuAdminService.Add` | src/app/services/menu-admin.service.ts:63-73 | in a browser the store becomes the old collection plus the draft under the clock's id, at the end; outside one, nothing is stored |
| `MenuAdmin.MenuAdminService.Update` | src/app/services/menu-admin.service.ts:78-83 | the store keeps its length; every item with the updated id is replaced, and every other item stays at its position |
| `MenuAdmin.MenuAdminService.Delete` | src/app/services/menu-admin.service.ts:88-91 | the store becomes the old collection without the id, and afterwards no stored item has the id |
| `MenuAdmin.MenuAdminService.SeedIfEmpty` | src/app/services/menu-admin.service.ts:97-101 | a non-empty store is left as it was; an empty store in a browser becomes the seed |
| `MenuAdmin.MenuAdminService.ClearAll` | src/app/services/menu-admin.service.ts:106-109 | in a browser the key is removed; afterwards reads give nothing |
| `MenuAdmin.Replaced` | src/app/services/menu-admin.service.ts:79-81 | the update map keeps the length, and every position holds either the new record or the item that was there |
| `MenuAdmin.Removed` | src/app/services/menu-admin.service.ts:89 | the delete filter is no longer than the input, keeps only items of the input without the id, and keeps every item without the id |
| `MenuAdmin.ReplacedAt` | src/app/services/menu-admin.service.ts:79-81 | mapping an update over the items keeps the length and swaps in the new record exactly where the id matches |
| `MenuAdmin.ReplacedAbsent` | src/app/services/menu-admin.service.ts:79-81 | updating with an id that is not stored leaves the collection unchanged |
| `MenuAdmin.ReplacedIdempotent` | src/app/services/menu-admin.service.ts:79-81 | updating twice with the same record is the same as updating once |
| `MenuAdmin.RemovedSpec` | src/app/services/menu-admin.service.ts:89 | after the delete filter no item has the id; every other item occurs as often as before; filtering again changes nothing |
| `MenuAdmin.RemovedConcat` | src/app/services/menu-admin.service.ts:89 | the delete filter keeps relative order: filtering a concatenation filters each part |
| `Seqs.Filter` | src/app/services/menu-admin.service.ts:89 | `Array.prototype.filter`: the result is no longer than the input, holds only elements of the input that pass, and holds every element that passes |
| `Seqs.FilterConcat` | src/app/pages/menu/menu.ts:219 | filtering distributes over concatenation |
| `Seqs.FilterCount` | src/app/pages/menu/menu.ts:229-235 | a passing element keeps its number of occurrences; a failing one has none |
| `Seqs.FilterAll` | src/app/pages/menu/menu.ts:229-235 | when every element passes, filtering returns the input |
| `Seqs.FilterNone` | src/app/pages/menu/menu.ts:229-235 | when no element passes, filtering returns the empty sequence |
| `Seqs.FilterIdempotent` | src/app/services/menu-admin.service.ts:89 | filtering twice with the same predicate is filtering once |
| `MenuSeed.AllMenuItemsFromPdf` | src/app/services/menu-admin.service.ts:116-382 | the catalogue has 47 items with ids 1 to 47 in order; every price is positive and every category is one of the fourteen food categories |
| `KeyedSeq.FindIndex` | src/app/pages/menu/menu.ts:253 | `findIndex` by id: the result is the first index holding the key, and it is absent exactly when no element has the key |
| `KeyedSeq.Toggle` | src/app/pages/menu/menu.ts:253-260 | find-then-splice-or-push: with the key present the list shrinks by one; with it absent the list grows by one, keeps its old entries in front and ends with the new element (the same shape is used at menu.ts:291-294 and 299-302) |
| `KeyedSeq.ToggleShape` | src/app/pages/menu/menu.ts:253-260 | find-then-splice-or-push either removes the element at the first matching index or appends the new element |
| `KeyedSeq.ToggleFlips` | src/app/pages/menu/menu.ts:290-304 | on a list with distinct ids, a toggle flips whether the id is present, leaves every other id's presence unchanged, and keeps the ids distinct |
| `KeyedSeq.ToggleTwiceAbsent` | src/app/pages/menu/menu.ts:290-304 | toggling an absent element on and off again restores the list exactly |
| `KeyedSeq.ToggleTwiceKeys` | src/app/pages/menu/menu.ts:252-263 | toggling the same id twice restores which ids are present |
| `MenuPage.AddonIds` | src/app/pages/menu/menu.ts:141 | `addons.map(a => a.id)`: same length, and each id comes from the add-on at that position |
| `MenuPage.GetFreeAddons` | src/app/pages/menu/menu.ts:229-231 | the free add-ons are exactly the dish's add-ons priced 0 |
| `MenuPage.GetPremiumAddons` | src/app/pages/menu/menu.ts:233-235 | the premium add-ons are exactly the dish's add-ons priced above 0 |
| `MenuPage.FreeAddonIdsAreOneToFive` | src/app/pages/menu/menu.ts:100-106 | the free add-on list has ids 1 to 5 |
| `MenuPage.FreeAddonsAreFree` | src/app/pages/menu/menu.ts:100-106 | every free add-on costs 0 |
| `MenuPage.PremiumAddonsArePaid` | src/app/pages/menu/menu.ts:109-128 | every premium add-on of either type costs more than 0 |
| `MenuPage.TypeAddonIdsDistinct` | src/app/pages/menu/menu.ts:130 | the free and premium add-ons put together have distinct ids, for every food type |
| `MenuPage.AddonSetsByType` | src/app/pages/menu/menu.ts:130-141 | for a dish built by type, the free split is the five free add-ons and matches `freeAddonIds`, the premium split is its type's list, and add-on ids are distinct |
| `MenuPage.MapAdminToFood` | src/app/pages/menu/menu.ts:98-143 | id, name, price, type and image are copied; an empty subtitle becomes the default; the category is `'sprouts'`; the add-ons are the free list followed by the type's premium list |
| `MenuPage.Bowl` | src/app/pages/menu/menu.ts:178-188 | a fallback bowl keeps its id and food type, pre-selects ids 1 to 5, and offers the free add-ons followed by its type's premium list |
| `MenuPage.FallbackMenu` | src/app/pages/menu/menu.ts:148-211 | three dishes with ids 1 to 3, one veg, one egg and one non-veg, each with add-ons by its type |
| `MenuPage.MapAll` | src/app/pages/menu/menu.ts:89 | every admin item is mapped, in order |
| `MenuPage.ResolveMenu` | src/app/pages/menu/menu.ts:86-92 | a non-empty store is shown mapped, an empty one as the fallback; the menu is never empty and every dish has add-ons by type |
| `MenuPage.FilterByType` | src/app/pages/menu/menu.ts:217-220 | `'all'` shows every dish; a type shows exactly the dishes of that type |
| `MenuPage.FilterByTypePartitions` | src/app/pages/menu/menu.ts:217-220 | the three type filters together hold every dish exactly as often as the menu does |
| `MenuPage.FilterByTypeConcat` | src/app/pages/menu/menu.ts:219 | the type filter keeps the menu's order |
| `MenuPage.PriceSum` | src/app/pages/menu/menu.ts:227 | the `reduce` of add-on prices from 0: an empty selection sums to 0, and one without negative prices sums to at least 0 (the same fold is at menu.ts:311) |
| `MenuPage.PriceSumConcat` | src/app/pages/menu/menu.ts:226-228 | the add-on price sum of a concatenation is the sum of the parts' sums |
| `MenuPage.FreeAddonsCostNothing` | src/app/pages/menu/menu.ts:306-314 | free add-ons add nothing to a price sum |
| `MenuPage.PriceSumRemoveAt` | src/app/pages/menu/menu.ts:301 | splicing out one add-on lowers the sum by exactly its price |
| `MenuPage.PriceSumToggle` | src/app/pages/menu/menu.ts:298-304 | toggling an add-on on raises the sum by its price; toggling it off lowers the sum by the price of the entry removed |
| `MenuPage.FreeAndPremiumPartition` | src/app/pages/menu/menu.ts:229-235 | with no negative prices, the free and premium splits together hold every add-on of the dish exactly once per occurrence |
| `MenuPage.Menu.constructor` | src/app/pages/menu/menu.ts:67-80 | in a browser the wishlist comes from storage and the menu is loaded; otherwise both are empty; the dialog starts closed and consistent |
| `MenuPage.Menu.LoadMenu` | src/app/pages/menu/menu.ts:85-93 | the dishes are the resolved menu of what the store holds |
| `MenuPage.Menu.FilteredFoods` | src/app/pages/menu/menu.ts:217-220 | with `'all'` every dish is shown; with a type, exactly the dishes of that type |
| `MenuPage.Menu.GetPremiumAddonsTotal` | src/app/pages/menu/menu.ts:226-228 | no premium selection totals 0, and in an open, consistent dialog the premium total is the dialog total minus the base price |
| `MenuPage.Menu.IsPremiumAddonSelected` | src/app/pages/menu/menu.ts:241-243 | true exactly when `findIndex` on the premium selection finds the id |
| `MenuPage.Menu.IsFreeAddonSelected` | src/app/pages/menu/menu.ts:245-247 | true exactly when `findIndex` on the free selection finds the id |
| `MenuPage.Menu.IsWishlisted` | src/app/pages/menu/menu.ts:265-267 | true exactly when `findIndex` on the wishlist finds the id |
| `MenuPage.Menu.ToggleWishlist` | src/app/pages/menu/menu.ts:252-263 | the wishlist is toggled on the dish's id and written back to storage; with distinct ids, presence flips and distinctness is kept |
| `MenuPage.Menu.CalculateTotal` | src/app/pages/menu/menu.ts:306-314 | the dialog total is the dish's base price plus the prices of the selected premium add-ons |
| `MenuPage.Menu.OpenAddonPopup` | src/app/pages/menu/menu.ts:272-282 | the dish is selected, all its free add-ons are preselected and no premium ones, the total is the base price, and the dialog is open |
| `MenuPage.Menu.CloseAddonPopup` | src/app/pages/menu/menu.ts:284-288 | the dialog is closed and both selections are cleared |
| `MenuPage.Menu.ToggleFreeAddon` | src/app/pages/menu/menu.ts:290-296 | the free selection is toggled on the add-on's id, and in an open, consistent dialog the total does not change |
| `MenuPage.Menu.TogglePremiumAddon` | src/app/pages/menu/menu.ts:298-304 | the premium selection is toggled, the total is recomputed, and selecting a new add-on raises the total by its price |
| `MenuPage.Menu.ConfirmAddToCart` | src/app/pages/menu/menu.ts:316-332 | one line is appended to the cart with the dish, the free then premium selections, quantity 1 and the dialog total; the dialog is then closed |
| `CartStore.Cart.constructor` | src/app/pages/checkout/checkout.ts:21 | the cart starts empty |
| `CartStore.Cart.AddToCart` | src/app/pages/menu/menu.ts:323-330 | the line is appended at the end |
| `CartStore.Cart.ClearCart` | src/app/pages/checkout/checkout.ts:82 | the cart becomes empty |
| `JsText.TrimStart` | src/app/pages/checkout/checkout.ts:41-43 | the result is a suffix of the input; everything cut before it is whitespace; it does not start with whitespace |
| `JsText.TrimEnd` | src/app/pages/checkout/checkout.ts:41-43 | the result is a prefix of the input; everything cut after it is whitespace; it does not end with whitespace |
| `JsText.Trim` | src/app/pages/checkout/checkout.ts:41-43 | `trim()` never lengthens a string, and a non-empty result neither starts nor ends with whitespace |
| `JsText.TrimCutsOnlyWhitespace` | src/app/pages/checkout/checkout.ts:41-43 | `trim()` keeps a contiguous middle of the input and cuts only whitespace on either side |
| `JsText.TrimmedEndsVisible` | src/app/pages/checkout/checkout.ts:41-43 | a non-empty trimmed string neither starts nor ends with whitespace |
| `JsText.TrimEmptyIff` | src/app/pages/checkout/checkout.ts:41-43 | a trimmed string is empty exactly when the input is all whitespace |
| `JsText.TrimIdempotent` | src/app/pages/checkout/checkout.ts:41-43 | trimming twice is trimming once |
| `JsText.TrimKeepsVisibleEnds` | src/app/pages/checkout/checkout.ts:42 | a string with visible ends is its own trim |
| `JsText.Utf16Length` | src/app/pages/checkout/checkout.ts:41-43 | `length` counts UTF-16 code units: at least one and at most two per character |
| `JsText.BmpUtf16Length` | src/app/pages/checkout/checkout.ts:42 | for characters of the Basic Multilingual Plane, `length` is the number of characters |
| `JsText.Digit` | src/app/pages/checkout/checkout.ts:61 | a digit value is written as a character from `'0'` to `'9'` |
| `JsText.NatToDecimal` | src/app/pages/checkout/checkout.ts:61 | the decimal form of a number is a non-empty string of digits |
| `JsText.DecimalRoundTrip` | src/app/pages/checkout/checkout.ts:61 | reading back the decimal form gives the number |
| `JsText.DecimalInjective` | src/app/pages/checkout/checkout.ts:61 | different numbers have different decimal forms |
| `CheckoutPage.GrandTotal` | src/app/pages/checkout/checkout.ts:48-53 | an empty cart totals 0, and a cart without negative prices or quantities totals at least 0 |
| `CheckoutPage.GrandTotalConcat` | src/app/pages/checkout/checkout.ts:48-53 | the total of a concatenation is the sum of the totals |
| `CheckoutPage.GrandTotalExample` | src/app/pages/checkout/checkout.ts:50 | lines of 150 x 2 and 80 x 1 total 380: each line counts price times quantity |
| `CheckoutPage.FormValidIff` | src/app/pages/checkout/checkout.ts:39-46 | the form is valid exactly when name and address each have a visible character, the trimmed phone has at least ten code units, and the cart is not empty |
| `CheckoutPage.FormValidWhenFilled` | src/app/pages/checkout/checkout.ts:39-46 | a visible name and address, a phone of ten or more plain characters with visible ends, and a non-empty cart make the form valid |
| `CheckoutPage.OrderIdInjective` | src/app/pages/checkout/checkout.ts:61 | orders placed at different instants get different ids |
| `CheckoutPage.Checkout.constructor` | src/app/pages/checkout/checkout.ts:17-31 | the form starts empty and the page is not placing an order |
| `CheckoutPage.Checkout.IsFormValid` | src/app/pages/checkout/checkout.ts:39-46 | valid exactly when name and address each have a visible character, the trimmed phone has at least ten code units, and the cart has a line |
| `CheckoutPage.Checkout.GetGrandTotal` | src/app/pages/checkout/checkout.ts:48-53 | an empty cart totals 0, and a cart without negative prices or quantities totals at least 0 |
| `CheckoutPage.Checkout.ExistingOrders` | src/app/pages/checkout/checkout.ts:72-73 | the stored order history, or nothing when the `orders` key is absent |
| `CheckoutPage.Checkout.PlaceOrder` | src/app/pages/checkout/checkout.ts:55-79 | outside a browser or with an invalid form nothing changes; otherwise the new order, with its customer, lines and total, goes at the head of the stored history, which grows by one, and the page is marked as placing |
| `CheckoutPage.Checkout.FinishPlacingOrder` | src/app/pages/checkout/checkout.ts:80-82 | the page stops placing and the cart is emptied |
| `AdminDashboardPage.CategoryDisplayName` | src/app/pages/admin/admin-dashboard.ts:142-161 | the shown name is empty only for the empty id |
| `AdminDashboardPage.CategoryLabelsCoverFood` | src/app/pages/admin/admin-dashboard.ts:143-158 | the label map covers exactly the fourteen food categories |
| `AdminDashboardPage.CategoryDisplayNameSpec` | src/app/pages/admin/admin-dashboard.ts:142-161 | each known category is shown under its own label, which differs from the id; every other id is shown unchanged |
| `AdminDashboardPage.SumValues` | src/app/pages/admin/admin-dashboard.ts:82-84 | an empty chart sums to 0, and a chart without negative values sums to at least 0 |
| `AdminDashboardPage.SumValuesConcat` | src/app/pages/admin/admin-dashboard.ts:83 | the sum of two charts one after the other is the sum of their sums |
| `AdminDashboardPage.Values` | src/app/pages/admin/admin-dashboard.ts:80 | `chart.map(o => o.value)`: same length, and each value comes from the point at that position |
| `AdminDashboardPage.MaxValue` | src/app/pages/admin/admin-dashboard.ts:80 | `Math.max` over the values is `-Infinity` exactly for an empty chart; otherwise it is at least every value and is one of them |
| `AdminDashboardPage.DefaultOrdersSummary` | src/app/pages/admin/admin-dashboard.ts:72-84 | the given orders chart sums to 75 and peaks at 21 |
| `AdminDashboardPage.DefaultRevenueSummary` | src/app/pages/admin/admin-dashboard.ts:89-97 | the given revenue chart peaks at 11980 |
| `AdminDashboardPage.DashboardFigures` | src/app/pages/admin/admin-dashboard.ts:72-97 | a dashboard showing the given charts has `ordersLast5Days` 75, `maxOrders` 21 and `maxRevenue` 11980 |
| `AdminDashboardPage.DefaultDraftFields` | src/app/pages/admin/admin-dashboard.ts:30-39 | the empty form has no name, the stock subtitle, price 0, type veg, category `'snacks'`, no image and no add-ons (the same values are restored at admin-dashboard.ts:189-198) |
| `AdminDashboardPage.AdminDashboard.OrdersLast5Days` | src/app/pages/admin/admin-dashboard.ts:82-84 | the sum of the orders chart: 75 for the chart the page is built with, and at least 0 for a chart without negative values |
| `AdminDashboardPage.AdminDashboard.MaxOrders` | src/app/pages/admin/admin-dashboard.ts:80 | at least every orders value, and 21 for the chart the page is built with |
| `AdminDashboardPage.AdminDashboard.MaxRevenue` | src/app/pages/admin/admin-dashboard.ts:97 | at least every revenue value, and 11980 for the chart the page is built with |
| `AdminDashboardPage.AdminDashboard.constructor` | src/app/pages/admin/admin-dashboard.ts:118-130 | the store is seeded with the catalogue only if it was empty; the list equals the store and in a browser is never empty; the sidebar is open on screens at least 1024 pixels wide; the form starts empty with category `'snacks'` and no image, closed; the charts start at their given data |
| `AdminDashboardPage.AdminDashboard.ToggleSidebar` | src/app/pages/admin/admin-dashboard.ts:135-137 | the sidebar state flips, so two calls restore it |
| `AdminDashboardPage.AdminDashboard.LoadItems` | src/app/pages/admin/admin-dashboard.ts:178-180 | the list equals what the store holds |
| `AdminDashboardPage.AdminDashboard.AddItem` | src/app/pages/admin/admin-dashboard.ts:182-201 | a form with no name or a price of 0 or less changes neither the store nor the page; otherwise the store gains exactly the draft under the clock's id at the end, the list equals the store, and the form is reset to the empty form (category `'snacks'`, no image) and closed |
| `AdminDashboardPage.AdminDashboard.DeleteItem` | src/app/pages/admin/admin-dashboard.ts:203-208 | without confirmation nothing changes; with it the store drops the id, the list equals the store, and no listed item has the id |

## Left out

- Serialisation: `JSON.stringify` and `JSON.parse` of stored values are left out. Each storage key holds the structured value itself, so a malformed stored string, which would make `JSON.parse` throw, cannot be expressed.
- Asynchrony: the `setTimeout` continuation of `placeOrder` is the separate method `FinishPlacingOrder`. Its `alert` and its navigation to `/orders` are left out, as are the router and the template bindings.
- `Checkout.items`: the `cart$` subscription is not modelled. The page reads the cart's lines directly, as if every emission arrived synchronously.
- Cart service: `src/app/services/cart.ts` is not part of this model. `CartStore.Cart` appends without merging lines and clears; whatever else the real service does is not captured.
- `MenuPage.Menu.CalculateTotal`: `selectedFood` is declared but unset until a dish is opened, and the source would throw a `TypeError` on `undefined.basePrice`. The model instead requires a selected dish. The same holds for `ToggleFreeAddon`, `TogglePremiumAddon` and `ConfirmAddToCart`.
- Add-on images (`addonImages` and `getAddonImage`, src/app/pages/menu/menu.ts:50-65 and 237-239) are presentation only.
- Dashboard figures with floating point: `revenueChangePercent` and `revenueGrowthPercent` use `Math.round` on a floating division, and `buildRevenuePolyline` formats floats into SVG points (src/app/pages/admin/admin-dashboard.ts:55-67 and 166-173).
- Static dashboard data: `totalOrders`, `totalCustomers`, `notifications`, `revenueThisWeek`, `revenueLastWeek`, `totalRevenue`, `recentOrders` and `bestSelling` are constants with no behaviour.
- `AdminDashboardPage.AdminDashboard.MaxOrders` and `MaxRevenue`: the source stores these maxima in fields when the page is built. The model computes them from the chart fields, which nothing reassigns after construction.
- `AdminDashboardPage.CategoryDisplayName`: plain-object lookup also finds keys inherited from `Object.prototype`, such as `'toString'`, which would yield a function rather than a string. The model treats only the fourteen listed keys as labelled.
- `logout` and the `AdminAuthService` are outside the modelled core.
- Number precision: ids and prices are unbounded integers. JavaScript numbers lose precision above 2^53, and `Date.now()` ids are assumed to be non-negative.
- `MenuAdmin.MenuAdminService.Add`: two adds within the same millisecond get the same id. The source does not guard against this, and the model takes whatever id the clock gives.
