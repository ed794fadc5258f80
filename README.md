# Pizza Universitaria storefront — a Dafny model

This project models the logic of a client-only pizza storefront for a
university campus: a TypeScript/React page with a menu, a cart and a
checkout form (`src/pages/Index.tsx`); a pizza customizer that prices a
configured pizza (`src/components/PizzaCustomizer.tsx`); a kitchen dashboard
that moves orders through their statuses (`src/components/KitchenDashboard.tsx`);
an order-tracking page (`src/components/OrderTracking.tsx`); a mock order
service over browser storage (`src/services/ApiService.ts`); and the
delivery-area and opening-hours checks (`src/utils/geolocation.ts`).

The modules follow those files:

| module | file | models |
|---|---|---|
| `Pricing` (`pricing.dfy`) | PizzaCustomizer.tsx | default lists, `calculateTotalPrice`, the topping toggle; class `Customizer` for the dialog's selection state |
| `Cart` (`cart.dfy`) | Index.tsx | the pure cart computations: merge-or-append, remove, set quantity, total, badge, category filter |
| `Storefront` (`storefront.dfy`) | Index.tsx | class `Page` for the page state (products, cart, form, tracked order id) and its handlers, checkout guards and order construction |
| `Statuses` (`statuses.dfy`) | KitchenDashboard.tsx, OrderTracking.tsx | the six status names, their order and their labels |
| `Kitchen` (`kitchen.dfy`) | KitchenDashboard.tsx | successor map, advance button, local status overwrite, filters, counters, elapsed-time text |
| `Tracking` (`tracking.dfy`) | OrderTracking.tsx | progress and time text per status, lit steps, the `trackOrder` guard |
| `OrderStore` (`orderstore.dfy`) | ApiService.ts | class `Store` over the storage key; first-match update, lookup, remote-then-local lists, delivery estimate |
| `ServiceArea` (`servicearea.dfy`) | geolocation.ts | keyword lists, `validateAddress`, opening hours |
| `Seqs`, `Text`, `Options` | — | `find`/`filter` on sequences; `includes`, `toLowerCase`, `trim` and number printing on strings; an option type |

Modelling choices:

- Money is a Dafny `real`, which is exact. The source computes with
  JavaScript floating-point numbers.
- Quantities are `int`, because the source does not validate them.
- An absent optional field is `None`. This keeps a missing list apart from
  an empty one: `product.sizes || defaultSizes` keeps an empty list, since `[]`
  is truthy.
- The storage key holds `Stored`: `Absent`, `Corrupt` (text that
  `JSON.parse` rejects) or `Saved(orders)`.
- Whether a storage write succeeds is a `writeOk` parameter.
- The service's remote order list is an `Option<seq<Order>>` parameter.
  `None` is a failed fetch.
- The clock's hour, elapsed minutes, the random digit, new ids and
  timestamps are all parameters.
- An order's status is free text, as in the source. `Statuses.Parse` tells
  whether it is one of the six known names.

Behaviour the proofs bring out:

- The dashboard's advance button first asks the store to update the order,
  and only when that call resolves does it overwrite the status in its own
  list. The store only updates local orders. For an order that exists only
  in the remote list, the store writes nothing and still resolves
  (`OrderStore.Store.UpdateOrderStatus`, `OrderStore.UpdateMissesRemote`).
  So the dashboard shows the new status until its next reload, while the
  store keeps the old one.
- Adding a customized pizza merges it with an equal line by adding one unit
  at that line's custom price (`Cart.AddToCartTotal`). The line's custom
  price is the customizer's total for the customizer's quantity, and that
  quantity is not used anywhere else. A customized pizza of quantity 2
  therefore costs the two-pizza price per cart unit.
- The final city check in `validateAddress` never decides anything, because
  both city spellings are keywords (`ServiceArea.ValidateAddressMeaning`).

Further facts about the code that the model keeps:

- A status update for an unknown id resolves as a success; there is no
  "not found" error.
- Elapsed minutes are not clamped at zero. A future timestamp prints as
  `"-3 min"`.
- A cart line costs `customPrice || price`; the cart does not recompute
  base × multiplier plus toppings.
- A zero size multiplier counts as 1 (`|| 1`). So a pizza with no
  toppings costs `price × q` when its size has multiplier 0.
- `createOrder` stores the order with the id the caller gave it; it does
  not assign one.

## Model

| member | source | states |
|---|---|---|
| Pricing.SizeMultiplier | src/components/PizzaCustomizer.tsx:88 | `find` over the sizes front to back, with 1 for a missing size or a 0 multiplier |
| Pricing.SizeMultiplierNonZero | src/components/PizzaCustomizer.tsx:88 | the fallback to 1 means the multiplier is never 0 |
| Pricing.SizeMultiplierFirstMatch | src/components/PizzaCustomizer.tsx:85-88 | the multiplier is that of the first size with the selected name, and 1 when that multiplier is 0 |
| Pricing.SizeMultiplierNoMatch | src/components/PizzaCustomizer.tsx:88 | with no size of that name the multiplier is 1 |
| Pricing.ToppingPriceFirstMatch | src/components/PizzaCustomizer.tsx:91-94 | a selected name costs the price of the first topping with that name |
| Pricing.ToppingPriceNoMatch | src/components/PizzaCustomizer.tsx:92-93 | an unknown topping name costs 0 |
| Pricing.ToppingPrice | src/components/PizzaCustomizer.tsx:92-93 | `find` over the toppings front to back, with 0 for an unknown name |
| Pricing.ToppingPriceNonNegative | src/components/PizzaCustomizer.tsx:92-93 | with no negative price in the list, no topping costs less than 0 |
| Pricing.ToppingsPrice | src/components/PizzaCustomizer.tsx:91-94 | the `reduce` over the selected names, left to right, adding each name's price |
| Pricing.ToppingsPriceNonNegative | src/components/PizzaCustomizer.tsx:91-94 | with no negative price in the list, no selection's topping sum is below 0 |
| Pricing.ToppingsPriceSnoc | src/components/PizzaCustomizer.tsx:91-94 | appending a name adds its price to the topping sum |
| Pricing.ToppingsPriceConcat | src/components/PizzaCustomizer.tsx:91-94 | the topping sum of a concatenated selection is the sum of the parts |
| Pricing.LineTotal | src/components/PizzaCustomizer.tsx:88-96 | (base × size multiplier + topping sum) × quantity |
| Pricing.LineTotalShift | src/components/PizzaCustomizer.tsx:96 | two selections whose topping sums differ by p have totals differing by p × quantity |
| Pricing.CalculateTotalPrice | src/components/PizzaCustomizer.tsx:82-97 | no product gives 0; otherwise (base × multiplier + toppings) × quantity over the product's lists or the defaults |
| Pricing.MedianaPepperoniExample | src/components/PizzaCustomizer.tsx:37-66 | price 120, default "Mediana (25cm)", default "Pepperoni Extra", quantity 2 costs 390 |
| Pricing.Without | src/components/PizzaCustomizer.tsx:101-102 | the filtered selection holds exactly the other names, in their old order |
| Pricing.WithoutKeepsNoDuplicates | src/components/PizzaCustomizer.tsx:101-102 | filtering a duplicate-free selection keeps it duplicate-free |
| Pricing.AppendKeepsNoDuplicates | src/components/PizzaCustomizer.tsx:104 | appending a name not yet selected keeps the selection duplicate-free |
| Pricing.WithoutPrice | src/components/PizzaCustomizer.tsx:91-102 | removing a selected name from a duplicate-free selection lowers the topping sum by its price |
| Pricing.Toggled | src/components/PizzaCustomizer.tsx:99-105 | the toggled name's membership flips, every other name's is kept, no duplicates appear; removal keeps the others' order and a new name goes at the end |
| Pricing.ToggleOnRaisesTotal | src/components/PizzaCustomizer.tsx:89-105 | selecting one more topping raises the total by price × quantity |
| Pricing.ToggleOffLowersTotal | src/components/PizzaCustomizer.tsx:89-105 | deselecting a topping lowers the total by price × quantity |
| Pricing.Customizer.constructor | src/components/PizzaCustomizer.tsx:32-35 | empty selection and quantity 1 |
| Pricing.Customizer.Open | src/components/PizzaCustomizer.tsx:69-80 | opening on a product selects the first size and crust, no toppings, quantity 1; otherwise nothing changes |
| Pricing.Customizer.SelectSize | src/components/PizzaCustomizer.tsx:32 | only the size changes; the quantity stays at least 1 and the toppings duplicate-free |
| Pricing.Customizer.SelectCrust | src/components/PizzaCustomizer.tsx:33 | only the crust changes; the quantity stays at least 1 and the toppings duplicate-free |
| Pricing.Customizer.ToggleTopping | src/components/PizzaCustomizer.tsx:99-105 | the selection becomes its toggle and stays duplicate-free; nothing else changes |
| Pricing.Customizer.DecrementQuantity | src/components/PizzaCustomizer.tsx:231 | the quantity becomes max(1, q − 1), so it stays at least 1 |
| Pricing.Customizer.IncrementQuantity | src/components/PizzaCustomizer.tsx:240 | the quantity becomes q + 1 and stays at least 1 |
| Pricing.Customizer.Close | src/components/PizzaCustomizer.tsx:119-125 | every selection is cleared and the quantity reset to 1 |
| Pricing.Customizer.Complete | src/components/PizzaCustomizer.tsx:107-117 | the customization carries the current selection and the computed total, with quantity at least 1 and duplicate-free toppings |
| Cart.AddToCart | src/pages/Index.tsx:68-94 | the cart keeps its length or gains exactly the new line at the end |
| Cart.AddToCartMerges | src/pages/Index.tsx:69-81 | with a first equal line at k, only line k changes, by one unit |
| Cart.AddToCartAppends | src/pages/Index.tsx:82-91 | with no equal line, one line of quantity 1 and the customization's total is appended; earlier lines stay |
| Cart.RemoveFromCart | src/pages/Index.tsx:96-98 | exactly line i goes and the rest keep their order; an index out of range changes nothing |
| Cart.UpdateQuantity | src/pages/Index.tsx:100-108 | quantity 0 is removal; any other quantity replaces line i's and nothing else |
| Cart.StepButtonsKeepPositive | src/pages/Index.tsx:424-432 | the minus and plus buttons keep every remaining quantity at least 1 |
| Cart.AddToCartKeepsPositive | src/pages/Index.tsx:76-91 | adding keeps every quantity at least 1 |
| Cart.UnitPrice | src/pages/Index.tsx:112 | a non-zero custom price is the unit price; a missing or zero one falls back to the product price |
| Cart.TotalPrice | src/pages/Index.tsx:110-115 | the `reduce` over the lines, left to right, adding unit price × quantity |
| Cart.TotalPriceNonNegative | src/pages/Index.tsx:110-115 | with no negative unit price or quantity the total is not negative |
| Cart.TotalPriceConcat | src/pages/Index.tsx:110-115 | the total of a concatenated cart is the sum of the parts' totals |
| Cart.TotalPriceReplace | src/pages/Index.tsx:110-115 | replacing one line changes the total by the difference of the line amounts |
| Cart.AddToCartTotal | src/pages/Index.tsx:68-115 | adding raises the total by one unit price of the merged or new line |
| Cart.ItemCount | src/pages/Index.tsx:213 | the summed quantities of the lines |
| Cart.ItemCountAtLeastLines | src/pages/Index.tsx:213 | when every line holds at least one unit, the count is at least the number of lines |
| Cart.Badge | src/pages/Index.tsx:211-215 | the badge appears exactly when the cart is non-empty, and then shows the summed quantities |
| Cart.ItemCountConcat | src/pages/Index.tsx:213 | the badge count of a concatenated cart is the sum of the parts' counts |
| Cart.AddToCartCountsOne | src/pages/Index.tsx:213 | each add raises the badge count by exactly one |
| Cart.CategoryProducts | src/pages/Index.tsx:172-173 | exactly the category's products, every copy of each, in menu order |
| Storefront.BuildOrder | src/pages/Index.tsx:149-159 | the order carries the given id and timestamp, the form's fields, the cart's lines and total, and the pending status |
| Storefront.CheckoutGate | src/pages/Index.tsx:130-146 | empty cart first, then a blank name, phone or address, then the service area, each reported exactly when it is the first to fail |
| Storefront.BlankAddressNeverPlaced | src/pages/Index.tsx:136-146 | an all-whitespace address never gets past the guards |
| Storefront.PlacedOrderIsTracked | src/pages/Index.tsx:149-162 | a placed order with a new id is found under that id and shows as pending, at step 0 |
| Storefront.Page.constructor | src/pages/Index.tsx:41-53 | no products, an empty cart and form, no tracked order |
| Storefront.Page.LoadProducts | src/pages/Index.tsx:59-66 | the list `getProducts` resolves with replaces the products; a rejected call (which the service never makes) keeps them |
| Storefront.Page.AddToCart | src/pages/Index.tsx:68-94 | the cart becomes its pure update, the badge count grows by one, quantities stay positive |
| Storefront.Page.RemoveFromCart | src/pages/Index.tsx:96-98 | the cart becomes its pure update and quantities stay positive |
| Storefront.Page.UpdateQuantity | src/pages/Index.tsx:100-108 | the cart becomes its pure update; nothing else changes |
| Storefront.Page.StepQuantity | src/pages/Index.tsx:424-432 | the ±1 buttons keep every quantity at least 1 |
| Storefront.Page.Customize | src/pages/Index.tsx:117-120 | the product is selected and the customizer opens |
| Storefront.Page.CustomizationComplete | src/pages/Index.tsx:122-128 | the customized product is added if one is selected; the customizer closes |
| Storefront.Page.EditOrderData | src/pages/Index.tsx:496-523 | only the form changes |
| Storefront.Page.Checkout | src/pages/Index.tsx:130-170 | a rejected or failed checkout changes nothing; a placed one appends a pending order with the cart's lines and total, tracks its id and empties the cart |
| Kitchen.NextStatus | src/components/KitchenDashboard.tsx:119-128 | a successor exists exactly for the five statuses before delivered, one position further on |
| Kitchen.AdvanceTarget | src/components/KitchenDashboard.tsx:283-286 | no button for delivered; an unknown status jumps to delivered; a known one moves one step |
| Kitchen.AdvancesFromPending | src/components/KitchenDashboard.tsx:119-128 | n presses from pending reach step n; five reach delivered and a sixth is not offered |
| Kitchen.AdvanceNeverRegresses | src/components/KitchenDashboard.tsx:283-286 | an advance always lands on a known status and never moves backwards |
| Kitchen.UpdateOrderStatus | src/components/KitchenDashboard.tsx:50-54 | orders with the id get the new status, unchecked; all others are unchanged |
| Kitchen.DashboardAgreesWithStore | src/components/KitchenDashboard.tsx:50-54 | with distinct ids the dashboard's update equals the store's first-match update |
| Kitchen.FilteredOrders | src/components/KitchenDashboard.tsx:130-134 | the kept orders are exactly those the filter accepts, every copy of each, as a subsequence |
| Kitchen.FilterAllShowsEverything | src/components/KitchenDashboard.tsx:131 | the 'all' filter is the identity |
| Kitchen.ActiveFilterIsActiveOrders | src/components/KitchenDashboard.tsx:130-136 | the 'active' filter shows exactly the active orders |
| Kitchen.ActiveOrders | src/components/KitchenDashboard.tsx:136 | exactly the orders that are not delivered, every copy of each |
| Kitchen.CompletedCount | src/components/KitchenDashboard.tsx:137 | the number of delivered orders, counted with multiplicity; 0 exactly when no order is delivered |
| Kitchen.CountersSplitOrders | src/components/KitchenDashboard.tsx:136-137 | active plus completed equals the number of orders |
| Kitchen.ElapsedParts | src/components/KitchenDashboard.tsx:105-116 | under 60 minutes as minutes; otherwise h ≥ 1 and m < 60 with 60h + m = d |
| Kitchen.TimeElapsed | src/components/KitchenDashboard.tsx:110-111 | under 60 minutes the text is the number and " min" |
| Kitchen.TimeElapsedReadsBack | src/components/KitchenDashboard.tsx:112-115 | the "h m" text reads back as h and m with m < 60 and 60h + m = d |
| Kitchen.StatusLabel | src/components/KitchenDashboard.tsx:61-71 | the fixed label for a known status, the text itself otherwise |
| Tracking.GetStatusInfo | src/components/OrderTracking.tsx:48-58 | a known status's row, the pending row for anything else |
| Tracking.ProgressIncreasing | src/components/OrderTracking.tsx:49-56 | progress rises strictly along the steps, 0 exactly at pending and 100 exactly at delivered |
| Tracking.EstimatedTime | src/components/OrderTracking.tsx:67-77 | "25-30 min" for an unknown status; "Completado" exactly for delivered |
| Tracking.StepIndex | src/components/OrderTracking.tsx:151-152 | −1 exactly for an unknown status, otherwise its position |
| Tracking.IsLit | src/components/OrderTracking.tsx:151-152 | a lit step belongs to a known status and lies in the step list |
| Tracking.LitStepsArePrefix | src/components/OrderTracking.tsx:148-152 | the lit steps are those up to the current status; an unknown status lights none |
| Tracking.TrackOrder | src/components/OrderTracking.tsx:28-42 | an empty id does nothing; a returned value (null too) replaces the order with no error; only a throw sets the error and keeps the order |
| Tracking.TrackingUnknownIdShowsNoError | src/components/OrderTracking.tsx:34-36 | tracking an id the store lacks shows no order and no error |
| OrderStore.Loaded | src/services/ApiService.ts:178-185 | a missing key or text `JSON.parse` rejects reads as no orders |
| OrderStore.IndexOfId | src/services/ApiService.ts:169 | the first index with the id, or none when no order has it |
| OrderStore.WithStatus | src/services/ApiService.ts:167-175 | only the first order with the id has its status replaced; with none the list is unchanged |
| OrderStore.Combined | src/services/ApiService.ts:137-150 | remote then local after a successful fetch, local alone otherwise |
| OrderStore.Lookup | src/services/ApiService.ts:153-156 | found exactly when some order has the id, and the found order is the first one with it |
| OrderStore.LookupAfterUpdate | src/services/ApiService.ts:153-175 | after an update the lookup gives the old result with only its status changed |
| OrderStore.LookupOtherAfterUpdate | src/services/ApiService.ts:153-175 | an update leaves the lookup of every other id alone |
| OrderStore.LookupAfterAppend | src/services/ApiService.ts:153-164 | an appended order with a new id is found |
| OrderStore.RemoteShadowsLocal | src/services/ApiService.ts:137-156 | a remote order hides a local one with the same id |
| OrderStore.UpdateMissesRemote | src/services/ApiService.ts:137-175 | an id no local order has leaves the combined list unchanged |
| OrderStore.UpdateKeepsRemotePrefix | src/services/ApiService.ts:137-175 | an update never changes the remote part of the list |
| OrderStore.CreateUpdateRoundTrip | src/services/ApiService.ts:153-175 | create then look up gives the order; update then look up gives it with only the new status |
| OrderStore.DeliveryEstimate | src/services/ApiService.ts:206-214 | always 25 to 39 minutes, with 5 more exactly when the address mentions "edificio" |
| OrderStore.Store.constructor | src/services/ApiService.ts:178-185 | the store starts with the given key content |
| OrderStore.Store.LocalOrders | src/services/ApiService.ts:178-185 | the saved list, or no orders for a missing or unparsable key |
| OrderStore.Store.Orders | src/services/ApiService.ts:137-150 | the remote list followed by the local one after a successful fetch, the local one alone otherwise |
| OrderStore.Store.GetOrder | src/services/ApiService.ts:153-156 | the first order with the id in remote-then-local order; none exactly when no order there has the id |
| OrderStore.Store.CreateOrder | src/services/ApiService.ts:159-164 | a successful write appends the order and returns it; a failed one changes nothing |
| OrderStore.Store.UpdateOrderStatus | src/services/ApiService.ts:167-175 | an unknown id writes nothing and succeeds; a known one stores the first-match update, or fails with nothing stored |
| OrderStore.CreateThenUpdate | src/services/ApiService.ts:153-175 | on a live store the created order is found, then found with the new status |
| ServiceArea.ValidateAddress | src/utils/geolocation.ts:69-101 | the source's guard order: blank, campus locations, keywords, city |
| ServiceArea.ValidateAddressMeaning | src/utils/geolocation.ts:69-101 | accepted exactly when the lowered, trimmed address contains a campus location or a keyword |
| ServiceArea.BlankRejected | src/utils/geolocation.ts:70-72 | an empty or all-whitespace address is rejected |
| ServiceArea.CaseAndPaddingIrrelevant | src/utils/geolocation.ts:74 | surrounding whitespace and letter case never change the verdict |
| ServiceArea.EdificioCAccepted | src/utils/geolocation.ts:40-83 | "Edificio C, salón 4" is accepted |
| ServiceArea.FarAddressRejected | src/utils/geolocation.ts:18-100 | an address whose normal form lacks f, b, o, l, p, h, á and any later v matches no entry and is rejected |
| ServiceArea.InsurgentesRejected | src/utils/geolocation.ts:18-101 | "Av. Insurgentes 123, CDMX" is rejected |
| ServiceArea.IsDeliveryAvailable | src/utils/geolocation.ts:188-194 | open from hour 11 up to, not including, hour 23 |
| ServiceArea.NextDeliveryTime | src/utils/geolocation.ts:188-210 | "Ahora" exactly while 11 ≤ hour < 23; "11:00 AM" before; "11:00 AM (mañana)" after |
| Statuses.Parse | src/components/KitchenDashboard.tsx:120-126 | a known name reads as its status, and only the six names do |
| Statuses.Position | src/components/OrderTracking.tsx:148 | each status's place in the step list |
| Statuses.ParseName | src/components/OrderTracking.tsx:148 | every status's name reads back as that status |

## Left out

- Rendering is left out: JSX, tabs, dialogs, toasts, icons, and the CSS-class tables (`getStatusColor`, `getPriorityColor`, `getPriorityIcon`). They are presentation only.
- `fetch` of the order file is left out. Its outcome, the remote list or a failure, is a parameter.
- `getProducts` is left out. Its answer is the parameter of `Storefront.Page.LoadProducts`. It never rejects: when the fetch fails or is not ok it returns a built-in product list. That list is data and not logic. So `None`, and the `catch` in `loadProducts`, cannot happen in the source.
- The dashboard's rejected-store path is not modelled: when `ApiService.updateOrderStatus` rejects, the dashboard keeps its list and shows an error toast. `Kitchen.UpdateOrderStatus` is only the list overwrite that follows a resolved call.
- `localStorage` and JSON (de)serialisation are a `Stored` value. Text that `JSON.parse` rejects is `Corrupt`.
- A storage key whose text parses is assumed to hold an array of orders. In the source, JSON that parses to something else (`null`, `{}`, a number) is returned as it is by `getLocalOrders`, and the spread in `getOrders`, the `push` in `createOrder` and the `findIndex` in `updateOrderStatus` then throw; the model has no such error path. JSON round-trip fidelity (dropping `undefined` fields, number formatting) is not modelled.
- The dashboard's 5-second polling and all `async`/`await` interleaving are not modelled. Each handler runs to completion on the state it started from.
- `processPayment` (a timer and `Math.random`) is left out.
- `getEstimatedDistance` and `calculateDeliveryTime` (random floats) are left out.
- `formatAddress` (regular-expression rewriting) is left out, and so are `getServiceAreaInfo` and the unused `SERVICE_AREA` constant.
- `Date.now()` ids, `new Date()` timestamps and the clock's hour are parameters.
- `toLocaleTimeString` and `toFixed` formatting are left out.
- The subtraction and flooring inside `getTimeElapsed` are not modelled. `Kitchen.TimeElapsed` takes the minute count itself.
- Floating-point rounding is not modelled, because money is exact `real`. `NaN` and `Infinity` quantities are not modelled either.
- ServiceArea.Normalize: lowers only ASCII and Latin-1 capitals (À–Þ except ×). Other Unicode case mappings of `toLowerCase` are not modelled. `trim` is modelled with its exact ECMAScript whitespace set.
- Kitchen.StatusLabel: object-prototype keys such as "toString" are treated as unknown statuses. In the source, the table lookup would return an inherited function for them. The same holds for `Kitchen.NextStatus`, `Tracking.GetStatusInfo` and `Tracking.EstimatedTime`.
- Storefront.Page.Checkout: the address check is the synchronous `ServiceArea.ValidateAddress`. Changes to the cart made while the source awaits it are not modelled.
- Storefront.Page.Checkout: its contract does not state that the placed order can then be looked up. `Storefront.PlacedOrderIsTracked` and `OrderStore.LookupAfterAppend` state that on the store's lists.
- `OrderTracking`'s effect that tracks the page's current order id on change is not modelled. Neither is the input field that edits the id. Both only feed `Tracking.TrackOrder`.
