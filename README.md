# FoodFleet ordering pages, modelled in Dafny

This project models the state logic of the FoodFleet food-ordering web front end. It
covers seven components:

- **Restaurant listing page.** Cuisine filter chips toggle ids in and out of the active
  filter list. A simulated load fills the restaurant list. A restaurant card leads to
  `/restaurants/<id>/menu`.
- **Restaurant card.** It shows the first three cuisines joined by " • ", with "..." when
  there are more. It shows a Sponsored badge. A click, or the Enter key, reports the card's id.
- **Restaurant menu page.** The Add button either adds an item directly or opens the
  customization dialog. The dialog's form needs a size and may carry extra toppings.
  A counter drives the cart badge. The avatar falls back to the first two letters of the restaurant's name, upper-cased.
- **Cart page.** It holds an ordered list of line items. Quantity changes below 1 are
  ignored. Removal filters by id. The subtotal, the delivery fee (2.99 on a non-empty cart),
  the 8% tax and the grand total are derived from the list.
- **Checkout page.** The form schema has three required fields; everything else is
  optional. Choosing "new" reveals the new-address form. A valid submit opens the "order
  placed" confirmation, which leads to the order tracking route.
- **Order tracking page.** A timer moves the order one step along CONFIRMED → PREPARING →
  OUT_FOR_DELIVERY → DELIVERED and stamps each new status. The progress value grows by 33,
  capped at 100.
- **Order status tracker.** For each step it derives the completed, active and future
  flags, the connector, the spinner and the timestamp shown.

Files and modules:

- `common.dfy`: `Optional` (an `Option` type) and `Seqs` (`indexOf`, `filter` by value,
  duplicate-freedom).
- `restaurant_card.dfy`: `Card`.
- `restaurant_listing.dfy`: `Listing`.
- `restaurant_menu.dfy`: `Menu`.
- `cart.dfy`: `Cart`.
- `checkout.dfy`: `Checkout`.
- `order_tracking.dfy`: `OrderTracking`.
- `status_tracker.dfy`: `StatusTracker`.

Modelling choices:

- Components with React state are classes. Their fields are the `useState` variables, and
  their methods are the handlers.
- Derived values and render-time decisions are functions.
- Money is exact (`real`), so amounts are never rounded.
- The clock is abstract: a timestamp is an opaque string passed in by the caller, and the
  timer callback is the method `Tick`.

Three behaviours of the code worth noting:

- **Timestamps.** The tracker shows a timestamp only when the entry is truthy, so an entry
  equal to "" is not shown.
- **Cancellation.** No code path cancels an order. CANCELLED only enters as the tracker's
  input, and the timer never arms for it.
- **Status titles.** `replace('_', ' ')` replaces only the first underscore, so the title
  reads "OUT FOR_DELIVERY".

## Model

| member | source | states |
|---|---|---|
| Seqs.IndexOf | src/pages/OrderTrackingPage.tsx:39 | -1 exactly when the value is absent; otherwise the position of its first occurrence |
| Seqs.RemoveAll | src/pages/RestaurantListingPage.tsx:55 | the result holds exactly the elements different from the value, and nothing new |
| Seqs.RemoveAllAppend | src/pages/RestaurantListingPage.tsx:55 | filtering distributes over concatenation (order is kept) |
| Seqs.RemoveAllAbsent | src/pages/RestaurantListingPage.tsx:55 | filtering out an absent value changes nothing |
| Seqs.RemoveAllIdempotent | src/pages/RestaurantListingPage.tsx:55 | filtering twice is filtering once |
| Seqs.RemoveAllNoDuplicates | src/pages/RestaurantListingPage.tsx:55 | filtering keeps a duplicate-free list duplicate-free |
| Card.Join | src/components/RestaurantCard.tsx:65 | joining no parts gives "", joining one part gives that part |
| Card.JoinAppend | src/components/RestaurantCard.tsx:65 | joining two non-empty lists puts exactly one separator between their joins |
| Card.JoinSplitsAt | src/components/RestaurantCard.tsx:65 | cutting the list anywhere cuts the joined string at one separator |
| Card.JoinLength | src/components/RestaurantCard.tsx:65 | the joined length is the parts' lengths plus one separator between each two |
| Card.ShownCuisines | src/components/RestaurantCard.tsx:65 | the shown cuisines are the first min(3, n), in order |
| Card.CuisineLabel | src/components/RestaurantCard.tsx:65 | empty list gives ""; up to three gives their join; more gives the first three joined plus "..." |
| Card.LabelDependsOnFirstFour | src/components/RestaurantCard.tsx:65 | cuisines after the fourth never change the line |
| Card.LabelShape | src/components/RestaurantCard.tsx:65 | with cuisines a, b, c, ... the line is "a • b • c", plus "..." when there are more |
| Card.OnClickArgument | src/components/RestaurantCard.tsx:35-45 | `onClick` gets the card's id exactly on a click or on the Enter key |
| Card.SponsoredBadgeShown | src/components/RestaurantCard.tsx:56 | the badge shows exactly when `isSponsored` is given as true (absent counts as false) |
| Listing.ToggleFilter | src/pages/RestaurantListingPage.tsx:53-56 | the clicked id's membership flips and no other id's changes; an absent id is appended at the end |
| Listing.ToggleKeepsNoDuplicates | src/pages/RestaurantListingPage.tsx:53-56 | a toggle keeps the active filters free of duplicates |
| Listing.ToggleTwiceRestoresMembership | src/pages/RestaurantListingPage.tsx:55 | two clicks on the same chip restore every id's membership |
| Listing.ClicksKeepNoDuplicates | src/pages/RestaurantListingPage.tsx:31-56 | no sequence of clicks starting from the empty list produces a duplicate |
| Listing.ClickingFreshIdsAppends | src/pages/RestaurantListingPage.tsx:53-56 | clicking distinct, inactive ids appends them in click order |
| Listing.EveryChipClickedOnce | src/pages/RestaurantListingPage.tsx:19-26 | the six chip ids are distinct, and clicking each once from none active activates all in display order |
| Listing.RestaurantPath | src/pages/RestaurantListingPage.tsx:61-64 | the route is "/restaurants/", the id, then "/menu" |
| Listing.RestaurantPathInjective | src/pages/RestaurantListingPage.tsx:63 | different restaurants lead to different routes |
| Listing.ChipClickFlipsOnlyThatChip | src/pages/RestaurantListingPage.tsx:106-112 | after a click the clicked chip's active state is flipped and every other chip's is unchanged |
| Listing.ChipActive | src/pages/RestaurantListingPage.tsx:111 | a chip is drawn active exactly when filtering its id out would change the active filters |
| Listing.LoadedListing | src/pages/RestaurantListingPage.tsx:13-17 | after the load, the first card reads "Pizza • Italian" and is sponsored, the second is not |
| Listing.RestaurantListingPage.constructor | src/pages/RestaurantListingPage.tsx:29-31 | the page starts loading, with no restaurants and no active chip; "Load More" is hidden |
| Listing.RestaurantListingPage.FinishLoading | src/pages/RestaurantListingPage.tsx:34-41 | the load sets the placeholder restaurants and ends loading, which shows "Load More" |
| Listing.RestaurantListingPage.HandleFilterClick | src/pages/RestaurantListingPage.tsx:53-59 | the active filters become their toggle and stay free of duplicates |
| Listing.RestaurantListingPage.HandleRestaurantClick | src/pages/RestaurantListingPage.tsx:61-64 | navigates to the restaurant's menu route |
| Listing.RestaurantListingPage.LoadMoreShown | src/pages/RestaurantListingPage.tsx:145 | "Load More" shows only when loading is over and restaurants were loaded; on a consistent page (nothing loaded while loading), exactly when the list is non-empty |
| Menu.CustomizationError | src/pages/RestaurantMenuPage.tsx:44-47 | the form passes exactly when the size is non-empty; otherwise the error reads "Please select a size" |
| Menu.EmptyCustomizationRejected | src/pages/RestaurantMenuPage.tsx:61 | the default (and reset) form does not pass |
| Menu.ToppingsIrrelevant | src/pages/RestaurantMenuPage.tsx:46 | toppings never decide whether the form passes |
| Menu.CheckTopping | src/pages/RestaurantMenuPage.tsx:200-216 | checking appends the topping to the list (absent counts as empty); unchecking is the list with every copy of the topping filtered out, the other toppings kept in order with their copies, and leaves an absent list absent; either way the other toppings are exactly as before |
| Menu.CheckToppingSetsOnlyThatBox | src/pages/RestaurantMenuPage.tsx:200-216 | after a change the box's drawn state equals the new value and the other box's drawn state is unchanged |
| Menu.ToppingChecked | src/pages/RestaurantMenuPage.tsx:201-211 | a box is drawn checked exactly when the topping list (absent counting as empty) holds it, and never when the list is absent |
| Menu.AddActionFor | src/pages/RestaurantMenuPage.tsx:147 | the Add button opens the dialog exactly for items with customizations |
| Menu.HasCustomizeHandler | src/pages/RestaurantMenuPage.tsx:148 | the customize handler is present exactly when Add opens the dialog |
| Menu.PlaceholderAddActions | src/pages/RestaurantMenuPage.tsx:29-39 | on the placeholder menu, Garlic Bread and Margherita open the dialog; Pepperoni and the cake are added directly |
| Menu.UpperAscii | src/pages/RestaurantMenuPage.tsx:119 | lower-case ASCII letters become upper-case, other characters are kept |
| Menu.AvatarFallback | src/pages/RestaurantMenuPage.tsx:119 | the fallback is the first two characters (fewer for short names), upper-cased |
| Menu.PizzaHeavenInitials | src/pages/RestaurantMenuPage.tsx:119 | "Pizza Heaven" falls back to "PI" |
| Menu.RestaurantMenuPage.constructor | src/pages/RestaurantMenuPage.tsx:55-62 | closed dialog, no item, count 0 (no badge), empty form |
| Menu.RestaurantMenuPage.CartBadgeShown | src/pages/RestaurantMenuPage.tsx:105 | the header badge shows exactly when some item was handed to the cart |
| Menu.RestaurantMenuPage.HandleAddToCart | src/pages/RestaurantMenuPage.tsx:70-74 | the counter grows by one, which shows the badge; the dialog and form are untouched |
| Menu.RestaurantMenuPage.HandleCustomizeItem | src/pages/RestaurantMenuPage.tsx:76-81 | remembers the item, resets the form and opens the dialog; nothing is added |
| Menu.RestaurantMenuPage.ClickAdd | src/pages/RestaurantMenuPage.tsx:147 | an item without customizations is added as is, showing the badge and leaving the dialog, form and current item alone; one with customizations opens a fresh dialog instead |
| Menu.RestaurantMenuPage.OnCustomizationSubmit | src/pages/RestaurantMenuPage.tsx:83-89 | the current item, if any, is added with the submitted data; the dialog closes either way |
| Menu.RestaurantMenuPage.SubmitCustomization | src/pages/RestaurantMenuPage.tsx:167 | a form without a size adds nothing and keeps the dialog; a valid form adds the item with it and closes; the form and current item are kept either way |
| Menu.RestaurantMenuPage.SelectSize | src/pages/RestaurantMenuPage.tsx:170-189 | only the form's size changes |
| Menu.RestaurantMenuPage.ToggleTopping | src/pages/RestaurantMenuPage.tsx:194-221 | only the form's toppings change, as the checkbox handler says |
| Menu.RestaurantMenuPage.CloseDialog | src/pages/RestaurantMenuPage.tsx:224 | the dialog closes; nothing else changes |
| Cart.WithQuantity | src/pages/CartPage.tsx:38-40 | same length; items with the id get the new quantity, all others are kept |
| Cart.QuantityChanged | src/pages/CartPage.tsx:36-40 | a quantity below 1 changes nothing; otherwise only the quantities of lines with that id change |
| Cart.RemoveItem | src/pages/CartPage.tsx:44-46 | the result holds exactly the lines with another id, and nothing new |
| Cart.RemoveItemAppend | src/pages/CartPage.tsx:45 | removal keeps the surviving lines in order |
| Cart.RemoveAbsentItem | src/pages/CartPage.tsx:45 | removing an id no line carries changes nothing |
| Cart.RemoveItemIdempotent | src/pages/CartPage.tsx:44-47 | removing the same id twice is removing it once |
| Cart.QuantityChangeKeepsPositive | src/pages/CartPage.tsx:36-40 | no quantity change brings a quantity below 1 |
| Cart.ButtonsKeepPositive | src/pages/CartPage.tsx:95-101 | the minus and plus buttons keep quantities at least 1, and minus on quantity 1 changes nothing |
| Cart.Subtotal | src/pages/CartPage.tsx:54 | the empty cart's subtotal is 0; with non-negative prices and positive quantities it is non-negative |
| Cart.SubtotalAppend | src/pages/CartPage.tsx:54 | the subtotal of two lists laid end to end is the sum of their subtotals |
| Cart.SubtotalFirst | src/pages/CartPage.tsx:54 | the left fold equals the sum taken from the first line on |
| Cart.SubtotalAfterRemove | src/pages/CartPage.tsx:44-54 | removing an id takes exactly the lines carrying it off the subtotal |
| Cart.SubtotalAfterQuantityChange | src/pages/CartPage.tsx:36-54 | after a change, the subtotal is the untouched lines' subtotal plus the changed lines' |
| Cart.SubtotalWithQuantity | src/pages/CartPage.tsx:38-54 | the same split for the mapped list, at any quantity |
| Cart.UniqueLineQuantityChange | src/pages/CartPage.tsx:36-57 | on a line whose id is unique, the subtotal moves by exactly the new line total minus the old one |
| Cart.CartTotals | src/pages/CartPage.tsx:54-57 | the fee is 2.99 exactly on a non-empty cart; taxes are 8% of the subtotal; grand total = subtotal + fee + taxes (= subtotal × 1.08 + fee); the empty cart is all zeros |
| Cart.InitialCartTotals | src/pages/CartPage.tsx:21-24 | the starting cart gives 24.97, 2.99, 1.9976, 29.9576; checkout is enabled |
| Cart.CheckoutDisabled | src/pages/CartPage.tsx:173 | checkout is disabled exactly when no delivery fee is charged, and then every total is 0 |
| Cart.CheckoutDisabledAfterRemove | src/pages/CartPage.tsx:44-47 | removing an id disables the checkout button (line 173) exactly when every line carried that id |
| Cart.QuantityChangeKeepsCheckoutState | src/pages/CartPage.tsx:36-42 | a quantity change never enables or disables the checkout button (line 173) |
| Cart.CartPage.constructor | src/pages/CartPage.tsx:27 | the page starts with the two starting lines |
| Cart.CartPage.HandleQuantityChange | src/pages/CartPage.tsx:36-42 | a quantity below 1 changes nothing; otherwise lines with the id take it; quantities stay at least 1 |
| Cart.CartPage.DecrementAt | src/pages/CartPage.tsx:95 | the minus button sets the line's quantity one lower, never below 1 |
| Cart.CartPage.IncrementAt | src/pages/CartPage.tsx:99 | the plus button sets the line's quantity one higher |
| Cart.CartPage.HandleRemoveItem | src/pages/CartPage.tsx:44-47 | the list becomes its filter by id |
| Cart.CartPage.ProceedToCheckout | src/pages/CartPage.tsx:170-173 | "Proceed to Checkout" leads to "/checkout", and does nothing exactly when the cart is empty (no delivery fee) |
| Checkout.FieldErrors | src/pages/CheckoutPage.tsx:18-29 | each required field has an error exactly when it fails, with the schema's message |
| Checkout.ValidIff | src/pages/CheckoutPage.tsx:18-29 | the form passes exactly with an address, a payment method and the terms agreed |
| Checkout.OptionalFieldsIrrelevant | src/pages/CheckoutPage.tsx:20-28 | new-address, card and contactless fields never change the errors |
| Checkout.CardDetailsNotRequired | src/pages/CheckoutPage.tsx:24-26 | a card payment with no card details passes, while the card fields are shown |
| Checkout.CardDetailsShown | src/pages/CheckoutPage.tsx:155 | the card fields show exactly for the "card" method; then validity depends only on the address and the terms, and clearing the card fields changes no error |
| Checkout.AnyPaymentMethodAccepted | src/pages/CheckoutPage.tsx:23 | any non-empty payment method passes |
| Checkout.DefaultFormInvalid | src/pages/CheckoutPage.tsx:44-49 | the untouched form fails on all three required fields |
| Checkout.SummaryMatchesStartingCart | src/pages/CheckoutPage.tsx:184-191 | the literal summary figures are the starting cart's totals to within half a cent |
| Checkout.CheckoutPage.constructor | src/pages/CheckoutPage.tsx:39-50 | default form, both dialogs closed, no navigation |
| Checkout.CheckoutPage.Edit | src/pages/CheckoutPage.tsx:52-61 | the new-address form shows exactly when the selected address is "new" |
| Checkout.CheckoutPage.Submit | src/pages/CheckoutPage.tsx:63-67 | the schema's errors are returned; only a valid form opens the confirmation |
| Checkout.CheckoutPage.HandleAlertConfirm | src/pages/CheckoutPage.tsx:69-72 | the confirmation closes and the page navigates to the tracking route |
| StatusTracker.ActiveStatuses | src/components/OrderStatusTracker.tsx:33-39 | a cancelled order shows only the cancelled step; otherwise the given steps, defaulting to the four standard ones |
| StatusTracker.CurrentStatusIndex | src/components/OrderStatusTracker.tsx:40 | -1 exactly when no step has the key; otherwise the first step that has it |
| StatusTracker.Render | src/components/OrderStatusTracker.tsx:44-78 | one view per step in order; connector exactly between steps when not cancelled; spinner exactly on an active step other than DELIVERED or CANCELLED; timestamp exactly for a non-empty entry |
| StatusTracker.ViewStep | src/components/OrderStatusTracker.tsx:44-78 | one step's view: its key and caption; active exactly at the current key; never both completed and future; when cancelled, only the CANCELLED step is completed and none is future; otherwise completed before and future after the current position, and every step is future when the current key is missing; connector, spinner and timestamp as for the whole tracker |
| StatusTracker.CancelledShowsOneFinishedStep | src/components/OrderStatusTracker.tsx:39-68 | a cancelled order shows only "Order Cancelled", completed and active, not future, with no connector and no spinner |
| StatusTracker.PresentKeyPartition | src/components/OrderStatusTracker.tsx:45-47 | with distinct keys and the key present, steps before it are completed, it is active, steps after are future |
| StatusTracker.AbsentKeyAllFuture | src/components/OrderStatusTracker.tsx:45-47 | a key missing from the steps makes every step future and none completed or active |
| StatusTracker.PendingShowsDefaultStepsAsFuture | src/components/OrderStatusTracker.tsx:14-22 | PENDING shows the four standard steps, all future |
| OrderTracking.Ranks | src/pages/OrderTrackingPage.tsx:38-39 | the chain order is CONFIRMED 0 < PREPARING 1 < OUT_FOR_DELIVERY 2 < DELIVERED 3; PENDING and CANCELLED are off it |
| OrderTracking.NextStatus | src/pages/OrderTrackingPage.tsx:38-43 | the timer arms exactly for CONFIRMED, PREPARING and OUT_FOR_DELIVERY, and moves one step along the chain |
| OrderTracking.BumpProgress | src/pages/OrderTrackingPage.tsx:52 | never above 100, never below the old value up to 100, +33 while that stays under 100, and exactly 100 once old value + 33 reaches 100 |
| OrderTracking.Advance | src/pages/OrderTrackingPage.tsx:41-51 | an unarmed order is unchanged; otherwise only the status moves to the next one and it is stamped; no stamp is lost; rank never drops |
| OrderTracking.FixedPointsStay | src/pages/OrderTrackingPage.tsx:41 | DELIVERED, PENDING and CANCELLED never change however often the timer fires |
| OrderTracking.AdvanceAllMonotone | src/pages/OrderTrackingPage.tsx:41-51 | over any number of firings the status never moves back and no stamp is lost |
| OrderTracking.SampleReachesDelivered | src/pages/OrderTrackingPage.tsx:11-53 | the sample order reaches DELIVERED in two firings with all four stamps, then stays; the rating button appears then and not before |
| OrderTracking.RateButtonShown | src/pages/OrderTrackingPage.tsx:129 | the rating button shows exactly at the last status of the chain, where the timer no longer arms |
| OrderTracking.ConfirmedReachesDeliveredInThree | src/pages/OrderTrackingPage.tsx:38-51 | from CONFIRMED, two firings reach OUT_FOR_DELIVERY and three reach DELIVERED |
| OrderTracking.OrderTotal | src/pages/OrderTrackingPage.tsx:59 | an order without items totals 0 |
| OrderTracking.AsCartLines | src/pages/OrderTrackingPage.tsx:14-16 | each ordered item becomes the cart line with the same name, price and quantity, in order |
| OrderTracking.OrderTotalIsCartSubtotal | src/pages/OrderTrackingPage.tsx:59 | for every item list, the order total equals the cart subtotal of the same lines |
| OrderTracking.SampleOrderTotal | src/pages/OrderTrackingPage.tsx:13-17 | the sample items total 24.97, not the stored 29.96 |
| OrderTracking.SampleOrderMatchesCart | src/pages/OrderTrackingPage.tsx:13-17 | the sample items total the starting cart's subtotal, and the stored 29.96 is its grand total to within half a cent |
| OrderTracking.ShortId | src/pages/OrderTrackingPage.tsx:69 | the header shows the id's last six characters, or the whole id when shorter |
| OrderTracking.ReplaceFirstUnderscore | src/pages/OrderTrackingPage.tsx:77 | the title has the key's length, and a key without underscores is shown as is |
| OrderTracking.ReplaceAtFirstUnderscore | src/pages/OrderTrackingPage.tsx:77 | only the first underscore becomes a space; the rest is kept verbatim |
| OrderTracking.OutForDeliveryTitle | src/pages/OrderTrackingPage.tsx:77 | OUT_FOR_DELIVERY is titled "OUT FOR_DELIVERY" |
| OrderTracking.StatusTitle | src/pages/OrderTrackingPage.tsx:77 | OUT_FOR_DELIVERY is titled "OUT FOR_DELIVERY"; every other status is titled by its key name unchanged |
| OrderTracking.KeysWithoutUnderscore | src/pages/OrderTrackingPage.tsx:77 | OUT_FOR_DELIVERY is the only key name with an underscore |
| OrderTracking.SampleHeader | src/pages/OrderTrackingPage.tsx:69 | the sample order's header reads "er-124" |
| OrderTracking.OrderTrackingPage.constructor | src/pages/OrderTrackingPage.tsx:30-31 | the page starts with the sample order and progress 33 |
| OrderTracking.OrderTrackingPage.Tick | src/pages/OrderTrackingPage.tsx:38-53 | the order advances one step; progress bumps only when the timer was armed, stays within 33..100 and never falls |

## Left out

- Images, icons, colours, layout and every other part of the JSX that only draws.
- The back buttons of the menu, cart and checkout pages (`navigate(-1)`), the tracking page's back button (`navigate('/')`), the menu header's cart button and the floating "View Cart" button (`navigate('/cart')`), the listing header's links to `/`, `/cart` and a sample tracking page, and the terms link of the checkout page: they only navigate. "Proceed to Checkout" is modelled as `Cart.CartPage.ProceedToCheckout`.
- Console logging, the promo-code "Apply" button, "Load More", "Contact Support" and "Rate Your Order": clicking each only logs. When "Load More" and "Rate Your Order" are drawn is modelled (`Listing.RestaurantListingPage.LoadMoreShown`, `OrderTracking.RateButtonShown`).
- The location search bar and the current-location button of the listing page: they only log.
- Timer delays (1.5 s for the listing, 15 s for tracking) and the effect cleanup that clears a pending timer: a firing is a call to `FinishLoading` or `Tick`, so cancellation by cleanup is not modelled.
- `Date.now()` and `toLocaleTimeString()`: timestamps are opaque strings supplied by the caller.
- `toFixed(2)` and `toFixed(1)` display rounding: amounts are exact reals.
- JavaScript floating point: prices are exact decimals, so the model does not show binary rounding of sums such as 12.99 + 11.98.
- Topping surcharges (+$1.00, +$0.50): they are labels only and never reach a price.
- The promo-code and special-instruction inputs of the cart and the saved-address list of the checkout page: plain controlled inputs with no logic.
- The restaurant fetched by the menu page: it is always the placeholder, so the "Loading restaurant menu..." branch before the effect runs is not modelled.
- The `Separator` component in the order-details card of the tracking page is used without an import; rendering is not modelled, so this is not captured.
- Dialog and alert `onOpenChange` closes other than the Cancel button: they are `CloseDialog` and the confirmation's close in effect, and the alert's close without confirming is not modelled.
- Menu.UpperAscii: `toUpperCase` is modelled on the letters a to z only; other Unicode case mappings are not captured.
- Strings are sequences of Unicode characters, while `slice(-6)` (`OrderTracking.ShortId`) and `substring(0, 2)` (`Menu.AvatarFallback`) count UTF-16 code units; the two differ only for characters outside the Basic Multilingual Plane.
- Menu.MenuItem: `hasCustomizations` is optional in the item type but always set in the data, so it is a plain bool.
- OrderTracking.ReplaceFirstUnderscore: its own contract states the length and the no-underscore case; where the space goes is stated by `ReplaceAtFirstUnderscore`.
- StatusTracker.PresentKeyPartition: requires distinct step keys. With a repeated key, the first occurrence is the index and a later copy is both active and future.
- StatusTracker.Render: the timestamp is shown only for a non-empty entry, since an empty string is falsy. This is narrower than "shown whenever the map has an entry".
- Cart.SubtotalAfterQuantityChange: states the new subtotal as a sum of line totals, not as a product of the new quantity with the summed unit prices.
