# Verdant Leaf storefront — a Dafny model of its cart, checkout and sign-in logic

Verdant Leaf is a mobile-first web storefront for a tea brand, written in React and
TypeScript, with no backend. This project models the logic behind its screens and proves
properties of it:

- **The cart ledger** kept by `App.tsx`. A cart is a list of lines. Each line is keyed by
  (tea id, pack size) and holds a quantity and the unit price locked in when the line was
  created.
  - `addToCart` bumps an existing line or appends a new one.
  - `removeFromCart` filters a key out.
  - `updateQuantity` adjusts a key and drops the lines that reach zero.
  - `clearCart` and `handleLogout` empty the cart.

  Every one of these keeps the ledger invariant: keys are unique and every quantity is at
  least 1. Under every sequence of operations, each key's quantity behaves like the counter
  `KeyRun`. `cartCount`, the floating bag bar and `addOrder` (order history plus loyalty
  points) are modelled on top of the ledger.
- **The bag page** (`pages/Cart.tsx`). Its bill uses the locked prices. Its empty view and
  its `-`, `+` and `Delete` buttons are modelled as the ledger operations they dispatch.
- **The checkout** (`pages/Checkout.tsx`). It has three steps: address, summary and
  payment. Its bill is computed from each line's *base* price (`item.price`, the 250g
  price), not from the locked price. So a bag with 500g or 1kg packs is billed less at
  checkout than on the bag page. `KiloPackExample` shows one 1kg pack of Dragon Well with a
  subtotal of ₹5096.60 on the bag page and ₹1499 at checkout. A successful payment places an order with
  a `VL-` id of six digits, earns loyalty points, and empties the bag.
- **The product page** (`pages/ProductDetail.tsx`).
  - Lookup by route id.
  - Pack prices: 500g is two packs less 10%, 1kg is four packs less 15%.
  - The price per gram, rounded as `toFixed(2)` rounds.
  - "Add to Bag" adds one pack whatever the quantity stepper shows.
- **The sign-in screen** (`pages/Login.tsx`).
  - Ten-digit mobile entry.
  - A six-digit code is issued and stored.
  - Six one-character slots are guarded by `isNaN(Number(value))`. The `Number` grammar is
    modelled after section 7.1.4.1.1 of the ECMAScript language specification.
  - A resend countdown.
  - Verification accepts *any* six filled slots and never compares them with the issued
    code.
- **The shop page.** Category filtering (`pages/Shop.tsx`).
- **The bottom tab bar.** Active tab and cart badge (`components/BottomNav.tsx`).

Money is an exact `real`. Random draws (`Math.random()`) and the current date are
parameters. Of the timers, only the resend countdown of the sign-in screen is modelled, as the
`Tick` method. Navigation decisions are predicates on the state they test: the path for the tab
bar and the floating bag bar, the bag and the step for the checkout's redirect.

Two behaviours of the code are worth knowing before reading the lemmas:

- **A key's quantity is not the floored sum of the deltas applied to it.**
  - An adjustment of a key that is not in the cart does nothing, whatever the delta
    (`UpdateDoesNotCreate`).
  - A removal resets the key to zero.

  `KeyStep` states the rule the code follows.
- **Six blank slots sign in.** The slot handler lets white space through as well as digits
  (`Number(" ")` is 0). Verification only counts the characters, so six spaces sign in
  (`BlankKeystrokeFillsSlot`, `Login.LoginScreen.VerifyOtp`).

Modules follow the source files:

| module | source |
|---|---|
| `Types` | `types.ts` |
| `Catalog` | `constants.ts` |
| `CartLedger` and `App` | `App.tsx` |
| `Pricing` | the shared bill rule |
| `CartPage` | `pages/Cart.tsx` |
| `CheckoutPage` | `pages/Checkout.tsx` |
| `ProductDetail` | `pages/ProductDetail.tsx` |
| `Login` and `JsNumber` | `pages/Login.tsx` |
| `Shop` | `pages/Shop.tsx` |
| `BottomNav` | `components/BottomNav.tsx` |

`Seqs` and `Text` stand in for the JavaScript array and string built-ins. State that a
component updates in place is a `class`:
- `App.Store` is the state of `AppContent`;
- `ProductDetail.ProductPage`, `CheckoutPage.Checkout` and `Login.LoginScreen` are the
  state of those pages.

## Model

| member | source | states |
|---|---|---|
| CartLedger.SelectedPrice | App.tsx:113 | `price \|\| tea.price`: the explicit price unless it is absent or 0 (which JavaScript treats as false), and then the tea's base price |
| CartLedger.AddLine | App.tsx:110-123 | afterwards a line with the key exists, and the cart has one more line exactly when the key was new; `AddLineEffect` gives the exact new cart |
| CartLedger.RemoveLines | App.tsx:127 | no line with the key is left and no line is added; `RemoveLinesEffect` gives the exact new cart |
| CartLedger.UpdateQuantity | App.tsx:131-139 | every line left has a positive quantity and no line is added; `UpdateQuantityEffect` gives the exact new cart |
| CartLedger.FindLine | App.tsx:112 | `prev.find` as a position: the line it returns matches the key and no earlier line does; when nothing is returned, no line matches |
| CartLedger.FindLineIs | App.tsx:112 | the first matching position (or its absence) is the unique answer of the lookup |
| CartLedger.AddLineEffect | App.tsx:109-124 | a new key is appended as one pack at `price \|\| tea.price`; an existing key gains exactly one pack on its own line, keeps its locked price, and nothing else changes |
| CartLedger.AddLineWellFormed | App.tsx:109-124 | `addToCart` keeps keys unique and every quantity at least 1 |
| CartLedger.AddLineTotals | App.tsx:109-124 | `addToCart` raises the pack count by exactly 1 and the locked-price value by the unit price of the line that receives the pack |
| CartLedger.RemoveLinesEffect | App.tsx:126-128 | removing an absent key (or passing no size) changes nothing; removing a present key deletes exactly its line and keeps the others in order |
| CartLedger.RemoveLinesWellFormed | App.tsx:126-128 | `removeFromCart` keeps the ledger invariant |
| CartLedger.DeleteAtWellFormed | App.tsx:127 | deleting one line of a well-formed cart leaves a well-formed cart |
| CartLedger.UpdateQuantityAbsent | App.tsx:130-140 | adjusting a key that is not in a well-formed cart changes nothing |
| CartLedger.UpdateQuantityPresent | App.tsx:130-140 | adjusting a present key sets its quantity to old + delta in place, or deletes its line when that is not positive; no other line changes |
| CartLedger.UpdateQuantityEffect | App.tsx:130-140 | both cases of `updateQuantity` on a well-formed cart, for every key |
| CartLedger.UpdateQuantityWellFormed | App.tsx:130-140 | `updateQuantity` keeps the ledger invariant, whatever the delta |
| CartLedger.ItemCount | App.tsx:152 | the sum of the quantities; `ItemCountCoversLines` bounds it by the number of lines, and `AddLineTotals` and the button lemmas of the bag page give its change under each operation |
| CartLedger.SelectedValue | pages/Cart.tsx:14 | the sum of locked price times quantity; `AddLineTotals` gives its change under `addToCart`, and `CheckoutSubtotalAtMostBag` compares it with the checkout subtotal |
| CartLedger.BaseValue | pages/Checkout.tsx:31 | the sum of base price times quantity; `BaseValueNonNegative`, `BillsAgreeAtBasePrice` and `CheckoutSubtotalAtMostBag` characterise it |
| CartLedger.ItemCountCoversLines | App.tsx:152 | on a well-formed cart the pack count is at least the number of lines, so it is 0 exactly when the cart is empty |
| CartLedger.QuantityAt | App.tsx:112 | with unique keys, a line's quantity is its key's quantity |
| CartLedger.QuantityAfterReplace | App.tsx:116-120 | replacing one line by one with the same key changes only that key's quantity |
| CartLedger.QuantityAfterDelete | App.tsx:138 | deleting a line sets its key to 0 and leaves every other key's quantity alone |
| CartLedger.QuantityAfterAppend | App.tsx:122 | appending a line with a new key gives that key the line's quantity and changes no other key |
| CartLedger.ApplyWellFormed | App.tsx:109-142 | every cart operation (add, remove, adjust, clear) keeps the ledger invariant |
| CartLedger.AddQuantity | App.tsx:109-124 | `addToCart` counts its key up by one and leaves every other key alone |
| CartLedger.RemoveQuantity | App.tsx:126-128 | `removeFromCart` resets its key to 0 and leaves every other key alone |
| CartLedger.UpdateQuantityQuantity | App.tsx:130-140 | `updateQuantity` adds delta to a present key, floored at 0; it leaves an absent key at 0 and other keys alone |
| CartLedger.ApplyQuantity | App.tsx:109-142 | each operation moves every key's quantity as the counter step `KeyStep` says |
| CartLedger.RunLedger | App.tsx:109-142 | any sequence of operations keeps the invariant, and leaves each key's quantity equal to the counter run over the same operations |
| CartLedger.FromEmptyCart | App.tsx:62-65 | from the empty cart, every reachable cart is well formed and each key's quantity is the counter run from 0 |
| CartLedger.UpdateDoesNotCreate | App.tsx:133 | an adjustment of a key that is not in the cart never creates it, whatever the delta |
| App.LoyaltyAward | App.tsx:148 | `Math.floor(subtotal / 10)`: 10·r ≤ subtotal < 10·r + 10, and never negative for a non-negative subtotal |
| App.UserId | App.tsx:96 | `USER-` followed by the last five characters of the mobile number (all of it when shorter) |
| App.CartBar | App.tsx:28-33 | when the bar shows, it shows the pack count and the bag's value at locked prices |
| App.CartBarVisibility | App.tsx:33 | on a well-formed cart, the bar shows exactly when the cart has a line and the path is neither `/cart` nor `/checkout` |
| App.Store.constructor | App.tsx:60-73 | first visit: logged out, no user id, empty cart, no orders, 1250 points |
| App.Store.CartCount | App.tsx:152 | `cartCount` is the pack count; on a valid store it is at least the number of lines and 0 exactly when the cart is empty |
| App.Store.Login | App.tsx:92-99 | logs in and records the mobile number and the user id derived from it |
| App.Store.Logout | App.tsx:101-107 | logs out and empties the cart, keeping the ledger invariant |
| App.Store.AddToCart | App.tsx:109-124 | the cart becomes the `addToCart` update (size defaults to 250g, price to the tea's); the invariant is kept, one pack is added and its unit price added to the value |
| App.Store.RemoveFromCart | App.tsx:126-128 | the cart becomes the `removeFromCart` update; the invariant is kept |
| App.Store.UpdateQuantity | App.tsx:130-140 | the cart becomes the `updateQuantity` update; the invariant is kept |
| App.Store.ClearCart | App.tsx:142 | the cart becomes empty |
| App.Store.AddOrder | App.tsx:144-150 | the order is put first in the history, and the points grow by the loyalty award for its subtotal |
| Pricing.Quote | pages/Cart.tsx:14-17 | shipping is 0 exactly above ₹499 and ₹50 otherwise; GST is 18% of the subtotal; the total is the sum of the three |
| Pricing.QuoteBounds | pages/Cart.tsx:15-17 | for a non-negative subtotal, 1.18·subtotal ≤ total ≤ 1.18·subtotal + 50 |
| Pricing.QuoteMonotoneOnEachSide | pages/Cart.tsx:15-17 | on each side of the free-shipping threshold, the total grows with the subtotal |
| Pricing.FreeShippingCliff | pages/Cart.tsx:15 | at the threshold the bill drops: ₹499 costs ₹638.82, ₹500 costs ₹590 |
| CartPage.Render | pages/Cart.tsx:14-31 | the empty-bag view exactly for an empty cart; otherwise the lines and the bill `Quote` gives for their value at locked prices (shipping, GST and total included) |
| CartPage.EmptyViewIffNoPacks | pages/Cart.tsx:19 | on a well-formed cart, the empty view appears exactly when the bag holds no packs, matching the floating bar |
| CartPage.MinusButton | pages/Cart.tsx:59 | the `-` button dispatches `updateQuantity(id, -1, size)` for its line; `MinusButtonEffect` gives its effect |
| CartPage.PlusButton | pages/Cart.tsx:61 | the `+` button dispatches `updateQuantity(id, 1, size)` for its line; `PlusButtonEffect` gives its effect |
| CartPage.DeleteButton | pages/Cart.tsx:63 | the `Delete` button dispatches `removeFromCart(id, size)` for its line; `DeleteButtonEffect` gives its effect |
| CartPage.MinusButtonEffect | pages/Cart.tsx:59 | `-` takes one pack off its own line, or deletes the line when it held one pack; the count drops by 1 |
| CartPage.PlusButtonEffect | pages/Cart.tsx:61 | `+` adds one pack to its own line; the count rises by 1 |
| CartPage.DeleteButtonEffect | pages/Cart.tsx:63 | `Delete` removes exactly that line; the count drops by its quantity |
| ProductDetail.FindTea | pages/ProductDetail.tsx:17 | the tea found has the route id and is in the catalog; nothing is found exactly when no tea has that id; when several teas have the id, the first of them is found |
| ProductDetail.FindInCatalog | pages/ProductDetail.tsx:17 | a lookup in the four-tea catalog, for every id: ids "1" to "4" find their tea, any other id nothing |
| ProductDetail.CatalogLookup | constants.ts:4-92 | ids "1" to "4" find Dragon Well, Golden Needle, Silver Needle and Iron Goddess; every other id finds nothing |
| ProductDetail.PackPrice | pages/ProductDetail.tsx:25-30 | 0 without a tea; otherwise the base price for 250g, 1.8 times it for 500g, 3.4 times it for 1kg |
| ProductDetail.Weight | pages/ProductDetail.tsx:33 | every pack weighs a positive number of grams |
| ProductDetail.PricePerGram | pages/ProductDetail.tsx:32-35 | the price of one gram: times the pack's weight it gives back the pack price, and it is never negative for a non-negative price |
| ProductDetail.PerGramPaise | pages/ProductDetail.tsx:32-35 | `toFixed(2)` of the per-gram price, in paise: within half a paisa of the exact value, ties rounded away from zero (up for a non-negative price) |
| ProductDetail.BulkIsCheaperPerGram | pages/ProductDetail.tsx:25-35 | for a priced tea, each larger pack is strictly cheaper per gram |
| ProductDetail.PackPriceAtLeastBase | pages/ProductDetail.tsx:25-30 | no pack costs less than the base price |
| ProductDetail.PackPriceIsLocked | pages/ProductDetail.tsx:146 | the price passed to `addToCart` is the price the new line is locked at: the `\|\|` fallback never changes it |
| ProductDetail.ProductPage.constructor | pages/ProductDetail.tsx:12-17 | the page shows the tea with the route id (or none), the 250g pack and a stepper at 1 |
| ProductDetail.ProductPage.NotFound | pages/ProductDetail.tsx:37-42 | the "Tea Not Found" view shows exactly when the lookup found nothing; `FindTea` says when that is |
| ProductDetail.ProductPage.CurrentPrice | pages/ProductDetail.tsx:25-30 | the displayed price is the selected pack's price, at least the base price |
| ProductDetail.ProductPage.SelectSize | pages/ProductDetail.tsx:98 | a size button selects that size |
| ProductDetail.ProductPage.Decrement | pages/ProductDetail.tsx:141 | `Math.max(1, q - 1)`: the stepper never goes below 1 |
| ProductDetail.ProductPage.Increment | pages/ProductDetail.tsx:143 | the stepper counts up by one |
| ProductDetail.ProductPage.AddToBag | pages/ProductDetail.tsx:146 | one pack of the selected size at the current price is added to the bag whatever the stepper shows; that key's quantity and the count rise by exactly 1 |
| CheckoutPage.CheckoutTotals | pages/Checkout.tsx:31-34 | the checkout subtotal is the bag's value at base prices, with the same shipping, GST and total rules |
| CheckoutPage.BillsAgreeAtBasePrice | pages/Checkout.tsx:31 | when every line is locked at its base price, checkout and bag page bill the same |
| CheckoutPage.CheckoutSubtotalAtMostBag | pages/Checkout.tsx:31 | when every line is locked at no less than its base price, the checkout subtotal is at most the bag page's |
| CheckoutPage.KiloPackExample | pages/Checkout.tsx:31 | one 1kg pack of Dragon Well: a subtotal of ₹5096.60 on the bag page, ₹1499 at checkout |
| CheckoutPage.WithField | pages/Checkout.tsx:105-125 | typing into an input sets the field it is bound to and keeps the other five inputs, the address type and the `state` field |
| CheckoutPage.FillingEveryFieldEnables | pages/Checkout.tsx:105-125 | once all six required inputs are non-empty, the form can be submitted |
| CheckoutPage.OrderNumber | pages/Checkout.tsx:56 | `Math.floor(Math.random() * 900000) + 100000` lies in 100000..999999 |
| CheckoutPage.OrderId | pages/Checkout.tsx:56 | the order id is `VL-` followed by six digits spelling the order number |
| CheckoutPage.BuildOrder | pages/Checkout.tsx:55-66 | the placed order copies the bag, address, method and date; it has status Processing and carries the checkout bill |
| CheckoutPage.BaseValueNonNegative | pages/Checkout.tsx:31 | non-negative prices and quantities give a non-negative checkout subtotal |
| CheckoutPage.PlacedOrderBill | pages/Checkout.tsx:55-68 | a placed order's total is subtotal + shipping + GST; its subtotal is non-negative, so it never takes points away |
| CheckoutPage.RedirectsToShop | pages/Checkout.tsx:74-77 | the page sends the shopper to the shop exactly when the bag is empty before the payment step; `HandlePayment` proves a successful payment never triggers it |
| CheckoutPage.Checkout.constructor | pages/Checkout.tsx:14-29 | step 1, no error, an empty Home address, UPI selected |
| CheckoutPage.Checkout.EditAddress | pages/Checkout.tsx:105-125 | an input change updates that field; the `state` field stays empty |
| CheckoutPage.Checkout.SetAddressType | pages/Checkout.tsx:130-131 | Home / Office sets the address type only |
| CheckoutPage.Checkout.SubmitAddress | pages/Checkout.tsx:36-39 | the form moves to step 2 exactly when every required input is filled, else stays on step 1 |
| CheckoutPage.Checkout.BackToAddress | pages/Checkout.tsx:185 | step 2's Back returns to step 1 |
| CheckoutPage.Checkout.ProceedToPayment | pages/Checkout.tsx:188 | step 2 moves on to step 3 |
| CheckoutPage.Checkout.BackToSummary | pages/Checkout.tsx:227 | step 3's Back returns to step 2 |
| CheckoutPage.Checkout.SelectPaymentMethod | pages/Checkout.tsx:216 | a method button selects that method |
| CheckoutPage.Checkout.HandlePayment | pages/Checkout.tsx:41-72 | a draw below 0.1 shows the gateway error and changes nothing else; otherwise the order for the bag goes first in the history, its points are added and the bag is emptied; the ledger invariant holds and the page does not redirect to the shop |
| JsNumber.IsNaN | pages/Login.tsx:73 | `isNaN(Number(v))`: after trimming white space, `v` is neither empty nor a `0x`/`0o`/`0b` integer nor a decimal literal; `SingleCharacterNumber` and `NaNOfUnpadded` characterise it |
| JsNumber.SingleCharacterNumber | pages/Login.tsx:73-75 | a one-character keystroke gets into a slot exactly when `Number` reads it, that is, for a digit or white space; the empty string is a number |
| JsNumber.NaNOfUnpadded | pages/Login.tsx:73 | unpadded text is a number exactly when it is a `0x`/`0o`/`0b` integer or a decimal literal |
| JsNumber.InfinityIsNumber | pages/Login.tsx:73 | the pasted text `Infinity` passes the guard |
| JsNumber.DashIsNaN | pages/Login.tsx:73 | the pasted text `12-34` is rejected by the guard |
| Text.JoinShortParts | pages/Login.tsx:90-92 | for slots of at most one character, the joined code has length 6 exactly when every slot is filled |
| Login.MobileInput | pages/Login.tsx:145-149 | the mobile field holds at most ten characters, all digits, taken in order from the first ten characters typed, and every digit among those is kept |
| Login.DigitsTypedAreKept | pages/Login.tsx:149 | typing up to ten digits keeps exactly those digits |
| Login.GenerateOtp | pages/Login.tsx:39 | the issued code's number lies in 100000..999999 |
| Login.IssuedCode | pages/Login.tsx:39 | the stored code is six digits spelling the drawn number |
| Login.BlankKeystrokeFillsSlot | pages/Login.tsx:73-75 | a space passes the guard and fills a slot with a character that is not a digit |
| Login.LoginScreen.constructor | pages/Login.tsx:9-14 | mobile step, empty number, six blank slots, timer at 30, no error, no issued code |
| Login.LoginScreen.TypeMobile | pages/Login.tsx:145-149 | the mobile field becomes the digits of the first ten characters typed |
| Login.LoginScreen.SendOtp | pages/Login.tsx:51-70 | any number other than ten digits shows the error and stays put; ten digits issue a fresh six-digit code and open the code step with blank slots, timer at 30 and no error |
| Login.LoginScreen.OtpChange | pages/Login.tsx:72-76 | a value `Number` rejects changes nothing; otherwise only that slot changes, to the value's last character (empty for an empty value) |
| Login.LoginScreen.VerifyOtp | pages/Login.tsx:89-114 | signs in exactly when all six slots are filled, whatever code was issued; it then clears the error and the stored code and logs the store in with the typed number; otherwise nothing changes |
| Login.LoginScreen.Tick | pages/Login.tsx:19-25 | the countdown drops by one each second on the code step until 0 |
| Login.LoginScreen.ResendOtp | pages/Login.tsx:116-122 | a no-op while the countdown runs; at 0 it blanks the slots, restarts the countdown, clears the error and issues a fresh code |
| Login.LoginScreen.ChangeNumber | pages/Login.tsx:172-176 | back to the mobile step; the stored code is removed and the error cleared |
| Shop.Categories | pages/Shop.tsx:13 | `All` first, then every category once, in declaration order |
| Shop.CategoryButtons | pages/Shop.tsx:13 | every selection has a button, and the button labels (React keys) are distinct |
| Shop.FilteredTeas | pages/Shop.tsx:15-21 | `All` shows the whole catalog; a category shows only its teas and every one of them, in catalog order |
| Shop.FilteredTeasCopies | pages/Shop.tsx:15-21 | a category shows each of its teas exactly as many times as the catalog holds it, so with `FilteredTeas` the result is exactly the category's teas |
| Shop.FilterCatalog | pages/Shop.tsx:15-21 | filtering the four-tea catalog by any category |
| Shop.CatalogByCategory | pages/Shop.tsx:15-21 | Green, Black, White and Oolong show one tea each; Herbal, Wellness and Gifting show none |
| BottomNav.CartCountProp | components/BottomNav.tsx:9 | an omitted `cartCount` is 0 |
| BottomNav.Badge | components/BottomNav.tsx:74-76 | a badge appears exactly on the Cart tab with a positive count; above 99 it reads `99+`, else the count in one or two digits without a leading zero |
| BottomNav.TabPaths | components/BottomNav.tsx:21-59 | the four tab paths of `navItems` (the constant `NavItems`) are distinct, and none is a product page |
| BottomNav.IsActive | components/BottomNav.tsx:65 | a tab is active on its own path, and Shop also on every product page; `AtMostOneActive` and `NoTabOnCheckout` characterise it |
| BottomNav.AtMostOneActive | components/BottomNav.tsx:65 | at most one tab is active on any path; a product page highlights Shop alone |
| BottomNav.NoTabOnCheckout | components/BottomNav.tsx:65 | the checkout and order-confirmation pages highlight no tab |
| BottomNav.OnlyCartHasBadge | components/BottomNav.tsx:74 | for a positive count, exactly the Cart tab carries a badge |

## Left out

- Local storage is not modelled:
  - the cart persisted under `vl_cart`;
  - the login flag and mobile number;
  - the `otpExpiryTime` and `otpAttempts` keys (the `generatedOTP` key is modelled, as
    `Login.LoginScreen.issuedOtp`);
  - restoring a session on load (`App.tsx` lines 75-90).

  The model's state lives only as long as the objects do.
- Rendering, styling, icons, the splash screen and its 2.2 s timer are not modelled.
- Navigation is not modelled. `navigate`, `Link` and route matching appear only as
  predicates: `IsActive` and `CartBar` on the path, `RedirectsToShop` on the bag and the
  step.
- Apart from the resend countdown (`Tick`), timers and delays are not modelled: the `await` pauses of the login and payment handlers,
  and the `isLoading` and `isProcessing` flags. Each handler runs atomically. A second tap
  while a payment is pending, and the stale-closure hazard it brings, are not captured.
- `Math.random()` and `new Date()` become parameters. A draw is a real in [0, 1), and the
  date is an opaque string.
- Money is an exact `real`, not a binary float, so amounts carry no rounding error.
- The `toLocaleString('en-IN')` formatting of amounts (digit grouping, at most three
  fraction digits) is not modelled.
- These components are not part of this model: `components/SommelierChat.tsx`,
  `components/Navbar.tsx`, `components/TeaCard.tsx`, `pages/Home.tsx`, `pages/Profile.tsx`
  and `pages/OrderConfirmation.tsx`.
- Tea metadata the modelled logic never reads is dropped: description, image, origin,
  ratings, steeping and harvest details. So are the user's name, email, tier and
  subscription fields.
- CheckoutPage.Checkout.SubmitAddress: the browser's format check on the `type="email"`
  input is not modelled. Only the `required` attributes gate the submit.
- Login.LoginScreen.VerifyOtp: OTP expiry, the attempt counter and the blocking countdown
  are not modelled. The source writes them but never checks them.
- Login.LoginScreen.OtpChange: any string is accepted as the new value. The browser's
  `maxLength={1}` limit on what reaches the handler is not modelled. Neither is the focus
  movement between slots, including `handleKeyDown`.
- ProductDetail: the accordion state and the bounce animation of the tab bar are left out.
  The quantity stepper is modelled. "Add to Bag" ignores it, as the source does.
- JsNumber: only the `Number` grammar is modelled, not the numeric value it yields. Only the
  two literals proved (`Infinity` and `12-34`) are worked through.
