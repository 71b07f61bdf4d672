# Electra storefront: cart, checkout and catalog logic in Dafny

This project models the logic at the core of a React electronics storefront.
The model covers the shopping cart held by the top-level component and the three
updaters that change it: add, set quantity (clamped to at least 1) and remove.
It also covers the values derived from the cart: the header badge count and the
price total. Around the cart it models:

- the catalog filter over search text and category;
- the mapping from an authentication session to the storefront's user record;
- the admin route guard;
- the order built by the checkout callback;
- the two-step checkout page (shipping form, then review and payment hand-off);
- the cart side panel's buttons;
- the generator that turns the built-in dataset into products.

Modules:

- `Types` (`types.dfy`): products, cart items, users, orders, categories.
- `Text`: ASCII lower-casing, substring search, decimal rendering with its parser.
- `Lists`: `filter` and `reduce`, each with a reference definition (`Sum`, `IsSubsequence`).
- `Cart`, `Catalog`, `Session`: the pure parts of `App.tsx`.
- `App`: class `Store`, the state of `App.tsx` (products, cart, user, orders, cart-panel flag, filter inputs). Its methods call the pure functions.
- `Checkout`: class `Wizard`, the state of `components/Checkout.tsx` (form, step, processing, and a count of calls to its `onCheckout` prop).
- `CartSidebar`: the side panel's requests, and how the store answers them.
- `Constants`: `GenerateProducts` (a loop that pushes one product per row) and the category list.

The cart invariant is `Cart.WellFormed`: ids are unique and every quantity is at
least 1. Every store updater preserves it. A cart restored from local storage is
taken as it was saved, so the store methods state preservation
(`WellFormed(old(cart)) ==> WellFormed(cart)`) rather than requiring the invariant.

In four places the code does not do what a storefront is usually designed to do. The model follows the code:

- The checkout callback empties the cart before the remote insert and whatever that insert returns. It does not wait for a successful save.
- The checkout page's submit handler never calls its `onCheckout` callback. Completing payment therefore neither creates an order nor empties the cart. `Checkout.Wizard` counts its `onCheckout` calls, and `Checkout.Wizard.HandleSubmit` leaves that count unchanged. `App.Store.SubmitCheckout` states the result: the page calls nothing back, and the store's cart, orders and user stay as they were.
- When the profile query throws, the fallback name is the metadata `name`, then `Electra User`. The email is not used as a name.
- No pending-order record is written before the payment redirect, and no order status ever changes.

## Model

| member | source | states |
|---|---|---|
| Lists.Reduce | components/CartSidebar.tsx:16 | a `reduce` that adds `f` to an accumulator ends at the accumulator plus the sum of `f` over the list |
| Cart.Count | App.tsx:146 | the header badge count is the sum of the quantities |
| Cart.Total | App.tsx:180 | the checkout total is the sum of price × quantity over the lines |
| Cart.Add | App.tsx:159-163 | after an add the id is present. The length is unchanged if the id was present, and one more if it was new. Every existing line keeps its product snapshot in place. A new id is appended as `(p, 1)` behind the unchanged old lines |
| Cart.AddExisting | App.tsx:161-162 | with unique ids, adding a present id raises exactly that line's quantity by 1. Every other line is unchanged |
| Cart.AddCount | App.tsx:159-163 | with unique ids, every add raises the header count by exactly 1 |
| Cart.AddPreservesWellFormed | App.tsx:162 | add keeps ids unique and quantities at least 1 |
| Cart.AddTimesFresh | App.tsx:171-174 | n ≥ 1 adds of a product not in the cart append one line whose quantity is n |
| Cart.UpdateQuantity | App.tsx:226 | length and products are kept, and lines with other ids are unchanged. The line with the id gets q when q ≥ 1, and 1 otherwise. An absent id leaves the cart unchanged |
| Cart.UpdateQuantityPreservesWellFormed | App.tsx:226 | set-quantity keeps ids unique and quantities at least 1 |
| Cart.UpdateQuantityCount | App.tsx:226 | with unique ids, the count changes by max(1, q) minus the old quantity |
| Cart.RemoveSpec | App.tsx:227 | an entry survives iff it was in the cart with another id. No entry with the id remains. The order is kept (subsequence). An absent id leaves the cart unchanged |
| Cart.RemoveAt | App.tsx:227 | with unique ids, removing the id of line k yields the cart without line k |
| Cart.RemovePreservesWellFormed | App.tsx:227 | remove keeps ids unique and quantities at least 1 |
| Cart.RemoveCount | App.tsx:227 | with unique ids, removing a present id lowers the count by that line's quantity |
| Cart.TotalAndCountBounds | App.tsx:180 | a well-formed cart of non-negative prices has a non-negative total and a count of at least its length |
| Catalog.VisibleSpec | App.tsx:133-139 | a product is shown iff (its lowercased name or brand contains the lowercased query) and (the category is All or equal). The result is an order-preserving subsequence of the products |
| Catalog.VisibleEverything | App.tsx:133-139 | an empty query with All shows every product, in order |
| Catalog.VisibleCategoryOnly | App.tsx:137 | an empty query with one category shows exactly that category's products, in catalog order |
| Catalog.VisibleIgnoresQueryCase | App.tsx:135-136 | lower-casing the query does not change the result |
| Session.FirstTruthy | App.tsx:60 | a chain of JavaScript `or` operators yields the first present non-empty candidate, or the fallback when there is none. It is non-empty when the fallback is |
| Session.ResolveUser | App.tsx:44-75 | no identity gives no user. Otherwise the id is kept and the name is non-empty. The email is the provider email lowercased, or empty when there is none. It is empty exactly when absent or empty. The role is admin iff a profile row was fetched with role admin |
| Session.ResolvedNameChain | App.tsx:57-73 | the name is the profile name, then the metadata full name, then the metadata name, then `Electra User`. After an exception it is the metadata name, then `Electra User` |
| Session.AdminRoute | App.tsx:18-24 | no user renders nothing, a non-admin is redirected home, and only an admin reaches the children |
| Session.AdminAreaNeedsAdminProfile | App.tsx:57-72 | a session reaches the admin area iff it has an identity and the fetched profile row says admin. A thrown profile query never does |
| App.Store.constructor | App.tsx:31-42 | initial state: the built-in products and the saved cart (or empty). No user and no orders. The panel is closed, the query is empty and the category is All |
| App.Store.AddToCart | App.tsx:159-165 | the cart becomes `Cart.Add` of the old cart and the panel opens. The invariant is preserved, and with unique ids the badge rises by 1 |
| App.Store.UpdateQuantity | App.tsx:226 | the cart becomes `Cart.UpdateQuantity` of the old cart, and the invariant is preserved |
| App.Store.RemoveFromCart | App.tsx:227 | the cart becomes `Cart.Remove` of the old cart. The invariant is preserved and the id is gone |
| App.Store.Search | App.tsx:150 | the query is stored and the grid shows `Catalog.Visible` for it |
| App.Store.SelectCategory | App.tsx:166-167 | the category is stored and the grid shows `Catalog.Visible` for it |
| App.Store.HandleUserSession | App.tsx:44-75 | the user becomes `Session.ResolveUser` of the identity and the profile result |
| App.Store.Logout | App.tsx:127-131 | the user is cleared |
| App.Store.PlaceOrder | App.tsx:179-185 | the order is named `ORD-<now>`, carries the user's id and a copy of the cart, and its total is the sum of price × quantity over those items. It is prepended to the orders and the cart is emptied |
| App.Store.SubmitCheckout | components/Checkout.tsx:27-52 | submitting the checkout page calls no `onCheckout`, and the store's cart, orders and user are unchanged |
| Checkout.Set | components/Checkout.tsx:54-56 | the named field takes the value, and every other field, the email included, keeps its value |
| Checkout.ShippingCompleteIgnoresEmail | components/Checkout.tsx:31 | the step-1 check does not depend on the email |
| Checkout.Wizard.constructor | components/Checkout.tsx:15-23 | empty form, not processing, step 1 |
| Checkout.Wizard.Total | components/Checkout.tsx:25 | the displayed total is the sum of price × quantity over the cart |
| Checkout.Wizard.CurrentView | components/Checkout.tsx:58-78 | an empty cart shows the empty bag. Otherwise step 1 shows the shipping form and any other step shows the review |
| Checkout.Wizard.HandleSubmit | components/Checkout.tsx:27-52 | in step 1, missing name, address, city or zip alerts and keeps step 1, and otherwise moves to step 2. In step 2 it sets processing and keeps the step. The form is never changed, and `onCheckout` is never called |
| Checkout.Wizard.PressSubmit | components/Checkout.tsx:130-133 | while processing, the button does nothing. Otherwise the outcome, step and processing are those of the submit handler's three cases, and `onCheckout` is never called |
| Checkout.Wizard.RedirectTimerFired | components/Checkout.tsx:44-46 | processing returns to false |
| Checkout.Wizard.EditShippingDetails | components/Checkout.tsx:120-123 | back to step 1. The form is untouched |
| Checkout.Wizard.HandleInputChange | components/Checkout.tsx:54-56 | only the named field changes |
| CartSidebar.Render | components/CartSidebar.tsx:16-81 | the empty-bag message shows exactly when the cart is empty. Otherwise the lines show with the footer and the subtotal, which is the sum of price × quantity |
| CartSidebar.MinusClickedEffect | components/CartSidebar.tsx:60 | with unique ids, minus sets that line to max(1, quantity − 1) and leaves the others |
| CartSidebar.MinusAtOneKeepsOne | components/CartSidebar.tsx:60 | minus at quantity 1 leaves the cart unchanged |
| CartSidebar.PlusClickedEffect | components/CartSidebar.tsx:67 | on a well-formed cart, plus raises that line by exactly 1, leaves the others, and raises the count by 1 |
| CartSidebar.TrashClickedEffect | components/CartSidebar.tsx:52 | with unique ids, the trash button removes exactly its own line |
| Constants.ProductIdInjective | constants.tsx:186 | different positions give different `ep-<n>` ids |
| Constants.Stock | constants.tsx:192 | stock lies in 5..24 for any draw in [0, 1) |
| Constants.Specs | constants.tsx:194-199 | the specs have exactly the keys Brand, Warranty, Availability and Condition. Brand is the row's brand, Warranty is `2-Year Manufacturer`, Availability is `Immediate Dispatch` and Condition is `Brand New` |
| Constants.GenerateProducts | constants.tsx:184-201 | one product per row, in row order. Product i has id `ep-<i+1>`, the row's brand, name, price, category and `[img]`, stock in 5..24, the spec sheet `Specs` of the row's brand, and the templated description. All ids are distinct |
| Constants.CategoriesComplete | constants.tsx:207 | the list has every category exactly once, in declaration order |

## Left out

- Backend calls are parameters or not modelled. These are the session read and subscription (App.tsx:99-107), the product and order queries (App.tsx:77-86, 110-121), the remote order insert (App.tsx:184) and sign-out (App.tsx:128). The profile query's result (App.tsx:51-55) is the `fetch` parameter of `App.Store.HandleUserSession`.
- Local-storage persistence of the cart (App.tsx:123-125) is browser I/O and is not modelled. The constructor takes the saved cart as already parsed. A malformed saved value makes `JSON.parse` throw in the source, and that path is not modelled.
- The clock (`Date.now`, `toISOString`) and `Math.random` are parameters: `now`, `createdAt`, and the sequence of draws given to `GenerateProducts`.
- Prices, totals and quantities are integers. Floating point and `toLocaleString` formatting are not modelled.
- Lower-casing covers ASCII letters only, not Unicode case mapping.
- The payment hand-off is modelled only by its state changes: the opened tab, the timers and the `history.back()` navigation are browser effects.
- The missing-details `alert` is modelled as the `MissingDetails` outcome.
- The four shipping inputs carry `required`, so a browser blocks a submit with an empty field before the handler runs. The model leaves browser validation out and lets the handler see any form, which is why `MissingDetails` can occur.
- The checkout page's cart is fixed when the page is built (`Checkout.Wizard.cart`). In the source it is a prop that re-renders from the store's cart, so a change made in the cart panel while the page is open also changes the page's total and empty-bag view. The model does not capture that.
- The form state has an email entry, but the page renders no input for it. `Checkout.Field` therefore has no email case, and the email stays empty.
- The session handler is asynchronous, so two session changes can finish in either order. The model applies one change at a time.
- The literal dataset rows (constants.tsx:7-182) are not reproduced. `GenerateProducts` takes the dataset as a parameter, so `INITIAL_PRODUCTS` is not computed.
- Profile roles other than customer and admin are not modelled, because the user type allows only these two.
- The flag setters for the cart panel's open and close buttons and for the sign-in dialog (App.tsx:147-148, 224, 228, 233) are plain assignments and are not modelled. Only the panel opening on add-to-cart is.
- The sign-in dialog and its login callback (App.tsx:234-237), the admin dashboard, the product-search service and the presentational components are outside this model.
