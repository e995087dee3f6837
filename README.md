# Cart-to-order lifecycle of an apparel storefront, in Dafny

This project models the part of the storefront that carries state from a
shopping cart to a placed order:

- **Cart ledger** (server/controllers/User.js). A user document owns an
  ordered list of cart lines `{product, quantity}` and a list of favourite
  product ids. `addToCart` merges into the first line for the product or
  appends one; `removeFromCart` subtracts a positive quantity and drops the
  line when nothing positive is left, or drops it outright when no positive
  quantity is given, answering 404 for a missing user or a product without a
  line; `placeOrder` saves the order first and empties the cart only when the
  save went through; `addToFavorites` pushes an absent id and
  `removeFromFavorites` filters every copy out. Module `Ledger` states these
  edits on values and proves their laws; module `UserController` holds the
  user document as a `class User` whose methods' contracts tie the new lists
  to the `Ledger` functions. The orders collection is `class OrderStore` with
  a ghost log of saved orders, and `order.save()`'s outcome is a boolean
  parameter.
- **Checkout rules** (client/src/pages/Cart.jsx), module `Checkout`: the
  subtotal fold, the address string, the decision `PlaceOrder` takes (empty
  cart first, then every delivery and payment field filled, then the
  payload), and the quantity the "−" and trash controls ask to remove.
- **Bearer gate** (server/middleware/verifyToken.js), module `TokenGate`: the
  `Authorization` header check, the token taken as the second
  space-separated field, and the 401/403 mapping; `jwt.verify` is a function
  parameter returning the decoded id or None.
- Module `Lifecycle` applies the client's controls to the server's ledger.

Prices and quantities are integers. Where the JavaScript arithmetic yields
`NaN` (an item with no product or no `price.org`), the subtotal is `None`.

Behaviour of the code that the model keeps as written:
- `addToCart` applies no default and no positivity check to `quantity`, and
  does not check for a missing user; any integer is added.
- A missing price does not count as 0: it makes the subtotal `NaN`.
- `placeOrder` stores the `products` the client submits, not the server's
  own cart, and it never stores `paymentDetails`.
- The empty-cart and form checks exist only in the client.
- Favourites have separate add and remove operations; there is no toggle.
- The "+" request and the request of the "−" control on an item holding
  more than one unit are the same request (see Findings).

## Model

| member | source | states |
|---|---|---|
| `Ledger.IndexOf` | server/controllers/User.js:64-66 | the search both controllers run: -1 exactly when no line holds the product, otherwise the first line that does |
| `Ledger.AddLine` | server/controllers/User.js:64-71 | an existing line for the product gains exactly `quantity`, the length and every other line stay; otherwise exactly one line `{productId, quantity}` is appended after the unchanged old lines |
| `Ledger.AddLineHeld` | server/controllers/User.js:67-71 | read as a bag, the cart holds `quantity` more units of the product and the same count of every other product |
| `Ledger.AddLineKeepsUnique` | server/controllers/User.js:64-71 | a cart with at most one line per product keeps that property |
| `Ledger.AddTwiceMerges` | server/controllers/User.js:67-71 | adding q1 then q2 of a product the cart lacks yields one line of q1 + q2, never two lines |
| `Ledger.RemoveLine` | server/controllers/User.js:91-108 | "not found" exactly when no line holds the product; a positive quantity that leaves something positive decrements only that line; every other case drops the line and keeps the rest in order |
| `Ledger.HeldUnique` | server/controllers/User.js:91-93 | with one line per product, the bag count of a product is the quantity of its line, or 0 |
| `Ledger.RemoveLineHeld` | server/controllers/User.js:99-108 | with one line per product, the count drops by the positive quantity given, or to 0 when none is given or nothing positive would be left; other products keep their counts |
| `Ledger.RemoveLineKeepsUnique` | server/controllers/User.js:99-108 | removal keeps at most one line per product |
| `Ledger.RemoveLineKeepsPositive` | server/controllers/User.js:99-104 | if every line held a positive quantity, every line still does: no line is kept at 0 or below |
| `Ledger.AddFavourite` | server/controllers/User.js:178-181 | the id is present afterwards; a list already holding it is unchanged, otherwise the id is appended |
| `Ledger.AddFavouriteIdempotent` | server/controllers/User.js:178-181 | adding the same favourite twice equals adding it once |
| `Ledger.RemoveFavourite` | server/controllers/User.js:194 | the id is gone, every other id keeps its multiplicity, and nothing else appears |
| `Ledger.RemoveFavouriteConcat` | server/controllers/User.js:194 | removal filters each part of a list separately, so the other ids keep their order |
| `Ledger.RemoveFavouriteAbsent` | server/controllers/User.js:194 | removing an id the list lacks leaves it unchanged |
| `Ledger.AddThenRemoveFavourite` | server/controllers/User.js:178-181 | adding an absent favourite and then removing it restores the original list |
| `UserController.OrderStore.Save` | server/controllers/User.js:150 | the order is appended to the saved orders exactly when the save succeeds |
| `UserController.AddToCart` | server/controllers/User.js:60-72 | the user's cart becomes `AddLine` of the old cart; the favourites are untouched |
| `UserController.RemoveFromCart` | server/controllers/User.js:81-115 | 404 "User not found" for a missing user; 404 "Product not found in cart" with the cart unchanged when no line matches; otherwise the cart becomes `RemoveLine` of the old cart and is returned |
| `UserController.PlaceOrder` | server/controllers/User.js:139-158 | the order carries the submitted products, the user's id, the total and the address; on a successful save it is logged and the cart emptied; on a failed save the error is passed on and both the cart and the orders are unchanged |
| `UserController.RetryAfterFailedSave` | server/controllers/User.js:150-153 | a failed checkout followed by a successful retry saves exactly one order and empties the cart |
| `UserController.AddToFavorites` | server/controllers/User.js:172-183 | 404 "User not found" for a missing user; otherwise the favourites become `AddFavourite` of the old list and the cart is untouched |
| `UserController.RemoveFromFavorites` | server/controllers/User.js:190-197 | the favourites become `RemoveFavourite` of the old list and the cart is untouched |
| `Checkout.SubtotalIsSum` | client/src/pages/Cart.jsx:205-210 | the fold equals the sum of quantity × `price.org` over all items, is 0 for an empty cart, and is NaN once an item has no price |
| `Checkout.SubtotalExample` | client/src/pages/Cart.jsx:205-210 | two units at 999 and one at 599 give 2597 |
| `Checkout.ConvertAddressToString` | client/src/pages/Cart.jsx:212-214 | the string is first name, space, last name, ", ", address, ", ", phone, ", ", email: each field can be read back at its offset and the length is their sum plus 7 |
| `Checkout.FilledValues` | client/src/pages/Cart.jsx:223-224 | `every(Boolean)` over the form values holds exactly when each named field is non-empty |
| `Checkout.PlaceOrder` | client/src/pages/Cart.jsx:216-240 | an empty cart gives the empty-cart warning whatever the forms hold; an order is sent exactly when the cart is non-empty and every delivery and payment field is filled; the payload carries the products unchanged, the formatted address, the subtotal and the payment details |
| `Checkout.RemovalQuantity` | client/src/pages/Cart.jsx:185-192 | `null` is sent exactly when the argument is "full", otherwise one unit |
| `Checkout.MinusControl` | client/src/pages/Cart.jsx:291-295 | the "−" control asks for one unit while more than one is held and for the whole line otherwise |
| `Checkout.TrashControl` | client/src/pages/Cart.jsx:307 | the trash control as written always asks for one unit, never `null` |
| `Checkout.TrashControlIntended` | client/src/pages/Cart.jsx:307 | the trash control as intended asks for the whole line (`null`) |
| `TokenGate.Split` | server/middleware/verifyToken.js:11 | `split(" ")` gives at least one field, no field holds a space, and joining the fields with spaces gives the header back |
| `TokenGate.FirstSpace` | server/middleware/verifyToken.js:11 | the index of the first space, or the length when there is none |
| `TokenGate.SplitFirstField` | server/middleware/verifyToken.js:11 | the first field is the text before the first space |
| `TokenGate.SplitAfterWord` | server/middleware/verifyToken.js:11 | a space-free word and a space split off as the first field |
| `TokenGate.TokenAfterPrefix` | server/middleware/verifyToken.js:7-11 | for a header starting with "Bearer ", field 1 exists and is the text after the prefix up to the next space |
| `TokenGate.VerifyToken` | server/middleware/verifyToken.js:4-19 | a missing header or one without the exact prefix "Bearer " gives 401 "No token provided"; otherwise the token is verified, a failure gives 403 "Invalid token" and a decoded id lets the request through as that user |
| `TokenGate.RefusedHeaderSkipsVerify` | server/middleware/verifyToken.js:7-9 | for a refused header the verdict does not depend on the verifier: it is never consulted |
| `TokenGate.DoubleSpaceGivesEmptyToken` | server/middleware/verifyToken.js:11 | "Bearer  x" splits into "Bearer", "" and "x", so the token is empty |
| `Lifecycle.PlusAndPartialMinusIdentical` | client/src/pages/Cart.jsx:174-192 | the "+" request and the "−" request for an item holding more than one unit have the same route and the same body |
| `Lifecycle.OneHandlerNeverRestores` | client/src/api/index.js:22-30 | one controller receiving both identical requests applies the same edit twice: a line of three units becomes five through `addToCart`, one through `removeFromCart`, never three |
| `Lifecycle.RemoveOneUndoesAddOne` | server/controllers/User.js:64-108 | with the removal sent apart from the add, `removeFromCart` with the quantity the "−" control picks undoes `addToCart` of one unit, whether or not the product had a line |
| `Lifecycle.TrashKeepsLine` | client/src/pages/Cart.jsx:307 | the trash request as written, received by `removeFromCart`, keeps a line of two or more units with one unit less |
| `Lifecycle.TrashOnThreeUnitsLeavesTwo` | client/src/pages/Cart.jsx:307 | the trash request asks for one unit; received by `removeFromCart`, a line of three units becomes a line of two |
| `Lifecycle.TrashIntendedRemovesProduct` | client/src/pages/Cart.jsx:307 | the intended trash request, received by `removeFromCart`, leaves no line and no units of the product |

## Findings

| source | as written | input that shows it | evidently intended | confidence | as-written member | corrected member |
|---|---|---|---|---|---|---|
| client/src/pages/Cart.jsx:307 | the trash icon calls `removeCart(id, item.quantity, "full")`; `removeCart` takes `(id, type)`, so `type` is the quantity, not "full", and the request asks for one unit | the request body is `{productId, quantity: 1}` (Cart.jsx:191); `removeFromCart` applies it as a one-unit decrement, so a line of 3 units becomes 2. This assumes the request reaches `removeFromCart`; the route that dispatches it is not part of this model | remove the whole line (`quantity: null`) | high; not executed | `Lifecycle.TrashOnThreeUnitsLeavesTwo` | `Lifecycle.TrashIntendedRemovesProduct` |
| client/src/pages/Cart.jsx:177 | `addCart` posts `{productId, quantity: 1}` to `/user/cart` (api/index.js:22-25), and the "−" control on an item of more than one unit posts the same body to the same route (Cart.jsx:189-192, api/index.js:27-30) | a line of 3 units after "+" then "−": both requests reach one controller, giving 5 through `addToCart` or 1 through `removeFromCart` | the removal is sent where the server can tell it from an add, so "−" undoes "+" | high; not executed | `Lifecycle.OneHandlerNeverRestores` | `Lifecycle.RemoveOneUndoesAddOne` |

## Left out

- Registration, login, password hashing and token signing: they are outside the cart-to-order lifecycle.
- `getAllCartItems`, `getUserFavourites` and `getAllOrders`: database reads and joins with no logic.
- `UserController.AddToCart`: requires a loaded user, because the source dereferences it unchecked and a missing user ends in a generic server error, which is not modelled.
- `UserController.PlaceOrder`: requires a loaded user, for the same reason; the second save (of the emptied cart) is taken to succeed.
- `UserController.RemoveFromFavorites`: requires a loaded user, for the same reason.
- Failures of `user.save()` in every controller: each controller is modelled as one sequential step.
- Concurrent requests on the same user: the read-modify-write race is not modelled.
- JavaScript number coercion: a missing `quantity` in `addToCart` or a non-numeric one is not modelled; quantities are integers.
- `.toFixed(2)` formatting: the total is the unrounded integer subtotal.
- The comparison of Mongo object ids with strings: product ids are naturals compared by value.
- The signature check `jwt.verify`: a parameter returning the decoded id or None; a decoded token without an id is not modelled.
- React state, snackbars, reloads, the loading flags, rendering and styling of the cart page, and the order tracking page.
- The HTTP client wrappers, the Express setup and the product routes.
- The route that dispatches `POST /user/cart` to `addToCart` or `removeFromCart` is not part of this model: the lemmas of module `Lifecycle` that apply a removal request assume it reaches `removeFromCart`.
