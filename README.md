# Cart engine of the Fake Store MCP server

A Dafny model of the shopping-cart core of the Fake Store MCP server and of the
client rule that drives it.

- **Cart engine** (`CartEngine`). A single service object owns a map from user
  id to cart.
  - `getCart` creates an empty cart on first access.
  - `addToCart` merges into the line that already holds the product, or
    appends a new line at the end.
  - `removeFromCart` lowers a line's quantity or cuts the line out.
  - `clearCart` installs an empty cart.
  - After every change, `updateCartTotals` recomputes the four derived figures:
    item count, subtotal, 8% tax and total.
  - The catalog lookup is an `Option<Product>` parameter of the add.
- **Input checks** (`Validators`). `validateRequired`, `validateNumber`,
  `validatePositiveNumber` and `validateString` are modelled over a small
  datatype of JavaScript values, with JavaScript truthiness and NaN.
- **Cart tools** (`CartTool`). The `add_to_cart`, `remove_from_cart`,
  `display_cart` and `clear_cart` handlers:
  - run the checks in the handler's order, where the first failure decides the
    message;
  - default the add quantity;
  - call the service;
  - turn every outcome, including service failures, into a `success` or
    `error` response.
- **Client hook** (`UseCart`).
  - The `updateQuantity` decision rule turns a target quantity into one add or
    remove of the difference.
  - The `cartCount` and `cartTotal` reductions.
  - The client transport that sends those requests to the tools, and the round
    trip that composes all of it with the engine.

What is proved, in short:
- **Store invariant.** Every stored cart has consistent figures, unique product
  ids and positive quantities, and every operation keeps it.
- **Exact changes.** Adds and removes change the lines exactly as the source
  does: merge or append, partial or full removal, order kept, other lines
  untouched.
- **Totals.** Each operation moves the item count and subtotal by exactly the
  amount changed.
- **Failures.** A failed lookup changes nothing.
- **Idempotence.** Clearing twice equals clearing once.
- **Validators and handlers.** Each validator and each handler has an
  if-and-only-if for passing. Every way the checks can fail is tied to the
  error message the handler reports, in the handler's order.
- **Round trip.** Setting a quantity through the client lands on exactly the
  target, unless the target is an increase whose catalog lookup fails. Then
  the add fails and the store is unchanged.

Money is an exact `real`, with tax at 8/100. Quantities and product ids are
whole numbers.

## Behaviour kept as written

- **Stale stored price.** Adding to an existing line recomputes its total at
  the freshly fetched price, but the line keeps the price stored by its first
  add. A later partial remove totals the line at that stored price again.
  `CartEngine.StalePriceAfterPriceChange` shows both steps on a concrete cart.
- **Falsy remove quantity.** A remove quantity of 0 is falsy, so it removes the
  whole line, as an absent quantity does. The tool rejects an explicit 0
  before the service sees it.
- **Failed remove creates a cart.** The service fetches (and so possibly
  creates) the user's cart before looking for the line. A failed remove can
  therefore leave a new empty cart behind.
- **Failed lookup creates nothing.** The add looks the product up before it
  fetches the cart, so a failed lookup creates nothing.
- **Client user id 0.** On the client, a user id of `0` counts as "no user"
  (`!userId`), the same as an absent one.

## Model

| member | source | states |
|---|---|---|
| CartEngine.EmptyCart | mcp-server/src/services/cartService.ts:10-16 | the cart created on first access has no lines and satisfies the store invariant (all figures zero and consistent) |
| CartEngine.EmptyCartIsUnique | mcp-server/src/services/cartService.ts:108-113 | a cart with consistent figures and no lines is the all-zero empty cart (the converse is `EmptyCart`) |
| CartEngine.UpdateCartTotals | mcp-server/src/services/cartService.ts:108-113 | the lines are kept, the four figures become consistent with them (sum of totals, sum of quantities, 8% tax, subtotal plus tax), and the total is the subtotal times 1.08 |
| CartEngine.SumsAfterAppend | mcp-server/src/services/cartService.ts:109-110 | the subtotal and item count are the left-to-right `reduce` from 0: appending a line adds exactly its total and its quantity |
| CartEngine.SumsAfterReplace | mcp-server/src/services/cartService.ts:109-110 | replacing one line moves both sums by exactly the difference between the new line and the old one |
| CartEngine.SumsAfterDelete | mcp-server/src/services/cartService.ts:109-110 | cutting one line out lowers both sums by exactly that line's total and quantity |
| CartEngine.SumQuantitiesAtLeastLines | mcp-server/src/services/cartService.ts:110 | with positive quantities the item count is at least the number of lines |
| CartEngine.IndexOf | mcp-server/src/services/cartService.ts:30-32 | `findIndex`: the result is the first line holding the product, or -1 exactly when no line holds it |
| CartEngine.IndexOfUnique | mcp-server/src/services/cartService.ts:30-32 | with unique ids, the index found for a line's product is that line's position |
| CartEngine.QuantityOf | mcp-server/src/services/cartService.ts:30-37 | with positive quantities, the product's quantity is at least 1 exactly when it has a line, and 0 when it has none |
| CartEngine.AddLine | mcp-server/src/services/cartService.ts:30-48 | for a product with a line, the length and the line's position are kept; otherwise exactly one line is appended at the end. All other lines are unchanged. The quantity rises by exactly the amount added and the line's total is that quantity at the fetched price. A merged line keeps its stored price, title and image; a new line takes them from the product |
| CartEngine.MergeLine | mcp-server/src/services/cartService.ts:34-37 | the found line gets quantity plus the amount and a total at the fetched price, and every other line is unchanged |
| CartEngine.AppendLine | mcp-server/src/services/cartService.ts:38-48 | the old lines form the unchanged prefix and the new last line carries the product's title, price and image, the amount, and price times amount |
| CartEngine.AddLineKeepsInvariant | mcp-server/src/services/cartService.ts:30-48 | adding a positive amount never creates a duplicate product id and keeps every quantity positive |
| CartEngine.RemoveLine | mcp-server/src/services/cartService.ts:78-84 | a present amount that is non-zero and below the line's quantity lowers that quantity by the amount. The result stays at least 1, the total is recomputed at the stored price, and nothing else changes. Otherwise the line is cut out and the others keep their order (entries before it unchanged, entries after it shifted down by one). With unique ids the product is then gone. Unique ids and positive quantities are preserved |
| CartEngine.AddLineTotals | mcp-server/src/services/cartService.ts:34-50 | after an add the item count rises by exactly the amount added, and the subtotal changes by the product line's new total minus its old one |
| CartEngine.RemoveLineTotals | mcp-server/src/services/cartService.ts:78-86 | a partial remove lowers the item count by the amount removed; a full remove lowers it by the line's quantity and the subtotal by the line's total |
| CartEngine.RepeatedAddsQuantity | mcp-server/src/services/cartService.ts:34-47 | any run of adds of one product raises its quantity by the sum of the requested amounts |
| CartEngine.RepeatedAdds | mcp-server/src/services/cartService.ts:34-37 | after a non-empty run of adds the product has a line whose total is its quantity at the price fetched by the last add |
| CartEngine.StalePriceAfterPriceChange | mcp-server/src/services/cartService.ts:35-37 | adding at 10 then at 12 gives a line priced 10 with total 24; a partial remove of 1 then totals the line at the stored price 10 (lines 80-81) |
| CartEngine.AddToEmptyScenario | mcp-server/src/services/cartService.ts:38-51 | two units at 10.00 in an empty cart give item count 2, subtotal 20.00, tax 1.60 and total 21.60 |
| CartEngine.CartService.constructor | mcp-server/src/services/cartService.ts:6 | the store starts empty and valid |
| CartEngine.CartService.GetCart | mcp-server/src/services/cartService.ts:8-19 | returns the stored cart, or stores and returns the empty one for an unknown user. A known user's store is unchanged, and the store invariant holds |
| CartEngine.CartService.AddToCart | mcp-server/src/services/cartService.ts:21-61 | a failed lookup fails with "Product not found" and changes nothing. Otherwise the merge into the found line, or the push of a new line, turns the user's lines into exactly `AddLine` of the previous lines; the cart is well formed and only that user's entry changes |
| CartEngine.CartService.RemoveFromCart | mcp-server/src/services/cartService.ts:63-95 | an absent product fails with "Item not found in cart", leaving at most a newly created empty cart. Otherwise the decrement of the found line, or its splice, turns the lines into exactly `RemoveLine` of the previous lines; the cart is well formed and only that user's entry changes |
| CartEngine.CartService.ClearCart | mcp-server/src/services/cartService.ts:97-106 | the user's cart becomes the empty cart, other users are untouched, and the invariant holds |
| CartEngine.ClearTwice | mcp-server/src/services/cartService.ts:97-106 | clearing twice leaves the store exactly as clearing once |
| Validators.ValidateRequired | mcp-server/src/utils/validators.ts:1-5 | fails exactly for undefined, null and the empty string, with "`field` is required" |
| Validators.ValidateNumber | mcp-server/src/utils/validators.ts:7-11 | passes exactly for a number other than NaN, and otherwise fails with "must be a valid number" |
| Validators.ValidatePositiveNumber | mcp-server/src/utils/validators.ts:13-18 | passes exactly for a number above 0, and a pass implies `validateNumber` passes. A non-number or NaN fails with "must be a valid number" before the sign is checked, and a number at most 0 fails with "must be a positive number" |
| Validators.ValidateString | mcp-server/src/utils/validators.ts:20-24 | passes exactly for strings, and otherwise fails with "must be a string" |
| CartTool.AndThen | mcp-server/src/tools/cartTool.ts:24-30 | checks that throw in sequence pass exactly when both pass, and the first failure is the one reported |
| CartTool.CheckAddParams | mcp-server/src/tools/cartTool.ts:24-30 | accepts exactly a non-empty string user id, a positive product id and a positive effective quantity, where a falsy quantity becomes 1. The accepted arguments are those values. A missing user id reports "user_id is required", and a negative quantity "quantity must be a positive number"; every other failure is in `CheckAddParamsErrors` |
| CartTool.CheckAddParamsErrors | mcp-server/src/tools/cartTool.ts:24-30 | the remaining failures in the handler's order. With a user id present, a missing product id reports "product_id is required", even when the user id is not a string. With both present, a user id that is not a string reports "user_id must be a string". Then a product id that is not a number reports "product_id must be a valid number", one at most 0 "product_id must be a positive number", and a truthy quantity that is not a number "quantity must be a valid number" |
| CartTool.CheckRemoveParams | mcp-server/src/tools/cartTool.ts:72-79 | accepts exactly a non-empty string user id and a positive product id, with a quantity that is absent or positive. An absent quantity is passed on as absent. Reports "quantity must be a positive number" for a quantity at most 0, and "must be a valid number" for null; every other failure is in `CheckRemoveParamsErrors` |
| CartTool.CheckRemoveParamsErrors | mcp-server/src/tools/cartTool.ts:72-79 | the remaining failures in the handler's order: a missing product id (before a non-string user id), a user id that is not a string, a product id that is not a number or is at most 0, and then any present quantity that is not a number, each with its own message |
| CartTool.CheckUserId | mcp-server/src/tools/cartTool.ts:115-116 | accepts exactly a non-empty string. Undefined, null and "" report "is required"; numbers, booleans, NaN and objects report "must be a string" |
| CartTool.AddQuantity | mcp-server/src/tools/cartTool.ts:29 | the effective add quantity is always truthy: a truthy quantity is kept as it is, and undefined, null, false, 0, NaN and "" become 1 |
| CartTool.CartResponse | mcp-server/src/tools/cartTool.ts:38-50 | a service success gives status success with the handler's message and the cart under `data`; a service failure gives status error with the failure's message and no cart (the remove handler's lines 87-99 do the same) |
| CartTool.AddChecked | mcp-server/src/tools/cartTool.ts:32-50 | once the checks pass, the response is a success exactly when the lookup succeeds. A failed lookup gives "Product not found" and leaves the store unchanged; a success carries the well-formed cart whose lines are `AddLine` of the user's previous lines, and only that user's entry changes |
| CartTool.AddToCartHandler | mcp-server/src/tools/cartTool.ts:22-51 | succeeds exactly when the checks pass and the lookup succeeds. Failed checks leave the store unchanged and carry the check's message, and a failed lookup carries "Product not found" and also leaves the store unchanged. Success carries "Product added to cart successfully" and the well-formed updated cart under `data.cart`, whose lines are `AddLine` of the user's previous lines |
| CartTool.RemoveFromCartHandler | mcp-server/src/tools/cartTool.ts:70-100 | failed checks leave the store unchanged and carry the check's message. An absent product gives "Item not found in cart". Otherwise the response is success with "Product removed from cart successfully" and the updated cart under `data.cart`, whose lines are `RemoveLine` of the previous lines |
| CartTool.DisplayCartHandler | mcp-server/src/tools/cartTool.ts:113-132 | with a valid user id, always succeeds with the stored cart or a newly created empty one at the top level under `cart`; otherwise it reports the check's message and changes nothing |
| CartTool.ClearCartHandler | mcp-server/src/tools/cartTool.ts:145-164 | with a valid user id, succeeds with no cart payload and leaves that user with an empty cart; otherwise it reports the check's message and changes nothing |
| UseCart.HasUser | client/src/hooks/useCart.ts:97 | `!userId` is false exactly when an id is present and is truthy as a JavaScript number, so the id 0 counts as no user |
| UseCart.UpdateQuantity | client/src/hooks/useCart.ts:96-114 | no request exactly when there is no user, the target is negative, the product has no local line, or the target equals a non-zero current quantity. Every request names the product. A full remove exactly for target 0. An add of exactly target minus current when that is positive. A remove of exactly current minus target, strictly below current, when the target is lower |
| UseCart.CartCount | client/src/hooks/useCart.ts:137 | the count of the local lines is the item count the server computes for the same lines (with positive quantities it is at least the number of lines, by `SumQuantitiesAtLeastLines`) |
| UseCart.CartTotal | client/src/hooks/useCart.ts:138 | the total of the local lines is the pre-tax subtotal the server computes for the same lines |
| UseCart.ClientFiguresMatchServer | client/src/hooks/useCart.ts:137-138 | on the lines of a server cart, `cartCount` and `cartTotal` equal the server's item count and subtotal |
| UseCart.UpdateQuantityReachesTarget | client/src/hooks/useCart.ts:107-112 | applying the request to a present line leaves exactly the target quantity, unless it is an add whose catalog lookup fails, which leaves the lines as they were. The line is gone exactly when the target is 0, and ids stay unique and quantities positive |
| UseCart.QuantityParam | client/src/services/mcpService.ts:84-86 | an absent remove quantity is left out of the request (undefined), and a present one is sent as that number; it is truthy exactly when present and non-zero |
| UseCart.AddParamsAccepted | client/src/services/mcpService.ts:65-70 | an add the client sends for a positive amount passes the tool's checks with exactly those arguments |
| UseCart.RemoveParamsAccepted | client/src/services/mcpService.ts:79-91 | a remove the client sends, with the quantity left out when absent, passes the tool's checks with exactly those arguments |
| UseCart.SendAdd | client/src/services/mcpService.ts:65-77 | sending an add through `add_to_cart` changes the user's lines to exactly `AddLine` of the previous lines when the catalog lookup succeeds. When it fails, the store is unchanged. Every other user's cart is unchanged in both cases |
| UseCart.SendRemove | client/src/services/mcpService.ts:79-98 | sending a remove through `remove_from_cart` changes the user's lines to exactly `RemoveLine` of the previous lines, or leaves them when the product is absent; every other user's cart is unchanged |
| UseCart.SendRequest | client/src/hooks/useCart.ts:102-113 | carrying out the chosen request changes the user's server lines exactly as the engine prescribes for it. An add whose catalog lookup fails changes nothing. Every other user's cart is unchanged |
| UseCart.SetQuantityRoundTrip | client/src/hooks/useCart.ts:96-114 | loading the cart, deciding from the loaded lines and sending the request leaves the product's server quantity at exactly the target, unless the target is an increase whose catalog lookup fails; then the store is unchanged. The request is `UpdateQuantity` of the loaded lines, the user's server lines become exactly those lines with the request applied, and every other user's cart is unchanged |

## Left out

- The catalog (`fakeStoreApi.getProduct`) is a network call. It is an `Option<Product>` parameter of the service's add, of the tool handler and of the client's send and round trip, and `None` stands for the "Product not found" failure (mcp-server/src/services/fakeStoreApi.ts:69-77).
- Logging, async/await interleaving and the absence of per-user locking: each service call is one atomic step.
- Cart objects are modelled as values. The source hands out and mutates the same cart object that the map holds: the add's `quantity +=` and `push`, the remove's `quantity -=` and `splice` change that cart's items array in place, and `updateCartTotals` assigns its four fields in place. The model performs the same steps on a copy of the lines (an element update, an append, a cut) and stores the updated cart, so aliasing between a returned cart and the stored one, and the moment at which the stored cart changes, are not captured.
- Floating point: money is exact, so JavaScript rounding error, `toFixed` and Infinity are not modelled. A `Num` value is a finite number.
- Product ids and quantities that are not whole numbers: the tool checks require `IntegralNumbers`, and the service takes `int` amounts.
- `CartEngine.CartService.AddToCart`: the default `quantity = 1` of the service is not modelled, because every caller passes a quantity.
- `CartEngine.CartService.AddToCart`: the service is modelled for amounts of at least 1. These are the only amounts the tool lets through.
- `CartEngine.CartService.RemoveFromCart`: negative amounts are not modelled, because the amount is a `nat`. The tool rejects them before the service sees them.
- The React state, loading and error flags of the client hook. The hook's own add, remove and clear wrappers are modelled only through the transport they call.
- `UseCart.SetQuantityRoundTrip`: the client sends the user id as `userId.toString()`. The model takes that text as a separate non-empty string.
- The other tools (login, products, user), the HTTP bridge, the tool registry and the React pages.
