# QKart storefront: cart shaping, add-to-cart guard and form validators in Dafny

This project models the logic of a React storefront (QKart) that is not
rendering. It covers:

- **Cart reconciliation** (`generateCartItemsFrom`). The server cart is a list of
  `{productId, qty}` entries. It is joined against the product catalog by a
  nested scan. The scan writes each entry's `qty` into the matching catalog
  objects and pushes those same objects (not copies) into the result.
- **Totals.** The order total is `getTotalCartValue`. The line count is
  `getTotalItems`. The + and - buttons of a cart line compute the quantity they
  request.
- **The products page state** (`products`, `cartItemList`, `cartItemId`):
  - the membership scan `isItemInCart`;
  - the checks of `addToCart` (token first, then the optional duplicate check), followed by the POST and the wholesale replacement of the local cart;
  - the token short-circuit of `fetchCart` and the effect that stores its join;
  - the `"empty"` marker a search answered with 404 leaves in `products`.
- **The register and login forms.** Each has a validator, which is an ordered
  chain of checks giving accept/reject and its warnings. Each has a submission
  gate. Login also writes three session keys.

Files: `common.dfy` (option, backend reply, snackbar, validation outcome),
`cart.dfy`, `products.dfy`, `register.dfy`, `login.dfy`, and `scenarios.dfy`. The
scenarios are client methods that go through the storefront's end-to-end cart
cases using only the contracts.

Modelling choices:

- A catalog product is a `class Product`. Its fields are fixed except
  `qty: Option<int>`, which is `None` (JavaScript `undefined`) until a join writes
  it. A catalog is a `seq<Product>` of references, so two line items can be the
  same object. The join condition reads only the fixed `id`, so what the scan
  writes does not depend on whether the catalog holds one object twice.
- `Join` and `Row` are the specification functions of the scan: entry-major and
  catalog-minor. `LastQty` gives the quantity an object ends with, which is that
  of the last matching entry.
- `Total` returns `None` for the NaN JavaScript computes once a line has no `qty`.
- Backend answers are parameters (`Reply`: a body, an error status with its
  message, or no response). Snackbars are returned `Snack` values that keep the
  source's texts and variants verbatim, typos included ("passworn must br",
  "password is a  required field", variant "Warning").
- The browser session store is the map field `LoginPage.storage`.
- A thrown JavaScript exception ends the operation with no state change and no
  snackbar. There are three sources of a throw. The first is `isItemInCart` handed
  an `undefined` cart list (`ItemsUndefined`). The second is the join handed the
  `"empty"` string: in module (strict) code, assigning `qty` to a character
  throws. This happens as soon as a positive entry lacks `productId` or `_id`,
  which every backend entry does (`Products.Threw`). In `addToCart` the join runs
  inside the `try`, so its throw is caught and only logged
  (src/components/Products.js:323-328). In the cart-refresh effect it goes
  uncaught (src/components/Products.js:157-163). The third is the `catch` of
  `performSearch`, which reads `e.response.status` without checking
  `e.response` (src/components/Products.js:121): a search that gets no
  response at all throws there. The `NoResponse` case of `PerformSearch`
  stands for it and leaves `products` as it was.

Behaviour of the code that the model keeps:

- The line items are the catalog objects themselves, mutated in place.
- A password mismatch warns but does not block registration.
- The quantity field of a cart entry and of a line item is `qty`.
- Duplicate matches give duplicate, aliased line items.
- `debounceSearch` starts a fresh timer on every call and never cancels an
  earlier one; it is left out (see below).

The comment in front of `getTotalItems` (src/components/Cart.js:90-98) has lost
its `/**` opener, so lines 92-98 are bare text starting with `*` and the file
does not parse as written. The model assumes the comment is intact and follows
the function at lines 99-101.

## Model

| member | source | states |
|---|---|---|
| Cart.RowElements | src/components/Cart.js:54-62 | every product one entry contributes is a catalog object that the entry matches, and there are at most as many as catalog slots |
| Cart.RowMembership | src/components/Cart.js:54-62 | one entry contributes exactly the catalog objects it matches, as references and not copies |
| Cart.LastQty | src/components/Cart.js:56-60 | the quantity an object receives from its last matching entry is positive |
| Cart.PushMatches | src/components/Cart.js:54-63 | the inner scan for one entry pushes exactly that entry's row and overwrites `qty` in every matching object; the other objects keep theirs |
| Cart.GenerateCartItemsFrom | src/components/Cart.js:50-66 | absent cart data gives an absent result and touches nothing. Otherwise the result is the entry-major join, and every catalog object ends with the quantity of its last matching entry, or its old one when none matches. Every line item carries a positive `qty`, equal to its last match |
| Cart.JoinEmpty | src/components/Cart.js:51-52 | an empty cart (as opposed to an absent one) gives the empty list |
| Cart.RowAppend | src/components/Cart.js:54-62 | within one entry, line items follow catalog order |
| Cart.JoinAppend | src/components/Cart.js:53-64 | the join of concatenated carts is the concatenation of the joins (entry-major order) |
| Cart.RowEmptyIff | src/components/Cart.js:55-58 | an entry contributes nothing exactly when it matches no catalog slot |
| Cart.JoinSkipsNonPositive | src/components/Cart.js:56 | an entry with quantity zero or less can be removed from the cart without changing the result |
| Cart.JoinSkipsUnknown | src/components/Cart.js:57-58 | an entry whose `productId` and `_id` name no catalog product can be removed without changing the result |
| Cart.RowMultiplicity | src/components/Cart.js:54-62 | one entry's row holds every occurrence of a matching object and no other object |
| Cart.JoinMultiplicity | src/components/Cart.js:53-64 | an object occurs once per (matching entry, catalog slot) pair, so duplicate matches give duplicate, aliased line items |
| Cart.MatchCountPositive | src/components/Cart.js:55-58 | an object matched by some entry has a positive match count |
| Cart.MatchCountZero | src/components/Cart.js:55-58 | an object matched by no entry has match count 0, so by the multiplicity lemma it is no line item |
| Cart.LastQtyDefinedIff | src/components/Cart.js:55-60 | an object receives a quantity exactly when some entry matches it |
| Cart.LastQtyIsLastMatch | src/components/Cart.js:53-60 | the received quantity is that of a matching entry after which no entry matches |
| Cart.JoinMembership | src/components/Cart.js:55-61 | an object is a line item exactly when it is in the catalog and some entry matches it, which is exactly when the scan writes its `qty` |
| Cart.RowAtMostOne | src/components/Cart.js:54-62 | over a catalog with distinct identities, an entry with one identity field matches at most one product |
| Cart.RowTwoIdentities | src/components/Cart.js:57-58 | an entry carrying both `productId` and `_id` can match two different products and make two lines |
| Cart.GetTotalCartValue | src/components/Cart.js:78-88 | the loop computes the left-to-right sum of `cost * qty`, and a missing argument is the empty list (total 0). The result is a number exactly when every line has a `qty` |
| Cart.TotalDefined | src/components/Cart.js:81-86 | the total is NaN-free exactly when every line carries a quantity |
| Cart.TotalAppend | src/components/Cart.js:78-88 | the total of a concatenation is the sum of the totals, and NaN on either side makes the whole NaN |
| Cart.TotalNonNegative | src/components/Cart.js:81-86 | with non-negative costs and positive quantities the total is a non-negative number |
| Cart.TotalItems | src/components/Cart.js:99-101 | the count is the number of lines in the list, and an `undefined` list counts 0 |
| Cart.TotalItemsIgnoresQuantity | src/components/Cart.js:99-101 | the count depends only on the number of lines and not on any `qty`; an absent or empty list counts 0 |
| Cart.TotalItemsAtMostEntries | src/components/Cart.js:99-101 | over a catalog with distinct identities and single-identity entries, the count is at most the number of entries, whatever the quantities, so it counts lines and not units |
| Cart.IncrementRequest | src/components/Cart.js:202 | the + button requests one more than a truthy `qty`, and 1 for an `undefined` or zero one, so a line of non-negative quantity is never asked for less than 1 |
| Cart.DecrementRequest | src/components/Cart.js:211 | the - button requests one less than a positive `qty`, which is 0 for a quantity-1 line, and 1 for an `undefined` or zero one |
| Cart.QuantityRequests | src/components/Cart.js:196-213 | on a truthy `qty` the buttons request `qty + 1` and `qty - 1`, and on a falsy one both request 1; a quantity-1 line's - requests 0 |
| Cart.QuantityRoundTrip | src/components/Cart.js:202-211 | for a positive quantity, - undoes +, and above 1, + undoes - |
| Common.ErrorSnack | src/components/Register.js:47-54 | a 400 answer shows the backend's message and anything else shows the generic text, always as an error |
| Products.Reconcile | src/components/Cart.js:50-66 | the join against whatever `products` holds. A listed catalog gives the join and its `qty` writes. The `"empty"` marker throws when a positive entry lacks `productId` or `_id`, and otherwise gives [] |
| Products.IsItemInCart | src/components/Products.js:249-256 | the scan answers true exactly when some line item's `_id` equals the id, and false on the empty list |
| Products.InCartOfJoin | src/components/Products.js:249-256 | over a joined cart, membership holds exactly when some positive entry names, through either identity field, a catalog product with that `_id` |
| Products.AddGuard | src/components/Products.js:302-310 | no token refuses. With a token, the duplicate refusal happens exactly when duplicates are prevented and the item is present. An `undefined` list under duplicate prevention throws. Otherwise it posts |
| Products.GuardSnack | src/components/Products.js:302-310 | only the token refusal and the duplicate refusal raise a snackbar |
| Products.TokenCheckFirst | src/components/Products.js:302-310 | without a token the outcome is the login warning, whatever the list and the option, so the duplicate warning never shows |
| Products.QuantityPathAlwaysPosts | src/components/Products.js:300-310 | with the default `preventDuplicate: false`, a token always leads to the POST, even for an item in the cart |
| Products.FetchCart | src/components/Products.js:200-234 | no token means no request and an absent result; a successful GET returns its body; a failure raises a snackbar and returns no cart |
| Products.NoTokenLeavesCartAbsent | src/components/Products.js:202 | without a token the stored cart list becomes absent (`undefined`), not empty, and nothing is requested |
| Products.FailedFetchBreaksCardAdd | src/components/Products.js:221-233 | after a failed cart fetch the list is absent, and a card's Add to Cart then ends in the throw, with no request and no snackbar |
| Products.SentinelJoin | src/components/Products.js:121-123 | on the `"empty"` marker, a backend cart with a positive entry makes the join throw, and a cart without positive entries joins to [] |
| Products.ZeroQuantityDropsLine | src/components/Cart.js:56 | when every entry naming a product has quantity zero or less, that product is no line item |
| Products.ProductsPage.constructor | src/components/Products.js:36-39 | the page starts with an empty catalog, an empty cart list and an empty id list |
| Products.ProductsPage.AddToCart | src/components/Products.js:294-329 | the outcome is the guard's, with its snackbar. The POST body `{productId, qty}` is issued only on proceeding. On an answer whose join does not throw, `cartItemId` becomes the raw answer and `cartItemList` its join against the catalog argument. Otherwise neither changes. The catalog objects carry the quantities that join wrote |
| Products.ProductsPage.AddFromCard | src/components/Products.js:413-425 | a product card adds one unit with duplicates prevented, checked against the current cart list |
| Products.ProductsPage.HandleQuantity | src/components/Cart.js:196-213 | the + and - buttons post the requested quantity whenever there is a token, with no duplicate check |
| Products.ProductsPage.RefreshCart | src/components/Products.js:154-165 | the cart list becomes the join of what `fetchCart` returned against `products`, and absent when it returned nothing; a throwing join leaves the list as it was |
| Products.ProductsPage.PerformSearch | src/components/Products.js:115-125 | a result replaces the catalog, a 404 stores the `"empty"` marker, and any other failure keeps the catalog |
| Register.ValidateInput | src/components/Register.js:59-81 | accepted exactly when username and password both have length at least 6. A rejection carries exactly one warning. An acceptance warns exactly when the confirmation differs |
| Register.ChecksInOrder | src/components/Register.js:60-75 | the first failing check, in the order username required, username length, password required, password length, gives the only warning; later fields are not examined |
| Register.LengthSixAccepted | src/components/Register.js:64-75 | length exactly 6 passes both length checks, despite "more than 6" |
| Register.MismatchDoesNotBlock | src/components/Register.js:76-79 | a password mismatch warns and still accepts |
| Register.ResetFormRejected | src/components/Register.js:39-43 | the form reset to single spaces is rejected by the username length check, not by the required check |
| Register.RegisterPage.constructor | src/components/Register.js:15-20 | the form starts with three empty fields and not loading |
| Register.RegisterPage.Register | src/components/Register.js:27-55 | a failed validation posts nothing and changes nothing. Otherwise the username and password are posted. Success resets every field to `" "` and adds "Registered Successfully" after the validator's warnings; a failure keeps the form and adds the error snackbar. It is never left loading |
| Login.ValidateInput | src/components/Login.js:58-68 | accepted exactly when neither field is `""`. The username warning wins when both are empty, and acceptance raises nothing |
| Login.NoMinimumLength | src/components/Login.js:67 | one-character username and password are accepted |
| Login.Persisted | src/components/Login.js:70-74 | the store gains exactly the keys `token`, `username`, `balance`, with the given values (balance as its decimal text), and every other key keeps its value |
| Login.PersistOverwrites | src/components/Login.js:70-74 | a later login replaces all three keys of an earlier one, and persisting twice equals persisting once |
| Login.LoginPage.constructor | src/components/Login.js:18-22 | the form starts empty and not loading, over the given store |
| Login.LoginPage.PersistLogin | src/components/Login.js:70-74 | the three writes leave the store as `Persisted` says |
| Login.LoginPage.Login | src/components/Login.js:25-56 | a failed validation posts nothing and changes nothing. Otherwise the form is posted. Any answer clears the form and shows "logged in successfully", even with `success` false, and only `success` persists the session. A failure keeps form and store and shows the error snackbar |

## Left out

- HTTP transport (axios, endpoints, headers, bearer tokens): backend answers are method parameters, and the search text (used only to build the URL) is not modelled.
- `performAPICall`, the initial catalog load (src/components/Products.js:79-99): it is outside the modelled core. Only its success path matches PerformSearch, replacing `products` with the answer. On failure it raises a snackbar (the backend's message on a 400, the generic text otherwise) and never stores `"empty"`, and it sets `loading`.
- `debounceSearch` (src/components/Products.js:139-145): it is timer-based. It also cancels nothing, because its handle is a fresh local, so no "at most one search" property holds.
- React rendering, hooks and `useEffect` ordering, MUI, navigation (`history.push`), the redux `loginSuccess` dispatch and `console.log`: framework glue. Each method runs to completion, and async interleaving and out-of-order answers are not modelled.
- The browser `localStorage` API: modelled only as the map field `LoginPage.storage`. Reading the token elsewhere is a `token` parameter.
- Floating-point `cost`, `qty` and the login `balance`: all are `int`. A fractional `balance` would be stored by `String(balance)` with its fraction, while `NumberToString` writes only integer decimal text.
- String length: JavaScript `.length` counts UTF-16 code units, while the model counts Dafny characters, so the two differ for characters outside the Basic Multilingual Plane.
- Cart.GetTotalCartValue and Cart.TotalItems: the default `items = []` applies only to `undefined`. A `null` argument would make the source throw, and the model treats it as absent like `undefined`. `cartItemList` is never `null`, because the join returns `undefined` for a missing cart, so no caller passes one.
- Other JavaScript falsy or odd values (a NaN or string `qty`, a missing `qty` on a cart entry, a token stored as the text "undefined") are not modelled. Truthiness is `undefined`/`null`/`""` for strings and `undefined`/0 for quantities.
- Products.IsItemInCart: is only given line items, which are catalog objects and always carry `_id`, as at its one caller. A list of raw `{productId, qty}` entries, which it would never report present because it reads only `_id`, is not modelled.
- An uncaught exception (a rejected promise) is modelled only as "the operation ends with no state change and no snackbar"; the rejection itself is not.
