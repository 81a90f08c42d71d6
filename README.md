# Storefront data layer, modelled in Dafny

This project models the logic of a React storefront: the parts that are more
than markup. There are five of them.

- **Cart** (`src/context/CartContext.js`, module `Cart`).
  - A pure reducer over the ordered list of cart lines.
  - Queries and price folds over that list.
  - The guarded commands the provider exposes: `addToCart` declines when the stock would be exceeded, and `updateQuantity` ignores negative quantities.
  - The provider itself, as the class `CartStore`. It holds the lines and keeps the durable copy (`shophub_react_cart`) equal to them after every change.
- **Caching fetch client** (`src/services/apiService.js`, module `ApiService`).
  - The lookup order is: the in-memory map, then the durable store under `shophub_cache_<key>`, then at most three network attempts with linear waits.
  - Freshness is strict: an entry is fresh while `now - timestamp < expiry`.
  - The retry loop is a method checked against a recursive specification.
  - `fetchWithCache` is a method of the class `Service`, checked against the pure function `Fetch`. It keeps ghost traces of the attempts made and the waits.
  - The module also fixes the cache keys and lifetimes of the five exported fetchers.
- **Catalog view** (`src/context/ProductContext.js`, module `Catalog`).
  - The pure `productReducer`.
  - The search filter and the stable numeric sorts.
  - The category filter and the sanitising of loaded categories.
  - The provider as the class `Store`, whose commands only dispatch to the reducer.
- **Helpers** (`src/utils/helpers.js`, module `Helpers`): category names, stock status, e-mail and PIN validation, phone and address formatting, and the INR price arithmetic.
- **Checkout** (`src/pages/CheckoutPage.js`, module `Checkout`).
  - The per-field rules.
  - The digit cleaning of phone and PIN input.
  - The form state that the change, blur and submit handlers update, as the class `Form`.
  - The order totals, with free shipping from 999 and a flat 99 below.

Supporting modules:

- `Wrappers`: `Option` and `Result`.
- `Seqs`: `filter`, and a stable insertion sort standing in for `Array.prototype.sort`.
- `Text`: the JavaScript string built-ins used: `\s`, `\d`, `trim`, ASCII case mapping, `replace(/\D/g, '')`, `includes`, `split` and `join`.
- `JsValue`: JSON-like values and truthiness.
- `Products`: the product record.

Prices are exact `real`s. The rate 83.12 and the GST rate 0.18 are used as exact decimals.

Effects are parameters of the model:

- the clock is a `now` parameter;
- the network is the sequence of responses the successive attempts would receive;
- storage is a map;
- a fetch that a provider command awaits is a `Result` parameter of that command.

Behaviours of the code that the proofs make explicit:

- `getCartGrandTotal` (`src/context/CartContext.js:138`) is the subtotal plus GST and adds no shipping (`Cart.GrandTotalIsSubtotalWithGst`). Shipping enters only in the pages. The checkout's `computeTotals` adds 99 below a subtotal of 999. The cart page's displayed grand total (`src/pages/ShoppingCartPage.js:170`) adds 99 below `999 * 83.12`, while its shipping line (`src/pages/ShoppingCartPage.js:161`) shows FREE from 999. The cart page is not part of this model.
- The comment at `src/services/apiService.js:88` calls the backoff exponential, but the wait is `1000 * attempt` ms: 1000, then 2000 (`ApiService.Retry`, `ApiService.RetryWaits`, `ApiService.TotalWaitWhenAllFail`).
- No invariant keeps a line's quantity within the stock captured when the line was added:
  - when `addToCart` merges into an existing line, it checks against the stock of the product passed in now, while the line keeps its first snapshot (`Cart.StaleSnapshotExceedsStock`);
  - `updateQuantity` does not check stock at all (`Cart.UpdateIgnoresStock`).

  The invariant that does hold is `Cart.AddPreservesWithinStock`: it needs the product passed in to record the same stock as the line.

- The checkout applies a negative discount as a surcharge. The cart ignores a negative discount. So the two subtotals differ (`Checkout.NegativeDiscountTotalsDiffer`). Without negative discounts they agree (`Checkout.CheckoutMatchesCart`).
- The phone field keeps the first ten digits typed. A valid number typed behind its `91` country code is therefore stored as `91` followed by its first eight digits, and that value passes the phone rule (`Checkout.CountryCodeShiftsNumber`).
- A negative stock is shown as low stock, yet `addToCart` declines every quantity for it (`Cart.NegativeStockShownButDeclined`).

## Model

| member | source | states |
|---|---|---|
| Cart.Find | src/context/CartContext.js:12 | the found line is in the list, has the id and no earlier line has it; nothing is found iff no line has the id |
| Cart.AddQuantity | src/context/CartContext.js:17-21 | same length and products; exactly the lines with the id gain the quantity |
| Cart.SetQuantity | src/context/CartContext.js:48-52 | same length and products; exactly the lines with the id get the new quantity |
| Cart.Reduce | src/context/CartContext.js:8-66 | ADD_TO_CART grows the list by one line iff the id is new; REMOVE_FROM_CART and UPDATE_QUANTITY to <= 0 leave no line with the id; UPDATE_QUANTITY to > 0 keeps the length |
| Cart.AddExistingLine | src/context/CartContext.js:12-23 | ADD_TO_CART of an id in the cart adds the quantity to that line only; count and order of lines unchanged |
| Cart.AddNewLine | src/context/CartContext.js:25-28 | ADD_TO_CART of a new id appends exactly one line with the product and quantity |
| Cart.RemoveLine | src/context/CartContext.js:30-35 | REMOVE_FROM_CART keeps exactly the other lines, as a subsequence in order and with their multiplicities; an absent id changes nothing |
| Cart.UpdateLine | src/context/CartContext.js:37-53 | UPDATE_QUANTITY with q <= 0 is REMOVE_FROM_CART; with q > 0 only the matching line's quantity becomes q, no stock check |
| Cart.ClearLoadUnknown | src/context/CartContext.js:55-64 | CLEAR_CART empties; LOAD_CART installs the lines verbatim or [] when absent; an unknown action changes nothing |
| Cart.IsInCart | src/context/CartContext.js:141 | true iff some line has the id |
| Cart.QuantityOf | src/context/CartContext.js:144-147 | 0 when no line has the id; otherwise the quantity of the first line with the id |
| Cart.ItemCount | src/context/CartContext.js:129 | with quantities >= 1, at least the number of lines |
| Cart.SubtotalNonNegative | src/context/CartContext.js:123-126 | the subtotal is non-negative when every line total is |
| Cart.GrandTotal | src/context/CartContext.js:132-138 | for a non-negative subtotal, between the subtotal and twice it |
| Cart.QuantityOfLine | src/context/CartContext.js:144-147 | with unique ids, the quantity reported for a line's id is that line's quantity |
| Cart.SubtotalAppend | src/context/CartContext.js:123-129 | the subtotal and item count folds distribute over appending a line |
| Cart.GrandTotalIsSubtotalWithGst | src/context/CartContext.js:132-138 | grand total = subtotal * 1.18, with no shipping term |
| Cart.AddExistingTotals | src/context/CartContext.js:12-23 | merging raises the item count by q and the subtotal by q units at that line's snapshot price |
| Cart.AddTotals | src/context/CartContext.js:10-28 | every ADD_TO_CART raises the item count by q and the subtotal by q units of the line it lands on |
| Cart.RemoveTotals | src/context/CartContext.js:30-35 | removing an id lowers the count by its quantity and the subtotal by its line total |
| Cart.WithoutWellFormed | src/context/CartContext.js:30-35 | removal keeps ids unique and quantities positive |
| Cart.AddGuard | src/context/CartContext.js:94-104 | ignored iff no product or quantity <= 0; declined iff current + quantity exceeds the stock (missing stock = 0); added iff neither |
| Cart.Execute | src/context/CartContext.js:94-120 | removeFromCart and updateQuantity to 0 leave no line with the id; other updates keep the length; clearCart empties |
| Cart.AddQuantityRaisesFirst | src/context/CartContext.js:17-21 | merging raises the quantity reported for the id by q |
| Cart.AppendedLineQuantity | src/context/CartContext.js:25-28 | an appended line's quantity is the one reported for its new id |
| Cart.AddCommandEffect | src/context/CartContext.js:94-108 | an accepted addToCart raises the id's quantity by q; an ignored or declined one leaves the cart unchanged |
| Cart.ExecutePreservesWellFormed | src/context/CartContext.js:94-120 | each command keeps ids unique and quantities >= 1 |
| Cart.RunPreservesWellFormed | src/context/CartContext.js:94-120 | any command sequence from a well-formed (e.g. empty) cart leaves it well-formed |
| Cart.AddPreservesWithinStock | src/context/CartContext.js:94-108 | addToCart keeps every line within its recorded stock when the passed product's stock matches the line's |
| Cart.StaleSnapshotExceedsStock | src/context/CartContext.js:97-106 | with a raised live stock, a merge pushes a line past its snapshot's stock |
| Cart.UpdateIgnoresStock | src/context/CartContext.js:114-117 | updateQuantity sets 100 on a product with stock 5 |
| Cart.NegativeStockShownButDeclined | src/context/CartContext.js:101 | a negative stock is shown as low stock while every positive add is declined |
| Cart.AddTwiceThenUpdateToZero | src/context/CartContext.js:94-117 | two adds merge into one line, a third is declined by stock, and updating to 0 empties the cart |
| Cart.Restore | src/context/CartContext.js:76-86 | parsed storage is loaded verbatim; missing or unparseable storage leaves the empty cart |
| Cart.CartStore.constructor | src/context/CartContext.js:76-91 | the provider starts with the restored lines and storage equal to them |
| Cart.CartStore.Dispatch | src/context/CartContext.js:89-91 | the lines become the reducer's result and storage is rewritten with them |
| Cart.CartStore.AddToCart | src/context/CartContext.js:94-108 | the outcome is the guard's verdict and the lines are the command's result; storage stays in step |
| Cart.CartStore.RemoveFromCart | src/context/CartContext.js:111 | the lines become REMOVE_FROM_CART's result |
| Cart.CartStore.UpdateQuantity | src/context/CartContext.js:114-117 | negative quantities change nothing; otherwise UPDATE_QUANTITY's result |
| Cart.CartStore.ClearCart | src/context/CartContext.js:120 | the lines and their stored copy become empty |
| Cart.CartStore.GetCartTotal | src/context/CartContext.js:123-126 | the left-to-right reduce equals the subtotal fold |
| Cart.CartStore.GetItemCount | src/context/CartContext.js:129 | the left-to-right reduce equals the sum of quantities |
| ApiService.DurableKey | src/services/apiService.js:35 | the durable key is the 14-character prefix followed by the cache key |
| ApiService.RetryFrom | src/services/apiService.js:55-92 | from attempt a, the attempt count stays in a..3 and the waits are 1000*a, 1000*(a+1), … one per failed attempt before the last |
| ApiService.Retry | src/services/apiService.js:52-93 | 1 to 3 attempts; the i-th wait is 1000*i ms, one fewer wait than attempts |
| ApiService.RetryStopsAtFirstSuccess | src/services/apiService.js:55-86 | 1 to 3 attempts, stop at the first ok response with its data and time, a failure reports the third attempt's error |
| ApiService.RetryWaits | src/services/apiService.js:88-91 | the k-th wait is 1000*k ms, after every failed attempt but the last |
| ApiService.TotalWaitWhenAllFail | src/services/apiService.js:88-91 | three failures wait [1000, 2000], 3000 ms in all |
| ApiService.RetryLoop | src/services/apiService.js:52-93 | the loop's result, attempt count and waits are those of the retry specification |
| ApiService.Fetch | src/services/apiService.js:20-97 | memory answers iff its entry is fresh, with no change; a fresh durable entry is promoted to memory; otherwise the attempts, waits, success and data are those of the retry loop, a success is stored in memory (and durably if the write succeeds), and a failure reports the loop's last error with no memory entry |
| ApiService.FetchTouchesOnlyItsKey | src/services/apiService.js:20-97 | no entry of any other key changes in either tier |
| ApiService.NetworkOnlyOnMiss | src/services/apiService.js:22-49 | the network is used iff neither tier holds a fresh entry; an expired durable entry is then removed, a corrupt one left |
| ApiService.FailureReportsLastError | src/services/apiService.js:95-96 | a failure comes after 3 attempts with "Failed to load data after 3 attempts: " + the last error |
| ApiService.StoredThenServedFromMemory | src/services/apiService.js:22-83 | what a call stores is served from memory by the next call until it expires, with the same data |
| ApiService.PromotedThenServedFromMemory | src/services/apiService.js:38-43 | a promoted durable entry keeps its timestamp and answers the next call from memory |
| ApiService.FreshBoundary | src/services/apiService.js:25 | freshness is strict: fresh at t + expiry - 1, stale at t + expiry |
| ApiService.Service.constructor | src/services/apiService.js:8-11 | an empty memory map over the existing durable store |
| ApiService.Service.FetchWithCache | src/services/apiService.js:20-97 | result and both tiers are those of `Fetch`; the traces grow by the attempts made and the waits |
| ApiService.RequestLifetimes | src/services/apiService.js:107-149 | 30 minutes for products, product by id and category; 24 hours for categories; 15 minutes for search |
| ApiService.RequestKeysDistinct | src/services/apiService.js:107-149 | fetchers never share a cache key, and the key determines the id, query or category |
| Catalog.ReduceWritesOnly | src/context/ProductContext.js:8-46 | each action leaves every field it does not write unchanged; an unknown action changes nothing |
| Catalog.Reduce | src/context/ProductContext.js:8-46 | each action's written value: SET_LOADING the flag, SET_ERROR the message and loading off, CLEAR_ERROR no error, SET_PRODUCTS equal product and filtered lists with loading off and no error, SET_FILTERED_PRODUCTS and SET_CATEGORIES the payload or [], SET_CURRENT_PRODUCT the product with loading off, SET_SEARCH_QUERY and SET_SELECTED_CATEGORY their value; only SET_SEARCH_QUERY changes the query and only SET_PRODUCTS the product list |
| Catalog.SetProductsAndError | src/context/ProductContext.js:13-26 | SET_PRODUCTS sets both lists to the payload (none = []), ends loading and clears the error; SET_ERROR records and ends loading |
| Catalog.Search | src/context/ProductContext.js:128-142 | no longer than the products; every result is a product passing both tests; no active test keeps the list |
| Catalog.SearchIsOnePass | src/context/ProductContext.js:128-142 | the two filters equal one filter by both tests: an in-order subsequence holding exactly the matching products |
| Catalog.SortIsPermutation | src/context/ProductContext.js:145-168 | every criterion yields a permutation; an unknown criterion keeps the order |
| Catalog.Sorted | src/context/ProductContext.js:145-166 | every criterion yields a permutation of the list |
| Catalog.SortOrdersByKey | src/context/ProductContext.js:148-163 | a numeric criterion sorts by its key and keeps equal keys in their prior order |
| Catalog.SortOrders | src/context/ProductContext.js:148-163 | price-low ascending; price-high, rating and discount descending (missing as 0) |
| Catalog.SortIsIdempotent | src/context/ProductContext.js:148-163 | sorting a sorted list again changes nothing |
| Catalog.ValidCategories | src/context/ProductContext.js:80 | a category is kept iff it is a string in the payload that is not blank after trim |
| Catalog.CategoryCandidates | src/context/ProductContext.js:79-80 | an array payload is used as is; otherwise an array `categories` member is used; a falsy member gives []; the filter throws iff the payload is no array and its truthy `categories` is no array |
| Catalog.LoadedCategoriesNotBlank | src/context/ProductContext.js:76-93 | no installed category is blank; a failed fetch, or a payload whose chosen value is no array (the throwing filter), installs the 24 fallback codes, each with a display name |
| Catalog.ValidCategoriesKeepsGoodStrings | src/context/ProductContext.js:79-81 | an array of non-blank strings is installed unchanged |
| Catalog.SearchProductsShowsMatches | src/context/ProductContext.js:128-142 | search records the query, shows exactly the matches in order, keeps products and category |
| Catalog.SortProductsReorders | src/context/ProductContext.js:145-169 | sorting permutes the filtered list and leaves the product list alone |
| Catalog.FilterAllShowsEverything | src/context/ProductContext.js:108-125 | '' or 'all' selects the category and shows the whole product list, ending loading |
| Catalog.FilterFetchedCategory | src/context/ProductContext.js:108-125 | a real category shows the fetched products (none = []); a failure keeps the list and records a non-empty error |
| Catalog.Store.constructor | src/context/ProductContext.js:49-58 | the provider starts in the initial state |
| Catalog.Store.Dispatch | src/context/ProductContext.js:61 | the state becomes the reducer's result |
| Catalog.Store.SearchProducts | src/context/ProductContext.js:128-142 | the state becomes that of the search specification |
| Catalog.Store.SortProducts | src/context/ProductContext.js:145-169 | the state becomes that of the sort specification |
| Catalog.Store.FilterByCategory | src/context/ProductContext.js:108-125 | the state becomes that of the category-filter specification |
| Catalog.Store.LoadCategories | src/context/ProductContext.js:76-94 | the categories become the sanitised payload or the fallback |
| Helpers.FormatCategoryNameKeepsWords | src/utils/helpers.js:44-60 | splitting the display name on spaces gives the displayed input words: the word count is kept |
| Helpers.FormatCategoryName | src/utils/helpers.js:44-60 | "" gives "Uncategorized"; the display name is never empty |
| Helpers.FormatOneWordCategory | src/utils/helpers.js:48-55 | a code without a dash shows its one displayed word |
| Helpers.TableIsFormatted | src/utils/helpers.js:151-180 | each of the 24 table names is the formatted name of its code |
| Helpers.FormatTwoWordCategory | src/utils/helpers.js:48-55 | a two-word code shows its two displayed words joined by a space |
| Helpers.GetCategoryDisplayName | src/utils/helpers.js:151-180 | a known code gets its table name, and every code's result equals its formatted name |
| Helpers.SanitizeString | src/utils/helpers.js:143-145 | a non-empty string passes through; anything else gives the fallback |
| Helpers.GetStockStatus | src/utils/helpers.js:81-87 | out of stock iff 0, in stock iff > 10, low stock iff negative or 1..10 |
| Helpers.ValidatePinCode | src/utils/helpers.js:103-107 | an accepted PIN is its own digit string |
| Helpers.PinCodeRule | src/utils/helpers.js:103-107 | accepted iff six digits whose first is not 0 |
| Helpers.ValidateEmail | src/utils/helpers.js:93-97 | an accepted address contains @, no space, and does not start with @ |
| Helpers.ValidateEmailMatchesPattern | src/utils/helpers.js:93-97 | accepted iff the string is three non-empty runs of non-space, non-@ characters around one @ and a dot |
| Helpers.FormatIndianPhoneNumber | src/utils/helpers.js:213-220 | "" gives ""; ten digits starting 6-9 give "+91 " + the first five + " " + the last five; any other input is returned unchanged |
| Helpers.FormatIndianPhoneNumberIdempotent | src/utils/helpers.js:213-220 | a reformatted number is 15 characters whose digits are 91 then the input's digits; formatting twice changes nothing more |
| Helpers.DigitsOfFormatted | src/utils/helpers.js:215-217 | the digits of "+91 XXXXX XXXXX" are 91 followed by the ten digits |
| Helpers.FormatIndianAddress | src/utils/helpers.js:233-237 | "" iff there is no address or all four parts are empty; four non-empty parts read "street, city, state, pinCode" |
| Helpers.FormatIndianAddressSkipsBlank | src/utils/helpers.js:236 | one empty part is dropped with its separator: the other three are joined by ", " in order |
| Helpers.CalculateDiscountedPrice | src/utils/helpers.js:67-75 | a non-positive discount gives price * 83.12; a discount up to 100% gives a price between 0 and that |
| Helpers.CalculateGst | src/utils/helpers.js:225-228 | the tax on a non-negative amount at a rate in [0, 1] is between 0 and the amount |
| Checkout.TextFieldRules | src/pages/CheckoutPage.js:48-53 | fullName fails iff trimmed length < 2, address iff < 10, city and state iff blank |
| Checkout.FieldRules | src/pages/CheckoutPage.js:50-54 | phone passes iff 10 digits starting 6-9; PIN iff validatePinCode |
| Checkout.EmailRule | src/pages/CheckoutPage.js:49 | e-mail passes iff it matches the e-mail pattern |
| Checkout.ValidateField | src/pages/CheckoutPage.js:46-57 | a name without a rule always passes |
| Checkout.BlankFieldFails | src/pages/CheckoutPage.js:46-57 | a blank value fails every field of the form |
| Checkout.Prefix | src/pages/CheckoutPage.js:64 | `slice(0, n)`: a prefix of length min(n, length) |
| Checkout.CleanInput | src/pages/CheckoutPage.js:60-71 | phone keeps the first min(10, n) of its n digits, PIN the first min(6, n); other fields are stored as typed |
| Checkout.CleanInputIdempotent | src/pages/CheckoutPage.js:63-71 | cleaning a cleaned value changes nothing |
| Checkout.CleanedPhoneRule | src/pages/CheckoutPage.js:50-64 | a cleaned phone passes iff the typed value has >= 10 digits and the first is 6-9 |
| Checkout.CleanedPinRule | src/pages/CheckoutPage.js:54-64 | a cleaned PIN passes iff the typed value has >= 6 digits and the first is not 0 |
| Checkout.CountryCodeShiftsNumber | src/pages/CheckoutPage.js:64 | "91" + a valid number is stored as 91 and its first eight digits, and passes the phone rule |
| Checkout.FormAcceptedIffAllFieldsPass | src/pages/CheckoutPage.js:84-92 | no errors iff every field passes |
| Checkout.CollectErrors | src/pages/CheckoutPage.js:85-89 | the accumulating loop yields exactly the failing fields with their messages |
| Checkout.Form.constructor | src/pages/CheckoutPage.js:13-24 | seven empty fields and no errors |
| Checkout.Form.HandleInputChange | src/pages/CheckoutPage.js:60-74 | the field gets its cleaned value; its error is blanked only if one is shown; nothing else changes |
| Checkout.Form.HandleInputBlur | src/pages/CheckoutPage.js:77-81 | a failing field's error is shown; a passing field leaves the errors unchanged |
| Checkout.Form.ValidateForm | src/pages/CheckoutPage.js:84-92 | the errors become exactly the failing fields; true iff every field passes |
| Checkout.ComputeTotals | src/pages/CheckoutPage.js:95-106 | gst = 18% of the subtotal; shipping is 0 iff subtotal >= 999, else 99; final = subtotal + gst + shipping = subtotal * 1.18 + shipping |
| Checkout.LineTotalsAgree | src/pages/CheckoutPage.js:98-99 | without a negative discount a line costs what the cart charges for it |
| Checkout.CheckoutMatchesCart | src/pages/CheckoutPage.js:95-104 | without negative discounts the subtotal is the cart's and the final total is the cart's grand total plus shipping |
| Checkout.NegativeDiscountTotalsDiffer | src/pages/CheckoutPage.js:98 | a -10% discount is a surcharge at checkout but ignored by the cart |

## Left out

- Rendering, routing and every JSX component are not modelled: they are presentation only.
- `debounce`, the 2500 ms checkout delay and React's asynchronous interleaving of dispatches are not modelled. Each command is modelled as running to completion on the state it starts from.
- `fetch`, `response.json()`, `localStorage`, `JSON.parse`/`stringify` and `Date.now()` are replaced by parameters. These are: a sequence of responses, maps standing for the stores, a `Stored`/`Durable` value for what parsing yields, and `now`.
- ApiService.Fetch: assumes the network sequence holds at least three responses. This is a modelling convenience: the loop never reads past the third.
- ApiService.Fetch: a durable entry without a numeric timestamp is not modelled. In the code the NaN comparison makes such an entry stale.
- ApiService.RequestKeysDistinct: the `limit` argument of `fetchProducts`, `searchProducts` and `fetchProductsByCategory` is not modelled. It goes only into the URL, never into the cache key, so calls that differ only in `limit` share one cache entry.
- ApiService.Service.FetchWithCache: the URL is not modelled, only the cache key, because the network is a parameter. Console logging is left out.
- Cart.CartStore.Dispatch: the persist effect writes once per render, after the reducer. The model writes the durable copy together with each dispatch, which is the state the effect settles in.
- Cart.CartStore.Dispatch: assumes every write to storage succeeds. At `src/context/CartContext.js:90` the `setItem` call is outside any try/catch, so a failed write (a full or unavailable store) throws out of the persist effect. The fetch client's guarded write is modelled as possibly failing (`durableWriteOk`), but the cart's write is not.
- Cart.CartStore.AddToCart: the warning text logged on a declined add is not modelled.
- Catalog.SortIsPermutation: for the `name` criterion, `localeCompare` is replaced by code-point order, so only the permutation is claimed for it.
- Catalog.Store.SortProducts: the in-place `Array.prototype.sort` on a copied array is modelled on values by a stable insertion sort. The copy makes the in-place update invisible to the rest of the state.
- `loadProducts`, `loadProductById` and `clearError` of the catalog provider are not modelled beyond the reducer actions they dispatch, which `Catalog.ReduceWritesOnly` and `Catalog.SetProductsAndError` cover.
- `handleSubmit` and `generateOrderNumber` are not modelled: they depend on the clock and on a timer.
- `formatPrice`, `formatPriceWithUSD`, `Intl.NumberFormat` and display rounding are left out. Only the exact arithmetic behind the prices is modelled.
- `safelyAccessProperty`, `isValidNumber`, `parseFloat`/`parseInt` and the `|| 0` coercions of non-numbers are left out. Numeric fields are assumed well-typed, as `real` or `int`; IEEE-754 rounding and NaN are not modelled.
- Helpers.FormatCategoryName: takes a string, so the non-string branch of the `'Uncategorized'` guard is not modelled. Only the empty string reaches it.
- Helpers.GetCategoryDisplayName: the lookup is modelled as a map. The code indexes a plain object, where inherited names such as `constructor` would also be found.
- Helpers.FormatIndianPhoneNumber: takes a string, so the non-string branch is not modelled.
- Text.ToLower: case mapping covers the ASCII letters only. JavaScript's `toLowerCase` and `toUpperCase` also map other scripts.
- Checkout.TextFieldRules: lengths count characters, whereas JavaScript's `length` counts UTF-16 code units. The two differ only for characters outside the Basic Multilingual Plane.
