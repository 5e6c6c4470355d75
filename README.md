# AurelisEC storefront core, modelled in Dafny

AurelisEC is a small e-commerce storefront. It has a React/TypeScript
frontend and a Django REST backend. This project models the logic at its
core and proves properties of that model:

- **the shopping cart** (`CartContext`, `CartItem`): lines are keyed by
  product, color and size. Adding an existing key merges the quantities.
  The cart is mirrored into local storage, and its total is the sum of
  price times quantity.
- **authentication** (`auth.ts`, `api.ts`, `AuthContext`): the token store
  kept in local storage, JWT expiry, the refresh call, and the axios
  interceptors. They attach the bearer token and retry a request once
  after a 401 with a refreshed token. The session state comes from login,
  logout, profile refresh and the start-up check. The profile request of
  `refreshUser`, the order request of checkout and the product list
  request all go through that same client, so its 401 handling can
  rotate or clear the tokens.
- **product pages**:
  - `ProductCard` builds the default cart line.
  - `ProductDetail` runs variant validation, the quantity stepper, the
    image gallery and buy-now.
  - `FilterSidebar` turns the filter form into URL query parameters.
  - `ProductList` and `ProductListInfinite` turn those parameters into
    the query sent to the API.
  - `useInfiniteProducts` fetches pages and flattens them.
- **checkout and order history**:
  - `PaymentForm` validates the card fields, builds the order payload and
    handles success and failure.
  - The backend order serializer creates the order, item rows and payment
    with a server-computed total.
  - `OrderHistory` formats badges and labels.
- **the backend product listing** (`products/views.py`,
  `products/serializers.py`): filtering by category, price range, stock
  and search text, and sorting. The featured endpoint returns the first
  eight in-stock products. A product's featured image is the first image
  marked featured, or else its first image.
- **helpers** (`helpers.ts`): text truncation, initials, e-mail
  validation, random keys and error-message extraction.

Money is an integer number of cents throughout. Query strings are ordered
lists of key/value pairs:

- `URLSearchParams.get` reads the first value for a key, `set` replaces
  the first occurrence and drops the rest, and `delete` removes every
  occurrence.
- Django's `QueryDict.get` reads the last value for a key.

Anything outside the program becomes a parameter of the operation that
uses it: an HTTP reply, a JWT decoder, the clock, `Math.random()`, the
decimal parser, the database's prices and `JSON.stringify`. A request
through the API client takes a `ProfileCall`, `OrderCall` or `ListCall`:
the server's replies, the refresh reply and the reading of the user, the
new order's id or the products from an ok body. The state that
components and contexts update in place is modelled as classes:

- `Cart`, `TokenStore` and `Session`.
- `RequestConfig`, the axios request object.
- `ProductDetailView`, `FilterPanel`, `PaymentFormState` and
  `ProductListView`.
- `OrderDb`, the three tables the order serializer writes.

Each method is proved against a specification function, and the
properties the source promises are lemmas about those functions.

Modules (one per file): `Common`, `QueryParams`, `Products`, `CartStore`,
`CartLineView`, `Tokens`, `ApiClient`, `AuthSession`, `Helpers`,
`OrderHistory`, `ProductSerializers`, `ProductCard`, `ProductDetail`,
`OrderCreate`, `PaymentForm`, `FilterSidebar`, `InfiniteProducts`,
`ProductList`, `ProductListInfinite`, `ProductViews`.

### Where the code and its documentation differ (the model follows the code)

- `isTokenExpired` treats a token as expired only when `exp * 1000 < now`.
  A token whose expiry equals the current millisecond is still valid
  (`Tokens.ExpiryBoundaryNotExpired`).
- When the refresh inside the response interceptor fails, the request
  rejects with the refresh error, not with the original 401
  (`ApiClient.FailedRefreshRejectsWithRefreshError`).
- A login whose profile fetch fails still leaves the session
  authenticated.
- The profile fetch goes through the API client, so a 401 on it makes the
  response interceptor refresh the tokens. A refused refresh removes both
  tokens, even during `checkAuthStatus` with an unexpired access token
  (`AuthSession.RevokedTokenClearsStorage`). A successful one rotates the
  access token (`AuthSession.RevokedTokenRotates`). The tokens stay as
  they were when the failure is not a 401
  (`AuthSession.NonUnauthorizedProfileKeepsStorage`), or when it is a 401
  but no refresh token is stored: the refresh then throws before it
  touches storage (`AuthSession.UnauthorizedWithoutRefreshTokenKeepsStorage`).
- `ProductList` appends `category` twice when both the route prop and the
  URL carry one. Django reads the last value, so the URL's category wins
  on the server (`ProductList.ServerCategory`).

## Model

| member | source | states |
|---|---|---|
| Common.Upper | frontend/src/utils/helpers.ts:96-99 | `toUpperCase` keeps the length and maps each character to its upper-case form (ASCII letters) |
| Common.Lower | backend/products/views.py:49 | `lower()` keeps the length and maps each character to its lower-case form (ASCII letters) |
| Common.FirstChar | frontend/src/utils/helpers.ts:96-99 | `charAt(0)` is "" for the empty string and the first character otherwise |
| Common.NatToString | frontend/src/hooks/useInfiniteProducts.ts:18 | `pageParam.toString()` is a non-empty string of decimal digits |
| Common.NatToStringRoundTrip | frontend/src/hooks/useInfiniteProducts.ts:18 | reading the rendered page number back gives the same number |
| Common.ParseDigitsBelow | frontend/src/components/Checkout/PaymentForm.tsx:181 | a string of n digits reads as a number below 10^n |
| QueryParams.Get | frontend/src/components/Products/FilterSidebar.tsx:85 | `URLSearchParams.get`: none exactly when the name has no value, else its first value |
| QueryParams.GetLast | backend/products/views.py:36 | Django's `QueryDict.get`: none exactly when the name has no value, else its last value |
| QueryParams.FirstKeyIndex | frontend/src/components/Products/FilterSidebar.tsx:85 | the position of the first pair with the name, or the length when there is none |
| QueryParams.GetIsFirstPair | frontend/src/components/Products/FilterSidebar.tsx:85 | `get` returns the value of the first pair with the name, or none |
| QueryParams.Values | frontend/src/components/Products/FilterSidebar.tsx:47-91 | the values stored under a key, in order; never more than the pairs |
| QueryParams.Without | frontend/src/components/Products/FilterSidebar.tsx:47-91 | dropping a set of keys keeps exactly the pairs with other keys, none of the dropped keys |
| QueryParams.Delete | frontend/src/components/Products/FilterSidebar.tsx:56-82 | `delete(k)` leaves no value under `k` and every other key's values unchanged |
| QueryParams.Append | frontend/src/components/Products/ProductList.tsx:38-55 | `append(k, v)` adds `v` after the values of `k` and changes no other key |
| QueryParams.Set | frontend/src/components/Products/FilterSidebar.tsx:50-80 | `set(k, v)` leaves exactly `[v]` under `k`, keeps other keys' values and the pairs of other keys in order |
| QueryParams.ValuesConcat | frontend/src/components/Products/ProductList.tsx:38-55 | the values of a concatenation are the values of each part, in order |
| QueryParams.ValuesConcatAll | frontend/src/components/Products/ProductList.tsx:38-55 | the same for every key at once |
| QueryParams.ValuesWithout | frontend/src/components/Products/FilterSidebar.tsx:47-91 | after dropping keys, a dropped key has no values and every other key keeps its values |
| QueryParams.WithoutTwice | frontend/src/components/Products/FilterSidebar.tsx:47-91 | dropping two key sets in turn equals dropping their union |
| QueryParams.WithoutConcat | frontend/src/components/Products/FilterSidebar.tsx:47-91 | dropping keys distributes over concatenation |
| QueryParams.WithoutAfterSet | frontend/src/components/Products/FilterSidebar.tsx:50-80 | a `set` on a filter key leaves the pairs of all non-filter keys as they were |
| QueryParams.WithoutAfterDelete | frontend/src/components/Products/FilterSidebar.tsx:56-82 | a `delete` on a filter key leaves the pairs of all non-filter keys as they were |
| QueryParams.SetWhenAbsent | frontend/src/components/Products/FilterSidebar.tsx:50-80 | `set` on a key that is absent appends one pair at the end |
| QueryParams.SetPosition | frontend/src/components/Products/FilterSidebar.tsx:50-80 | `set` writes the new pair where the first pair with the name was and removes the later ones, or appends it when the name is absent |
| QueryParams.SetSpotCons | frontend/src/components/Products/FilterSidebar.tsx:50-80 | a pair with another name in front moves the place `set` writes to by one |
| CartStore.IndexOfKey | frontend/src/context/CartContext.tsx:39-41 | `findIndex` is -1 exactly when no line has the key; otherwise it is the first line with the key |
| CartStore.WithQuantity | frontend/src/context/CartContext.tsx:55-63 | every line keeps its key and fields; lines with the key get the new quantity and the others keep theirs |
| CartStore.AddExisting | frontend/src/context/CartContext.tsx:43-47 | adding a line whose key is present raises the first matching line's quantity by the added quantity, changes nothing else, keeps the length |
| CartStore.AddNew | frontend/src/context/CartContext.tsx:50 | adding a line with a new key appends it |
| CartStore.AddKeepsUnique | frontend/src/context/CartContext.tsx:36-52 | adding keeps keys unique; the new key occurs once and other keys' counts are unchanged |
| CartStore.AddTwice | frontend/src/context/CartContext.tsx:36-52 | adding two lines with the same new key gives one line whose quantity is the sum |
| CartStore.UpdateKeepsUnique | frontend/src/context/CartContext.tsx:55-63 | a quantity update keeps keys unique |
| CartStore.RemoveKeepsUnique | frontend/src/context/CartContext.tsx:65-71 | removal keeps keys unique and leaves no line with the removed key |
| CartStore.RemoveDropsExactlyKey | frontend/src/context/CartContext.tsx:65-71 | removal leaves no line with the key and keeps every other line, in order |
| CartStore.RemoveConcat | frontend/src/context/CartContext.tsx:65-71 | removal distributes over concatenation |
| CartStore.RemoveAbsent | frontend/src/context/CartContext.tsx:65-71 | removing an absent key changes nothing |
| CartStore.RemoveThenAdd | frontend/src/context/CartContext.tsx:36-71 | removing a key and then adding a line with it leaves exactly one line with that key: the added line, last, with its own quantity |
| CartStore.TotalConcat | frontend/src/context/CartContext.tsx:77-79 | the total of a concatenation is the sum of the totals |
| CartStore.TotalSingle | frontend/src/context/CartContext.tsx:77-79 | a one-line cart totals price times quantity |
| CartStore.TotalUpdateAt | frontend/src/context/CartContext.tsx:77-79 | replacing one line changes the total by the difference of the two lines' amounts |
| CartStore.AddRaisesTotal | frontend/src/context/CartContext.tsx:36-52 | adding a line raises the total by its price times quantity (merging uses the stored line's price) |
| CartStore.CountKeyConcat | frontend/src/context/CartContext.tsx:39-41 | key counts add over concatenation |
| CartStore.CountKeyAbsent | frontend/src/context/CartContext.tsx:39-41 | a key no line has occurs zero times |
| CartStore.CountKeySameKeys | frontend/src/context/CartContext.tsx:55-63 | sequences with the same keys position by position have the same key counts |
| CartStore.CountKeyUnique | frontend/src/context/CartContext.tsx:39-41 | in a cart with unique keys, a present key occurs exactly once |
| CartStore.Cart.constructor | frontend/src/context/CartContext.tsx:26-29 | the cart starts from the saved lines, or empty when nothing is saved, and storage mirrors it |
| CartStore.Cart.Total | frontend/src/context/CartContext.tsx:77-79 | `calculateCartTotal`; an empty cart totals zero |
| CartStore.Cart.FindIndex | frontend/src/context/CartContext.tsx:39-41 | the loop computes `IndexOfKey` |
| CartStore.Cart.AddToCart | frontend/src/context/CartContext.tsx:36-52 | lines become `Added(old lines, item)` and storage mirrors them |
| CartStore.Cart.UpdateCartItemQuantity | frontend/src/context/CartContext.tsx:55-63 | lines become `WithQuantity(old lines, key, quantity)` and storage mirrors them |
| CartStore.Cart.RemoveCartItem | frontend/src/context/CartContext.tsx:65-71 | lines become `Removed(old lines, key)` and storage mirrors them |
| CartStore.Cart.ClearCart | frontend/src/context/CartContext.tsx:73-75 | lines and storage become empty |
| CartLineView.GuardKeepsQuantitiesPositive | frontend/src/components/Cart/CartItem.tsx:12-16 | the `newQuantity < 1` guard keeps every quantity in the cart positive |
| CartLineView.MinusAtOneIsNoOp | frontend/src/components/Cart/CartItem.tsx:66 | pressing minus at quantity one leaves the cart unchanged |
| CartLineView.PlusRaisesByOne | frontend/src/components/Cart/CartItem.tsx:74 | pressing plus sets the line's quantity to one more and keeps the other lines |
| CartLineView.HandleQuantityChange | frontend/src/components/Cart/CartItem.tsx:12-16 | a quantity below one leaves the cart and storage unchanged; otherwise the line's quantity is updated and storage mirrors the new lines |
| CartLineView.HandleMinus | frontend/src/components/Cart/CartItem.tsx:66 | minus requests quantity minus one; at one or below the cart and storage are unchanged, above it storage mirrors the new lines |
| CartLineView.HandlePlus | frontend/src/components/Cart/CartItem.tsx:74 | plus requests quantity plus one, and storage mirrors the new lines |
| CartLineView.HandleRemove | frontend/src/components/Cart/CartItem.tsx:18-20 | removes exactly the line's key, and storage mirrors the new lines |
| Tokens.StorageKey | frontend/src/utils/auth.ts:12-22 | tokens live under `access_token` and `refresh_token` |
| Tokens.Get | frontend/src/utils/auth.ts:12-14 | `getToken` finds a value exactly when the slot exists, and it is the stored value |
| Tokens.Put | frontend/src/utils/auth.ts:16-18 | `setToken` stores the token under its slot and leaves the other token and every other key unchanged |
| Tokens.Drop | frontend/src/utils/auth.ts:20-22 | `removeToken` clears its slot and leaves everything else unchanged |
| Tokens.IsTokenExpired | frontend/src/utils/auth.ts:25-36 | an undecodable token is expired; otherwise it is expired exactly when `exp * 1000 < now` |
| Tokens.ExpiryBoundaryNotExpired | frontend/src/utils/auth.ts:25-36 | a token expiring at the current millisecond is not expired |
| Tokens.UserIdFromToken | frontend/src/utils/auth.ts:75-88 | no access token gives no id; otherwise the decoded `user_id`, or none when decoding fails |
| Tokens.RefreshWithoutToken | frontend/src/utils/auth.ts:39-44 | with no refresh token, refresh fails with "no refresh token" and storage is untouched |
| Tokens.RefreshSuccess | frontend/src/utils/auth.ts:46-64 | a successful refresh stores the new access token, and the rotated refresh token when one is sent |
| Tokens.RefreshFailureClearsBoth | frontend/src/utils/auth.ts:65-71 | a failed refresh either reports that no refresh token is stored, or leaves neither token stored; it is the latter exactly when the reply is not ok and a refresh token was stored |
| Tokens.TokenStore.constructor | frontend/src/utils/auth.ts:12-22 | the store starts from the given storage |
| Tokens.TokenStore.GetToken | frontend/src/utils/auth.ts:12-14 | reads the stored value of the token's slot, or none when the slot is empty |
| Tokens.TokenStore.SetToken | frontend/src/utils/auth.ts:16-18 | storage becomes `Put(old storage, kind, token)` |
| Tokens.TokenStore.RemoveToken | frontend/src/utils/auth.ts:20-22 | storage becomes `Drop(old storage, kind)` |
| Tokens.TokenStore.RefreshToken | frontend/src/utils/auth.ts:39-72 | storage and error are those of `Refreshed(old storage, reply)` |
| ApiClient.WithBearer | frontend/src/utils/api.ts:11-20 | a truthy access token sets `Authorization: Bearer <token>`; every other header is untouched; no token leaves the headers as they were |
| ApiClient.BoundedRetry | frontend/src/utils/api.ts:23-51 | one or two requests are sent, two exactly on a first 401; the first carries the stored token; a success or a non-401 error is returned as is |
| ApiClient.RetryCarriesNewToken | frontend/src/utils/api.ts:33-44 | after a 401 and a successful refresh, the retry carries the new access token |
| ApiClient.FailedRefreshRejectsWithRefreshError | frontend/src/utils/api.ts:45-47 | after a 401 and a failed refresh, the call rejects with the refresh error, sends one request and leaves no tokens |
| ApiClient.TwoUnauthorizedInARow | frontend/src/utils/api.ts:28-50 | a server that always answers 401 gets exactly two requests and the call rejects with 401 |
| ApiClient.RequestConfig.constructor | frontend/src/utils/api.ts:11-20 | a new request has the given headers and no retry mark |
| ApiClient.InterceptRequest | frontend/src/utils/api.ts:11-20 | the request's headers become `WithBearer(old headers, stored token)` |
| ApiClient.Dispatch | frontend/src/utils/api.ts:11-51 | the recursive interceptor chain produces exactly the result, requests and storage of `BoundedRetry` |
| ApiClient.Send | frontend/src/utils/api.ts:6-51 | a call from a fresh request object: its result and the tokens afterwards are those of `BoundedRetry` from no headers |
| AuthSession.LoggedOut | frontend/src/context/AuthContext.tsx:64-72 | both tokens are cleared and every other stored key is kept |
| AuthSession.Session.constructor | frontend/src/context/AuthContext.tsx:29-31 | a session starts unauthenticated, loading, without a user |
| AuthSession.Session.Logout | frontend/src/context/AuthContext.tsx:64-72 | tokens are cleared, the user is gone and the session is unauthenticated |
| AuthSession.Session.RefreshUser | frontend/src/context/AuthContext.tsx:74-82 | the profile request runs through the API client (`BoundedRetry` from an empty request), and the tokens become what its interceptors leave; an ok reply sets the user; a failure keeps the old user and rethrows the failure |
| AuthSession.Session.Login | frontend/src/context/AuthContext.tsx:33-62 | a rejected login changes nothing and reports why; an accepted one stores both tokens, authenticates, then runs the profile request through the API client, whose outcome sets the user and the tokens |
| AuthSession.Session.CheckAuthStatus | frontend/src/context/AuthContext.tsx:84-119 | ends not loading; no token means logged out with storage untouched; a failed refresh of an expired token logs out; otherwise the profile request through the API client decides the tokens, and its success or failure decides the session |
| AuthSession.ExpiredTokenRefreshes | frontend/src/context/AuthContext.tsx:90-100 | an expired access token with a refresh token is refreshed before the profile is loaded |
| AuthSession.ValidTokenKeepsStorage | frontend/src/context/AuthContext.tsx:89-107 | an unexpired access token reaches the profile request with storage untouched: `checkAuthStatus` refreshes only an expired one |
| AuthSession.NonUnauthorizedProfileKeepsStorage | frontend/src/utils/api.ts:23-51 | a profile request not answered with 401 leaves the tokens as they were, and succeeds exactly when the reply is ok |
| AuthSession.UnauthorizedWithoutRefreshTokenKeepsStorage | frontend/src/utils/auth.ts:39-44 | a 401 on the profile request with no refresh token stored: the request fails with the no-refresh-token error after one send, and storage is untouched |
| AuthSession.RevokedTokenClearsStorage | frontend/src/utils/api.ts:28-47 | a 401 on the profile request and a refused refresh: the request fails with the refresh error and both tokens are removed |
| AuthSession.RevokedTokenRotates | frontend/src/utils/api.ts:28-44 | a 401 on the profile request and a successful refresh: the request is sent again with the new access token, which stays stored |
| Helpers.SliceEnd | frontend/src/utils/helpers.ts:41-46 | the end index `slice` uses never exceeds the length |
| Helpers.TruncateText | frontend/src/utils/helpers.ts:41-46 | empty text stays empty; text within the limit is returned as is; longer text is its first `maxLength` characters followed by "..."; lengths count Unicode characters, not UTF-16 code units |
| Helpers.FirstIndexOf | frontend/src/utils/helpers.ts:90-100 | the index of the first occurrence, or the length when there is none |
| Helpers.LastIndexOf | frontend/src/utils/helpers.ts:90-100 | the index of the last occurrence, or -1 when there is none |
| Helpers.Split | frontend/src/utils/helpers.ts:92 | `split(' ')` always yields at least one piece |
| Helpers.SplitJoin | frontend/src/utils/helpers.ts:92 | joining the pieces with the separator gives back the string, and no piece contains the separator |
| Helpers.SplitSingle | frontend/src/utils/helpers.ts:92 | there is one piece exactly when the separator does not occur |
| Helpers.SplitFirst | frontend/src/utils/helpers.ts:92 | the first piece is everything before the first separator |
| Helpers.SplitLast | frontend/src/utils/helpers.ts:92 | the last piece is everything after the last separator |
| Helpers.SplitLastCons | frontend/src/utils/helpers.ts:92 | how the last piece of a string relates to the last piece of its tail |
| Helpers.SplitLastLaterSep | frontend/src/utils/helpers.ts:92 | a separator in the tail makes the tail's last separator the string's |
| Helpers.SplitLastNoLaterSep | frontend/src/utils/helpers.ts:92 | with no separator in the tail, the string's last separator is its first character or there is none |
| Helpers.SplitPieces | frontend/src/utils/helpers.ts:92-99 | the pieces of a split: one exactly when the separator is absent, the first before the first separator, the last after the last |
| Helpers.GetInitials | frontend/src/utils/helpers.ts:90-100 | empty name gives ""; one word gives its upper-cased first letter; several words give the upper-cased first letters of the first and last words; never more than two characters; a letter is a Unicode character, not a UTF-16 code unit |
| Helpers.IsValidEmail | frontend/src/utils/helpers.ts:49-52 | true exactly when the address matches the pattern: local part, `@`, domain, `.`, two or more letters |
| Helpers.EmailSplitIsForced | frontend/src/utils/helpers.ts:49-52 | in a matching address the `@` is the first one and the `.` before the letters is the last one |
| Helpers.FirstIndexOfAt | frontend/src/utils/helpers.ts:49-52 | an occurrence with none before it is the first occurrence |
| Helpers.LastIndexOfAt | frontend/src/utils/helpers.ts:49-52 | an occurrence with none after it is the last occurrence |
| Helpers.KeyChar | frontend/src/utils/helpers.ts:29-38 | `chars[floor(r * 62)]` is a character of the alphabet for every `r` in [0, 1) |
| Helpers.GenerateRandomKey | frontend/src/utils/helpers.ts:29-38 | the key has the requested length (none for a negative one) and each character is the alphabet character chosen by the matching random value |
| Helpers.FirstArrayEntry | frontend/src/utils/helpers.ts:70-74 | the first field whose value is an array, or none when no field is |
| Helpers.ExtractErrorMessage | frontend/src/utils/helpers.ts:55-87 | without response data, the error's own message or the fallback text; a string body is returned; otherwise a truthy `detail`, then the first array field as `field: first entry`, then the stringified body |
| Helpers.FirstArrayEntryAt | frontend/src/utils/helpers.ts:70-74 | an array field with none before it is the one the loop returns |
| OrderHistory.StatusBadgeColor | frontend/src/components/Profile/OrderHistory.tsx:148-163 | unknown statuses get the gray badge and known ones do not |
| OrderHistory.BadgesDistinct | frontend/src/components/Profile/OrderHistory.tsx:148-163 | the five known statuses get five different badges |
| OrderHistory.Capitalize | frontend/src/components/Profile/OrderHistory.tsx:165-167 | same length, first character upper-cased, the rest unchanged |
| OrderHistory.FormattedStatus | frontend/src/components/Profile/OrderHistory.tsx:165-167 | the status with its first character upper-cased and the rest kept; empty stays empty |
| OrderHistory.PaymentMethodText | frontend/src/components/Profile/OrderHistory.tsx:169-180 | the three known methods get their display names; any other is shown as is |
| OrderHistory.PaymentStatusText | frontend/src/components/Profile/OrderHistory.tsx:182-184 | the status with its first character upper-cased and the rest kept |
| ProductSerializers.FirstFeatured | backend/products/serializers.py:32 | the index of the first image marked featured, or none when no image is |
| ProductSerializers.FeaturedImage | backend/products/serializers.py:31-38 | none exactly when there are no images; otherwise the first featured image, or the first image when none is featured |
| ProductSerializers.FeaturedImageIsFirstMatch | backend/products/serializers.py:31-38 | a product with images has a featured image at some position: the first featured one, else the first |
| ProductSerializers.FeaturedFirstWins | backend/products/serializers.py:32 | a featured first image is the one chosen |
| ProductSerializers.NonFeaturedPrefixIgnored | backend/products/serializers.py:32 | images before the first featured one do not change the choice |
| ProductCard.DefaultCartItem | frontend/src/components/Products/ProductCard.tsx:12-30 | one unit of the product at its price, with the first variant's color and size (or empty) and the featured image when it has one, else the product image |
| ProductCard.HandleAddToCart | frontend/src/components/Products/ProductCard.tsx:12-30 | the cart becomes `Added(old lines, DefaultCartItem(p))`, and storage mirrors it |
| ProductCard.CardClickedTwice | frontend/src/components/Products/ProductCard.tsx:12-30 | clicking "add" twice on a product not in the cart gives one line with quantity two |
| ProductDetail.FindVariant | frontend/src/components/Products/ProductDetail.tsx:63-72 | the first variant with the chosen color and size, or none |
| ProductDetail.Validate | frontend/src/components/Products/ProductDetail.tsx:42-72 | the verdict is, in order: no product, out of stock, a missing color or size, the chosen variant missing or short of stock, else accepted; each verdict is stated as an if-and-only-if |
| ProductDetail.NoVariantsSkipsVariantChecks | frontend/src/components/Products/ProductDetail.tsx:54-72 | a product without variants is accepted exactly when in stock |
| ProductDetail.FirstMatchingVariantDecides | frontend/src/components/Products/ProductDetail.tsx:63-72 | the first variant with the chosen color and size decides; too little stock there is rejected |
| ProductDetail.ErrorMessage | frontend/src/components/Products/ProductDetail.tsx:46-72 | every rejection shows a non-empty error text; `RejectionMessagesDistinct` tells the three apart |
| ProductDetail.RejectionMessagesDistinct | frontend/src/components/Products/ProductDetail.tsx:46-72 | the out-of-stock, missing-selection and unavailable-variant messages are pairwise different |
| ProductDetail.SelectedLine | frontend/src/components/Products/ProductDetail.tsx:75-88 | the cart line carries the product, the chosen color, size and quantity, and the main image when one is shown |
| ProductDetail.InitialMainImage | frontend/src/components/Products/ProductDetail.tsx:33-38 | the featured image when the product has images, else the product image when set, else the current image |
| ProductDetail.StepperNeverBelowOne | frontend/src/components/Products/ProductDetail.tsx:232-241 | any sequence of minus and plus clicks keeps the quantity at one or above |
| ProductDetail.DefaultSelectionMatchesCard | frontend/src/components/Products/ProductDetail.tsx:27-30 | the detail page's default selection yields the same cart key as the product card's line, and it is accepted exactly when the product is in stock and the first variant has enough stock |
| ProductDetail.ProductDetailView.constructor | frontend/src/components/Products/ProductDetail.tsx:15-21 | nothing selected, quantity one, no image, no alert |
| ProductDetail.ProductDetailView.LoadProduct | frontend/src/components/Products/ProductDetail.tsx:24-40 | selects the first variant's color and size when there are variants and sets the initial image; nothing loaded changes nothing |
| ProductDetail.ProductDetailView.HandleAddToCart | frontend/src/components/Products/ProductDetail.tsx:42-89 | the verdict is `Validate`; accepted adds the selected line, mirrors it to storage and shows success; any other verdict leaves the cart and storage and shows its error (no alert for a missing product); the selection is kept |
| ProductDetail.ProductDetailView.HandleBuyNow | frontend/src/components/Products/ProductDetail.tsx:91-94 | the same add, storage and alerts as `HandleAddToCart`, then the route to the cart page whatever the verdict |
| ProductDetail.ProductDetailView.HandleImageClick | frontend/src/components/Products/ProductDetail.tsx:96-98 | the clicked image becomes the main image and nothing else changes |
| ProductDetail.ProductDetailView.Decrement | frontend/src/components/Products/ProductDetail.tsx:232 | quantity drops by one but not below one; selection, image and alert are kept |
| ProductDetail.ProductDetailView.Increment | frontend/src/components/Products/ProductDetail.tsx:241 | quantity rises by one; selection, image and alert are kept |
| OrderCreate.TotalConcat | backend/orders/serializers.py:63-68 | the order total of a concatenation is the sum of the totals |
| OrderCreate.RowsAddUpToTotal | backend/orders/serializers.py:63-87 | the item rows' amounts add up to the order's total |
| OrderCreate.TotalNonNegative | backend/orders/serializers.py:63-68 | non-negative prices and quantities give a non-negative total |
| OrderCreate.ComputeTotal | backend/orders/serializers.py:63-68 | the loop computes the sum of price times quantity; no items total zero |
| OrderCreate.OrderDb.constructor | backend/orders/serializers.py:59-97 | the tables start empty |
| OrderCreate.OrderDb.Create | backend/orders/serializers.py:59-97 | appends one order with the computed total, one item row per item in order, and one pending payment for that total |
| OrderCreate.CreatedOrderIsConsistent | backend/orders/serializers.py:59-97 | the order's total, its payment's amount and the sum of its item rows agree |
| PaymentForm.IsCardNumber | frontend/src/components/Checkout/PaymentForm.tsx:181 | the card-number pattern `/^[0-9]{16}$/` on the field text; `CardFieldsAreBoundedNumbers` states what it admits |
| PaymentForm.IsExpiry | frontend/src/components/Checkout/PaymentForm.tsx:201 | the expiry pattern on the field text; `ExpiryIsMonthSlashYear` states what it admits |
| PaymentForm.IsCvv | frontend/src/components/Checkout/PaymentForm.tsx:221 | the CVV pattern `/^[0-9]{3,4}$/` on the field text; `CardFieldsAreBoundedNumbers` states what it admits |
| PaymentForm.CardFieldsAreBoundedNumbers | frontend/src/components/Checkout/PaymentForm.tsx:181-221 | a card number reads below 10^16 and a CVV below 10000; no card number is also a CVV or an expiry |
| PaymentForm.ExpiryIsMonthSlashYear | frontend/src/components/Checkout/PaymentForm.tsx:201 | the expiry pattern accepts exactly `MM/YY` with a month from 01 to 12 |
| PaymentForm.BuildPayload | frontend/src/components/Checkout/PaymentForm.tsx:54-74 | each shipping field under its own name, one item per cart line in cart order carrying its product, quantity, color and size, and the chosen payment method |
| PaymentForm.ServerItems | backend/orders/serializers.py:76-87 | one order line per request item, in order, with the product's current price and the item's quantity, color and size |
| PaymentForm.OrderTotalMatchesCart | frontend/src/components/Checkout/PaymentForm.tsx:54-74 | when the database prices equal the cart's, the order the backend records totals the cart total, and each row keeps its line's color and size |
| PaymentForm.PaymentFormState.constructor | frontend/src/components/Checkout/PaymentForm.tsx:25-27 | not processing, no error, no alert; the cart and the token store it works on |
| PaymentForm.PaymentFormState.OnSubmit | frontend/src/components/Checkout/PaymentForm.tsx:42-96 | an empty cart sends nothing, shows an error and leaves the tokens; otherwise the payload is sent through the API client, whose interceptors decide the tokens; an order the client gets back clears the cart and navigates to the profile with its id; a failure keeps the cart and shows an error; processing ends either way |
| FilterSidebar.SetOrDelete | frontend/src/components/Products/FilterSidebar.tsx:50-82 | afterwards the key holds exactly the value, or nothing when it is empty; pairs of non-filter keys are kept |
| FilterSidebar.SetOrDeleteValues | frontend/src/components/Products/FilterSidebar.tsx:50-82 | other keys' values are unchanged |
| FilterSidebar.FiveSteps | frontend/src/components/Products/FilterSidebar.tsx:50-82 | after five set-or-delete steps, a key holds what the last step naming it wrote, or its original values |
| FilterSidebar.AppliedFilters | frontend/src/components/Products/FilterSidebar.tsx:47-84 | after applying, each filter key holds exactly the form's value, and nothing when the field is empty or unchecked |
| FilterSidebar.AppliedSearch | frontend/src/components/Products/FilterSidebar.tsx:85-88 | a search term in the URL collapses to its first value; without one the `search` pairs are left as they were |
| FilterSidebar.AppliedKeepsOtherPairs | frontend/src/components/Products/FilterSidebar.tsx:47-91 | every key the form does not own keeps its pairs, in order |
| FilterSidebar.ApplyTo | frontend/src/components/Products/FilterSidebar.tsx:47-91 | the step-by-step update computes `Applied` |
| FilterSidebar.FilterPanel.constructor | frontend/src/components/Products/FilterSidebar.tsx:9-15 | the form starts from the URL: category and prices or empty, in-stock exactly when `in_stock=true`, sort or "name" |
| FilterSidebar.FilterPanel.HandleCategoryChange | frontend/src/components/Products/FilterSidebar.tsx:30-32 | sets the category and nothing else |
| FilterSidebar.FilterPanel.HandlePriceChange | frontend/src/components/Products/FilterSidebar.tsx:34-37 | "min" sets the minimum, "max" the maximum, any other name changes nothing |
| FilterSidebar.FilterPanel.HandleInStockChange | frontend/src/components/Products/FilterSidebar.tsx:39-41 | sets the in-stock flag and nothing else |
| FilterSidebar.FilterPanel.HandleSortChange | frontend/src/components/Products/FilterSidebar.tsx:43-45 | sets the sort and nothing else |
| FilterSidebar.FilterPanel.ApplyFilters | frontend/src/components/Products/FilterSidebar.tsx:47-91 | the URL becomes `Applied(old URL, form)` and the form is unchanged |
| FilterSidebar.FilterPanel.ResetFilters | frontend/src/components/Products/FilterSidebar.tsx:93-107 | the form returns to its defaults and the URL keeps only the search term |
| FilterSidebar.SetOrDeleteIdempotent | frontend/src/components/Products/FilterSidebar.tsx:50-82 | applying the same field twice equals applying it once |
| FilterSidebar.SetTwice | frontend/src/components/Products/FilterSidebar.tsx:50-80 | `set` twice with the same value equals `set` once |
| FilterSidebar.WithoutNone | frontend/src/components/Products/FilterSidebar.tsx:47-91 | dropping keys that do not occur changes nothing |
| InfiniteProducts.TruthyEntriesExactly | frontend/src/hooks/useInfiniteProducts.ts:21-25 | the filter entries sent are exactly those with a non-empty value |
| InfiniteProducts.FetchPaginatedProducts | frontend/src/hooks/useInfiniteProducts.ts:14-36 | the query is the page number followed by the non-empty filters; the page carries the results and count, and a next page number exactly when the reply has a `next` link |
| InfiniteProducts.TruthyEntriesSnoc | frontend/src/hooks/useInfiniteProducts.ts:21-25 | filtering an extended list extends the filtered list by the new entry when it is non-empty |
| InfiniteProducts.PageParamRoundTrip | frontend/src/hooks/useInfiniteProducts.ts:18 | the page number is the first pair and reads back as the same number |
| InfiniteProducts.ExtractProducts | frontend/src/hooks/useInfiniteProducts.ts:57-65 | no data gives no products; otherwise every page's results in page order (`Flatten`, whose positions `FlattenPosition` states), as many as all pages hold |
| InfiniteProducts.TotalLengthConcat | frontend/src/hooks/useInfiniteProducts.ts:57-65 | page counts add over concatenation |
| InfiniteProducts.FlattenLength | frontend/src/hooks/useInfiniteProducts.ts:57-65 | the flattened list is as long as all pages together |
| InfiniteProducts.FlattenConcat | frontend/src/hooks/useInfiniteProducts.ts:62-64 | flattening distributes over concatenation |
| InfiniteProducts.FlattenPosition | frontend/src/hooks/useInfiniteProducts.ts:62-64 | product `j` of page `i` sits at the index after all products of earlier pages |
| ProductList.Piece | frontend/src/components/Products/ProductList.tsx:38-55 | an appended piece holds only its key with a non-empty value |
| ProductList.PieceValues | frontend/src/components/Products/ProductList.tsx:38-55 | a piece holds its value under its key when the value is truthy, and nothing under other keys |
| ProductList.SevenPieces | frontend/src/components/Products/ProductList.tsx:26-55 | the values under a key of seven pieces are those of the pieces with that key, in order |
| ProductList.PiecesCategory | frontend/src/components/Products/ProductList.tsx:26-40 | `category` carries the route's category and then the URL's |
| ProductList.PiecesOthers | frontend/src/components/Products/ProductList.tsx:41-55 | every other key carries the URL's value when truthy |
| ProductList.ListQueryCategory | frontend/src/components/Products/ProductList.tsx:24-40 | the sent query's categories are the route's then the URL's, each when non-empty |
| ProductList.ListQueryFilters | frontend/src/components/Products/ProductList.tsx:31-55 | each other filter is sent once with the URL's first value when non-empty, and never otherwise |
| ProductList.ValuesOfSeven | frontend/src/components/Products/ProductList.tsx:24-55 | the values of seven concatenated pieces are the concatenation of theirs |
| ProductList.ServerCategory | frontend/src/components/Products/ProductList.tsx:26-40 | the category the server reads is the URL's when present, else the route's |
| ProductList.AppendIfSet | frontend/src/components/Products/ProductList.tsx:38-55 | a truthy value is appended under its key; otherwise nothing is |
| ProductList.ProductListView.constructor | frontend/src/components/Products/ProductList.tsx:18-22 | no products, loading, no error; the token store its requests use |
| ProductList.ProductListView.LoadProducts | frontend/src/components/Products/ProductList.tsx:18-66 | sends `ListQuery` through the API client, whose interceptors decide the tokens; products the client gets back replace the list and clear the error; a failure keeps the products and sets the error; loading ends |
| ProductListInfinite.AssignIfSet | frontend/src/components/Products/ProductListInfinite.tsx:33-38 | a truthy value adds a fresh key; the object's keys stay distinct |
| ProductListInfinite.AssignCategory | frontend/src/components/Products/ProductListInfinite.tsx:21-33 | the URL's category overwrites the route's in place, so `category` holds one value |
| ProductListInfinite.BuildFilters | frontend/src/components/Products/ProductListInfinite.tsx:18-41 | the effect builds `NewFilters` |
| ProductListInfinite.FiltersCategory | frontend/src/components/Products/ProductListInfinite.tsx:21-33 | `category` holds the URL's category when set, else the route's, else nothing |
| ProductListInfinite.FiltersOthers | frontend/src/components/Products/ProductListInfinite.tsx:26-38 | each other filter holds the URL's value when non-empty, else nothing |
| ProductListInfinite.TruthyEntriesOfTruthy | frontend/src/hooks/useInfiniteProducts.ts:21-25 | filtering entries that are all non-empty keeps them all |
| ProductListInfinite.PageQueryCarriesAllFilters | frontend/src/components/Products/ProductListInfinite.tsx:18-51 | every filter built by the page reaches the page request |
| ProductListInfinite.ListViewsAgree | frontend/src/components/Products/ProductListInfinite.tsx:18-51 | for every key the server reads the same value from the infinite list's page request as from the plain list's query, and the page number is carried as well |
| ProductListInfinite.ShouldFetchNext | frontend/src/components/Products/ProductListInfinite.tsx:64-66 | a fetch happens only when visible, a next page exists and none is being fetched |
| ProductListInfinite.ScrollingStopsAtLastPage | frontend/src/hooks/useInfiniteProducts.ts:33-44 | after a reply without `next`, scrolling fetches nothing; with one, the next request asks for the following page |
| ProductViews.OccursFrom | backend/products/views.py:52-58 | true exactly when the text occurs at or after the position |
| ProductViews.IContains | backend/products/views.py:52-58 | `icontains` is true exactly when the lower-cased term occurs in the lower-cased text |
| ProductViews.OccursBounds | backend/products/views.py:52-58 | the empty term occurs everywhere; a term longer than the text never does |
| ProductViews.ReadBound | backend/products/views.py:40-46 | an absent or empty bound is no bound; a bound is a price exactly when the decimal parser reads it, with the cents it read, and a bad number exactly when the parser fails |
| ProductViews.ReadCriteria | backend/products/views.py:36-58 | each filter is read from Django's last value: the category and search are that value when it is non-empty, and none otherwise; the price bounds are the parsed cents; in-stock holds exactly when `in_stock` lower-cases to "true"; the request fails exactly when a price bound is not a number |
| ProductViews.Select | backend/products/views.py:33-58 | keeps exactly the active products matching every filter, without duplicating any |
| ProductViews.NoFiltersKeepsActive | backend/products/views.py:33 | with no filters every active product is listed |
| ProductViews.OrderOf | backend/products/views.py:61-69 | `price_asc`, `price_desc` and `newest` select their order; anything else orders by name |
| ProductViews.StrLeTotal | backend/products/views.py:69 | ordering by name compares any two names |
| ProductViews.StrLeTrans | backend/products/views.py:69 | ordering by name is transitive |
| ProductViews.BeforeTotal | backend/products/views.py:61-69 | every sort order compares any two products |
| ProductViews.BeforeTrans | backend/products/views.py:61-69 | every sort order is transitive |
| ProductViews.Insert | backend/products/views.py:61-69 | inserting into a sorted list keeps it sorted and adds exactly the product |
| ProductViews.InsertFront | backend/products/views.py:61-69 | a product before the head goes in front and keeps the list sorted |
| ProductViews.InsertBehind | backend/products/views.py:61-69 | a sorted tail after a smaller head stays sorted |
| ProductViews.Sort | backend/products/views.py:61-69 | `order_by` gives a sorted permutation of its input |
| ProductViews.GetQueryset | backend/products/views.py:32-71 | fails exactly when a price bound is malformed; otherwise it lists exactly the active products matching the filters, sorted by the requested order |
| ProductViews.ListingIsSelectionReordered | backend/products/views.py:32-71 | the listing holds the selected products with their multiplicities, only reordered |
| ProductViews.ListingOnlyActive | backend/products/views.py:32-71 | a listing never holds more products than exist, nor an inactive one |
| ProductViews.InStockOnly | backend/products/views.py:75 | keeps exactly the in-stock products |
| ProductViews.InStockOnlyKeepsOrder | backend/products/views.py:75 | keeping only in-stock products preserves the sort order |
| ProductViews.Featured | backend/products/views.py:73-77 | at most eight products, all in stock and all in the listing; fails exactly when the listing does |
| ProductViews.FeaturedIsListingPrefix | backend/products/views.py:73-77 | featured products are the first in-stock products of the listing, in its order, and all of them when there are fewer than eight |

## Left out

- HTTP, axios, fetch, JSON parsing and JWT decoding: replies are datatypes, and the decoder is a parameter.
- The clock, `Math.random()` and `JSON.stringify` are parameters. The decimal parser behind Django's price filters is one too.
- React rendering, effects scheduling, `react-hook-form` wiring, TanStack Query caching, stale times and retries, and the IntersectionObserver set-up are left out. Only the observer's test is modelled.
- Concurrency: two requests refreshing at once, and effects racing with user input, are not modelled. Each operation runs to completion.
- `Helpers.KeyChar` takes the product `r * 62` as an exact real. JavaScript rounds `Math.random() * 62` to a double before `Math.floor`, so for some values of `r` just below a multiple of 1/62 it picks the next character. `Helpers.GenerateRandomKey` inherits this.
- Floating point: prices are integer cents. `toFixed` formatting and the decimal columns' rounding are not modelled.
- `Helpers.TruncateText` counts the length and cuts the text in Unicode characters. JavaScript's `length` and `slice` count UTF-16 code units, so text with characters outside the Basic Multilingual Plane (emoji, say) is cut at a different place, and the source can split a surrogate pair.
- `Helpers.GetInitials` takes the first Unicode character of a word. JavaScript's `charAt(0)` takes the first UTF-16 code unit, which for a character outside the Basic Multilingual Plane is a lone surrogate. `OrderHistory.Capitalize` is unaffected, because its `slice(1)` puts the pair back together.
- Case mapping covers ASCII letters only. Unicode case folding in `toUpperCase`, `lower()` and `icontains` is not modelled.
- `CartStore.Cart.AddToCart` does not model aliasing. The source mutates the existing line object in place, and a caller holding that object would see the change. The model replaces the line by value.
- `ProductViews.Sort`: ties are kept in input order by insertion, and names compare by code point. The database's tie order and collation are not modelled.
- `ProductSerializers.FeaturedImage`: `.first()` takes the images in their stored order. The model's sequence order stands for it.
- Model defaults in the Django models (`models.py`) are not part of this model.
- `ProductViews.GetQueryset`: Django raises a validation error for a malformed price. The model returns none instead of the error response.
- `Helpers.GenerateRandomKey`: the default length of 8 is a caller's choice. The model takes the length as a parameter.
- `loadCategories` in `FilterSidebar` only fetches the category list over the network, so it is not modelled.
- Filter values are strings. Numeric filter values in `useInfiniteProducts` are not modelled.
- An undefined `category` prop is modelled as the empty string.
- The router behind `useSearchParams` and `navigate` is not modelled: the URL is a field, and navigation is a returned value.
- Requests through the API client start with no headers of its own. The user, the order id and the products are read from an ok body by parameters: JSON decoding is not modelled.
- The card-field patterns are modelled as predicates on the field text. The form library that applies them is not modelled.
- Registration, profile editing, the order history fetch and other pages outside the core are not modelled.
