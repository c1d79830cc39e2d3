# BFF restaurant front end, modelled in Dafny

This project models the browser-side JavaScript of the BFF restaurant web
application (the hapka-bg/BFF repository): the pages a customer uses to
browse the menu, configure a product, fill and check out a cart, and follow
their orders, and the pages an administrator uses to manage staff, products,
reviews, orders, sales charts and the dashboard. Each script is one Dafny
module. Three shared modules support them:

- `Js`: the JavaScript built-ins the scripts rely on. It covers JSON values
  (`Val`), truthiness, `??`, `String()`, `parseInt`, `trim`, ASCII
  `toLowerCase`/`toUpperCase`, `split`/`join`, `replaceAll` and `filter`.
- `Browser`: one window. It holds `localStorage` as a map, a scripted
  network that answers each `fetch` in turn, the address bar and the alerts.
- `CartData`: the cart entry format that the home, product and cart pages
  share.

The model follows each script's own form:

- Token refresh, `apiFetch`, the auth guard and login are methods on a
  `Window`. A pure function describes each one's whole effect, and lemmas
  state what that effect guarantees.
- Pages that keep state between events are classes. Examples are the cart
  page, the product page, the admin order panel, the products panel, the
  dashboard namespace and the staff form. Their methods state the new state
  outright.
- Loops over the DOM or over data are methods with loops and invariants.
  Each is tied to a specification function, and lemmas prove the
  specification's properties. Examples are the address filler, the review
  insertion sort, the product search and the admin order retry.
- Pure helpers are functions. Examples are HTML escaping, price
  formatting, grouping sales into buckets, status classes and heat-map
  colours.

Several behaviours of the code are modelled as written, even where the
natural reading of the page would differ:

- The token expiry test is strict (`exp < now + 60`). A token with exactly
  60 seconds left is still valid.
- A refresh that fails after a 401 rejects. It does not redirect, because
  that redirect is commented out.
- A role that is present but not a string throws at `toLowerCase` after
  the token is stored and before the role is. This includes falsy roles
  such as `0` and `false`, since `?.` stops only at null and undefined. The
  user sees the failure alert yet keeps a token.
- The product page adds the main line's unit price multiplied by the
  quantity, while the line already carries the quantity. The cart total
  therefore counts the quantity twice.
- The admin order filter keeps orders whose date does not parse.
- The admin status classes expect "CANCELLED", while the online-orders page
  uses "CANCELED".
- A staff role made only of blanks loads as "" rather than "admin", because
  the default is chosen before trimming.

## Model

| member | source | states |
|---|---|---|
| JwtFetch.UrlToStdAt | src/main/resources/static/js/jwtFetch.js:34 | the base64url-to-base64 swap maps '-' to '+' and '_' to '/' character by character, keeps the length, and turns a base64url segment into a base64 string |
| JwtFetch.PayloadOfCompactToken | src/main/resources/static/js/jwtFetch.js:30 | the second dot-separated segment of `header.payload.signature` is `payload` |
| JwtFetch.MalformedTokenIsExpired | src/main/resources/static/js/jwtFetch.js:27-31 | a missing or empty token, one without a dot, and one whose payload segment is empty ("a.", "a..b") count as expired |
| JwtFetch.UndecodablePayloadIsExpired | src/main/resources/static/js/jwtFetch.js:33-41 | a payload that fails to decode or parse, or that parses to null, counts as expired |
| JwtFetch.ExpiryBoundary | src/main/resources/static/js/jwtFetch.js:36-38 | with a numeric `exp` the token is expired iff `exp < floor(now/1000) + 60`: 60 seconds left is still valid, 59 is not |
| JwtFetch.NoExpClaimNeverExpires | src/main/resources/static/js/jwtFetch.js:38 | a payload without `exp` never expires, because `undefined < n` is false |
| JwtFetch.ExpiredStaysExpired | src/main/resources/static/js/jwtFetch.js:27-42 | expiry is monotone in time: a token expired at one instant is expired at every later one |
| JwtFetch.SecondsMonotone | src/main/resources/static/js/jwtFetch.js:36 | `Math.floor(ms / 1000)` never decreases as milliseconds advance |
| JwtFetch.RefreshContract | src/main/resources/static/js/jwtFetch.js:2-26 | a refresh fails iff the answer is not a 2xx JSON body other than null; on failure the token is removed, on success `String(accessToken)` is stored; no other storage key changes; the request carries the current token as bearer and sends cookies |
| JwtFetch.RefreshAt | src/main/resources/static/js/jwtFetch.js:2-26 | one refresh call on the window: sends exactly one request and consumes one answer; result, storage and requests are those of the refresh effect; address bar and alerts unchanged |
| JwtFetch.RefreshToken | src/main/resources/static/js/jwtFetch.js:2-26 | the gateway's refresh call, at the relative `/api/auth/refresh` endpoint, with the same effect |
| JwtFetch.RequestInit.constructor | src/main/resources/static/js/jwtFetch.js:43 | the caller's `init` object with its verb, body, headers and credentials |
| JwtFetch.SendShape | src/main/resources/static/js/jwtFetch.js:50-63 | from the first send onwards the calls are: send; or send, refresh; or send, refresh, send. Each request consumes one answer, and every caller request carries the bearer token |
| JwtFetch.RetryCeiling | src/main/resources/static/js/jwtFetch.js:43-64 | one `apiFetch` sends at most four requests, at most two of them to the caller's endpoint, and never two refreshes in a row |
| JwtFetch.AllowedCallsBounded | src/main/resources/static/js/jwtFetch.js:43-64 | every allowed call pattern has at most four requests and at most two sends |
| JwtFetch.SendCallsBounded | src/main/resources/static/js/jwtFetch.js:54-63 | the call patterns from the first send have at most three requests and at most two sends |
| JwtFetch.CallerRequestsCarryBearer | src/main/resources/static/js/jwtFetch.js:50-60 | every request to the caller's endpoint goes to the caller's URL with the caller's verb. It includes cookies, `Authorization: Bearer …`, and every other header the caller set |
| JwtFetch.ValidTokenIsUsedDirectly | src/main/resources/static/js/jwtFetch.js:44-63 | a stored token that is not about to expire goes out as is, without a refresh; a non-401 answer is returned and storage is untouched |
| JwtFetch.FailedFirstRefreshRejects | src/main/resources/static/js/jwtFetch.js:46-48 | an expired token whose refresh fails rejects before any caller request: the token is cleared and `init` is untouched |
| JwtFetch.RefreshedTokenIsUsed | src/main/resources/static/js/jwtFetch.js:46-54 | after a successful refresh the caller's request carries the new token, which storage now holds |
| JwtFetch.UnauthorizedIsRetriedOnce | src/main/resources/static/js/jwtFetch.js:57-61 | a 401 triggers exactly one refresh and one resend with the new token, and the resend's answer is returned whatever its status |
| JwtFetch.Send | src/main/resources/static/js/jwtFetch.js:50-63 | the send-and-retry part of `apiFetch` on the window: result, storage, requests and `init` fields are those of the send effect |
| JwtFetch.ApiFetch | src/main/resources/static/js/jwtFetch.js:43-64 | `apiFetch` on the window and the caller's `init`: result, storage, requests and the written `init.headers`/`init.credentials` are those of the whole-call effect; address bar and alerts unchanged |
| Auth.RefreshToken | src/main/resources/static/js/auth.js:1-25 | the auth module's refresh call to the absolute refresh URL: one request, the refresh effect on storage |
| Auth.RefreshCallsAgree | src/main/resources/static/js/auth.js:1-25 | the two copies of `refreshToken` behave identically from the same state; their requests differ only in the URL |
| AuthGuard.GuardRefreshesOnlyExpired | src/main/resources/static/js/auth-guard.js:4-8 | the guard calls the refresh endpoint iff the stored token is missing or about to expire, and then exactly once |
| AuthGuard.GuardAdmitsExactly | src/main/resources/static/js/auth-guard.js:2-22 | the visitor stays iff a truthy token is at hand and, on a page ending in `admin.html`, the stored role is "admin" in some letter case |
| AuthGuard.FailedRefreshRedirects | src/main/resources/static/js/auth-guard.js:7-21 | a failed refresh always sends the visitor to `index.html` and clears the token |
| AuthGuard.RoleOnlyMattersOnAdminPage | src/main/resources/static/js/auth-guard.js:13-18 | outside the admin page, changing or removing the stored role does not change the guard's effect |
| AuthGuard.Guard | src/main/resources/static/js/auth-guard.js:2-22 | the guard on the window: storage, requests and final address are those of the guard effect; no alerts |
| Login.RequestOnlyWithBothFields | src/main/resources/static/js/login.js:8-24 | a login request is sent iff both trimmed fields are non-empty, and it carries the trimmed values; otherwise the "enter both" alert shows |
| Login.RejectedLoginStoresNothing | src/main/resources/static/js/login.js:26-47 | a failed or non-2xx login leaves storage unchanged, stays on the page and shows one "Invalid username or password" alert |
| Login.AcceptedLoginRoutesByRole | src/main/resources/static/js/login.js:30-42 | an accepted login with a string role stores the token and the lower-cased role, then routes by the role; the stored role passes the admin guard iff the user was sent to `admin.html` |
| Login.RouteIgnoresCase | src/main/resources/static/js/login.js:33-42 | routing ignores letter case: exactly the spellings of "admin" lead to the admin page and of "user" to the home page |
| Login.NonStringRoleKeepsToken | src/main/resources/static/js/login.js:31-47 | a present non-string role throws after the token was stored, so the user sees the failure alert yet holds a token |
| Login.Submit | src/main/resources/static/js/login.js:5-48 | the submit handler on the window: storage, requests, address and alerts are those of the submit effect |
| CartData.SubtotalConcat | src/main/resources/static/js/shopping-cart.js:104 | the cart sum `Σ price × quantity` and the item count both split over concatenation |
| CartData.SubtotalUpdate | src/main/resources/static/js/shopping-cart.js:104-159 | replacing one line changes the sum and the item count by the difference between the old and new lines |
| CartData.SubtotalRemove | src/main/resources/static/js/shopping-cart.js:165-174 | deleting one line takes its `price × quantity` off the sum and its quantity off the count |
| CartData.IndexOf | src/main/resources/static/js/shopping-cart.js:168 | `findIndex` by id: the first position holding the id, or -1 iff no line has it |
| CartData.BumpSums | src/main/resources/static/js/shopping-cart.js:135-146 | moving one line's quantity by ±1 moves the item count by ±1 and the sum by ± that line's price |
| CartData.LineAmountBump | src/main/resources/static/js/shopping-cart.js:104 | one more or one fewer item changes a line's amount by its price |
| Home.InCategoryContract | src/main/resources/static/js/home.js:39-50 | "ALL" shows the whole list; any other category shows exactly its products, in their original order; the empty message shows iff nothing is selected |
| Home.FindProduct | src/main/resources/static/js/home.js:82-84 | `products.find` by id: a found product is the first one in the list with that id; nothing is found iff no product has it |
| Home.MergeContract | src/main/resources/static/js/home.js:99-110 | each add-to-cart click adds exactly one item. A product already in the cart bumps its first line by one, adding its price to the sum, and leaves the other lines unchanged. A new product appends a one-item line with no customizations |
| Home.MergeTwice | src/main/resources/static/js/home.js:99-110 | adding a new product twice leaves one line for it, with quantity 2 |
| Home.HomePage.constructor | src/main/resources/static/js/home.js:5-6 | the page starts with no products, the cache flag unset and nothing shown |
| Home.HomePage.FetchProducts | src/main/resources/static/js/home.js:8-25 | a request is made iff the list was never loaded or a refresh is forced. Without a request the cached list is shown again. A successful load replaces the list, sets the flag and shows "ALL". A failure keeps the list and the flag and shows the error |
| Home.HomePage.SelectCategory | src/main/resources/static/js/home.js:27-38 | a category click renders that category from the unchanged list |
| Home.HomePage.AddToCart | src/main/resources/static/js/home.js:78-114 | a click on a known product stores the merged cart under "cartProducts"; an unknown id changes nothing; nothing but storage changes |
| ShoppingCart.ClampQuantity | src/main/resources/static/js/shopping-cart.js:155-156 | a typed quantity is at least 1. It is the parsed integer when that parses and is at least 1; otherwise it is 1 |
| ShoppingCart.DecrementFirstContract | src/main/resources/static/js/shopping-cart.js:130-139 | minus keeps the cart's length and ids and changes only the first line with the id. It never takes a line below one item. It removes one item and that line's price exactly when the line had more than one |
| ShoppingCart.IncrementFirstContract | src/main/resources/static/js/shopping-cart.js:142-150 | plus adds exactly one item, and that line's price, to the first line with the id; other lines are unchanged, and an unknown id changes nothing |
| ShoppingCart.ClampQuantityOfNumber | src/main/resources/static/js/shopping-cart.js:155-156 | typing the decimal form of n keeps n when n ≥ 1 and gives 1 otherwise |
| ShoppingCart.RemoveFirstContract | src/main/resources/static/js/shopping-cart.js:165-175 | remove cuts out exactly the first line with the id and keeps the others in order. The result is a subsequence, and its multiset plus the removed line is the cart's. The sum and the item count drop by that line's share. An unknown id changes nothing |
| ShoppingCart.DropOneIsSubsequence | src/main/resources/static/js/shopping-cart.js:170 | `splice(idx, 1)` leaves a subsequence of the cart |
| ShoppingCart.PromoCoversEverything | src/main/resources/static/js/shopping-cart.js:103-127 | the total is the sum plus cutlery, chopsticks and delivery; the promo takes 15 % off all of it |
| ShoppingCart.SticksChargeCases | src/main/resources/static/js/shopping-cart.js:111-117 | unchecked chopsticks cost nothing whatever the count; a "0" or empty count costs nothing; three sets cost 0.30 |
| ShoppingCart.IncrementRaisesTotal | src/main/resources/static/js/shopping-cart.js:104-146 | plus raises the total by the line's price, times 0.85 when the promo is on |
| ShoppingCart.PromoIgnoresPaddingAndCase | src/main/resources/static/js/shopping-cart.js:203-204 | any white space before and after the code, and any letter case of it, is accepted |
| ShoppingCart.PromoAcceptedExactly | src/main/resources/static/js/shopping-cart.js:203-204 | the box is accepted iff it holds the code in some letter case with only white space around it |
| ShoppingCart.PromoRejectsInnerSpace | src/main/resources/static/js/shopping-cart.js:203-204 | white space left inside the trimmed text, such as a space between the word and the number, makes the code invalid in every letter case |
| ShoppingCart.ExtrasRoundTrip | src/main/resources/static/js/shopping-cart.js:223-245 | saving and then loading the extras gives them back, except that an empty count comes back as "0". Loading twice equals loading once, and the chopstick charge is unchanged |
| ShoppingCart.OrderLines | src/main/resources/static/js/shopping-cart.js:278-284 | the payload has one line per cart entry, in order |
| ShoppingCart.OrderLinesFaithful | src/main/resources/static/js/shopping-cart.js:278-284 | every payload line keeps the entry's id, quantity and price. An entry without customizations gets empty ones, and one with customizations keeps them |
| ShoppingCart.CartPage.constructor | src/main/resources/static/js/shopping-cart.js:232-248 | the page loads the saved extras (an empty count reads as "0") and the stored cart (absent reads as empty); without saved extras the boxes keep the markup's state. The fee is 5.00 and the promo is off. A non-empty cart shows its computed total; an empty one leaves the markup's total shown |
| ShoppingCart.CartPage.Minus | src/main/resources/static/js/shopping-cart.js:130-139 | the buffer becomes the decremented cart. Only when it changed is it stored and re-rendered, which shows the new total; nothing else on the page changes |
| ShoppingCart.CartPage.Plus | src/main/resources/static/js/shopping-cart.js:142-150 | the buffer becomes the incremented cart, is stored and is re-rendered with the new total; an unknown id changes nothing |
| ShoppingCart.CartPage.SetTyped | src/main/resources/static/js/shopping-cart.js:152-163 | the line with the id takes the clamped quantity, the cart is stored and the total is recomputed; an unknown id changes nothing |
| ShoppingCart.CartPage.Remove | src/main/resources/static/js/shopping-cart.js:165-175 | the buffer loses the first line with the id and is stored. The total is recomputed only when lines remain: removing the last line leaves the old total shown. An unknown id changes nothing |
| ShoppingCart.CartPage.Render | src/main/resources/static/js/shopping-cart.js:25-100 | rendering recomputes the shown total for a non-empty cart and leaves it as it was for an empty one; either way, whenever the cart holds a line, the shown total is the current one |
| ShoppingCart.CartPage.EnterPromo | src/main/resources/static/js/shopping-cart.js:21 | typing into the promo box changes only the box |
| ShoppingCart.CartPage.ApplyPromo | src/main/resources/static/js/shopping-cart.js:202-214 | the promo is on iff the box holds the code, and any other text switches an earlier promo off; the total is recomputed |
| ShoppingCart.CartPage.SaveExtras | src/main/resources/static/js/shopping-cart.js:223-230 | the current extras are stored under "cartExtras" |
| ShoppingCart.CartPage.ToggleSticks | src/main/resources/static/js/shopping-cart.js:178-188 | checking turns a "0" count into "1" and unchecking sets it to "0"; the extras are then saved and the total recomputed |
| ShoppingCart.CartPage.SetSticksCount | src/main/resources/static/js/shopping-cart.js:190-193 | a new chopstick count is kept and saved, and the total is recomputed |
| ShoppingCart.CartPage.SetCutlery | src/main/resources/static/js/shopping-cart.js:195-198 | the cutlery box is kept and saved, and the total is recomputed |
| ShoppingCart.CartPage.ResetCart | src/main/resources/static/js/shopping-cart.js:249-275 | the cart is emptied, both keys leave storage, the promo is off, the fee is back to 5.00 and the extras are cleared. The empty cart is rendered without recomputing the total, so the old total stays shown |
| ShoppingCart.CartPage.BuildPayload | src/main/resources/static/js/shopping-cart.js:277-313 | the payload lists the cart's lines. The chopstick count is present iff the box is checked. The promo code is trimmed. The total is the one the page shows, which is the current total whenever the cart holds a line |
| ShoppingCart.CartPage.FinishCheckout | src/main/resources/static/js/shopping-cart.js:315-336 | a 2xx reply with a JSON body resets the cart and storage; any failure leaves the page and storage as they were |
| ProductPage.IncreaseAddsOne | src/main/resources/static/js/product.js:174-178 | plus raises a quantity of at least 1 by exactly one, as the box reads it back |
| ProductPage.DecreaseSubtractsOne | src/main/resources/static/js/product.js:168-172 | minus lowers a quantity above 1 by exactly one. It leaves a box reading 1 or less untouched and never takes a positive quantity below 1 |
| ProductPage.SanitizedIsPositive | src/main/resources/static/js/product.js:180-184 | after typing, the box always reads as a number of at least 1, and a box that already does keeps its text |
| ProductPage.DisplayedPriceOfSum | src/main/resources/static/js/product.js:161-162 | the shown price is (base + added) × quantity once the running add-on sum covers every row |
| ProductPage.AddedPriceConcat | src/main/resources/static/js/product.js:148-159 | the add-on sum splits over concatenation of the rows |
| ProductPage.ToggleChangesPriceByContribution | src/main/resources/static/js/product.js:114-158 | toggling one add-on changes the added price by exactly that row's share; an unchecked row costs nothing |
| ProductPage.NoAddonsNoExtra | src/main/resources/static/js/product.js:154 | with no add-on checked the added price is zero |
| ProductPage.SumAddons | src/main/resources/static/js/product.js:148-159 | the loop over the add-on rows computes the added price: each checked row adds its amount (1 when it reads 0) times its cost |
| ProductPage.PriceOf | src/main/resources/static/js/product.js:147-164 | `updatePrice` computes (base + added) × the quantity the box reads as |
| ProductPage.AddonsOf | src/main/resources/static/js/product.js:63-119 | the add-on rows are exactly the addable customizations, in order, each with the ingredient's id, name and extra cost, unchecked, with amount 1 selected |
| ProductPage.RemovalsOf | src/main/resources/static/js/product.js:63-83 | the removal rows are exactly the removable customizations, in order, each with the ingredient's id and name, unchecked |
| ProductPage.AmountChoices | src/main/resources/static/js/product.js:101-106 | the amount options are exactly 1, 2, …, `maxQuantity \|\| 1` (none for a negative maximum) |
| ProductPage.AddedChoices | src/main/resources/static/js/product.js:193-201 | the added options are exactly the checked add-on rows, in order, each with its id, its name and the amount chosen in its select |
| ProductPage.RemovedChoices | src/main/resources/static/js/product.js:203-207 | the removed options are exactly the checked removal rows, in order, each with its id, its name and quantity 1 |
| ProductPage.RecommendedLines | src/main/resources/static/js/product.js:224-234 | every recommended line has one item and empty customizations |
| ProductPage.RecommendedLinesAreChecked | src/main/resources/static/js/product.js:224-234 | the recommended lines are exactly the checked recommendations, one each |
| ProductPage.CartAfterAddContract | src/main/resources/static/js/product.js:187-237 | adding never merges lines. The old cart is a prefix and the main line follows it. The item count grows by the box's quantity plus one per checked recommendation |
| ProductPage.OnesCount | src/main/resources/static/js/product.js:230 | lines of one item each count one item per line |
| ProductPage.MainLineCountsQuantityTwice | src/main/resources/static/js/product.js:162-214 | for every product, add-on choice, recorded customization and box, the main line holds the box's quantity and counts (base + added) × quantity × quantity in the cart sum: the quantity is applied twice |
| ProductPage.TwoOfTenCountForty | src/main/resources/static/js/product.js:162-214 | two items of a 10.00 product with no add-ons are shown as 20.00 and count 40.00 in the cart sum |
| ProductPage.ProductPage.constructor | src/main/resources/static/js/product.js:11-14 | the page starts blank with quantity "1" and price 0 |
| ProductPage.ProductPage.Load | src/main/resources/static/js/product.js:25-57 | a loaded product fills the add-on and removal rows from its customizations and one unchecked row per recommendation; a failed load changes nothing; then the price is recomputed |
| ProductPage.RecommendedRows | src/main/resources/static/js/product.js:124-145 | one recommendation row per recommended product, in order, with its id, name, image and price, and its checkbox unchecked |
| ProductPage.NoRecommendationAtLoad | src/main/resources/static/js/product.js:124-145 | right after loading no recommendation is checked, so add-to-cart adds no recommended line |
| ProductPage.ProductPage.UpdatePrice | src/main/resources/static/js/product.js:147-164 | the shown price becomes the displayed price of the current rows and quantity; nothing else changes |
| ProductPage.ProductPage.Decrease | src/main/resources/static/js/product.js:168-172 | the box becomes its decreased text and the price follows |
| ProductPage.ProductPage.Increase | src/main/resources/static/js/product.js:174-178 | the box becomes its increased text and the price follows |
| ProductPage.ProductPage.Type | src/main/resources/static/js/product.js:180-184 | the box becomes its sanitized text and the price follows |
| ProductPage.ProductPage.ToggleAddon | src/main/resources/static/js/product.js:114-117 | one add-on row's checkbox changes and the price follows |
| ProductPage.ProductPage.ChooseAmount | src/main/resources/static/js/product.js:118 | one add-on row's amount changes and the price follows |
| ProductPage.ProductPage.ToggleRemoval | src/main/resources/static/js/product.js:82 | one removal row changes; the recomputed price equals the old one, because removals are not priced |
| ProductPage.ProductPage.ToggleRecommended | src/main/resources/static/js/product.js:140 | one recommendation's checkbox changes and nothing else |
| ProductPage.ProductPage.AddToCart | src/main/resources/static/js/product.js:187-237 | storage gets the stored cart followed by the main line and the checked recommendations; nothing but storage changes |
| ProductPage.Open | src/main/resources/static/js/product.js:4-9 | the page starts iff the URL has a non-empty `id`, and it then works on that product |
| SalesAnalytics.CeilDiv | src/main/resources/static/js/salesAndAnalytics.js:139-144 | `Math.ceil(n / d)` is the least whole q with `(q-1)·d < n ≤ q·d` |
| SalesAnalytics.SumConcat | src/main/resources/static/js/salesAndAnalytics.js:132 | the `reduce` sum splits over concatenation |
| SalesAnalytics.CeilUnique | src/main/resources/static/js/salesAndAnalytics.js:61 | at most one whole number satisfies the ceiling bounds |
| SalesAnalytics.CeilDivStep | src/main/resources/static/js/salesAndAnalytics.js:130-139 | ⌈n/d⌉ is 1 for 0 < n ≤ d and 0 for n = 0, and it grows by one per d |
| SalesAnalytics.GroupedLength | src/main/resources/static/js/salesAndAnalytics.js:127-135 | grouping n values by size gives ⌈n/size⌉ buckets |
| SalesAnalytics.ChunksLength | src/main/resources/static/js/salesAndAnalytics.js:129-132 | stepping i by size from 0 while i < n takes ⌈n/size⌉ slices |
| SalesAnalytics.ChunksStep | src/main/resources/static/js/salesAndAnalytics.js:129-131 | one loop step: the slice starting at i is `values.slice(i, i + size)`, followed by the slices after it |
| SalesAnalytics.ChunksAt | src/main/resources/static/js/salesAndAnalytics.js:129-130 | slice k holds exactly the values at positions k·size up to (k+1)·size, cut at the end |
| SalesAnalytics.ChunksConcat | src/main/resources/static/js/salesAndAnalytics.js:129-130 | the slices laid end to end give back the values, so none is lost or repeated |
| SalesAnalytics.SumOfSums | src/main/resources/static/js/salesAndAnalytics.js:131-132 | summing the per-slice `reduce` sums is summing all the values of the slices |
| SalesAnalytics.GroupedAt | src/main/resources/static/js/salesAndAnalytics.js:130-133 | bucket k is the sum of the values at positions k·size up to (k+1)·size, cut at the end |
| SalesAnalytics.GroupedTotal | src/main/resources/static/js/salesAndAnalytics.js:127-135 | grouping keeps the grand total |
| SalesAnalytics.GroupedByOne | src/main/resources/static/js/salesAndAnalytics.js:128 | buckets of one value are the values themselves |
| SalesAnalytics.GroupData | src/main/resources/static/js/salesAndAnalytics.js:127-135 | the loop returns a copy for size ≤ 1 and the consecutive bucket sums otherwise |
| SalesAnalytics.WeeklyLabels | src/main/resources/static/js/salesAndAnalytics.js:138-141 | there are ⌈days/7⌉ labels, label i being "Week i+1" |
| SalesAnalytics.MonthlyLabels | src/main/resources/static/js/salesAndAnalytics.js:143-146 | there are ⌈days/30⌉ labels, label i being "Month i+1" |
| SalesAnalytics.PrefixedNumbersDiffer | src/main/resources/static/js/salesAndAnalytics.js:140-145 | different numbers give different labels |
| SalesAnalytics.WeeklyLabelsDistinct | src/main/resources/static/js/salesAndAnalytics.js:138-141 | week labels start at "Week 1" and are pairwise different |
| SalesAnalytics.MonthlyLabelsDistinct | src/main/resources/static/js/salesAndAnalytics.js:143-146 | month labels start at "Month 1" and are pairwise different |
| SalesAnalytics.SelectedRange | src/main/resources/static/js/salesAndAnalytics.js:19-62 | the range is picked iff both inputs are filled. Its ends are then the picked instants, otherwise the local `setDate(-7)` instant and now, each after the `formatDate` text is read back as local time |
| SalesAnalytics.GroupingOfUniformReread | src/main/resources/static/js/salesAndAnalytics.js:26-62 | when the read-back shifts every instant alike, a picked range keeps the span and the grouping of the picked instants, and an unpicked one is daily |
| SalesAnalytics.ClockChangeRegroups | src/main/resources/static/js/salesAndAnalytics.js:26-62 | a read-back one hour later at the end than at the start, as across a clock change, turns a picked seven-day range from daily into weekly |
| SalesAnalytics.DaysBetweenCovers | src/main/resources/static/js/salesAndAnalytics.js:59-62 | the day count is the least whole number of days covering the span |
| SalesAnalytics.DecideGroupingBySpan | src/main/resources/static/js/salesAndAnalytics.js:92-98 | an unpicked range or a span of up to 7 days is daily; more than 7 and up to 31 days is weekly; anything longer is monthly. Each holds in both directions |
| SalesAnalytics.ChartForContract | src/main/resources/static/js/salesAndAnalytics.js:149-170 | every granularity keeps the total revenue; daily shows the raw values and dates; weekly and monthly have one label per bar |
| SalesAnalytics.SalesChart.constructor | src/main/resources/static/js/salesAndAnalytics.js:4-7 | the chart starts with no data |
| SalesAnalytics.SalesChart.UpdateChartGranularity | src/main/resources/static/js/salesAndAnalytics.js:149-170 | the shown bars and labels become the chart for the grouping; the raw data is unchanged |
| SalesAnalytics.SalesChart.InitSalesChart | src/main/resources/static/js/salesAndAnalytics.js:65-90 | a reply sets the raw periods and values in order and shows the chart grouped by the range; a failure changes nothing |
| AllUsers.EscapeValue | src/main/resources/static/js/allUsers.js:27-34 | `escapeHTML()` with no argument (undefined) gives "" |
| AllUsers.EscapeChar | src/main/resources/static/js/allUsers.js:28-33 | the reference escape of one character is never empty |
| AllUsers.EscapeEach | src/main/resources/static/js/allUsers.js:28-33 | escaping character by character never shortens a text |
| AllUsers.ReplaceAllConcat | src/main/resources/static/js/allUsers.js:29-33 | `replaceAll` of one character distributes over concatenation |
| AllUsers.ReplaceAllAbsent | src/main/resources/static/js/allUsers.js:29-33 | `replaceAll` of an absent character changes nothing |
| AllUsers.EscapeOneChar | src/main/resources/static/js/allUsers.js:27-34 | on a single character the five passes give exactly its reference escape |
| AllUsers.EscapeHTMLConcat | src/main/resources/static/js/allUsers.js:27-34 | escaping distributes over concatenation |
| AllUsers.EscapeIsPointwise | src/main/resources/static/js/allUsers.js:27-34 | because '&' is replaced first, the five passes escape each character on its own and never re-escape an entity |
| AllUsers.EscapedHasNoMarkup | src/main/resources/static/js/allUsers.js:27-34 | escaped text contains no `<`, `>`, `"` or `'` |
| AllUsers.EscapeEachHasNoMarkup | src/main/resources/static/js/allUsers.js:28-33 | the reference escape contains no markup character |
| AllUsers.EscapeInjective | src/main/resources/static/js/allUsers.js:27-34 | different texts escape to different texts, so every cell shows exactly what was stored |
| AllUsers.EscapeEachInjective | src/main/resources/static/js/allUsers.js:28-33 | the reference escape is injective |
| AllUsers.EscapeCharPrefixFree | src/main/resources/static/js/allUsers.js:29-33 | the first two characters of an escaped character decide which character it was |
| AllUsers.IdFallback | src/main/resources/static/js/allUsers.js:69 | the id is the first present one of `id`, `userId` and `_id`, else "", and is never nullish |
| AllUsers.CurrencyDefault | src/main/resources/static/js/allUsers.js:79-82 | without a currency field the record is in "USD" unless its compensation names a currency. A present but falsy compensation (0, "", false) is itself taken as the currency |
| AllUsers.NormalizedFieldsTrimmed | src/main/resources/static/js/allUsers.js:68-85 | a normalized record has trimmed name, role and email; a present `name` wins over first and last names; id and currency follow their fallbacks |
| AllUsers.NameFromParts | src/main/resources/static/js/allUsers.js:70-72 | without `name`, the name is the non-empty first and last names joined by one space |
| AllUsers.StringRecordNormalizes | src/main/resources/static/js/allUsers.js:68-85 | a record whose name, role and email fields are strings always normalizes without throwing |
| AllUsers.UnwrapUsersContract | src/main/resources/static/js/allUsers.js:49-54 | an array reply is used as is; any other non-null reply, object or primitive, yields its `data` when that is truthy and an empty list otherwise; the call throws iff the reply is null |
| AllUsers.NormalizeAll | src/main/resources/static/js/allUsers.js:91 | mapping `normalizeUser` succeeds iff every record normalizes, and then gives one record per input, in order |
| AllUsers.RowOfClean | src/main/resources/static/js/allUsers.js:98-106 | every cell of a rendered row is free of markup |
| AllUsers.RenderedCellsHaveNoMarkup | src/main/resources/static/js/allUsers.js:87-107 | a rendered table has one row per record and no markup in any cell |
| AllUsers.StaffTable.constructor | src/main/resources/static/js/allUsers.js:16-19 | the state starts with no users and not initialized |
| AllUsers.StaffTable.Init | src/main/resources/static/js/allUsers.js:122-136 | the body runs only on the first call. A failed or unusable reply shows the error row. A good reply is stored and rendered |
| OnlineOrders.Stars | src/main/resources/static/js/onlineOrders.js:5-9 | the star string always has five characters |
| OnlineOrders.RenderStars | src/main/resources/static/js/onlineOrders.js:5-9 | the loop over positions 1..5 puts a full star at position i exactly when i ≤ rating, and gives five characters |
| OnlineOrders.Clamp5 | src/main/resources/static/js/onlineOrders.js:7 | the number of full stars is at most 5 |
| OnlineOrders.StarsOfWholeRating | src/main/resources/static/js/onlineOrders.js:5-9 | a whole rating r shows clamp(r, 0, 5) full stars followed by empty ones; a rating that is not a number shows five empty stars |
| OnlineOrders.OngoingOrders | src/main/resources/static/js/onlineOrders.js:118-120 | the filter succeeds iff no order makes its test throw |
| OnlineOrders.OngoingOrdersContract | src/main/resources/static/js/onlineOrders.js:118-120 | the ongoing list keeps, in order, exactly the orders whose upper-cased string status is PLACED, SHIPPED or PREPARING; an order without a status is left out |
| OnlineOrders.DeliveryLabelCases | src/main/resources/static/js/onlineOrders.js:157-179 | without a delivery time, "Pending delivery" shows iff the status is exactly SHIPPED or PLACED, and "Not delivered (Canceled)" iff it is exactly CANCELED. A PREPARING or lower-case "shipped" order is kept as ongoing yet shows "—" |
| OnlineOrders.PeriodBoundsContract | src/main/resources/static/js/onlineOrders.js:181-196 | a request is made iff both dates are filled and the start is not after the end; the bounds run from the first day's midnight to the last day's 23:59:59 |
| OnlineOrders.ReviewFiltersContract | src/main/resources/static/js/onlineOrders.js:70-98 | a start after the end (both set) gives the alert and nothing else. Otherwise the result is a subsequence holding exactly the reviews that pass every active filter. The end bound is `setHours(23, 59, 59, 999)` of the end date in local time, and an unparsable minimum is ignored |
| Reviews.Capitalize | src/main/resources/static/js/review.js:40-42 | only the first character is upper-cased, the rest is kept, and "" stays "" |
| Reviews.RoleKey | src/main/resources/static/js/review.js:47 | the key is the lower-cased role followed by one 's' |
| Reviews.CardNameOfRoleKey | src/main/resources/static/js/review.js:25-47 | the card name recovered from a key is the role with its case normalized. It round-trips for a role with a capital initial and a lower-case rest, while "DJ" comes back as "Dj" |
| Reviews.RowsUntilThrow | src/main/resources/static/js/review.js:79-96 | the rows appended by `forEach` are those of the entries before the first one whose `appendRow` throws, in order |
| Reviews.TopThree | src/main/resources/static/js/review.js:79-96 | at most three rows: the entries of the first min(n, 3) in order, stopping before the first one that throws (a null entry, or a rating that is set but not a number); none when the list is not an array. A null rating shows the dash |
| Reviews.TopThreeStops | src/main/resources/static/js/review.js:79-96 | when the first k of the first three entries do not throw and the next one (if any of the three) does, the table shows exactly their k rows |
| Reviews.RolePanel.constructor | src/main/resources/static/js/review.js:45-61 | no role and no data at first |
| Reviews.RolePanel.RenderRoleTable | src/main/resources/static/js/review.js:73-86 | with no data the table is left untouched. Otherwise "desc" shows the top three of `best` and any other order the top three of `worst`, up to the first entry that throws |
| Reviews.RolePanel.OpenRoleDetail | src/main/resources/static/js/review.js:46-72 | the current key becomes the role's key. A failed request keeps the data and the table. A reply becomes the data and is rendered in the selected order |
| Reviews.MapReview | src/main/resources/static/js/review.js:118-122 | the date is the part of `createdAt` before its first 'T' (all of it when there is none); rating and comment are copied |
| Reviews.SortByRating | src/main/resources/static/js/review.js:125-128 | sorting leaves the reviews ordered by rating (ascending for "asc", descending otherwise) and is a permutation of the input |
| Reviews.SwapKeepsSortedExcept | src/main/resources/static/js/review.js:125-128 | swapping an out-of-place review one step forward keeps the prefix sorted except at its new position |
| Reviews.SwapKeepsMultiset | src/main/resources/static/js/review.js:125-128 | swapping two neighbours keeps the multiset of reviews |
| Reviews.InsertedSorted | src/main/resources/static/js/review.js:125-128 | once the moving review is not out of order with its left neighbour, the prefix is sorted |
| Reviews.InsertAt | src/main/resources/static/js/review.js:125-128 | one insertion step sorts one more element into the prefix and keeps the multiset |
| Reviews.ReviewStarsAgree | src/main/resources/static/js/review.js:132 | the review stars exist iff 0 ≤ r ≤ 5 (a negative repeat count throws) and then equal the order tab's five-star string for r |
| Reviews.FilterTimeReviews | src/main/resources/static/js/review.js:105-147 | a failed request shows the error. Otherwise the cards are built from a permutation of the mapped reviews, sorted in the chosen order |
| Reviews.SortOrder | src/main/resources/static/js/review.js:107 | the sort order is the select's value when non-empty, else "desc", and is never empty |
| Admin.StatusClass | src/main/resources/static/js/admin.js:91-103 | the badge class is one of "in-progress", "completed", "cancelled" or "" |
| Admin.StatusClassCases | src/main/resources/static/js/admin.js:91-103 | "in-progress" iff ORDERED or PREPARING, "completed" iff SERVED, "cancelled" iff CANCELLED, and "" for everything else, including "CANCELED" and lower-case spellings |
| Admin.RenderOrders | src/main/resources/static/js/admin.js:64-89 | the empty message is shown iff there are no orders; otherwise there is one row per order, in order, with that order's status class |
| Admin.FilteredOrdersContract | src/main/resources/static/js/admin.js:120-143 | the alert is raised iff both bounds parse and start > end. Otherwise the result is a subsequence of the cache and holds exactly the cached orders whose day lies inside the inclusive day range, plus those whose own date does not parse |
| Admin.UnparsableBoundIgnored | src/main/resources/static/js/admin.js:123-127 | a start text that does not parse filters exactly like an empty start input |
| Admin.NoBoundsKeepsAll | src/main/resources/static/js/admin.js:138-143 | with both inputs empty, every cached order is kept, in order |
| Admin.RequestsUntilLoaded | src/main/resources/static/js/admin.js:114-118 | the retry loop makes requests up to and including the first success, and all of them when none succeeds |
| Admin.FirstLoadedStep | src/main/resources/static/js/admin.js:114-118 | after k failed requests the first success is searched from k on, and a success at k ends the loop after k + 1 requests |
| Admin.FirstLoadedExhausted | src/main/resources/static/js/admin.js:114-118 | when every request fails nothing is cached and all were made |
| Admin.OrdersPanel.constructor | src/main/resources/static/js/admin.js:21 | the cache starts as null |
| Admin.OrdersPanel.FetchOrders | src/main/resources/static/js/admin.js:23-61 | a filled cache is rendered with no request. Otherwise one request is made: a success fills the cache and renders it, and a failure leaves the cache empty and shows the load error |
| Admin.OrdersPanel.FilterOrders | src/main/resources/static/js/admin.js:114-147 | without a cache it fetches until the first success and then filters. With a cache it raises the alert exactly when the filter spec says so, leaving the table as it was; otherwise it renders the filtered orders |
| Products.FormatPriceContract | src/main/resources/static/js/products.js:8-12 | null or undefined shows as "". A number shows the symbol, then a text that parseInt reads back as the same number, then ".00". A string is shown as it is |
| Products.ParseIntStopsAtPoint | src/main/resources/static/js/products.js:10 | parseInt of a number's decimal text followed by ".00" gives the number back |
| Products.FormatPriceInjective | src/main/resources/static/js/products.js:10 | distinct numeric prices show distinct texts |
| Products.RenderProducts | src/main/resources/static/js/products.js:22-59 | the render succeeds iff no product is null or undefined (destructuring one throws). "No products found." is shown iff the list is empty, and otherwise there is one card per product |
| Products.WithoutIdContract | src/main/resources/static/js/products.js:122-124 | after a delete the cache is a subsequence of the old one and holds exactly the products whose id differs. It is strictly shorter when some product had that id |
| Products.SubsequenceShorter | src/main/resources/static/js/products.js:123 | a filtered list that misses an element of the original is shorter than it |
| Products.SubsequenceLength | src/main/resources/static/js/products.js:123 | a filtered list is never longer than the original |
| Products.ProductsPanel.constructor | src/main/resources/static/js/products.js:5 | the cache starts as null |
| Products.ProductsPanel.LoadProducts | src/main/resources/static/js/products.js:62-97 | a request is made iff there is no cache or `force` is set. Only an array payload replaces the cache; any failure keeps it, shows the error state and the snackbar. A render that throws also ends in the snackbar |
| Products.ProductsPanel.DeleteProduct | src/main/resources/static/js/products.js:105-134 | a falsy id sends nothing and shows "Missing product id". Otherwise a plain DELETE without the bearer token goes out. A failed DELETE keeps the cache and shows the failure. A success either drops that id from the cache and re-renders, or, with no cache, forces a reload; then it shows "Product deleted" |
| Products.FilterProducts | src/main/resources/static/js/products.js:137-143 | each card is displayed iff its lower-cased title contains the lower-cased query |
| Products.VisibleMonotone | src/main/resources/static/js/products.js:137-143 | an empty query shows every card, and lengthening the query never reveals a hidden card |
| Addresses.AddressForm.constructor | src/main/resources/static/js/addresses.js:38-39 | the form holds the given street and city |
| Addresses.AddressForm.FillInAddress | src/main/resources/static/js/addresses.js:14-40 | a place without address components writes nothing. Otherwise the street is the trimmed result of the street accumulation and the city is the result of the city steps, over all components in order |
| Addresses.StreetFromIsSpaced | src/main/resources/static/js/addresses.js:24-25 | the street is the names of the route, street_address and premise components, in order, each followed by a space |
| Addresses.CityUntouched | src/main/resources/static/js/addresses.js:27-35 | components that are neither localities nor first-level areas leave the city unchanged |
| Addresses.CityKept | src/main/resources/static/js/addresses.js:33-34 | once the city is non-empty, only a later locality changes it |
| Addresses.LastLocalityWins | src/main/resources/static/js/addresses.js:28-29 | the city is the name of the last locality when that name is non-empty, whatever areas follow it |
| Addresses.AreaFallback | src/main/resources/static/js/addresses.js:33-34 | without any locality the city is the first named first-level area, or "" |
| Profile.CheckPasswordsContract | src/main/resources/static/js/profile.js:50-74 | "All password fields must be filled." iff a trimmed field is empty. A request goes out iff all three are filled and the new password equals its repetition. It carries the trimmed values, so the new and confirmed passwords agree |
| Profile.CheckPasswordsIgnoresBlanks | src/main/resources/static/js/profile.js:51-53 | blanks around the typed passwords do not change the outcome |
| Profile.PasswordPanel.constructor | src/main/resources/static/js/profile.js:36-38 | the block starts hidden with empty inputs |
| Profile.PasswordPanel.Toggle | src/main/resources/static/js/profile.js:40-93 | the button flips the block's visibility, and hiding it clears the three inputs |
| Profile.PasswordPanel.TypeInputs | src/main/resources/static/js/profile.js:51-53 | the inputs become what the user typed; the visibility is kept |
| Profile.PasswordPanel.Cancel | src/main/resources/static/js/profile.js:45-48 | the block is hidden and cleared |
| Profile.PasswordPanel.Save | src/main/resources/static/js/profile.js:50-89 | a failed guard raises exactly its alert and sends nothing. A passing one sends the checked body. Only an accepted change hides and clears the block; a failed request leaves it as it was |
| Profile.PayloadKey | src/main/resources/static/js/profile.js:210-219 | a key is always one of the six profile fields |
| Profile.PayloadKeyTable | src/main/resources/static/js/profile.js:210-219 | exactly the six labels have a key, and different labels save under different keys |
| Profile.FieldEditor.constructor | src/main/resources/static/js/profile.js:134-135 | the original value and the shown text are the span's text, no input is open, and the span carries the id `city` as given |
| Profile.FieldEditor.Edit | src/main/resources/static/js/profile.js:137-192 | an open input is left as it is. Otherwise the Address field gets an empty place element and any other field a text input holding the original value; the replaced span, and with it any id `city`, leaves the page |
| Profile.FieldEditor.TypeValue | src/main/resources/static/js/profile.js:194-203 | typing changes the value of the open element and keeps its kind; with no open element nothing changes |
| Profile.FieldEditor.Save | src/main/resources/static/js/profile.js:194-257 | no input: nothing. An empty value: the alert, still editing. A label without a key: the page value only. A failed or null reply: nothing. A success: the echoed value is shown, and a returned token replaces the stored one |
| Profile.FieldEditor.Cancel | src/main/resources/static/js/profile.js:259-273 | the open element is dropped and the span shows the original value again; with no open element nothing changes |
| Profile.EchoedCases | src/main/resources/static/js/profile.js:236-238 | the sent value is kept unless the reply's user holds the key. A null echo empties the field, and an echoed string or number replaces the value with its text |
| Profile.PlaceChanged | src/main/resources/static/js/profile.js:150-178 | a place without components, or one that names no city, changes nothing. Otherwise, while the span with id `city` is in place, it becomes an input holding the city name computed over all components; once that span is gone the lookup is null, the listener throws and nothing changes |
| Profile.TownKept | src/main/resources/static/js/profile.js:155-162 | a named city survives later components that are neither localities nor postal towns |
| Profile.LastTownWins | src/main/resources/static/js/profile.js:155-162 | the name of the last locality or postal town wins when it is non-empty |
| AddStaff.ShowsSalaryContract | src/main/resources/static/js/add-staff.js:43-48 | the salary group is shown iff the lower-cased role is waiter, bartender or chef, whatever its letter case |
| AddStaff.LoadedRoleContract | src/main/resources/static/js/add-staff.js:23 | a missing or empty role loads as "admin" and a string role is trimmed and lower-cased. Any non-empty all-blank role loads as "", because the default is chosen before trimming, and a truthy non-string role throws |
| AddStaff.LowerTrimStable | src/main/resources/static/js/add-staff.js:23 | trimming and lower-casing a loaded role a second time changes nothing |
| AddStaff.TrimUnchanged | src/main/resources/static/js/add-staff.js:56-59 | a text with no white space at either end is its own trim |
| AddStaff.RequestForContract | src/main/resources/static/js/add-staff.js:55-75 | PUT to update/{userId} iff a userId is present, otherwise POST to add. Salary is null iff the input is empty. Submitting the fields of a sent body again sends the same body |
| AddStaff.StaffForm.constructor | src/main/resources/static/js/add-staff.js:5-15 | empty inputs, hidden salary, and the button reads "Update Staff" iff in edit mode |
| AddStaff.StaffForm.Load | src/main/resources/static/js/add-staff.js:14-39 | outside edit mode, on a failed request, or when the handler throws, the form is unchanged. Otherwise the inputs take the reply's fields (falsy ones as "") and the loaded role, and the salary is shown iff that role earns one |
| AddStaff.StaffForm.ChangeRole | src/main/resources/static/js/add-staff.js:43-48 | the role becomes the chosen one and the salary visibility follows it; nothing else changes |
| AddStaff.StaffForm.Type | src/main/resources/static/js/add-staff.js:55-62 | the other inputs take the typed values and the role is kept |
| AddStaff.StaffForm.Submit | src/main/resources/static/js/add-staff.js:52-97 | the request is the mode's request for the current inputs. An accepted one shows the mode's message and goes to /admin.html; a failure shows the error message and stays |
| Dashboard.HeatColorBands | src/main/resources/static/js/dashboard.js:185-189 | red up to 10, orange up to 50, yellow up to 100 and green above, with inclusive upper bounds, and more stock never shows a scarcer colour |
| Dashboard.RenderHeatmap | src/main/resources/static/js/dashboard.js:181-197 | one row per category in order, with one cell per count in order, coloured by the band of that count; a row without a counts array makes it throw before the table is written |
| Dashboard.KpisOfContract | src/main/resources/static/js/dashboard.js:35-54 | the sales card starts with "$". A null or undefined figure shows as zero, and a numeric count's text reads back as the same number |
| Dashboard.CountText | src/main/resources/static/js/dashboard.js:50-52 | `String(v ?? 0)` is "0" for a missing count and reads back as the count for a number |
| Dashboard.SparkLabelsContract | src/main/resources/static/js/dashboard.js:134 | a spark chart gets one label per point; label i reads back as i + 1, so the labels are pairwise different |
| Dashboard.DashboardState.constructor | src/main/resources/static/js/dashboard.js:4-7 | not initialized, not running, and no cards, charts or heat map yet |
| Dashboard.DashboardState.RunModule | src/main/resources/static/js/dashboard.js:4-9 | the script body runs iff no earlier copy ran in this window, and afterwards the namespace is initialized |
| Dashboard.DashboardState.StartInit | src/main/resources/static/js/dashboard.js:206-209 | a refresh starts iff none is running, and afterwards one is running |
| Dashboard.DashboardState.FinishInit | src/main/resources/static/js/dashboard.js:210-231 | the running flag is cleared either way, and when a request threw nothing is drawn. Otherwise the cards are drawn from the four KPI bodies as `KpisOf` formats them. A null sales body stops there; else the sales chart, the spark charts up to the first product without a spark array, and, when all of those were drawn and every row has counts, the heat map follow |
| Dashboard.FirstBadSpark | src/main/resources/static/js/dashboard.js:130-134 | the position of the first product whose spark is not an array (where `p.spark.map` throws), or the number of products when every one has one |
| Dashboard.DashboardState.RenderTopProducts | src/main/resources/static/js/dashboard.js:105-173 | the old charts are replaced by one chart per product, in order, labelled "1".."n" for its n points, up to the first product without a spark array; it completes iff there is none |
| Js.DigitChar | src/main/resources/static/js/dashboard.js:50-52 | a digit value below ten becomes a decimal digit character |
| Js.DigitRun | src/main/resources/static/js/onlineOrders.js:73-74 | the leading digit run that parseInt reads is a prefix of digits, stopped by the first non-digit |
| Js.NatToStringDigits | src/main/resources/static/js/dashboard.js:50-52 | the decimal text of a natural number is a non-empty string of digits whose value is that number |
| Js.ParseIntOfIntToString | src/main/resources/static/js/dashboard.js:50-52 | parseInt of String(n) gives n back, for every integer n |
| Js.DigitRunAll | src/main/resources/static/js/onlineOrders.js:73-74 | parseInt reads the whole of a string made only of digits |
| Js.ParseIntOneDigit | src/main/resources/static/js/product.js:161 | parseInt of a single digit character is that digit's value |
| Js.IntToStringInjective | src/main/resources/static/js/dashboard.js:134 | different integers have different decimal texts |
| Js.TrimStartFacts | src/main/resources/static/js/add-staff.js:56-59 | only leading white space is dropped: the result is a suffix of the input, everything before it is white space, and it starts with a non-blank character or is empty |
| Js.TrimEndFacts | src/main/resources/static/js/add-staff.js:56-59 | only trailing white space is dropped: the result is a prefix of the input, everything after it is white space, and it ends with a non-blank character or is empty |
| Js.TrimSurrounded | src/main/resources/static/js/add-staff.js:56-59 | white space around a core with non-blank ends is exactly what trim removes |
| Js.TrimStartSpaces | src/main/resources/static/js/add-staff.js:56-59 | leading blanks before a non-blank character are dropped and nothing else |
| Js.TrimEndSpaces | src/main/resources/static/js/add-staff.js:56-59 | trailing blanks after a non-blank character are dropped and nothing else |
| Js.TrimIsSlice | src/main/resources/static/js/add-staff.js:56-59 | the trimmed text is a slice of the input with only white space outside it, and its ends are not white space |
| Js.TrimIdempotent | src/main/resources/static/js/add-staff.js:56-59 | trimming twice is trimming once |
| Js.ToLower | src/main/resources/static/js/add-staff.js:60 | same length, each character lower-cased in place |
| Js.ToLowerIdempotent | src/main/resources/static/js/add-staff.js:60 | lower-casing twice is lower-casing once |
| Js.ToUpper | src/main/resources/static/js/review.js:40-42 | same length, each character upper-cased in place |
| Js.Repeat | src/main/resources/static/js/review.js:132 | `c.repeat(n)` has length n and every character is c |
| Js.ReplaceCharAt | src/main/resources/static/js/jwtFetch.js:34 | replacing one character by one character keeps the length and changes exactly the positions holding that character |
| Js.Split | src/main/resources/static/js/jwtFetch.js:30 | split always yields at least one part |
| Js.SplitJoin | src/main/resources/static/js/jwtFetch.js:30 | joining the parts with the separator gives the text back |
| Js.SplitPartsFree | src/main/resources/static/js/jwtFetch.js:30 | no part contains the separator |
| Js.SplitWithoutSeparator | src/main/resources/static/js/jwtFetch.js:30 | a text without the separator splits into itself alone |
| Js.SplitAfterFirst | src/main/resources/static/js/jwtFetch.js:30 | a text `a + sep + b` with no separator in a splits into a followed by the parts of b |
| Js.SplitFirst | src/main/resources/static/js/review.js:119 | the first part is the text up to its first separator, or all of it when there is none |
| Js.Filter | src/main/resources/static/js/admin.js:138-143 | the result is no longer than the input and holds exactly the input's elements that pass the test |
| Js.MapAll | src/main/resources/static/js/allUsers.js:91 | mapping a function that may throw succeeds iff it succeeds on every element, and then gives one result per element, in order |
| Js.SubsequenceRefl | src/main/resources/static/js/home.js:45 | a list is a subsequence of itself |
| Js.SubsequenceTransitive | src/main/resources/static/js/onlineOrders.js:84-95 | a subsequence of a subsequence is a subsequence |
| Js.FilterIsSubsequence | src/main/resources/static/js/admin.js:138-143 | filter keeps the surviving elements in their original order |
| Js.FilterFilter | src/main/resources/static/js/onlineOrders.js:84-95 | two filters in a row equal one filter by both tests |
| Js.FilterAll | src/main/resources/static/js/home.js:45 | a filter that every element passes changes nothing |

## Left out

- Page painting is not modelled: DOM construction, `innerHTML` templates, Chart.js charts, flatpickr, snackbar timing, spinners and tab switching. Each handler is modelled by the data it computes and the state it leaves.
- The network is a scripted sequence of replies, or an outcome parameter per request. URL query building with `URLSearchParams`/`encodeURIComponent` and the exact JSON text of request bodies are not modelled; bodies are records with the same fields.
- `atob` and `JSON.parse` of a token payload are an opaque partial decoder passed as a parameter. Only the base64url-to-base64 character swap is concrete.
- Dates and locales are parameters. `new Date(...)`, `toLocaleString`, `toISOString`, `Intl.NumberFormat` and the local-day computation become functions from text to an instant and from an instant to a day number.
- Floating-point rounding is not modelled. Money is an exact real, so `toFixed(2)`, `parseFloat` of displayed text and binary rounding of 0.10 and 0.15 are absent.
- JSON numbers are whole numbers in this model, so `formatPrice` appends ".00" to a whole number and fractional prices are not covered.
- Case mapping is ASCII only; `toLowerCase`/`toUpperCase` of other letters are left unchanged.
- Concurrency is not modelled: two `apiFetch` calls racing two refreshes, the `Promise.all` fan-outs of the dashboard and the sales page, and `setTimeout`. The redirect after a staff save is modelled as immediate.
- Admin.OrdersPanel.FilterOrders: the source retries with no bound while fetches keep failing; the model stops when its finite sequence of outcomes runs out.
- Reviews.SortByRating: states a sorted permutation; that equal ratings keep their relative order (the stability of `Array.prototype.sort`) is not stated.
- Reviews.FilterTimeReviews: inherits the same ordering statement, without stability.
- Js.ParseInt: reads decimal text only. The cart's chopstick count and typed quantity and the order-period minimums call `parseInt` without a radix, which would read a "0x" prefix as hexadecimal; number inputs never hold such text.
- ProductPage.AddedChoices: a `maxQuantity` below 1 other than 0 (say -2 or 0.5) leaves the amount select empty; the source then stores `parseInt("", 10)`, `NaN` (null once stringified), as that option's quantity, where the model stores the row's amount 1.
- Dashboard.DashboardState.FinishInit: the top-products and heat-map bodies are lists of records. A body that is not an array, or a null product or row, would make `map` throw before any chart or row is drawn; the model's types leave these out.
- ShoppingCart.CartPage.ResetCart: removes both storage keys outright, whereas the source first tests that each stored text is non-empty; for any stored cart document the effect is the same.
- ProductPage.ProductPage.AddToCart: stores the unrounded displayed total as the price, where the source stores `parseFloat` of the two-decimal text.
- The review filter of the online-orders page reads a global `mockOnlineReviews` that the script never defines; the model filters an input list instead.
- onlineOrders.js: the review cards, the analytics cards, the order modal, the tab handlers and the period result table are page painting and are not modelled.
- review.js: `loadSummaryData` (summary cards) and `filterProductReviews` (product review cards) are not modelled; only the role tables, the time-review sort and the star strings are.
- allUsers.js: `formatMoney`, the edit-button navigation and the refresh hook are not modelled.
- salesAndAnalytics.js: `loadSummaryCards`, `formatCurrency` and the tab and apply handlers are not modelled; `getLastWeekRange` and the `formatDate` read-back are the parameters `weekBefore` and `reread` of `SelectedRange`.
- profile.js: loading and displaying the profile, the password-visibility toggle, logout and the Places element setup are not modelled.
- addresses.js: `initAutocomplete` is Google Places wiring and is not modelled.
- dashboard.js: the chart drawing and the four requests are not modelled; `FinishInit` takes their combined result.
- products.js: the card markup and `editProduct` navigation are not modelled.
- analytics.js is chart wiring and is not part of this model.
- add-product.js is file-reader and drag-and-drop code with no backend call and is not part of this model.
- register.js and profile-details.js are form-to-storage plumbing with a captcha and are not part of this model.
- logout.js (two storage removals and a POST) is not part of this model.
- AuthControllers.java is server-side template wiring and is not part of this model.
