# Ceremic storefront — a Dafny model of its core

Ceremic is a React storefront for handmade ceramics. A backend serves the catalogue
as raw product records. The browser turns them into display records, joins the
user's cart and order book against the catalogue, and keeps a login session in
`localStorage`. This project models that core in Dafny and proves properties of
the model:

- **`Api`** (`api.dfy`) is the view-model transformation `transformCollectionsData`:
  - defaults for every missing field;
  - benefit logos, specification text and review dates;
  - the discount gate, and the discounted price rounded with `Math.round`;
  - images filtered and reordered so that the catalog image comes first;
  - `category: 'new'`.

  Beside it is the way `createUser` and `placeOrder` read a response body.
- **`ProductJoin`** (`join.dfy`) is the "join by product id" that the cart and
  order pages share: the first product with an entry's id, and the entries without
  one dropped.
- **`UserStorage`** (`user_storage.dfy`) is the session store: a `Store` class over
  the two `localStorage` keys, with save, read and clear.
- **`Cart`** (`cart.dfy`) covers the cart page:
  - the joined cart lines;
  - subtotal, item count and savings;
  - the cart-quantity lookup;
  - the post-purchase redirect rule, which never pushes an `http(s)` URL;
  - the page's load, refetch and place-order handlers.
- **`Orders`** (`orders.dfy`) covers the order-history page: the joined order lines,
  per-group totals, and grouping by calendar day with the newest day first.
- **`LoginSignup`** (`login_signup.dfy`) covers the login/signup dialog:
  - the validators, which report the first broken rule;
  - the email rule, proved equal to its regular expression;
  - the request sent to the backend;
  - the handlers that switch mode, call the backend and save the session.
- **`ProductDetail`** (`product_detail.dfy`) covers the product page: the image
  fallback, the on-screen image, and the swipe state machine, whose index stays
  within the images.
- **`Collections`** (`collections.dfy`) covers the catalogue page:
  - the category filter;
  - the rating-block condition;
  - the analytics event payloads with the `-1` anonymous user;
  - the page's state.
- **`Strings`** and **`Wrappers`** hold the JavaScript string behaviour the core relies on and the `Option`/`Outcome` types:
  - `trim` and `\s`;
  - `replace(/\D/g, '')`;
  - `toString`/`parseInt` of integers.

The network, the clock and `JSON.parse` are parameters. Each backend call is an
`Outcome`, either the value it returned or the message of the error it threw.
"Now" is a string. The calendar day of a date is a function `dayOf`. What
`JSON.parse` makes of a body is an `Option`.

## Model

| member | source | states |
|---|---|---|
| Strings.Trim | src/components/LoginSignup.jsx:102-106 | the result is the slice of the input between a run of leading and a run of trailing white space, and itself starts and ends with no white space; an already trimmed input is returned unchanged |
| Strings.TrimEmptyIff | src/components/LoginSignup.jsx:29-48 | `s.trim()` is empty exactly when every character of `s` is white space |
| Strings.DigitsOf | src/components/LoginSignup.jsx:59 | the result holds only digits, never lengthens, contains exactly the characters of the input that are digits, and leaves an all-digit string unchanged |
| Strings.DigitsOfChar | src/components/LoginSignup.jsx:59 | a single character is kept exactly when it is a digit |
| Strings.DigitsOfAppend | src/components/LoginSignup.jsx:59 | stripping distributes over concatenation, so every digit is kept in its order |
| Strings.IntToStringRoundTrip | src/utils/userStorage.js:12-31 | the decimal text written for any integer id is read back by `parseInt` as the same integer |
| Strings.NatToStringRoundTrip | src/utils/userStorage.js:14 | the digits of a natural number evaluate back to it |
| Api.TransformBenefit | src/services/api.js:37-42 | the logo is blank exactly when it is missing or all white space, and is otherwise kept verbatim; the id is kept; the value and description are the given text, `''` when missing |
| Api.SpecValue | src/services/api.js:48-56 | the value is the trimmed `value \|\| ''` followed by a space and the unit when the dimension has a non-empty unit, and is always trimmed |
| Api.SpecValueWithUnit | src/services/api.js:50-55 | a value and a unit are joined by one space |
| Api.TransformDetail | src/services/api.js:48-57 | the id is kept, the label is the dimension's name or `''`, and the value is the specification value of the detail's value and dimension |
| Api.TransformReview | src/services/api.js:60-66 | the id is kept; the user name is the username when present and non-empty, else `Anonymous`; the rating defaults to 0 and the comment to `''`; the date is `createdOn`, else `modifiedOn`, else now |
| Api.TransformMeta | src/services/api.js:69-72 | metadata exists exactly when the raw record has it; the average rating is the rating or 0 and the review count is the count or 0 |
| Api.DiscountedPrice | src/services/api.js:79-81 | `Math.round(price - price*pct/100)` equals `(price*(100-pct)+50) div 100` |
| Api.HasDiscount | src/services/api.js:77 | a discount applies exactly when the record has discount data that is enabled with a positive percentage |
| Api.DiscountedPriceBounds | src/services/api.js:79-81 | for a non-negative price and a percentage in 1..100, the discounted price lies between 0 and the price |
| Api.RealDivFloor | src/services/api.js:80 | the floor of an exact real quotient is the integer quotient |
| Api.TransformPricing | src/services/api.js:75-81 | the price defaults to 0; there is a discount exactly when it is enabled and positive; without one the price is unchanged and the percentage 0; with one the rounded formula holds |
| Api.ImagesWithMetadata | src/services/api.js:84-87 | images with an empty or missing base64 are dropped, and no more appear than were sent |
| Api.ImagesWithMetadataOne | src/services/api.js:84-87 | one raw image is kept, with its base64 and flag, exactly when its base64 is present and non-empty |
| Api.ImagesWithMetadataAppend | src/services/api.js:84-87 | the filter distributes over concatenation, so the kept images stay in their order |
| Api.ImagesWithMetadataMembers | src/services/api.js:84-87 | an image is kept exactly when some raw image carries its non-empty base64 and its flag |
| Api.FirstCatalogIndex | src/services/api.js:90 | the first image flagged as catalog image, or none when no image is flagged |
| Api.SortedImages | src/services/api.js:93-95 | the same number of images; unchanged without a catalog image; otherwise the first catalog image leads |
| Api.Base64s | src/services/api.js:98 | the base64 strings of the images, position by position |
| Api.SortedImagesPermutes | src/services/api.js:93-95 | moving the catalog image to the front is a permutation |
| Api.Base64sConcat | src/services/api.js:98 | extracting base64 strings distributes over concatenation |
| Api.SortedBase64s | src/services/api.js:93-98 | with no catalog image the order is unchanged; otherwise the catalog image leads and the others keep their order; the strings form a permutation |
| Api.TransformImages | src/services/api.js:84-101 | every image kept is non-empty; the main image is the first of the list, or empty when the list is |
| Api.TransformImagesOrder | src/services/api.js:84-101 | the list is a permutation of the non-empty images with the first catalog image in front and the rest in their order |
| Api.CatalogImageFirstExample | src/services/api.js:93-98 | images A, B (catalog), C come out as B, A, C |
| Api.TransformBenefits | src/services/api.js:37-42 | one benefit per raw benefit, benefit i being the transform of raw benefit i |
| Api.TransformFeatures | src/services/api.js:45 | one feature per love point, feature i being its value or `''` |
| Api.TransformDetails | src/services/api.js:48-57 | one specification per detail, specification i being the transform of detail i |
| Api.TransformReviews | src/services/api.js:60-66 | one review per raw review, review i being the transform of raw review i |
| Api.TransformItem | src/services/api.js:35-123 | id, name and dates kept; category `'new'`; description and about default to `''`; the pricing and discount rules; the main image and the image list are those of the image transform; benefits, features, specifications, reviews and review metadata are the transforms of the raw lists |
| Api.TransformCollections | src/services/api.js:34-125 | one product per raw record, product i being the transform of record i, every category `'new'` |
| Api.DiscountExample | src/services/api.js:74-81 | price 100 with an enabled 25 % discount sells at 75 |
| ProductJoin.FindIndex | src/components/Cart.jsx:38 | the index of the first product with the id, or none when no product has it |
| ProductJoin.FindProduct | src/components/Cart.jsx:38 | none exactly when no product has the id; otherwise the product at the first index with that id |
| ProductJoin.JoinByProduct | src/components/Cart.jsx:37-47 | never more lines than entries |
| ProductJoin.JoinLength | src/components/Cart.jsx:37-47 | exactly as many lines as entries when, and only when, every entry's product exists |
| ProductJoin.JoinAppend | src/components/Cart.jsx:37-47 | the join distributes over concatenation, so lines keep the entries' order |
| ProductJoin.JoinMembership | src/components/Cart.jsx:37-47 | a line is in the join exactly when some entry resolves to a product and builds that line |
| ProductJoin.JoinAllResolved | src/components/Cart.jsx:37-47 | when every entry resolves, line i is built from entry i |
| Api.CreateUserBody | src/services/api.js:161-171 | no user exactly when the body is blank, is `null` once trimmed, or does not parse; otherwise the parsed user |
| Api.PlaceOrderBody | src/services/api.js:311-323 | `{success: true}` exactly when the body is blank or does not parse; otherwise the parsed body |
| Api.Product.TotalReviews | src/components/ProductDetailPage.jsx:24-26 | the metadata's review count when metadata exists, else the number of reviews |
| UserStorage.Store.constructor | src/utils/userStorage.js:5-6 | the store starts from what earlier sessions left in the two keys |
| UserStorage.Store.GetUserId | src/utils/userStorage.js:12-15 | an id exactly when the id key holds non-empty text |
| UserStorage.Store.IsUserLoggedIn | src/utils/userStorage.js:21-23 | logged in exactly when the id key holds non-empty text |
| UserStorage.Store.GetUserData | src/utils/userStorage.js:48-51 | the record exactly when the data key is present |
| UserStorage.Store.SaveUserId | src/utils/userStorage.js:29-31 | afterwards the id reads back as the saved integer and the user is logged in; the data key and all other keys are unchanged |
| UserStorage.Store.SaveUserData | src/utils/userStorage.js:37-42 | the record reads back; a truthy id is saved and logs the user in; without one the id key and login state are unchanged; other keys are untouched |
| UserStorage.Store.ClearUserData | src/utils/userStorage.js:56-59 | both keys are removed, so there is no id, no record and no login; other keys are untouched |
| Cart.JoinCart | src/components/Cart.jsx:36-47 | never more lines than cart entries, and as many exactly when every product is found |
| Cart.CartLines | src/components/Cart.jsx:37-47 | a line is shown exactly when some cart entry's product exists, with that entry's quantity and id |
| Cart.JoinCartDropsUnresolved | src/components/Cart.jsx:39-47 | an entry whose product is not in the catalogue contributes nothing and does not disturb the others |
| Cart.Total | src/components/Cart.jsx:285-288 | with free shipping the total is the subtotal |
| Cart.SubtotalPlusSavings | src/components/Cart.jsx:272-278 | subtotal plus "You saved" equals the cart at list price |
| Cart.TotalsAppend | src/components/Cart.jsx:272-283 | subtotal, item count and savings add up over any split of the cart |
| Cart.Subtotal | src/components/Cart.jsx:272-278 | the sum of unit price times quantity (the definition; its properties are the lemmas beside it) |
| Cart.TotalItems | src/components/Cart.jsx:280-283 | the sum of the quantities (the definition; its properties are the lemmas beside it) |
| Cart.Savings | src/components/Cart.jsx:411-420 | what the discounts take off, line by line (the definition; its properties are the lemmas beside it) |
| Cart.PlainCartTotals | src/components/Cart.jsx:272-283 | a cart without discounted products saves nothing, and one whose lines each hold an item counts at least one item per line |
| Cart.SavingsNonNegative | src/components/Cart.jsx:411-420 | with non-negative quantities and discounted prices at most the list price, savings are non-negative and the subtotal is at most list price |
| Cart.CartQuantity | src/components/ProductDetailPage.jsx:117-119 | not in the cart, quantity 0, exactly when no line has the id; otherwise the quantity of the first matching line (the lookup of src/components/Collections.jsx:138-140 is the same) |
| Cart.PostPurchaseNavigation | src/components/Cart.jsx:145-174 | a pushed path starts with `/` and is not an `http(s)` URL; a blank target does nothing; an `http(s)` target shows the thank-you page or does nothing; any other target is pushed as `FullPath` of the trimmed target |
| Cart.FullPath | src/components/Cart.jsx:164 | the path starts with `/` and is not an http(s) URL; a URL already starting with `/` is kept, any other gets `/` prepended |
| Cart.LocalPathIsNotHttp | src/components/Cart.jsx:151 | a path starting with `/` is not an absolute http(s) URL |
| Cart.CartFromResponse | src/components/Cart.jsx:36-47 | the page never shows more lines than the server's cart has entries |
| Cart.CartPage.constructor | src/components/Cart.jsx:10-14 | empty cart, loading, no error, no order in progress |
| Cart.CartPage.FetchCartData | src/components/Cart.jsx:17-62 | the cart is requested exactly when logged in with stored data; the joined lines on success, an empty cart and the load error on failure; loading ends |
| Cart.CartPage.RefetchCart | src/components/Cart.jsx:69-96 | requested exactly when user data is stored; the lines are replaced only on success; nothing else changes |
| Cart.CartPage.PlaceOrder | src/components/Cart.jsx:114-182 | without a session, or with an empty cart, only the matching error is set; otherwise a resolved call is a success and schedules the redirect, and a failed one sets the order error |
| Orders.JoinOrders | src/components/Orders.jsx:31-43 | never more lines than order entries, and as many exactly when every product is found |
| Orders.OrderLines | src/components/Orders.jsx:32-43 | a line exists exactly when an entry's product exists, carrying the entry's quantity, id and date (now when it has none) |
| Orders.JoinOrdersDropsUnresolved | src/components/Orders.jsx:34-43 | an entry with an unknown product contributes nothing |
| Orders.OrderTotalsAppend | src/components/Orders.jsx:124-133 | group totals and item counts add up over a split of the group |
| Orders.OrderTotal | src/components/Orders.jsx:124-129 | the sum of unit price times quantity (the definition; its properties are the lemmas beside it) |
| Orders.OrderItems | src/components/Orders.jsx:131-133 | the sum of the quantities (the definition; its properties are the lemmas beside it) |
| Orders.OrderTotalBounds | src/components/Orders.jsx:124-133 | with non-negative quantities and prices, the totals are non-negative and at least any one line |
| Orders.OnDayMembers | src/components/Orders.jsx:111-118 | a day's orders are exactly the orders whose date falls on that day |
| Orders.OnDayEmpty | src/components/Orders.jsx:113-116 | a day no order falls on has no orders |
| Orders.EachOrderInOneGroup | src/components/Orders.jsx:111-122 | under a day grouping every order is in exactly the group of its own day |
| Orders.InsertByDay | src/components/Orders.jsx:120-122 | inserting a group of a new day keeps the groups newest first and adds just that group |
| Orders.SortNewestFirst | src/components/Orders.jsx:120-122 | groups of distinct days come out newest first, the same groups |
| Orders.FoldIsGrouped | src/components/Orders.jsx:111-118 | after any prefix of the orders the dictionary's keys are distinct and are exactly its days, each day's list holds exactly that day's orders in their order and is never empty, and every order read has its day as a key |
| Orders.Entries | src/components/Orders.jsx:120 | one entry per key, in key order, pairing the day with its list |
| Orders.GroupedSorted | src/components/Orders.jsx:120-122 | the entries of such a dictionary, sorted newest first, form a day grouping of the orders |
| Orders.FoldGroupsByDay | src/components/Orders.jsx:111-122 | the whole reduce and sort yield a day grouping of all the orders |
| Orders.GroupByDay | src/components/Orders.jsx:111-122 | one non-empty group per day that has orders, newest first, each holding exactly that day's orders in their order |
| Orders.OrdersFromResponse | src/components/Orders.jsx:31-43 | never more lines than order-book entries |
| Orders.OrdersPage.constructor | src/components/Orders.jsx:8-10 | no orders, loading, no error |
| Orders.OrdersPage.FetchOrders | src/components/Orders.jsx:12-55 | requested exactly when logged in with stored data; the joined lines on success, none and the load error on failure; loading ends |
| LoginSignup.FormData.With | src/components/LoginSignup.jsx:18-23 | the named field takes the value and every other field is unchanged |
| LoginSignup.IndexOf | src/components/LoginSignup.jsx:51 | the first position of the character, or none when it does not occur |
| LoginSignup.IsValidEmail | src/components/LoginSignup.jsx:51-52 | the email rule (its meaning is `EmailRuleIsPattern`) |
| LoginSignup.IsValidPhone | src/components/LoginSignup.jsx:58-59 | ten digits once every non-digit is stripped |
| LoginSignup.IsValidPincode | src/components/LoginSignup.jsx:65-66 | six digits once the surrounding white space is trimmed |
| LoginSignup.EmailRuleIsPattern | src/components/LoginSignup.jsx:51-55 | the email rule holds exactly when the string matches `^[^\s@]+@[^\s@]+\.[^\s@]+$` |
| LoginSignup.EmailRuleMatches | src/components/LoginSignup.jsx:51 | a string the rule accepts matches the pattern |
| LoginSignup.PatternPassesRule | src/components/LoginSignup.jsx:51 | a string matching the pattern passes the rule |
| LoginSignup.BlankHasNoDigits | src/components/LoginSignup.jsx:33-62 | a blank phone number has no digits, so it would also fail the ten-digit rule |
| LoginSignup.SignupError | src/components/LoginSignup.jsx:28-72 | no error exactly when all five fields are non-blank, the email matches the pattern, the phone has ten digits and the trimmed pincode is six digits; otherwise the message of the first broken rule in the source's order |
| LoginSignup.LoginError | src/components/LoginSignup.jsx:74-88 | accepted exactly when the phone carries ten digits; "required" exactly when it is blank |
| LoginSignup.SignupFormPassesLogin | src/components/LoginSignup.jsx:28-88 | a form the signup rules accept passes the login rules |
| LoginSignup.SignupRequest | src/components/LoginSignup.jsx:101-107 | username, email, address and pincode are the trimmed inputs and the phone number is the input's digits, so the text fields are trimmed and the phone is digits only |
| LoginSignup.AcceptedSignupRequest | src/components/LoginSignup.jsx:90-107 | after validation the backend receives non-empty fields, the email exactly as typed, ten phone digits and six pincode digits |
| LoginSignup.ValidEmailHasNoSpace | src/components/LoginSignup.jsx:51 | an accepted email has no white space |
| LoginSignup.NoSpaceIsTrimmed | src/components/LoginSignup.jsx:104 | a string with no white space is unchanged by `trim` |
| LoginSignup.LoginSignupForm.constructor | src/components/LoginSignup.jsx:7-16 | signup mode, empty form, not loading, no message |
| LoginSignup.LoginSignupForm.HandleChange | src/components/LoginSignup.jsx:18-26 | one field changes and the message is cleared |
| LoginSignup.LoginSignupForm.ValidateSignupForm | src/components/LoginSignup.jsx:28-72 | passes exactly when the signup rules accept the form; on failure the message is the first broken rule's |
| LoginSignup.LoginSignupForm.ValidateLoginForm | src/components/LoginSignup.jsx:74-88 | passes exactly when the phone has ten digits; on failure the message is the login error |
| LoginSignup.LoginSignupForm.HandleSignup | src/components/LoginSignup.jsx:90-131 | no request for a rejected form; otherwise the trimmed request is sent; an empty or `null` body switches to login with "account exists"; a user is saved, and logged in when its id is truthy, while a falsy id leaves the stored id and login state as they were; an error shows its message or the default; loading ends |
| LoginSignup.LoginSignupForm.ReceiveSignup | src/components/LoginSignup.jsx:100-130 | the response handling of the signup: saved user (logged in for a truthy id, stored id and login state unchanged for a falsy one), account-exists switch, or error message, with loading off |
| LoginSignup.LoginSignupForm.HandleLogin | src/components/LoginSignup.jsx:133-159 | no request unless the phone has ten digits; otherwise the digits are sent; a user is saved, and logged in when its id is truthy, while a falsy id leaves the stored id and login state as they were; an error shows its message or the default |
| LoginSignup.LoginSignupForm.HandleSubmit | src/components/LoginSignup.jsx:161-167 | login mode runs the login handler, signup mode the signup handler; the request, message, mode, `loading`, saved user and store frame are those each handler promises |
| LoginSignup.LoginSignupForm.SwitchToLogin | src/components/LoginSignup.jsx:169-172 | login mode, message cleared, fields kept |
| LoginSignup.LoginSignupForm.SwitchToSignup | src/components/LoginSignup.jsx:174-177 | signup mode, message cleared, fields kept |
| ProductDetail.AllImages | src/components/ProductDetailPage.jsx:109-111 | the images when there are any; exactly `[image]` when there are none and the single image is non-empty; empty exactly when there are no images and no single image; only the product's own images appear |
| ProductDetail.TransformedGallery | src/components/ProductDetailPage.jsx:109-111 | for a catalogue product the gallery is exactly its image list, none of it blank |
| ProductDetail.CurrentImage | src/components/ProductDetailPage.jsx:114 | the selected image when it exists and is non-empty, the first image for an index out of range or a blank selected image, and blank only when there are no images (given non-blank images) |
| ProductDetail.SwipeTarget | src/components/ProductDetailPage.jsx:133-146 | the index stays within 0..max(0, len-1), moves at most one step, does not move without two non-zero touches, moves forward exactly on a left swipe of over 50 with room, back exactly on a right swipe of over 50 with room |
| ProductDetail.SwipeThereAndBack | src/components/ProductDetailPage.jsx:136-145 | a left swipe followed by the reverse right swipe returns to the same image |
| ProductDetail.Gallery.constructor | src/components/ProductDetailPage.jsx:8-10 | the first image is selected and no touch is recorded |
| ProductDetail.Gallery.Current | src/components/ProductDetailPage.jsx:114 | with non-blank images the screen shows the selected one |
| ProductDetail.Gallery.OnTouchStart | src/components/ProductDetailPage.jsx:124-127 | the touch start is recorded and the end cleared |
| ProductDetail.Gallery.OnTouchMove | src/components/ProductDetailPage.jsx:129-131 | the touch end is recorded |
| ProductDetail.Gallery.OnTouchEnd | src/components/ProductDetailPage.jsx:133-146 | the index becomes the swipe target and stays within the images |
| ProductDetail.Gallery.SelectImage | src/components/ProductDetailPage.jsx:199 | an indicator click selects its image |
| ProductDetail.ReviewCountOfTransformed | src/components/ProductDetailPage.jsx:24-26 | for a catalogue product the count is the metadata's review count (0 when missing) when metadata was sent, else the number of reviews |
| Collections.FilterCategory | src/components/Collections.jsx:82 | exactly the products of the category, never more than given |
| Collections.FilterCategoryAppend | src/components/Collections.jsx:82 | filtering distributes over concatenation, so order is kept |
| Collections.FilterKeepsAllMatching | src/components/Collections.jsx:82 | products all of the category pass unchanged |
| Collections.FilterDropsAllOthers | src/components/Collections.jsx:82 | products none of the category give nothing |
| Collections.ShownProducts | src/components/Collections.jsx:80-82 | `'all'` shows the list unchanged; any other category exactly its products |
| Collections.NewArrivalsShowAll | src/components/Collections.jsx:80-82 | `'new'` shows the whole catalogue unchanged |
| Collections.OtherCategoriesShowNone | src/components/Collections.jsx:80-82 | any category other than `'all'` and `'new'` shows nothing |
| Collections.RatingShownOfTransformed | src/components/Collections.jsx:133-135 | the rating block shows exactly when the metadata's count is positive, or, without metadata, when reviews are listed |
| Collections.EventUserId | src/components/Collections.jsx:19 | the stored id, or -1 without one |
| Collections.ViewEvent | src/components/Collections.jsx:13-20 | a `VIEW` event whose tag reads back as the product id |
| Collections.CategoryEvent | src/components/Collections.jsx:27-47 | an event exactly for `'all'` and `'new'`, with the matching action |
| Collections.VisitEvent | src/components/Collections.jsx:51-58 | a `VISIT` event with the user or -1 |
| Collections.EventUserOfStore | src/components/Collections.jsx:14-19 | logged in gives the stored id, logged out gives -1 |
| Collections.CollectionsPage.constructor | src/components/Collections.jsx:8-11 | new arrivals selected, loading, and one visit event sent |
| Collections.CollectionsPage.Visible | src/components/Collections.jsx:119-122 | nothing while loading or after an error; otherwise `ShownProducts` of the loaded catalogue: all of them for `'all'`, for any other category exactly the products of that category |
| Collections.CollectionsPage.LoadCollections | src/components/Collections.jsx:61-78 | the transformed catalogue on success, the load error on failure; loading ends |
| Collections.CollectionsPage.HandleCategoryClick | src/components/Collections.jsx:27-48 | the category is always selected; exactly the `'all'` and `'new'` clicks append an event |
| Collections.CollectionsPage.HandleProductClick | src/components/Collections.jsx:13-25 | appends the view event and opens the product |

## Left out

- Network I/O. `fetchCollections`, `loginUser`, `updateCartItem`, `loadUserCart`, `loadUserOrderBook` and the transport parts of `createUser` and `placeOrder` are not modelled. Their results are parameters.
- The cart-mutation handlers (add, increase, decrease, +6, deferred add after login), the catalogue cache, `logEvent`, `transformProductData` and `fetchProductById`. These are passed in as props or imported but not defined in the source. Only the refetch that follows a mutation is modelled.
- Timers, `window.history.pushState` and the `popstate` event. The redirect is the value `PostPurchaseNavigation` returns, and `PlaceOrder` only reports that it was scheduled.
- The 100 ms refetch after an order is not modelled either. It is the same operation as `RefetchCart`.
- Floating-point rating averages, `toFixed` and the star counts. Average ratings are kept as a `real` value and never computed.
- Api.DiscountedPrice: prices and percentages are integers. Non-integer values, and IEEE rounding of `price * pct / 100`, are not modelled.
- Api.TransformImages: a `catalogImage` flag is a boolean. The source's `img.catalogImage || false` also accepts truthy non-boolean values, which the `=== true` search then ignores.
- JSON text. A stored user record is represented by the record itself, and `JSON.parse` of a response body is a parameter.
- UserStorage.Store.GetUserId: `parseInt` of malformed text (a prefix read, or `NaN`) is not modelled. The store's invariant keeps the id key a decimal integer, which is all this code writes there.
- Orders.GroupByDay: `new Date(...).toDateString()` and the parsing back of the day key are a parameter `dayOf` from date strings to day numbers.
- LoginSignup.LoginSignupForm.HandleLogin: a `null` login body is not modelled. The source then fails inside `saveUserData`, and that error message is shown.
- Concurrency. Overlapping async handlers and React's batched state updates are not modelled; each handler runs to completion.
- ProductDetail.Gallery: the images are fixed when the page opens. When the product changes without a remount, the source keeps `selectedImage`; `CurrentImage` covers that out-of-range index by falling back to the first image.
- The rendering (JSX markup and CSS), `onClose`/`onLoginSuccess` callbacks beyond returning their argument, and the pages outside the core.
- Rounding. `Math.round` rounds halves up, toward positive infinity, and the model follows that code. A description of it as rounding halves away from zero differs whenever the unrounded discounted price is negative and ends in exactly one half: a negative price, or a discount above 100 %, which the code does not reject (price 1 at 150 % gives 0 here, and -1 under halves away from zero).
- Api.TransformReview, Orders.OrderDate: the clock is a single `now` per transform, while the source reads `new Date().toISOString()` once per element; undated reviews or orders of one call therefore share a timestamp here, and so fall on the same day even when the source's calls straddle midnight.
- Cart.PostPurchaseNavigation: a configured target starting with `//` passes the `http(s)` test and is returned as a push like any other path starting with `/`. A browser reads it as a protocol-relative URL on another origin, so `pushState` throws after `onNavigate('thank-you')` has already run. That exception is not modelled.
- Malformed backend records. `transformCollectionsData` throws on a `null` record or image, or on a truthy `logo` that is not a string, because `.trim` is then not a function. The pages catch that and show their load error. The typed raw records here cannot express those values.
- The `onCartUpdate` callback. After a load or refetch, the cart page hands the joined lines to its parent (src/components/Cart.jsx:52-53 and 90-91). The parent's state is outside this model. The lines handed over are the ones the page stores in `cartItems`.
