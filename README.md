# Acsess storefront: a Dafny model of its rules

Acsess is a Next.js storefront for a phone-accessory shop with an admin back-office. This
project models the rules its route handlers and client components follow, and proves
properties of them. Each Prisma table is an in-memory sequence of rows, or a map for the
two-factor sessions. The clock, the random draw, the identifiers the database assigns,
bcrypt, JWT signing and verification, JSON parsing, the Telegram Bot API and the object store
are parameters.

- **Admin login with a one-time code.**
  - The credential checks: `validate-login`, `auth` and `send-code`.
  - The two-factor session table, with its send, clean-up, verify and resend operations.
  - How those operations fit together (`AuthFlow`).
  - The three-step login page, the phone input and the code-entry screen.
  - The request gate in `middleware.ts` and `lib/auth.ts`.
- **Cart and orders.**
  - The cart page's list operations and totals, and "add to cart" on the shop page.
  - Order placement, which checks stock line by line before decrementing it. That is why
    duplicate lines for one product can drive its stock below zero (`Orders.DuplicateLinesOversell`).
- **Catalogue.**
  - The storefront product list with its pagination arithmetic.
  - The featured products.
  - The admin product table, and the admin product list and creation.
  - The spreadsheet import.
  - The popular-products ranking.
- **Back-office data.**
  - The admin order list and manual order entry.
  - The settings form and the public settings.
  - The administrator and user accounts.
  - The sidebar.
- **Uploads.** The object-store key and URL, and the two image upload routes.

Shared modules:
- `Wrappers` holds optional values, and how JavaScript treats an empty text field as absent.
- `Text` holds the JavaScript string operations the code relies on.
- `Seqs` holds `filter` and `slice`.
- `Sorting` is an insertion sort by a total preorder, standing for `orderBy`.
- `Http` holds the handlers' responses.
- `Schema` holds the rows and the tables.

Handlers that write to the database are methods on the table objects. Each one is proved
equal to a pure `Outcome` function. The lemmas state their properties about that function.

## Model

| member | source | states |
|---|---|---|
| Wrappers.Truthy | src/app/api/admin/products/route.ts:85-89 | a text field counts as absent exactly when it is empty, and is otherwise kept as given: empty description and image URL are stored as null, and an empty settings field writes no row |
| Text.UnderscoreSpaces | src/app/api/settings/route.ts:20 | the result holds no white space, is empty exactly when the input is, and text without white space is kept as it is |
| Text.UnderscoreRun | src/app/api/settings/route.ts:20 | a whole run of white space, however long, becomes a single `_` |
| Text.UnderscoreLength | src/app/api/settings/route.ts:20 | replacing runs never makes the text longer |
| Text.SplitFirstPart | src/app/api/admin/orders/route.ts:44 | the first part of a split is the text before the first separator, or the whole text without one |
| ValidateLogin.Post | src/app/api/auth/validate-login/route.ts:6-74 | both fields required (400); no credentials row gives 500; success exactly when the first row with login and password equals the submitted pair, otherwise 401 |
| AdminAuth.FindAdmin | src/app/api/auth/route.ts:13-17 | a found row carries the requested login; when none is found, no row has that login |
| AdminAuth.Post | src/app/api/auth/route.ts:5-75 | an unknown login gives 401 with the generic message; a found row without a stored password gives 500 `Пароль не установлен`; success exactly for a found row with a stored hash that `compare` accepts, returning its id, login and description and never the password; a wrong password gives the same 401 as an unknown login |
| AdminAuth.UnknownLoginLooksLikeWrongPassword | src/app/api/auth/route.ts:21-27 | an unknown login and a wrong password for a known login give the same response |
| SendCode.GenerateCode | src/app/api/auth/send-code/route.ts:7-9 | the code is six decimal digits whose value is 100000 plus the random draw |
| SendCode.GenerateCodeInjective | src/app/api/auth/send-code/route.ts:7-9 | different draws give different codes |
| SendCode.Unexpired | src/app/api/auth/send-code/route.ts:14-20 | keeps exactly the sessions whose expiry is not before now, unchanged |
| SendCode.CleanupExpiredSessions | src/app/api/auth/send-code/route.ts:12-24 | removes exactly the sessions that expired strictly before now and keeps every other one unchanged |
| SendCode.BotToken | src/app/api/auth/send-code/route.ts:30-38 | empty when no row has a key; otherwise exactly the key of the first row that has one |
| SendCode.TelegramDelivers | src/app/api/auth/send-code/route.ts:27-114 | no token means no delivery; a placeholder token always counts as delivered (demo mode); a real token delivers exactly when there is a chat id and both Bot API calls succeed |
| SendCode.NewSession | src/app/api/auth/send-code/route.ts:181-191 | the session stores the phone number, a six-digit code in 100000..999999, and expires five minutes after now |
| SendCode.Outcome | src/app/api/auth/send-code/route.ts:116-219 | a missing login or password gives 400 `Логин и пароль обязательны`, a missing phone 400 `Номер телефона обязателен`, a failing credential check its own status and message (500 without an admin row, 401 for wrong credentials), all leaving the sessions untouched; success iff the phone is present, the check passes and delivery succeeds; once the check passes the table is the cleaned table plus the new session, and a failed delivery answers 500 `Ошибка отправки кода в Telegram` |
| SendCode.Post | src/app/api/auth/send-code/route.ts:116-219 | response and new session table are those of `SendCode.Outcome`, with delivery decided by `SendCode.TelegramDelivers` |
| SendCode.MissingFieldsWriteNothing | src/app/api/auth/send-code/route.ts:122-134 | a missing login, password or phone gives 400 and writes nothing |
| SendCode.FailedDeliveryKeepsSession | src/app/api/auth/send-code/route.ts:185-201 | a failed delivery answers 500 but the new session stays stored |
| SendCode.NoExpiredSessionSurvives | src/app/api/auth/send-code/route.ts:177-191 | after a successful call no stored session expired before now |
| VerifyCode.Claims | src/app/api/auth/verify-code/route.ts:60-68 | the token payload is authorized, carries the session's phone, is signed HS256 and expires 24 hours after it is issued |
| VerifyCode.AdminCookie | src/app/api/auth/verify-code/route.ts:79-85 | the cookie is `admin-token` holding the token, httpOnly, path `/`, `lax`, one day long, and secure exactly in production |
| VerifyCode.Outcome | src/app/api/auth/verify-code/route.ts:8-100 | a missing session id or code gives 400, an unknown session 404, a wrong code 401, all with the table unchanged; success exactly when both fields are present and the session exists, is not past its expiry and holds the code; success and expiry (410) delete the session |
| VerifyCode.Post | src/app/api/auth/verify-code/route.ts:8-100 | response and new session table are those of `VerifyCode.Outcome` |
| VerifyCode.ExpiryBeforeCode | src/app/api/auth/verify-code/route.ts:33-51 | an expired session answers 410 even to its own code |
| VerifyCode.AcceptedAtExpiryInstant | src/app/api/auth/verify-code/route.ts:34 | the expiry test is strict: at the exact expiry instant the code is still accepted |
| VerifyCode.WrongCodeIsRetryable | src/app/api/auth/verify-code/route.ts:45-51 | a wrong code gives 401 and keeps the session, so the right code is accepted afterwards |
| VerifyCode.SingleUse | src/app/api/auth/verify-code/route.ts:53-56 | once a code is accepted the same session id answers 404 |
| ResendCode.Delivers | src/app/api/auth/resend-code/route.ts:11-39 | this route's delivery succeeds exactly when a settings row holds a non-empty bot token |
| ResendCode.Renewed | src/app/api/auth/resend-code/route.ts:66-77 | the renewed session keeps its phone and gets a freshly generated code valid for five minutes from now |
| ResendCode.Outcome | src/app/api/auth/resend-code/route.ts:41-103 | a missing id gives 400 `Session ID обязателен` and an unknown one 404 `Сессия не найдена`, both leaving the table alone; an existing session is renewed, and the answer is 200 when delivery succeeds and 500 `Ошибка отправки кода в Telegram` when it fails |
| ResendCode.Post | src/app/api/auth/resend-code/route.ts:41-103 | response and new session table are those of `ResendCode.Outcome` |
| AuthFlow.SentCodeVerifies | src/app/api/auth/verify-code/route.ts:19-56 | a code that send-code stored and delivered is accepted by verify-code at any time up to five minutes later |
| AuthFlow.SentCodeExpires | src/app/api/auth/verify-code/route.ts:33-43 | after five minutes the same code answers 410 and the session is deleted |
| AuthFlow.ResendRevivesExpired | src/app/api/auth/resend-code/route.ts:52-77 | resend has no expiry check: it renews an expired session, whose new code verify-code then accepts |
| AuthFlow.ResendInvalidatesOldCode | src/app/api/auth/resend-code/route.ts:66-77 | after a resend the previous code is refused with 401 (when the two draws differ) |
| AuthFlow.CleanupRemovesOnlyDeadSessions | src/app/api/auth/send-code/route.ts:12-24 | a session the cleanup removes would be refused by verify-code at that time or later |
| AuthLib.ValidateToken | src/lib/auth.ts:6-25 | no token and an invalid token each give their 401; otherwise the decoded payload |
| AuthLib.WithAuth | src/lib/auth.ts:27-37 | a rejected token returns the validation error; an accepted one returns exactly the handler's answer |
| AuthLib.RejectedRequestIgnoresHandler | src/lib/auth.ts:29-33 | a rejected request's answer does not depend on the handler |
| Middleware.VerifyToken | src/middleware.ts:7-17 | valid exactly when the verifier accepts the token; failures become false |
| Middleware.Decide | src/middleware.ts:19-57 | passes exactly the login page, unprotected paths and requests with a verified token; a redirect deletes the cookie exactly when a token was sent |
| Middleware.IsProtected | src/middleware.ts:21-22 | a path is protected exactly when it starts with `/admin` or `/api/admin` |
| Middleware.LoginPageAlwaysPasses | src/middleware.ts:23-28 | `/admin/login` passes whatever the cookie holds |
| Middleware.LoginSubpathIsGuarded | src/middleware.ts:21-43 | every path strictly below `/admin/login` is guarded: without a token, or with one the verifier rejects, it redirects to the login page, deleting the cookie exactly when a token was sent |
| LoginPage.ErrorText | src/app/admin/login/page.tsx:37 | the reply's error text when there is one, the handler's fallback otherwise |
| LoginPage.AdminLoginPage.constructor | src/app/admin/login/page.tsx:13-21 | the page starts at the credentials step with neither credentials nor session |
| LoginPage.AdminLoginPage.HandleLogin | src/app/admin/login/page.tsx:23-47 | sends the validate-login request; an accepted reply stores the credentials and moves to the phone step, a refused one throws the reply's error and changes nothing |
| LoginPage.AdminLoginPage.HandlePhoneSubmit | src/app/admin/login/page.tsx:49-82 | without stored credentials it throws before any request; otherwise it sends them with the phone, and an accepted reply stores the session and moves to the code step |
| LoginPage.AdminLoginPage.HandleVerifyCode | src/app/admin/login/page.tsx:84-119 | without a session it throws; a reply that is ok and successful redirects to `/admin`, the other two outcomes throw their messages |
| LoginPage.AdminLoginPage.HandleResendCode | src/app/admin/login/page.tsx:121-145 | without a session it throws; otherwise it sends the session id and throws exactly when the reply is not ok |
| LoginPage.AdminLoginPage.BackToLogin | src/app/admin/login/page.tsx:147-151 | back to the first step with credentials and session cleared |
| LoginPage.AdminLoginPage.BackToPhone | src/app/admin/login/page.tsx:153-156 | back to the phone step, keeping the credentials and clearing the session |
| PhoneInput.Truncated | src/components/PhoneNumberInput.tsx:18-22 | only digits are kept, at most twelve of them, and they are the first digits of the input |
| PhoneInput.FormatPhone | src/components/PhoneNumberInput.tsx:16-31 | empty exactly when the input has no digit; one to three digits show `+996`; any non-empty result starts with `+996` |
| PhoneInput.FullNumberLayout | src/components/PhoneNumberInput.tsx:30 | with twelve or more digits the mask `+996 (XXX) XX-XX-XX` is filled from the fourth to the twelfth digit |
| PhoneInput.DigitsOfLayout | src/components/PhoneNumberInput.tsx:25-30 | the digits of every layout are `996` followed by the typed digits from the fourth on |
| PhoneInput.LayoutOfSameTail | src/components/PhoneNumberInput.tsx:25-30 | the layout depends only on the digit count and the digits after the third |
| PhoneInput.FormatIdempotent | src/components/PhoneNumberInput.tsx:38-42 | reformatting a formatted value leaves it unchanged, so each keystroke is stable |
| PhoneInput.RawPhone | src/components/PhoneNumberInput.tsx:33-36 | `+` followed by the field's digits, with `996` put in front when they do not already start with it: the result starts with `+996`, ends in the field's digits and adds at most three, and is exactly `+996` and the digits when they lack the prefix |
| PhoneInput.RawPhoneOfField | src/components/PhoneNumberInput.tsx:15-36 | the number submitted for a non-empty field is `+996` followed by the digits typed after the country code; for a full entry the fourth to the twelfth digit typed |
| PhoneInput.SubmitCheckMatchesButton | src/components/PhoneNumberInput.tsx:48 | on a formatted field the 13-character submit check agrees with the button's 12-digit check at line 114 |
| PhoneInput.PhoneForm.constructor | src/components/PhoneNumberInput.tsx:12-14 | empty field, no error, not loading |
| PhoneInput.PhoneForm.InputChange | src/components/PhoneNumberInput.tsx:38-42 | stores the reformatted value and clears the error |
| PhoneInput.PhoneForm.Submit | src/components/PhoneNumberInput.tsx:44-63 | a raw number shorter than 13 characters sets the error and submits nothing; otherwise it submits the raw number and shows what `onSubmit` threw, ending not loading |
| TwoFactor.ConcatLength | src/components/TwoFactorAuth.tsx:44 | with one-character slots the joined code has six characters exactly when no slot is empty |
| TwoFactor.FormatPhone | src/components/TwoFactorAuth.tsx:97-102 | only `+7` numbers are masked; every other number is shown as given |
| TwoFactor.CodeEntry.constructor | src/components/TwoFactorAuth.tsx:14-18 | six empty slots, a 60-second countdown, resend locked |
| TwoFactor.CodeEntry.Tick | src/components/TwoFactorAuth.tsx:23-30 | a positive countdown goes down by one; at zero resend is unlocked |
| TwoFactor.CodeEntry.InputChange | src/components/TwoFactorAuth.tsx:32-48 | a single digit or empty keystroke updates exactly its slot, anything else is ignored; the code is submitted exactly when all six slots are filled |
| TwoFactor.CodeEntry.Verify | src/components/TwoFactorAuth.tsx:56-76 | a code that is not six characters long sets the error and submits nothing, leaving slots and loading flag as they were; otherwise the code is submitted, and a failed verification shows the error and clears the slots; the countdown is untouched |
| TwoFactor.CodeEntry.Resend | src/components/TwoFactorAuth.tsx:78-95 | does nothing while locked; a successful resend restarts the countdown, locks resend and clears the slots; a failed one shows the error and keeps the slots, the countdown and the lock as they were |
| LoginPage.SubmittedNumberShownAsIs | src/components/TwoFactorAuth.tsx:97-102 | every number the phone step submits starts with `+996`, so the code screen shows it unmasked |
| Cart.WithQuantity | src/app/cart/page.tsx:49-51 | same length and order; every item with the id gets the new quantity, every other item is unchanged |
| Cart.Without | src/app/cart/page.tsx:56-59 | an order-preserving subsequence holding exactly the items whose id differs |
| Cart.Updated | src/app/cart/page.tsx:43-53 | a quantity of zero or less drops every line of the product; otherwise every line is kept and the product's lines carry the new quantity |
| Cart.NonPositiveQuantityRemoves | src/app/cart/page.tsx:44-47 | updating to a quantity of zero or less is the same as removing the product |
| Cart.TotalsAppend | src/app/cart/page.tsx:67-68 | both totals add up over concatenated carts |
| Cart.TotalsNonNegative | src/app/cart/page.tsx:67-68 | with no negative price or quantity neither total is negative |
| Cart.TotalItemsAtLeastLines | src/app/cart/page.tsx:68 | when every line holds a unit, the item count is at least the number of lines |
| Cart.TotalsUpdateAt | src/app/cart/page.tsx:67-68 | replacing one line changes each total by exactly that line's difference |
| Cart.TotalItemsWithout | src/app/cart/page.tsx:56-68 | removing a product lowers the item count by exactly the units of that product |
| Cart.CartPage.constructor | src/app/cart/page.tsx:16-34 | the page starts from the stored cart, or an empty one, with an empty order form |
| Cart.CartPage.SaveCart | src/app/cart/page.tsx:37-40 | the page and the `cart` storage key hold the same new list |
| Cart.CartPage.UpdateQuantity | src/app/cart/page.tsx:43-53 | the cart becomes the updated list (removal at zero or less) and is saved |
| Cart.CartPage.RemoveItem | src/app/cart/page.tsx:56-59 | the cart loses every line of the product and is saved |
| Cart.CartPage.ClearCart | src/app/cart/page.tsx:62-64 | the saved cart is empty and both totals are 0 |
| Cart.CartPage.CreateOrder | src/app/cart/page.tsx:71-114 | posts the form, the items and their total; success clears the cart, its storage key and the form, failure changes nothing |
| ShopPage.FindLine | src/app/shop/page.tsx:124 | `cart.find`: the first line holding the product, or none exactly when no line holds it |
| ShopPage.AddedToCart | src/app/shop/page.tsx:122-138 | the product's first line gains one unit and nothing else changes, or a new one-unit line is appended when there is none |
| ShopPage.AddToCart | src/app/shop/page.tsx:122-138 | the stored cart (`[]` when absent) gets one more unit on the product's first line, or a new line with quantity 1 and the card's id, name, price and image, and is written back |
| ShopPage.AddRaisesItemsByOne | src/app/shop/page.tsx:122-138 | adding raises the item count by exactly one and the amount by one unit's price |
| ShopPage.AddRaisesOnlyThatProduct | src/app/shop/page.tsx:124-136 | adding changes the quantity of that product by one and of no other product |
| ShopPage.ScrollShowsRanking | src/app/shop/page.tsx:93-117 | appending page after page of nine shows the ranked matching products in order, without gaps or repeats |
| ShopPage.Scrolled | src/app/shop/page.tsx:93-117 | after `n` pages at most `9n` products are shown |
| ShopPage.Shop.constructor | src/app/shop/page.tsx:35-46 | no products, no filters, loading, and the first-page pagination |
| ShopPage.Shop.QueryFor | src/app/shop/page.tsx:74-84 | the request asks for that page, nine per page, with the current search and category |
| ShopPage.Shop.StartFetch | src/app/shop/page.tsx:66-86 | page 1 sets the main spinner, later pages the footer one; the request is `QueryFor(page)` |
| ShopPage.Shop.FinishFetch | src/app/shop/page.tsx:88-106 | an ok reply is appended after the shown products or replaces them, and its pagination is kept; a failed one changes neither; both spinners stop |
| ShopPage.Shop.LoadMore | src/app/shop/page.tsx:115-119 | the next page is requested exactly when there is one and no load is running |
| ShopPage.Shop.ResetFilters | src/app/shop/page.tsx:145-148 | both the search text and the category are cleared |
| ProductsApi.CategoryName | src/app/api/products/route.ts:73 | never empty; the category's own name when it has one, and `Без категории` for a product without a category or with an unnamed one |
| ProductsApi.NonEmpty | src/app/api/products/route.ts:71-72 | empty text becomes absent, any other value is kept |
| ProductsApi.Matching | src/app/api/products/route.ts:19-46 | every selected product is in stock, contains the search in its name or description, and has the requested category name |
| ProductsApi.Ranked | src/app/api/products/route.ts:55-57 | the matching products, each exactly as often, sorted newest first |
| ProductsApi.ToCard | src/app/api/products/route.ts:67-75 | keeps id, name and price; `inStock` holds exactly when the stock is positive; image and description are kept when non-empty and absent otherwise; the category is `CategoryName` |
| ProductsApi.CeilDiv | src/app/api/products/route.ts:82 | the least page count whose pages cover every product |
| ProductsApi.Window | src/app/api/products/route.ts:58-59 | `skip` rows dropped and at most `limit` kept, contiguous in the ranking |
| ProductsApi.Cards | src/app/api/products/route.ts:67-75 | one card per row, in row order |
| ProductsApi.CardsAppend | src/app/api/products/route.ts:67-75 | the card mapping distributes over concatenation |
| ProductsApi.List | src/app/api/products/route.ts:7-97 | a limit of 0 answers no products, no finite page count and `hasMore` iff anything matches; with a positive limit and page the cards of the ranked matches after `(page-1)*limit`, at most `limit` of them, with `currentPage` the page, `totalPages` the ceiling of matches over limit, `totalCount` the matches and `hasMore` iff skipped plus returned is below the total; a negative skip or limit is the 500 path |
| ProductsApi.ListedProductsMatch | src/app/api/products/route.ts:19-46 | every listed product is in stock and matches the search and the category |
| ProductsApi.ListedNewestFirst | src/app/api/products/route.ts:55-59 | every page lists its products newest first |
| ProductsApi.PagesConcatenate | src/app/api/products/route.ts:14 | the first n pages together are exactly the first n×limit ranked products |
| ProductsApi.PagesReachEnd | src/app/api/products/route.ts:84 | once the pages shown reach the end of the ranking they hold all of it |
| ProductsApi.LastPageShowsEverything | src/app/api/products/route.ts:84 | when a page reports no more products, the pages so far hold every match |
| Featured.NewestThenNameIsPreorder | src/app/api/products/featured/route.ts:20-23 | newest first with ties broken by name is a total preorder, so the ordering is well defined |
| Featured.Candidates | src/app/api/products/featured/route.ts:15-23 | exactly the products in stock, each as often as in the table, sorted newest first then by name |
| Featured.FeaturedRows | src/app/api/products/featured/route.ts:11-25 | the first `min(12, in stock)` products of the in-stock ranking (newest first, then by name), so all of them with twelve or fewer in stock |
| Featured.ShownOutrankLeftOut | src/app/api/products/featured/route.ts:20-24 | every product shown ranks at or above every product in stock that was left out |
| Featured.ToFeaturedCard | src/app/api/products/featured/route.ts:28-34 | keeps id, name and price; no image exactly when the URL is absent or empty, otherwise the product's URL; the category is `CategoryName`, falling back to `Без категории` |
| Featured.Get | src/app/api/products/featured/route.ts:7-48 | one card per featured row, in order |
| Featured.FeaturedInStock | src/app/api/products/featured/route.ts:15-24 | at most twelve cards, each for a product of the table that is in stock |
| AdminProductsPage.StatusBadge | src/app/admin/products/page.tsx:45-53 | `Нет в наличии` exactly at stock 0, `В наличии` exactly above 10, `Мало товара` otherwise, negatives included |
| AdminProductsPage.FilteredProducts | src/app/admin/products/page.tsx:56-60 | an order-preserving subsequence holding exactly the products whose lowercased name contains the lowercased term and whose category fits the filter |
| AdminProductsPage.NoFilterShowsAll | src/app/admin/products/page.tsx:56-60 | an empty search with `all` keeps every product |
| AdminProductsPage.CategoryNames | src/app/admin/products/page.tsx:63 | each product's category name, in product order |
| AdminProductsPage.Distinct | src/app/admin/products/page.tsx:63 | no duplicates, exactly the names present, in order of first occurrence |
| AdminProductsPage.Categories | src/app/admin/products/page.tsx:63 | the filter offers each category name present among the products exactly once, in the order of its first occurrence |
| AdminProductsApi.Problem | src/app/api/admin/products/route.ts:41-79 | no problem exactly when the name, a positive price, a defined non-negative stock, a category id and an existing category are all present; the first failing check in that order gives its message |
| AdminProductsApi.Outcome | src/app/api/admin/products/route.ts:35-111 | success iff no problem and a numeric stock; every failure leaves the catalogue unchanged and a problem answers 400 with its message, a non-numeric stock 500; success answers 201 and appends the product built from the body (empty description and image stored as absent) with the new id, answered with its category's name |
| AdminProductsApi.Post | src/app/api/admin/products/route.ts:35-111 | response and new product table are those of `AdminProductsApi.Outcome` |
| AdminProductsApi.PostKeepsCatalogueWellFormed | src/app/api/admin/products/route.ts:41-98 | a catalogue built through this handler only holds named, positively priced, non-negative-stock products of existing categories |
| AdminProductsApi.ZeroStockAccepted | src/app/api/admin/products/route.ts:55-60 | a stock of zero is accepted and stored |
| AdminProductsApi.ToListed | src/app/api/admin/products/route.ts:9-20 | the product with the name of a category carrying its id, and no name exactly when no category has that id |
| AdminProductsApi.Get | src/app/api/admin/products/route.ts:6-33 | every product exactly once, newest first, each with its category name as `ToListed` gives it |
| ProductImport.MissingFields | src/app/api/admin/products/import/route.ts:30-31 | empty exactly when name, price and catalogue are all filled; otherwise the empty ones, in the required order |
| ProductImport.OrZero | src/app/api/admin/products/import/route.ts:77-78 | an unparseable number is stored as 0, a parsed one as parsed |
| ProductImport.ImageUrl | src/app/api/admin/products/import/route.ts:65 | the first non-empty of the three image columns; null exactly when all three are empty |
| ProductImport.FindOrCreateCategory | src/app/api/admin/products/import/route.ts:48-60 | an existing category of that name is reused and nothing is added; otherwise exactly one category of type `other` is appended |
| ProductImport.Imported | src/app/api/admin/products/import/route.ts:62-81 | the product has the row's id, name and category; an unparseable price or stock becomes 0 |
| ProductImport.Accepted | src/app/api/admin/products/import/route.ts:39-120 | a complete row adds one success; a row whose ID is in use counts one replacement, removes the old product and appends the new one under that ID; any other row counts one creation and appends the new product under its own ID or a fresh one; the category is found or created by name |
| ProductImport.Step | src/app/api/admin/products/import/route.ts:25-37 | a row with missing fields adds one failure and one message naming them and writes nothing; a complete row is imported |
| ProductImport.CountersAddUp | src/app/api/admin/products/import/route.ts:33-37 | after the loop success + failed is the number of rows, there is one error per failure, and created + replaced = success |
| ProductImport.CategoriesStayDistinct | src/app/api/admin/products/import/route.ts:48-60 | the import never creates a second category with an existing name and never removes one |
| ProductImport.FindOrCreateKeepsNames | src/app/api/admin/products/import/route.ts:48-60 | find-or-create yields a category with the requested name and loses no other name |
| ProductImport.RunCategories | src/app/api/admin/products/import/route.ts:25-60 | the loop's categories are those obtained by applying find-or-create row by row |
| ProductImport.TrailHasCategory | src/app/api/admin/products/import/route.ts:48-60 | after any later rows, a category still exists for the catalogue of each accepted row |
| ProductImport.AcceptedRowsHaveCategory | src/app/api/admin/products/import/route.ts:48-60 | after the import a category exists for the catalogue of every accepted row, so later rows with that name reuse it |
| ProductImport.ReplaceById | src/app/api/admin/products/import/route.ts:86-110 | a row whose ID is in use counts as replaced, and afterwards exactly one product, the last, has that ID |
| ProductImport.ImportRow | src/app/api/admin/products/import/route.ts:39-120 | the tables and counters become those of `ProductImport.Accepted` |
| ProductImport.ProcessRow | src/app/api/admin/products/import/route.ts:26-120 | the tables and counters become those of `ProductImport.Step` |
| ProductImport.Import | src/app/api/admin/products/import/route.ts:6-145 | without a product array it answers 400 and writes nothing; otherwise the tables and counters are those of running `ProductImport.Step` over the rows in order, with the summary message |
| PopularProducts.SalesAppend | src/app/api/admin/popular-products/route.ts:36-37 | sales and revenue add up over concatenated lists of order lines |
| PopularProducts.SalesOverOrders | src/app/api/admin/popular-products/route.ts:36 | a product's sales grow by exactly its units in each further order |
| PopularProducts.WithCounts | src/app/api/admin/popular-products/route.ts:14-18 | each product paired with its number of order lines |
| PopularProducts.Ranking | src/app/api/admin/popular-products/route.ts:26-30 | every product exactly once, most order lines first |
| PopularProducts.TopRows | src/app/api/admin/popular-products/route.ts:26-31 | the first five of the ranking (all of them when there are fewer) |
| PopularProducts.Entry | src/app/api/admin/popular-products/route.ts:35-44 | only id, name, the units sold and the revenue over the product's order lines |
| PopularProducts.Entries | src/app/api/admin/popular-products/route.ts:35-44 | one entry per top row, in order |
| PopularProducts.Get | src/app/api/admin/popular-products/route.ts:6-58 | at most five entries, an order-preserving subsequence of the top entries holding exactly those with positive sales |
| PopularProducts.ShownOutrankLeftOut | src/app/api/admin/popular-products/route.ts:26-31 | a product considered has at least as many order lines as any product left out |
| PopularProducts.FewProductsAllConsidered | src/app/api/admin/popular-products/route.ts:31 | with five products or fewer every product is considered |
| Orders.LineProblem | src/app/api/orders/route.ts:32-48 | a line passes exactly when its product exists and has at least the requested quantity in stock |
| Orders.FirstStockError | src/app/api/orders/route.ts:31-49 | no problem exactly when every line passes; otherwise the problem of the first failing line |
| Orders.CheckStock | src/app/api/orders/route.ts:31-49 | the check loop answers the first failing line's message, or none |
| Orders.DecrementOne | src/app/api/orders/route.ts:94-101 | the product with the line's id loses that quantity; every other product is unchanged |
| Orders.DecrementAll | src/app/api/orders/route.ts:93-102 | the table keeps its length and every product everything but its stock; a product no line names is unchanged |
| Orders.DecrementAllStock | src/app/api/orders/route.ts:93-102 | after the decrement loop each product has lost exactly the sum of its lines' quantities and is otherwise unchanged |
| Orders.DecrementStock | src/app/api/orders/route.ts:93-102 | the decrement loop leaves the product table of `DecrementAll` |
| Orders.CustomerEmail | src/app/api/orders/route.ts:53 | the given email, or `<phone>@temp.com` without one |
| Orders.Customer | src/app/api/orders/route.ts:52-66 | the user with that email is reused and nothing is added; otherwise exactly one CLIENT user with the placeholder hash `temp` is appended |
| Orders.OrderLines | src/app/api/orders/route.ts:75-79 | one order line per cart line with its product, quantity and the price the client sent |
| Orders.NewOrderNotice | src/app/api/orders/route.ts:116-122 | an unread `info` notification titled `Новый заказ` whose message names the order and its total in roubles |
| Orders.Outcome | src/app/api/orders/route.ts:7-140 | a missing name, phone or items, or a failing line, answers 400 and writes nothing; otherwise 201, the customer found or created, one NEW order at the client's total, stock decremented, a PENDING delivery exactly when an address is given, and one notification |
| Orders.OneNotificationPerOrder | src/app/api/orders/route.ts:116-122 | exactly one notification per placed order; a refused order writes nothing |
| Orders.DistinctLinesNeverOversell | src/app/api/orders/route.ts:31-49 | with one line per product, a passing check never drives a stock below zero |
| Orders.QuantityOfSingle | src/app/api/orders/route.ts:93-102 | a product with one line loses that line's quantity |
| Orders.DuplicateLinesOversell | src/app/api/orders/route.ts:31-102 | two one-unit lines of a product with one unit in stock both pass the check and leave the stock at -1 |
| Orders.Post | src/app/api/orders/route.ts:7-140 | the response and all five tables are those of `Orders.Outcome` |
| AdminOrders.DatePartOfIso | src/app/api/admin/orders/route.ts:44 | for an ISO timestamp the listed date is exactly its `YYYY-MM-DD` part |
| AdminOrders.DatePart | src/app/api/admin/orders/route.ts:44 | the text before the first `T` of the timestamp, or all of it without one |
| AdminOrders.ToLine | src/app/api/admin/orders/route.ts:37-46 | the customer's name and email, `''` for a missing phone, the order total, the lowercased status, the date part, and the number of items |
| AdminOrders.Newest | src/app/api/admin/orders/route.ts:31-33 | every order exactly once, newest first |
| AdminOrders.Get | src/app/api/admin/orders/route.ts:7-60 | succeeds exactly when every order has its customer; then one line per order, newest first; otherwise 500 |
| AdminOrders.NewestKeepsCustomers | src/app/api/admin/orders/route.ts:31-46 | sorting loses no order, so every listed order still has its customer |
| AdminOrders.Lines | src/app/api/admin/orders/route.ts:37-46 | one line per order, in the given order |
| AdminOrders.Customer | src/app/api/admin/orders/route.ts:71-86 | the user with that email is reused and nothing is added; otherwise, when the body has a name, exactly one CLIENT user with that name and hash `temp_hash` is appended, and without a name the insert fails |
| AdminOrders.Outcome | src/app/api/admin/orders/route.ts:63-113 | success iff the email is present, the customer exists or can be created (a name is given), and status and total are present; every failure answers 500 and adds no order, and a failed customer insert adds no user (a customer written before a missing status or total stays); success answers 201 and appends one order with the uppercased status, the submitted total and no items |
| AdminOrders.NamelessNewCustomerWritesNothing | src/app/api/admin/orders/route.ts:71-85 | an unknown email without a customer name answers 500 and writes neither a user nor an order |
| AdminOrders.KnownEmailAddsNoUser | src/app/api/admin/orders/route.ts:71-86 | a known email never registers another user |
| AdminOrders.EmailsStayUnique | src/app/api/admin/orders/route.ts:71-86 | users' emails stay pairwise distinct |
| AdminOrders.Post | src/app/api/admin/orders/route.ts:63-113 | the response and both tables are those of `AdminOrders.Outcome` |
| AdminSettings.NamesAreNotJson | src/app/api/admin/settings/route.ts:95-212 | no description the POST stores is empty or starts with `{` |
| AdminSettings.FieldOrderDistinct | src/app/api/admin/settings/route.ts:95-212 | the handler's seventeen pushes name seventeen different fields |
| AdminSettings.ValueOf | src/app/api/admin/settings/route.ts:95-212 | each of the fourteen text fields is written exactly when it is non-empty, with its own value; the links exactly when present, as `stringify` of the links; the switches always, as `true` or `false` |
| AdminSettings.PendingFor | src/app/api/admin/settings/route.ts:95-212 | a push for each field of the list that has a value and for no other, carrying that value, in list order |
| AdminSettings.ToSave | src/app/api/admin/settings/route.ts:92-212 | `settingsToSave` holds a field exactly when it has a value, with that value, each field at most once, in the handler's order; the social links are stored as their JSON text |
| AdminSettings.FieldSaved | src/app/api/admin/settings/route.ts:95-212 | a field with a value is saved with exactly that value |
| AdminSettings.NotificationsAlwaysSaved | src/app/api/admin/settings/route.ts:183-191 | both notification switches are saved whatever the form, as `'true'` or `'false'` |
| AdminSettings.Created | src/app/api/admin/settings/route.ts:215-219 | one new row per pending setting, in order, with the field name as description and the value as `telegram_key` |
| AdminSettings.CreateAll | src/app/api/admin/settings/route.ts:215-219 | the table afterwards is the old rows followed by the created rows |
| AdminSettings.Post | src/app/api/admin/settings/route.ts:76-233 | an unreadable body gives 500 and changes nothing; otherwise every row without login and password is deleted, the form's rows are appended, and the answer is the success message |
| AdminSettings.AdminRowsSurvive | src/app/api/admin/settings/route.ts:82-89 | a row with a login or a password survives the delete |
| AdminSettings.Overrides | src/app/api/admin/settings/route.ts:14-30 | a key is in the object exactly when some non-admin row's description starting with `{` parses, keyed by that description and holding its parsed value |
| AdminSettings.Defaults | src/app/api/admin/settings/route.ts:33-56 | a default for every field the form saves, with e-mail notifications on and Telegram notifications off |
| AdminSettings.Merged | src/app/api/admin/settings/route.ts:33-59 | the result has every default and every override key; an override wins over a default |
| AdminSettings.GetKeepsDefaults | src/app/api/admin/settings/route.ts:33-59 | every default key is returned with its default value, whatever the rows |
| AdminSettings.SameContributorsSameOverrides | src/app/api/admin/settings/route.ts:14-30 | the object depends only on which rows contribute, not on their order or on other rows |
| AdminSettings.GetSkipsAdminRows | src/app/api/admin/settings/route.ts:15-18 | dropping the admin rows does not change the GET result |
| AdminSettings.OverridesIgnorePlainRows | src/app/api/admin/settings/route.ts:21-27 | appending rows whose description does not start with `{` does not change the object |
| AdminSettings.SavedRowsInvisibleToGet | src/app/api/admin/settings/route.ts:14-30 | the rows a POST writes never change what GET returns: saved settings do not come back |
| PublicSettings.KeyShape | src/app/api/settings/route.ts:20 | a description made of a word, a run of white space and the rest is keyed by the lowercased word, one `_` and the key of the rest |
| PublicSettings.Key | src/app/api/settings/route.ts:20 | never empty; a described row's key has no white space and is no longer than the description; an undescribed row is keyed `setting_<id>` |
| PublicSettings.EntryOf | src/app/api/settings/route.ts:22-27 | the entry keeps the row's id and description; its value is the description, or null when the description is absent or empty |
| PublicSettings.Collect | src/app/api/settings/route.ts:18-30 | a key is in the object exactly when some row has that key |
| PublicSettings.LastRowDecides | src/app/api/settings/route.ts:18-30 | each key holds the entry of the last row with that key |
| PublicSettings.OnlyPublicRows | src/app/api/settings/route.ts:11-30 | every entry comes from a row with `is_secure` false, and every such row's key is present |
| PublicSettings.LaterRowWins | src/app/api/settings/route.ts:22 | a row appended last decides the entry under its key |
| AdminAccounts.Get | src/app/api/admin/route.ts:6-33 | one password-free summary for each row with a login and for no other row |
| AdminAccounts.DescriptionFor | src/app/api/admin/route.ts:70 | the given description, or `Администратор <login>` when it is empty |
| AdminAccounts.Outcome | src/app/api/admin/route.ts:36-82 | a missing login or password gives 400; a login already in the table gives 400; otherwise one row is appended with the login, the hashed password and the description, and the answer omits the password |
| AdminAccounts.PostKeepsLoginsUnique | src/app/api/admin/route.ts:49-72 | adding administrators only through POST keeps every login unique |
| AdminAccounts.AddedAdminLoginNeedsHash | src/app/api/admin/route.ts:63-72 | on a table without credentials, an administrator added by POST passes the plain-text login check only with a password equal to its own hash |
| AdminAccounts.FirstAdminIsFirstWithCredentials | src/app/api/auth/validate-login/route.ts:20-28 | the login check's `findFirst` returns the first row that has both a login and a password |
| AdminAccounts.Post | src/app/api/admin/route.ts:36-90 | the table and the answer are those of the POST outcome |
| UsersApi.WithoutPassword | src/app/api/users/route.ts:38-41 | every column of the user but the password hash, unchanged |
| UsersApi.Outcome | src/app/api/users/route.ts:5-48 | a taken e-mail gives 400; a missing e-mail, password or name gives 500; otherwise exactly one client row is appended and answered without its hash; every error writes nothing |
| UsersApi.RegistrationKeepsEmailsUnique | src/app/api/users/route.ts:11-36 | registering only through POST keeps e-mail addresses unique |
| UsersApi.RegisteredAsClient | src/app/api/users/route.ts:25-36 | the new row has role `CLIENT`, the submitted e-mail and the hash of the submitted password |
| UsersApi.Post | src/app/api/users/route.ts:5-48 | the table and the answer are those of the POST outcome |
| UsersApi.Get | src/app/api/users/route.ts:50-63 | every user, in table order, without the password hash |
| Sidebar.Toggled | src/components/admin/Sidebar.tsx:64-70 | toggling a listed name removes every copy of it and keeps the others in order; toggling an absent name appends it; no other name changes membership |
| Sidebar.ToggleKeepsNoDuplicates | src/components/admin/Sidebar.tsx:64-70 | toggling never creates a duplicate group name |
| Sidebar.ToggleTwice | src/components/admin/Sidebar.tsx:64-70 | toggling a name twice restores the set of expanded groups, and the exact list when the name was absent |
| Sidebar.IsActive | src/components/admin/Sidebar.tsx:72-77 | the dashboard entry is active only on `/admin` itself; every other entry on every path that starts with its link |
| Sidebar.SectionPagesHighlightSection | src/components/admin/Sidebar.tsx:72-77 | on a page below a section, that section is highlighted and the dashboard is not |
| Sidebar.SidebarState.constructor | src/components/admin/Sidebar.tsx:62 | no group is expanded at first |
| Sidebar.SidebarState.ToggleExpanded | src/components/admin/Sidebar.tsx:64-70 | the expanded list becomes its toggled self and stays free of duplicates; the name is expanded afterwards exactly when it was not before |
| S3.UploadToS3 | src/lib/s3.ts:24-60 | when the store accepts the object, the public URL of the key `products/<time>-<fileName>`; otherwise an error whose message is the fixed prefix followed by the store's error |
| S3.ObjectKey | src/lib/s3.ts:29 | the key lies under `products/` and continues with the time's digits, `-` and the file name, adding no `/` of its own |
| S3.PublicUrl | src/lib/s3.ts:49 | the URL is `<endpoint>/<bucket>/` followed by the key |
| S3.KeyFromUrl | src/lib/s3.ts:66-67 | a URL without `/` is its own key |
| S3.KeyFromObjectUrl | src/lib/s3.ts:66-67 | the key read from `front/mid/last` is `mid/last` when neither part holds a `/` |
| S3.DeleteFromS3 | src/lib/s3.ts:63-79 | succeeds exactly when the store accepts the delete; any store error becomes the fixed message |
| S3.SplitObjectUrl | src/lib/s3.ts:66-67 | splitting `front/mid/last` at `/` ends with the parts `mid` and `last` |
| S3.KeyRoundTrip | src/lib/s3.ts:29-67 | for a file name without `/`, the key read back from an upload's URL is the key the upload stored |
| UploadImage.Rejection | src/app/api/upload/image/route.ts:9-32 | a file passes exactly when it is present, of one of the five image types and at most 5 MB; otherwise the first failing check's message, in the order missing, type, size |
| UploadImage.StoredName | src/app/api/upload/image/route.ts:39 | the text before the first `-` is the time's digits, and the name ends in the original file name |
| UploadImage.Post | src/app/api/upload/image/route.ts:4-57 | a rejected file gives 400 with the check's message; an accepted file gives the store's URL when the store accepts it and a fixed 500 message when it fails |
| UploadImage.SizeLimitInclusive | src/app/api/upload/image/route.ts:26-32 | a file of exactly 5 MB is accepted and one byte more is refused |
| UploadImage.UploadedImageDeletable | src/app/api/upload/image/route.ts:39-42 | for an original name without `/`, the delete helper reads back from the returned URL the key the upload stored |
| UploadImageS3.ExtName | src/app/api/upload/image-s3/route.ts:42 | the extension is empty or a `.` followed by neither `/` nor `.` |
| UploadImageS3.ExtNameOfFileName | src/app/api/upload/image-s3/route.ts:42 | a plain name `stem.ext` with a non-empty stem has the extension `.ext` |
| UploadImageS3.HiddenFileHasNoExtName | src/app/api/upload/image-s3/route.ts:42 | a name whose only `.` comes first, such as `.png`, has no extension |
| UploadImageS3.TimestampName | src/app/api/upload/image-s3/route.ts:41-43 | the stored name is the timestamp's digits, followed by nothing or by a `.`, and holds no `/` |
| UploadImageS3.Post | src/app/api/upload/image-s3/route.ts:6-82 | a rejected file gives 400; otherwise the store's URL, or on a store failure the local `/uploads/products/` URL when the write succeeds, or 500 with the write's error appended to the message |
| UploadImageS3.StoredImageDeletable | src/app/api/upload/image-s3/route.ts:41-51 | an image the store accepted can be deleted by its URL, whatever the original name |
| UploadImageS3.LocalUrlNamesFile | src/app/api/upload/image-s3/route.ts:63-65 | the local fallback's URL ends in the stored name as its last path component |

## Left out

- The relational store is modelled as lists of rows. Prisma's query engine is not modelled: `contains` collation, `$disconnect`, unique constraints the database enforces, and the order of rows that tie in an `orderBy`. `prisma/schema.prisma` is not part of this model.
- Identifiers and defaults the database fills in are parameters of the handlers: ids, `created_at`, and the `is_secure` column default.
- Absent, `null` and empty request fields are not told apart where the code treats them alike. A text field is `""` when absent; `Option` is used only where the code tells them apart.
- The clock (`Date.now()`, `new Date()`) is a parameter.
- The random six-digit code is a draw `offset < 900000` passed in, not `Math.random()`.
- The countdown's one-second timer is a method, `Tick`. The 500 ms delay before the redirect after login is not modelled.
- bcrypt `hash`/`compare`, JWT `sign`/`verify`/`jwtVerify` and `JSON.parse`/`JSON.stringify` are function parameters. Only the properties the model states are assumed about them.
- `parseFloat` and `parseInt` are function parameters returning an optional integer.
- Prices, totals and revenue are integers. JavaScript floating-point arithmetic and `toLocaleString` are not modelled.
- `parseInt(order.id.slice(-4))`, the order number in the admin order list and the manual order answer, is not modelled.
- `toLowerCase` covers ASCII and the Russian alphabet. `\s` covers the ASCII white-space characters. Other Unicode case mappings and spaces are not modelled.
- `path.extname` is modelled for POSIX paths only.
- Spreadsheet cells are text. Numeric cells, which the code would read as numbers, are not modelled.
- The database exceptions a handler catches are not modelled. That covers:
  - the 500 answers of the list routes (`GET`), except the admin order list's missing-customer case and the product list's negative skip or limit, which are modelled;
  - the per-row `catch` of the spreadsheet import, which counts a row as failed;
  - the import's outer 500.
- The import's `!categoryName` branch is not modelled. A row that passes the required-field check always has a catalogue name, so that branch cannot be reached.
- ProductsApi.List: a negative limit is modelled as the handler's 500 answer, although the database reads a negative `take` as counting backwards from the skip; a limit of 0 and a page below 1 with a positive limit (a negative skip, refused by the database) are modelled as the source answers them. Reading the page and limit from the query string, including `parseInt` yielding NaN, is not modelled.
- The Telegram Bot API calls (`getMe`, `sendMessage`) are an outcome passed in. The message text is not modelled.
- The object store's `send` is an outcome passed in. Its client configuration, the content type and the file bytes are not modelled.
- `formData()`, `arrayBuffer()` and `mkdir` failures are not modelled, and neither is the written file's content. The local write is an outcome passed in.
- The cookie a rejected token causes the middleware to delete is recorded only as a flag on the decision.
- `console` logging is not modelled.
- `cleanupExpiredCodes` in the send-code route only logs a deprecation notice. It is not modelled.
- Requests are modelled one at a time. Concurrent orders and the absence of transactions are not modelled.
- React rendering is not modelled. The pages are modelled only through their state and handlers.
- AuthFlow.ResendInvalidatesOldCode: it requires the new draw to differ from the old one. The code draws at random, so a resend can produce the same code again, and the model does not claim otherwise.
