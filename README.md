# EcommGo per-user embedded lists, in Dafny

This project models the backend of the EcommGo shop. The part modelled is the per-user
embedded-list logic. Each user document embeds three lists: a cart (`usercart`), an address
book (`address`) and an order history (`orders`). A handler loads the document, changes one of
its lists and writes the document back.

The store is a value: a map from a user key to the user record, plus the product collection.
Every handler is a method `(store, inputs) -> (store', reply)`. Each store update (`$set`,
`$push`, `$pull`, `$inc` at an index) is reduced to its effect on the list it changes. Where the
Go code loops (index searches with `break`, filter-by-append, totals), the method runs the same
loop. Its invariants tie the loop to specification functions, and the lemmas prove the
promised properties about those functions.

There are two generations of handlers, and each is its own group of modules:

- **Current generation**
  - `backend/controllers/*Controller.go`, `backend/middleware/auth.go`.
  - Users are keyed by `user_id`, so an update filtered on `{"user_id": ...}` is a write at that key. The keying is stated as `Models.KeyedByUserId`; registration and login preserve it.
  - The caller arrives as JWT claims (`Option<string>`).
  - Modules: `CartController`, `CheckoutController`, `AddressController`, `OrderController`,
    `UserController`, `AuthController`, `AuthMiddleware`, over the records in `Models`.
- **Legacy generation**
  - `backend/database/cart.go`, `backend/controllers/cart.go`, `address.go`, `controllers.go`.
  - Users are keyed by their `_id` ObjectID. The caller is the `uid` string, which is empty when
    absent.
  - Handlers that write more than once return the whole sequence of their writes.
  - Modules: `LegacyDatabase`, `LegacyCartHandlers`, `LegacyAddress`, `LegacyControllers`,
    over `LegacyModels`.

Shared modules:

- `ObjectIds`
  - An ObjectID is 12 bytes.
  - `Hex` gives the 24 lower-case hex digits.
  - `FromHex` is `primitive.ObjectIDFromHex`: 24 hex digits of either case, otherwise an error.
  - Parsing inverts printing, and `Hex` is injective.
- `Seqs`: the first-match search `IndexOfFirst` and the order-preserving `Filter`, with their
  lemmas.
- `Text`: ASCII `strings.ToLower`, and `strings.Split` on one character with its `Join`
  inverse.
- `Wrappers`: `Option`.

The clock, fresh ObjectIDs, bcrypt, the JWT generator and validator, and `FindOne`'s choice
among several matching documents are all inputs to the handlers.

## Model

| member | source | states |
|---|---|---|
| CartController.RequestedQuantity | backend/controllers/cartController.go:37-40 | a requested quantity of exactly 0 becomes 1; every other quantity, negative included, is kept |
| CartController.FindProduct | backend/controllers/cartController.go:47-55 | `FindOne` on products: a hit is a catalogue product that matches; nothing is found exactly when no product matches |
| CartController.LookupProduct | backend/controllers/cartController.go:46-57 | tries `_id` only when the id parses as an ObjectID; falls back to `product_id` on failure or a zero id; a result is a catalogue product with a non-zero id matching the key one way or the other |
| CartController.LookupByHex | backend/controllers/cartController.go:46-50 | a product's own hex id finds that product when no other product has that id |
| CartController.LookupFails | backend/controllers/cartController.go:51-57 | "Product not found" happens exactly when no non-zero product has the id the key parses to and the first product with that `product_id`, if any, has a zero id; both directions are stated |
| CartController.NewLine | backend/controllers/cartController.go:83-90 | the appended line copies the product's fields, carries the quantity, has a zero `_id`, and matches the product |
| CartController.AddMerges | backend/controllers/cartController.go:68-80 | with a matching line, only the first match (by `product_id`, by product hex, or by line-id hex) changes, gaining the quantity; length and other lines are unchanged |
| CartController.AddAppends | backend/controllers/cartController.go:81-91 | with no matching line, the cart becomes the old cart plus one new line |
| CartController.AddTwice | backend/controllers/cartController.go:68-91 | adding a product twice equals adding it once with the summed quantity |
| CartController.AddKeepsOneLinePerProduct | backend/controllers/cartController.go:68-91 | adding preserves "at most one line per product" and leaves a line for the product |
| CartController.FindLine | backend/controllers/cartController.go:67-76 | the search loop returns the index of the first line holding the product (by `product_id`, product hex or line-id hex), and -1 exactly when no line does |
| CartController.AddToCart | backend/controllers/cartController.go:17-101 | 401 without claims; 400 for an empty `productId`; 404 "Product not found" or "User not found" with no write; otherwise the cart becomes the merge-or-append result and `updatedAt` is stamped |
| CartController.RemoveKeepsExactly | backend/controllers/cartController.go:126-133 | after removal no line matches the id by line hex or `product_id`, and every line that did not match is still there |
| CartController.RemoveIdempotent | backend/controllers/cartController.go:126-133 | removing twice equals removing once |
| CartController.AddThenRemove | backend/controllers/cartController.go:68-133 | after an add, removing by the product's `product_id` leaves no line with it; when the add appended a line, or merged into a line with that `product_id`, the result equals the removal applied to the old cart |
| CartController.RemoveFromCart | backend/controllers/cartController.go:104-143 | 401; 404 "User not found"; otherwise the filter loop yields exactly `Filter(cart, KeepLine(id))`, in order |
| CartController.CartTotalAppend | backend/controllers/cartController.go:167-170 | the total of a concatenation is the sum of the totals |
| CartController.CartTotalUpdate | backend/controllers/cartController.go:167-170 | replacing one line changes the total by the difference of the two line totals |
| CartController.AddRaisesTotal | backend/controllers/cartController.go:67-91 | an add raises the cart total by the quantity times the price of the line it lands in |
| CartController.GetCart | backend/controllers/cartController.go:146-176 | returns the stored lines, and the loop's total is Σ price × quantity (0 for an empty cart) |
| CartController.UpdateCartItem | backend/controllers/cartController.go:179-233 | 400 for a quantity below 1; 404 "User not found"; 404 "Cart item not found" when no line's id hex matches; otherwise only the first match gets the new quantity |
| CartController.ClearCart | backend/controllers/cartController.go:236-257 | the cart becomes empty; an unknown user changes nothing and still gets 200 |
| CheckoutController.ItemsToCheckout | backend/controllers/checkoutController.go:43-47 | the body's items when non-empty, else the stored cart; empty exactly when both are |
| CheckoutController.BilledQuantity | backend/controllers/checkoutController.go:57-60 | a quantity of 0 is billed as 1; any other quantity as itself |
| CheckoutController.CheckoutTotalIsCartTotal | backend/controllers/checkoutController.go:55-62 | when no line has quantity 0, the checkout total equals the cart total |
| CheckoutController.Checkout | backend/controllers/checkoutController.go:17-101 | 404 "User not found" and 400 "Cart is empty" write nothing; otherwise one update appends a cash-on-delivery "completed" order of the items with the loop's total to the history, empties the cart and stamps `updatedAt`; the receipt's total, order id hex and item count match the order |
| AddressController.GetAddresses | backend/controllers/addressController.go:17-38 | returns the stored list unchanged; 404 for an unknown user |
| AddressController.AddAddress | backend/controllers/addressController.go:41-86 | 400 "All address fields are required" when any field is empty; otherwise the list gains one address with the fresh id at its end, with no limit on count |
| AddressController.PatchWithNothing | backend/controllers/addressController.go:136-148 | a request with every field empty leaves the address unchanged |
| AddressController.PatchIdempotent | backend/controllers/addressController.go:136-148 | patching twice equals patching once, and the id never changes |
| AddressController.UpdateAddress | backend/controllers/addressController.go:89-164 | 404 "Address not found" when no id hex matches; otherwise only the first match is patched, and the other addresses and their order are unchanged |
| AddressController.DeleteUnknownKeepsAll | backend/controllers/addressController.go:188-194 | an id that no address has leaves the list unchanged |
| AddressController.DeleteAddress | backend/controllers/addressController.go:167-210 | the filter loop keeps exactly the addresses whose id hex differs, in order; the reply is 200 even for an unknown id |
| OrderController.GetOrders | backend/controllers/orderController.go:16-37 | returns the stored history unchanged; 404 "User not found" |
| OrderController.GetOrderById | backend/controllers/orderController.go:40-76 | returns the first order whose id hex matches, or 404 "Order not found"; 404 "User not found"; the store is an input only |
| OrderController.FindsCheckedOutOrder | backend/controllers/orderController.go:62-68 | an order appended under a fresh id is the one found by that id's hex |
| AuthMiddleware.ExtractToken | backend/middleware/auth.go:13-22 | a non-empty `token` header is used as-is; otherwise the token is the second piece of `Authorization` split on spaces, present exactly when there are two pieces |
| AuthMiddleware.SchemeAndToken | backend/middleware/auth.go:15-21 | `<scheme> <token>` gives the token whatever the scheme word is; `"Bearer "` gives the empty token |
| AuthMiddleware.NotOneSpace | backend/middleware/auth.go:17-20 | a header with no space, or with more than one, gives no token |
| AuthMiddleware.OnlyOneSpace | backend/middleware/auth.go:17-20 | a token taken from `Authorization` means the header has exactly one space, and the token is what follows it |
| AuthMiddleware.ErrorMessage | backend/middleware/auth.go:31-37 | "token is expired" maps to itself; every other validation error maps to "The Token is invalid" |
| AuthMiddleware.Authenticate | backend/middleware/auth.go:11-45 | an empty token aborts with 401 "No Authorization Header Provided"; a failed validation aborts with 401 and its mapped message; the chain continues, with the claims, exactly when validation succeeds |
| AuthController.RequestError | backend/controllers/authController.go:31-50 | the request is accepted exactly when all fields are present, both names are 2-30 bytes long and the password at least 6 bytes (UTF-8 bytes, as `len` counts); otherwise each check in order gives its own message: fields, first name, last name, password |
| AuthController.NameLengthCountsBytes | backend/controllers/authController.go:36-44 | lengths are bytes, not characters: the two-byte name "é" passes, sixteen "é" (32 bytes) fail, and on ASCII names bytes and characters agree |
| AuthController.SignUp | backend/controllers/authController.go:22-113 | a duplicate lower-cased email, then a duplicate phone, is refused with no write; on success one record is inserted with the lower-cased email, empty lists and `user_id` equal to the id given to the token generator |
| AuthController.RequestChecksFirst | backend/controllers/authController.go:36-58 | for a request that fails the length checks, the reply does not depend on the store |
| AuthController.EmailCheckedBeforePhone | backend/controllers/authController.go:58-69 | when email and phone are both taken, the reply is "User already exists" |
| AuthController.SignUpKeepsEmailsUnique | backend/controllers/authController.go:56-102 | registration keeps email addresses unique across records |
| AuthController.SecondSignUpRefused | backend/controllers/authController.go:56-89 | after a registration, the same email in any ASCII letter case is refused |
| AuthController.SignUpKeepsKeying | backend/controllers/authController.go:86-100 | registration files the new record under its own `user_id`, so a store keyed by `user_id` stays keyed that way |
| AuthController.Login | backend/controllers/authController.go:116-164 | 401 "login or password incorrect" when no record has the lower-cased email; 401 "Login Or Password is Incorrect" when the hash does not match; on success the tokens are written under the record's `user_id` and the returned user has an empty password |
| AuthController.LoginTouchesOnlyTokens | backend/controllers/authController.go:144-156 | a login changes at most the token fields and `updatedAt` of records |
| AuthController.LoginWritesFoundRecord | backend/controllers/authController.go:130-156 | in a store keyed by `user_id`, the `{"user_id": ...}` update of a login lands on the record `FindOne` returned, with only its tokens and `updatedAt` changed, and the store stays keyed |
| UserController.BuildProfileSet | backend/controllers/userController.go:69-81 | `$set` always holds `updatedAt`; it holds each profile field exactly when that field is non-empty, the email lower-cased; its size is 1 exactly when the request is empty |
| UserController.ApplyProfileSet | backend/controllers/userController.go:88 | fields not in `$set` keep their old values; the lists, password and ids never change |
| UserController.ProfiledIdempotent | backend/controllers/userController.go:69-88 | repeating a profile update changes nothing more |
| UserController.ProfiledEmailIsLower | backend/controllers/userController.go:76-78 | an email stored by a profile update is lower-case |
| UserController.UpdateProfile | backend/controllers/userController.go:44-95 | 400 "No fields to update" with no write when only `updatedAt` would be set; otherwise the record takes the non-empty fields |
| LegacyDatabase.AddIncrements | backend/database/cart.go:69-83 | with a line for the product, only the first line with that `ID` changes, gaining the quantity |
| LegacyDatabase.CartAfterAdd | backend/database/cart.go:68-96 | an add either keeps the cart length (`$inc`) or grows it by one (`$push`) |
| LegacyDatabase.AddPushesSnapshot | backend/database/cart.go:44-96 | without such a line, a snapshot with the product's `_id`, name and price and the quantity is appended |
| LegacyDatabase.AddKeepsUniqueIds | backend/database/cart.go:68-96 | adding keeps line `ID`s pairwise distinct and leaves a line for the product |
| LegacyDatabase.AddTwice | backend/database/cart.go:68-96 | adding twice equals adding once with the summed quantity |
| LegacyDatabase.AddProductToCart | backend/database/cart.go:28-99 | a missing product gives ErrCantFindProduct; an unparsable or unknown user gives ErrUserIDIsNotValid; neither writes; otherwise increment or push |
| LegacyDatabase.CartAfterPull | backend/database/cart.go:118 | the pull leaves no line with the product's `_id` and keeps every other line |
| LegacyDatabase.PullIdempotent | backend/database/cart.go:118 | pulling twice equals pulling once |
| LegacyDatabase.RemoveCartItem | backend/database/cart.go:101-124 | ErrUserIDIsNotValid, then ErrProductNotFound, with no write; otherwise every line with that `_id` is pulled; an unknown user is not an error |
| LegacyDatabase.UpdateCartItem | backend/database/cart.go:126-174 | ErrProductNotFound; ErrUserIDIsNotValid; ErrCantFindProduct when no line has the `ID`; otherwise the first match gets the quantity, with no lower bound |
| LegacyDatabase.BuyItemFromCart | backend/database/cart.go:176-229 | an unparsable user id gives ErrUserIDIsNotValid; otherwise the cart is reset to empty |
| LegacyCartHandlers.CartSumAppend | backend/controllers/cart.go:382-388 | the sum of a concatenation is the sum of the sums |
| LegacyCartHandlers.CartSumUpdate | backend/controllers/cart.go:382-388 | replacing one line changes the sum by that line's difference in price × quantity |
| LegacyCartHandlers.AddRaisesSum | backend/database/cart.go:68-96 | a database add raises the integer cart sum by the quantity times the price of the line it lands in |
| LegacyCartHandlers.CalculateTotal | backend/controllers/cart.go:382-388 | the loop computes Σ Price × Quantity, 0 for an empty cart |
| LegacyCartHandlers.NormalizeQuantity | backend/controllers/cart.go:206-208 | any quantity ≤ 0 becomes 1; a positive one is kept |
| LegacyCartHandlers.AddToCart | backend/controllers/cart.go:31-61 | always adds quantity 1; on a database error it writes the error and then the success text |
| LegacyCartHandlers.AddToCartModern | backend/controllers/cart.go:187-228 | normalises the quantity, then adds; any database error gives 500 "Failed to add product to cart" |
| LegacyCartHandlers.RemoveFromCartModern | backend/controllers/cart.go:230-263 | the id must be present and parse; otherwise the database pull, with 500 on its errors |
| LegacyCartHandlers.GetCartModern | backend/controllers/cart.go:265-299 | returns the stored cart, with `total_items` equal to its length |
| LegacyCartHandlers.ClearCartModern | backend/controllers/cart.go:301-332 | sets the cart to empty |
| LegacyCartHandlers.CheckoutModern | backend/controllers/cart.go:334-380 | an empty cart is refused before any order processing; the reply's `total_items` and `total_amount` describe the cart as it was before checkout emptied it |
| LegacyCartHandlers.InstantBuyModern | backend/controllers/cart.go:390-417 | goes on to the purchase exactly when the caller, a product id and a parsable id are present, carrying the parsed id and `NormalizeQuantity(quantity)`; otherwise it replies 401, "Invalid request body" or "Invalid product ID format", in that order of checks |
| LegacyAddress.AddAddress | backend/controllers/address.go:17-70 | pushes only while the user has fewer than two addresses, otherwise replies "Not Allowed "; an unparsable id writes an error and carries on; the two-address limit is preserved |
| LegacyAddress.EditSlot | backend/controllers/address.go:91-93 | only the given slot changes, taking all four fields and keeping its id |
| LegacyAddress.EditSlotKeepsLimit | backend/controllers/address.go:91-93 | a slot edit keeps the two-address limit |
| LegacyAddress.EditAddressSlot | backend/controllers/address.go:72-134 | an empty id replies 404 with no write; otherwise an unparsable id writes an error first, the user's slot is overwritten when the user exists, and the success text follows |
| LegacyAddress.EditHomeAddress | backend/controllers/address.go:72-102 | overwrites the four fields of slot 0 only |
| LegacyAddress.EditWorkAddress | backend/controllers/address.go:104-134 | overwrites the four fields of slot 1 only |
| LegacyAddress.DeleteAddress | backend/controllers/address.go:136-163 | replaces the whole list with the empty list |
| LegacyAddress.GetAddressesModern | backend/controllers/address.go:167-204 | returns the addresses and their count |
| LegacyAddress.AddAddressModern | backend/controllers/address.go:206-248 | pushes one address with the fresh id, with no limit |
| LegacyAddress.UpdateAddressModern | backend/controllers/address.go:250-307 | overwrites all four fields, empty ones included, of the first address with that id; 404 "Address not found" when no such address exists |
| LegacyAddress.DeleteAddressModern | backend/controllers/address.go:309-354 | pulls every address with that id; 404 "User not found" only for an unknown user |
| LegacyAddress.PullRemovesExactly | backend/controllers/address.go:337 | the pull leaves no address with the id and keeps every other one |
| LegacyAddress.PullUnknownKeepsAll | backend/controllers/address.go:337-352 | pulling an absent address id leaves the list unchanged, and the reply is still 200 |
| LegacyControllers.VerifyPassword | backend/controllers/controllers.go:34-43 | `(true, "")` exactly when the hash comparison succeeds, else `(false, "Login Or Passowrd is Incorerct")` |
| LegacyControllers.BuildUpdate | backend/controllers/controllers.go:402-414 | the update holds exactly the non-empty fields; the email is not lower-cased; it is empty exactly when the request is |
| LegacyControllers.Profiled | backend/controllers/controllers.go:402-425 | the email becomes the given one unchanged; the lists, password and `updatedAt` are untouched |
| LegacyControllers.ProfiledIdempotent | backend/controllers/controllers.go:402-425 | repeating a profile update changes nothing more |
| LegacyControllers.UpdateUserProfile | backend/controllers/controllers.go:369-434 | an empty request gives 400 "No fields to update" with no write; otherwise the record takes the non-empty fields |
| LegacyControllers.NewUser | backend/controllers/controllers.go:85-92 | `User_ID` is the hex of the new `_id`; the cart, addresses and orders start empty |
| LegacyControllers.SignUp | backend/controllers/controllers.go:45-101 | a duplicate phone stops registration with no write; a duplicate email writes "User already exists" and registration carries on |
| LegacyControllers.DuplicateEmailAdmitted | backend/controllers/controllers.go:66-93 | as written, registering a taken email leaves two records with that email |
| LegacyControllers.SignUpIntended | backend/controllers/controllers.go:60-79 | with the missing `return`, every registration writes exactly one reply: 400 for a bad request, "User already exists", "Phone is already in use" (each leaving the store as it was), or "Successfully Signed Up!!" with the new user inserted; it keeps emails unique |
| LegacyControllers.AdminProductId | backend/controllers/controllers.go:145 | an admin product's id is `product_` followed by the 24-digit hex of a fresh id |
| LegacyControllers.AdminProductIdInjective | backend/controllers/controllers.go:145 | distinct fresh ids give distinct product ids |
| ObjectIds.FromHexOfHex | backend/controllers/cartController.go:71-72 | parsing an ObjectID's hex form gives back that ObjectID |
| ObjectIds.HexInjective | backend/controllers/orderController.go:64 | two ObjectIDs have the same hex form exactly when they are equal |
| ObjectIds.Hex | backend/controllers/checkoutController.go:96 | an ObjectID prints as exactly 24 characters |
| ObjectIds.FromHex | backend/controllers/cartController.go:47 | parsing succeeds exactly on strings of 24 hexadecimal digits |
| Text.ToLower | backend/controllers/authController.go:56 | lower-casing keeps the length and maps each character to its lower-case form |
| Text.ToLowerIdempotent | backend/controllers/authController.go:56 | lower-casing an already lower-cased email changes nothing |
| Text.Split | backend/middleware/auth.go:17 | `strings.Split` on one character gives at least one piece, and no piece contains the separator |
| Text.JoinSplit | backend/middleware/auth.go:17 | joining the pieces of `strings.Split` with the separator gives back the header |
| Text.SplitCount | backend/middleware/auth.go:17-18 | `strings.Split` gives one more piece than there are separators |
| Text.SplitNoSeparator | backend/middleware/auth.go:17-18 | a header without a space is a single piece |
| Text.SplitOneSeparator | backend/middleware/auth.go:17-21 | a header with exactly one space splits into what precedes it and what follows it |
| Text.Utf8Width | backend/controllers/authController.go:37 | one scalar value takes 1 to 4 bytes in UTF-8, and exactly 1 when it is ASCII |
| Text.ByteLength | backend/controllers/authController.go:37 | `len` of a string lies between its character count and four times it |
| Text.AsciiByteLength | backend/controllers/authController.go:37 | on ASCII text `len` equals the character count |
| Text.UniformByteLength | backend/controllers/authController.go:37 | a string of n copies of one character is n times that character's width long |
| Models.WithUserKeepsKeying | backend/controllers/userController.go:88 | writing a record back under its own `user_id` keeps every record under its own `user_id` |

## Left out

- Floating-point prices: the current generation's `float64` prices and totals are modelled as `int`, so rounding is not modelled.
- Integer width: Go's `int` overflow in totals and increments, and the legacy `uint64` to `int` price conversion, are not modelled.
- LegacyModels.Product: every catalogue product has a price. A product stored without one makes `AddProductToCart` dereference a nil pointer (backend/database/cart.go:47) and panic, which is not modelled.
- Letter case: `strings.ToLower` is modelled on ASCII letters only. Unicode case mapping is not modelled.
- Store failures: every `FindOne` whose document exists, `UpdateOne` and `InsertOne` is assumed to succeed. The "Failed to …" 500 replies are not modelled. Matched counts are modelled.
- Store plumbing: contexts, timeouts and concurrent read-modify-write races are not modelled.
- Unique indexes: the duplicate-key branch of `InsertOne` ("Email or phone is already in use") depends on indexes this model does not describe.
- JSON binding: request bodies arrive as field values. `binding:"required"` is modelled as "the field is non-empty". The legacy handlers' binding failures, which write an error and carry on with a partly filled value, are not modelled.
- Library error values: the body of an error value that the legacy handlers write (a validator or ObjectID-parse error) is modelled as `Opaque`.
- AuthController.SignUp: requires that the drawn `user_id` is not already a key; fresh ObjectIDs are assumed unique.
- LegacyControllers.SignUp: likewise requires that the drawn `_id` is not already a key. The validator's verdict is an input, because its rules live in a package this model does not include.
- AuthController.Login: `found` stands for `FindOne`'s pick among the records with the lower-cased email. The requires clauses state only what `FindOne` guarantees.
- LegacyAddress.EditHomeAddress: requires that the user, when it exists, already has slot 0. The store's padding of a short array under `address.0.*` is not modelled.
- LegacyAddress.EditWorkAddress: requires that the user, when it exists, already has slot 1, for the same reason.
- LegacyAddress.EditAddressSlot: carries the same slot requirement as the two handlers it serves.
- LegacyAddress.AddAddress: the counting aggregation is reduced to the number of the user's addresses. Its loop over the result rows is kept.
- LegacyDatabase.BuyItemFromCart: only the final cart reset is modelled. The aggregation total sums over all users and ignores quantity, and the `$[]` push touches every order. Their combined effect on the order history is an input, `ordersAfter`. The `price.(int32)` assertion at backend/database/cart.go:200-202 is not modelled either: it panics when the aggregated sum leaves the int32 range or a price is stored as int64 or double.
- `InstantBuyer` in `backend/database/cart.go` is not modelled, for the same reasons. Only the part of `InstantBuyModern` before it is modelled.
- Other legacy handlers are not modelled: `RemoveItem`, `GetItemFromCart`, `BuyFromCart`, `InstantBuy`, legacy `Login`, `GetUserProfile` and the product search handlers. They are not part of the list logic modelled here.
- Current-generation handlers left out: `GetProfile` and `Logout`, which neither change nor search a list.
- bcrypt and JWT: hashing, comparison, token signing and token validation are inputs (`hashed`, `compare`, `generate`, `validate`).
- Timestamps and fresh ids: the clock and fresh ObjectIDs are inputs. The RFC 3339 rendering of the receipt's timestamp is not modelled. In checkout one `now` stands for the three `time.Now()` readings at backend/controllers/checkoutController.go:68, 82 and 95, so `orderedOn`, `updatedAt` and the receipt's timestamp are equal in the model but may differ in Go. Likewise, in both sign-up paths one `now` fills `createdAt` and `updatedAt`. Go reads the clock twice in each: backend/controllers/authController.go:98-99, and the RFC 3339 round trip at backend/controllers/controllers.go:83-84, which also drops sub-second precision.
- HTTP plumbing: status handling beyond the reply values, CORS, logging, routing and configuration are not modelled.

## Findings

| source | as written | input that shows it | evidently intended | confidence | as-written member | corrected member |
|---|---|---|---|---|---|---|
| backend/controllers/controllers.go:66-68 | a taken email writes "User already exists" but does not return, so the user is inserted anyway and the reply holds both the error and "Successfully Signed Up!!" | a store holding a user with email `e`, and a valid registration with email `e` and an unused phone | return after the error, as the duplicate-phone branch does | high; not executed | LegacyControllers.SignUp, LegacyControllers.DuplicateEmailAdmitted | LegacyControllers.SignUpIntended |
