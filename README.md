# Zyrix club site: data store, cart, checkout, registration, login and admin console

This project models the client-side core of the Zyrix club web site. It
covers six parts:

- **The snapshot database** (`assets/js/database.js`). One JSON record in
  local storage holds the users, products, sponsorship requests and orders,
  plus the order counter. Every operation reads the whole record, edits it
  and writes it back. `Database.Store` is a class whose one field, `stored`,
  is that storage entry. It is either `Parsed(snapshot)` or
  `Absent`/`Corrupt`, and reads of the latter fall back to the empty
  default.
- **The store page** (`assets/js/store-page.js`). The cart is a JSON object
  keyed by product id and stored under a per-user key. Products are seeded
  on an empty store, and the checkout handler walks the cart, lowers stock
  line by line, mints an order and appends it to the buyer's history.
  - The cart is modelled as a sequence of lines with distinct ids (`Cart.Cart`),
    read through `Cart.AsMap` as the object it stands for.
  - The loop is modelled twice: by `Checkout.StepLine`/`Checkout.RunLines`,
    and by the methods `StorePage.StorePage.VisitLine`/`VisitCart`, which
    are proved to follow them.
- **Registration and email verification** (`assets/js/auth-register.js`).
- **Login** (`assets/js/auth-login.js`).
- **The admin console's handlers** (`assets/js/admin-page.js`).
- **The shared validators, session helpers and navbar rule**
  (`assets/js/shared.js`).

The checkout is modelled as the code behaves: it is **not** atomic. Every
passing cart line writes its stock decrement at once. A later line that
fails (unknown product or not enough stock) stops the loop, leaves those
decrements in place, and creates no order (`Checkout.CheckoutIsNotAtomic`,
`Checkout.FailedRunKeepsEarlierDecrements`).

Parameters stand in for what the runtime supplies:

- the password digest is a parameter `hash: string -> string`;
- `Date.now()`/`new Date().toISOString()` are a `Clock` value;
- the four `Math.random()` draws of `generateVerifyCode` are the numbers
  `i`, `j`, `k`, `num`;
- `localStorage` is `Storage.LocalStore`, whose fields are the session entry
  and the cart entries;
- `sessionStorage` is `Storage.SessionStore`.

`getCurrentUser` is `LocalStore.CurrentUser`, the session entry itself
(`None` when absent).

Module layout:

| file | module |
|---|---|
| util.dfy | Util: `Option`, first-match search, filter and count |
| decimal.dfy | Decimal: decimal strings and zero padding, for order numbers and codes |
| checks.dfy | Checks: a chain of guards, each returning early with its message |
| database.dfy | Database |
| cart.dfy | Cart |
| storage.dfy | Storage |
| shared.dfy | Shared |
| checkout.dfy | Checkout: the checkout loop as a function |
| store_page.dfy | StorePage |
| auth_register.dfy | AuthRegister |
| auth_login.dfy | AuthLogin |
| admin_page.dfy | AdminPage |

## Model

| member | source | states |
|---|---|---|
| Util.FindIndex | assets/js/database.js:113 | The index found is the first element satisfying the test; `None` exactly when no element does. |
| Util.FindIndexAfterUpdate | assets/js/database.js:111-118 | Writing back a record that keeps its key leaves the first match where it was, so a later lookup finds the patched record. |
| Util.Filter | assets/js/database.js:122 | The filtered list holds exactly the elements that pass, and is the whole list when all do. |
| Util.FilterConcat | assets/js/database.js:122 | Filtering keeps the relative order of what it keeps (filter distributes over concatenation). |
| Util.CountIsIndexSetSize | assets/js/database.js:223-229 | A count is the number of positions whose element passes the test, stated without the filter. |
| Util.CountAll | assets/js/database.js:227 | A count equals the list's length exactly when every element passes. |
| Util.CountDisjoint | assets/js/database.js:228-229 | Two exclusive tests count no more than the list's length between them. |
| Util.CountUpdate | assets/js/admin-page.js:228 | Replacing one element changes a count by whether the old element and the new one pass. |
| Decimal.DigitChar | assets/js/database.js:206 | The character is a decimal digit whose code is `'0'` plus the value. |
| Decimal.DigitValue | assets/js/database.js:206 | Reads a digit back: `DigitChar` of the value is the character. |
| Decimal.NatToString | assets/js/database.js:206 | `String(n)` is a non-empty string of digits. |
| Decimal.NatToStringRoundTrip | assets/js/database.js:206 | Reading `String(n)` back as a decimal gives `n`. |
| Decimal.NatToStringInjective | assets/js/database.js:206 | Different numbers have different decimal strings. |
| Decimal.DigitCount | assets/js/database.js:206 | `String(n)` has at most `k` digits below `10^k` and at least `k` from `10^(k-1)` on. |
| Decimal.ThreeDigits | assets/js/database.js:43 | A number from 100 to 999 prints as exactly three digits. |
| Decimal.PadStart | assets/js/database.js:206 | `padStart` keeps the string as its suffix and fills up to the width with the fill character. |
| Decimal.LeadingZeros | assets/js/database.js:206 | Leading zeros do not change the value read. |
| Decimal.PaddedRoundTrip | assets/js/database.js:206 | The zero-padded number is all digits and reads back as the number. |
| Decimal.FourDigitsAtMost | assets/js/database.js:206 | Below 10000 the number needs no more than the four padded places. |
| Checks.FirstFailure | assets/js/auth-register.js:26-54 | A chain of guards passes exactly when every guard does; otherwise its message is that of the first guard that fails. |
| Checks.FailsFirstAtUnique | assets/js/auth-register.js:26-54 | Only one guard can be the first to fail. |
| Checks.FirstFailureIs | assets/js/auth-login.js:20-45 | When guard `k` is the first to fail, the chain reports its message. |
| Checks.FirstFailureIsEarlyReturn | assets/js/auth-register.js:26-54 | The declarative verdict equals running the guards one after another with an early `return`. |
| Checks.FirstFailureAt | assets/js/auth-register.js:26-54 | With distinct messages, the chain reports guard `k`'s message if and only if `k` is the first to fail. |
| Database.ReadDB | assets/js/database.js:23-32 | A parsed entry is read as stored; a missing or corrupt one reads as the empty default with counter 1. |
| Database.Store.Write | assets/js/database.js:35-37 | The entry afterwards holds exactly the snapshot written. |
| Database.Store.Init | assets/js/database.js:48-74 | `init` leaves the `Bootstrap` snapshot and writes only when no administrator record exists. |
| Database.Bootstrap | assets/js/database.js:48-74 | After bootstrap a user with the administrator email exists. Nothing else changes, and an existing one leaves the snapshot untouched. |
| Database.BootstrapIdempotent | assets/js/database.js:53-54 | Running `init` twice is the same as once: the administrator is never added twice. |
| Database.GenerateVerifyCode | assets/js/database.js:40-45 | The code is three capital letters, a hyphen and three digits that read back as the drawn number. |
| Database.Store.GetUsers | assets/js/database.js:83-85 | `getUsers`: the users of what is read (`Database.ReadDB`). |
| Database.FindUser | assets/js/database.js:87-89 | The user found has the email; `None` exactly when no user has it. |
| Database.Store.FindUserByEmail | assets/js/database.js:87-89 | `findUserByEmail`: `Database.FindUser` on the users read. |
| Database.NewUser | assets/js/database.js:91-109 | The stored user keeps the given fields. The role defaults to `user`, an empty code is dropped, the history starts empty and the id is non-empty: the given one, or `u` followed by the clock's milliseconds. |
| Database.Store.SaveUser | assets/js/database.js:91-109 | Appends exactly that user to the stored users. |
| Database.PatchUsers | assets/js/database.js:111-118 | Fails exactly when no user has the email. Otherwise only the first user with it is patched and every other user is kept in place. |
| Database.Store.UpdateUser | assets/js/database.js:111-118 | An unknown email writes nothing and returns `None`. Otherwise the patched users are written and the returned user is the one the email now finds. |
| Database.WithoutUser | assets/js/database.js:120-124 | Keeps exactly the users with another email (all of them when none matches). |
| Database.WithoutUserKeepsOrder | assets/js/database.js:122 | Deleting keeps the order of the remaining users. |
| Database.Store.DeleteUser | assets/js/database.js:120-124 | Writes the users without that email. |
| Database.Store.GetProducts | assets/js/database.js:127-129 | `getProducts`: the products of what is read. |
| Database.FindProduct | assets/js/database.js:150 | The product found has the id; `None` exactly when no product has it. |
| Database.NewProduct | assets/js/database.js:131-146 | Keeps the given fields; the id is the given one, else `p` and the clock's milliseconds. |
| Database.Store.SaveProduct | assets/js/database.js:131-146 | Appends exactly that product. |
| Database.PatchProducts | assets/js/database.js:148-155 | Fails exactly when no product has the id; otherwise only the first product with it is patched. |
| Database.Store.UpdateProduct | assets/js/database.js:148-155 | An unknown id writes nothing. Otherwise the patched products are written and the returned product is the one the id now finds. |
| Database.WithoutProduct | assets/js/database.js:157-161 | Keeps exactly the products with another id. |
| Database.WithoutProductKeepsOrder | assets/js/database.js:159 | Deleting keeps the order of the remaining products. |
| Database.Store.DeleteProduct | assets/js/database.js:157-161 | Writes the products without that id. |
| Database.Store.GetSponsors | assets/js/database.js:164-166 | `getSponsors`: the sponsor requests of what is read. |
| Database.NewSponsor | assets/js/database.js:168-184 | Keeps the request's fields; the status defaults to `pending`; the id is the given one, or `sp` followed by the clock's milliseconds. |
| Database.Store.SaveSponsor | assets/js/database.js:168-184 | Appends exactly that request. |
| Database.PatchSponsors | assets/js/database.js:186-193 | Fails exactly when no request has the id; otherwise only the first one with it is patched. |
| Database.Store.UpdateSponsor | assets/js/database.js:186-193 | An unknown id writes nothing; otherwise the patched requests are written and the result is the request the id now finds in them. |
| Database.Store.GetOrders | assets/js/database.js:196-198 | `getOrders`: the orders of what is read. |
| Database.OrderNumber | assets/js/database.js:206 | The order number for a sequence value; `Database.OrderNumberFormat` and `Database.OrderNumberInjective` state its shape and that it names one value. |
| Database.OrderNumberFormat | assets/js/database.js:206 | An order number is `ZRX-2026-` followed by digits that read back as the sequence number; below 10000 it has 13 characters. |
| Database.OrderNumberInjective | assets/js/database.js:206 | Different sequence numbers give different order numbers. |
| Database.FirstOrderNumber | assets/js/database.js:202-206 | The first order of a fresh store is `ZRX-2026-0001`. |
| Database.NextSeq | assets/js/database.js:202 | The sequence number used is at least 1 (`nextOrderNum \|\| 1`). |
| Database.MakeOrder | assets/js/database.js:204-212 | The order carries the number for the sequence value, the buyer, items and total given, and currency `DOP`. |
| Database.WithOrder | assets/js/database.js:200-216 | Appends that order, advances the counter by one and leaves users, products and requests alone. |
| Database.Store.SaveOrder | assets/js/database.js:200-216 | Returns the order minted from the counter it found and writes the snapshot with it appended. |
| Database.WithOrdersAdvancesCounter | assets/js/database.js:202-203 | After `n` orders the counter has advanced by exactly `n`. |
| Database.MintedStep | assets/js/database.js:200-216 | One order then the rest mints the same orders as all of them from the start. |
| Database.WithOrdersAppendsMinted | assets/js/database.js:213 | A run of orders appends exactly the minted orders, in request order. |
| Database.MintedLength | assets/js/database.js:200-216 | One order is minted per request. |
| Database.MintedAt | assets/js/database.js:200-216 | The `k`-th minted order uses sequence number start plus `k`. |
| Database.MintedNumbering | assets/js/database.js:202-206 | The minted orders are numbered consecutively from the counter. |
| Database.MintedNumbersDistinct | assets/js/database.js:202-206 | No two orders of a run share an order number. |
| Database.Revenue | assets/js/database.js:225 | The summed order totals, a missing total counting as 0; `Database.RevenueConcat` and `Database.RevenueNonNegative` state its properties. |
| Database.RevenueConcat | assets/js/database.js:225 | Revenue adds up over consecutive runs of orders. |
| Database.RevenueNonNegative | assets/js/database.js:225 | Orders with non-negative totals give non-negative revenue. |
| Database.Store.GetStats | assets/js/database.js:219-231 | `getStats`: `Database.ComputeStats` of what is read. |
| Database.ComputeStats | assets/js/database.js:219-231 | The user, order and product totals are the list sizes and the revenue sums the order totals (a missing total counts as 0). Verified users, in-stock products, active and pending requests are each the number of positions whose record is verified, has positive stock, or has status `active` or `pending`. Active plus pending requests are at most all requests, and all products count as in stock exactly when every stock is positive. |
| Database.VerifiedCount | assets/js/database.js:223 | The verified-user figure is the number of positions holding a verified user. |
| Database.SponsorCounts | assets/js/database.js:228-229 | The active and pending figures are the numbers of positions with those statuses, and together at most the number of requests. |
| Database.InStockCount | assets/js/database.js:227 | The in-stock figure is the number of positions with positive stock, and equals the number of products exactly when every stock is positive. |
| Cart.Ids | assets/js/store-page.js:99 | The ids are the cart's keys in the order `for...in` visits them. |
| Cart.AsMapAt | assets/js/store-page.js:100 | Each line of the cart is the entry its key maps to. |
| Cart.AsMapMissing | assets/js/store-page.js:78 | A key no line has is absent from the object. |
| Cart.Lookup | assets/js/store-page.js:78 | Reading a key gives its entry, and nothing exactly when it is absent. |
| Cart.Put | assets/js/store-page.js:79-87 | Assigning a key updates the object at that key only. A new key goes last and an existing one keeps its place. |
| Cart.AsMapReplaced | assets/js/store-page.js:129-133 | Overwriting a line's item in place updates the object at that key and keeps the keys distinct. |
| Cart.Remove | assets/js/store-page.js:143 | `delete` removes exactly that key and keeps the order of the others; an absent key leaves the cart unchanged. |
| Cart.DropKeepsUnique | assets/js/store-page.js:143 | Dropping a line keeps the keys distinct. |
| Cart.AsMapRemoved | assets/js/store-page.js:143 | Dropping a line removes exactly its key from the object. |
| Cart.SumOfConcat | assets/js/store-page.js:99-103 | Sums over the cart add up over consecutive parts. |
| Cart.SumOfUpdate | assets/js/store-page.js:99-103 | Replacing one line changes a sum by the difference of the two lines. |
| Cart.SumOfDrop | assets/js/store-page.js:99-103 | Dropping one line lowers a sum by that line. |
| Cart.PutTotals | assets/js/store-page.js:96-103 | Storing an item changes the badge count and the total by the new item minus the one it replaces. |
| Cart.RemoveTotals | assets/js/store-page.js:96-103 | Removing a key lowers the count and the total by exactly its line. |
| Storage.CartKey | assets/js/store-page.js:20-28 | The key `loadCart` and `saveCart` use; `Storage.CartKeyCollisions` states when two sessions share it. |
| Storage.CartKeyCollisions | assets/js/store-page.js:19-23 | Two users share a cart key exactly when they share an email; the guest key is also the key of the email `guest`. |
| Storage.LocalStore.CurrentUser | assets/js/shared.js:55-58 | `getCurrentUser`: the stored session, or none; it is a plain accessor, with no contract of its own. |
| Storage.LocalStore.LoadCart | assets/js/store-page.js:19-23 | The cart loaded is the entry under the current key, or empty when there is none. |
| Storage.LocalStore.SaveCart | assets/js/store-page.js:26-30 | Stores the cart under the current key only, and loading then gives it back. |
| Storage.LocalStore.WriteSession | assets/js/auth-login.js:48-51 | The session entry becomes exactly the one written; carts are untouched. |
| Storage.LocalStore.Logout | assets/js/shared.js:60-65 | Removes the session and the `zyrix_cart_current` entry, and nothing else. |
| Storage.LogoutKeepsUserCart | assets/js/shared.js:60-62 | A user's own cart survives logout unless the email is `current`. |
| Shared.LastIndexOf | assets/js/shared.js:107 | The position found holds the character and none after it does; `None` exactly when the character is absent. |
| Shared.ValidateEmail | assets/js/shared.js:106-109 | The email check, decided from the first `@` and the domain's last dot; `Shared.ValidateEmailMatchesPattern` states that it accepts exactly what the regular expression matches. |
| Shared.ValidateEmailMatchesPattern | assets/js/shared.js:106-109 | The backtracking-free check accepts exactly the strings that split as the email regular expression requires. |
| Shared.SplitDecides | assets/js/shared.js:106-109 | Any split the regular expression allows makes the check accept. |
| Shared.SplitFindsAt | assets/js/shared.js:107 | In a split, the `@` found first is the one of the split. |
| Shared.SplitDomain | assets/js/shared.js:107 | In a split, the domain is all address characters and its last dot is the split's dot. |
| Shared.AdminEmailInvalid | assets/js/shared.js:106-109 | The bootstrap administrator email `sebastian` is not a valid email. |
| Shared.ValidatePhone | assets/js/shared.js:111-114 | The phone check; `Shared.ValidatePhoneMeaning` states that it accepts exactly three digits, a hyphen and three digits. |
| Shared.ValidatePhoneMeaning | assets/js/shared.js:111-114 | A valid phone is exactly three digits, a hyphen and three digits. |
| Shared.HasDigit | assets/js/shared.js:117 | True exactly when some character is a digit. |
| Shared.Utf16Length | assets/js/shared.js:117 | A string's `length` in UTF-16 code units lies between its number of characters and twice that. |
| Shared.Utf16LengthBmp | assets/js/shared.js:117 | Without characters beyond the Basic Multilingual Plane, the `length` is the number of characters. |
| Shared.ValidatePassword | assets/js/shared.js:116-118 | A password is accepted exactly when it is at least eight UTF-16 code units long and has a digit; with eight characters only the digit matters, and fewer than four characters are always refused. |
| Shared.AstralPasswordAccepted | assets/js/shared.js:117 | Four emoji and a digit, five characters but nine code units, are accepted. |
| Shared.TempPasswordWeak | assets/js/admin-page.js:135 | The admin console's temporary password `Temp123` would be refused by the password rule. |
| Shared.EndsWith | assets/js/shared.js:44 | True exactly when the string's last characters are the suffix. |
| Shared.ContainsMeaning | assets/js/shared.js:42 | `includes` holds exactly when the target occurs at some position. |
| Shared.NavLinkActive | assets/js/shared.js:36-48 | A link other than home is active exactly when its target occurs in the path; the home link exactly when the path ends in `/`. |
| Shared.NavLinkQuirks | assets/js/shared.js:42-45 | The home link is not marked on `/index.html` but is on `/`, and a link with an empty target is marked on every page. |
| Shared.NavLinkOnItsPage | assets/js/shared.js:42 | A non-home link is active on a path that ends with its target. |
| Checkout.StepLine | assets/js/store-page.js:176-190 | One pass of the loop body; `Checkout.StepPassed` and `Checkout.StepFailed` state what a passing and a failing line do. |
| Checkout.StockPatchWrites | assets/js/store-page.js:190 | `updateProduct(pid, {stock})` writes the lowered stock into the same product the loop looked up. |
| Checkout.RunLines | assets/js/store-page.js:175-193 | The loop over the cart lines in order; `Checkout.RunStockConservation`, `Checkout.RunItemsFollowCart` and `Checkout.FailedRunKeepsEarlierDecrements` state what it does to stock, items and total. |
| Checkout.StepPassed | assets/js/store-page.js:176-190 | A line that passes has a product with enough stock. That product's stock is lowered by the quantity, and the item is added at the product's current price. |
| Checkout.StepFailed | assets/js/store-page.js:177-186 | A line that fails adds no item and writes no stock. |
| Checkout.RunStopSticky | assets/js/store-page.js:180-185 | After the `break`, the remaining lines change nothing. |
| Checkout.RunTotalIsItemsTotal | assets/js/store-page.js:187-188 | The accumulated total is the total of the accumulated items. |
| Checkout.RunItemsFollowCart | assets/js/store-page.js:175-193 | The items follow the cart lines in order with their quantities, one per line when no line failed. |
| Checkout.ItemsStep | assets/js/store-page.js:187 | One more line keeps the items in step with the cart. |
| Checkout.SameIdsSameIndex | assets/js/store-page.js:176 | Changing only stock does not change which product an id finds. |
| Checkout.RunChangesOnlyStock | assets/js/store-page.js:190 | The loop changes only `stock` fields and keeps every product in place. |
| Checkout.RunKeepsStockNonNegative | assets/js/store-page.js:182-190 | Stock that starts non-negative stays non-negative, because of the stock check. |
| Checkout.RunStockConservation | assets/js/store-page.js:175-193 | When every line passes, each product's stock drops by exactly the quantities the cart takes from it. |
| Checkout.ConservationStep | assets/js/store-page.js:190 | One more passing line keeps stock conservation. |
| Checkout.StockStep | assets/js/store-page.js:190 | The decrement of one line lands on the product its id finds and on no other. |
| Checkout.DemandStep | assets/js/store-page.js:176 | One more line adds its quantity to the demand on the product its id finds. |
| Checkout.FailedRunKeepsEarlierDecrements | assets/js/store-page.js:175-193 | A failed loop leaves exactly the products and items of the passing prefix before the failing line. |
| Checkout.CheckoutIsNotAtomic | assets/js/store-page.js:175-193 | A cart whose second line lacks stock still has its first line's decrement written. |
| StorePage.AddOne | assets/js/store-page.js:79-87 | The cart `addToCart` leaves; `StorePage.AddOneEffect` and `StorePage.AddOneCount` state its effect. |
| StorePage.AddOneEffect | assets/js/store-page.js:71-91 | Adding raises the line's quantity by one and keeps its first price and title; a first add stores one unit at the current price. |
| StorePage.AddOneCount | assets/js/store-page.js:87 | Each add raises the badge count by one. |
| StorePage.Adjust | assets/js/store-page.js:129-136 | The cart `modifyCart` leaves for a present id; `StorePage.AdjustEffect` states its effect. |
| StorePage.AdjustEffect | assets/js/store-page.js:126-139 | A change that leaves zero or fewer units deletes the line. Otherwise the quantity is the new amount capped at the stock, and nothing else changes. |
| StorePage.AdjustKeepsZeroLine | assets/js/store-page.js:132-133 | With stock 0, raising a line caps it at 0 units instead of removing it. |
| StorePage.Seeded | assets/js/store-page.js:36-46 | The seeded products are the five demo products in order. |
| StorePage.SeededFacts | assets/js/store-page.js:38-45 | Every demo product has positive price and stock. Ids come from the clock, so two seeded in the same millisecond share one. |
| StorePage.Purchase | assets/js/store-page.js:196-201 | The database after a successful checkout; `StorePage.PurchaseEffect` states what changes and what does not. |
| StorePage.PurchaseEffect | assets/js/store-page.js:196-201 | A purchase appends the order, advances the counter and adds the order to the buyer's history. Products, requests and other users are unchanged. |
| StorePage.StorePage.constructor | assets/js/store-page.js:16 | The page starts with the cart stored under the current key. |
| StorePage.StorePage.SaveCart | assets/js/store-page.js:26-30 | Writes the page's cart under the current key only. |
| StorePage.StorePage.AddToCart | assets/js/store-page.js:71-91 | Refuses a missing or sold-out product and a line already at the stock. Otherwise adds one unit, never above the stock, and saves. A refusal changes nothing. |
| StorePage.StorePage.ModifyCart | assets/js/store-page.js:126-139 | An absent id changes nothing. Otherwise the cart becomes the adjusted cart and is saved, and the clamp warning shows exactly when the new amount exceeds the stock. |
| StorePage.StorePage.RemoveFromCart | assets/js/store-page.js:142-147 | Removes exactly that key and saves. |
| StorePage.StorePage.CartSummary | assets/js/store-page.js:96-103 | The loop's count and total are the cart's item count and total. |
| StorePage.StorePage.SeedDemoProducts | assets/js/store-page.js:36-46 | An empty store gets the five demo products; a non-empty one is left alone. |
| StorePage.StorePage.VisitLine | assets/js/store-page.js:176-190 | One iteration of the loop does what `Checkout.StepLine` says, writing only products. |
| StorePage.StorePage.VisitCart | assets/js/store-page.js:175-193 | The loop over the cart does what `Checkout.RunLines` says, writing only products. |
| StorePage.StorePage.PlaceOrder | assets/js/store-page.js:196-201 | Saves the order and appends it to the buyer's history, as `Purchase` says. |
| StorePage.StorePage.Checkout | assets/js/store-page.js:150-233 | Without a session, for an unverified user or for an empty cart, nothing changes. A failing line leaves the earlier decrements and keeps the cart. Success writes the decrements, the order and the history, and empties the cart. |
| AuthRegister.RegisterChecks | assets/js/auth-register.js:26-53 | The six guards of the registration handler in order; `AuthRegister.RegisterVerdict` and `AuthRegister.GuardsInOrder` state their verdict. |
| AuthRegister.RegisterVerdict | assets/js/auth-register.js:26-54 | Each of the six messages is given exactly when all earlier guards pass and its own fails. Registration proceeds exactly when all pass. |
| AuthRegister.GuardsInOrder | assets/js/auth-register.js:26-54 | The six guards, run in order with early returns, give the first failing guard's message. |
| AuthRegister.RegisteredUserFound | assets/js/auth-register.js:57-73 | The account saved is the one its email then finds: role `user`, unverified, holding the code, with the password's digest and no orders. |
| AuthRegister.RegisterKeepsEmailsUnique | assets/js/auth-register.js:36-39 | A registration that passes the guards keeps emails unique. |
| AuthRegister.VerifyVerdict | assets/js/auth-register.js:88-96 | The code is accepted exactly when it is non-empty and equals the stored copy; an empty code gets its own message. |
| AuthRegister.VerifiedPatchEffect | assets/js/auth-register.js:99 | Verifying sets the flag and clears the code, and changes nothing else. |
| AuthRegister.RegisterPage.Register | assets/js/auth-register.js:26-73 | A failing guard changes nothing. Otherwise exactly one user is appended and the pending email and code are kept in session storage. |
| AuthRegister.RegisterPage.VerifyEmail | assets/js/auth-register.js:83-105 | A wrong code changes nothing. A match patches the pending user, if one exists, and clears both pending entries, so no code is accepted afterwards. |
| AuthRegister.RegisterPage.ResendCode | assets/js/auth-register.js:108-112 | Shows the stored code again, drawing no new one. |
| AuthLogin.LoginChecks | assets/js/auth-login.js:20-46 | The five guards of the login handler in order; `AuthLogin.LoginVerdict` and `AuthLogin.LoginGuardsInOrder` state their verdict. |
| AuthLogin.LoginVerdict | assets/js/auth-login.js:20-45 | Each message is given exactly when the earlier guards pass and its own fails. Sign-in succeeds exactly for a valid email, a non-empty matching password and a verified account. |
| AuthLogin.LoginGuardsInOrder | assets/js/auth-login.js:20-45 | The five guards, run in order with early returns, give the first failing guard's message. |
| AuthLogin.UnknownEmailLikeWrongPassword | assets/js/auth-login.js:30-40 | An unknown email and a wrong password get the same message. |
| AuthLogin.AdminCannotLogIn | assets/js/auth-login.js:20-23 | The bootstrap administrator's email is refused before anything else is checked. |
| AuthLogin.RedirectTarget | assets/js/auth-login.js:54 | Administrators go to `admin.html`, everyone else to `cuenta.html`. |
| AuthLogin.VerificationUnlocksLogin | assets/js/auth-login.js:42-45 | A fresh registration is refused as unverified and signs in after verification. |
| AuthLogin.LoginPage.Login | assets/js/auth-login.js:14-55 | A failing guard writes nothing. Success stores exactly the user's email and role as the session and redirects by role; carts are untouched. |
| AdminPage.AdminGate | assets/js/admin-page.js:15-19 | The console opens exactly for a session whose role is `admin`. |
| AdminPage.GateIgnoresDatabase | assets/js/admin-page.js:12-19 | The gate trusts the session's role even when the database disagrees. |
| AdminPage.AdminPatchesTouchOneField | assets/js/admin-page.js:86-106 | Renaming, verifying and changing the role each rewrite one field only. |
| AdminPage.FlipRole | assets/js/admin-page.js:103 | `admin` becomes `user`; every other role becomes `admin`. |
| AdminPage.FlipRoleTwice | assets/js/admin-page.js:103 | Toggling twice restores the role exactly when it was `admin` or `user`. |
| AdminPage.ToggleAdminTwice | assets/js/admin-page.js:102-106 | Toggling a user's role twice restores the user exactly when the role was `admin` or `user`. |
| AdminPage.ToggleVerifyUsesShownFlag | assets/js/admin-page.js:95-100 | The new flag is the negation of the flag shown on the page, so a stale page writes the same value twice. |
| AdminPage.CreateUserChecks | assets/js/admin-page.js:125-133 | The two guards of the console's create-user handler; `AdminPage.CreateUserVerdict` states their verdict. |
| AdminPage.CreateUserVerdict | assets/js/admin-page.js:125-133 | A user is created exactly when every field is filled and the email is unused; missing fields are reported first. |
| AdminPage.CreatedUserFound | assets/js/admin-page.js:135-145 | The created account is the one its email finds: verified, role `user`, no code, the temporary password. |
| AdminPage.CreateUserSkipsValidation | assets/js/admin-page.js:125-145 | The console accepts an email and phone the forms would refuse, and its temporary password fails the password rule. |
| AdminPage.CreateProductVerdict | assets/js/admin-page.js:212-215 | A product is created exactly when the title is non-empty and neither price nor stock is 0. |
| AdminPage.CreateProductBoundaries | assets/js/admin-page.js:212-215 | Zero stock or price is refused, but negative stock or price is accepted. |
| AdminPage.PendingSponsors | assets/js/admin-page.js:228 | The pending list holds exactly the requests whose status is `pending`, one entry per pending position. |
| AdminPage.PendingKeepsOrder | assets/js/admin-page.js:228 | The pending list keeps the requests' order: for a joined list it is the first part's pending requests followed by the second part's. |
| AdminPage.DecisionIgnoresPriorStatus | assets/js/admin-page.js:255-267 | Approving or rejecting sets the status whatever it was, and nothing else. |
| AdminPage.DecisionShrinksPending | assets/js/admin-page.js:255-267 | A decision shrinks the pending list by one exactly when the request was pending. |
| AdminPage.AdminPage.constructor | assets/js/admin-page.js:12-22 | The handlers are active exactly when the gate opens. |
| AdminPage.AdminPage.EditUser | assets/js/admin-page.js:86-93 | A cancelled or empty answer changes nothing; otherwise only the user's first name is patched. |
| AdminPage.AdminPage.ToggleVerify | assets/js/admin-page.js:95-100 | Patches the verified flag to the negation of the shown flag. |
| AdminPage.AdminPage.ToggleAdmin | assets/js/admin-page.js:102-106 | Patches the role to the flip of the shown role. |
| AdminPage.AdminPage.DeleteUser | assets/js/admin-page.js:108-115 | Deletes only when confirmed. |
| AdminPage.AdminPage.CreateUser | assets/js/admin-page.js:118-151 | A failing guard changes nothing; otherwise exactly the verified user with the temporary password is appended. |
| AdminPage.AdminPage.EditProduct | assets/js/admin-page.js:184-193 | A cancelled prompt changes nothing; otherwise only that product's stock is set to the answer. |
| AdminPage.AdminPage.DeleteProduct | assets/js/admin-page.js:195-202 | Deletes only when confirmed. |
| AdminPage.AdminPage.CreateProduct | assets/js/admin-page.js:204-222 | A failing guard changes nothing; otherwise exactly the new product, not featured, is appended. |
| AdminPage.AdminPage.DecideSponsor | assets/js/admin-page.js:255-267 | Sets the request's status; an unknown id writes nothing. |
| AdminPage.AdminPage.ApproveSponsor | assets/js/admin-page.js:255-260 | Sets the request's status to `active`. |
| AdminPage.AdminPage.RejectSponsor | assets/js/admin-page.js:262-267 | Sets the request's status to `rejected`. |

## Left out

- Rendering, event wiring, toasts, modals and the delayed redirects (`setTimeout`): they only display state. The login page's redirect is the returned page name.
- The chat widget (`assets/js/assistant.js`): a static keyword lookup outside the core. It is not part of this model.
- The PDF receipt (store-page.js:203-223): it only reads the order already saved. Its failure is caught and changes nothing.
- SHA-256 password hashing (database.js:14-20, shared.js:98-104) is the parameter `hash`; no property of the digest is assumed.
- JSON text and its parsing: the storage entry is the datatype `Stored`, whose `Absent` and `Corrupt` cases stand for what `readDB` falls back on. A parsed record without one of the lists is not modelled.
- A corrupt cart entry makes `JSON.parse` throw in `loadCart`. Cart entries are modelled as always well formed.
- `Math.random()` and the clock are parameters. The model does not promise that product, user and order ids are unique, and `StorePage.SeededFacts` shows two demo products sharing an id within one millisecond.
- Prices and stock are integers. Fractional prices, floating-point sums and `parseInt` returning `NaN` on a non-numeric prompt answer are not modelled.
- Concurrency. Handlers that await a digest (registration at auth-register.js:58, the console's create-user at admin-page.js:136, login at auth-login.js:35) can interleave with another handler in the same tab. A double submit is one case; two tabs sharing one local storage are another. The model runs each handler to completion. So `AuthRegister.RegisterKeepsEmailsUnique` and the unused-email half of `AdminPage.CreateUserVerdict` hold only for handlers that do not overlap. A double submit that passes both email guards before either save, and so stores two accounts with one email, is not captured.
- Trimming. Form fields are taken as the values the handlers use. Names, emails and phones are already trimmed (auth-register.js:18-21, auth-login.js:17, admin-page.js:120-123). Passwords are taken untrimmed, as the source reads them (auth-register.js:22-23, auth-login.js:18). `String.prototype.trim` itself is not modelled.
- The dashboard's periodic refresh (`setInterval`) and the rendering of the statistics: `Database.ComputeStats` is the value computed.
- `DB.init()` as run at every page start is modelled once, by `Database.Store.Init`.
- The `pendingEmail` variable declared and assigned in auth-register.js:13 and 71 is never read.
- The sponsor field the source stores as `expect` is named `expectation` here. The statistics key the source spells `activesponsors` is the field `activeSponsors`.
- `dbUser.orders \|\| []`: every stored user has an order list here, so the fallback never applies.
- `isLoggedIn` and the account drop-down: display only.
- StorePage.StorePage.Checkout: requires that a signed-in session's email is in the database. When it is not, `dbUser.verified` throws at store-page.js:160.
- StorePage.StorePage.ModifyCart: requires that a raised line's product exists. When it does not, `p.stock` throws at store-page.js:132.
- AdminPage.AdminPage.EditProduct: requires that the product exists. When it does not, `p.stock` throws at admin-page.js:186.
- StorePage.StorePage.VisitLine: requires a parsed storage entry, which holds after the checkout's user lookup succeeded.
- StorePage.StorePage.VisitCart: requires a parsed storage entry, for the same reason.
