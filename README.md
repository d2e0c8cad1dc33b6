# Sweet Frozen storefront core, in Dafny

This project models the browser-side business logic of the Sweet Frozen
ice-cream shop and proves properties of that model. The shop's JavaScript keeps
all of its state in `localStorage`. Here that state is class fields, and every
operation becomes a Dafny function, method or lemma.

The model covers:

- **Coupon engine** (`Coupons`):
  - active-coupon filtering and case-insensitive lookup;
  - the ordered validation chain, in which the first failing check wins;
  - discounts for percentage, fixed and shipping coupons;
  - per-user usage counts;
  - the sorted list of offers shown for a cart total.
- **Cart** (`CartStore.Cart`): a list of `{productId, qty}` rows, with add/merge,
  a clamped quantity update, remove, clear, count and subtotal. It keeps product
  ids unique.
- **Accounts** (`Auth.AccountStore`):
  - registration and login, with ordered rejection reasons;
  - the current login and its profile;
  - per-user address books that keep at most one default address;
  - an append-only order log;
  - one-time password-reset codes that expire.
- **Reviews** (`Reviews.ReviewStore`):
  - per-product lists and a rating histogram with a rounded mean;
  - one review per user and product;
  - the "helpful" counter;
  - the relative-time buckets and the star counts used for display.
- **Payment** (`Payment`):
  - the Luhn check-digit test (ISO/IEC 7812-1, Annex B), as a loop proved
    against a recursive definition;
  - the accept/decline decision of the mock gateway.
- **Small utilities**:
  - the e-mail pattern `^[^\s@]+@[^\s@]+\.[^\s@]+$`, characterised exactly (`Validation`);
  - the password-length and "required" checks (`Validation`);
  - path normalisation (`PathManager`);
  - product lookup and the replace-or-keep rule of the product loader (`Products`).

Shared modules model the JavaScript built-ins the code relies on:

- `Wrappers`: `Option` and `Result`;
- `Seqs`: `filter`, `find` and `findIndex`;
- `JsText`: the `\s` class, `trim`, ASCII `toUpperCase`, `startsWith` and `includes`;
- `JsNumber`: `Math.floor`, `Math.round`, truncation, `x|0` with its 32-bit
  wrap-around, and decimal `toString`;
- `Fetch`: the outcomes of a `fetch` of a JSON file.

Inputs the code takes from the environment are parameters:

- the SHA-256 digest is an uninterpreted `hash: string -> string`;
- `Math.random` is either a `rand: real` in [0, 1) or the random characters it
  produces (`token`, `suffix`);
- `Date.now()` and `new Date()` are integer millisecond timestamps (`now`) or
  the date text (`today`, `createdAt`, `updatedAt`);
- the logged-in user is an `Option<string>` e-mail, or the profile that
  `Auth.AccountStore.CurrentUser` returns.

Amounts and average ratings are exact `real`s; stored ratings are the integers
`parseInt` gives.

Two details of the code shape the model:

- `validateCoupon` looks the code up among active coupons only, so its
  "cancelled" branch is unreachable. The model keeps the branch and proves it
  dead.
- `setQty` uses `qty|0`, whose 32-bit wrap-around the model states explicitly.

cart.js and coupon.js compute no shipping fee, free-shipping threshold or grand
total; none is modelled.

`filter` results are stated through `Seqs.Positions`, the increasing list of
the indices whose element passes the test. A result "read at" those positions
holds every passing element as often as the input does, in input order.

## Model

| member | source | states |
|---|---|---|
| `Coupons.ActiveCoupons` | assets/js/coupon.js:39-49 | every listed coupon is in the catalogue, active and inside its window with both ends inclusive; every such coupon is listed; the result is the catalogue read at the positions of those coupons, so in catalogue order and each as often as it is listed there |
| `Coupons.GetCouponByCode` | assets/js/coupon.js:52-57 | a hit is an active coupon whose code equals the query ignoring ASCII case, and no earlier coupon matches; no hit exactly when no active coupon matches, so an inactive code reads as unknown |
| `Coupons.ValidateCoupon` | assets/js/coupon.js:77-144 | valid iff found, inside the window, at or above the minimum and under the usage limit; a valid result carries the looked-up coupon; an invalid one carries none; each rejection message fires exactly when the earlier checks passed and its own check fails; "cancelled" is never returned |
| `Coupons.CalculateDiscount` | assets/js/coupon.js:147-178 | never negative; 0 for no coupon or a non-positive amount; percentage is amount·value/100, capped only by a truthy maxDiscount; fixed is at most the order amount; shipping is at most the fee and capped by a truthy maxDiscount; an unknown type gives 0 |
| `Coupons.PercentageBounds` | assets/js/coupon.js:153-159 | a percentage discount never exceeds amount·value/100 nor a positive maxDiscount |
| `Coupons.ShippingCouponWithoutFee` | assets/js/coupon.js:169-171 | with a zero shipping fee a shipping coupon is worth 0 |
| `Coupons.LastUseExhausts` | assets/js/coupon.js:127-137 | once the count recorded by a successful use reaches the limit, the same code is rejected as limit reached |
| `Coupons.AnonymousUsageNeverLimits` | assets/js/coupon.js:60-65 | with the empty usage map of a logged-out visitor, "limit reached" only happens for a coupon whose limit is at most 0 |
| `Coupons.ExpiryBeforeMinimum` | assets/js/coupon.js:110-125 | an expired coupon is reported as expired even when the order is also below the minimum |
| `Coupons.TenPercentOfTwelveHundred` | assets/js/coupon.js:153-159 | 10% of 1200 with a 150 cap is 120 |
| `Coupons.Describe` | assets/js/coupon.js:210-237 | a definition, as the code builds it: no coupon gives `NoDescription`; the headline is "percent off" (with a cap when maxDiscount is truthy), "amount off", "free shipping" or the coupon's own text, by type; the minimum-order suffix appears iff minOrderAmount > 0 |
| `Coupons.NotBeforeTransitive` | assets/js/coupon.js:258-263 | the sort comparator's "not before" relation is transitive |
| `Coupons.InsertKeepsSorted` | assets/js/coupon.js:258-263 | inserting an offer into a list ordered by the comparator keeps it ordered |
| `Coupons.SortOffers` | assets/js/coupon.js:258-263 | the result is a permutation of the input and is ordered usable-first, then by descending discount |
| `Coupons.Annotated` | assets/js/coupon.js:246-257 | one offer per active coupon, in catalogue order, each with its description, canUse equal to validation, reason set iff unusable, usageLeft = limit − used, and a discount computed with shipping fee 0 |
| `Coupons.MakeOffer` | assets/js/coupon.js:246-257 | one entry of the map: the coupon, its description, canUse from validation, the reason when unusable, usageLeft = limit − used, and the discount with shipping fee 0 when usable, else 0 |
| `Coupons.MakeOfferFaithful` | assets/js/coupon.js:246-257 | the offer built for an active coupon carries that coupon and is faithful to it |
| `Coupons.RankedOffers` | assets/js/coupon.js:243-263 | a permutation of the annotated offers (same multiset), ordered by the comparator, with every entry still faithful to its coupon |
| `Coupons.RankedCoversActive` | assets/js/coupon.js:243-263 | sorting drops no coupon: every active coupon has an offer in the ranked list |
| `Coupons.PermutationCovers` | assets/js/coupon.js:258-263 | a permutation of offers made one per coupon still holds an offer for every one of those coupons |
| `Coupons.CouponEngine.LoadCoupons` | assets/js/coupon.js:12-36 | a delivered JSON array replaces the coupons and the cache; any other outcome falls back to the cached list |
| `Coupons.CouponEngine.UsageOf` | assets/js/coupon.js:60-65 | a logged-out visitor's usage is empty; a user's usage is their stored map, and empty when none is stored |
| `Coupons.CouponEngine.SaveUsage` | assets/js/coupon.js:68-74 | saving succeeds iff someone is logged in, and it then replaces exactly that user's map |
| `Coupons.CouponEngine.Validate` | assets/js/coupon.js:77-144 | validation against the stored coupons and the user's usage |
| `Coupons.CouponEngine.ApplyCoupon` | assets/js/coupon.js:181-207 | failure returns the validation's message, discount 0 and no coupon, and changes nothing; success returns the computed discount and the coupon, and raises that coupon's count in the user's map by exactly 1, leaving every other entry alone |
| `Coupons.CouponEngine.AvailableCoupons` | assets/js/coupon.js:240-264 | a permutation of the one-offer-per-active-coupon list, so every active coupon has its offer and none is repeated; usable offers come before unusable ones; usable ones come by descending discount; usageLeft = limit − used; canUse equals validation; unusable and shipping offers list discount 0 |
| `CartStore.IndexOf` | assets/js/cart.js:14 | the first row with that product id, or none when no row has it |
| `CartStore.Without` | assets/js/cart.js:27 | every remaining row has another product id and every such row remains; the result is the cart read at the positions of those rows, so in order and with nothing repeated or lost |
| `CartStore.ClampQty` | assets/js/cart.js:22 | the stored quantity is at least 1, and equals the truncated input when that is at least 1 and inside the 32-bit range |
| `CartStore.TotalQtyUpdate` | assets/js/cart.js:11 | replacing one row changes the quantity total by the difference of the two quantities |
| `CartStore.TotalQtyAppend` | assets/js/cart.js:11 | appending a row adds its quantity to the total |
| `CartStore.WithoutKeepsUnique` | assets/js/cart.js:27 | removing rows keeps product ids unique |
| `CartStore.Cart.Count` | assets/js/cart.js:11 | the result is the sum of the quantities |
| `CartStore.Cart.Subtotal` | assets/js/cart.js:31-34 | the result is the sum of price(id)·qty over the rows |
| `CartStore.Cart.Add` | assets/js/cart.js:12-17 | an existing row's qty grows by qty with the other rows unchanged; otherwise `{productId, qty}` is appended; the total grows by qty; unique ids are kept |
| `CartStore.Cart.SetQty` | assets/js/cart.js:18-24 | an absent product changes nothing; otherwise only that row changes, to the clamped quantity; unique ids are kept |
| `CartStore.Cart.Remove` | assets/js/cart.js:25-29 | exactly the other rows remain, in order; an absent id changes nothing; unique ids are kept |
| `CartStore.Cart.Clear` | assets/js/cart.js:30 | the cart is empty and its count is 0 |
| `Auth.UserIndex` | assets/js/auth.js:109 | the first user with that e-mail, or none when no user has it |
| `Auth.AddressIndex` | assets/js/auth.js:251 | the first address with that id, or none when no address has it |
| `Auth.ClearDefaults` | assets/js/auth.js:230 | same length; no address is the default; nothing else changes |
| `Auth.Merge` | assets/js/auth.js:260-264 | the spread `{...old, ...addressData, updatedAt}`: a field given in the input overrides, the others are kept, and updatedAt is set |
| `Auth.AfterDelete` | assets/js/auth.js:284-289 | one address fewer; the others keep order and fields; when the default was removed and some remain, the first remaining one is the default; when a non-default one was removed, the others are exactly as before |
| `Auth.AfterDeleteKeepsOneDefault` | assets/js/auth.js:280-289 | deleting an address keeps "at most one default" |
| `Auth.FilterKeepsOneDefault` | assets/js/auth.js:152 | the older removal keeps "at most one default" |
| `Auth.FlaggedPushCanDuplicateDefault` | assets/js/auth.js:144-145 | the older `addAddress` can leave a book with two defaults |
| `Auth.LoginOutcome` | assets/js/auth.js:107-115 | "user not found" iff no user has the e-mail; "invalid credentials" iff the first such user's digest differs from hash(password); when the first such user's digest matches, the result is success with that user's id and name |
| `Auth.PlainPasswordNeverLogsIn` | assets/js/auth.js:112 | a user with no digest is always refused as invalid credentials |
| `Auth.SeedUsersNeverLogIn` | assets/js/auth.js:35-63 | no login against the demo user list succeeds |
| `Auth.SixDigitCode` | assets/js/auth.js:176 | the reset code is in 100000..999999 |
| `Auth.ResetCodeText` | assets/js/auth.js:176 | its text has six digits and reads back as the code |
| `Auth.AccountStore.Register` | assets/js/auth.js:85-105 | rejects an invalid e-mail, then a short password, then a taken e-mail, changing nothing; a valid e-mail that nobody uses with a strong password always succeeds; success appends exactly one user with the e-mail and hash(password) and logs them in; unique e-mails and single defaults are kept, for calls that do not overlap |
| `Auth.AccountStore.Login` | assets/js/auth.js:107-115 | the outcome of the login rules; the current login changes only on success |
| `Auth.AccountStore.Logout` | assets/js/auth.js:117 | nobody is logged in |
| `Auth.AccountStore.CurrentUser` | assets/js/auth.js:119-128 | none when nobody is logged in or the e-mail has no user; otherwise that user's profile, which has no `pass` field |
| `Auth.AccountStore.DemoLogin` | assets/js/auth.js:197-207 | a known e-mail becomes the current login without any password check and its profile is returned; an unknown one gives none and changes nothing |
| `Auth.AccountStore.AddAddress` | assets/js/auth.js:140-147 | without a resolvable login nothing changes; otherwise `{id, ...addr}` is appended to that user's book; single defaults are kept unless the entry is flagged default; e-mails stay unique |
| `Auth.AccountStore.RemoveAddress` | assets/js/auth.js:148-154 | succeeds iff the login resolves; that user's book then keeps exactly the addresses with another id; e-mails stay unique |
| `Auth.AccountStore.AddUserAddress` | assets/js/auth.js:210-241 | the first address, or one flagged default, becomes the default; a flagged one clears the others first; single defaults are kept; e-mails stay unique |
| `Auth.AccountStore.UpdateUserAddress` | assets/js/auth.js:243-270 | an unknown id changes nothing; a flagged update clears every default before the merge; only that entry is merged; single defaults are kept; e-mails stay unique |
| `Auth.AccountStore.DeleteUserAddress` | assets/js/auth.js:272-295 | an unknown id changes nothing; otherwise exactly that address is removed, and a removed default passes to the first remaining address; e-mails stay unique |
| `Auth.AccountStore.SaveOrder` | assets/js/auth.js:161-165 | the log grows by the order at the end; each e-mail's order list grows by it exactly when it is theirs |
| `Auth.AccountStore.ListOrders` | assets/js/auth.js:166-169 | every listed order has that e-mail and every such order is listed; the result is the log read at the positions of those orders, so in insertion order and each once per saving |
| `Auth.AccountStore.CreateResetCode` | assets/js/auth.js:173-180 | an unknown e-mail is refused; otherwise a six-digit code valid for ten minutes is stored for that e-mail |
| `Auth.AccountStore.ResetPassword` | assets/js/auth.js:181-194 | a missing or expired record, a wrong code, a short password and an unknown user are refused in that order and change nothing; success stores hash(newPass) and deletes the record, so a code works once among calls that do not overlap; e-mails stay unique |
| `Reviews.ProductReviews` | assets/js/reviews.js:30-32 | every listed review is of that product and every such review is listed; the result is the store read at the positions of those reviews, so in stored order with nothing repeated or lost |
| `Reviews.ProductReviewsOfNew` | assets/js/reviews.js:105 | a review put in front of the store is in front of its product's list, and the other lists are unchanged |
| `Reviews.Bump` | assets/js/reviews.js:66 | only the rating's key is touched; a number there grows by one, NaN stays NaN, and a key outside the histogram becomes NaN |
| `Reviews.Distribution` | assets/js/reviews.js:61-67 | the histogram the `forEach` builds: the five zero buckets bumped once per review, in order |
| `Reviews.DistributionCounts` | assets/js/reviews.js:61-67 | with ratings in 1..5 the histogram has the keys 1..5 and bucket k counts the reviews rated k |
| `Reviews.CountsAddUp` | assets/js/reviews.js:61-67 | with ratings in 1..5 the per-rating counts add up to the number of reviews |
| `Reviews.BucketsSumToTotal` | assets/js/reviews.js:61-67 | with ratings in 1..5 the five buckets are numbers that sum to totalReviews |
| `Reviews.RatingSumBounds` | assets/js/reviews.js:65 | with ratings in 1..5 the rating sum lies between n and 5n |
| `Reviews.RoundTenth` | assets/js/reviews.js:45 | the result is within 0.05 of its input and is a multiple of 0.1, i.e. has one decimal |
| `Reviews.ProductRating` | assets/js/reviews.js:40-46 | a product without reviews rates 0; a reviewed one rates within 0.05 of the exact mean of its ratings, and every rating is a multiple of 0.1 (one decimal) |
| `Reviews.ProductRatingBounds` | assets/js/reviews.js:40-46 | with ratings in 1..5 a reviewed product's rating lies in 1..5 |
| `Reviews.DaysBetween` | assets/js/reviews.js:172 | the floor of the elapsed time in whole days |
| `Reviews.Relative` | assets/js/reviews.js:174-179 | exactly one bucket per day count: 0 is today, 1 is yesterday, up to 7 (and negative) are days, 8..30 are 1..4 weeks, 31..365 are 1..12 months, and above that ⌊d/365⌋ ≥ 1 years |
| `Reviews.FormatRelativeTime` | assets/js/reviews.js:169-180 | the bucket of the whole days elapsed between the date and now |
| `Reviews.RecentDates` | assets/js/reviews.js:169-175 | less than a day is today; one to two days is yesterday |
| `Reviews.YellowIsRounded` | assets/js/reviews.js:124-137 | for a non-negative rating the yellow stars number `Math.round(rating)` |
| `Reviews.StarCountsInRange` | assets/js/reviews.js:124-126 | for a rating in 0..5 the full, half and empty counts are non-negative and add to 5 |
| `Reviews.GenerateStarRating` | assets/js/reviews.js:123-146 | the full and half stars are yellow and come first, followed by gray ones; a rating in 0..5 gives exactly five stars |
| `Reviews.PrependKeepsOneEach` | assets/js/reviews.js:84-105 | a review by an author with none for that product keeps one review per user and product |
| `Reviews.NewReview` | assets/js/reviews.js:92-103 | the review belongs to the product and the user, with id `rev-` + now, the user's name, the given date, no helpful votes and the verified flag; its rating is the truncated input and its title and comment are the trimmed inputs |
| `Reviews.ReviewStore.GetProductReviews` | assets/js/reviews.js:30-32 | every listed review is a stored one of that product and every such review is listed, in stored order with nothing repeated or lost |
| `Reviews.ReviewStore.GetProductReviewStats` | assets/js/reviews.js:49-74 | the count of the product's reviews, its rounded mean and the histogram over them; no reviews give 0, 0 and all-zero buckets |
| `Reviews.ReviewStore.AddReview` | assets/js/reviews.js:77-109 | no login refuses; an existing review by that user for that product refuses; otherwise the new review goes in front and the older ones follow in order; one review per user and product is kept |
| `Reviews.ReviewStore.MarkReviewHelpful` | assets/js/reviews.js:112-120 | an unknown id gives 0 and changes nothing; otherwise the first review with that id gains one vote and the new count is returned |
| `Payment.DigitsOnly` | assets/js/payment.js:2 | only digits remain and every digit is kept; the result is the input read at the positions of its digits, so in input order and each as often as it occurs |
| `Payment.ContributionIsDigitSum` | assets/js/payment.js:6 | each digit contributes 0..9, and a doubled digit contributes the digit sum of its double |
| `Payment.ContributionInjective` | assets/js/payment.js:5-7 | distinct digits contribute distinct amounts at the same position |
| `Payment.Luhn` | assets/js/payment.js:3-8 | the checksum: counting from the rightmost digit, every second digit is doubled, less 9 when above 9, and all are summed |
| `Payment.CardAccepted` | assets/js/payment.js:9 | the digits' checksum is 0 mod 10 and there are at least 12 digits |
| `Payment.LuhnCheck` | assets/js/payment.js:1-10 | the right-to-left loop accepts iff the Luhn sum of the digits is 0 mod 10 and there are at least 12 digits |
| `Payment.ShortNumbersDeclined` | assets/js/payment.js:9 | fewer than 12 digits are declined whatever the checksum |
| `Payment.SeparatorsIgnored` | assets/js/payment.js:2 | inserting a non-digit does not change the digits checked |
| `Payment.SingleDigitErrorDetected` | assets/js/payment.js:4-9 | changing any single digit changes the Luhn sum modulo 10 |
| `Payment.ProcessPayment` | assets/js/payment.js:11-16 | declined exactly when the card number fails the Luhn test, whatever the amount, name, expiry or CVV; an approval's transaction id starts with `TXN-` |
| `Validation.IsEmail` | assets/js/validation.js:1 | no white space, exactly one `@` with text before it, and a domain after it with a `.` that is neither its first nor its last character |
| `Validation.StrongPassword` | assets/js/validation.js:2 | at least six characters |
| `Validation.Required` | assets/js/validation.js:3 | the trimmed text form of the value is not empty |
| `Validation.EmailCharacterisesPattern` | assets/js/validation.js:1 | the e-mail check holds iff the text is a non-empty run without spaces or `@`, then `@`, a non-empty run, a `.` and a non-empty run |
| `Validation.EmailMatchesPattern` | assets/js/validation.js:1 | every accepted e-mail splits as the pattern says |
| `Validation.PatternIsEmail` | assets/js/validation.js:1 | every text of that shape is accepted |
| `Validation.RequiredMeaning` | assets/js/validation.js:3 | a value is required-present iff it is text with a non-space character or a non-zero number |
| `Seqs.FilterAtPositions` | assets/js/cart.js:27 | `filter` keeps exactly the elements at `Positions`: the result is the input read at those indices |
| `Seqs.PositionsSorted` | assets/js/cart.js:27 | the positions strictly increase, so `filter` keeps input order and lists no element position twice |
| `Seqs.PositionsSatisfy` | assets/js/cart.js:27 | every listed position is inside the input and passes the test |
| `Seqs.PositionsComplete` | assets/js/cart.js:27 | every position whose element passes the test is listed, so `filter` loses nothing |
| `Seqs.FilterMultiplicity` | assets/js/cart.js:27 | each passing value occurs in the result as often as in the input; every other value does not occur |
| `JsText.TrimEmptyIffBlank` | assets/js/validation.js:3 | trimming leaves nothing exactly when every character is whitespace |
| `PathManager.Asset` | assets/js/pathManager.js:18-26 | a `./` or `../` path is unchanged; `/x` becomes `./x`; any other path gets `./` in front; the result always begins with `./` or `../` |
| `PathManager.AssetIdempotent` | assets/js/pathManager.js:18-26 | normalising twice is normalising once |
| `PathManager.Page` | assets/js/pathManager.js:29-37 | the result always begins with `./` or `../` |
| `PathManager.PageIsAsset` | assets/js/pathManager.js:29-37 | page paths are normalised exactly as asset paths |
| `PathManager.GetBasePath` | assets/js/pathManager.js:8-15 | both branches give `./` |
| `PathManager.BasePath` | assets/js/pathManager.js:3-6 | the base path is `./` whether or not the host is GitHub Pages |
| `Products.GetProduct` | assets/js/products.js:40-42 | a hit is a listed product with that id, and the first one; `null` exactly when no product has the id |
| `Products.Loaded` | assets/js/products.js:15-33 | a delivered JSON array replaces the list; any failure keeps the current one |
| `Products.Catalog.Get` | assets/js/products.js:40-42 | lookup in the current list |
| `Products.Catalog.Load` | assets/js/products.js:15-33 | the list becomes what the loading rule gives |
| `Products.LookupFindsListed` | assets/js/products.js:40-42 | with unique ids every listed product is found by its id |
| `Products.BundledIsUnique` | assets/js/products.js:3-12 | the eight bundled products have distinct ids |

## Left out

- Loading users and reviews from JSON, and `initializeCoupons`, are I/O. The
  model keeps only the replace-or-fall-back rule for coupons and products,
  with the `fetch` outcome as an input.
- `storage.js` is not part of this model. Its entries are in-memory fields.
  The dual `USERS_DATA`/storage copy in auth.js is one `users` field, so the
  aliasing between the in-memory array and the stored one is not captured.
- Thai message texts and the `toLocaleString`/`toLocaleDateString` formatting
  are distinct message tags, not strings.
- The 600 ms delay in `processPayment`, `requireLogin`'s redirect,
  `generateInteractiveStarRating`, `setRating`, `redirect`, `safeFetch`, the
  `size` class of the star markup and `listAddresses` are presentation or
  navigation. `listAddresses` only reads `CurrentUser`.
- The SHA-256 digest and its `btoa` fallback are the uninterpreted `hash`.
  `Math.random` ids, codes and transaction suffixes are inputs. Clocks are
  integer timestamps.
- `getAvailableCoupons` calls `Cart.total()`, which cart.js never defines. The
  model takes the cart total as a parameter.
- `Coupons.SortOffers`: does not claim that the order among equally ranked
  offers matches the engine's `Array.prototype.sort`. It proves a permutation
  that respects the comparator.
- `Reviews.ReviewStore.AddReview`: `parseInt(rating)` is modelled as truncation
  of a number. String inputs and `NaN` are not modelled.
- `Reviews.ProductRating` and `Reviews.ReviewStore.GetProductReviewStats`:
  `Math.round(avg * 10) / 10` is computed over exact reals, not IEEE doubles.
- `Reviews.Bump`: a rating that is not an integer key is not modelled, because
  ratings are integers here.
- `Reviews.ReviewStore.MarkReviewHelpful`: `helpful` is always an integer here,
  so the `|| 0` default for a missing count is not modelled.
- `Auth.AccountStore.DemoLogin`: the reload of the user list that `demoLogin`
  starts with is not modelled. It works on the current `users`.
- `Auth.AccountStore.CurrentUser`: the Thai `name` and other profile fields
  are copied as they are. `paymentMethods` of the seed users is not modelled.
- `CartStore.Cart.Add`: the default `qty = 1` of `add` is not modelled; the
  caller always passes an integer quantity, and a non-numeric `qty` (string
  concatenation in JavaScript) is not modelled.
- `CartStore.Cart.Subtotal`: the price lookup is a total function; a product
  the lookup does not know (JavaScript `undefined`, giving `NaN`) is not
  modelled.
- Default arguments are explicit parameters: `orderAmount = 0` of
  `validateCoupon`, `shippingFee = 0` of `calculateDiscount` and `applyCoupon`,
  and the e-mail `somchai@email.com` of `demoLogin` are not filled in by the
  model.
- `Auth.Merge`: an `AddressInput` carries only `id`, `details` and
  `isDefault`. Any other field a caller spreads in with `...addressData`
  (such as `createdAt` or `updatedAt`) is not carried.
- `Auth.AccountStore.Register`, `Auth.AccountStore.Login` and
  `Auth.AccountStore.ResetPassword`: each call is atomic here. In auth.js they
  `await` the digest between the check and the write, so two overlapping calls
  can both pass the check: two registrations with one e-mail both append, and
  one reset code can succeed twice. A code created for another e-mail during
  the await of `resetPassword` is lost when it writes back its earlier snapshot.
- `Coupons.Describe`: the tags separate no coupon from a described one. The
  text for a custom-type coupon with an empty description and no minimum is
  `''`, the same as for no coupon; the model does not render texts.
- `JsText.ToUpper`: only ASCII letters map to upper case. JavaScript's full
  Unicode case mapping is not modelled.
- String lengths count code points where JavaScript counts UTF-16 units. This
  only matters for `strongPassword` on characters outside the Basic
  Multilingual Plane.
- Floating-point rounding of prices, discounts and subtotals is not modelled.
  Amounts are exact reals.
- The product names, descriptions, images, ingredients and allergens of the
  bundled catalogue are not modelled. Only id, price, category, stock and
  calories are kept.
