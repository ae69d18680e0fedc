# LUXE storefront: a verified model of the shop's logic

This project models, in Dafny, the logic of a small client-side fashion
storefront written as React components: the session controller that holds the
current page, cart, wishlist and login; the catalogue page's search, facet
filters and sort; cart and checkout pricing; the checkout step flow; the login
and signup form checks; the navigation bar's search suggestions and actions;
the product page's selection state and discount badge; and the admin
dashboard's figures. Everything the components compute from their state is a
function with a contract. Everything they change step by step is a class whose
methods state the whole new state. Lemmas relate the two and prove the
properties the pages rely on.

Modules, one per source component, plus shared helpers:

- `Types` (`types.dfy`): the records (`Product`, `CartItem`, `User`, `Order`, ...) and JavaScript idioms (`||` on optional text, `xs[0]`, `slice`, truthiness).
- `Text`: lower-casing, `includes`, `trim`, `split('@')[0]` and the UTF-16 `length` of a string.
- `Seqs`: `filter` and the subsequence relation.
- `Storefront`: `src/App.tsx`.
- `CartLines`: the cart and wishlist updates inside `src/App.tsx`.
- `ProductListing`, `CartPricing`, `Checkout`, `Auth`, `Navbar`, `ProductDetails` and `Admin`: one module per page component.

Modelling choices:

- Prices are whole rupees (`int`). Tax, ratings and order totals are exact `real`s.
- JavaScript `undefined` is `None` of an `Option`.
- `Array.prototype.sort` is a stable insertion sort keyed by the comparator's rank.
- `Math.round` is `floor(x + 0.5)`.
- Lower-casing maps ASCII `A`–`Z` only. `\s` and `trim` use the ECMAScript white-space and line-terminator set.

Where the project's design description and the code differ, the model follows the code:

- A quantity update does not clamp to 1. Only the cart page's minus button does (`src/App.tsx:215-221`).
- Shipping is free only strictly above 4000 (`src/components/CartPage.tsx:26`).
- The total is not monotone in quantity (`CartPricing.TotalNotMonotone`).
- Placing an order only empties the cart. No `Order` record is created (`src/App.tsx:239-245`).

## Model

| member | source | states |
|---|---|---|
| Types.First | src/App.tsx:187-208 | `xs[0]` is defined exactly for a non-empty list and is its first element |
| Types.OrElse | src/App.tsx:190-191 | `a \|\| b` on optional text: `a` when it is truthy (present and non-empty), otherwise `b` |
| Types.Take | src/App.tsx:324-326 | `slice(0, n)` has `min(n, length)` elements and they are the list's first ones |
| Text.Lower | src/components/ProductListingPage.tsx:67-73 | `toLowerCase` keeps the length and maps each character by the letter map |
| Text.Includes | src/components/ProductListingPage.tsx:69-72 | `includes` holds exactly when the needle occurs at some position of the haystack |
| Text.IncludesEmpty | src/components/AdminDashboard.tsx:241-244 | every string includes the empty string |
| Text.Utf16Length | src/components/AuthPages.tsx:50 | `length` counts UTF-16 code units: between the number of characters and twice it |
| Text.Utf16LengthIsCount | src/components/AuthPages.tsx:50 | the code-unit count equals the character count exactly when every character lies in the Basic Multilingual Plane |
| Text.TrimStart | src/components/Navbar.tsx:53 | the result is a suffix; exactly the dropped characters are leading white space |
| Text.TrimEnd | src/components/Navbar.tsx:53 | the result is a prefix; exactly the dropped characters are trailing white space |
| Text.Trim | src/components/Navbar.tsx:53 | the trimmed text is no longer than the input, starts and ends with a non-space character when non-empty, and is the input itself when it holds no white space |
| Text.TrimEmptyIff | src/components/Navbar.tsx:66-70 | a string trims to empty exactly when every character is white space |
| Text.BeforeAt | src/App.tsx:251 | `split('@')[0]` is the prefix before the first '@', holds no '@', and is followed by '@' when shorter than the string |
| Seqs.Filter | src/components/ProductListingPage.tsx:77-91 | `filter` keeps exactly the elements passing the test and is no longer than its input |
| Seqs.FilterCount | src/components/ProductListingPage.tsx:77-91 | each kept element keeps its number of occurrences; dropped ones have none |
| Seqs.FilterIsSubseq | src/components/ProductListingPage.tsx:77-91 | `filter` keeps the input order (its result is a subsequence) |
| Seqs.FilterAppend | src/App.tsx:150-164 | filtering distributes over concatenation |
| Seqs.FilterKeepsAll | src/components/ProductListingPage.tsx:65-75 | a test every element passes returns the list unchanged |
| Seqs.SubseqTrans | src/components/ProductListingPage.tsx:65-91 | a subsequence of a subsequence is a subsequence |
| ProductListing.MatchesQuery | src/components/ProductListingPage.tsx:66-74 | every product matches the empty query; a product whose lower-cased brand includes the lower-cased query matches |
| ProductListing.SearchFilter | src/components/ProductListingPage.tsx:65-75 | empty query: the list unchanged; otherwise exactly the products whose lower-cased name, description, category or brand includes the lower-cased query, in catalogue order |
| ProductListing.SearchShortcutAgrees | src/components/ProductListingPage.tsx:65-75 | the empty-query shortcut returns what filtering with the empty query would |
| ProductListing.FacetFilter | src/components/ProductListingPage.tsx:77-91 | every kept product is priced in [lo, hi] inclusive and has a selected brand when brands are selected; with "Sale" selected it has a truthy original price, otherwise a selected category when categories are selected; every product passing all tests is kept |
| ProductListing.CategoryOk | src/components/ProductListingPage.tsx:79-83 | no selected category admits every product; with "Sale" selected only a truthy original price passes; otherwise a passing product is in a selected category |
| ProductListing.PassesFacets | src/components/ProductListingPage.tsx:77-91 | nothing passes an empty range (lo > hi); with no category and no brand selected, a product passes exactly when its price lies in [lo, hi] |
| ProductListing.FacetIdentity | src/components/ProductListingPage.tsx:77-91 | no category, no brand and a range holding every price keep the whole list |
| ProductListing.SaleIgnoresOtherCategories | src/components/ProductListingPage.tsx:79-82 | once "Sale" is selected the other selected categories make no difference |
| ProductListing.FilteredIsSubseq | src/components/ProductListingPage.tsx:65-91 | search then facets keeps a subsequence of the catalogue |
| ProductListing.Insert | src/components/ProductListingPage.tsx:93-106 | one insertion step adds exactly one element to the multiset |
| ProductListing.InsertSorted | src/components/ProductListingPage.tsx:93-106 | inserting into a list sorted by the comparator keeps it sorted |
| ProductListing.Sort | src/components/ProductListingPage.tsx:93-106 | the sorted list is a permutation of the filtered list and is ordered by the comparator |
| ProductListing.RankOrder | src/components/ProductListingPage.tsx:93-106 | the comparator orders "price-low" by ascending price, "price-high" by descending price, "rating" by descending rating, and ranks every product equal for "featured" and "newest" |
| ProductListing.PriceLowAscending | src/components/ProductListingPage.tsx:95-96 | "price-low" gives non-decreasing prices |
| ProductListing.PriceHighDescending | src/components/ProductListingPage.tsx:97-98 | "price-high" gives non-increasing prices |
| ProductListing.RatingDescending | src/components/ProductListingPage.tsx:99-100 | "rating" gives non-increasing ratings |
| ProductListing.UnrankedSortKeepsOrder | src/components/ProductListingPage.tsx:101-104 | "featured" and "newest" leave the filtered list in its original order |
| ProductListing.SortStable | src/components/ProductListingPage.tsx:93-106 | products the comparator ties keep their relative order |
| ProductListing.InsertStable | src/components/ProductListingPage.tsx:93-106 | one insertion step keeps the relative order of tied products |
| ProductListing.Toggle | src/components/ProductListingPage.tsx:48-62 | the value is present afterwards exactly when it was absent; other values are unaffected; an absent value is appended |
| ProductListing.ToggleTwice | src/components/ProductListingPage.tsx:48-62 | toggling an absent value twice restores the list |
| ProductListing.ClearShownWithoutFilters | src/components/ProductListingPage.tsx:171 | as written, "Clear All Filters" shows on the untouched page, whose filters keep every product |
| ProductListing.ClearHiddenMeansUnfiltered | src/components/ProductListingPage.tsx:171-182 | corrected: when the button is hidden the facets keep every product in the slider's range |
| ProductListing.ListingFilters.constructor | src/components/ProductListingPage.tsx:31-36 | the page opens with the navigated category (when truthy), no brand, the 0–40000 range and "featured" |
| ProductListing.ListingFilters.CategoryChanged | src/components/ProductListingPage.tsx:42-46 | a truthy new category replaces the selection; a falsy one changes nothing |
| ProductListing.ListingFilters.ToggleCategory | src/components/ProductListingPage.tsx:48-54 | the category selection becomes its toggle; nothing else changes |
| ProductListing.ListingFilters.ToggleBrand | src/components/ProductListingPage.tsx:56-62 | the brand selection becomes its toggle; nothing else changes |
| ProductListing.ListingFilters.SetPriceRange | src/components/ProductListingPage.tsx:31 | the slider sets both bounds; nothing else changes |
| ProductListing.ListingFilters.SetSortBy | src/components/ProductListingPage.tsx:236-244 | the sort key changes; nothing else does |
| ProductListing.ListingFilters.ClearFilters | src/components/ProductListingPage.tsx:175-179 | both selections empty, the range back to 0–40000, the sort key kept; as written the button still shows afterwards, while under the corrected test it is hidden |
| ProductListing.ListingFilters.ClearButtonShownAsWritten | src/components/ProductListingPage.tsx:171 | as written, the button shows whenever the upper price bound is not 500 |
| ProductListing.ListingFilters.ClearButtonShownCorrected | src/components/ProductListingPage.tsx:171 | corrected: a hidden button means no category, no brand and the range at its default 0–40000 |
| ProductListing.ListingFilters.Shown | src/components/ProductListingPage.tsx:64-106 | a product is shown exactly when it is in the catalogue, matches the query (every product does when it is empty) and passes the facets; the list is ordered by the sort key |
| ProductListing.ListingFilters.ShownDrawnFromCatalogue | src/components/ProductListingPage.tsx:195 | "Showing X of Y": the shown products are a sub-multiset of the catalogue, so X ≤ Y |
| CartPricing.Subtotal | src/components/CartPage.tsx:22-25 | the sum over lines of price × quantity (see the lemmas below) |
| CartPricing.SubtotalConcat | src/components/CartPage.tsx:22-25 | the subtotal of two runs of lines is the sum of their subtotals |
| CartPricing.SubtotalSwapInvariant | src/components/CartPage.tsx:22-25 | a line contributes its price × quantity wherever it stands |
| CartPricing.SubtotalNonNegative | src/components/CartPage.tsx:22-25 | non-negative prices and quantities give a non-negative subtotal |
| CartPricing.Shipping | src/components/CartPage.tsx:26 | shipping is 0 exactly when the subtotal is above 4000, otherwise 100 |
| CartPricing.ShippingBoundary | src/components/CartPage.tsx:26 | 3999 and 4000 pay 100; 4001 pays nothing |
| CartPricing.ComputeTotals | src/components/CartPage.tsx:22-28 | subtotal as above; shipping 0 iff subtotal > 4000, else 100; tax × 100 = subtotal × 18; total = subtotal + shipping + tax |
| CartPricing.Tax | src/components/CartPage.tsx:27 | the tax is 18% of the subtotal |
| CartPricing.FreeShippingNoteShown | src/components/CartPage.tsx:159-163 | the free-shipping note shows exactly when the subtotal is above 4000, and then the "add more" hint does not |
| CartPricing.TotalAtLeastSubtotal | src/components/CartPage.tsx:27-28 | for non-negative prices and quantities the total is at least the subtotal |
| CartPricing.TotalNotMonotone | src/components/CartPage.tsx:26-28 | 4001 items at ₹1 cost less in total than 4000 |
| CartPricing.DecrementRequest | src/components/CartPage.tsx:97-104 | the minus button asks for `max(1, q − 1)`: never below 1, one less above 1 |
| CartPricing.IncrementRequest | src/components/CartPage.tsx:110-113 | the plus button asks for exactly `quantity + 1`, with no upper bound |
| CartPricing.DecrementUndoesIncrement | src/components/CartPage.tsx:96-113 | from a quantity of at least 1, minus after plus comes back to the same quantity |
| CartPricing.AddMoreHint | src/components/CartPage.tsx:164-168 | as written: the hint shows exactly below 4000, and the amount is what reaches 4000 |
| CartPricing.NoNoteAtThreshold | src/components/CartPage.tsx:159-168 | at exactly 4000 neither the free-shipping note nor the hint shows |
| CartPricing.NotesExclusive | src/components/CartPage.tsx:159-168 | the two notes never show together, and one shows at every subtotal but 4000 |
| CartPricing.HintFallsShort | src/components/CartPage.tsx:164-166 | as written, adding the hinted amount still pays shipping |
| CartPricing.CorrectedAddMoreHint | src/components/CartPage.tsx:164-166 | corrected: shown whenever shipping is charged; it names the least amount that makes shipping free |
| CartPricing.View | src/components/CartPage.tsx:30-45 | an empty cart shows the empty state; any other shows its lines and totals |
| CartLines.ResolveColor | src/App.tsx:190 | no colour exactly when none is given (or it is empty) and the product has no colours; otherwise the given colour or the product's first |
| CartLines.ResolveSize | src/App.tsx:191 | no size exactly when none is given (or it is empty) and the product has no sizes; otherwise the given size or the product's first |
| CartLines.KeyIndex | src/App.tsx:187-192 | `findIndex`: −1 exactly when no line has the key, otherwise the first line that has it |
| CartLines.AddLine | src/App.tsx:181-213 | a matching line (resolved colour and size) grows by the quantity and nothing else changes; otherwise exactly one line is appended |
| CartLines.AddKeepsKeysUnique | src/App.tsx:181-213 | adding keeps every (id, colour, size) key on at most one line |
| CartLines.AddSubtotal | src/App.tsx:181-213 | adding raises the subtotal by the line's price × the quantity |
| CartLines.AddTwiceMerges | src/App.tsx:181-213 | adding the same variant twice gives one line with the summed quantity |
| CartLines.SetQuantity | src/App.tsx:215-221 | every line of the product, whatever its variant, takes the new quantity unclamped; others and the length are unchanged |
| CartLines.UpdateReachesOtherVariants | src/App.tsx:218 | an update by id reaches every colour and size of that product |
| CartLines.UpdateKeepsKeysUnique | src/App.tsx:215-221 | updating keeps keys unique |
| CartLines.RemoveProduct | src/App.tsx:223-224 | no line of the product is left, every other line stays, in order |
| CartLines.RemoveKeepsOtherLines | src/App.tsx:223-224 | every other line keeps its number of occurrences |
| CartLines.RemoveKeepsKeysUnique | src/App.tsx:223-224 | removing keeps keys unique |
| CartLines.PositiveQuantitiesPreserved | src/App.tsx:181-224 | adding or setting positive amounts and removing keep every quantity positive |
| CartLines.RemoveFromWishlist | src/App.tsx:166-174 | the id is gone, every other entry stays, in order |
| CartLines.ToggleWishlist | src/App.tsx:150-164 | membership flips; an absent product is appended; a present one is removed with all entries of its id |
| CartLines.ToggleWishlistTwice | src/App.tsx:150-164 | toggling an absent product twice restores the wishlist |
| CartLines.WishlistStaysDistinct | src/App.tsx:150-174 | toggling and removing keep each id at most once |
| Storefront.GuardDecision | src/App.tsx:106-122 | profile or admin while logged out redirects to login; admin without the admin role is refused; everything else is allowed |
| Storefront.GuardOnlyProtectsTwoPages | src/App.tsx:106-122 | only the profile and admin pages are ever redirected or refused |
| Storefront.MockLoginUser | src/App.tsx:249-254 | the mock user is admin exactly when the e-mail includes "admin" and is named by the text before '@' |
| Storefront.AdminLoginPassesGuard | src/App.tsx:247-261 | after an admin login the guard lets the user into the dashboard |
| Storefront.FindLineIndex | src/App.tsx:187-192 | the loop returns `findIndex` over the cart |
| Storefront.FindProduct | src/App.tsx:323 | `find` returns the first catalogue product with the selected id (no earlier product has it), or none when no product has it |
| Storefront.SameCategory | src/App.tsx:324-325 | nothing qualifies when the selection is unknown; the selected product never qualifies; all qualifying products share one category |
| Storefront.RelatedProducts | src/App.tsx:323-326 | the first min(4, n) of the n other products of the selected product's category, in catalogue order; none when the selection is unknown |
| Storefront.FeaturedProducts | src/App.tsx:328 | exactly the featured products, in catalogue order |
| Storefront.App.constructor | src/App.tsx:34-43 | home page, nothing selected, empty cart and wishlist, logged out, login mode |
| Storefront.App.Navigate | src/App.tsx:106-138 | redirect, refusal or page change as the guard decides; the category is kept only for products, the search only for products without a truthy category; cart, wishlist and login never change |
| Storefront.App.ShowPage | src/App.tsx:364-466 | the callbacks that set the page directly ("Go to Home" at 364, product-page back at 439, "Continue Shopping" at 459, "Back to Cart" at 466) change only the page and keep category and search |
| Storefront.App.Search | src/App.tsx:140-148 | the query is set, the category cleared, and the products page shown |
| Storefront.App.ToggleWishlist | src/App.tsx:150-164 | the wishlist becomes its toggle; nothing else changes |
| Storefront.App.RemoveFromWishlist | src/App.tsx:166-174 | the wishlist loses the id; nothing else changes |
| Storefront.App.ViewProduct | src/App.tsx:176-179 | the product is selected and its page shown |
| Storefront.App.AddToCart | src/App.tsx:181-213 | the cart becomes the add-line result; nothing else changes; keys stay unique |
| Storefront.App.UpdateCartQuantity | src/App.tsx:215-221 | the cart becomes the set-quantity result; nothing else changes |
| Storefront.App.RemoveFromCart | src/App.tsx:223-226 | the cart loses the product; nothing else changes |
| Storefront.App.Checkout | src/App.tsx:228-237 | checkout only when logged in, else the login page |
| Storefront.App.PlaceOrder | src/App.tsx:239-241 | the cart is emptied; nothing else changes yet |
| Storefront.App.OrderRedirectElapsed | src/App.tsx:242-244 | the delayed redirect shows the home page |
| Storefront.App.Login | src/App.tsx:247-271 | the mock user is logged in and lands on admin or home by role |
| Storefront.App.Signup | src/App.tsx:273-297 | the new user with the chosen role is logged in and lands on admin or home by role |
| Storefront.App.LogoutClick | src/App.tsx:299-302 | the confirmation opens |
| Storefront.App.LogoutConfirm | src/App.tsx:304-313 | user and login flag cleared, home shown, confirmation closed; cart and wishlist kept |
| Storefront.App.LogoutCancel | src/App.tsx:315-317 | the confirmation closes |
| Storefront.App.ToggleAuthMode | src/App.tsx:319-321 | login and signup modes swap |
| Storefront.AccessDeniedUnreachable | src/App.tsx:345-373 | while the handlers keep the invariant, the admin page's second access check never shows "Access Denied" |
| Storefront.CartScenario | src/App.tsx:181-213 | 2 then 1 of one variant make one line of 3 (subtotal 3000 at ₹1000); another colour makes a second line |
| Checkout.Available | src/components/CheckoutPage.tsx:52-267 | nothing is offered on the confirmation; the fields can be edited only in the address step; "Place Order" is offered only in the payment step |
| Checkout.Next | src/components/CheckoutPage.tsx:41-50 | success comes only from payment by "Place Order"; payment only from address by "Continue" (or a payment choice); nothing is offered on success |
| Checkout.SuccessIsFinal | src/components/CheckoutPage.tsx:52-70 | no sequence of clicks leaves the confirmation |
| Checkout.PaymentNeedsPlaceOrder | src/components/CheckoutPage.tsx:45-50 | from payment, the confirmation needs a "Place Order" click |
| Checkout.SuccessNeedsBothSteps | src/components/CheckoutPage.tsx:41-50 | from the start, the confirmation needs "Continue" and, later, "Place Order" |
| Checkout.CheckoutFlow.constructor | src/components/CheckoutPage.tsx:19-30 | address step, card payment, the seven address fields empty, no timer, nothing handed over |
| Checkout.CheckoutFlow.OrderTotals | src/components/CheckoutPage.tsx:32-35 | the order's subtotal is the cart's; shipping is 0 iff above 4000, else 100; tax × 100 = subtotal × 18; total is their sum |
| Checkout.CheckoutFlow.InputChange | src/components/CheckoutPage.tsx:37-39 | one of the seven address fields takes the typed value; the form keeps exactly those fields; nothing else changes |
| Checkout.CheckoutFlow.ContinueToPayment | src/components/CheckoutPage.tsx:41-43 | address → payment with no field checked |
| Checkout.CheckoutFlow.ChoosePayment | src/components/CheckoutPage.tsx:215 | the payment method changes; nothing else does |
| Checkout.CheckoutFlow.PlaceOrder | src/components/CheckoutPage.tsx:45-47 | payment → success at once; a timer starts; no order is handed over yet |
| Checkout.CheckoutFlow.TimerFires | src/components/CheckoutPage.tsx:47-49 | the timer calls `onPlaceOrder` once, after the confirmation is shown |
| Auth.ValidateEmail | src/components/AuthPages.tsx:32-35 | an accepted address has at least five characters and does not start with '@' (its full meaning in the next row) |
| Auth.ValidateEmailMatchesPattern | src/components/AuthPages.tsx:32-34 | true exactly for L@D with L non-empty without white space or '@', and D without white space or '@' holding a '.' that is neither first nor last |
| Auth.MatchSplitsAtFirstAt | src/components/AuthPages.tsx:33 | any match of the pattern has its '@' at the first '@' of the string, with a plain domain holding an inner '.' |
| Auth.SplitMatches | src/components/AuthPages.tsx:33 | a string split at an '@' into a plain non-empty local part and a plain domain with an inner '.' matches the pattern |
| Auth.EmptyLocalPartRefused | src/components/AuthPages.tsx:33 | an address starting with '@' is refused |
| Auth.SimpleAddressAccepted | src/components/AuthPages.tsx:33 | "a@b.co" is accepted |
| Auth.Decide | src/components/AuthPages.tsx:36-70 | at most one of `onLogin`/`onSignup` fires, in its own mode, with the form's values, and only for a valid address and a password of at least 6 UTF-16 code units |
| Auth.AstralPasswordLongEnough | src/components/AuthPages.tsx:50 | three characters outside the Basic Multilingual Plane make a password of length 6, which passes |
| Auth.EmptyFieldsFirst | src/components/AuthPages.tsx:40-43 | an empty e-mail or password is refused before any other check |
| Auth.EmailThenPassword | src/components/AuthPages.tsx:45-53 | then a malformed address, then a password shorter than 6 |
| Auth.LoginIff | src/components/AuthPages.tsx:55-56 | login fires exactly when the shared checks pass; name and confirmation are ignored |
| Auth.SignupIff | src/components/AuthPages.tsx:57-68 | signup fires exactly when the shared checks pass, the trimmed name is non-empty and the confirmation matches; otherwise the first failing of the last two is reported |
| Auth.SignupWithDefaultRole | src/components/AuthPages.tsx:18-70 | a fresh form filled in without touching the role buttons submits `Decide` of its fields with role customer, and a signup that fires passes "customer" |
| Auth.AuthForm.constructor | src/components/AuthPages.tsx:18-24 | all fields empty, role customer |
| Auth.AuthForm.SetName | src/components/AuthPages.tsx:28-30 | only the name changes |
| Auth.AuthForm.SetEmail | src/components/AuthPages.tsx:28-30 | only the e-mail changes |
| Auth.AuthForm.SetPassword | src/components/AuthPages.tsx:28-30 | only the password changes |
| Auth.AuthForm.SetConfirmPassword | src/components/AuthPages.tsx:28-30 | only the confirmation changes |
| Auth.AuthForm.SelectRole | src/components/AuthPages.tsx:259-277 | only the role changes |
| Auth.AuthForm.Submit | src/components/AuthPages.tsx:36-70 | the outcome is the check chain's decision on the current form |
| Navbar.Recommend | src/components/Navbar.tsx:80-92 | nothing for a blank query; otherwise at most 6 products, each matching the untrimmed query, and exactly the first six that the products page's search keeps, in catalogue order |
| Navbar.RoleOf | src/App.tsx:355 | `currentUser?.role` is defined exactly when there is a user |
| Navbar.DesktopActions | src/components/Navbar.tsx:218-293 | the wishlist always; admin only to logged-in admins; profile only to logged-in customers; cart to customers and visitors; logout to the logged in; login to visitors |
| Navbar.Target | src/components/Navbar.tsx:218-293 | every button but logout asks for a page; none asks for the home or the products page |
| Navbar.MobileActions | src/components/Navbar.tsx:330-429 | as on the desktop, except the wishlist is offered to customers and visitors only |
| Navbar.OfferedPagesPassGuard | src/components/Navbar.tsx:218-293 | no page the bar offers is redirected or refused by the navigation guard |
| Navbar.NavbarState.constructor | src/components/Navbar.tsx:35-37 | empty query, dropdown closed, menu closed |
| Navbar.NavbarState.Recommendations | src/components/Navbar.tsx:80-92 | the dropdown is empty for a blank query and holds at most 6 products |
| Navbar.NavbarState.DropdownShown | src/components/Navbar.tsx:156 | the dropdown is drawn only when it is open and the trimmed query is not blank |
| Navbar.NavbarState.SearchChange | src/components/Navbar.tsx:66-70 | the query is the typed text; the dropdown opens exactly when its trim is non-empty |
| Navbar.NavbarState.SubmitSearch | src/components/Navbar.tsx:52-58 | nothing happens for a blank query; otherwise the untrimmed query is submitted and the dropdown closes |
| Navbar.NavbarState.SuggestionClick | src/components/Navbar.tsx:72-77 | the product's name becomes the query and is submitted; the dropdown closes |
| Navbar.NavbarState.Focus | src/components/Navbar.tsx:142 | focusing reopens the dropdown when the query is not blank |
| Navbar.NavbarState.ClickOutside | src/components/Navbar.tsx:41-45 | a press outside the box closes the dropdown |
| Navbar.NavbarState.ToggleMobileMenu | src/components/Navbar.tsx:297 | the menu flag flips |
| Navbar.NavbarState.MobileLinkClick | src/components/Navbar.tsx:316-322 | a mobile link closes the menu |
| ProductDetails.Round | src/components/ProductDetailsPage.tsx:39 | `Math.round` gives the nearest integer, halves rounded up |
| ProductDetails.Discount | src/components/ProductDetailsPage.tsx:38-40 | 0 without a truthy original price; otherwise within one half of (original − price) / original × 100 |
| ProductDetails.DiscountInRange | src/components/ProductDetailsPage.tsx:38-40 | a price between 0 and the original price gives 0–100%, and 0% at the original price |
| ProductDetails.QuickAdd | src/components/ProductDetailsPage.tsx:338 | quick-add asks for one of the product with its first colour and first size |
| ProductDetails.QuickAddIsDefaultVariant | src/components/ProductDetailsPage.tsx:338 | a quick-add lands on the same cart line as an add naming no colour or size |
| ProductDetails.DetailsSelection.constructor | src/components/ProductDetailsPage.tsx:32-35 | first image, first colour, first size, quantity 1 |
| ProductDetails.DetailsSelection.ProductChanged | src/App.tsx:432-443 | a new `product` prop (a "You May Also Like" card, line 176-179) replaces the product and keeps image index, colour, size and quantity, since the page has no key and no reset |
| ProductDetails.DetailsSelection.SelectImage | src/components/ProductDetailsPage.tsx:80 | only the image changes |
| ProductDetails.DetailsSelection.SelectColor | src/components/ProductDetailsPage.tsx:153 | only the colour changes, to a listed colour |
| ProductDetails.DetailsSelection.SelectSize | src/components/ProductDetailsPage.tsx:175 | only the size changes, to a listed size |
| ProductDetails.DetailsSelection.Decrement | src/components/ProductDetailsPage.tsx:194 | the quantity becomes `max(1, q − 1)` and never drops below 1 |
| ProductDetails.DetailsSelection.Increment | src/components/ProductDetailsPage.tsx:201 | the quantity grows by 1 with no upper bound |
| ProductDetails.DetailsSelection.AddToCart | src/components/ProductDetailsPage.tsx:42-44 | exactly the current quantity, colour and size are sent, and only for a product in stock |
| Admin.Revenue | src/components/AdminDashboard.tsx:39 | the revenue of a single order is its total (with RevenueConcat and RevenueBounds below) |
| Admin.RevenueConcat | src/components/AdminDashboard.tsx:39 | revenue adds up over consecutive runs of orders |
| Admin.RevenueBounds | src/components/AdminDashboard.tsx:39 | order totals within [lo, hi] give a revenue within [n·lo, n·hi] |
| Admin.Stats | src/components/AdminDashboard.tsx:39-42 | revenue is the sum of totals; order and product counts are the list lengths; the average is 0 without orders, else average × count = revenue |
| Admin.AverageWithinBounds | src/components/AdminDashboard.tsx:42 | the average lies between the smallest and the largest order total |
| Admin.Preview | src/components/AdminDashboard.tsx:75 | the first min(5, n) entries, in order: the recent orders here and, at line 184, the top-selling products |
| Admin.NameSearch | src/components/AdminDashboard.tsx:241-244 | exactly the products whose lower-cased name includes the lower-cased query, in order |
| Admin.EmptyNameSearchKeepsAll | src/components/AdminDashboard.tsx:241-244 | an empty query lists every product |
| Admin.NameSearchWithinStoreSearch | src/components/AdminDashboard.tsx:241-244 | the admin search never finds a product the storefront search would miss |

## Left out

- Saving and restoring the cart, wishlist and login in `localStorage` (`src/App.tsx:46-99`) is browser storage I/O. `Storefront.App.Valid` therefore describes sessions that start from the constructor.
- Toasts, `console.log`, `window.scrollTo`, animations and all rendering are not modelled. The render is modelled only where it decides behaviour: which controls exist in which step, which navbar actions are shown, and which notes appear.
- `setTimeout` delays are not modelled as time. Each timer firing is its own method (`Storefront.App.OrderRedirectElapsed`, `Checkout.CheckoutFlow.TimerFires`).
- `Date.now()` user ids are a parameter of `Storefront.App.Login` and `Storefront.App.Signup`.
- The `Math.random()` order number shown on the confirmation is not modelled.
- IEEE floating point is not modelled. Prices are integers, and tax, ratings and order totals are exact reals.
- `toLocaleString` and the display-only `Math.round` of the total are not modelled.
- Lower-casing covers ASCII letters only; full Unicode case mapping is out of scope.
- Auth.Decide: the browser's own constraint validation is not modelled. The form has no `noValidate`, its inputs are `required` and the e-mail input is `type="email"` (`src/components/AuthPages.tsx:167-241`), so the browser blocks some submits before `handleSubmit` runs, such as an address like `a(b@c.de` that the line-33 pattern accepts. `Decide` describes `handleSubmit` once it runs.
- The catalogue, reviews and orders come from a mock data module that is not part of this model. They are parameters.
- Storefront.App.AddToCart: the source grows the matching line by mutating the line object, which the previous cart array still shares. The model replaces the line by value, so that aliasing is not captured.
- Storefront.App.PlaceOrder: no `Order` record is built, because the source builds none.
- The admin dashboard's search text is a parameter of `Admin.NameSearch`, not a state field. Its edit, product edit and delete buttons have no handlers in the source.
- The Google login button (`src/components/AuthPages.tsx:72-76`) only shows a toast. The password visibility toggles are display state.
- The product page's local "liked" heart (`src/components/ProductDetailsPage.tsx:36`) is display state. Its reviews are display only.
- The navbar's category links call the session controller's navigation (`Storefront.App.Navigate`) and have no member of their own. The page-only callbacks are `Storefront.App.ShowPage`.
- ProductListing.ListingFilters.SetPriceRange: the slider's own bounds and step are not modelled. Any pair of bounds is accepted.

## Findings

| source | as written | input that shows it | evidently intended | confidence | as-written member | corrected member |
|---|---|---|---|---|---|---|
| src/components/ProductListingPage.tsx:171 | "Clear All Filters" shows when `priceRange[1] !== 500`, but the range starts and is reset to `[0, 40000]` | the untouched page: no category, no brand, range 0–40000; the button shows though no filter is active | compare with the default upper bound 40000, so the button shows only when a filter differs from the cleared state | medium; not executed | ProductListing.ClearShownWithoutFilters | ProductListing.ClearHiddenMeansUnfiltered |
| src/components/CartPage.tsx:164-166 | the hint asks for `4000 − subtotal` more, but shipping is free only above 4000 | subtotal 3000: the hint says ₹1000, and 4000 still pays ₹100 shipping | ask for `4001 − subtotal`, the least amount that makes shipping free | high; not executed | CartPricing.HintFallsShort | CartPricing.CorrectedAddMoreHint |
