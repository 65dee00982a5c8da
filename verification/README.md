# FarmFresh storefront core in Dafny

FarmFresh is a farm-to-consumer marketplace. It has two front ends, and this
project models the logic of both.

- **Static site.** Plain scripts keep a shopper's cart, account, orders and
  wishlist in the browser's local storage. The model covers the shared script
  (`main.js`), the cart page, the catalogue page and the home page.
- **Single-page application.** This is a React/Redux app. The model covers its
  cart, order, farmer and product slices, the cart sidebar, the route guard,
  the product service's query builder and mock catalogue filter, and the
  validation and mock sign-in logic of the login and registration pages.

How the model is built:

- Every reducer is a pure function from state and payload to the new state.
- Local storage is one immutable record, `StaticStore.Store`. Each storage
  helper returns the record it would write back.
- Anything the source reads from the outside world becomes a parameter: the
  clock, generated ids, the answer to a confirmation dialog, yup's email test,
  and fixed catalogue data.

One module per source file:

| module | models |
|---|---|
| `Common` | `Option`, keyed-list operations (`find`, `findIndex`, `filter`), subsequences |
| `Text` | white space, digits, ASCII lower-casing, number printing, comma join and split |
| `Catalogue` | the product record and star glyphs |
| `CartSlice` | the cart slice |
| `CartSidebar` | the cart sidebar's handlers and displayed amounts |
| `StaticCart` | the cart helpers of `main.js` |
| `StaticStore` | the user, session, order and wishlist helpers of `main.js` |
| `Orders` | order statuses and the order record |
| `CartPage` | `cart.js` |
| `Validation` | `validateEmail` and `validatePhone` of `main.js` |
| `ProtectedRoute` | the route guard and the route table's user-type requirements |
| `RegisterForm` | `Register.jsx` |
| `LoginForm` | `Login.jsx` |
| `OrderSlice` | the order slice |
| `FarmerSlice` | the farmer slice |
| `ProductService` | the product service |
| `ProductSlice` | the product slice |
| `ProductsPage` | `products.js` |
| `HomePage` | `home.js` |

Representation choices:

- Prices and quantities are integers.
- Ratings are whole tenths of a star, so 4.8 is 48.
- Ids are opaque strings compared only for equality.
- JavaScript truthiness is written out case by case:
  - `quantity || 1` and `limit || 12` treat a missing value or 0 as absent;
  - `role || 'customer'` treats "" as absent;
  - an empty `from` path falls through to the user's landing page;
  - an empty `requiredUserType` means no requirement.

## Model

| member | source | states |
|---|---|---|
| CartSlice.InitialStateAsWritten | src/store/slices/cartSlice.js:16-23 | the slice starts with the rehydrated items but both totals at 0, closed, not loading, no error |
| CartSlice.InitialTotalsStale | src/store/slices/cartSlice.js:16-23 | one rehydrated line of quantity 2 already makes the as-written initial totals disagree with the items |
| CartSlice.InitialState | src/store/slices/cartSlice.js:16-23 | corrected initial state: same items and flags, totals consistent with the items |
| CartSlice.CalculateTotals | src/store/slices/cartSlice.js:89-95 | afterwards the item count is the sum of quantities and the amount the sum of price × quantity; nothing else changes |
| CartSlice.AddToCart | src/store/slices/cartSlice.js:29-45 | an unknown product is appended as a new line with the requested quantity (1 when missing); a known one has the quantity added to its first line, every other line unchanged; totals stay consistent; flags untouched |
| CartSlice.AddToCartTotals | src/store/slices/cartSlice.js:29-45 | from consistent totals, adding raises the item count by exactly the requested quantity and the amount by that quantity at the price already on the line |
| CartSlice.RemoveFromCart | src/store/slices/cartSlice.js:47-52 | no line with the id remains, every other line is kept in its order, as many lines remain as had another id, and an absent id changes nothing |
| CartSlice.RemoveFromCartTotals | src/store/slices/cartSlice.js:47-52 | with one line per id, removal takes exactly that line's quantity and amount out of the totals |
| Common.FilterKeyExact | src/store/slices/cartSlice.js:47-52 | any order-preserving selection that keeps no line of the id and is as long as the lines of other ids is the `filter` result, so the removal contracts determine their result |
| CartSlice.UpdateQuantity | src/store/slices/cartSlice.js:54-68 | absent id: items unchanged; quantity ≤ 0: the id disappears; positive quantity: the first line for the id gets exactly that quantity and no other line changes |
| CartSlice.UpdateQuantityTotals | src/store/slices/cartSlice.js:54-68 | from consistent totals in a cart with one line per id, a positive quantity replaces rather than adds: the count moves by the difference of old and new quantity |
| CartSlice.UpdateNonPositiveIsRemove | src/store/slices/cartSlice.js:54-68 | setting a quantity ≤ 0 is the same as removing the id, whether or not it is present |
| CartSlice.ClearCart | src/store/slices/cartSlice.js:70-75 | no lines, totals 0 and consistent, sidebar and request flags kept |
| CartSlice.ToggleCart | src/store/slices/cartSlice.js:77-79 | the sidebar flag flips and nothing else changes |
| CartSlice.OpenCart | src/store/slices/cartSlice.js:81-83 | the sidebar is open whatever it was before; nothing else changes |
| CartSlice.CloseCart | src/store/slices/cartSlice.js:85-87 | the sidebar is closed whatever it was before; nothing else changes |
| CartSlice.ClearError | src/store/slices/cartSlice.js:97-99 | the error is cleared and nothing else changes |
| CartSlice.SyncPending | src/store/slices/cartSlice.js:103-105 | only the loading flag is raised |
| CartSlice.SyncFulfilled | src/store/slices/cartSlice.js:106-110 | the server's lines replace the items with consistent totals; sidebar and error kept |
| CartSlice.SyncRejected | src/store/slices/cartSlice.js:111-114 | the error is recorded and loading ends; items and totals are left as they were |
| CartSlice.Reduce | src/store/slices/cartSlice.js:28-115 | every action that touches the items leaves totals consistent with them; the flag and error actions keep items and totals; only the three sidebar actions move the open flag |
| CartSlice.ReduceKeepsTotalsFresh | src/store/slices/cartSlice.js:28-115 | every reducer case turns consistent totals into consistent totals |
| CartSlice.ReduceKeepsOneLinePerId | src/store/slices/cartSlice.js:29-68 | add, remove and update never create a second line for a product id; only a server payload could bring one in |
| CartSlice.TotalsStayFresh | src/store/slices/cartSlice.js:28-115 | from a consistent state, any sequence of dispatched actions keeps the totals consistent |
| CartSlice.TotalsNeverStale | src/store/slices/cartSlice.js:16-23 | from the corrected initial state the totals agree with the items after any sequence of actions |
| CartSlice.AddManyMerges | src/store/slices/cartSlice.js:29-45 | repeatedly adding a new product yields exactly one new last line whose quantity is the sum of the added quantities; earlier lines are untouched |
| CartSlice.AddManyExisting | src/store/slices/cartSlice.js:30-34 | repeated additions to a present product accumulate on its first line and change no other line |
| CartSidebar.HandleQuantityChange | src/components/Cart/CartSidebar.jsx:19-25 | dispatching remove for quantities ≤ 0 and update otherwise behaves exactly like the slice's update; a quantity ≤ 0 leaves no line for the id |
| CartSidebar.MinusClicked | src/components/Cart/CartSidebar.jsx:123 | minus on a line at quantity 1 or less is exactly the slice's removal of that product; above 1, in a cart with one line per id, that line drops by one and every other line stays; the totals stay consistent |
| CartSidebar.PlusClicked | src/components/Cart/CartSidebar.jsx:132 | in a cart with one line per id, plus raises that line by exactly one and keeps every other line; a line already below 0 is removed instead, because the requested quantity is not positive; the totals stay consistent |
| CartSidebar.FooterTotal | src/components/Cart/CartSidebar.jsx:169 | when the slice's totals are consistent, the footer equals Σ price × quantity over the lines shown |
| CartSidebar.FooterAgreesWithLines | src/components/Cart/CartSidebar.jsx:169 | from the corrected initial state, after any sequence of cart actions, the footer equals Σ price × quantity over the lines |
| CartSidebar.FooterStaleAsWritten | src/store/slices/cartSlice.js:16-23 | with the initial state as written, a rehydrated line at price 100 and quantity 2 gives a footer of 0 against a line sum of 200 |
| CartSidebar.LeaveSidebar | src/components/Cart/CartSidebar.jsx:27-35 | either footer button closes the sidebar and leaves the cart otherwise untouched; the checkout button, and only it, targets the checkout page, the other the catalogue |
| StaticCart.EffectiveQuantity | static/scripts/main.js:97 | a missing or zero quantity counts as 1, any other is used as given; the result is never 0 |
| StaticCart.AddToCart | static/scripts/main.js:92-112 | a new id is appended with the name, price, farmer and effective quantity; a present id has the effective quantity added to its first line, others unchanged |
| StaticCart.AddToCartCounts | static/scripts/main.js:92-112 | the header count rises by the effective quantity and the cart total by that quantity at the stored price |
| StaticCart.AddToCartOneLinePerId | static/scripts/main.js:92-112 | adding never creates a second line for an id |
| StaticCart.RemoveFromCart | static/scripts/main.js:115-121 | every line of the id goes, the others keep their order, as many lines remain as had another id, and an absent id changes nothing |
| StaticCart.RemoveFromCartOneLinePerId | static/scripts/main.js:115-121 | removing never creates a second line for an id |
| StaticCart.RemoveFromCartCounts | static/scripts/main.js:115-121 | with one line per id, removing a present id lowers the header count by that line's quantity and the total by its price × quantity |
| StaticCart.UpdateCartQuantity | static/scripts/main.js:124-138 | absent id: nothing changes; quantity ≤ 0: the stored cart loses the id but the returned cart is the one before removal; otherwise the first line gets the new quantity and the stored and returned carts agree |
| StaticCart.AddKnownProduct | static/scripts/products.js:137-150 | an unknown id leaves the cart alone; a known one adds exactly one unit: a new line of that product when it was not in the cart, otherwise its first line up by one with every other line unchanged |
| CartPage.IncreaseQuantity | static/scripts/cart.js:50-57 | a present line goes up by one in place, the count by one and the total by its price; an absent id changes nothing |
| CartPage.DecreaseQuantity | static/scripts/cart.js:59-66 | only a line above 1 is lowered, by one; no line is ever removed and no quantity ≥ 1 drops below 1 |
| CartPage.RemoveItem | static/scripts/cart.js:68-73 | an unconfirmed removal changes nothing; a confirmed one removes every line of the id and keeps every other line, in order, with the count of lines falling by exactly the lines of the id |
| CartPage.RemoveItemSummary | static/scripts/cart.js:68-73 | with one line per id, a confirmed removal lowers the header count and the subtotal by exactly that line and keeps one line per id |
| CartPage.OrderSummary | static/scripts/cart.js:75-82 | the delivery fee is 200 exactly when the subtotal is positive, 0 otherwise, and the total is subtotal plus fee |
| CartPage.DisplayedSummaryIsCartTotal | static/scripts/cart.js:5-48 | the empty-cart early path shows the same summary as the cart total would, with total 0 |
| CartPage.ProceedToCheckout | static/scripts/cart.js:84-101 | an empty cart is refused; otherwise a signed-out shopper goes to the login page with the checkout return hint and a signed-in one to checkout |
| StaticStore.DefaultRole | static/scripts/main.js:220 | a missing role becomes "customer"; a given role is kept |
| StaticStore.RegisterUser | static/scripts/main.js:209-241 | refused exactly when the email is already registered, leaving storage alone; otherwise one user with the default role and no addresses is appended and signed in |
| StaticStore.RegisterKeepsEmailsUnique | static/scripts/main.js:212-225 | registration never stores two users with the same email |
| StaticStore.LoginUser | static/scripts/main.js:185-206 | sign-in fails exactly when no user has both the email and the password, leaving storage alone; otherwise the first user with both becomes the stored session |
| StaticStore.RegisterThenLogin | static/scripts/main.js:185-241 | a freshly registered user can sign in with the same credentials and gets the session registration created |
| StaticStore.GetUserOrders | static/scripts/main.js:279-285 | signed out: nothing; signed in: exactly the stored orders of that user, in stored order, as many as there are |
| StaticStore.CreateOrder | static/scripts/main.js:288-311 | refused exactly when signed out; otherwise one pending order is appended with the caller's items, total and address, with the caller's id and user id winning over the generated ones, the two timestamps are the two clock reads, and the cart is emptied |
| StaticStore.CreateOrderThenList | static/scripts/main.js:279-311 | an order placed without a user id of its own is listed last among the signed-in user's orders, after the ones they had |
| StaticStore.IsInWishlist | static/scripts/main.js:359-362 | true exactly when the signed-in user's wishlist holds the id; never when signed out |
| StaticStore.AddToWishlist | static/scripts/main.js:327-344 | succeeds exactly when signed in and not yet listed, then appends the id to that user's list; no other user's list, and nothing else in storage, changes |
| StaticStore.RemoveFromWishlist | static/scripts/main.js:347-356 | succeeds exactly when signed in; the id is gone afterwards, every other listed id stays, in order, the list shrinks by exactly the occurrences of the id, and no other user's list changes |
| StaticStore.WishlistStaysDuplicateFree | static/scripts/main.js:327-356 | adding and removing keep a duplicate-free wishlist duplicate-free |
| StaticStore.ClearCart | static/scripts/main.js:141-145 | the cart reads back empty with count and total 0; nothing else changes |
| Validation.ValidateEmail | static/scripts/main.js:477-480 | accepted exactly when the text splits at an '@' and a later '.' into three non-empty runs without white space or '@' |
| Validation.ValidatePhone | static/scripts/main.js:483-486 | accepted exactly when there are ten non-white-space characters and all of them are digits |
| Validation.PhoneIgnoresSpaces | static/scripts/main.js:483-486 | inserting white space anywhere never changes the verdict |
| Orders.ParseStatus | src/store/slices/orderSlice.js:70-78 | a name is recognised exactly when it is one of the seven status names, and then names that status |
| Orders.StatusRoundTrip | src/store/slices/orderSlice.js:70-78 | every status reads back from its name |
| Orders.OrderStatusesComplete | src/store/slices/orderSlice.js:70-78 | the status list has seven distinct names and covers every status |
| ProtectedRoute.DashboardFor | src/components/Auth/ProtectedRoute.jsx:25 | farmers land on the farmer dashboard, every other user type on the home page |
| ProtectedRoute.Guard | src/components/Auth/ProtectedRoute.jsx:6-30 | spinner exactly while loading; login with the current location exactly when signed out; the page exactly when signed in and any required type matches; otherwise the user's own landing page |
| ProtectedRoute.RedirectSettles | src/components/Auth/ProtectedRoute.jsx:23-27 | the page a mismatched user is redirected to admits them, so redirects never chain |
| ProtectedRoute.UnguardedAdmitsSignedIn | src/components/Auth/ProtectedRoute.jsx:23 | with no required type, or an empty one, every settled signed-in user gets the page |
| ProtectedRoute.RequiredFor | src/App.jsx:29-86 | the profile, orders and favourites pages require a consumer, the three farmer pages a farmer, and no other page a type |
| RegisterForm.BaseErrors | src/pages/Auth/Register.jsx:24-58 | no error exactly when every shared rule holds; an empty password breaks all five password rules |
| RegisterForm.FarmErrors | src/pages/Auth/Register.jsx:60-71 | no farm error exactly when a farm name of at least 2 characters and a bio of 10 to 500 characters are present |
| RegisterForm.SchemaFor | src/pages/Auth/Register.jsx:93 | the farmer schema is chosen exactly for the "farmer" user type |
| RegisterForm.RegisterErrors | src/pages/Auth/Register.jsx:60-73 | non-farmers are checked against the shared rules alone; farmers additionally against the farm rules |
| RegisterForm.FarmerSchemaExtendsConsumer | src/pages/Auth/Register.jsx:60-73 | the farmer schema only adds errors; a farmer form is clean exactly when both the shared and the farm rules pass |
| RegisterForm.DefaultUserType | src/pages/Auth/Register.jsx:85 | the form preselects "farmer" exactly for `?type=farmer`, else "consumer" |
| RegisterForm.SubmittedValid | src/pages/Auth/Register.jsx:24-116 | data submitted from a form without errors has a listed type, a strong password, a Sri Lankan phone number and a location, and a farmer's data a farm name and a bio of valid length |
| RegisterForm.MockRegister | src/pages/Auth/Register.jsx:133-157 | the stand-in echoes the submitted data with a clock-derived id, an unverified email, and an empty farmer profile exactly for farmers |
| RegisterForm.PostRegisterTarget | src/pages/Auth/Register.jsx:126 | a new user lands on the same page the route guard would send their type to |
| RegisterForm.RegisteredPasswordPassesLogin | src/pages/Auth/Register.jsx:37-43 | any password the registration accepts meets the login page's six-character minimum |
| RegisterForm.RegisterPhoneVersusStaticCheck | src/pages/Auth/Register.jsx:48-51 | a registration number in national form passes the static site's phone check; one in +94 form never does |
| LoginForm.LoginErrors | src/pages/Auth/Login.jsx:13-26 | no error exactly when the email is present and well formed, the password has six characters and the type is listed; the default type is always valid |
| LoginForm.PostLoginTarget | src/pages/Auth/Login.jsx:75-76 | a non-empty return path wins; otherwise the user type's landing page |
| LoginForm.LoginReturnsToGuardedPage | src/pages/Auth/Login.jsx:53-55 | a user the guard sent to login is returned to the page they asked for, whatever their type |
| LoginForm.MockLogin | src/pages/Auth/Login.jsx:84-111 | the stand-in returns the fixed profile for the chosen type with the typed email; farm details exactly for farmers |
| LoginForm.MockLoginIgnoresPassword | src/pages/Auth/Login.jsx:84-103 | any two passwords give the same signed-in user |
| LoginForm.MockLoginLandsOnOwnPage | src/pages/Auth/Login.jsx:75-77 | after a mock login without a return path the user lands on a page the guard renders for them |
| OrderSlice.InitialState | src/store/slices/orderSlice.js:65-79 | no orders, no current order, idle, no error, the seven statuses |
| OrderSlice.Started | src/store/slices/orderSlice.js:102-105 | a request start raises loading and clears the error, nothing else |
| OrderSlice.Failed | src/store/slices/orderSlice.js:111-114 | a rejection ends loading and records the payload as the error, nothing else |
| OrderSlice.UpdateOrderInList | src/store/slices/orderSlice.js:91-97 | the first order with the payload's id is replaced; an unknown id changes nothing; only the list changes |
| OrderSlice.ApplyServerOrder | src/store/slices/orderSlice.js:142-162 | the server's copy replaces the listed order and the current one when ids match; loading, error and statuses stay |
| OrderSlice.Reduce | src/store/slices/orderSlice.js:84-163 | the status list is never touched; pending cases start a request and rejections record their payload; the clear cases touch only their own field; only cases that receive orders change the list; a created order goes first and becomes current, a fetch replaces the list, a fetched order becomes current, and a status update or cancellation is the server-copy replacement |
| OrderSlice.CreateFulfilledShowsOrder | src/store/slices/orderSlice.js:106-110 | a created order is shown first in the list and becomes the current order |
| OrderSlice.StartThenSucceed | src/store/slices/orderSlice.js:102-140 | a request that starts and then succeeds leaves neither a spinner nor an error |
| OrderSlice.StatusesConstant | src/store/slices/orderSlice.js:81-164 | no sequence of actions changes the status list |
| OrderSlice.ServerUpdatesKeepIdsUnique | src/store/slices/orderSlice.js:91-162 | replacing orders by id keeps order ids unique |
| OrderSlice.ServerUpdatesKeepIds | src/store/slices/orderSlice.js:142-151 | a status update keeps the same ids at the same positions |
| FarmerSlice.InitialState | src/store/slices/farmerSlice.js:101-116 | empty directory, no current farmer, no products, zeroed analytics, all three flags down, no error |
| FarmerSlice.SetFlag | src/store/slices/farmerSlice.js:135-205 | a family's flag takes the given value and the other two are untouched |
| FarmerSlice.UpdateProduct | src/store/slices/farmerSlice.js:195-201 | the first product with the payload's id is replaced; an unknown id changes nothing |
| FarmerSlice.DeleteProduct | src/store/slices/farmerSlice.js:207-209 | every product with the id goes, the others keep their order, and as many remain as had another id |
| FarmerSlice.Reduce | src/store/slices/farmerSlice.js:121-214 | directory, analytics, products and current farmer change only through the cases that carry them; an added product goes to the front of the list, an update or delete is the named list operation, and the clear cases touch only their own field |
| FarmerSlice.FlagsIndependent | src/store/slices/farmerSlice.js:133-213 | a pending case raises only its own family's flag, a settling case lowers it, no other action touches any flag |
| FarmerSlice.ErrorDiscipline | src/store/slices/farmerSlice.js:122-213 | the error changes only through clearError, a pending case or a rejected case, and then to the rejection's payload |
| FarmerSlice.AddThenDelete | src/store/slices/farmerSlice.js:182-209 | adding a product and then deleting its id is the same as deleting the id from the old list |
| FarmerSlice.AddThenUpdate | src/store/slices/farmerSlice.js:182-201 | an update right after an add replaces the added product at the front and leaves the older list untouched, since `unshift` puts it before any earlier product with that id |
| FarmerSlice.UpdateKeepsIds | src/store/slices/farmerSlice.js:195-201 | an update keeps every product id at its position |
| ProductService.QueryParams | src/services/productService.js:5-20 | one parameter per entry whose value is neither undefined nor "", in the filter object's key order, each the key with its rendered value |
| ProductService.QueryParamsMembers | src/services/productService.js:5-20 | every sent entry appears among the parameters and every parameter comes from a sent entry |
| ProductService.ListParamRoundTrip | src/services/productService.js:10-11 | an array of comma-free strings is recovered by splitting its parameter at commas |
| ProductService.PageSize | src/services/productService.js:282 | a missing or zero limit means 12; any other is used as given |
| ProductService.CeilDiv | src/services/productService.js:282 | the result is the least page count covering the products, for divisors of either sign |
| ProductService.MockGetProducts | src/services/productService.js:261-283 | the three filters applied in turn give the catalogue filtered once by all applicable tests, in catalogue order; the count is the number of matching catalogue products and the pages their ceiling over the page size |
| Common.KeepKeep | src/services/productService.js:261-277 | filtering by one test and then another equals filtering once by both |
| ProductService.PagesOfPositiveSize | src/services/productService.js:279-283 | with a positive page size the page count is never negative and is 0 exactly when nothing matched |
| ProductSlice.UpdateFilters | src/store/slices/productSlice.js:96-98 | each filter carried by the patch takes the patch's value, every other keeps its own |
| ProductSlice.UpdateFiltersAlgebra | src/store/slices/productSlice.js:96-98 | patching twice equals patching once, two patches compose into one, and the empty patch changes nothing |
| ProductSlice.InitialState | src/store/slices/productSlice.js:65-87 | nothing loaded (no products, current product, categories, seasonal products or search results), default filters, page 1 of 1 with 0 products and 12 per page, idle, no error |
| ProductSlice.FetchFulfilledState | src/store/slices/productSlice.js:119-127 | the page's products and counts replace the old ones; the current page, page size, filters, error, search flag, current product, categories, seasonal products and search results are kept |
| ProductSlice.Reduce | src/store/slices/productSlice.js:92-165 | clearError, updateFilters, clearFilters, setCurrentPage, clearSearchResults and clearCurrentProduct each touch only their own field; only a delivered page changes the product list, and only the two filter cases the filters |
| ProductSlice.LoadingFlagsSeparate | src/store/slices/productSlice.js:114-156 | search cases move only the search flag, other cases only the main one, and a search start does not clear an error |
| ProductSlice.FetchFromMockConsistent | src/store/slices/productSlice.js:119-127 | after a fetch from the stand-in the product count equals the list shown, the slice keeps its own page size, and every product matches the query |
| ProductSlice.DefaultFiltersSelect | src/store/slices/productSlice.js:71-77 | under the default filters the stand-in keeps exactly the in-stock products priced 0 to 1000 |
| ProductsPage.ApplyFilters | static/scripts/products.js:58-72 | exactly the products passing category, price and rating tests, in catalogue order, as many as pass |
| Common.KeepExact | static/scripts/products.js:58-72 | any order-preserving selection of passing products as long as their number is the `filter` result, so the filter contracts determine their result |
| Common.KeepMembers | static/scripts/products.js:58-72 | every kept product comes from the list, and every product that passes is kept |
| ProductsPage.ResetMatchesPanel | static/scripts/products.js:152-161 | the panel state reset sets selects the whole list whenever no product costs more than 1000 |
| ProductsPage.SortProducts | static/scripts/products.js:74-89 | the three sort choices order the filtered list by price up, price down or rating down and keep the same products; any other choice shows the whole catalogue |
| ProductsPage.SortKeepsFilter | static/scripts/products.js:74-89 | sorting a filtered list never shows a product the panel rejects |
| ProductsPage.CreateStars | static/scripts/products.js:128-135 | one full star per whole star of the rating, and nothing else |
| HomePage.Featured | static/scripts/home.js:127 | the first eight products, or all of them when fewer |
| HomePage.Discount | static/scripts/home.js:138 | no original price: 0; otherwise the percentage saved rounded half up |
| HomePage.DiscountBounds | static/scripts/home.js:138 | full price shows 0, a lower price a discount from 0 to 100, and a saving of at least half a percent a positive badge |
| HomePage.CreateStarRating | static/scripts/home.js:212-231 | whole stars, one half star exactly when the tenths digit is 5 or more, and empty stars filling up to five |
| HomePage.StarDisplaysAgree | static/scripts/home.js:212-231 | the home page's full stars are as many as the catalogue page's stars |
| HomePage.AddFeaturedToCart | static/scripts/home.js:234-252 | an unknown id does nothing; a featured product adds exactly one unit: a new line when it was not in the cart, otherwise its first line up by one with every other line unchanged |
| HomePage.ToggleWishlist | static/scripts/home.js:255-263 | when signed in the product's membership flips, every other id keeps its membership and no other user's list changes; signed out nothing changes; users, session, orders and cart are untouched |
| HomePage.ToggleTwiceRestores | static/scripts/home.js:255-263 | toggling an unlisted product twice gives back the same wishlist |

## Findings

| source | as written | input that shows it | evidently intended | confidence | as-written member | corrected member |
|---|---|---|---|---|---|---|
| src/store/slices/cartSlice.js:16-23 | the initial state takes the items saved in local storage but sets both totals to 0 | a saved cart of one line at price 100, quantity 2: the sidebar footer shows 0 next to a non-empty cart until some cart action runs | totals computed from the saved items, as every reducer does after touching the items | high (not executed) | CartSlice.InitialStateAsWritten, CartSlice.InitialTotalsStale | CartSlice.InitialState, CartSlice.TotalsNeverStale |

## Left out

- Local storage, `JSON.parse` and `JSON.stringify` are not modelled. Storage is a record. A corrupt stored value is left out; the source would throw on it.
- Toasts, DOM rendering, animations, modals and `setTimeout` delays are left out. This includes the mock sign-in delays and the 1.5 s delay before the checkout redirect.
- Navigation appears only as the target path.
- The clock and generated ids are parameters: `Date.now()` and `new Date().toISOString()`.
- The network is left out: the `api` client and the auth, farmer and order services. The asynchronous thunks' results arrive as action payloads. The auth slice is not part of this model; the route guard takes the auth state as input.
- yup's `.email()` format test is a parameter; its pattern is not part of this model.
- String lengths in the yup rules are counted in characters, not UTF-16 code units.
- `toLowerCase` is ASCII-only in the model.
- Floating-point arithmetic is replaced by exact integer and rational arithmetic:
  - `Math.round`, `Math.floor` and `Math.ceil` are modelled exactly;
  - `toFixed` and `formatCurrency` formatting are left out;
  - ratings are whole tenths, so a rating finer than 0.1 is not represented.
- Product images, reviews, badges and units are not modelled where the logic only displays them. The `image` field that `addToCart` copies into a stored line is left out for the same reason.
- The catalogue and home pages interpolate product ids into inline click handlers unquoted. The model treats ids as opaque strings, so a string/number mismatch between stored and clicked ids is not modelled.
- `URLSearchParams` percent-encoding is not modelled. Filter keys are taken in the order given, which stands in for `Object.keys` order. A filter value that is an object other than an array is not represented.
- A patch key explicitly set to `undefined` in `updateFilters` overwrites the filter with `undefined`; the model does not represent it.
- Order status strings outside the seven names cannot be stored, because the model types the status.
- The badge display toggling in `updateCartCount` is left out; the count itself is `StaticCart.CartCount`.
- The log-out, page-data and utility helpers of `main.js` are display-only and left out: `logoutUser`, `checkAuthentication`, `loadUserData`, `formatDate`, `getUrlParameter` and `debounce`.
- The product slice thunks for one product, search, categories and seasonal products are modelled only through their reducer cases.
- StaticStore.RegisterUser: only the five registration fields are carried. Any other field of the caller's object is not modelled, including an `id` that would override the generated one.
- StaticStore.LoginUser: the session's `avatar` field, always null for registered users, is left out.
- StaticStore.CreateOrder: the order data carries items, total, address, id, user id and status. Other spread fields are not modelled. The three clock reads are parameters: the generated id, createdAt and updatedAt. Nothing relates the two timestamps, since they are separate reads.
- RegisterForm.MockRegister: the source reads the clock twice, once for the id and once for the token. The model uses one instant for both.
- RegisterForm.SchemaFor: `Register.jsx:93` reads `watch` inside the initializer of the very declaration that defines it. The model takes the evidently intended choice, the farmer schema exactly for the farmer type, and does not model the failure.
- CartPage.IncreaseQuantity: the contract speaks only of lines whose quantity is not negative. A negative quantity raised to 0 or below is removed by the update helper, which the function delegates to but does not state.
- HomePage.CreateStarRating: the count of empty stars is stated only for ratings below 5. Above 5 the source draws no empty stars and more than five glyphs.
- HomePage.Discount: the source divides and multiplies in floating point before rounding, the model rounds the exact rational. They can differ at a half-way point: original price 200 and price 171 give 14 in floating point (14.499…) and 15 in the model.
- ProductsPage.SortProducts: states order and permutation, not the stability of the browser's sort.
