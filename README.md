# EcoMaven storefront core, modelled in Dafny

This project models the core logic of the EcoMaven storefront. The backend is an
Express server over MongoDB, and the frontend is a React single-page application.

- **Price forecaster.** It turns a product's price history into a predicted
  price. It takes a five-point moving average of the latest prices, adds the mean
  first difference of the latest ten prices and a random seasonal offset of at
  most 2% of the latest price, scales the sum by a random factor within 3%, and
  rounds half up. Histories shorter than five entries get no forecast.
- **Server controllers.** These cover five areas:
  - the product catalogue: price-history bookkeeping, review aggregation, the
    pagination arithmetic of the listing, and the history gate of the forecast
    endpoint;
  - one cart per user, whose items are upserted, updated, removed and cleared;
  - one duplicate-free wishlist per user;
  - orders: creation with cart emptying, read authorisation, and the paid and
    delivered flags;
  - the user table: registration with unique emails, login, profile and admin
    updates, and guarded deletion.
- **Client logic.** This covers:
  - the guest cart and its totals;
  - the guest wishlist, which matches an item by either of two id fields;
  - the catalogue page's filter-and-sort pipeline.

Each backend controller is a class. It holds its MongoDB collection as a map
from id to record, and its methods update the map in place, as the controllers
update a loaded document and save it. The client-side contexts replace their
state wholesale, so they are pure functions on sequences. The forecaster is a
pipeline of functions. Its one loop, `calculateTrend`, is a method proved equal
to the trend function. Each `Math.random()` draw is a parameter in [0, 1).

Two behaviours of the forecaster are worth stating plainly:

- The forecast is not clamped at zero. `NegativeForecastIsNotClamped` exhibits a
  history of positive prices whose forecast is -110.
- A history shorter than five entries gives `null` (`None`), and the forecast
  endpoint then answers with the current price.

## Model

| member | source | states |
|---|---|---|
| Common.OrElse | backend/controllers/userController.js:112-113 | `value \|\| fallback` on an optional string: the value when it is present and non-empty, else the fallback |
| Common.Filter | src/context/CartContext.jsx:104 | `Array.prototype.filter`: every kept element satisfies the predicate, every satisfying element is kept, nothing is added (sub-multiset) |
| Common.FilterAppend | backend/controllers/cartController.js:148-150 | filtering distributes over concatenation, so the survivors keep their relative order |
| Common.FilterFilter | src/pages/ProductPage.jsx:55-73 | filtering by one predicate and then another is filtering once by their conjunction |
| Common.MeanWithin | backend/controllers/productController.js:195-197 | the mean of values that all lie in [lo, hi] lies in [lo, hi] |
| Common.MeanBetweenExtremes | backend/utils/pricePredictor.js:25-26 | a mean lies between the least and the greatest of its values |
| StableSort.SortByKey | backend/utils/pricePredictor.js:17-19 | sorting with the numeric comparator `key(a) - key(b)` yields a permutation of the input in non-decreasing key order |
| StableSort.SortIsStable | backend/utils/pricePredictor.js:17-19 | the sort is stable: the elements of any one key come out in the order they went in |
| StableSort.SortSortedIsIdentity | backend/utils/pricePredictor.js:17-19 | a sequence already in key order is returned unchanged |
| StableSort.SortIgnoresInputOrder | backend/utils/pricePredictor.js:17-19 | two permutations of one collection with distinct keys sort to the same sequence |
| PricePredictor.SortByDate | backend/utils/pricePredictor.js:17-19 | the sorted copy is a permutation of the history with non-decreasing dates |
| PricePredictor.Prices | backend/utils/pricePredictor.js:22 | `map(ph => ph.price)`: one price per history entry, in the same order |
| PricePredictor.ComputeBasis | backend/utils/pricePredictor.js:17-35 | on the history sorted by date: the level is the mean of the last five prices, the trend is the ten-price trend, and the seasonal offset is within 2% of the latest price |
| PricePredictor.Recent | backend/utils/pricePredictor.js:25 | `slice(-5)`: the last min(5, n) prices, in order |
| PricePredictor.MovingAverage | backend/utils/pricePredictor.js:25-26 | the moving average lies between the least and the greatest of the recent prices |
| PricePredictor.Differences | backend/utils/pricePredictor.js:49-51 | one consecutive difference `p[i+1] - p[i]` per adjacent pair |
| PricePredictor.DifferencesTelescope | backend/utils/pricePredictor.js:48-53 | the differences sum to the last value minus the first |
| PricePredictor.Trend | backend/utils/pricePredictor.js:44-54 | 0 below ten prices, otherwise `(last - p[n-10]) / 9` |
| PricePredictor.CalculateTrend | backend/utils/pricePredictor.js:44-54 | the loop that pushes the differences and averages them computes the trend |
| PricePredictor.Seasonality | backend/utils/pricePredictor.js:57-61 | for a draw in [0, 1) the seasonal offset is at most 2% of the latest price in magnitude |
| PricePredictor.RandomFactor | backend/utils/pricePredictor.js:38 | for a draw in [0, 1) the factor lies in [0.97, 1.03) |
| PricePredictor.Round | backend/utils/pricePredictor.js:40 | `Math.round`: the integer within half a unit, halves going up |
| PricePredictor.PredictPrice | backend/utils/pricePredictor.js:10-41 | no forecast exactly when the history is missing or shorter than five; otherwise the forecast is within 3% of level + trend + seasonal, plus half a unit of rounding |
| PricePredictor.Perturb | backend/utils/pricePredictor.js:38-40 | scaling by the random factor and rounding moves a value by at most 3% of it plus one half |
| PricePredictor.BasisBounds | backend/utils/pricePredictor.js:24-32 | the level obeys any bounds on the five latest prices by date; the seasonal offset is within 2% of the latest price |
| PricePredictor.PredictionIgnoresInputOrder | backend/utils/pricePredictor.js:17-40 | with distinct dates, the forecast does not depend on the order of the stored history |
| PricePredictor.ChronologicalHistoryIsKept | backend/utils/pricePredictor.js:17-19 | a history already in date order is used as given |
| PricePredictor.DailyPricesKept | backend/utils/pricePredictor.js:17-22 | the price sequence of a chronological history comes out of the sort unchanged |
| PricePredictor.FiveDayLevel | backend/utils/pricePredictor.js:25-29 | prices 10..50 give a level of 30 and, with fewer than ten entries, a zero trend |
| PricePredictor.SteepFallBasis | backend/utils/pricePredictor.js:24-35 | a fall from 1000 to nine prices of 1 gives level 1, trend -111 and, for a middle draw, no seasonal offset |
| PricePredictor.NegativeForecastIsNotClamped | backend/utils/pricePredictor.js:35-40 | that history forecasts -110: a negative forecast is returned as is |
| ProductController.Ratings | backend/controllers/productController.js:195-197 | the ratings of the reviews, position by position |
| ProductController.RatingWithinScale | backend/controllers/productController.js:193-197 | when every review rating lies in a scale, so does the aggregated rating |
| ProductController.RatingAfterReview | backend/controllers/productController.js:191-197 | after one more review, the mean is the old total plus the new rating over one more review |
| ProductController.Catalog.CreateProduct | backend/controllers/productController.js:78-93 | a new product has a one-entry history holding its price, no reviews, and a zero review count |
| ProductController.Catalog.UpdateProduct | backend/controllers/productController.js:117-139 | the details are copied; the price is set and one history entry appended only when the price differs; an unknown id changes nothing |
| ProductController.Catalog.UpdateProductPrice | backend/controllers/productController.js:229-241 | the price is set and one entry appended even for an unchanged price; an unknown id changes nothing |
| ProductController.Catalog.CreateProductReview | backend/controllers/productController.js:172-204 | a second review by one user is refused without change; otherwise the review is appended and the count and mean recomputed, keeping every product aggregated |
| ProductController.Catalog.PredictProductPrice | backend/controllers/productController.js:252-278 | fewer than five history entries are refused, carrying the current price and saving nothing; otherwise the forecast is stored and returned |
| ProductController.NumberOr | backend/controllers/productController.js:9-10 | `Number(q) \|\| d`: a missing, non-numeric or zero query value falls back to the default |
| ProductController.Ceil | backend/controllers/productController.js:35 | `Math.ceil`: the least integer not below the value |
| ProductController.Paginate | backend/controllers/productController.js:9-39 | page size 10 and page 1 by default, `skip = pageSize * (page - 1)`, and for a positive page size the fewest pages that hold all matching products; a negative skip makes the query fail, and the listing answers with an error exactly then |
| ProductController.NegativePageRefused | backend/controllers/productController.js:28-39 | a negative page number under the default page size always makes the listing fail |
| ProductController.PageOf | backend/controllers/productController.js:28-30 | at most `pageSize` products, those from position `skip` on, in order |
| ProductController.PagesCoverListing | backend/controllers/productController.js:27-35 | reading pages 1 to `pages` in order yields every matching product exactly once, in order |
| ProductController.PagesFromSuffix | backend/controllers/productController.js:29-30 | pages from page k on yield the products from `pageSize * (k - 1)` on |
| CartController.FindIndex | backend/controllers/cartController.js:56-58 | `findIndex`: the first position holding the product, or -1 exactly when none does |
| CartController.Upserted | backend/controllers/cartController.js:56-66 | the first item of a product already in the cart becomes the new quantity and every other item is kept; a new product is appended as one item |
| CartController.Removed | backend/controllers/cartController.js:148-150 | no item of the product remains, every item of another product does, and nothing is added |
| CartController.UpsertedLookup | backend/controllers/cartController.js:56-66 | a product already in the cart gets its quantity replaced, not added to, and the length is kept; otherwise one item is appended; other products keep their quantities |
| CartController.UpsertedKeepsUnique | backend/controllers/cartController.js:60-66 | an add never gives a product a second item |
| CartController.RemovedLookup | backend/controllers/cartController.js:148-150 | after a removal the product has no item, and every other product keeps its quantity |
| CartController.RemovedKeepsUnique | backend/controllers/cartController.js:148-150 | removing keeps each product to at most one item |
| CartController.CartStore.GetCart | backend/controllers/cartController.js:7-26 | a user without a cart gets a new empty one; otherwise the stored items |
| CartController.CartStore.AddToCart | backend/controllers/cartController.js:31-81 | an unknown product and a quantity above stock change nothing; a missing cart becomes a one-item cart; otherwise the item is upserted; carts stay free of duplicates |
| CartController.CartStore.UpdateCartItem | backend/controllers/cartController.js:86-132 | the product, stock, cart and item checks fail in that order without change; otherwise the first item of the product gets the quantity |
| CartController.CartStore.RemoveFromCart | backend/controllers/cartController.js:137-164 | a missing cart fails without change; otherwise every item of the product is dropped |
| CartController.CartStore.ClearCart | backend/controllers/cartController.js:169-186 | a missing cart fails without change; otherwise the cart is emptied |
| WishlistController.Added | backend/controllers/wishlistController.js:53-55 | the id is listed afterwards; the old list is kept as a prefix and at most the id is appended at its end; a listed id changes nothing |
| WishlistController.Without | backend/controllers/wishlistController.js:87-89 | the id is no longer listed, and exactly the other ids remain |
| WishlistController.AddedIdempotent | backend/controllers/wishlistController.js:53-55 | adding an id twice is adding it once |
| WishlistController.AddedKeepsNoDuplicates | backend/controllers/wishlistController.js:53-55 | adding never lists an id twice, and leaves the list unchanged exactly when the id is present |
| WishlistController.WithoutKeepsOrder | backend/controllers/wishlistController.js:87-89 | the remaining ids keep their order; removing an absent id changes nothing |
| WishlistController.WithoutKeepsNoDuplicates | backend/controllers/wishlistController.js:87-89 | removing never creates a duplicate |
| WishlistController.WishlistStore.GetWishlist | backend/controllers/wishlistController.js:7-28 | a user without a wishlist gets a new empty one and the empty list |
| WishlistController.WishlistStore.AddToWishlist | backend/controllers/wishlistController.js:33-71 | an unknown product changes nothing; a missing wishlist becomes `[id]`; otherwise the id is added unless present; lists stay duplicate-free |
| WishlistController.WishlistStore.RemoveFromWishlist | backend/controllers/wishlistController.js:76-104 | a missing wishlist fails without change; otherwise every occurrence of the id is dropped |
| WishlistController.WishlistStore.ClearWishlist | backend/controllers/wishlistController.js:109-126 | a missing wishlist fails without change; otherwise the list is emptied |
| OrderController.NewOrder | backend/controllers/orderController.js:24-33 | the order carries the requester and the request's items, address, method and four prices unchanged, and is neither paid nor delivered |
| OrderController.MarkedPaid | backend/controllers/orderController.js:85-92 | paid at the given time with the payment details recorded; no other field changes |
| OrderController.MarkedDelivered | backend/controllers/orderController.js:114-123 | delivered at the given time; tracking number and estimated delivery change only to non-empty values; no other field changes |
| OrderController.MarkingKeepsWellFormed | backend/controllers/orderController.js:85-123 | marking paid or delivered keeps an order's time stamps in place, and neither marking undoes the other |
| OrderController.OrderStore.AddOrderItems | backend/controllers/orderController.js:7-48 | a present but empty item list is refused without change (an absent one is not); otherwise the order is stored and the buyer's cart, if any, is emptied |
| OrderController.MayRead | backend/controllers/orderController.js:62 | the owner of an order and every administrator may read it; nobody else may |
| OrderController.OrderStore.GetOrderById | backend/controllers/orderController.js:53-75 | an unknown order is not found; an order whose buyer no longer exists fails for every requester; otherwise the order is returned exactly when its owner or an administrator asks, and refused as not authorised otherwise |
| OrderController.OrderStore.UpdateOrderToPaid | backend/controllers/orderController.js:80-104 | an unknown order or a request without a payer changes nothing; otherwise the order is marked paid |
| OrderController.OrderStore.UpdateOrderToDelivered | backend/controllers/orderController.js:109-135 | an unknown order changes nothing; otherwise the order is marked delivered |
| UserController.NewUser | backend/controllers/userController.js:45-49 | a registered user has the given name, email and password, is not an administrator and has no addresses |
| UserController.ProfileUpdated | backend/controllers/userController.js:111-121 | name and email fall back when falsy; addresses are replaced when given, the password only when non-empty; the admin flag stays |
| UserController.AdminUpdated | backend/controllers/userController.js:178-181 | name and email fall back when falsy; the admin flag changes only when given; password and addresses stay |
| UserController.RegisterKeepsEmailsUnique | backend/controllers/userController.js:38-49 | registering a free email keeps emails unique |
| UserController.ProfileUpdateKeepsEmailsUnique | backend/controllers/userController.js:111-123 | a profile update keeps emails unique exactly when its email is falsy or unused by any other user |
| UserController.UserTable.RegisterUser | backend/controllers/userController.js:34-67 | a taken email is refused without change; otherwise the new user is stored, and unique emails stay unique |
| UserController.UserTable.AuthUser | backend/controllers/userController.js:7-29 | success only for a user with that email whose password matches; with unique emails, success exactly when such a user exists |
| UserController.UserTable.GetUserProfile | backend/controllers/userController.js:83-102 | the stored profile, or not-found |
| UserController.UserTable.UpdateUserProfile | backend/controllers/userController.js:107-139 | an unknown user changes nothing; otherwise the user's record becomes the updated profile and nothing else changes |
| UserController.UserTable.UpdateUser | backend/controllers/userController.js:174-198 | an unknown user changes nothing; otherwise the record becomes the admin update |
| UserController.UserTable.DeleteUser | backend/controllers/userController.js:203-222 | an unknown user and an administrator are refused without change; any other user is removed |
| CartContext.ItemCount | src/context/CartContext.jsx:178 | `itemCount`: the sum of the line quantities |
| CartContext.ItemCountBounds | src/context/CartContext.jsx:178 | without negative quantities the count is not negative and at least any one line's quantity |
| CartContext.CartTotal | src/context/CartContext.jsx:174-176 | `cartTotal`: the sum over the lines of stored price times quantity |
| CartContext.CartTotalNonNegative | src/context/CartContext.jsx:174-176 | without negative prices or quantities the total is not negative |
| CartContext.Occurrences | src/context/CartContext.jsx:55 | the number of lines of a product, zero exactly when it is not in the cart |
| CartContext.Raised | src/context/CartContext.jsx:69-73 | every line of the product gets the added quantity; other lines are unchanged; length and order are kept |
| CartContext.SetTo | src/context/CartContext.jsx:134-138 | every line of the product gets the quantity; other lines are unchanged; length and order are kept |
| CartContext.RaisedCount | src/context/CartContext.jsx:69-178 | raising a product's lines raises the item count by the amount once per line |
| CartContext.RaisedTotal | src/context/CartContext.jsx:69-176 | raising a product's lines by an amount raises the total by the amount times the price stored on each such line |
| CartContext.RaiseIsScaledPrice | src/context/CartContext.jsx:69-176 | the line-by-line raise of the total is the amount times the sum of the prices stored on the product's lines |
| CartContext.RaisedTotals | src/context/CartContext.jsx:69-178 | raising a product in the cart keeps it there and changes the count and the total line by line |
| CartContext.AppendedTotals | src/context/CartContext.jsx:77-178 | appending a line adds its quantity to the count and its price times its quantity to the total |
| CartContext.RemoveFromCart | src/context/CartContext.jsx:104 | the product is gone and no line is added |
| CartContext.RemoveKeepsOthers | src/context/CartContext.jsx:104 | removal works part by part and keeps every line of another product, in order |
| CartContext.SetToCount | src/context/CartContext.jsx:134-178 | setting a quantity replaces what the product's lines held by the quantity once per line |
| CartContext.RemoveCount | src/context/CartContext.jsx:104-178 | removing a product takes away exactly what its lines held |
| CartContext.AddToCart | src/context/CartContext.jsx:50-86 | quantity 1 by default; a product in the cart has each of its lines raised, the count growing by the quantity once per line and the total by the quantity times each such line's stored price (not the price passed in); otherwise one line is appended and the count and total grow by that line |
| CartContext.ServerAddQuantity | src/context/CartContext.jsx:55-61 | an authenticated add sends the first line's quantity plus the added one, or just the added one for a new product |
| CartContext.FirstQuantity | src/context/CartContext.jsx:55 | `find`: the quantity of the first line of the product, plus an extra amount |
| CartContext.UpdateQuantity | src/context/CartContext.jsx:116-145 | zero or less removes the product; otherwise each of its lines gets the quantity, and the count is the rest plus the quantity per line |
| CartContext.ClearCart | src/context/CartContext.jsx:160-178 | the cart becomes empty, so its total is 0 and its count is 0 |
| CartContext.AddKeepsUnique | src/context/CartContext.jsx:68-178 | adds never give a product a second line; with one line per product an add raises the count by exactly the added quantity |
| CartContext.UniqueOccurrence | src/context/CartContext.jsx:55 | with one line per product, a product in the cart occurs once |
| WishlistContext.IsInWishlist | src/context/WishlistContext.jsx:117-121 | `some`: an item matches the id on its own id or on its product's id |
| WishlistContext.AddToWishlist | src/context/WishlistContext.jsx:50-85 | a product already matched changes nothing; otherwise it is appended; either way it is in the wishlist afterwards |
| WishlistContext.RemoveFromWishlist | src/context/WishlistContext.jsx:103-105 | no item matches the id afterwards, and no item is added |
| WishlistContext.AddIdempotent | src/context/WishlistContext.jsx:55-63 | adding twice is adding once |
| WishlistContext.RemoveKeepsOthers | src/context/WishlistContext.jsx:103-105 | removal works part by part and keeps every item that matches on neither field, in order |
| WishlistContext.RemoveThenLookup | src/context/WishlistContext.jsx:103-121 | after a removal another id is found exactly when some item matched it without matching the removed id |
| ProductPage.Lower | src/pages/ProductPage.jsx:57 | `toLowerCase` on ASCII: same length, letters mapped to lower case |
| ProductPage.LowerChar | src/pages/ProductPage.jsx:57 | upper-case ASCII letters move down by 32; every other character is kept |
| ProductPage.Selected | src/pages/ProductPage.jsx:55-73 | the reference selection: only products passing category, search and price, and every such product |
| ProductPage.SortKey | src/pages/ProductPage.jsx:76-97 | the five named sorts have a comparator key; `featured` and any other value have none and keep the filtered order |
| ProductPage.SortKeyOrders | src/pages/ProductPage.jsx:76-97 | sorting by a sort key's comparator puts the listings in the order that sort promises |
| ProductPage.FilterProducts | src/pages/ProductPage.jsx:49-100 | no result for an empty product list; otherwise exactly the selected products (as a multiset), each passing every filter, in the promised order, and in the selection's own order for `featured` or an unknown key |
| ProductPage.PermutedSelectionPasses | src/pages/ProductPage.jsx:71-73 | every reordering of the selection still passes every filter |
| ProductPage.SelectedEverything | src/pages/ProductPage.jsx:55-73 | category `all`, no search term and a range that holds every price keep every product in order |
| ProductPage.CategoryIgnoresCase | src/pages/ProductPage.jsx:55-59 | two categories that differ only in letter case select the same products |

## Left out

- MongoDB persistence (`findById`, `findOne`, `save`, `populate`, `countDocuments`) becomes maps in memory. A new record's id is supplied by the caller and must be unused. Schema validation is not modelled, nor is the error a failed save would raise.
- The keyword regex and the category match of `getProducts` are not modelled. Only the paging arithmetic over the matching products is.
- `getProductById`, `deleteProduct`, `getTopProducts`, `logoutUser`, `getUsers`, `getUserById`, `getMyOrders` and `getOrders` are plain reads or deletes through the database, and are not modelled.
- Express routing, HTTP status codes, JSON responses, JWT cookies and the auth middleware are not modelled. The requester's id and admin flag are parameters.
- Password hashing is not modelled. `AuthUser` takes the comparison as a parameter.
- The order model is not part of this model. `NewOrder` assumes that `isPaid` and `isDelivered` default to false and that the payment result and time stamps start absent. It also assumes that an absent `orderItems` stays absent. A schema default for the array would store `[]` there instead, an order that `WellFormed`, the store's invariant, does not admit.
- ProductController.Paginate: a negative page size is passed to `limit` as is. The database reads a negative limit as its absolute value in a single batch, and `PageOf` does not model that case.
- The user model is not part of this model. New users are assumed to default to `isAdmin = false` and no addresses. Its unique index on email is not modelled, so `UserTable` keeps no email invariant: registration preserves unique emails, and `ProfileUpdateKeepsEmailsUnique` states when a profile update does.
- `Math.random()` draws are parameters in [0, 1). `Date.now()` and `new Date()` are a `now` parameter. Dates are integer timestamps.
- Numbers are unbounded reals and integers, not IEEE doubles, and there is no NaN or rounding error. A query value is modelled as an optional integer: `None` stands for a missing or non-numeric value, and fractional page values are not modelled.
- Case folding uses ASCII letters only; `toLowerCase` also maps other scripts.
- ProductPage.FilterProducts: the `'newest'` order compares ids with `localeCompare`. Locale collation is not modelled: a caller-supplied rank of each id stands in for it, and the sort is by that rank, descending.
- Array `sort` is modelled by a stable insertion sort on a numeric key, as the ECMAScript 2019 stability requirement allows. Any stable sort by the same key gives the same result, so the algorithm the engine uses is not modelled.
- The authenticated branches of the two client contexts (axios calls) are not modelled, except the quantity the cart sends on an add (`ServerAddQuantity`). Also not modelled: `localStorage` syncing, toasts, loading flags and the mock-product generator.
- CartContext.AddToCart: `product.price` is a number, so the optional chaining in `cartTotal` is not modelled. A line always has a product.
- WishlistContext.AddToWishlist: callers that pass a bare id, instead of a product, are not modelled. The function's own signature is.
