# Storefront cart, catalog and logo rules in Dafny

This project models the parts of a storefront (a React front end over a Django
product API) whose behaviour can be stated exactly:

- **Cart** (`cart.dfy`): the home page's and the product page's `addToCart`.
  Each one resolves the effective unit price, checks the stock, merges repeated
  adds of one product id into a single line and persists the cart under the
  `cart` storage key. The module also models `loadCart`, `handleCartChange`,
  both `handleCheckoutComplete` handlers and `getCartItemCount`. `CartStore` is
  a class with a `cart` field and a `stored` field. `stored` stands for the
  storage key and is `None` when the key is absent.
- **Pricing and stock** (`products.dfy`): `priceNum`, `finalPrice` and
  `stockCount`, which both pages compute in the same way.
- **Catalog** (`catalog.dfy`): the normalisation applied to the products
  response, the product grid shown when a category is selected, the
  per-category sections of the home view and the search box.
- **Product page state** (`product_page.dfy`): the quantity stepper and the
  favorites toggle.
- **Banner carousel** (`banner.dfy`): slide index moves, image URL resolution
  and the click routing decision.
- **Username validator** (`username.dfy`).
- **Logo table** (`logos.dfy`, `logo_migration.dfy`): the single-active rule of
  `Logo.save` and data migration 0010, which deletes invalid logos.

Prices are integers in minor currency units. A JavaScript field that may be
missing is an `Option`. A product's optional text field (`description`,
`category_name`, the three image fields) is the empty string when missing.
Every test the catalog code makes on those fields treats a missing value and
`""` alike. A numeric id that is `0` or
missing is falsy in the code, and the model keeps that. The selected category
is `Option<int>`, and `Some(0)` counts as "no category", as `!selectedCategory`
does.

Behaviour as written, which the model follows:

- The cart price never uses `discount_percentage`. A non-zero `discounted_price`
  is trusted as given, even above `price`. `Products.DiscountedPriceNotCapped`
  exhibits such a product.
- The grid and the category grouping search `name` and `description` only. The
  search box also searches `category_name`. `Catalog.GridSearchIgnoresCategoryName`
  exhibits a product that the search box finds and the grid hides.
- The grid (`filteredProducts`) is rendered only when a category is selected.
  Without one the page shows a section per category, built by
  `getProductsForCategory`. That function ignores `show_on_homepage`, so the
  flag never changes what the page shows
  (`Catalog.HiddenProductStillInHomeSections`,
  `Catalog.HomeSectionsIgnoreHomepageFlag`).
- The category sections drop products whose `is_active` is `false`. The grid
  has no such gate (`Catalog.InactiveProductOnlyInGrid`).
- The grid treats only the exact empty term as "no search". The search box treats
  any blank term as "no search".
- The home page's checkout handler empties the in-memory cart and leaves storage
  as it is. The product page's handler also removes the stored record.
- `Logo.save` deactivates the other rows only when the saved logo is active. A
  table that already holds several active rows keeps them through an inactive
  save (`Logos.OnlyActiveSaveRestoresInvariant`).
- `image_url` is a non-null column, so the `None` in migration 0010's first
  filter matches no row. `Logo.image_url` is therefore a plain string here.

## Model

| member | source | states |
|---|---|---|
| `Products.FinalPrice` | frontend/src/pages/ProductDetail.jsx:154-161 | A non-zero `discounted_price` is the price. Otherwise a positive `discount_amount` gives `max(price - amount, 0)`. Otherwise the price is `price`, with a missing price read as 0 |
| `Products.StockCount` | frontend/src/pages/ProductDetail.jsx:157 | A numeric `stock_quantity` is the stock. Otherwise the stock is 1 exactly when `is_in_stock`, else 0 |
| `Products.PriceNum` | frontend/src/pages/ProductDetail.jsx:154 | The numeric `price` when present, and 0 when it is missing |
| `Products.FinalPriceBounds` | frontend/src/pages/Home.jsx:197-201 | Without a trusted `discounted_price` and with a non-negative price, the effective price lies in `[0, price]` |
| `Products.PercentageNeverApplied` | frontend/src/pages/Home.jsx:197-209 | Changing `discount_percentage` never changes the cart price |
| `Products.DiscountedPriceNotCapped` | frontend/src/pages/Home.jsx:199-200 | Some product's effective price exceeds its original price, because `discounted_price` is not checked against `price` |
| `Products.DiscountedPriceWinsOverPercentage` | frontend/src/pages/ProductDetail.jsx:159-161 | With price 100, 50 percent off and a discounted price of 80, the price is 80 |
| `Products.ZeroDiscountedPriceFallsThrough` | frontend/src/pages/Home.jsx:199-201 | A zero `discounted_price` is falsy, so the price is computed as if it were absent |
| `Catalog.ProductList` | frontend/src/pages/Home.jsx:88 | An array body is the list. Otherwise the list is the object's `results`, or empty when there are none |
| `Catalog.ImageOf` | frontend/src/pages/Home.jsx:93 | The image is the first non-empty of `image`, `main_image_url`, `main_image`. It is absent exactly when all three are empty |
| `Catalog.Normalize` | frontend/src/pages/Home.jsx:105-110 | The listing keeps the product and adds the resolved image, `StockCount` as `stock`, and the percentage (0 when absent) as `discount` |
| `Catalog.NormalizeAll` | frontend/src/pages/Home.jsx:88-111 | There is one normalised listing per product of the unwrapped list, in the same order |
| `Catalog.FilteredProducts` | frontend/src/pages/Home.jsx:255-267 | A listing is kept iff it is in the input and all three gates pass. (1) No category is selected, or the category matches. (2) The term is empty, or the name or description contains it case-insensitively. (3) A category is selected, or `show_on_homepage` is not `false` |
| `Catalog.ProductsForCategory` | frontend/src/pages/Home.jsx:270-279 | A listing is kept iff its category equals the id exactly, `is_active` is not `false`, and the name or description search passes. The homepage flag is ignored |
| `Catalog.SearchResults` | frontend/src/pages/Home.jsx:52-67 | A blank term gives `None`. Otherwise the result keeps exactly the products whose name, category name or description contains the term case-insensitively |
| `Catalog.FiltersPreserveOrder` | frontend/src/pages/Home.jsx:255-279 | The grid filter and the per-category grouping each distribute over concatenation, so input order is kept |
| `Catalog.SearchPreservesOrder` | frontend/src/pages/Home.jsx:60-64 | For a non-blank term, the search results distribute over concatenation, so input order is kept |
| `Catalog.HomepageGateOnlyWithoutCategory` | frontend/src/pages/Home.jsx:262-264 | The grid filter's homepage gate applies only without a selected category. A product flagged off the homepage is dropped by the filter with no category and kept when its own category is selected |
| `Catalog.HomeSectionsIgnoreHomepageFlag` | frontend/src/pages/Home.jsx:270-279 | Re-flagging every product's `show_on_homepage` and then grouping gives the same category sections as grouping first and then re-flagging |
| `Catalog.HiddenProductStillInHomeSections` | frontend/src/pages/Home.jsx:755-769 | With no category selected, the page shows the category sections. An active product flagged off the homepage is dropped by the grid filter but is still the whole of its category's section |
| `Catalog.InactiveProductOnlyInGrid` | frontend/src/pages/Home.jsx:598-621 | The grid shown for a selected category keeps an inactive product of that category. The category sections drop it |
| `Catalog.GridSearchIgnoresCategoryName` | frontend/src/pages/Home.jsx:258-260 | Some product is found by the search box through its category name and hidden from the grid by the same term |
| `Catalog.LaptopSearchScenario` | frontend/src/pages/Home.jsx:60-64 | Searching "laptop" over "Laptop X" and "Mouse", both in "Electronics", returns only the laptop |
| `Cart.FindIndex` | frontend/src/pages/Home.jsx:180 | Gives the position of the first line with the id. It is absent exactly when no line has the id |
| `Cart.SetQuantity` | frontend/src/pages/ProductDetail.jsx:89-93 | The `cart.map` that re-quantifies the lines of one id. It keeps the length; `Cart.SetQuantityChangesOnlyId` states the rest |
| `Cart.SetQuantityChangesOnlyId` | frontend/src/pages/Home.jsx:190-194 | For `SetQuantity`, every line with the id gets the new quantity and keeps its snapshot and prices. All other lines are unchanged. Length, ids and order are kept |
| `Cart.NewLine` | frontend/src/pages/ProductDetail.jsx:99-104 | A new line has the product id, `price = finalPrice`, `original_price = priceNum` and the chosen quantity |
| `Cart.ItemCount` | frontend/src/pages/ProductDetail.jsx:128-130 | The left fold `total + item.quantity` from 0. `Cart.ItemCountAtLeastLines`, `Cart.ItemCountSetQuantity` and `Cart.DetailAddCount` state its behaviour |
| `Cart.ItemCountAtLeastLines` | frontend/src/pages/Home.jsx:281-283 | The left fold of the line quantities is at least the number of lines when every quantity is positive |
| `Cart.HomeAdd` | frontend/src/pages/Home.jsx:173-217 | The add is refused as out of stock iff `stock <= 0`. It succeeds iff the stock is positive and, for an id already in the cart, the line's quantity plus one stays within the stock. An exceeds-stock refusal reports the stock and happens only for an id already in the cart. A refused add leaves the cart unchanged |
| `Cart.DetailAdd` | frontend/src/pages/ProductDetail.jsx:74-112 | The add is refused as out of stock iff `stockCount <= 0`. It succeeds iff `stockCount` is positive and the requested quantity, plus the existing line's quantity for an id already in the cart, stays within `stockCount`. An exceeds-stock refusal reports `stockCount`. A refused add leaves the cart unchanged |
| `Cart.HomeAddKeepsInvariants` | frontend/src/pages/Home.jsx:175-210 | After a successful add, the product is in the cart and its lines are within stock. Unique ids stay unique |
| `Cart.DetailAddKeepsInvariants` | frontend/src/pages/ProductDetail.jsx:75-105 | After a successful add, the product is in the cart and its lines are within `stockCount`. Unique ids stay unique |
| `Cart.ItemCountSetQuantity` | frontend/src/pages/Home.jsx:190-194 | With unique ids, changing one line's quantity changes the count by exactly the difference |
| `Cart.HomeAddMerges` | frontend/src/pages/Home.jsx:180-194 | A repeated add within stock raises exactly that line by one and keeps its frozen prices. Other lines and the order are unchanged, and the count rises by one |
| `Cart.HomeAddAppends` | frontend/src/pages/Home.jsx:195-210 | A new id with positive stock appends one line of quantity 1 at the end. The length and the count each rise by one |
| `Cart.DetailAddCount` | frontend/src/pages/ProductDetail.jsx:83-106 | With unique ids, a successful add raises the item count by exactly the chosen quantity |
| `Cart.DetailAddAppends` | frontend/src/pages/ProductDetail.jsx:94-106 | A new id with positive stock and a quantity within it appends `NewLine(p, quantity)` at the end, and the count rises by that quantity |
| `Cart.HomeAddIsDetailAddOfOne` | frontend/src/pages/Home.jsx:173-211 | For normalised stock, the home page's add equals the product page's add with quantity 1 |
| `Cart.MergeKeepsFirstPrice` | frontend/src/pages/ProductDetail.jsx:84-93 | Adding 2 then 3 of one id (stock at least 5) gives a single line of 5. The line keeps the first add's prices even when the product's price has changed |
| `Cart.StockCeiling` | frontend/src/pages/ProductDetail.jsx:84-88 | With stock 3, adding 2 then 2 refuses the second add as exceeding stock 3, and the line stays at 2 |
| `Cart.OutOfStockRefused` | frontend/src/pages/ProductDetail.jsx:75-78 | A product with `stock_quantity` 0 is refused by both pages, and the cart is unchanged |
| `Cart.CartStore.constructor` | frontend/src/pages/Home.jsx:18 | A page mounts with an empty cart over the existing storage |
| `Cart.CartStore.LoadCart` | frontend/src/pages/Home.jsx:161-166 | The cart becomes the stored cart when one exists and is unchanged otherwise. Storage is only read |
| `Cart.CartStore.HandleCartChange` | frontend/src/pages/Home.jsx:168-171 | The cart and storage both become the new cart |
| `Cart.CartStore.AddFromHome` | frontend/src/pages/Home.jsx:173-217 | The outcome and cart are those of `HomeAdd`. A success writes the cart to storage. A refusal changes neither cart nor storage. Ids stay unique and the product's lines stay within stock |
| `Cart.CartStore.AddFromDetail` | frontend/src/pages/ProductDetail.jsx:74-112 | The outcome and cart are those of `DetailAdd`. A success writes the cart to storage. A refusal changes neither cart nor storage. Ids stay unique and the product's lines stay within `stockCount` |
| `Cart.CartStore.CheckoutCompleteDetail` | frontend/src/pages/ProductDetail.jsx:67-72 | The cart is empty and the stored record is removed |
| `Cart.CartStore.CheckoutCompleteHome` | frontend/src/pages/Home.jsx:249-253 | The cart is empty and storage is unchanged |
| `Cart.StartSession` | frontend/src/pages/ProductDetail.jsx:51-56 | A new session reads back exactly the stored cart, or an empty cart when nothing is stored |
| `Cart.PersistenceRoundTrip` | frontend/src/pages/ProductDetail.jsx:108-109 | The add applied to the loaded cart gives the outcome and cart of `DetailAdd`. The next session reads back that cart, and after a refusal the stored cart is unchanged. After checkout on the product page, the next session loads an empty cart |
| `ProductPage.StepDown` | frontend/src/pages/ProductDetail.jsx:395 | The minus button gives `max(1, q - 1)`, which is never below 1 |
| `ProductPage.StepUp` | frontend/src/pages/ProductDetail.jsx:404 | The plus button gives `min(stockCount, q + 1)`, which is never above the stock |
| `ProductPage.StepperStaysInRange` | frontend/src/pages/ProductDetail.jsx:13 | Both buttons keep the quantity in `[1, stockCount]` |
| `ProductPage.StepUpThenDown` | frontend/src/pages/ProductDetail.jsx:394-405 | Below the stock ceiling, plus then minus returns to the starting quantity |
| `ProductPage.QuantityStepper.constructor` | frontend/src/pages/ProductDetail.jsx:13 | The quantity starts at 1 |
| `ProductPage.QuantityStepper.Decrement` | frontend/src/pages/ProductDetail.jsx:395 | The quantity becomes `StepDown` of the old quantity and stays between 1 and the old value |
| `ProductPage.QuantityStepper.Increment` | frontend/src/pages/ProductDetail.jsx:404 | The quantity becomes `StepUp` of the old quantity and stays in `[1, stockCount]` when it started there |
| `ProductPage.WithoutId` | frontend/src/pages/ProductDetail.jsx:430 | The result is the list filtered by `OtherId`. No entry has the id, every entry with another id is kept, and a list without the id is returned unchanged |
| `ProductPage.WithoutIdKeepsOrder` | frontend/src/pages/ProductDetail.jsx:430 | Removing an id distributes over concatenation, so the kept entries stay in their order and multiplicity |
| `ProductPage.ToggleFavorite` | frontend/src/pages/ProductDetail.jsx:426-437 | Membership of the id flips. A favorite product is removed with `WithoutId`. A product that is not a favorite is pushed onto the end of the list. Entries with other ids are kept, and no new ones appear |
| `ProductPage.ToggleTwiceRestores` | frontend/src/pages/ProductDetail.jsx:429-436 | From a list without the product, toggling twice restores the list |
| `ProductPage.FavoritesStore.constructor` | frontend/src/pages/ProductDetail.jsx:426 | The store holds whatever the `favorites` key contains |
| `ProductPage.FavoritesStore.Toggle` | frontend/src/pages/ProductDetail.jsx:425-438 | Storage becomes the toggled list, with a missing key read as an empty list. The result says whether the product was added |
| `Banner.NextIndex` | frontend/src/components/BannerSlider.jsx:43-45 | The next slide stays in `[0, n)` and wraps from the last slide to 0 |
| `Banner.PrevIndex` | frontend/src/components/BannerSlider.jsx:39-41 | The previous slide stays in `[0, n)` |
| `Banner.NextPrevInverse` | frontend/src/components/BannerSlider.jsx:39-45 | Previous after next, and next after previous, return to the starting index |
| `Banner.Carousel.constructor` | frontend/src/components/BannerSlider.jsx:8 | The index starts at 0 |
| `Banner.Carousel.GoToNext` | frontend/src/components/BannerSlider.jsx:43-45 | The index moves to `NextIndex` and stays valid |
| `Banner.Carousel.GoToPrevious` | frontend/src/components/BannerSlider.jsx:39-41 | The index moves to `PrevIndex` and stays valid |
| `Banner.Carousel.Tick` | frontend/src/components/BannerSlider.jsx:31-37 | With more than one banner, one timer firing advances the index. With fewer, nothing changes |
| `Banner.Carousel.SelectDot` | frontend/src/components/BannerSlider.jsx:164-167 | Clicking dot `k` sets the index to exactly `k` |
| `Banner.ImageUrl` | frontend/src/components/BannerSlider.jsx:110-114 | The result always starts with `http` and ends with the image value. It is the value itself exactly when the value starts with `http`. A `/media/…` path is placed on the host as is. Any other value is a file under the host's `/media/` |
| `Banner.MediaPathNotDoubled` | frontend/src/components/BannerSlider.jsx:112-113 | `/media/` followed by a file resolves to the host, one `/media/` and the file: the segment is never doubled |
| `Banner.ImageUrlIdempotent` | frontend/src/components/BannerSlider.jsx:110-114 | Resolving a resolved URL changes nothing |
| `Banner.Click` | frontend/src/components/BannerSlider.jsx:53-68 | A link other than `#` wins: it opens a new window iff it starts with `http`, and is navigated to otherwise. Without such a link, a non-zero product id goes to `/product/<id>`, and otherwise a non-zero category id goes to `/category/<id>`. With no link and no ids there is no action |
| `Banner.ProductBeforeCategory` | frontend/src/components/BannerSlider.jsx:53-65 | With no link or a `#` link, a product id wins over a category id: the category id does not change where the click leads |
| `Username.FindForbiddenSymbol` | backend/users/validators.py:10 | True iff some character is one of the listed symbols |
| `Username.Validate` | backend/users/validators.py:6-23 | The value is accepted iff it is non-empty, has no listed symbol, and has length in `[2, 150]`. Otherwise the first failing check decides the error, in the order empty, symbols, too short, too long |
| `Username.AcceptsNameChars` | backend/users/validators.py:10-23 | A name of letters of any script, digits, `_`, `-`, `.` or spaces, with length in `[2, 150]`, is accepted |
| `Username.AcceptsArabicAndLatin` | backend/users/validators.py:6-23 | Arabic and Latin sample names are accepted |
| `Username.SymbolCheckedBeforeLength` | backend/users/validators.py:10-18 | A one-character symbol is reported as a symbol, not as too short |
| `Logos.NewLogo` | backend/products/models_logo_fix.py:4-6 | A new logo has the default name and is active |
| `Logos.DeactivateOthers` | backend/products/models_logo_fix.py:23 | Every row except `pk` becomes inactive and keeps its other fields. The row `pk` and the key set are unchanged |
| `Logos.SaveTable` | backend/products/models_logo_fix.py:17-24 | An empty URL fails and writes nothing. Otherwise row `pk` is written. An active save deactivates every other row and changes nothing else about it, so `pk` is the only active row. An inactive save leaves every other row unchanged |
| `Logos.SavePreservesSingleActive` | backend/products/models_logo_fix.py:22-24 | A successful save keeps the at-most-one-active invariant |
| `Logos.OnlyActiveSaveRestoresInvariant` | backend/products/models_logo_fix.py:22-23 | An active save always leaves at most one active logo. An inactive save keeps any pre-existing double activation |
| `Logos.NewLogoBecomesTheActiveOne` | backend/products/models_logo_fix.py:4-6 | Saving a logo created from a URL alone makes it the single active logo |
| `Logos.LogoTable.Save` | backend/products/models_logo_fix.py:17-24 | The save succeeds iff the URL is non-empty. A failure leaves the table unchanged. A success produces the `SaveTable` result and keeps the single-active invariant |
| `Logos.LogoTable.DeleteWhere` | backend/products/migrations/0010_delete_invalid_logos.py:6-13 | Exactly the rows whose URL matches are removed. The others are kept unchanged |
| `LogoMigration.Purge` | backend/products/migrations/0010_delete_invalid_logos.py:4-13 | No remaining row has an invalid URL. Every row with a valid URL remains, unchanged |
| `LogoMigration.InFirstPass` | backend/products/migrations/0010_delete_invalid_logos.py:6-12 | The first delete matches the empty URL and the exact placeholder URL. No URL is null, so `None` in the list matches nothing |
| `LogoMigration.InSecondPass` | backend/products/migrations/0010_delete_invalid_logos.py:13 | The second delete matches every URL that starts with `https://via.placeholder` |
| `LogoMigration.PlaceholderUrlHasPrefix` | backend/products/migrations/0010_delete_invalid_logos.py:9-13 | The second filter also catches the exact placeholder URL of the first |
| `LogoMigration.NoInvalidRemains` | backend/products/migrations/0010_delete_invalid_logos.py:6-13 | Afterwards no URL is empty, is the placeholder, or starts with `https://via.placeholder` |
| `LogoMigration.PurgeIdempotent` | backend/products/migrations/0010_delete_invalid_logos.py:4-13 | A second run deletes nothing more |
| `LogoMigration.PurgeKeepsSingleActive` | backend/products/migrations/0010_delete_invalid_logos.py:4-13 | The deletions keep the at-most-one-active invariant |
| `LogoMigration.DeleteInvalidLogos` | backend/products/migrations/0010_delete_invalid_logos.py:4-13 | The two deletes in sequence leave exactly the `Purge` of the table |
| `LogoMigration.ReverseInvalidLogos` | backend/products/migrations/0010_delete_invalid_logos.py:16-17 | The reverse step leaves the table unchanged |

## Left out

- Rendering, CSS and markup are not modelled. The list endpoints, categories, logo and banner fetches are network I/O; their responses are inputs here (`Catalog.Response`, the carousel's banner count).
- Notifications are not modelled: the DOM elements and their timers become the `AddOutcome` values. `console.log`, image `onError` fallbacks and `window.location.reload` are also left out.
- `JSON.parse` and `JSON.stringify` are foreign calls. Storage holds the cart value itself, so a stored cart always reads back intact. The code has no recovery for malformed stored data.
- Cart quantity updates, line removal and checkout itself live in the cart and checkout components, which are not part of this model.
- Only single-tab behaviour is modelled. Two tabs overwriting each other's `cart` key and out-of-order fetch responses are concurrency effects.
- The percentage price shown on product cards multiplies by `1 - p/100` in floating point. It is display only and never reaches the cart.
- Decimal fields that arrive as strings are not modelled: a `"0.00"` `discounted_price` is truthy in the code. The model reads prices as integers, so 0 falls through.
- `Text.Lower`: only ASCII letters are lower-cased. JavaScript's full Unicode case mapping is not modelled. Arabic text has no case, so it is exact for Arabic.
- `Text.IsBlank`: the whitespace set of `trim` is cut to ASCII white space, no-break space and the byte-order mark.
- `Catalog.SearchResults`: a missing `name` throws `TypeError` in the code. The model's name is always a string.
- Banner.ImageUrl: a banner without an `image` makes `startsWith` throw in the code. The model's image is always a string, and it resolves `""` to the host's `/media/`.
- Cart.CartItem: the snapshot is the raw product. The home page's line spreads the normalised listing, which adds `image`, `stock` and `discount` to it. The product page's line spreads the raw product. `Cart.HomeAddIsDetailAddOfOne` therefore equates the lines' prices, quantities and product fields, not those three display fields.
- Carousel moves assume at least one banner. With none, the code computes `NaN` or `-1`, but the arrows and dots are not rendered.
- `Logo.save` for a new row excludes `pk=None`, which excludes nothing. The model excludes the key the new row receives. That key is not yet in the table, so the effect is the same.
- The logo timestamps, `__str__` and the user model and admin configuration are declarative and have no modelled behaviour. Migration 0009 only changes the schema.
- The category slider's scroll and resize handling is UI only.
- `LogoMigration.InSecondPass`: the model uses case-sensitive, exact matching, as on PostgreSQL. On SQLite, `startswith` becomes an ASCII case-insensitive `LIKE`. On MySQL, `__in` follows the column's collation. Those back ends could delete more rows than the model does.
- `LogoMigration.InFirstPass`: it uses the same case-sensitive, exact matching as `InSecondPass`.
