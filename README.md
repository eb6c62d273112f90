# Store front logic, modelled in Dafny

This project models the client-side logic of a small e-commerce front end. The front end
is a Vue application backed by a hosted Postgres service. The modelled pieces are:

- **The time-to-live check** (`isCacheValid`). Every cached entry has a `<key>_timestamp`
  sibling, and the entry is fresh for strictly less than one hour.
- **The products store.**
  - Product pages are cached under keys derived from page and category.
  - A cached page is served only after a structural check.
  - Otherwise the page is fetched and stored as four entries.
  - Featured products and categories have their own caches.
  - `clearProductsCache` invalidates by prefix.
  - `validateCache`, run when the store is created, sweeps corrupt entries.
- **The legacy catalogue store and the featured-products store.** These are older variants
  of the same pattern: no structural check, a shared count key, no expiry for featured
  products, and a `JSON.parse` outside the error handler.
- **The shopping cart.** Adding, removing and updating line items in place, plus the totals.
- **The administration product list.** Paged listing, search and category filter; page
  arithmetic and navigation; list edits after create, update and delete; fallback categories.
- **The form validators.** The South African phone formatter and validator, and the
  password and e-mail validators.
- **The error logger.** Severity classification and the logged record.

The models are built as follows:

- **Stores are classes.** Each field is a store ref. Local storage is a shared
  `Storage.LocalStorage` object whose `items` map the methods update in place.
- **Each store method is proved against a function of the old state.** The method's
  postcondition is `State() == F(old(State()), …)`. The properties the code promises are
  lemmas about `F`: what is served, what is written, what is kept, and round trips
  through the cache.
- **Loops stay loops.** The key walks of `clearProductsCache` and `validateCache`, the page
  loop of the legacy `clearProductsCache`, and the cart's reductions and `findIndex` are
  `while` loops with invariants.
- **The clock and the upstream service are parameters.**
  - The clock value `now` is in milliseconds.
  - Query answers are a `Reply`: rows plus count, an error result, or a throw.
  - The administration store uses `Answer` and `ListingAnswers` instead.
- **JSON is abstract.** It is a `Json` value type plus a `Codec` pair (parse, which may
  fail, and stringify). Round-trip lemmas assume `ValidCodec`, under which parse undoes
  stringify.
- **`parseInt` and `String(n)` are modelled concretely**, and they are proved to round-trip.
  So a timestamp written as `String(now)` reads back as `now`.

Three behaviours of the code that the model keeps as written:

- `clearProductsCache` also removes `categories` and its timestamp.
- A failed fetch keeps the previously shown products instead of emptying them.
- The legacy and featured stores let a corrupt cached entry escape as an exception instead
  of treating it as a miss.

## Model

| member | source | states |
|---|---|---|
| CacheUtils.IsCacheValid | src/stores/supabase/utils/cacheUtils.js:1-8 | Valid only when the `_timestamp` sibling is present and non-empty, `parseInt` reads a number `t` from it, and `now - t < 3600000`. |
| CacheUtils.StampedEntryValidity | src/stores/supabase/utils/cacheUtils.js:5-7 | A stamp written as `String(t)` makes the entry valid exactly when `now - t < 3600000`. |
| CacheUtils.ExpiryBoundary | src/stores/supabase/utils/cacheUtils.js:7 | The entry is valid 3,599,999 ms after writing and invalid at exactly 3,600,000 ms. |
| CacheUtils.UnreadableStampIsStale | src/stores/supabase/utils/cacheUtils.js:5-7 | A stamp with no digit parses to NaN, so the entry is stale; this is not an error. |
| CacheUtils.ValidityIsMonotone | src/stores/supabase/utils/cacheUtils.js:7 | Valid at `now` implies valid at every earlier clock value, including one before the stamp. |
| CacheUtils.ReadsOnlyTimestamp | src/stores/supabase/utils/cacheUtils.js:1-8 | The answer depends only on the timestamp sibling: maps that agree on it give the same answer. |
| Numeric.ParseIntOfIntToString | src/stores/supabase/utils/cacheUtils.js:5-7 | `parseInt(String(i)) == i` for every integer, so stored clock values read back exactly. |
| Numeric.IntToStringInjective | src/stores/supabase/productsStore.js:94-97 | Distinct integers render as distinct strings. |
| Numeric.CeilDiv | src/stores/supabase/productsStore.js:231 | `Math.ceil(n / d)` is the least `q` with `n <= q * d`. |
| ProductsCache.PageKeyInjective | src/stores/supabase/productsStore.js:91-97 | Page keys are equal exactly when the pages are equal and the truthy category ids are equal; `null` and 0 both mean no category. |
| ProductsCache.CountKeyInjective | src/stores/supabase/productsStore.js:91-97 | Count keys are equal exactly when the truthy category ids are equal. |
| ProductsCache.PageKeysDistinct | src/stores/supabase/productsStore.js:94-97 | The page key, the count key and their timestamp keys are four distinct keys. |
| ProductsCache.ReadCachedPageServes | src/stores/supabase/productsStore.js:113-134 | A served page had its page entry and count entry present and a fresh page timestamp. It parsed to a non-empty array of products with truthy `id` and `product_name` and array images and features. A hit also needs the count to parse, and its page count is `ceil(count / 20)`. |
| ProductsCache.CachedEmptyPageIsRefetched | src/stores/supabase/productsStore.js:117-120 | A cached empty array is never served. |
| ProductsCache.CachedFeatured | src/stores/supabase/productsStore.js:101-110 | The featured cache serves only a present, fresh entry that parses to an array. |
| ProductsCache.CachedCategories | src/stores/supabase/productsStore.js:28-51 | Cached categories are served only when fresh, parsed, and each has a truthy `id` and `category_name` and a boolean `enabled`. |
| ProductsCache.NormalizeRow | src/stores/supabase/productsStore.js:234-242 | A cached row keeps every field, and `product_image` and `product_features` become arrays (`[]` when not arrays). |
| ProductsCache.PageWritesEffect | src/stores/supabase/productsStore.js:245-248 | A fetch writes exactly four entries: normalised page, page timestamp, count, count timestamp. Every other key keeps its value. |
| ProductsCache.FetchPageEffect | src/stores/supabase/productsStore.js:159-258 | A failed or `null` answer sets an error and leaves rows, page, count and storage alone. Rows set products, page and `ceil(count / 20)`, and are written to the cache. |
| ProductsCache.StoredPageIsServed | src/stores/supabase/productsStore.js:113-134 | Well-formed rows written at `t` are served back within the hour, as cached, with `ceil(count / 20)` pages. |
| ProductsCache.FetchFeaturedEffect | src/stores/supabase/productsStore.js:265-343 | A fresh cached list is served untouched. A failed query changes nothing. Only the featured entry and its timestamp are ever written. |
| ProductsCache.StoredFeaturedIsServed | src/stores/supabase/productsStore.js:332-336 | Featured rows cached at `t` are served from the cache for the next hour. |
| ProductsCache.StoredNullFeaturedIsNotServed | src/stores/supabase/productsStore.js:332-336 | A `null` answer becomes `[]` in the state and is cached as `null`, which no later read serves. |
| ProductsCache.FetchCategoriesEffect | src/stores/supabase/productsStore.js:26-78 | Fresh valid categories are served untouched. An upstream error becomes the store error. Only the categories entry and its timestamp are ever written. |
| ProductsCache.StoredCategoriesAreServed | src/stores/supabase/productsStore.js:53-71 | Categories with an id, a name and a boolean `enabled`, fetched at `t`, are served for the next hour. |
| ProductsCache.RequestOutcome | src/stores/supabase/productsStore.js:86-259 | A hit serves the cached rows and page count with no error. An error implies a miss. A miss whose query fails always leaves an error. |
| ProductsCache.FeaturedFetchKeepsPageRead | src/stores/supabase/productsStore.js:137-156 | The featured fetch inside `getProducts` never changes what the page cache reads. |
| ProductsCache.RepeatRequestIsServedFromCache | src/stores/supabase/productsStore.js:86-259 | After a successful fetch at `t`, an identical request within the hour is a hit. It serves the cached rows for that page, with the same page count and no error. |
| ProductsCache.ClearedCache | src/stores/supabase/productsStore.js:348-361 | Exactly the `products.` keys, `categories` and `categories_timestamp` are removed; other keys keep their values. |
| ProductsCache.ClearedCacheServesNothing | src/stores/supabase/productsStore.js:348-361 | After clearing, no page, no categories and no featured list are served from the cache. |
| ProductsCache.PageKeyIsSwept | src/stores/supabase/productsStore.js:387-390 | The sweep inspects every page key. |
| ProductsCache.EmptyPageSurvivesSweep | src/stores/supabase/productsStore.js:387-413 | A cached empty page passes the sweep, although a read never serves it. |
| ProductsCache.SweepRemovesCounts | src/stores/supabase/productsStore.js:387-413 | The sweep removes every count entry holding a number. |
| ProductsCache.SweepDisablesPageCache | src/stores/supabase/productsStore.js:387-413 | After the sweep, no page whose count was written by a fetch is served from the cache. |
| ProductsCache.CorrectedSweepKeepsServedPages | src/stores/supabase/productsStore.js:387-413 | With count entries exempt from the sweep, whatever they hold (a number, or `null` when the query gave no count), every page the cache would serve is still served, with the same items and page count. |
| Products.ProductsStore.constructor | src/stores/supabase/productsStore.js:13-21 | Initial refs, with storage equal to the start-up sweep of the old storage (the call at line 495). |
| Products.ProductsStore.GetCategories | src/stores/supabase/productsStore.js:26-78 | Categories, error and storage become `FetchCategories` of the old ones; no other ref changes. |
| Products.ProductsStore.GetFeaturedProducts | src/stores/supabase/productsStore.js:265-343 | Featured list and storage become `FetchFeatured` of the old ones; no other ref changes. |
| Products.ProductsStore.GetProducts | src/stores/supabase/productsStore.js:86-259 | The state becomes `ProductsRequest` of the old state. The page query is issued exactly when the cache read is not a hit. `loading` ends false. |
| Products.ProductsStore.ServeCachedPage | src/stores/supabase/productsStore.js:132-142 | The hit path: cached rows, page and page count, then the featured fetch for an empty page 1. |
| Products.ProductsStore.FetchAndCachePage | src/stores/supabase/productsStore.js:152-248 | The miss path: the featured fetch when needed, then the page query. |
| Products.ProductsStore.PreloadFeatured | src/stores/supabase/productsStore.js:101-110 | A fresh cached featured array replaces the list; nothing else changes. |
| Products.ProductsStore.QueryPage | src/stores/supabase/productsStore.js:159-248 | Rows, page, count, error and storage become `FetchPage` of the old ones. |
| Products.ProductsStore.ClearProductsCache | src/stores/supabase/productsStore.js:348-361 | Storage becomes `ClearedCache` of the old storage. Products, featured products and categories become `[]`. |
| Products.ProductsStore.ValidateCache | src/stores/supabase/productsStore.js:367-419 | Storage becomes `SweptCache` of the old storage: corrupt categories, then every corrupt product entry with its timestamp. |
| LegacySupabase.LegacyOutcome | src/stores/supabase/Supabase.js:30-78 | `loading` stays set exactly when a cached page or count fails to parse. An error is left exactly when the cache is not used and the query fails. The cache path writes nothing. |
| LegacySupabase.LegacyRepeatIsServedFromCache | src/stores/supabase/Supabase.js:38-72 | A page fetched at `t` is served back within the hour, with the same products and page count and no error. |
| LegacySupabase.LegacyServesEmptyPage | src/stores/supabase/Supabase.js:38-44 | A fresh cached empty page is served as the result; there is no structural check. |
| LegacySupabase.PagesVisited | src/stores/supabase/Supabase.js:118-127 | For `i >= 1`, the loop guard `i <= totalPages` holds exactly for `i <= PagesToClear(totalPages)`. It never holds against NaN, so the loop visits pages `1..n` and no others. |
| LegacySupabase.LegacyPageKeyFacts | src/stores/supabase/Supabase.js:34-36 | Page keys of distinct pages differ, and no page key is a timestamp key. |
| LegacySupabase.PagesBeyondCountSurvive | src/stores/supabase/Supabase.js:118-127 | A page cached outside `1..totalPages` survives clearing. |
| LegacySupabase.SupabaseStore.constructor | src/stores/supabase/Supabase.js:11-17 | The initial refs. |
| LegacySupabase.SupabaseStore.GetProducts | src/stores/supabase/Supabase.js:30-78 | The state becomes `LegacyRequest` of the old state. The call completes exactly when the cached entries it reads parse. |
| LegacySupabase.SupabaseStore.ServeCache | src/stores/supabase/Supabase.js:38-44 | The cache path, which completes exactly when both cached entries parse. |
| LegacySupabase.SupabaseStore.FetchPage | src/stores/supabase/Supabase.js:46-77 | The query path: rows, page, count and four entries, or the error. |
| LegacySupabase.SupabaseStore.GetFeaturedProducts | src/stores/supabase/Supabase.js:81-110 | The featured part becomes `LoadFeatured` of the old one, which completes exactly when a cached entry parses. |
| LegacySupabase.SupabaseStore.ClearFeaturedProductsCache | src/stores/supabase/Supabase.js:113-115 | Only `featured_products` is removed. |
| LegacySupabase.SupabaseStore.ClearProductsCache | src/stores/supabase/Supabase.js:118-127 | Pages `1..totalPages` with their timestamps are removed, then the count key and its timestamp. |
| Featured.LoadOutcome | src/stores/supabase/featuredProductsStore.js:11-46 | The error is cleared first. `loading` stays set exactly when the cached entry fails to parse, and then nothing else changes. A readable cached list is served as is and storage is untouched. Without a cached entry, a successful query's list is served and written under `featured_products`. A failed query keeps the old list and storage and reports its message; an error is left exactly in that case. No entry other than `featured_products` ever changes. |
| Featured.CachedListIsServedForever | src/stores/supabase/featuredProductsStore.js:15-37 | Once fetched and cached, the list is served from storage by every later load, whatever the later answer; there is no expiry. |
| Featured.ClearedCacheQueriesAgain | src/stores/supabase/featuredProductsStore.js:48-50 | After the entry is removed, the next load takes the upstream answer. |
| Featured.FeaturedProductsStore.constructor | src/stores/supabase/featuredProductsStore.js:7-9 | The initial refs. |
| Featured.FeaturedProductsStore.GetFeaturedProducts | src/stores/supabase/featuredProductsStore.js:11-46 | The state becomes `LoadFeatured` of the old state. The call completes exactly when the cached entry, if any, parses. |
| Featured.FeaturedProductsStore.ClearFeaturedProductsCache | src/stores/supabase/featuredProductsStore.js:48-50 | Only `featured_products` is removed. |
| Cart.AddedQuantity | src/stores/supabase/shoppingCartStore.js:23-30 | An add never adds zero. A given non-zero quantity is added as is; a missing or zero quantity adds one. |
| Cart.IndexOf | src/stores/supabase/shoppingCartStore.js:19 | The first position holding the id, or -1 exactly when no line has it. |
| Cart.AddEffect | src/stores/supabase/shoppingCartStore.js:18-31 | For a present product, the line at `IndexOf(items, id)` gains the added quantity, every other index keeps its line, and the length is unchanged. An absent product gets exactly one new line appended. Either way the id is in the cart afterwards. |
| Cart.AddGrowsCount | src/stores/supabase/shoppingCartStore.js:18-31 | The item count grows by exactly the added quantity. |
| Cart.TotalConcat | src/stores/supabase/shoppingCartStore.js:91-95 | The cart total of two lists joined is the sum of their totals. |
| Cart.TotalAfterSet | src/stores/supabase/shoppingCartStore.js:91-95 | Changing one line's quantity to `q` changes the total by that line's price times `q` minus the old quantity. |
| Cart.AddGrowsTotal | src/stores/supabase/shoppingCartStore.js:18-31 | After an add, the total grows by the added quantity times the price: the line's stored price for a product already present, the product's price for a new line. |
| Cart.AddKeepsIdsDistinct | src/stores/supabase/shoppingCartStore.js:18-31 | Adding keeps one line per id. |
| Cart.RemoveEffect | src/stores/supabase/shoppingCartStore.js:45-50 | The first line with the id is gone and the others stay in order, so the count drops by its quantity. An absent id changes nothing. With distinct ids, the id is gone. |
| Cart.RemoveKeepsIdsDistinct | src/stores/supabase/shoppingCartStore.js:45-50 | Removing keeps one line per id. |
| Cart.UpdateEffect | src/stores/supabase/shoppingCartStore.js:64-70 | An absent id changes nothing, and `q <= 0` is exactly a removal. Otherwise only that line's quantity becomes `q`, and the count moves by the difference. |
| Cart.UpdateKeepsIdsDistinct | src/stores/supabase/shoppingCartStore.js:64-70 | Updating keeps one line per id. |
| Cart.CountConcat | src/stores/supabase/shoppingCartStore.js:98-102 | The item count splits over concatenation. |
| Cart.ShoppingCart.constructor | src/stores/supabase/shoppingCartStore.js:6 | The cart holds the given lines. |
| Cart.ShoppingCart.FindIndex | src/stores/supabase/shoppingCartStore.js:19 | The loop returns `IndexOf`. |
| Cart.ShoppingCart.AddToCart | src/stores/supabase/shoppingCartStore.js:18-42 | The lines become `AddedTo` of the old lines. |
| Cart.ShoppingCart.RemoveFromCart | src/stores/supabase/shoppingCartStore.js:45-61 | The lines become `RemovedFrom` of the old lines. |
| Cart.ShoppingCart.UpdateQuantity | src/stores/supabase/shoppingCartStore.js:64-82 | The lines become `QuantityUpdated` of the old lines. |
| Cart.ShoppingCart.ClearCart | src/stores/supabase/shoppingCartStore.js:85-88 | No lines, and the stored `cartItems` removed. |
| Cart.ShoppingCart.GetCartTotal | src/stores/supabase/shoppingCartStore.js:91-95 | The loop returns the left-fold sum of price times quantity. |
| Cart.ShoppingCart.GetCartCount | src/stores/supabase/shoppingCartStore.js:98-102 | The loop returns the left-fold sum of quantities. |
| Cart.ShoppingCart.GetTotalItems | src/stores/supabase/shoppingCartStore.js:110-112 | The same count as `getCartCount`. |
| Cart.ShoppingCart.IsInCart | src/stores/supabase/shoppingCartStore.js:105-107 | True exactly when some line has the id. |
| AdminProducts.PageRangeSize | src/stores/admin/adminProductStore.js:44-45 | Each page asks for exactly 20 rows, consecutive ranges abut, and page 1 starts at row 0. |
| AdminProducts.RowOnExactlyOnePage | src/stores/admin/adminProductStore.js:44-45 | Row `r` is in page `p`'s range exactly when `p == r / 20 + 1`. |
| AdminProducts.PagesCoverProducts | src/stores/admin/adminProductStore.js:20 | Pages `1..totalPages` cover every row, and the last page is non-empty. With no products there is no page. |
| AdminProducts.ListingOutcome | src/stores/admin/adminProductStore.js:25-76 | Every listing ends on the requested page with loading cleared. On success it has the range's rows and the count (or 0); on failure no rows, count 0 and the message. Categories are untouched. |
| AdminProducts.ReissueKeepsListing | src/stores/admin/adminProductStore.js:399-439 | Navigation re-issues the last listing with its search text or category. A search with empty text becomes a plain fetch. |
| AdminProducts.NavigationStaysInRange | src/stores/admin/adminProductStore.js:399-439 | `goToPage` lands in `1..totalPages`, `nextPage` only below `totalPages`, `previousPage` only above 1. Otherwise nothing changes. |
| AdminProducts.NoPageReachableWhenEmpty | src/stores/admin/adminProductStore.js:399-439 | With no products, `goToPage` never moves, and neither does `nextPage` from page 0 or later. |
| AdminProducts.RowIndex | src/stores/admin/adminProductStore.js:230 | The first position holding the id, or -1 when none does. |
| AdminProducts.Without | src/stores/admin/adminProductStore.js:260 | The rows without the id: every other row is kept and no row with the id remains. |
| AdminProducts.UpdateEffect | src/stores/admin/adminProductStore.js:216-245 | Only the first listed row with the id is replaced by the returned row, and the count stays. |
| AdminProducts.DeleteEffect | src/stores/admin/adminProductStore.js:248-276 | When rows remain, the id is gone and the count is one lower. When none remain, the previous page (at least 1) is fetched as a plain fetch. |
| AdminProducts.DeleteFailureKeepsList | src/stores/admin/adminProductStore.js:248-276 | A failed delete reports its message and keeps the list and the count. |
| AdminProducts.CreateEffect | src/stores/admin/adminProductStore.js:190-213 | A created product is followed by a plain fetch of the current page. A failed insert fetches nothing. |
| AdminProducts.FallbackCategories | src/stores/admin/adminProductStore.js:102-141 | Five enabled categories with ids 1 to 5. |
| AdminProducts.CategoriesEffect | src/stores/admin/adminProductStore.js:79-187 | Returned rows when there are any, whether or not the reply reports an error, and the fixed five otherwise. Only a throw sets the error. |
| AdminProducts.AdminProductStore.constructor | src/stores/admin/adminProductStore.js:8-17 | The initial refs. |
| AdminProducts.AdminProductStore.List | src/stores/admin/adminProductStore.js:25-76 | The shared listing body, equal to `Listing`. |
| AdminProducts.AdminProductStore.FetchProducts | src/stores/admin/adminProductStore.js:25-76 | The state becomes `Fetched` of the old state. |
| AdminProducts.AdminProductStore.SearchProducts | src/stores/admin/adminProductStore.js:279-332 | The state becomes `Searched` of the old state. |
| AdminProducts.AdminProductStore.FilterProductsByCategory | src/stores/admin/adminProductStore.js:335-396 | The state becomes `Filtered` of the old state. |
| AdminProducts.AdminProductStore.Reissue | src/stores/admin/adminProductStore.js:399-439 | The re-issue of the last listing, equal to `Reissued`. |
| AdminProducts.AdminProductStore.NextPage | src/stores/admin/adminProductStore.js:399-411 | The state becomes `AfterNextPage` of the old state. |
| AdminProducts.AdminProductStore.PreviousPage | src/stores/admin/adminProductStore.js:414-426 | The state becomes `AfterPreviousPage` of the old state. |
| AdminProducts.AdminProductStore.GoToPage | src/stores/admin/adminProductStore.js:429-439 | The state becomes `AfterGoToPage` of the old state. |
| AdminProducts.AdminProductStore.FetchCategories | src/stores/admin/adminProductStore.js:79-187 | The state becomes `WithCategories` of the old state. |
| AdminProducts.AdminProductStore.UpdateProduct | src/stores/admin/adminProductStore.js:216-245 | State and result become `Updated` of the old state. |
| AdminProducts.AdminProductStore.DeleteProduct | src/stores/admin/adminProductStore.js:248-276 | State and result become `Deleted` of the old state. |
| AdminProducts.AdminProductStore.CreateProduct | src/stores/admin/adminProductStore.js:190-213 | State and result become `Created` of the old state. |
| Validation.DigitsOf | src/utils/validation.js:15 | `replace(/\D/g, '')` leaves only digits and never lengthens. |
| Validation.CountryCodeRules | src/utils/validation.js:18-25 | A leading 0 becomes 27. Nine digits starting with neither 0 nor 27 get 27 prepended. Everything else is kept. |
| Validation.CountryCodedIsStable | src/utils/validation.js:18-25 | The rules reach their fixed form in one pass, and cutting to eleven digits keeps it. |
| Validation.FirstGroups | src/utils/validation.js:33-37 | The leftmost position where `+DD DD DDD DDDD`'s groups match, or none. |
| Validation.FormatPhoneNumberShape | src/utils/validation.js:13-38 | The result is `+` and the country-coded digits, grouped as `+DD DD DDD DDDD` with extra digits dropped when there are at least eleven, and unspaced otherwise. |
| Validation.FormatPhoneNumberIdempotent | src/utils/validation.js:13-38 | Formatting a formatted number changes nothing. |
| Validation.ValidPhoneIsFormattedAndStaysValid | src/utils/validation.js:40-63 | An accepted number has eleven digits starting 276, 277 or 278. Formatting gives `+27 …` text that is accepted again. |
| Validation.PasswordErrors | src/utils/validation.js:66-84 | Each rule's message is listed exactly when that rule fails: length under 8, no digit, no special character, no uppercase letter. |
| Validation.PasswordAcceptedIff | src/utils/validation.js:66-84 | A password is accepted exactly when it is empty or meets all four rules. |
| Validation.SingleFailureMessage | src/utils/validation.js:66-84 | Whichever of the four rules fails alone, a non-empty password is reported with that rule's message alone, with no separator. |
| Validation.IndexOfChar | src/utils/validation.js:10 | The first position of a character, or -1 when absent. |
| Validation.EmailShapedIff | src/utils/validation.js:10 | The direct reading (one `@` not first, no white space, a `.` strictly inside the domain) agrees with the pattern on every text. |
| Validation.EmailAcceptedIff | src/utils/validation.js:86-89 | An address is accepted exactly when it is empty or matches the pattern. |
| ErrorLogger.CalculateSeverity | src/stores/supabase/utils/errorLogger.js:22-63 | Never `info`. Critical exactly for authentication errors. Warning exactly for network or validation errors that are neither critical nor database errors. Error otherwise. |
| ErrorLogger.KeywordsAreCaseSensitive | src/stores/supabase/utils/errorLogger.js:24-31 | The tests are case-sensitive. A message with no lower-case `a`, `p` or `u` matches no keyword, so without the `AuthenticationError` name it is never critical. This covers "Permission" and "AUTHENTICATION FAILED". |
| ErrorLogger.LowerCasePermissionIsCritical | src/stores/supabase/utils/errorLogger.js:24-31 | A message starting with "permission" is critical, whatever else holds. |
| ErrorLogger.LogError | src/stores/supabase/utils/errorLogger.js:81-106 | The record carries source, message, stack and context. A truthy caller severity wins over the computed one. |
| ErrorLogger.SeverityTextInjective | src/stores/supabase/utils/errorLogger.js:8-13 | Distinct levels are stored as distinct texts. |
| ErrorLogger.LoggedLevelIsComputed | src/stores/supabase/utils/errorLogger.js:81-90 | Without a caller-supplied level, the stored text names exactly the computed level, so "critical" is logged exactly when the error is critical. |

## Left out

- JSON is abstract (a parse and stringify pair). Floating-point numbers, and JSON text itself, are not modelled; counts, prices and ids are integers.
- `ToNumber` of a cached count is modelled for `null`, booleans, numbers and `[]`. Strings, other arrays and objects are taken as NaN.
- `Date.now()` is one clock parameter per call. Time does not advance inside a call.
- Local storage never fails: quota errors and exceptions from `setItem` are not modelled.
- The shopping cart's deep `watch` persistence, the `window.dispatchEvent` alerts and the initial load from storage are not modelled. The constructor takes the decoded list, and `ClearCart` does not see the watch write `[]` back.
- Cart prices are whole cents and quantities integers. String concatenation of non-numeric quantities is not modelled.
- `pageSize` in the administration store is a constant 20, since the store never reassigns it.
- Query building (`.from`, `.select`, `.eq`, `.range`, `.ilike`, `.order`) is abstract: each query is its answer. The row range is stated by `RangeFrom` and `RangeTo`, and the database is a function of that range.
- The optional category filter of the products store's `getFeaturedProducts` is part of the abstract query.
- `validateCache`'s outer `catch` (src/stores/supabase/productsStore.js:414-418) is not modelled. The modelled steps cannot throw, since a failed parse is caught per key.
- `for … in localStorage` is modelled as a walk over the stored keys. Prototype members that the loop would also visit are not modelled.
- `getProductById` (src/stores/supabase/productsStore.js:426-492) is a single remote fetch. Its only logic, the array normalisation, is the same as `NormalizeRow`.
- `logError`'s insert and every console call are I/O. The record is the whole result, since the call resolves either way.
- `fetchCategories`' `supaError` branch in the administration store only logs. The model carries it as the `failed` flag of `Answered`, which changes nothing. As in the code, returned rows are used whether or not the reply reports an error, and an error reply without rows gets the fixed five.
- Concurrent calls are not modelled: each action runs to completion.
- The search store, the authentication store, the router, the SalesBinder client and the price formatter are not part of this model.

## Findings

| source | as written | input that shows it | evidently intended | confidence | as-written member | corrected member |
|---|---|---|---|---|---|---|
| src/stores/supabase/productsStore.js:387-413 | The start-up sweep checks every `products.` key without `_timestamp` as an array of products, including `products.total_count*`. A count holds a number, so it always fails and is removed. A page hit needs its count entry, so after every store creation no cached page is served until it is fetched again. | Storage with a fresh `products.page_1` of valid rows, and `products.total_count` = "42" | Count entries are left alone, whatever they hold, and every page the cache would serve before the sweep is still served after it | not executed | ProductsCache.SweepDisablesPageCache | ProductsCache.CorrectedSweepKeepsServedPages |

The store's constructor (`Products.ProductsStore.constructor`) runs the sweep as written, so that the class stays faithful to the code. `SweptCacheKeepingCounts` is the corrected sweep, and `CorrectedSweepKeepsServedPages` states what it preserves.
