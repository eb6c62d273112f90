/**
 * The product, category and featured-product caches of the products store: key
 * derivation, the structural checks applied to cached payloads, what a cache read
 * serves, what a successful fetch writes, prefix invalidation and the start-up sweep.
 * The store itself (a class over these) is in products_store.dfy.
 */
module ProductsCache {
  import opened Wrappers
  import opened JsText
  import opened Numeric
  import opened Json
  import opened Storage
  import opened Upstream
  import opened CacheUtils

  const ItemsPerPage: int := 20
  const FeaturedKey: string := "products.featured"
  const CategoriesKey: string := "categories"
  const NoProductsInCategory: string := "No products found in this category"
  /** The TypeError raised by reading `length` of a `null` result. */
  const NullRowsMessage: string := "Cannot read properties of null (reading 'length')"

  // ---------------------------------------------------------------- keys

  /** The category filter as it affects keys: only a truthy id (not `null`, not 0) counts. */
  function ActiveCategory(categoryId: Option<int>): (c: Option<int>)
    ensures c.Some? ==> c.value != 0
  {
    if categoryId.Some? && categoryId.value != 0 then categoryId else None
  }

  function CategoryPart(categoryId: Option<int>): string {
    match ActiveCategory(categoryId)
    case Some(c) => ".category_" + IntToString(c)
    case None => ""
  }

  /** `products.page_<page>`, followed by `.category_<id>` when the category id is truthy. */
  function PageKey(page: int, categoryId: Option<int>): string {
    "products.page_" + IntToString(page) + CategoryPart(categoryId)
  }

  /** `products.total_count`, with the same category suffix. */
  function CountKey(categoryId: Option<int>): string {
    "products.total_count" + CategoryPart(categoryId)
  }

  /** No character of `s` is a '.'. */
  predicate DotFree(s: string) {
    forall i | 0 <= i < |s| :: s[i] != '.'
  }

  /** A concatenation of a dot-free part and a part that is empty or starts with '.' splits one way only. */
  lemma SplitAtFirstDot(a: string, b: string, c: string, d: string)
    requires DotFree(a) && DotFree(c)
    requires b == [] || b[0] == '.'
    requires d == [] || d[0] == '.'
    requires a + b == c + d
    ensures a == c && b == d
  {
    assert a == (a + b)[..|a|];
    assert c == (c + d)[..|c|];
  }

  lemma CategoryPartInjective(c1: Option<int>, c2: Option<int>)
    ensures CategoryPart(c1) == CategoryPart(c2) <==> ActiveCategory(c1) == ActiveCategory(c2)
  {
    var a1, a2 := ActiveCategory(c1), ActiveCategory(c2);
    if a1.Some? && a2.Some? && CategoryPart(c1) == CategoryPart(c2) {
      var p := ".category_";
      assert IntToString(a1.value) == CategoryPart(c1)[|p|..];
      assert IntToString(a2.value) == CategoryPart(c2)[|p|..];
      IntToStringInjective(a1.value, a2.value);
    }
  }

  lemma StripPrefix(p: string, x: string, y: string)
    requires p + x == p + y
    ensures x == y
  {
    assert x == (p + x)[|p|..];
    assert y == (p + y)[|p|..];
  }

  /** A key made of a prefix, a dot-free part and an optional dotted part splits one way only. */
  lemma SplitKey(prefix: string, s1: string, t1: string, s2: string, t2: string)
    requires DotFree(s1) && DotFree(s2)
    requires t1 == [] || t1[0] == '.'
    requires t2 == [] || t2[0] == '.'
    requires prefix + s1 + t1 == prefix + s2 + t2
    ensures s1 == s2 && t1 == t2
  {
    assert prefix + s1 + t1 == prefix + (s1 + t1);
    assert prefix + s2 + t2 == prefix + (s2 + t2);
    StripPrefix(prefix, s1 + t1, s2 + t2);
    SplitAtFirstDot(s1, t1, s2, t2);
  }

  lemma IntToStringDotFree(n: int)
    ensures DotFree(IntToString(n))
  {
  }

  /** A page key splits back into the page number's digits and the category part. */
  lemma PageKeySplits(p1: int, c1: Option<int>, p2: int, c2: Option<int>)
    requires PageKey(p1, c1) == PageKey(p2, c2)
    ensures IntToString(p1) == IntToString(p2) && CategoryPart(c1) == CategoryPart(c2)
  {
    IntToStringDotFree(p1);
    IntToStringDotFree(p2);
    CategoryPartNoUnderscoreT(c1);
    CategoryPartNoUnderscoreT(c2);
    SplitKey("products.page_", IntToString(p1), CategoryPart(c1), IntToString(p2), CategoryPart(c2));
  }

  /** Distinct (page, category) pairs get distinct page keys; `null` and 0 both mean no category. */
  lemma PageKeyInjective(p1: int, c1: Option<int>, p2: int, c2: Option<int>)
    ensures PageKey(p1, c1) == PageKey(p2, c2) <==> p1 == p2 && ActiveCategory(c1) == ActiveCategory(c2)
  {
    CategoryPartInjective(c1, c2);
    if PageKey(p1, c1) == PageKey(p2, c2) {
      PageKeySplits(p1, c1, p2, c2);
      IntToStringInjective(p1, p2);
    }
  }

  /** Distinct category filters get distinct count keys. */
  lemma CountKeyInjective(c1: Option<int>, c2: Option<int>)
    ensures CountKey(c1) == CountKey(c2) <==> ActiveCategory(c1) == ActiveCategory(c2)
  {
    CategoryPartInjective(c1, c2);
    if CountKey(c1) == CountKey(c2) {
      StripPrefix("products.total_count", CategoryPart(c1), CategoryPart(c2));
    }
  }

  // ------------------------------------------------- "_timestamp" never occurs in a key

  /** No '_' of `s` is followed by a 't'; then `s` cannot contain "_timestamp". */
  predicate NoUnderscoreT(s: string) {
    forall i | 0 <= i < |s| - 1 :: !(s[i] == '_' && s[i + 1] == 't')
  }

  lemma NoUnderscoreTExcludesTimestamp(s: string)
    requires NoUnderscoreT(s)
    ensures !Includes(s, "_timestamp")
  {
    forall i | 0 <= i && i + 10 <= |s|
      ensures !OccursAt(s, "_timestamp", i)
    {
      assert s[i..i + 10][0] == s[i] && s[i..i + 10][1] == s[i + 1];
    }
  }

  lemma NoUnderscoreTConcat(a: string, b: string)
    requires NoUnderscoreT(a) && NoUnderscoreT(b)
    requires a != [] && a[|a| - 1] == '_' && b != [] ==> b[0] != 't'
    ensures NoUnderscoreT(a + b)
  {
    var s := a + b;
    forall i | 0 <= i < |s| - 1
      ensures !(s[i] == '_' && s[i + 1] == 't')
    {
      if i + 1 < |a| {
        assert s[i] == a[i] && s[i + 1] == a[i + 1];
      } else if i + 1 == |a| {
        assert s[i] == a[|a| - 1] && s[i + 1] == b[0];
      } else {
        assert s[i] == b[i - |a|] && s[i + 1] == b[i + 1 - |a|];
      }
    }
  }

  lemma IntToStringNoUnderscoreT(n: int)
    ensures NoUnderscoreT(IntToString(n))
    ensures IntToString(n)[0] != 't'
  {
  }

  lemma CategoryPartNoUnderscoreT(categoryId: Option<int>)
    ensures NoUnderscoreT(CategoryPart(categoryId))
    ensures CategoryPart(categoryId) != [] ==> CategoryPart(categoryId)[0] == '.'
  {
    match ActiveCategory(categoryId)
    case Some(c) =>
      IntToStringNoUnderscoreT(c);
      NoUnderscoreTConcat(".category_", IntToString(c));
    case None =>
  }

  /** The sweep inspects page keys: they start with "products." and do not contain "_timestamp". */
  lemma PageKeyIsSwept(page: int, categoryId: Option<int>)
    ensures IsSweptProductKey(PageKey(page, categoryId))
  {
    IntToStringNoUnderscoreT(page);
    CategoryPartNoUnderscoreT(categoryId);
    NoUnderscoreTConcat("products.page_", IntToString(page));
    NoUnderscoreTConcat("products.page_" + IntToString(page), CategoryPart(categoryId));
    NoUnderscoreTExcludesTimestamp(PageKey(page, categoryId));
    assert PageKey(page, categoryId)[..9] == "products.";
  }

  /** The sweep inspects count keys too. */
  lemma CountKeyIsSwept(categoryId: Option<int>)
    ensures IsSweptProductKey(CountKey(categoryId))
  {
    CategoryPartNoUnderscoreT(categoryId);
    NoUnderscoreTConcat("products.total_count", CategoryPart(categoryId));
    NoUnderscoreTExcludesTimestamp(CountKey(categoryId));
    assert CountKey(categoryId)[..9] == "products.";
  }

  /** The four keys one cached page uses are pairwise distinct. */
  lemma PageKeysDistinct(page: int, categoryId: Option<int>)
    ensures var key, countKey := PageKey(page, categoryId), CountKey(categoryId);
      && key != countKey && key != TimestampKey(countKey)
      && TimestampKey(key) != countKey && TimestampKey(key) != TimestampKey(countKey)
      && key != TimestampKey(key) && countKey != TimestampKey(countKey)
  {
    var key, countKey := PageKey(page, categoryId), CountKey(categoryId);
    assert key[9] == 'p' && TimestampKey(key)[9] == 'p';
    assert countKey[9] == 't' && TimestampKey(countKey)[9] == 't';
  }

  // ------------------------------------------------- structural checks

  /** The check a cached product must pass to be served: truthy id and name, array images and features. */
  predicate IsCachedProduct(p: Json) {
    HasTruthy(p, "id") && HasTruthy(p, "product_name") && HasArray(p, "product_image") && HasArray(p, "product_features")
  }

  /** A cached page is served only when it is a non-empty array of well-formed products. */
  predicate IsServablePage(j: Json) {
    j.JArr? && |j.items| > 0 && forall i | 0 <= i < |j.items| :: IsCachedProduct(j.items[i])
  }

  /** Cached categories are served only when each has a truthy id and name and a boolean `enabled`. */
  predicate IsServableCategories(j: Json) {
    j.JArr? && forall i | 0 <= i < |j.items| ::
      HasTruthy(j.items[i], "id") && HasTruthy(j.items[i], "category_name") && HasBoolean(j.items[i], "enabled")
  }

  // ------------------------------------------------- reading the caches

  /** What the product-page cache yields for one request. */
  datatype PageRead =
    | Hit(rows: seq<Json>, pages: JsNumber)
      // the page passed every check, but its count entry failed to parse: the page has
      // already been copied into the state when the error falls through to the fetch
    | CountUnreadable(rows: seq<Json>)
    | Miss

  /**
   * The cache path of `getProducts(page, categoryId)` at clock `now`: page entry and
   * count entry present, page timestamp valid, page parses to a servable array; then
   * the page count is `ceil(count / 20)` of the parsed count entry.
   */
  function ReadCachedPage(items: map<string, string>, page: int, categoryId: Option<int>, now: int, codec: Codec): PageRead
  {
    var key, countKey := PageKey(page, categoryId), CountKey(categoryId);
    if !(Present(items, key) && Present(items, countKey) && IsCacheValid(items, key, now)) then
      Miss
    else
      match codec.parse(items[key])
      case None => Miss
      case Some(j) =>
        if !IsServablePage(j) then Miss
        else
          match codec.parse(items[countKey])
          case None => CountUnreadable(j.items)
          case Some(c) => Hit(j.items, CeilDivNumber(ToNumber(c), ItemsPerPage))
  }

  /**
   * What a served page has passed: both entries present, the page fresh and parsing to a
   * non-empty array of well-formed products; a hit also needs the count to parse.
   */
  lemma ReadCachedPageServes(items: map<string, string>, page: int, categoryId: Option<int>, now: int, codec: Codec)
    ensures var r := ReadCachedPage(items, page, categoryId, now, codec);
      !r.Miss? ==>
      && Present(items, PageKey(page, categoryId))
      && Present(items, CountKey(categoryId))
      && IsCacheValid(items, PageKey(page, categoryId), now)
      && codec.parse(items[PageKey(page, categoryId)]) == Some(JArr(r.rows))
      && |r.rows| > 0
      && (forall i | 0 <= i < |r.rows| :: IsCachedProduct(r.rows[i]))
    ensures var r := ReadCachedPage(items, page, categoryId, now, codec);
      r.Hit? <==> !r.Miss? && codec.parse(items[CountKey(categoryId)]).Some?
    ensures var r := ReadCachedPage(items, page, categoryId, now, codec);
      r.Hit? ==> r.pages == CeilDivNumber(ToNumber(codec.parse(items[CountKey(categoryId)]).value), ItemsPerPage)
  {
  }

  /** A cached empty page is never served: the request falls through to the upstream. */
  lemma CachedEmptyPageIsRefetched(items: map<string, string>, page: int, categoryId: Option<int>, now: int, codec: Codec)
    requires PageKey(page, categoryId) in items
    requires codec.parse(items[PageKey(page, categoryId)]) == Some(JArr([]))
    ensures ReadCachedPage(items, page, categoryId, now, codec) == Miss
  {
  }

  /** The featured list that a fresh `products.featured` entry holds, if it parses to an array. */
  function CachedFeatured(items: map<string, string>, now: int, codec: Codec): (r: Option<seq<Json>>)
    ensures r.Some? ==>
      && Present(items, FeaturedKey) && IsCacheValid(items, FeaturedKey, now)
      && codec.parse(items[FeaturedKey]) == Some(JArr(r.value))
  {
    if Present(items, FeaturedKey) && IsCacheValid(items, FeaturedKey, now) then
      match codec.parse(items[FeaturedKey])
      case Some(JArr(f)) => Some(f)
      case _ => None
    else
      None
  }

  /** The categories that a fresh `categories` entry holds, if they pass the check. */
  function CachedCategories(items: map<string, string>, now: int, codec: Codec): (r: Option<seq<Json>>)
    ensures r.Some? ==>
      && Present(items, CategoriesKey) && IsCacheValid(items, CategoriesKey, now)
      && codec.parse(items[CategoriesKey]) == Some(JArr(r.value))
      && forall i | 0 <= i < |r.value| ::
           HasTruthy(r.value[i], "id") && HasTruthy(r.value[i], "category_name") && HasBoolean(r.value[i], "enabled")
  {
    if Present(items, CategoriesKey) && IsCacheValid(items, CategoriesKey, now) then
      match codec.parse(items[CategoriesKey])
      case Some(j) => if IsServableCategories(j) then Some(j.items) else None
      case None => None
    else
      None
  }

  // ------------------------------------------------- what a fetch writes

  /** `Array.isArray(row[name]) ? row[name] : []`. */
  function ArrayOrEmpty(row: Record, name: string): (j: Json)
    ensures j.JArr?
  {
    if name in row && row[name].JArr? then row[name] else JArr([])
  }

  /** The row as it is cached: images and features forced to arrays, every other field kept. */
  function NormalizeRow(row: Record): (r: Record)
    ensures r.Keys == row.Keys + {"product_image", "product_features"}
    ensures forall k | k in row && k != "product_image" && k != "product_features" :: r[k] == row[k]
    ensures r["product_image"].JArr? && r["product_features"].JArr?
  {
    row["product_image" := ArrayOrEmpty(row, "product_image")]["product_features" := ArrayOrEmpty(row, "product_features")]
  }

  function NormalizeRows(rows: seq<Record>): (r: seq<Record>)
    ensures |r| == |rows|
    ensures forall i | 0 <= i < |rows| :: r[i] == NormalizeRow(rows[i])
  {
    seq(|rows|, i requires 0 <= i < |rows| => NormalizeRow(rows[i]))
  }

  /** `JSON.stringify(count)` as a value: the number, or `null`. */
  function CountJson(count: Option<int>): Json {
    match count
    case Some(n) => JNum(n)
    case None => JNull
  }

  /**
   * The four entries a successful fetch writes: the normalised page, its timestamp,
   * the count and the count's timestamp. Nothing else changes.
   */
  function PageWrites(items: map<string, string>, page: int, categoryId: Option<int>, rows: seq<Record>,
                      count: Option<int>, now: int, codec: Codec): map<string, string>
  {
    var key, countKey := PageKey(page, categoryId), CountKey(categoryId);
    items[key := codec.stringify(RowsJson(NormalizeRows(rows)))]
         [TimestampKey(key) := IntToString(now)]
         [countKey := codec.stringify(CountJson(count))]
         [TimestampKey(countKey) := IntToString(now)]
  }

  /** What a fetch writes: the four entries with their values, and every other key as it was. */
  lemma PageWritesEffect(items: map<string, string>, page: int, categoryId: Option<int>, rows: seq<Record>,
                         count: Option<int>, now: int, codec: Codec)
    ensures var r := PageWrites(items, page, categoryId, rows, count, now, codec);
      var key, countKey := PageKey(page, categoryId), CountKey(categoryId);
      && r.Keys == items.Keys + {key, TimestampKey(key), countKey, TimestampKey(countKey)}
      && r[key] == codec.stringify(RowsJson(NormalizeRows(rows)))
      && r[TimestampKey(key)] == IntToString(now)
      && r[countKey] == codec.stringify(CountJson(count))
      && r[TimestampKey(countKey)] == IntToString(now)
      && forall k | k in items && k !in {key, TimestampKey(key), countKey, TimestampKey(countKey)} :: r[k] == items[k]
  {
    PageKeysDistinct(page, categoryId);
  }

  /** The state `getProducts` updates on its fetch path. */
  datatype PageState = PageState(products: seq<Json>, currentPage: int, totalPages: JsNumber,
                                 error: Option<string>, items: map<string, string>)

  /**
   * The fetch path of `getProducts` from state `s`. Rows `(page - 1) * 20` to
   * `(page - 1) * 20 + 19` are what `reply` answers; `categoryHasRows` is the answer of
   * the existence query issued when a category page comes back empty.
   */
  function FetchPage(s: PageState, page: int, categoryId: Option<int>, now: int, codec: Codec,
                     reply: Reply, categoryHasRows: bool): PageState
  {
    match reply
    case Success(Some(rows), count) =>
      var error := if |rows| == 0 && ActiveCategory(categoryId).Some? && !categoryHasRows
                   then Some(NoProductsInCategory) else s.error;
      PageState(RowsJson(rows).items, page, Finite(CeilDiv(CountOrZero(count), ItemsPerPage)), error,
                PageWrites(s.items, page, categoryId, rows, count, now, codec))
    case Success(None, _) => s.(error := Some(NullRowsMessage))
    case Failure(m) => s.(error := Some(m))
    case Threw(m) => s.(error := Some(m))
  }

  /**
   * A failed or `null` answer leaves rows, page, count and storage alone and sets an
   * error; a page of rows replaces them and is cached.
   */
  lemma FetchPageEffect(s: PageState, page: int, categoryId: Option<int>, now: int, codec: Codec,
                        reply: Reply, categoryHasRows: bool)
    ensures var r := FetchPage(s, page, categoryId, now, codec, reply, categoryHasRows);
      !(reply.Success? && reply.data.Some?) ==>
      r.items == s.items && r.products == s.products && r.currentPage == s.currentPage
      && r.totalPages == s.totalPages && r.error.Some?
    ensures var r := FetchPage(s, page, categoryId, now, codec, reply, categoryHasRows);
      reply.Success? && reply.data.Some? ==>
      && r.products == RowsJson(reply.data.value).items
      && r.currentPage == page
      && r.totalPages == Finite(CeilDiv(CountOrZero(reply.count), ItemsPerPage))
      && r.items == PageWrites(s.items, page, categoryId, reply.data.value, reply.count, now, codec)
  {
  }

  /** A read over entries that are present, fresh and well-formed is a hit. */
  lemma PageHitFromEntries(items: map<string, string>, page: int, categoryId: Option<int>, now: int, codec: Codec,
                           t: int, j: Json, c: Json)
    requires Present(items, PageKey(page, categoryId)) && Present(items, CountKey(categoryId))
    requires TimestampKey(PageKey(page, categoryId)) in items
    requires items[TimestampKey(PageKey(page, categoryId))] == IntToString(t) && now - t < CacheDuration
    requires codec.parse(items[PageKey(page, categoryId)]) == Some(j) && IsServablePage(j)
    requires codec.parse(items[CountKey(categoryId)]) == Some(c)
    ensures ReadCachedPage(items, page, categoryId, now, codec) == Hit(j.items, CeilDivNumber(ToNumber(c), ItemsPerPage))
  {
    StampValidity(items, PageKey(page, categoryId), t, now);
  }

  /** Normalised rows with a truthy id and name form a servable page. */
  lemma NormalizedRowsAreServable(rows: seq<Record>)
    requires |rows| > 0
    requires forall i | 0 <= i < |rows| :: "id" in rows[i] && Truthy(rows[i]["id"])
    requires forall i | 0 <= i < |rows| :: "product_name" in rows[i] && Truthy(rows[i]["product_name"])
    ensures IsServablePage(RowsJson(NormalizeRows(rows)))
  {
    var cached := RowsJson(NormalizeRows(rows));
    forall i | 0 <= i < |cached.items|
      ensures IsCachedProduct(cached.items[i])
    {
      assert cached.items[i] == JObj(NormalizeRow(rows[i]));
    }
  }

  /**
   * A page fetched and written at time `t` is served, unchanged, by the next request for
   * the same page and category within the hour, together with `ceil(count / 20)` pages.
   */
  lemma StoredPageIsServed(items: map<string, string>, page: int, categoryId: Option<int>, rows: seq<Record>,
                           count: Option<int>, t: int, now: int, codec: Codec)
    requires ValidCodec(codec)
    requires |rows| > 0
    requires forall i | 0 <= i < |rows| :: "id" in rows[i] && Truthy(rows[i]["id"])
    requires forall i | 0 <= i < |rows| :: "product_name" in rows[i] && Truthy(rows[i]["product_name"])
    requires now - t < CacheDuration
    ensures ReadCachedPage(PageWrites(items, page, categoryId, rows, count, t, codec), page, categoryId, now, codec)
         == Hit(RowsJson(NormalizeRows(rows)).items, Finite(CeilDiv(CountOrZero(count), ItemsPerPage)))
  {
    var w := PageWrites(items, page, categoryId, rows, count, t, codec);
    var key, countKey := PageKey(page, categoryId), CountKey(categoryId);
    PageWritesEffect(items, page, categoryId, rows, count, t, codec);
    var cached := RowsJson(NormalizeRows(rows));
    assert codec.parse(w[key]) == Some(cached);
    assert codec.parse(w[countKey]) == Some(CountJson(count));
    NormalizedRowsAreServable(rows);
    PageHitFromEntries(w, page, categoryId, now, codec, t, cached, CountJson(count));
  }

  /** The featured list and the storage, as `getFeaturedProducts` reads and writes them. */
  datatype FeaturedState = FeaturedState(featured: seq<Json>, items: map<string, string>)

  /**
   * `getFeaturedProducts`: a fresh cached array is served as is; otherwise the upstream
   * answer replaces the list (`null` becomes `[]`) and is cached, `null` included, with
   * its timestamp. A failed query is swallowed and changes nothing.
   */
  function FetchFeatured(s: FeaturedState, now: int, codec: Codec, reply: Reply): FeaturedState
  {
    match CachedFeatured(s.items, now, codec)
    case Some(f) => FeaturedState(f, s.items)
    case None =>
      match reply
      case Success(data, _) =>
        FeaturedState(RowsJson(RowsOrEmpty(data)).items,
                      s.items[FeaturedKey := codec.stringify(DataJson(data))][TimestampKey(FeaturedKey) := IntToString(now)])
      case _ => s
  }

  /** A fresh cache is served untouched; a failure is swallowed; only the featured entries are ever written. */
  lemma FetchFeaturedEffect(s: FeaturedState, now: int, codec: Codec, reply: Reply)
    ensures var r := FetchFeatured(s, now, codec, reply);
      CachedFeatured(s.items, now, codec).Some? ==>
      r == FeaturedState(CachedFeatured(s.items, now, codec).value, s.items)
    ensures var r := FetchFeatured(s, now, codec, reply);
      CachedFeatured(s.items, now, codec).None? && !reply.Success? ==> r == s
    ensures var r := FetchFeatured(s, now, codec, reply);
      r.items.Keys <= s.items.Keys + {FeaturedKey, TimestampKey(FeaturedKey)}
    ensures var r := FetchFeatured(s, now, codec, reply);
      forall k | k in s.items && k != FeaturedKey && k != TimestampKey(FeaturedKey) :: k in r.items && r.items[k] == s.items[k]
  {
  }

  /** Featured products fetched and cached at time `t` are served from the cache for the next hour. */
  lemma StoredFeaturedIsServed(s: FeaturedState, rows: seq<Record>, count: Option<int>, t: int, now: int, codec: Codec)
    requires ValidCodec(codec)
    requires CachedFeatured(s.items, t, codec).None?
    requires now - t < CacheDuration
    ensures var r := FetchFeatured(s, t, codec, Success(Some(rows), count));
      CachedFeatured(r.items, now, codec) == Some(r.featured)
  {
    var r := FetchFeatured(s, t, codec, Success(Some(rows), count));
    assert |TimestampKey(FeaturedKey)| == |FeaturedKey| + 10;
    assert r.items[FeaturedKey] == codec.stringify(RowsJson(rows));
    assert r.items[TimestampKey(FeaturedKey)] == IntToString(t);
    StampValidity(r.items, FeaturedKey, t, now);
  }

  /** A `null` answer is cached as "null", which no later read serves: the next read queries again. */
  lemma StoredNullFeaturedIsNotServed(s: FeaturedState, count: Option<int>, t: int, now: int, codec: Codec)
    requires ValidCodec(codec)
    requires CachedFeatured(s.items, t, codec).None?
    ensures var r := FetchFeatured(s, t, codec, Success(None, count));
      r.featured == [] && CachedFeatured(r.items, now, codec) == None
  {
    var r := FetchFeatured(s, t, codec, Success(None, count));
    assert codec.parse(r.items[FeaturedKey]) == Some(JNull);
  }

  /** The categories list, the error and the storage, as `getCategories` reads and writes them. */
  datatype CategoriesState = CategoriesState(categories: seq<Json>, error: Option<string>, items: map<string, string>)

  /**
   * `getCategories`: fresh cached categories that pass the check are served; otherwise an
   * upstream error becomes the store error and an array answer replaces the list and is
   * cached with its timestamp. A `null` answer changes nothing.
   */
  function FetchCategories(s: CategoriesState, now: int, codec: Codec, reply: Reply): CategoriesState
  {
    match CachedCategories(s.items, now, codec)
    case Some(cs) => s.(categories := cs)
    case None =>
      match reply
      case Success(Some(rows), _) =>
        s.(categories := RowsJson(rows).items,
           items := s.items[CategoriesKey := codec.stringify(RowsJson(rows))][TimestampKey(CategoriesKey) := IntToString(now)])
      case Success(None, _) => s
      case Failure(m) => s.(error := Some(m))
      case Threw(m) => s.(error := Some(m))
  }

  /** Fresh valid categories are served untouched; a failure becomes the error; only the category entries are ever written. */
  lemma FetchCategoriesEffect(s: CategoriesState, now: int, codec: Codec, reply: Reply)
    ensures var r := FetchCategories(s, now, codec, reply);
      CachedCategories(s.items, now, codec).Some? ==>
      r == s.(categories := CachedCategories(s.items, now, codec).value)
    ensures var r := FetchCategories(s, now, codec, reply);
      CachedCategories(s.items, now, codec).None? && !reply.Success? ==>
      r == s.(error := Some(reply.message))
    ensures var r := FetchCategories(s, now, codec, reply);
      r.items.Keys <= s.items.Keys + {CategoriesKey, TimestampKey(CategoriesKey)}
    ensures var r := FetchCategories(s, now, codec, reply);
      forall k | k in s.items && k != CategoriesKey && k != TimestampKey(CategoriesKey) :: k in r.items && r.items[k] == s.items[k]
  {
  }

  /** Categories fetched at time `t` that carry an id, a name and a boolean `enabled` are served for the next hour. */
  lemma StoredCategoriesAreServed(s: CategoriesState, rows: seq<Record>, count: Option<int>, t: int, now: int, codec: Codec)
    requires ValidCodec(codec)
    requires CachedCategories(s.items, t, codec).None?
    requires forall i | 0 <= i < |rows| ::
      && "id" in rows[i] && Truthy(rows[i]["id"])
      && "category_name" in rows[i] && Truthy(rows[i]["category_name"])
      && "enabled" in rows[i] && rows[i]["enabled"].JBool?
    requires now - t < CacheDuration
    ensures var r := FetchCategories(s, t, codec, Success(Some(rows), count));
      CachedCategories(r.items, now, codec) == Some(r.categories)
  {
    var r := FetchCategories(s, t, codec, Success(Some(rows), count));
    assert |TimestampKey(CategoriesKey)| == |CategoriesKey| + 10;
    assert r.items[CategoriesKey] == codec.stringify(RowsJson(rows));
    assert r.items[TimestampKey(CategoriesKey)] == IntToString(t);
    StampValidity(r.items, CategoriesKey, t, now);
    CategoryRowsAreServable(rows);
  }

  /** Rows with a truthy id and name and a boolean `enabled` pass the categories check. */
  lemma CategoryRowsAreServable(rows: seq<Record>)
    requires forall i | 0 <= i < |rows| ::
      && "id" in rows[i] && Truthy(rows[i]["id"])
      && "category_name" in rows[i] && Truthy(rows[i]["category_name"])
      && "enabled" in rows[i] && rows[i]["enabled"].JBool?
    ensures IsServableCategories(RowsJson(rows))
  {
    var cached := RowsJson(rows);
    forall i | 0 <= i < |cached.items|
      ensures HasTruthy(cached.items[i], "id") && HasTruthy(cached.items[i], "category_name")
      ensures HasBoolean(cached.items[i], "enabled")
    {
      assert cached.items[i] == JObj(rows[i]);
    }
  }

  /** The part of the store one `getProducts` call reads and writes. */
  datatype ProductsState = ProductsState(products: seq<Json>, featured: seq<Json>, error: Option<string>,
                                         currentPage: int, totalPages: JsNumber, items: map<string, string>)

  /** The featured list after the pre-load from the featured cache at the start of `getProducts`. */
  function PreloadedFeatured(s: ProductsState, now: int, codec: Codec): seq<Json> {
    match CachedFeatured(s.items, now, codec)
    case Some(f) => f
    case None => s.featured
  }

  /** Whether `getProducts` calls `getFeaturedProducts`: on a hit only for an empty page 1, else for page 1 or an empty list. */
  predicate FetchesFeatured(read: PageRead, page: int, featured: seq<Json>) {
    if read.Hit? then page == 1 && |featured| == 0 else page == 1 || |featured| == 0
  }

  /** The featured list after the step of `getProducts` that may call `getFeaturedProducts`. */
  function FeaturedStep(s: ProductsState, read: PageRead, page: int, now: int, codec: Codec, featuredReply: Reply): FeaturedState {
    if FetchesFeatured(read, page, s.featured)
    then FetchFeatured(FeaturedState(s.featured, s.items), now, codec, featuredReply)
    else FeaturedState(s.featured, s.items)
  }

  /** A cache hit: the cached page and page count, then possibly the featured fetch. */
  function HitRequest(s: ProductsState, read: PageRead, page: int, now: int, codec: Codec, featuredReply: Reply): ProductsState
    requires read.Hit?
  {
    var fs := FeaturedStep(s, read, page, now, codec, featuredReply);
    ProductsState(read.rows, fs.featured, s.error, page, read.pages, fs.items)
  }

  /** A cache miss: possibly the featured fetch, then the page query. */
  function MissRequest(s: ProductsState, read: PageRead, page: int, categoryId: Option<int>, now: int, codec: Codec,
                       featuredReply: Reply, reply: Reply, categoryHasRows: bool): ProductsState
    requires !read.Hit?
  {
    var fs := FeaturedStep(s, read, page, now, codec, featuredReply);
    var before := PageState(if read.CountUnreadable? then read.rows else s.products,
                            if read.CountUnreadable? then page else s.currentPage,
                            s.totalPages, s.error, fs.items);
    var after := FetchPage(before, page, categoryId, now, codec, reply, categoryHasRows);
    ProductsState(after.products, fs.featured, after.error, after.currentPage, after.totalPages, after.items)
  }

  /**
   * One `getProducts(page, categoryId)` call at clock `now`: the error is cleared, the
   * featured list is pre-loaded from its cache, then the page cache is consulted; on a
   * miss the featured fetch and the page query follow. `featuredReply` and `reply` are
   * the upstream answers; `categoryHasRows` answers the existence check.
   */
  function ProductsRequest(s: ProductsState, page: int, categoryId: Option<int>, now: int, codec: Codec,
                           featuredReply: Reply, reply: Reply, categoryHasRows: bool): ProductsState
  {
    var s1 := s.(error := None, featured := PreloadedFeatured(s, now, codec));
    var read := ReadCachedPage(s.items, page, categoryId, now, codec);
    if read.Hit? then HitRequest(s1, read, page, now, codec, featuredReply)
    else MissRequest(s1, read, page, categoryId, now, codec, featuredReply, reply, categoryHasRows)
  }

  /**
   * A hit serves the cached rows and page count and clears the error; only a miss can
   * leave an error behind, and a failed upstream query always does.
   */
  lemma RequestOutcome(s: ProductsState, page: int, categoryId: Option<int>, now: int, codec: Codec,
                       featuredReply: Reply, reply: Reply, categoryHasRows: bool)
    ensures var read := ReadCachedPage(s.items, page, categoryId, now, codec);
      var r := ProductsRequest(s, page, categoryId, now, codec, featuredReply, reply, categoryHasRows);
      && (read.Hit? ==> r.products == read.rows && r.currentPage == page && r.totalPages == read.pages && r.error == None)
      && (r.error.Some? ==> !read.Hit?)
      && (!read.Hit? && !(reply.Success? && reply.data.Some?) ==> r.error.Some?)
  {
    var s1 := s.(error := None, featured := PreloadedFeatured(s, now, codec));
    var read := ReadCachedPage(s.items, page, categoryId, now, codec);
    if !read.Hit? {
      var fs := FeaturedStep(s1, read, page, now, codec, featuredReply);
      FetchPageEffect(PageState(if read.CountUnreadable? then read.rows else s1.products,
                                if read.CountUnreadable? then page else s1.currentPage,
                                s1.totalPages, s1.error, fs.items),
                      page, categoryId, now, codec, reply, categoryHasRows);
    }
  }

  /** The featured fetch only touches the featured entries, so it never changes what the page cache reads. */
  lemma FeaturedFetchKeepsPageRead(s: FeaturedState, page: int, categoryId: Option<int>, now: int, t: int, codec: Codec, reply: Reply)
    ensures ReadCachedPage(FetchFeatured(s, t, codec, reply).items, page, categoryId, now, codec)
         == ReadCachedPage(s.items, page, categoryId, now, codec)
  {
    var key, countKey := PageKey(page, categoryId), CountKey(categoryId);
    assert key[9] == 'p' && TimestampKey(key)[9] == 'p' && countKey[9] == 't';
    assert FeaturedKey[9] == 'f' && TimestampKey(FeaturedKey)[9] == 'f';
    FetchFeaturedEffect(s, t, codec, reply);
    ReadCachedPageFrame(s.items, FetchFeatured(s, t, codec, reply).items, page, categoryId, now, codec);
  }

  /**
   * Caching end to end: a page of well-formed rows fetched at time `t` is served from the
   * cache by a second identical request within the hour — no upstream query — with the
   * rows as they were cached and the same page count.
   */
  lemma RepeatRequestIsServedFromCache(s: ProductsState, page: int, categoryId: Option<int>, t: int, now: int,
                                       codec: Codec, featuredReply: Reply, rows: seq<Record>, count: Option<int>,
                                       categoryHasRows: bool, featuredReply2: Reply, reply2: Reply, categoryHasRows2: bool)
    requires ValidCodec(codec)
    requires !ReadCachedPage(s.items, page, categoryId, t, codec).Hit?
    requires |rows| > 0
    requires forall i | 0 <= i < |rows| :: "id" in rows[i] && Truthy(rows[i]["id"])
    requires forall i | 0 <= i < |rows| :: "product_name" in rows[i] && Truthy(rows[i]["product_name"])
    requires now - t < CacheDuration
    ensures var first := ProductsRequest(s, page, categoryId, t, codec, featuredReply, Success(Some(rows), count), categoryHasRows);
      var second := ProductsRequest(first, page, categoryId, now, codec, featuredReply2, reply2, categoryHasRows2);
      && ReadCachedPage(first.items, page, categoryId, now, codec).Hit?
      && second.products == RowsJson(NormalizeRows(rows)).items
      && second.currentPage == page
      && second.totalPages == first.totalPages
      && second.error == None
  {
    var first := ProductsRequest(s, page, categoryId, t, codec, featuredReply, Success(Some(rows), count), categoryHasRows);
    var s1 := s.(error := None, featured := PreloadedFeatured(s, t, codec));
    var read := ReadCachedPage(s.items, page, categoryId, t, codec);
    var fs := FeaturedStep(s1, read, page, t, codec, featuredReply);
    FetchPageEffect(PageState(if read.CountUnreadable? then read.rows else s1.products,
                              if read.CountUnreadable? then page else s1.currentPage,
                              s1.totalPages, s1.error, fs.items),
                    page, categoryId, t, codec, Success(Some(rows), count), categoryHasRows);
    assert first.items == PageWrites(fs.items, page, categoryId, rows, count, t, codec);
    StoredPageIsServed(fs.items, page, categoryId, rows, count, t, now, codec);
  }

  // ------------------------------------------------- invalidation

  /** The keys `clearProductsCache` removes. */
  predicate IsProductsCacheKey(k: string) {
    StartsWith(k, "products.") || k == CategoriesKey || k == TimestampKey(CategoriesKey)
  }

  /** Storage after `clearProductsCache`: exactly the product and category entries are gone. */
  function ClearedCache(items: map<string, string>): (r: map<string, string>)
    ensures forall k :: k in r <==> k in items && !IsProductsCacheKey(k)
    ensures forall k | k in r :: r[k] == items[k]
  {
    map k | k in items && !IsProductsCacheKey(k) :: items[k]
  }

  /** After clearing, no page of any category is served from the cache, and no categories either. */
  lemma ClearedCacheServesNothing(items: map<string, string>, page: int, categoryId: Option<int>, now: int, codec: Codec)
    ensures ReadCachedPage(ClearedCache(items), page, categoryId, now, codec) == Miss
    ensures CachedCategories(ClearedCache(items), now, codec) == None
    ensures CachedFeatured(ClearedCache(items), now, codec) == None
  {
    assert IsProductsCacheKey(PageKey(page, categoryId)) by {
      assert PageKey(page, categoryId)[..9] == "products.";
    }
    assert IsProductsCacheKey(FeaturedKey);
  }

  // ------------------------------------------------- the start-up sweep

  /** The keys the sweep inspects: under "products." and not containing "_timestamp" anywhere. */
  predicate IsSweptProductKey(k: string) {
    StartsWith(k, "products.") && !Includes(k, "_timestamp")
  }

  /** A product entry passes the sweep as an array (possibly empty) of well-formed products. */
  predicate PassesProductSweep(j: Json) {
    j.JArr? && forall i | 0 <= i < |j.items| :: IsCachedProduct(j.items[i])
  }

  /** Cached categories pass the sweep as an array whose elements have a truthy id and name. */
  predicate PassesCategorySweep(j: Json) {
    j.JArr? && forall i | 0 <= i < |j.items| :: HasTruthy(j.items[i], "id") && HasTruthy(j.items[i], "category_name")
  }

  /** The entry under `k` fails to parse or fails the product check. */
  predicate ProductEntryCorrupt(items: map<string, string>, k: string, codec: Codec)
    requires k in items
  {
    var parsed := codec.parse(items[k]);
    parsed.None? || !PassesProductSweep(parsed.value)
  }

  /** The categories entry is present and fails to parse or fails the check. */
  predicate CategoriesCorrupt(items: map<string, string>, codec: Codec) {
    Present(items, CategoriesKey) &&
    var parsed := codec.parse(items[CategoriesKey]);
    parsed.None? || !PassesCategorySweep(parsed.value)
  }

  /** Among the keys `ks`, the product entries the sweep removes. */
  function DoomedAmong(items: map<string, string>, ks: set<string>, codec: Codec): set<string> {
    set k | k in ks && k in items && IsSweptProductKey(k) && ProductEntryCorrupt(items, k, codec)
  }

  function TimestampsOf(ks: set<string>): set<string> {
    set k | k in ks :: TimestampKey(k)
  }

  /** Storage without the doomed entries and their timestamp siblings. */
  function WithoutEntries(items: map<string, string>, doomed: set<string>): map<string, string> {
    items - doomed - TimestampsOf(doomed)
  }

  /** Storage after the categories half of the sweep. */
  function SweptCategories(items: map<string, string>, codec: Codec): (r: map<string, string>)
    ensures r.Keys <= items.Keys
  {
    if CategoriesCorrupt(items, codec) then items - {CategoriesKey, TimestampKey(CategoriesKey)} else items
  }

  /** Storage after `validateCache`. */
  function SweptCache(items: map<string, string>, codec: Codec): map<string, string> {
    var afterCategories := SweptCategories(items, codec);
    WithoutEntries(afterCategories, DoomedAmong(afterCategories, afterCategories.Keys, codec))
  }

  /** An empty cached page survives the sweep, although a read never serves it. */
  lemma EmptyPageSurvivesSweep(items: map<string, string>, page: int, categoryId: Option<int>, codec: Codec)
    requires PageKey(page, categoryId) in items
    requires codec.parse(items[PageKey(page, categoryId)]) == Some(JArr([]))
    ensures PageKey(page, categoryId) in SweptCache(items, codec)
  {
    var key := PageKey(page, categoryId);
    var afterCategories := SweptCategories(items, codec);
    assert key in afterCategories && afterCategories[key] == items[key] by {
      assert key[0] == 'p';
    }
    PageKeyIsSwept(page, categoryId);
    SweptKeyIsNoTimestamp(key, DoomedAmong(afterCategories, afterCategories.Keys, codec));
  }

  /**
   * The sweep removes every count entry that holds a number, as the fetch writes it:
   * a number is not an array of products.
   */
  lemma SweepRemovesCounts(items: map<string, string>, categoryId: Option<int>, codec: Codec)
    requires CountKey(categoryId) in items
    requires codec.parse(items[CountKey(categoryId)]).Some? && codec.parse(items[CountKey(categoryId)]).value.JNum?
    ensures CountKey(categoryId) !in SweptCache(items, codec)
  {
    var countKey := CountKey(categoryId);
    CountKeyIsSwept(categoryId);
    var afterCategories := SweptCategories(items, codec);
    assert countKey in afterCategories by {
      assert countKey[0] == 'p';
    }
    assert countKey in DoomedAmong(afterCategories, afterCategories.Keys, codec);
  }

  /**
   * Hence, once the sweep has run, a page whose count entry was written by a fetch
   * can no longer be served from the cache, whatever the page, the category and the clock.
   */
  lemma SweepDisablesPageCache(items: map<string, string>, page: int, categoryId: Option<int>, now: int, codec: Codec)
    requires CountKey(categoryId) in items
    requires codec.parse(items[CountKey(categoryId)]).Some? && codec.parse(items[CountKey(categoryId)]).value.JNum?
    ensures ReadCachedPage(SweptCache(items, codec), page, categoryId, now, codec) == Miss
  {
    SweepRemovesCounts(items, categoryId, codec);
  }

  /** The corrected check leaves count entries alone: whatever they hold, a read accepts it. */
  predicate IsCountKey(k: string) {
    StartsWith(k, "products.total_count")
  }

  function DoomedAmongKeepingCounts(items: map<string, string>, ks: set<string>, codec: Codec): set<string> {
    set k | k in ks && k in items && IsSweptProductKey(k) &&
            !IsCountKey(k) &&
            ProductEntryCorrupt(items, k, codec)
  }

  /** The sweep as corrected: product arrays are checked as before, count entries are left alone. */
  function SweptCacheKeepingCounts(items: map<string, string>, codec: Codec): map<string, string> {
    var afterCategories := SweptCategories(items, codec);
    WithoutEntries(afterCategories, DoomedAmongKeepingCounts(afterCategories, afterCategories.Keys, codec))
  }

  /** A read depends only on the page entry, its timestamp and the count entry. */
  lemma ReadCachedPageFrame(items: map<string, string>, other: map<string, string>, page: int, categoryId: Option<int>,
                            now: int, codec: Codec)
    requires var key, countKey := PageKey(page, categoryId), CountKey(categoryId);
      forall k | k in {key, TimestampKey(key), countKey} :: (k in items <==> k in other) && (k in items ==> items[k] == other[k])
    ensures ReadCachedPage(other, page, categoryId, now, codec) == ReadCachedPage(items, page, categoryId, now, codec)
  {
    var key := PageKey(page, categoryId);
    if key in items {
      ReadsOnlyTimestamp(items, other, key, now);
    }
  }

  /** Removing doomed swept entries and their timestamps leaves every other key as it was. */
  lemma WithoutEntriesKeeps(items: map<string, string>, doomed: set<string>, k: string)
    requires k in items && k !in doomed && k !in TimestampsOf(doomed)
    ensures k in WithoutEntries(items, doomed) && WithoutEntries(items, doomed)[k] == items[k]
  {
  }

  /** A swept key is never the timestamp sibling of another swept key. */
  lemma SweptKeyIsNoTimestamp(key: string, doomed: set<string>)
    requires IsSweptProductKey(key)
    ensures key !in TimestampsOf(doomed)
  {
    forall k | k in doomed
      ensures key != TimestampKey(k)
    {
      assert OccursAt(TimestampKey(k), "_timestamp", |k|);
    }
  }

  /** The timestamp of a kept key is removed only with that key. */
  lemma TimestampOfKeptKey(key: string, doomed: set<string>)
    requires key !in doomed
    requires forall k | k in doomed :: IsSweptProductKey(k)
    ensures TimestampKey(key) !in doomed && TimestampKey(key) !in TimestampsOf(doomed)
  {
    assert OccursAt(TimestampKey(key), "_timestamp", |key|);
    forall k | k in doomed
      ensures TimestampKey(key) != TimestampKey(k)
    {
      TimestampKeyInjective(key, k);
    }
  }

  /** The categories half of the sweep never touches a "products." key. */
  lemma SweptCategoriesKeepsProducts(items: map<string, string>, k: string, codec: Codec)
    requires k in items && StartsWith(k, "products.")
    ensures k in SweptCategories(items, codec) && SweptCategories(items, codec)[k] == items[k]
  {
    assert k[0] == 'p';
  }

  /** With the corrected sweep, every page the cache would serve is still served, with the same items and page count. */
  lemma CorrectedSweepKeepsServedPages(items: map<string, string>, page: int, categoryId: Option<int>, now: int, codec: Codec)
    requires ReadCachedPage(items, page, categoryId, now, codec).Hit?
    ensures ReadCachedPage(SweptCacheKeepingCounts(items, codec), page, categoryId, now, codec)
         == ReadCachedPage(items, page, categoryId, now, codec)
  {
    var key, countKey := PageKey(page, categoryId), CountKey(categoryId);
    var afterCategories := SweptCategories(items, codec);
    var doomed := DoomedAmongKeepingCounts(afterCategories, afterCategories.Keys, codec);
    assert TimestampKey(key) in items && countKey in items;
    SweptCategoriesKeepsProducts(items, key, codec);
    SweptCategoriesKeepsProducts(items, countKey, codec);
    assert StartsWith(TimestampKey(key), "products.") by {
      assert TimestampKey(key)[..9] == key[..9];
    }
    SweptCategoriesKeepsProducts(items, TimestampKey(key), codec);
    assert key !in doomed;
    assert IsCountKey(countKey) by {
      assert countKey[..|"products.total_count"|] == "products.total_count";
    }
    assert countKey !in doomed;
    PageKeyIsSwept(page, categoryId);
    CountKeyIsSwept(categoryId);
    SweptKeyIsNoTimestamp(key, doomed);
    SweptKeyIsNoTimestamp(countKey, doomed);
    TimestampOfKeptKey(key, doomed);
    WithoutEntriesKeeps(afterCategories, doomed, key);
    WithoutEntriesKeeps(afterCategories, doomed, countKey);
    WithoutEntriesKeeps(afterCategories, doomed, TimestampKey(key));
    ReadCachedPageFrame(items, SweptCacheKeepingCounts(items, codec), page, categoryId, now, codec);
  }
}
