/** The products store: product pages, featured products and categories, each cached in local storage for an hour. */
module Products {
  import opened Wrappers
  import opened Numeric
  import opened Json
  import opened Storage
  import opened Upstream
  import opened CacheUtils
  import opened ProductsCache

  class ProductsStore {
    var products: seq<Json>
    var featuredProducts: seq<Json>
    var loading: bool
    var error: Option<string>
    var currentPage: int
    var totalPages: JsNumber
    var categories: seq<Json>
    var selectedCategory: Option<int>
    const ls: LocalStorage
    const codec: Codec

    /** The state one `getProducts` call reads and writes. */
    function State(): ProductsState
      reads this, ls
    {
      ProductsState(products, featuredProducts, error, currentPage, totalPages, ls.items)
    }

    /** Creating the store sets the initial state and runs the start-up sweep of the cache. */
    constructor (storage: LocalStorage, codec: Codec)
      modifies storage
      ensures ls == storage && this.codec == codec
      ensures products == [] && featuredProducts == [] && categories == []
      ensures !loading && error == None && currentPage == 1 && totalPages == Finite(0) && selectedCategory == None
      ensures ls.items == SweptCache(old(storage.items), codec)
    {
      products := [];
      featuredProducts := [];
      loading := false;
      error := None;
      currentPage := 1;
      totalPages := Finite(0);
      categories := [];
      selectedCategory := None;
      ls := storage;
      this.codec := codec;
      new;
      ValidateCache();
    }

    /** `getCategories` at clock `now`, with `reply` the upstream answer used on a cache miss. */
    method GetCategories(now: int, reply: Reply)
      modifies this, ls
      ensures CategoriesState(categories, error, ls.items)
           == FetchCategories(CategoriesState(old(categories), old(error), old(ls.items)), now, codec, reply)
      ensures products == old(products) && featuredProducts == old(featuredProducts) && loading == old(loading)
      ensures currentPage == old(currentPage) && totalPages == old(totalPages) && selectedCategory == old(selectedCategory)
    {
      var cached := CachedCategories(ls.items, now, codec);
      if cached.Some? {
        categories := cached.value;
        return;
      }
      match reply
      case Success(Some(rows), _) =>
        categories := RowsJson(rows).items;
        ls.SetItem(CategoriesKey, codec.stringify(RowsJson(rows)));
        ls.SetItem(TimestampKey(CategoriesKey), IntToString(now));
      case Success(None, _) =>
      case Failure(m) =>
        error := Some(m);
      case Threw(m) =>
        error := Some(m);
    }

    /** `getFeaturedProducts` at clock `now`; the optional category filter is part of the abstract query behind `reply`. */
    method GetFeaturedProducts(now: int, reply: Reply)
      modifies this, ls
      ensures FeaturedState(featuredProducts, ls.items)
           == FetchFeatured(FeaturedState(old(featuredProducts), old(ls.items)), now, codec, reply)
      ensures products == old(products) && error == old(error) && loading == old(loading) && categories == old(categories)
      ensures currentPage == old(currentPage) && totalPages == old(totalPages) && selectedCategory == old(selectedCategory)
    {
      var cached := CachedFeatured(ls.items, now, codec);
      if cached.Some? {
        featuredProducts := cached.value;
        return;
      }
      if reply.Success? {
        featuredProducts := RowsJson(RowsOrEmpty(reply.data)).items;
        ls.SetItem(FeaturedKey, codec.stringify(DataJson(reply.data)));
        ls.SetItem(TimestampKey(FeaturedKey), IntToString(now));
      }
    }

    /**
     * `getProducts(page, categoryId)` at clock `now`. `featuredReply` answers the featured
     * query, `reply` the page query and `categoryHasRows` the existence check made for an
     * empty category page. `queried` tells whether the page query was issued at all.
     */
    method GetProducts(page: int, categoryId: Option<int>, now: int, featuredReply: Reply, reply: Reply, categoryHasRows: bool)
      returns (queried: bool)
      modifies this, ls
      ensures State() == ProductsRequest(old(State()), page, categoryId, now, codec, featuredReply, reply, categoryHasRows)
      ensures queried <==> !ReadCachedPage(old(ls.items), page, categoryId, now, codec).Hit?
      ensures !loading && selectedCategory == categoryId && categories == old(categories)
    {
      ghost var s0 := State();
      loading := true;
      error := None;
      selectedCategory := categoryId;
      PreloadFeatured(now);
      ghost var s1 := State();
      assert s1 == s0.(error := None, featured := PreloadedFeatured(s0, now, codec));
      var read := ReadCachedPage(ls.items, page, categoryId, now, codec);
      if read.Hit? {
        ServeCachedPage(page, now, read, featuredReply);
        assert State() == HitRequest(s1, read, page, now, codec, featuredReply);
        queried := false;
      } else {
        FetchAndCachePage(page, categoryId, now, read, featuredReply, reply, categoryHasRows);
        assert State() == MissRequest(s1, read, page, categoryId, now, codec, featuredReply, reply, categoryHasRows);
        queried := true;
      }
      loading := false;
    }

    /** The hit path of `getProducts`: serve the cached page, then fetch featured products for an empty page 1. */
    method ServeCachedPage(page: int, now: int, read: PageRead, featuredReply: Reply)
      requires read.Hit?
      modifies this, ls
      ensures State() == HitRequest(old(State()), read, page, now, codec, featuredReply)
      ensures loading == old(loading) && categories == old(categories) && selectedCategory == old(selectedCategory)
    {
      products := read.rows;
      currentPage := page;
      totalPages := read.pages;
      if page == 1 && |featuredProducts| == 0 {
        GetFeaturedProducts(now, featuredReply);
      }
    }

    /** The miss path of `getProducts`: fetch featured products when needed, then query and cache the page. */
    method FetchAndCachePage(page: int, categoryId: Option<int>, now: int, read: PageRead,
                             featuredReply: Reply, reply: Reply, categoryHasRows: bool)
      requires !read.Hit?
      modifies this, ls
      ensures State() == MissRequest(old(State()), read, page, categoryId, now, codec, featuredReply, reply, categoryHasRows)
      ensures loading == old(loading) && categories == old(categories) && selectedCategory == old(selectedCategory)
    {
      if read.CountUnreadable? {
        products := read.rows;
        currentPage := page;
      }
      if page == 1 || |featuredProducts| == 0 {
        GetFeaturedProducts(now, featuredReply);
      }
      QueryPage(page, categoryId, now, reply, categoryHasRows);
    }

    /** The first step of `getProducts`: a fresh cached featured array replaces the list. */
    method PreloadFeatured(now: int)
      modifies this
      ensures featuredProducts == PreloadedFeatured(old(State()), now, codec)
      ensures products == old(products) && error == old(error) && loading == old(loading) && categories == old(categories)
      ensures currentPage == old(currentPage) && totalPages == old(totalPages) && selectedCategory == old(selectedCategory)
    {
      var cached := CachedFeatured(ls.items, now, codec);
      if cached.Some? {
        featuredProducts := cached.value;
      }
    }

    /** The state the page query of `getProducts` updates. */
    function PageStateOf(): PageState
      reads this, ls
    {
      PageState(products, currentPage, totalPages, error, ls.items)
    }

    /** The page query of `getProducts` and its effect: rows, page count and four cache entries, or an error. */
    method QueryPage(page: int, categoryId: Option<int>, now: int, reply: Reply, categoryHasRows: bool)
      modifies this, ls
      ensures PageStateOf() == FetchPage(old(PageStateOf()), page, categoryId, now, codec, reply, categoryHasRows)
      ensures featuredProducts == old(featuredProducts) && loading == old(loading)
      ensures categories == old(categories) && selectedCategory == old(selectedCategory)
    {
      match reply
      case Success(Some(rows), count) =>
        if |rows| == 0 && ActiveCategory(categoryId).Some? && !categoryHasRows {
          error := Some(NoProductsInCategory);
        }
        products := RowsJson(rows).items;
        currentPage := page;
        totalPages := Finite(CeilDiv(CountOrZero(count), ItemsPerPage));
        var key, countKey := PageKey(page, categoryId), CountKey(categoryId);
        ls.SetItem(key, codec.stringify(RowsJson(NormalizeRows(rows))));
        ls.SetItem(TimestampKey(key), IntToString(now));
        ls.SetItem(countKey, codec.stringify(CountJson(count)));
        ls.SetItem(TimestampKey(countKey), IntToString(now));
      case Success(None, _) =>
        error := Some(NullRowsMessage);
      case Failure(m) =>
        error := Some(m);
      case Threw(m) =>
        error := Some(m);
    }

    /** `clearProductsCache`: drop every product and category entry, then empty the three lists. */
    method ClearProductsCache()
      modifies this, ls
      ensures ls.items == ClearedCache(old(ls.items))
      ensures products == [] && featuredProducts == [] && categories == []
      ensures loading == old(loading) && error == old(error) && currentPage == old(currentPage)
      ensures totalPages == old(totalPages) && selectedCategory == old(selectedCategory)
    {
      ghost var start := ls.items;
      var keys := ls.items.Keys;
      ghost var seen: set<string> := {};
      while keys != {}
        invariant keys !! seen && keys + seen == start.Keys
        invariant ls.items == start - (set k | k in seen && IsProductsCacheKey(k))
        invariant unchanged(this)
        decreases keys
      {
        var key :| key in keys;
        if IsProductsCacheKey(key) {
          ls.RemoveItem(key);
        }
        keys := keys - {key};
        seen := seen + {key};
      }
      assert ls.items == ClearedCache(start);
      products := [];
      featuredProducts := [];
      categories := [];
    }

    /** `validateCache`: drop corrupt categories, then every corrupt product entry with its timestamp. */
    method ValidateCache()
      modifies ls
      ensures ls.items == SweptCache(old(ls.items), codec)
    {
      var raw := ls.GetItem(CategoriesKey);
      if raw.Some? && raw.value != "" {
        var parsed := codec.parse(raw.value);
        if parsed.None? || !PassesCategorySweep(parsed.value) {
          ls.RemoveItem(CategoriesKey);
          ls.RemoveItem(TimestampKey(CategoriesKey));
        }
      }
      ghost var start := ls.items;
      assert start == SweptCategories(old(ls.items), codec);
      var keys := ls.items.Keys;
      ghost var seen: set<string> := {};
      while keys != {}
        invariant keys !! seen && keys + seen == start.Keys
        invariant ls.items == WithoutEntries(start, DoomedAmong(start, seen, codec))
        decreases keys
      {
        var key :| key in keys;
        if IsSweptProductKey(key) {
          SweptKeyIsNoTimestamp(key, DoomedAmong(start, seen, codec));
          WithoutEntriesKeeps(start, DoomedAmong(start, seen, codec), key);
          var parsed := codec.parse(ls.items[key]);
          if parsed.None? || !PassesProductSweep(parsed.value) {
            ls.RemoveItem(key);
            ls.RemoveItem(TimestampKey(key));
            SweepStep(start, seen, key, codec);
          } else {
            assert DoomedAmong(start, seen + {key}, codec) == DoomedAmong(start, seen, codec);
          }
        } else {
          assert DoomedAmong(start, seen + {key}, codec) == DoomedAmong(start, seen, codec);
        }
        keys := keys - {key};
        seen := seen + {key};
      }
    }
  }

  /** Removing one more doomed entry removes it and its timestamp sibling. */
  lemma SweepStep(start: map<string, string>, seen: set<string>, key: string, codec: Codec)
    requires key in start && key !in seen && IsSweptProductKey(key) && ProductEntryCorrupt(start, key, codec)
    ensures WithoutEntries(start, DoomedAmong(start, seen + {key}, codec))
         == WithoutEntries(start, DoomedAmong(start, seen, codec)) - {key} - {TimestampKey(key)}
  {
    assert DoomedAmong(start, seen + {key}, codec) == DoomedAmong(start, seen, codec) + {key};
    assert TimestampsOf(DoomedAmong(start, seen, codec) + {key}) == TimestampsOf(DoomedAmong(start, seen, codec)) + {TimestampKey(key)};
  }
}
