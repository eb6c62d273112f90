/**
 * The legacy catalogue store: pages under `products_page_<n>`, one shared count entry,
 * an hour of validity and no check of what the cache holds.
 */
module LegacySupabase {
  import opened Wrappers
  import opened JsText
  import opened Numeric
  import opened Json
  import opened Storage
  import opened Upstream
  import opened CacheUtils
  import ProductsCache
  import opened Featured

  const ItemsPerPage: int := 20
  const LegacyCountKey: string := "products_total_count"

  function LegacyPageKey(page: int): string {
    "products_page_" + IntToString(page)
  }

  /** The part of the store one `getProducts` call reads and writes. */
  datatype LegacyState = LegacyState(products: Json, loading: bool, error: Option<string>, currentPage: int,
                                     totalPages: JsNumber, items: map<string, string>)

  /** The four entries a successful fetch writes. */
  function LegacyWrites(items: map<string, string>, page: int, data: Option<seq<Record>>, count: Option<int>,
                        now: int, codec: Codec): map<string, string>
  {
    var key := LegacyPageKey(page);
    items[key := codec.stringify(DataJson(data))]
         [TimestampKey(key) := IntToString(now)]
         [LegacyCountKey := codec.stringify(ProductsCache.CountJson(count))]
         [TimestampKey(LegacyCountKey) := IntToString(now)]
  }

  /** Whether the cache path is taken: page and count entries present and the page stamped less than an hour ago. */
  predicate UsesCache(items: map<string, string>, page: int, now: int) {
    Present(items, LegacyPageKey(page)) && Present(items, LegacyCountKey) && IsCacheValid(items, LegacyPageKey(page), now)
  }

  /**
   * `getProducts(page)` at clock `now`. The cache path parses both entries outside the
   * error handler: an unparsable page aborts before any change but `loading`, an
   * unparsable count after the page and page number are already set; either way
   * `loading` stays set. The fetch path stores whatever the upstream sends, `null` included.
   */
  function LegacyRequest(s: LegacyState, page: int, now: int, codec: Codec, reply: Reply): LegacyState {
    var started := s.(loading := true, error := None);
    if UsesCache(s.items, page, now) then LegacyCacheRead(started, page, codec)
    else LegacyFetch(started, page, now, codec, reply)
  }

  /** The cache path, from the state with `loading` set. */
  function LegacyCacheRead(started: LegacyState, page: int, codec: Codec): LegacyState
    requires LegacyPageKey(page) in started.items
    requires LegacyCountKey in started.items
  {
    match codec.parse(started.items[LegacyPageKey(page)])
    case None => started
    case Some(j) =>
      match codec.parse(started.items[LegacyCountKey])
      case None => started.(products := j, currentPage := page)
      case Some(c) =>
        started.(products := j, currentPage := page,
                 totalPages := CeilDivNumber(ToNumber(c), ItemsPerPage), loading := false)
  }

  /** The query path, from the state with `loading` set. */
  function LegacyFetch(started: LegacyState, page: int, now: int, codec: Codec, reply: Reply): LegacyState {
    match reply
    case Success(data, count) =>
      started.(products := DataJson(data), currentPage := page,
               totalPages := Finite(CeilDiv(CountOrZero(count), ItemsPerPage)), loading := false,
               items := LegacyWrites(started.items, page, data, count, now, codec))
    case Failure(m) => started.(error := Some(m), loading := false)
    case Threw(m) => started.(error := Some(m), loading := false)
  }

  /** Whether the call settles rather than aborting on an unparsable cached entry. */
  predicate LegacyCompletes(items: map<string, string>, page: int, now: int, codec: Codec) {
    !UsesCache(items, page, now) ||
    (codec.parse(items[LegacyPageKey(page)]).Some? && codec.parse(items[LegacyCountKey]).Some?)
  }

  /** `loading` is left set exactly when the call aborts; a failed query always leaves an error. */
  lemma LegacyOutcome(s: LegacyState, page: int, now: int, codec: Codec, reply: Reply)
    ensures var r := LegacyRequest(s, page, now, codec, reply);
      && (r.loading <==> !LegacyCompletes(s.items, page, now, codec))
      && (r.error.Some? <==> !UsesCache(s.items, page, now) && !reply.Success?)
      && (UsesCache(s.items, page, now) ==> r.items == s.items)
  {
  }

  /**
   * A page fetched at time `t` is served back by the next request for it within the
   * hour: the same products and page count, no query.
   */
  lemma LegacyRepeatIsServedFromCache(s: LegacyState, page: int, t: int, now: int, codec: Codec,
                                      data: Option<seq<Record>>, count: Option<int>, later: Reply)
    requires ValidCodec(codec)
    requires !UsesCache(s.items, page, t)
    requires now - t < CacheDuration
    ensures var first := LegacyRequest(s, page, t, codec, Success(data, count));
      var second := LegacyRequest(first, page, now, codec, later);
      && UsesCache(first.items, page, now)
      && second.products == first.products && second.totalPages == first.totalPages
      && second.currentPage == page && !second.loading && second.error == None
  {
    var first := LegacyRequest(s, page, t, codec, Success(data, count));
    var key := LegacyPageKey(page);
    assert key[9] == 'p' && TimestampKey(key)[9] == 'p';
    assert LegacyCountKey[9] == 't' && TimestampKey(LegacyCountKey)[9] == 't';
    assert |TimestampKey(key)| == |key| + 10;
    assert first.items[key] == codec.stringify(DataJson(data));
    assert first.items[TimestampKey(key)] == IntToString(t);
    assert first.items[LegacyCountKey] == codec.stringify(ProductsCache.CountJson(count));
    StampValidity(first.items, key, t, now);
  }

  /**
   * Unlike the products store, the legacy store serves a fresh cached empty page (and
   * anything else that parses) as the result.
   */
  lemma LegacyServesEmptyPage(s: LegacyState, page: int, now: int, codec: Codec, reply: Reply)
    requires UsesCache(s.items, page, now)
    requires codec.parse(s.items[LegacyPageKey(page)]) == Some(JArr([]))
    requires codec.parse(s.items[LegacyCountKey]).Some?
    ensures LegacyRequest(s, page, now, codec, reply).products == JArr([])
    ensures !LegacyRequest(s, page, now, codec, reply).loading
  {
  }

  /** How many pages `clearProductsCache` walks: `for (i = 1; i <= totalPages; i++)`, none for NaN. */
  function PagesToClear(totalPages: JsNumber): nat
  {
    match totalPages
    case Finite(v) => if v < 0 then 0 else v
    case NaN => 0
  }

  /**
   * The pages the loop visits are exactly `1..PagesToClear(totalPages)`: its guard
   * `i <= totalPages` holds for `i >= 1` just up to that bound, and never against NaN.
   */
  lemma PagesVisited(totalPages: JsNumber, i: int)
    ensures 1 <= i <= PagesToClear(totalPages) <==> 1 <= i && AtMost(i, totalPages)
  {
  }

  /** The page entries and timestamps of pages 1 to `n`. */
  function PageEntries(n: nat): set<string> {
    (set i | 1 <= i <= n :: LegacyPageKey(i)) + (set i | 1 <= i <= n :: TimestampKey(LegacyPageKey(i)))
  }

  /** Removing page `i`'s entry and timestamp extends the removal of the pages before it. */
  lemma ClearStep(start: map<string, string>, i: nat)
    requires i >= 1
    ensures start - PageEntries(i - 1) - {LegacyPageKey(i)} - {TimestampKey(LegacyPageKey(i))} == start - PageEntries(i)
  {
    assert PageEntries(i) == PageEntries(i - 1) + {LegacyPageKey(i), TimestampKey(LegacyPageKey(i))};
  }

  /** Storage after `clearProductsCache` with `n` pages known. */
  function LegacyCleared(items: map<string, string>, n: nat): map<string, string> {
    items - PageEntries(n) - {LegacyCountKey, TimestampKey(LegacyCountKey)}
  }

  lemma DigitsHaveNoUnderscore(n: int, k: int)
    requires 0 <= k < |IntToString(n)|
    ensures IntToString(n)[k] != '_'
  {
  }

  /** A page key is never a timestamp key, and distinct pages have distinct keys. */
  lemma LegacyPageKeyFacts(p: int, i: int)
    ensures LegacyPageKey(p) != TimestampKey(LegacyPageKey(i))
    ensures LegacyPageKey(p) == LegacyPageKey(i) <==> p == i
  {
    var prefix := "products_page_";
    if LegacyPageKey(p) == TimestampKey(LegacyPageKey(i)) {
      var k := |LegacyPageKey(i)|;
      assert LegacyPageKey(p)[k] == '_';
      DigitsHaveNoUnderscore(p, k - |prefix|);
      assert false;
    }
    if LegacyPageKey(p) == LegacyPageKey(i) {
      assert IntToString(p) == LegacyPageKey(p)[|prefix|..];
      assert IntToString(i) == LegacyPageKey(i)[|prefix|..];
      IntToStringInjective(p, i);
    }
  }

  /**
   * Clearing walks only pages 1 to `totalPages`: a page cached beyond that range (written
   * before the count shrank, or while the count read as NaN) survives with its timestamp.
   */
  lemma PagesBeyondCountSurvive(items: map<string, string>, n: nat, p: int)
    requires p < 1 || p > n
    requires LegacyPageKey(p) in items
    ensures LegacyPageKey(p) in LegacyCleared(items, n)
  {
    var key := LegacyPageKey(p);
    forall i | 1 <= i <= n
      ensures key != LegacyPageKey(i) && key != TimestampKey(LegacyPageKey(i))
    {
      LegacyPageKeyFacts(p, i);
    }
    assert key[9] == 'p' && LegacyCountKey[9] == 't' && TimestampKey(LegacyCountKey)[9] == 't';
  }

  class SupabaseStore {
    var products: Json
    var featuredProducts: Json
    var loading: bool
    var error: Option<string>
    var currentPage: int
    var totalPages: JsNumber
    const ls: LocalStorage
    const codec: Codec

    function State(): LegacyState
      reads this, ls
    {
      LegacyState(products, loading, error, currentPage, totalPages, ls.items)
    }

    function FeaturedPart(): FeaturedList
      reads this, ls
    {
      FeaturedList(featuredProducts, loading, error, ls.items)
    }

    constructor (storage: LocalStorage, codec: Codec)
      ensures ls == storage && this.codec == codec
      ensures products == JArr([]) && featuredProducts == JArr([]) && !loading && error == None
      ensures currentPage == 1 && totalPages == Finite(0)
    {
      products := JArr([]);
      featuredProducts := JArr([]);
      loading := false;
      error := None;
      currentPage := 1;
      totalPages := Finite(0);
      ls := storage;
      this.codec := codec;
    }

    /** `getProducts(page)` at clock `now`; `completed` is false when it aborts on an unparsable cached entry. */
    method GetProducts(page: int, now: int, reply: Reply) returns (completed: bool)
      modifies this, ls
      ensures State() == LegacyRequest(old(State()), page, now, codec, reply)
      ensures completed <==> LegacyCompletes(old(ls.items), page, now, codec)
      ensures featuredProducts == old(featuredProducts)
    {
      loading := true;
      error := None;
      if UsesCache(ls.items, page, now) {
        completed := ServeCache(page);
      } else {
        FetchPage(page, now, reply);
        completed := true;
      }
    }

    method ServeCache(page: int) returns (completed: bool)
      requires LegacyPageKey(page) in ls.items && LegacyCountKey in ls.items
      modifies this
      ensures State() == LegacyCacheRead(old(State()), page, codec)
      ensures completed <==> codec.parse(ls.items[LegacyPageKey(page)]).Some? && codec.parse(ls.items[LegacyCountKey]).Some?
      ensures featuredProducts == old(featuredProducts) && error == old(error)
    {
      var parsed := codec.parse(ls.items[LegacyPageKey(page)]);
      if parsed.None? {
        return false;
      }
      products := parsed.value;
      currentPage := page;
      var count := codec.parse(ls.items[LegacyCountKey]);
      if count.None? {
        return false;
      }
      totalPages := CeilDivNumber(ToNumber(count.value), ItemsPerPage);
      loading := false;
      return true;
    }

    method FetchPage(page: int, now: int, reply: Reply)
      modifies this, ls
      ensures State() == LegacyFetch(old(State()), page, now, codec, reply)
      ensures featuredProducts == old(featuredProducts)
    {
      var key := LegacyPageKey(page);
      match reply {
        case Success(data, count) =>
          products := DataJson(data);
          currentPage := page;
          totalPages := Finite(CeilDiv(CountOrZero(count), ItemsPerPage));
          ls.SetItem(key, codec.stringify(DataJson(data)));
          ls.SetItem(TimestampKey(key), IntToString(now));
          ls.SetItem(LegacyCountKey, codec.stringify(ProductsCache.CountJson(count)));
          ls.SetItem(TimestampKey(LegacyCountKey), IntToString(now));
        case Failure(m) =>
          error := Some(m);
        case Threw(m) =>
          error := Some(m);
      }
      loading := false;
    }

    /** `getFeaturedProducts`: the same load as the featured-products store, on this store's state. */
    method GetFeaturedProducts(reply: Reply) returns (completed: bool)
      modifies this, ls
      ensures FeaturedPart() == LoadFeatured(old(FeaturedPart()), codec, reply)
      ensures completed <==> LoadCompletes(old(ls.items), codec)
      ensures products == old(products) && currentPage == old(currentPage) && totalPages == old(totalPages)
    {
      loading := true;
      error := None;
      var cached := ls.GetItem(FeaturedCacheKey);
      if cached.Some? && cached.value != "" {
        var parsed := codec.parse(cached.value);
        if parsed.None? {
          return false;
        }
        featuredProducts := parsed.value;
        loading := false;
        return true;
      }
      match reply {
        case Success(data, _) =>
          featuredProducts := DataJson(data);
          ls.SetItem(FeaturedCacheKey, codec.stringify(DataJson(data)));
        case Failure(m) =>
          error := Some(m);
        case Threw(m) =>
          error := Some(m);
      }
      loading := false;
      return true;
    }

    /** `clearFeaturedProductsCache`. */
    method ClearFeaturedProductsCache()
      modifies ls
      ensures ls.items == old(ls.items) - {FeaturedCacheKey}
    {
      ls.RemoveItem(FeaturedCacheKey);
    }

    /** `clearProductsCache`: pages 1 to `totalPages` with their timestamps, then the count and its timestamp. */
    method ClearProductsCache()
      modifies ls
      ensures ls.items == LegacyCleared(old(ls.items), PagesToClear(totalPages))
    {
      ghost var n := PagesToClear(totalPages);
      var i := 1;
      while AtMost(i, totalPages)
        invariant 1 <= i <= n + 1
        invariant ls.items == old(ls.items) - PageEntries(i - 1)
        decreases n + 1 - i
      {
        PagesVisited(totalPages, i);
        ls.RemoveItem(LegacyPageKey(i));
        ls.RemoveItem(TimestampKey(LegacyPageKey(i)));
        ClearStep(old(ls.items), i);
        i := i + 1;
      }
      PagesVisited(totalPages, i);
      ls.RemoveItem(LegacyCountKey);
      ls.RemoveItem(TimestampKey(LegacyCountKey));
    }
  }
}
