/**
 * The featured-products store: one `featured_products` entry in local storage, with no
 * timestamp and no expiry. The legacy store loads its featured list the same way.
 */
module Featured {
  import opened Wrappers
  import opened Json
  import opened Storage
  import opened Upstream

  const FeaturedCacheKey: string := "featured_products"

  /** The part of a store that loading the featured list reads and writes. */
  datatype FeaturedList = FeaturedList(featured: Json, loading: bool, error: Option<string>, items: map<string, string>)

  /**
   * Loading the featured list: a non-empty cached entry is parsed and served whatever its
   * age and content; otherwise the upstream answer (`null` included) replaces the list and
   * is cached, and a failed query becomes the error. The cached entry is parsed outside
   * the error handler, so an entry that does not parse aborts the load with `loading` still set.
   */
  function LoadFeatured(s: FeaturedList, codec: Codec, reply: Reply): FeaturedList {
    var started := s.(loading := true, error := None);
    if Present(s.items, FeaturedCacheKey) then
      match codec.parse(s.items[FeaturedCacheKey])
      case Some(j) => started.(featured := j, loading := false)
      case None => started
    else
      match reply
      case Success(data, _) =>
        started.(featured := DataJson(data), loading := false,
                 items := s.items[FeaturedCacheKey := codec.stringify(DataJson(data))])
      case Failure(m) => started.(error := Some(m), loading := false)
      case Threw(m) => started.(error := Some(m), loading := false)
  }

  /** Whether the load settles, rather than aborting on an unparsable cached entry. */
  predicate LoadCompletes(items: map<string, string>, codec: Codec) {
    !Present(items, FeaturedCacheKey) || codec.parse(items[FeaturedCacheKey]).Some?
  }

  /**
   * A load always clears the previous error first, and `loading` is left set exactly
   * when it aborts. A readable cached list is served as is; without a cached list the
   * upstream's list is served and cached, and a failed query keeps the old list and
   * reports its message. No other storage entry is touched.
   */
  lemma LoadOutcome(s: FeaturedList, codec: Codec, reply: Reply)
    ensures var r := LoadFeatured(s, codec, reply);
      && (r.loading <==> !LoadCompletes(s.items, codec))
      && (r.error.Some? <==> !Present(s.items, FeaturedCacheKey) && !reply.Success?)
      && (!LoadCompletes(s.items, codec) ==> r.featured == s.featured && r.items == s.items)
      && r.items - {FeaturedCacheKey} == s.items - {FeaturedCacheKey}
      && (Present(s.items, FeaturedCacheKey) && codec.parse(s.items[FeaturedCacheKey]).Some? ==>
            r.featured == codec.parse(s.items[FeaturedCacheKey]).value && r.items == s.items)
      && (!Present(s.items, FeaturedCacheKey) && reply.Success? ==>
            r.featured == DataJson(reply.data)
            && FeaturedCacheKey in r.items
            && r.items[FeaturedCacheKey] == codec.stringify(DataJson(reply.data)))
      && (!Present(s.items, FeaturedCacheKey) && !reply.Success? ==>
            r.featured == s.featured && r.items == s.items && r.error == Some(reply.message))
  {
  }

  /**
   * No expiry: once a load has fetched and cached the list, every later load serves the
   * same list from storage, without a query, whatever the later upstream answer.
   */
  lemma CachedListIsServedForever(s: FeaturedList, codec: Codec, reply: Reply, later: Reply)
    requires ValidCodec(codec)
    requires !Present(s.items, FeaturedCacheKey)
    requires reply.Success?
    ensures var first := LoadFeatured(s, codec, reply);
      var second := LoadFeatured(first, codec, later);
      && second.featured == first.featured
      && second.items == first.items
      && !second.loading && second.error == None
  {
    var first := LoadFeatured(s, codec, reply);
    assert first.items[FeaturedCacheKey] == codec.stringify(DataJson(reply.data));
  }

  /** After the entry is removed, the next load queries the upstream again. */
  lemma ClearedCacheQueriesAgain(s: FeaturedList, codec: Codec, reply: Reply)
    ensures var r := LoadFeatured(s.(items := s.items - {FeaturedCacheKey}), codec, reply);
      reply.Success? ==> r.featured == DataJson(reply.data)
  {
  }

  class FeaturedProductsStore {
    var featuredProducts: Json
    var loading: bool
    var error: Option<string>
    const ls: LocalStorage
    const codec: Codec

    function List(): FeaturedList
      reads this, ls
    {
      FeaturedList(featuredProducts, loading, error, ls.items)
    }

    constructor (storage: LocalStorage, codec: Codec)
      ensures ls == storage && this.codec == codec
      ensures featuredProducts == JArr([]) && !loading && error == None
    {
      featuredProducts := JArr([]);
      loading := false;
      error := None;
      ls := storage;
      this.codec := codec;
    }

    /** `getFeaturedProducts`; `completed` is false when the call aborts on an unparsable cached entry. */
    method GetFeaturedProducts(reply: Reply) returns (completed: bool)
      modifies this, ls
      ensures List() == LoadFeatured(old(List()), codec, reply)
      ensures completed <==> LoadCompletes(old(ls.items), codec)
    {
      loading := true;
      error := None;
      var cached := ls.GetItem(FeaturedCacheKey);
      if cached.Some? && cached.value != "" {
        var parsed := codec.parse(cached.value);
        if parsed.None? {
          return false;
        }
        featuredProducts := parsed.value;
        loading := false;
        return true;
      }
      match reply {
        case Success(data, _) =>
          featuredProducts := DataJson(data);
          ls.SetItem(FeaturedCacheKey, codec.stringify(DataJson(data)));
        case Failure(m) =>
          error := Some(m);
        case Threw(m) =>
          error := Some(m);
      }
      loading := false;
      return true;
    }

    /** `clearFeaturedProductsCache`: remove the one entry. */
    method ClearFeaturedProductsCache()
      modifies ls
      ensures ls.items == old(ls.items) - {FeaturedCacheKey}
    {
      ls.RemoveItem(FeaturedCacheKey);
    }
  }
}
