/**
 * The administration product list: a paged listing re-issued as a plain fetch, a
 * search or a category filter, with computed page counts, bounded navigation, and
 * in-place edits after create, update and delete.
 */
module AdminProducts {
  import opened Wrappers
  import opened Numeric
  import opened Json
  import opened Upstream

  /** Rows per page (`pageSize`, never reassigned by the store). */
  const PageSize: int := 20

  /** The message of the TypeError raised by `data[0]` when `data` is `null`. */
  const NullIndexMessage: string := "Cannot read properties of null (reading '0')"

  /** Which listing `currentAction` says was issued last. */
  datatype Action = Fetch | Search | Filter

  datatype ProductRow = ProductRow(id: int, fields: Record)
  datatype Category = Category(id: int, name: string, enabled: bool, description: string)

  /** A query's result: its payload, or the message of the error it returned or threw. */
  datatype Answer<T> = Ok(value: T) | Err(message: string)

  /**
   * The two queries of one listing: the exact count, then the rows of the requested
   * range `from..to` (inclusive), the database being a function of that range.
   */
  datatype ListingAnswers = ListingAnswers(count: Answer<Option<int>>, rows: (int, int) -> Answer<Option<seq<ProductRow>>>)

  /** The categories query: rows (its `error` only causes a log write), or a throw. */
  datatype CategoryReply = Answered(data: Option<seq<Category>>, failed: bool) | CategoryThrew(message: string)

  datatype AdminState = AdminState(
    products: seq<ProductRow>, isLoading: bool, error: Option<string>, categories: seq<Category>,
    totalProducts: int, currentPage: int, currentQuery: string, currentCategoryId: Option<int>,
    currentAction: Action)

  // ---------------------------------------------------------------- paging arithmetic

  /** The computed `totalPages`: `Math.ceil(totalProducts / pageSize)`. */
  function TotalPages(totalProducts: int): int {
    CeilDiv(totalProducts, PageSize)
  }

  predicate HasNextPage(s: AdminState) {
    s.currentPage < TotalPages(s.totalProducts)
  }

  predicate HasPreviousPage(s: AdminState) {
    s.currentPage > 1
  }

  /** The inclusive row range requested for page `page`. */
  function RangeFrom(page: int): int {
    (page - 1) * PageSize
  }

  function RangeTo(page: int): int {
    RangeFrom(page) + PageSize - 1
  }

  /** Every page asks for exactly `pageSize` rows, and consecutive pages abut. */
  lemma PageRangeSize(page: int)
    ensures RangeTo(page) - RangeFrom(page) + 1 == PageSize
    ensures RangeFrom(page + 1) == RangeTo(page) + 1
    ensures page == 1 ==> RangeFrom(page) == 0
  {
  }

  /** Row `r` (counting from 0) is requested by page `p` exactly when `p` is `r / pageSize + 1`. */
  lemma {:induction false} RowOnExactlyOnePage(r: nat, p: int)
    ensures RangeFrom(p) <= r <= RangeTo(p) <==> p == r / PageSize + 1
  {
    var q := r / PageSize;
    assert q * PageSize <= r < (q + 1) * PageSize;
    if p <= q {
      assert (p - 1) * PageSize + PageSize - 1 < q * PageSize;
    } else if p >= q + 2 {
      assert (p - 1) * PageSize >= (q + 1) * PageSize;
    }
  }

  /**
   * With `n` products, pages 1 to `totalPages` request every row below `n`, the last of
   * them holds at least one row, and with no products there is no page at all.
   */
  lemma PagesCoverProducts(n: int, r: nat)
    ensures r < n ==> 1 <= r / PageSize + 1 <= TotalPages(n)
    ensures n > 0 ==> 1 <= TotalPages(n) && RangeFrom(TotalPages(n)) < n
    ensures n <= 0 ==> TotalPages(n) <= 0
  {
    var t := TotalPages(n);
    assert (t - 1) * PageSize < n <= t * PageSize;
    if r < n {
      var q := r / PageSize;
      assert q * PageSize <= r;
    }
  }

  // ---------------------------------------------------------------- listings

  /** The failure handler of the three listings. */
  function ListingFailed(s: AdminState, message: string): AdminState {
    s.(error := Some(message), products := [], totalProducts := 0, isLoading := false)
  }

  /**
   * `fetchProducts`, `searchProducts` and `filterProductsByCategory` share this shape:
   * record what is being listed, count, then read the page's range; a failure of either
   * query empties the list and the count.
   */
  function Listing(s: AdminState, action: Action, query: string, categoryId: Option<int>, page: int,
                   ans: ListingAnswers): AdminState
  {
    var started := s.(isLoading := true, error := None, currentPage := page, currentAction := action,
                      currentQuery := query, currentCategoryId := categoryId);
    match ans.count
    case Err(m) => ListingFailed(started, m)
    case Ok(c) =>
      var counted := started.(totalProducts := CountOrZero(c));
      match ans.rows(RangeFrom(page), RangeTo(page))
      case Err(m) => ListingFailed(counted, m)
      case Ok(rows) => counted.(products := rows.GetOr([]), isLoading := false)
  }

  function Fetched(s: AdminState, page: int, ans: ListingAnswers): AdminState {
    Listing(s, Fetch, "", None, page, ans)
  }

  function Searched(s: AdminState, query: string, page: int, ans: ListingAnswers): AdminState {
    Listing(s, Search, query, None, page, ans)
  }

  function Filtered(s: AdminState, categoryId: Option<int>, page: int, ans: ListingAnswers): AdminState {
    Listing(s, Filter, "", categoryId, page, ans)
  }

  /**
   * Every listing ends with `isLoading` cleared on page `page`: on success the rows of
   * the page's range (or none) and the count (or 0); on any failure no rows, a count
   * of 0 and the error's message; categories untouched.
   */
  lemma ListingOutcome(s: AdminState, action: Action, query: string, categoryId: Option<int>, page: int,
                       ans: ListingAnswers)
    ensures var r := Listing(s, action, query, categoryId, page, ans);
      && !r.isLoading && r.currentPage == page && r.currentAction == action
      && r.currentQuery == query && r.currentCategoryId == categoryId && r.categories == s.categories
      && (r.error.None? <==> ans.count.Ok? && ans.rows(RangeFrom(page), RangeTo(page)).Ok?)
      && (r.error.Some? ==> r.products == [] && r.totalProducts == 0)
      && (r.error.None? ==>
            r.products == ans.rows(RangeFrom(page), RangeTo(page)).value.GetOr([])
            && r.totalProducts == CountOrZero(ans.count.value))
  {
  }

  // ---------------------------------------------------------------- navigation

  /** The listing `nextPage`, `previousPage` and `goToPage` re-issue for `page`. */
  function Reissued(s: AdminState, page: int, ans: ListingAnswers): AdminState {
    if s.currentAction == Search && s.currentQuery != "" then Searched(s, s.currentQuery, page, ans)
    else if s.currentAction == Filter then Filtered(s, s.currentCategoryId, page, ans)
    else Fetched(s, page, ans)
  }

  function AfterNextPage(s: AdminState, ans: ListingAnswers): AdminState {
    if HasNextPage(s) then Reissued(s, s.currentPage + 1, ans) else s
  }

  function AfterPreviousPage(s: AdminState, ans: ListingAnswers): AdminState {
    if HasPreviousPage(s) then Reissued(s, s.currentPage - 1, ans) else s
  }

  function AfterGoToPage(s: AdminState, page: int, ans: ListingAnswers): AdminState {
    if 1 <= page <= TotalPages(s.totalProducts) then Reissued(s, page, ans) else s
  }

  /**
   * Re-issuing keeps what is being listed: a search with its text (a search with an
   * empty text becomes a plain fetch), a filter with its category, else a fetch.
   */
  lemma ReissueKeepsListing(s: AdminState, page: int, ans: ListingAnswers)
    ensures var r := Reissued(s, page, ans);
      && r.currentPage == page
      && (s.currentAction == Search && s.currentQuery != "" ==>
            r.currentAction == Search && r.currentQuery == s.currentQuery && r.currentCategoryId == None)
      && (s.currentAction == Filter ==>
            r.currentAction == Filter && r.currentCategoryId == s.currentCategoryId && r.currentQuery == "")
      && (s.currentAction == Fetch || (s.currentAction == Search && s.currentQuery == "") ==>
            r.currentAction == Fetch && r.currentQuery == "" && r.currentCategoryId == None)
  {
  }

  /**
   * Navigation moves only within the pages the old count allows: `goToPage` lands in
   * `1..totalPages`, `nextPage` on the following page at most `totalPages`,
   * `previousPage` on the preceding page at least 1; otherwise nothing changes.
   */
  lemma NavigationStaysInRange(s: AdminState, page: int, ans: ListingAnswers)
    ensures var r := AfterGoToPage(s, page, ans);
      r == s || (1 <= r.currentPage == page <= TotalPages(s.totalProducts))
    ensures var r := AfterNextPage(s, ans);
      r == s || (r.currentPage == s.currentPage + 1 <= TotalPages(s.totalProducts))
    ensures var r := AfterPreviousPage(s, ans);
      r == s || (1 <= r.currentPage == s.currentPage - 1)
  {
    ReissueKeepsListing(s, page, ans);
    ReissueKeepsListing(s, s.currentPage + 1, ans);
    ReissueKeepsListing(s, s.currentPage - 1, ans);
  }

  /** With no products no page is reachable by `goToPage`, nor by `nextPage` from page 0 or later. */
  lemma NoPageReachableWhenEmpty(s: AdminState, page: int, ans: ListingAnswers)
    requires s.totalProducts == 0
    ensures AfterGoToPage(s, page, ans) == s
    ensures s.currentPage >= 0 ==> AfterNextPage(s, ans) == s
  {
  }

  // ---------------------------------------------------------------- edits

  /** `findIndex((p) => p.id === id)`. */
  function RowIndex(rows: seq<ProductRow>, id: int): (i: int)
    ensures -1 <= i < |rows|
    ensures 0 <= i ==> rows[i].id == id && forall j | 0 <= j < i :: rows[j].id != id
    ensures i == -1 ==> forall j | 0 <= j < |rows| :: rows[j].id != id
  {
    if rows == [] then -1
    else if rows[0].id == id then 0
    else
      var k := RowIndex(rows[1..], id);
      if k == -1 then -1 else k + 1
  }

  /** `filter((p) => p.id !== id)`. */
  function Without(rows: seq<ProductRow>, id: int): (r: seq<ProductRow>)
    ensures |r| <= |rows|
    ensures forall i | 0 <= i < |r| :: r[i].id != id && r[i] in rows
    ensures forall i | 0 <= i < |rows| && rows[i].id != id :: rows[i] in r
  {
    if rows == [] then []
    else if rows[0].id == id then Without(rows[1..], id)
    else [rows[0]] + Without(rows[1..], id)
  }

  /** The first row of a returned `data`, as `data[0]` reads it; `None` for `undefined`. */
  function FirstRow(rows: seq<ProductRow>): Option<ProductRow> {
    if |rows| > 0 then Some(rows[0]) else None
  }

  /**
   * `updateProduct(id, …)`: the first listed row with the id is replaced by the returned
   * row; `null` data fails on `data[0]` after the update went through.
   */
  function Updated(s: AdminState, id: int, ans: Answer<Option<seq<ProductRow>>>): (AdminState, Outcome<Option<ProductRow>>) {
    var started := s.(isLoading := true, error := None);
    match ans
    case Err(m) => (started.(error := Some(m), isLoading := false), Rejected(m))
    case Ok(None) => (started.(error := Some(NullIndexMessage), isLoading := false), Rejected(NullIndexMessage))
    case Ok(Some(rows)) =>
      var i := RowIndex(s.products, id);
      var products := if |rows| > 0 && i != -1 then s.products[i := rows[0]] else s.products;
      (started.(products := products, isLoading := false), Returned(FirstRow(rows)))
  }

  /** Only the first row with the id changes, and only when a row came back; the count stays. */
  lemma UpdateEffect(s: AdminState, id: int, rows: seq<ProductRow>)
    ensures var (r, out) := Updated(s, id, Ok(Some(rows)));
      && |r.products| == |s.products| && r.totalProducts == s.totalProducts
      && out == Returned(FirstRow(rows)) && r.error == None && !r.isLoading
      && (forall j | 0 <= j < |s.products| && j != RowIndex(s.products, id) :: r.products[j] == s.products[j])
      && (rows == [] || RowIndex(s.products, id) == -1 ==> r.products == s.products)
      && (rows != [] && RowIndex(s.products, id) != -1 ==> r.products[RowIndex(s.products, id)] == rows[0])
  {
  }

  /**
   * `deleteProduct(id)`: drop the id from the list and one from the count; an emptied
   * page reloads the previous page (page 1 from the first) as a plain fetch.
   */
  function Deleted(s: AdminState, id: int, ans: Answer<()>, refetch: ListingAnswers): (AdminState, Outcome<bool>) {
    var started := s.(isLoading := true, error := None);
    match ans
    case Err(m) => (started.(error := Some(m), isLoading := false), Rejected(m))
    case Ok(_) =>
      var kept := started.(products := Without(s.products, id), totalProducts := s.totalProducts - 1);
      var reloaded :=
        if |kept.products| == 0 && s.currentPage > 1 then Fetched(kept, s.currentPage - 1, refetch)
        else if |kept.products| == 0 then Fetched(kept, 1, refetch)
        else kept;
      (reloaded.(isLoading := false), Returned(true))
  }

  /**
   * After a successful delete: when rows remain they are the old ones minus the id and
   * the count is one lower; when none remain the previous page (at least page 1) is
   * fetched, dropping any search or filter.
   */
  lemma DeleteEffect(s: AdminState, id: int, refetch: ListingAnswers)
    ensures var (r, out) := Deleted(s, id, Ok(()), refetch);
      && out == Returned(true) && !r.isLoading
      && (Without(s.products, id) != [] ==>
            r.products == Without(s.products, id) && r.totalProducts == s.totalProducts - 1
            && r.currentPage == s.currentPage && r.currentAction == s.currentAction)
      && (Without(s.products, id) == [] ==>
            r.currentPage == (if s.currentPage > 1 then s.currentPage - 1 else 1) && r.currentAction == Fetch
            && r.currentQuery == "" && r.currentCategoryId == None)
  {
  }

  /** A failed delete reports its message and leaves the list and the count as they were. */
  lemma DeleteFailureKeepsList(s: AdminState, id: int, m: string, refetch: ListingAnswers)
    ensures var (r, out) := Deleted(s, id, Err(m), refetch);
      out == Rejected(m) && r.error == Some(m) && r.products == s.products && r.totalProducts == s.totalProducts
  {
  }

  /**
   * `createProduct`: after the insert the current page is fetched again (as a plain
   * fetch); the first returned row is the result, and `null` data fails after the refresh.
   */
  function Created(s: AdminState, ans: Answer<Option<seq<ProductRow>>>, refetch: ListingAnswers): (AdminState, Outcome<Option<ProductRow>>) {
    var started := s.(isLoading := true, error := None);
    match ans
    case Err(m) => (started.(error := Some(m), isLoading := false), Rejected(m))
    case Ok(data) =>
      var refreshed := Fetched(started, s.currentPage, refetch);
      match data
      case None => (refreshed.(error := Some(NullIndexMessage), isLoading := false), Rejected(NullIndexMessage))
      case Some(rows) => (refreshed.(isLoading := false), Returned(FirstRow(rows)))
  }

  /** A created product is followed by a plain fetch of the same page; a failed insert fetches nothing. */
  lemma CreateEffect(s: AdminState, ans: Answer<Option<seq<ProductRow>>>, refetch: ListingAnswers)
    ensures var (r, out) := Created(s, ans, refetch);
      && !r.isLoading && r.currentPage == s.currentPage
      && (ans.Err? ==> out == Rejected(ans.message) && r.products == s.products && r.currentAction == s.currentAction)
      && (ans.Ok? ==> r.currentAction == Fetch && r.currentQuery == "" && r.currentCategoryId == None)
      && (ans.Ok? && ans.value.Some? ==> out == Returned(FirstRow(ans.value.value)))
  {
  }

  // ---------------------------------------------------------------- categories

  /** The five categories used whenever the database yields none. */
  function FallbackCategories(): (cs: seq<Category>)
    ensures |cs| == 5 && forall i | 0 <= i < 5 :: cs[i].id == i + 1 && cs[i].enabled
  {
    [ Category(1, "Electronics", true, "Electronic devices and accessories"),
      Category(2, "Clothing", true, "Apparel and fashion items"),
      Category(3, "Home & Kitchen", true, "Home decor and kitchen products"),
      Category(4, "Books", true, "Books and reading materials"),
      Category(5, "Sports & Outdoors", true, "Sports equipment and outdoor gear") ]
  }

  function WithCategories(s: AdminState, reply: CategoryReply): AdminState {
    match reply
    case Answered(data, _) =>
      var cs := if data.Some? && |data.value| > 0 then data.value else FallbackCategories();
      s.(categories := cs, error := None, isLoading := false)
    case CategoryThrew(m) =>
      s.(categories := FallbackCategories(), error := Some(m), isLoading := false)
  }

  /**
   * The categories are the returned rows when there are any, and the fixed five
   * otherwise: no rows (with or without an error reply), or a throw. Only a throw sets `error`.
   */
  lemma CategoriesEffect(s: AdminState, reply: CategoryReply)
    ensures var r := WithCategories(s, reply);
      && |r.categories| > 0 && !r.isLoading && r.products == s.products
      && (reply.Answered? && reply.data.Some? && |reply.data.value| > 0 ==> r.categories == reply.data.value)
      && (!(reply.Answered? && reply.data.Some? && |reply.data.value| > 0) ==> r.categories == FallbackCategories())
      && (r.error.Some? <==> reply.CategoryThrew?)
  {
  }

  class AdminProductStore {
    var products: seq<ProductRow>
    var isLoading: bool
    var error: Option<string>
    var categories: seq<Category>
    var totalProducts: int
    var currentPage: int
    var currentQuery: string
    var currentCategoryId: Option<int>
    var currentAction: Action

    function State(): AdminState
      reads this
    {
      AdminState(products, isLoading, error, categories, totalProducts, currentPage, currentQuery,
                 currentCategoryId, currentAction)
    }

    constructor ()
      ensures State() == AdminState([], false, None, [], 0, 1, "", None, Fetch)
    {
      products := [];
      isLoading := false;
      error := None;
      categories := [];
      totalProducts := 0;
      currentPage := 1;
      currentQuery := "";
      currentCategoryId := None;
      currentAction := Fetch;
    }

    /** The body shared by the three listings. */
    method List(action: Action, query: string, categoryId: Option<int>, page: int, ans: ListingAnswers)
      modifies this
      ensures State() == Listing(old(State()), action, query, categoryId, page, ans)
    {
      isLoading := true;
      error := None;
      currentPage := page;
      currentAction := action;
      currentQuery := query;
      currentCategoryId := categoryId;
      match ans.count {
        case Err(m) =>
          error := Some(m);
          products := [];
          totalProducts := 0;
        case Ok(c) =>
          totalProducts := CountOrZero(c);
          var from := (page - 1) * PageSize;
          var to := from + PageSize - 1;
          match ans.rows(from, to) {
            case Err(m) =>
              error := Some(m);
              products := [];
              totalProducts := 0;
            case Ok(rows) =>
              products := rows.GetOr([]);
          }
      }
      isLoading := false;
    }

    method FetchProducts(page: int, ans: ListingAnswers)
      modifies this
      ensures State() == Fetched(old(State()), page, ans)
    {
      List(Fetch, "", None, page, ans);
    }

    method SearchProducts(query: string, page: int, ans: ListingAnswers)
      modifies this
      ensures State() == Searched(old(State()), query, page, ans)
    {
      List(Search, query, None, page, ans);
    }

    method FilterProductsByCategory(categoryId: Option<int>, page: int, ans: ListingAnswers)
      modifies this
      ensures State() == Filtered(old(State()), categoryId, page, ans)
    {
      List(Filter, "", categoryId, page, ans);
    }

    method Reissue(page: int, ans: ListingAnswers)
      modifies this
      ensures State() == Reissued(old(State()), page, ans)
    {
      if currentAction == Search && currentQuery != "" {
        SearchProducts(currentQuery, page, ans);
      } else if currentAction == Filter {
        FilterProductsByCategory(currentCategoryId, page, ans);
      } else {
        FetchProducts(page, ans);
      }
    }

    method NextPage(ans: ListingAnswers)
      modifies this
      ensures State() == AfterNextPage(old(State()), ans)
    {
      if currentPage < CeilDiv(totalProducts, PageSize) {
        Reissue(currentPage + 1, ans);
      }
    }

    method PreviousPage(ans: ListingAnswers)
      modifies this
      ensures State() == AfterPreviousPage(old(State()), ans)
    {
      if currentPage > 1 {
        Reissue(currentPage - 1, ans);
      }
    }

    method GoToPage(page: int, ans: ListingAnswers)
      modifies this
      ensures State() == AfterGoToPage(old(State()), page, ans)
    {
      if page >= 1 && page <= CeilDiv(totalProducts, PageSize) {
        Reissue(page, ans);
      }
    }

    method FetchCategories(reply: CategoryReply)
      modifies this
      ensures State() == WithCategories(old(State()), reply)
    {
      isLoading := true;
      error := None;
      match reply {
        case Answered(data, _) =>
          if data.Some? && |data.value| > 0 {
            categories := data.value;
          } else {
            categories := FallbackCategories();
          }
        case CategoryThrew(m) =>
          error := Some(m);
          categories := FallbackCategories();
      }
      isLoading := false;
    }

    method UpdateProduct(id: int, ans: Answer<Option<seq<ProductRow>>>) returns (out: Outcome<Option<ProductRow>>)
      modifies this
      ensures (State(), out) == Updated(old(State()), id, ans)
    {
      isLoading := true;
      error := None;
      match ans {
        case Err(m) =>
          error := Some(m);
          out := Rejected(m);
        case Ok(None) =>
          error := Some(NullIndexMessage);
          out := Rejected(NullIndexMessage);
        case Ok(Some(rows)) =>
          if |rows| > 0 {
            var index := RowIndex(products, id);
            if index != -1 {
              products := products[index := rows[0]];
            }
          }
          out := Returned(FirstRow(rows));
      }
      isLoading := false;
    }

    method DeleteProduct(id: int, ans: Answer<()>, refetch: ListingAnswers) returns (out: Outcome<bool>)
      modifies this
      ensures (State(), out) == Deleted(old(State()), id, ans, refetch)
    {
      isLoading := true;
      error := None;
      match ans {
        case Err(m) =>
          error := Some(m);
          out := Rejected(m);
        case Ok(_) =>
          products := Without(products, id);
          totalProducts := totalProducts - 1;
          if |products| == 0 && currentPage > 1 {
            FetchProducts(currentPage - 1, refetch);
          } else if |products| == 0 {
            FetchProducts(1, refetch);
          }
          out := Returned(true);
      }
      isLoading := false;
    }

    method CreateProduct(ans: Answer<Option<seq<ProductRow>>>, refetch: ListingAnswers) returns (out: Outcome<Option<ProductRow>>)
      modifies this
      ensures (State(), out) == Created(old(State()), ans, refetch)
    {
      isLoading := true;
      error := None;
      match ans {
        case Err(m) =>
          error := Some(m);
          out := Rejected(m);
        case Ok(data) =>
          FetchProducts(currentPage, refetch);
          match data {
            case None =>
              error := Some(NullIndexMessage);
              out := Rejected(NullIndexMessage);
            case Some(rows) =>
              out := Returned(FirstRow(rows));
          }
      }
      isLoading := false;
    }
  }
}
