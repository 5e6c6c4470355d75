/** The infinite-scroll product list
    (frontend/src/components/Products/ProductListInfinite.tsx:12-68): the
    filter object built from the category prop and the URL, and the
    condition under which reaching the bottom loads the next page. The
    filter object is an ordered list of distinct names, in the order its
    properties were first assigned, which is the order `Object.entries`
    lists them. */
module ProductListInfinite {
  import opened Common
  import opened QueryParams
  import opened InfiniteProducts
  import opened ProductList

  /** The category the filter object ends with: the URL's when it is
      non-empty, otherwise the prop's. */
  function ChosenCategory(category: string, url: Params): Option<string>
  {
    if TruthyOpt(Get(url, "category")) then Get(url, "category") else Some(category)
  }

  /** The filter object: at most one category, then the URL's search,
      price bounds, stock flag and sort, each only when non-empty. */
  function NewFilters(category: string, url: Params): Params
  {
    Pieces(None, ChosenCategory(category, url), Get(url, "search"), Get(url, "price_min"),
           Get(url, "price_max"), Get(url, "in_stock"), Get(url, "sort_by"))
  }

  /** `obj[k] = v` when `v` is non-empty, on an object whose names are
      among `present`, which does not hold `k`: the property is added last. */
  method AssignIfSet(obj: Params, k: string, v: Option<string>, ghost present: set<string>) returns (r: Params)
    requires forall i :: 0 <= i < |obj| ==> obj[i].0 in present
    requires k !in present
    ensures r == obj + Piece(k, v)
    ensures forall i :: 0 <= i < |r| ==> r[i].0 in present + {k}
  {
    r := obj;
    if TruthyOpt(v) {
      SetWhenAbsent(obj, k, v.value);
      r := Set(r, k, v.value);
    }
  }

  /** The category steps of the effect: the prop's category assigned
      first, then the URL's assigned over it. */
  method AssignCategory(category: string, categoryParam: Option<string>) returns (obj: Params)
    ensures obj == Piece("category", None)
                   + Piece("category", if TruthyOpt(categoryParam) then categoryParam else Some(category))
    ensures forall i :: 0 <= i < |obj| ==> obj[i].0 in {"category"}
  {
    obj := [];
    if category != "" {
      obj := Set(obj, "category", category);
    }
    if TruthyOpt(categoryParam) {
      obj := Set(obj, "category", categoryParam.value);
    }
    assert Piece("category", None) == [];
  }

  /** The effect that rebuilds the filters: the prop's category first, the
      URL's category overwriting it in place, then the other URL filters
      added in order. */
  method BuildFilters(category: string, url: Params) returns (filters: Params)
    ensures filters == NewFilters(category, url)
  {
    var categoryParam := Get(url, "category");
    var searchQuery := Get(url, "search");
    var priceMin := Get(url, "price_min");
    var priceMax := Get(url, "price_max");
    var inStock := Get(url, "in_stock");
    var sortBy := Get(url, "sort_by");
    filters := AssignCategory(category, categoryParam);
    filters := AssignIfSet(filters, "search", searchQuery, {"category"});
    filters := AssignIfSet(filters, "price_min", priceMin, {"category", "search"});
    filters := AssignIfSet(filters, "price_max", priceMax, {"category", "search", "price_min"});
    filters := AssignIfSet(filters, "in_stock", inStock, {"category", "search", "price_min", "price_max"});
    filters := AssignIfSet(filters, "sort_by", sortBy, {"category", "search", "price_min", "price_max", "in_stock"});
    assert filters == Pieces(None, ChosenCategory(category, url), searchQuery, priceMin, priceMax, inStock, sortBy);
  }

  /** The filter object holds one category, the URL's if it has one and
      the prop's otherwise, and never both. */
  lemma FiltersCategory(category: string, url: Params)
    ensures Values(NewFilters(category, url), "category") ==
              if TruthyOpt(Get(url, "category")) then [Get(url, "category").value]
              else if category != "" then [category] else []
  {
    PiecesCategory(None, ChosenCategory(category, url), Get(url, "search"), Get(url, "price_min"),
                   Get(url, "price_max"), Get(url, "in_stock"), Get(url, "sort_by"));
  }

  /** Every other URL filter is copied once when non-empty, and nothing
      else is in the object. */
  lemma FiltersOthers(category: string, url: Params, k: string)
    requires k != "category"
    ensures Values(NewFilters(category, url), k) ==
              if k == "search" then Sent(Get(url, "search"))
              else if k == "price_min" then Sent(Get(url, "price_min"))
              else if k == "price_max" then Sent(Get(url, "price_max"))
              else if k == "in_stock" then Sent(Get(url, "in_stock"))
              else if k == "sort_by" then Sent(Get(url, "sort_by"))
              else []
  {
    PiecesOthers(None, ChosenCategory(category, url), Get(url, "search"), Get(url, "price_min"),
                 Get(url, "price_max"), Get(url, "in_stock"), Get(url, "sort_by"), k);
  }

  predicate AllTruthy(p: Params)
  {
    forall i :: 0 <= i < |p| ==> p[i].1 != ""
  }

  lemma {:induction false} TruthyEntriesOfTruthy(p: Params)
    requires AllTruthy(p)
    ensures TruthyEntries(p) == p
    decreases |p|
  {
    if p != [] {
      TruthyEntriesOfTruthy(p[1..]);
    }
  }

  /** No filter value is empty, so the page request carries every one of
      them after the page number. */
  lemma PageQueryCarriesAllFilters(category: string, url: Params)
    ensures TruthyEntries(NewFilters(category, url)) == NewFilters(category, url)
  {
    var f := NewFilters(category, url);
    assert AllTruthy(f);
    TruthyEntriesOfTruthy(f);
  }

  /** The two list views ask the server for the same thing: for every
      filter name, the value Django reads (the last one) from the plain
      list's query equals the one it reads from the infinite list's page
      request, which also carries the page number. */
  lemma ListViewsAgree(category: string, url: Params, pageParam: nat, k: string)
    requires k != "page"
    ensures var pageQuery := [("page", NatToString(pageParam))] + TruthyEntries(NewFilters(category, url));
      && GetLast(pageQuery, k) == GetLast(ListQuery(category, url), k)
      && GetLast(pageQuery, "page") == Some(NatToString(pageParam))
  {
    var f := NewFilters(category, url);
    PageQueryCarriesAllFilters(category, url);
    var pageQuery := [("page", NatToString(pageParam))] + f;
    ValuesConcat([("page", NatToString(pageParam))], f, k);
    ValuesConcat([("page", NatToString(pageParam))], f, "page");
    assert Values([("page", NatToString(pageParam))], k) == [];
    FiltersOthers(category, url, "page");
    if k == "category" {
      FiltersCategory(category, url);
      ListQueryCategory(category, url);
    } else {
      FiltersOthers(category, url, k);
      ListQueryFilters(category, url, k);
    }
  }

  /** The list has a further page when the last page fetched says so. */
  predicate HasNextPage(pages: seq<Page>)
  {
    pages != [] && pages[|pages| - 1].nextPage.Some?
  }

  /** The intersection observer's test. */
  function ShouldFetchNext(isIntersecting: bool, pages: seq<Page>, isFetchingNextPage: bool): (fetch: bool)
    ensures fetch ==> HasNextPage(pages) && !isFetchingNextPage
    ensures !isIntersecting ==> !fetch
  {
    isIntersecting && HasNextPage(pages) && !isFetchingNextPage
  }

  /** Once a response arrives without a `next` link, scrolling further
      loads nothing; while it has one, the next request asks for the
      following page number. */
  lemma ScrollingStopsAtLastPage(pages: seq<Page>, pageParam: nat, response: PageResponse,
                                 isIntersecting: bool, isFetchingNextPage: bool)
    ensures var page := Page(response.results, if TruthyOpt(response.next) then Some(pageParam + 1) else None,
                             response.count);
      && (!TruthyOpt(response.next) ==> !ShouldFetchNext(isIntersecting, pages + [page], isFetchingNextPage))
      && (TruthyOpt(response.next) ==>
            ShouldFetchNext(isIntersecting, pages + [page], isFetchingNextPage) == (isIntersecting && !isFetchingNextPage)
            && (pages + [page])[|pages|].nextPage == Some(pageParam + 1))
  {
  }
}
