/** The plain product list (frontend/src/components/Products/ProductList.tsx:12-66):
    the query `loadProducts` sends, built by appending the category prop
    and then the URL's filters, and the list, loading flag and error it
    keeps. `fetchProducts` sends the request through the API client, so its
    interceptors may refresh or clear the tokens; the endpoint's replies
    are an input. */
module ProductList {
  import opened Common
  import opened QueryParams
  import opened Products
  import Tokens
  import ApiClient

  /** The pair `if (v) params.append(k, v)` adds for a value read with
      `get`: none when the value is missing or empty. */
  function Piece(k: string, v: Option<string>): (r: Params)
    ensures forall i :: 0 <= i < |r| ==> r[i].0 == k && r[i].1 != ""
  {
    if TruthyOpt(v) then [(k, v.value)] else []
  }

  /** A piece holds its value under its own name and nothing under any
      other. */
  lemma PieceValues(k: string, v: Option<string>, k': string)
    ensures Values(Piece(k, v), k') == if k' == k then Sent(v) else []
  {
    if TruthyOpt(v) {
      assert Piece(k, v)[1..] == [];
    }
  }

  /** The query of `loadProducts`: the prop category, then the URL's
      category, search, price bounds, stock flag and sort, each only when
      non-empty. */
  function ListQuery(category: string, url: Params): Params
  {
    Pieces(Some(category), Get(url, "category"), Get(url, "search"), Get(url, "price_min"),
           Get(url, "price_max"), Get(url, "in_stock"), Get(url, "sort_by"))
  }

  /** The values a `Piece` holds. */
  function Sent(v: Option<string>): seq<string>
  {
    if TruthyOpt(v) then [v.value] else []
  }

  /** Seven pieces in the order `loadProducts` appends them. */
  function Pieces(prop: Option<string>, cat: Option<string>, search: Option<string>, priceMin: Option<string>,
                  priceMax: Option<string>, inStock: Option<string>, sortBy: Option<string>): Params
  {
    Piece("category", prop) + Piece("category", cat) + Piece("search", search)
    + Piece("price_min", priceMin) + Piece("price_max", priceMax)
    + Piece("in_stock", inStock) + Piece("sort_by", sortBy)
  }

  lemma PiecesCategory(prop: Option<string>, cat: Option<string>, search: Option<string>, priceMin: Option<string>,
                       priceMax: Option<string>, inStock: Option<string>, sortBy: Option<string>)
    ensures Values(Pieces(prop, cat, search, priceMin, priceMax, inStock, sortBy), "category") == Sent(prop) + Sent(cat)
  {
    SevenPieces("category", prop, "category", cat, "search", search, "price_min", priceMin,
                "price_max", priceMax, "in_stock", inStock, "sort_by", sortBy, "category");
  }

  lemma PiecesOthers(prop: Option<string>, cat: Option<string>, search: Option<string>, priceMin: Option<string>,
                     priceMax: Option<string>, inStock: Option<string>, sortBy: Option<string>, k: string)
    requires k != "category"
    ensures Values(Pieces(prop, cat, search, priceMin, priceMax, inStock, sortBy), k) ==
              if k == "search" then Sent(search)
              else if k == "price_min" then Sent(priceMin)
              else if k == "price_max" then Sent(priceMax)
              else if k == "in_stock" then Sent(inStock)
              else if k == "sort_by" then Sent(sortBy)
              else []
  {
    SevenPieces("category", prop, "category", cat, "search", search, "price_min", priceMin,
                "price_max", priceMax, "in_stock", inStock, "sort_by", sortBy, k);
  }

  /** The values under `k` of seven pieces in a row: those of the pieces
      named `k`, in order. */
  lemma SevenPieces(k1: string, v1: Option<string>, k2: string, v2: Option<string>, k3: string, v3: Option<string>,
                    k4: string, v4: Option<string>, k5: string, v5: Option<string>, k6: string, v6: Option<string>,
                    k7: string, v7: Option<string>, k: string)
    ensures Values(Piece(k1, v1) + Piece(k2, v2) + Piece(k3, v3) + Piece(k4, v4) + Piece(k5, v5)
                   + Piece(k6, v6) + Piece(k7, v7), k) ==
              (if k == k1 then Sent(v1) else []) + (if k == k2 then Sent(v2) else [])
              + (if k == k3 then Sent(v3) else []) + (if k == k4 then Sent(v4) else [])
              + (if k == k5 then Sent(v5) else []) + (if k == k6 then Sent(v6) else [])
              + (if k == k7 then Sent(v7) else [])
  {
    ValuesOfSeven(Piece(k1, v1), Piece(k2, v2), Piece(k3, v3), Piece(k4, v4), Piece(k5, v5), Piece(k6, v6),
                  Piece(k7, v7), k);
    PieceValues(k1, v1, k);
    PieceValues(k2, v2, k);
    PieceValues(k3, v3, k);
    PieceValues(k4, v4, k);
    PieceValues(k5, v5, k);
    PieceValues(k6, v6, k);
    PieceValues(k7, v7, k);
  }

  /** The category can be sent twice: the prop's value first, the URL's
      second. */
  lemma ListQueryCategory(category: string, url: Params)
    ensures Values(ListQuery(category, url), "category") ==
              (if category != "" then [category] else []) + Sent(Get(url, "category"))
  {
    PiecesCategory(Some(category), Get(url, "category"), Get(url, "search"), Get(url, "price_min"),
                   Get(url, "price_max"), Get(url, "in_stock"), Get(url, "sort_by"));
  }

  /** Every other filter is sent once, with the URL's first value,
      exactly when that is non-empty, and nothing else is sent. */
  lemma ListQueryFilters(category: string, url: Params, k: string)
    requires k != "category"
    ensures Values(ListQuery(category, url), k) ==
              if k == "search" then Sent(Get(url, "search"))
              else if k == "price_min" then Sent(Get(url, "price_min"))
              else if k == "price_max" then Sent(Get(url, "price_max"))
              else if k == "in_stock" then Sent(Get(url, "in_stock"))
              else if k == "sort_by" then Sent(Get(url, "sort_by"))
              else []
  {
    PiecesOthers(Some(category), Get(url, "category"), Get(url, "search"), Get(url, "price_min"),
                 Get(url, "price_max"), Get(url, "in_stock"), Get(url, "sort_by"), k);
  }

  lemma ValuesOfSeven(a: Params, b: Params, c: Params, d: Params, e: Params, f: Params, g: Params, k: string)
    ensures Values(a + b + c + d + e + f + g, k) ==
              Values(a, k) + Values(b, k) + Values(c, k) + Values(d, k) + Values(e, k) + Values(f, k) + Values(g, k)
  {
    ValuesConcat(a, b, k);
    ValuesConcat(a + b, c, k);
    ValuesConcat(a + b + c, d, k);
    ValuesConcat(a + b + c + d, e, k);
    ValuesConcat(a + b + c + d + e, f, k);
    ValuesConcat(a + b + c + d + e + f, g, k);
  }

  /** Django reads the last `category` value, so the server filters by the
      URL's category when there is one and by the prop's otherwise. */
  lemma ServerCategory(category: string, url: Params)
    ensures GetLast(ListQuery(category, url), "category") ==
              if TruthyOpt(Get(url, "category")) then Get(url, "category")
              else if category != "" then Some(category) else None
  {
    ListQueryCategory(category, url);
  }

  /** `if (v) params.append(k, v)`: the pair goes at the end exactly when
      the value is non-empty, and the values under `k` grow by it. */
  method AppendIfSet(params: Params, k: string, v: Option<string>) returns (r: Params)
    ensures r == params + Piece(k, v)
  {
    r := params;
    if TruthyOpt(v) {
      r := Append(r, k, v.value);
    }
  }

  /** The list request `fetchProducts` sends through the API client
      (frontend/src/utils/api.ts:54-57): the server's replies, the reply
      the response interceptor's refresh gets should it run, and the
      reading of the products from an ok response's body. */
  datatype ListCall = ListCall(server: ApiClient.Server, refreshReply: Tokens.RefreshReply,
                               productsOf: ApiClient.Response -> seq<Product>)

  /** The list request as the API client runs it. */
  function ListTrace(storage: map<string, string>, call: ListCall): ApiClient.Trace
  {
    ApiClient.FreshCall(storage, call.server, call.refreshReply)
  }

  const LoadFailedMessage := "Failed to load products"

  class ProductListView {
    var products: seq<Product>
    var loading: bool
    var error: Option<string>
    const tokens: Tokens.TokenStore

    constructor (tokens: Tokens.TokenStore)
      ensures products == [] && loading && error == None && this.tokens == tokens
    {
      products := [];
      loading := true;
      error := None;
      this.tokens := tokens;
    }

    /** `loadProducts`: the query built by appends, the request, then the
        list and the error set from the reply; loading ends either way.
        Returns the query sent. The tokens end as the request's interceptors
        leave them. */
    method LoadProducts(category: string, url: Params, call: ListCall) returns (sent: Params)
      modifies this, tokens
      ensures sent == ListQuery(category, url)
      ensures var t := ListTrace(old(tokens.storage), call);
        && tokens.storage == t.storage
        && (t.result.Done? ==> products == call.productsOf(t.result.response) && error == None)
        && (t.result.Failed? ==> products == old(products) && error == Some(LoadFailedMessage))
      ensures !loading
    {
      loading := true;
      var params: Params := [];
      params := AppendIfSet(params, "category", Some(category));
      assert params == Piece("category", Some(category));
      var categoryParam := Get(url, "category");
      var searchQuery := Get(url, "search");
      var priceMin := Get(url, "price_min");
      var priceMax := Get(url, "price_max");
      var inStock := Get(url, "in_stock");
      var sortBy := Get(url, "sort_by");
      params := AppendIfSet(params, "category", categoryParam);
      params := AppendIfSet(params, "search", searchQuery);
      params := AppendIfSet(params, "price_min", priceMin);
      params := AppendIfSet(params, "price_max", priceMax);
      params := AppendIfSet(params, "in_stock", inStock);
      params := AppendIfSet(params, "sort_by", sortBy);
      assert params == Pieces(Some(category), categoryParam, searchQuery, priceMin, priceMax, inStock, sortBy);
      sent := params;
      var result := ApiClient.Send(tokens, call.server, call.refreshReply);
      match result {
        case Done(response) =>
          products := call.productsOf(response);
          error := None;
        case Failed(_) =>
          error := Some(LoadFailedMessage);
      }
      loading := false;
    }
  }
}
