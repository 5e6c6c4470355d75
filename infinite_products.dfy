/** Paged product fetching for infinite scroll
    (frontend/src/hooks/useInfiniteProducts.ts:14-36, 57-65): the query of
    one page request, the page record made from the response, and the
    flattening of the pages fetched so far. The HTTP response is an input.
    Filter values are strings, which is what every caller passes. */
module InfiniteProducts {
  import opened Common
  import opened QueryParams
  import opened Products

  /** The list endpoint's paginated body. */
  datatype PageResponse = PageResponse(results: seq<Product>, next: Option<string>, count: int)

  /** What the hook keeps per page. */
  datatype Page = Page(results: seq<Product>, nextPage: Option<nat>, totalCount: int)

  /** The filter entries with a non-empty value, in entry order. */
  function TruthyEntries(filters: seq<(string, string)>): seq<(string, string)>
  {
    if filters == [] then []
    else (if filters[0].1 != "" then [filters[0]] else []) + TruthyEntries(filters[1..])
  }

  /** The entries sent are exactly the filter entries with a non-empty
      value: none is dropped, none is added. */
  lemma {:induction false} TruthyEntriesExactly(filters: seq<(string, string)>)
    ensures |TruthyEntries(filters)| <= |filters|
    ensures forall e :: e in TruthyEntries(filters) <==> e in filters && e.1 != ""
    decreases |filters|
  {
    if filters != [] {
      TruthyEntriesExactly(filters[1..]);
      assert filters == [filters[0]] + filters[1..];
    }
  }

  /** `fetchPaginatedProducts`: the query sent (`page` first, then each
      non-empty filter in order) and the page record. */
  method FetchPaginatedProducts(pageParam: nat, filters: seq<(string, string)>, response: PageResponse)
    returns (query: Params, page: Page)
    ensures query == [("page", NatToString(pageParam))] + TruthyEntries(filters)
    ensures page.results == response.results && page.totalCount == response.count
    ensures page.nextPage == if TruthyOpt(response.next) then Some(pageParam + 1) else None
  {
    query := [];
    query := Append(query, "page", NatToString(pageParam));
    var i := 0;
    while i < |filters|
      invariant 0 <= i <= |filters|
      invariant query == [("page", NatToString(pageParam))] + TruthyEntries(filters[..i])
    {
      var (key, value) := filters[i];
      if value != "" {
        query := Append(query, key, value);
      }
      TruthyEntriesSnoc(filters[..i], filters[i]);
      assert filters[..i + 1] == filters[..i] + [filters[i]];
      i := i + 1;
    }
    assert filters[..|filters|] == filters;
    page := Page(response.results, if TruthyOpt(response.next) then Some(pageParam + 1) else None, response.count);
  }

  lemma {:induction false} TruthyEntriesSnoc(filters: seq<(string, string)>, e: (string, string))
    ensures TruthyEntries(filters + [e]) == TruthyEntries(filters) + (if e.1 != "" then [e] else [])
    decreases |filters|
  {
    if filters == [] {
      assert [e][1..] == [];
    } else {
      assert (filters + [e])[1..] == filters[1..] + [e];
      TruthyEntriesSnoc(filters[1..], e);
    }
  }

  /** The page number travels as text and reads back as the same number,
      and it is the first pair of the query. */
  lemma PageParamRoundTrip(pageParam: nat, filters: seq<(string, string)>)
    ensures var query := [("page", NatToString(pageParam))] + TruthyEntries(filters);
      && query[0] == ("page", NatToString(pageParam))
      && ParseDigits(NatToString(pageParam)) == pageParam
  {
    NatToStringRoundTrip(pageParam);
  }

  /** `extractProductsFromInfiniteQuery`'s reduce: each page's results
      appended after the ones before. */
  function Flatten(pages: seq<Page>): seq<Product>
  {
    if pages == [] then [] else Flatten(pages[..|pages| - 1]) + pages[|pages| - 1].results
  }

  /** `extractProductsFromInfiniteQuery`: [] without data. */
  function ExtractProducts(data: Option<seq<Page>>): (r: seq<Product>)
    ensures data.None? ==> r == []
    ensures data.Some? ==> r == Flatten(data.value) && |r| == TotalLength(data.value)
  {
    if data.None? then []
    else
      FlattenLength(data.value);
      Flatten(data.value)
  }

  function TotalLength(pages: seq<Page>): nat
  {
    if pages == [] then 0 else |pages[0].results| + TotalLength(pages[1..])
  }

  lemma {:induction false} TotalLengthConcat(a: seq<Page>, b: seq<Page>)
    ensures TotalLength(a + b) == TotalLength(a) + TotalLength(b)
    decreases |a|
  {
    if a == [] {
      assert a + b == b;
    } else {
      assert (a + b)[1..] == a[1..] + b;
      TotalLengthConcat(a[1..], b);
    }
  }

  /** The flattened list is as long as all the pages together. */
  lemma {:induction false} FlattenLength(pages: seq<Page>)
    ensures |Flatten(pages)| == TotalLength(pages)
    decreases |pages|
  {
    if pages != [] {
      var init := pages[..|pages| - 1];
      FlattenLength(init);
      TotalLengthConcat(init, [pages[|pages| - 1]]);
      assert init + [pages[|pages| - 1]] == pages;
      assert [pages[|pages| - 1]][1..] == [];
    }
  }

  /** Flattening keeps page order: the pages of a concatenation flatten to
      the concatenation of their flattenings. */
  lemma {:induction false} FlattenConcat(a: seq<Page>, b: seq<Page>)
    ensures Flatten(a + b) == Flatten(a) + Flatten(b)
    decreases |b|
  {
    if b == [] {
      assert a + b == a;
    } else {
      var init := b[..|b| - 1];
      var ab := a + b;
      assert ab[..|ab| - 1] == a + init;
      assert ab[|ab| - 1] == b[|b| - 1];
      FlattenConcat(a, init);
      assert Flatten(ab) == Flatten(a + init) + b[|b| - 1].results;
      assert Flatten(b) == Flatten(init) + b[|b| - 1].results;
    }
  }

  /** Product j of page i sits at the offset of all earlier pages plus j. */
  lemma FlattenPosition(pages: seq<Page>, i: nat, j: nat)
    requires i < |pages| && j < |pages[i].results|
    ensures TotalLength(pages[..i]) + j < |Flatten(pages)|
    ensures Flatten(pages)[TotalLength(pages[..i]) + j] == pages[i].results[j]
  {
    assert pages == pages[..i] + [pages[i]] + pages[i + 1..];
    FlattenConcat(pages[..i] + [pages[i]], pages[i + 1..]);
    FlattenConcat(pages[..i], [pages[i]]);
    FlattenLength(pages[..i]);
    assert Flatten([pages[i]]) == pages[i].results by {
      assert [pages[i]][..0] == [];
    }
  }
}
