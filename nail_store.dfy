/** The catalog store (src/modules/nails/stores/useNailStore.ts): the product
    list of the session, the active filters, loading and error state, the
    filtered view and the attribute facets.

    The store calls the catalog service; each method here receives the outcome
    of that call (`Ok` with the returned value, or `Err` with what it threw) as
    a parameter. The Storefront module wires the two together. */
module CatalogStore {
  import opened Shared
  import opened Seqs
  import opened Text
  import opened NailTypes

  /** `NailFilters`: empty attribute lists mean "no restriction"; the price
      range is inclusive. */
  datatype Filters = Filters(
    keyword: string,
    colors: seq<Color>,
    seasons: seq<Season>,
    designs: seq<Design>,
    priceRange: (int, int))

  /** `Partial<NailFilters>`: None for a field the draft leaves out. */
  datatype FiltersDraft = FiltersDraft(
    keyword: Option<string>,
    colors: Option<seq<Color>>,
    seasons: Option<seq<Season>>,
    designs: Option<seq<Design>>,
    priceRange: Option<(int, int)>)

  /** `defaultFilters()`. */
  function DefaultFilters(): (f: Filters)
    ensures f.keyword == "" && f.colors == [] && f.seasons == [] && f.designs == []
    ensures f.priceRange == (0, 5000)
  {
    Filters("", [], [], [], (0, 5000))
  }

  /** `{ ...filters, ...draft }`. */
  function ApplyDraft(f: Filters, d: FiltersDraft): Filters
  {
    Filters(d.keyword.GetOr(f.keyword), d.colors.GetOr(f.colors), d.seasons.GetOr(f.seasons),
            d.designs.GetOr(f.designs), d.priceRange.GetOr(f.priceRange))
  }

  /** A draft overrides exactly the fields it names; the empty draft changes nothing. */
  lemma ApplyDraftOverrides(f: Filters, d: FiltersDraft)
    ensures d.keyword.Some? ==> ApplyDraft(f, d).keyword == d.keyword.value
    ensures d.keyword.None? ==> ApplyDraft(f, d).keyword == f.keyword
    ensures d.colors.Some? ==> ApplyDraft(f, d).colors == d.colors.value
    ensures d.colors.None? ==> ApplyDraft(f, d).colors == f.colors
    ensures d.seasons.Some? ==> ApplyDraft(f, d).seasons == d.seasons.value
    ensures d.seasons.None? ==> ApplyDraft(f, d).seasons == f.seasons
    ensures d.designs.Some? ==> ApplyDraft(f, d).designs == d.designs.value
    ensures d.designs.None? ==> ApplyDraft(f, d).designs == f.designs
    ensures d.priceRange.Some? ==> ApplyDraft(f, d).priceRange == d.priceRange.value
    ensures d.priceRange.None? ==> ApplyDraft(f, d).priceRange == f.priceRange
    ensures ApplyDraft(ApplyDraft(f, d), d) == ApplyDraft(f, d)
    ensures ApplyDraft(f, FiltersDraft(None, None, None, None, None)) == f
  {
  }

  /** `filters.keyword.trim().toLowerCase()`. */
  function NormalizeKeyword(k: string): string
  {
    ToLower(Trim(k))
  }

  /** Two keywords that agree once lower-cased normalise alike. */
  lemma NormalizeKeywordCaseBlind(k1: string, k2: string)
    requires ToLower(k1) == ToLower(k2)
    ensures NormalizeKeyword(k1) == NormalizeKeyword(k2)
  {
    TrimLower(k1);
    TrimLower(k2);
  }

  /** The five tests of `filteredItems`, all of which an item must pass. */
  predicate Matches(f: Filters, item: Product)
  {
    var keyword := NormalizeKeyword(f.keyword);
    && (keyword == "" || Contains(ToLower(item.title), keyword)
                      || Contains(ToLower(item.description), keyword))
    && (|f.colors| == 0 || item.color in f.colors)
    && (|f.seasons| == 0 || item.season in f.seasons)
    && (|f.designs| == 0 || item.design in f.designs)
    && f.priceRange.0 <= item.price && item.price <= f.priceRange.1
  }

  function MatchesFilters(f: Filters): Product -> bool
  {
    (item: Product) => Matches(f, item)
  }

  /** The keyword test ignores the keyword's case. */
  lemma KeywordCaseBlind(f: Filters, k1: string, k2: string, x: Product)
    requires ToLower(k1) == ToLower(k2)
    ensures Matches(f.(keyword := k1), x) <==> Matches(f.(keyword := k2), x)
  {
    NormalizeKeywordCaseBlind(k1, k2);
  }

  /** The keyword test ignores the case of the item's title and description. */
  lemma ItemCaseBlind(f: Filters, x: Product, title: string, description: string)
    requires ToLower(title) == ToLower(x.title) && ToLower(description) == ToLower(x.description)
    ensures Matches(f, x.(title := title, description := description)) <==> Matches(f, x)
  {
  }

  /** `filteredItems`: the items that pass every test, in list order. */
  function FilterItems(f: Filters, items: seq<Product>): (r: seq<Product>)
    ensures IsSubsequence(r, items)
    ensures forall x :: x in r <==> x in items && Matches(f, x)
  {
    FilterIsSubsequence(items, MatchesFilters(f));
    Filter(items, MatchesFilters(f))
  }

  /** The view keeps every copy of a matching record and none of any other. */
  lemma FilterItemsCounts(f: Filters, items: seq<Product>, x: Product)
    ensures multiset(FilterItems(f, items))[x] == if Matches(f, x) then multiset(items)[x] else 0
  {
    FilterCounts(items, MatchesFilters(f), x);
  }

  /** An item is in view exactly when it passes the keyword, color, season,
      design and price tests. */
  lemma FilterItemsMembership(f: Filters, items: seq<Product>, x: Product)
    ensures x in FilterItems(f, items) <==>
      && x in items
      && (NormalizeKeyword(f.keyword) == ""
          || Contains(ToLower(x.title), NormalizeKeyword(f.keyword))
          || Contains(ToLower(x.description), NormalizeKeyword(f.keyword)))
      && (f.colors == [] || x.color in f.colors)
      && (f.seasons == [] || x.season in f.seasons)
      && (f.designs == [] || x.design in f.designs)
      && f.priceRange.0 <= x.price <= f.priceRange.1
  {
  }

  /** No keyword and no attribute restriction. */
  predicate Unrestricted(f: Filters)
  {
    NormalizeKeyword(f.keyword) == "" && f.colors == [] && f.seasons == [] && f.designs == []
  }

  predicate PriceRangeCovers(f: Filters, items: seq<Product>)
  {
    forall i :: 0 <= i < |items| ==> f.priceRange.0 <= items[i].price <= f.priceRange.1
  }

  /** With nothing to filter on and a price range that covers every item, the
      filtered view is the whole list. */
  lemma UnrestrictedFilterIsIdentity(f: Filters, items: seq<Product>)
    requires Unrestricted(f) && PriceRangeCovers(f, items)
    ensures FilterItems(f, items) == items
  {
    FilterAll(items, MatchesFilters(f));
  }

  /** The price range `loadProducts` sets covers every loaded item, so with
      nothing else to filter on the view is the whole list. */
  lemma DataBoundsCover(f: Filters, items: seq<Product>)
    requires items != [] && f.priceRange == (MinPrice(items), MaxPrice(items))
    ensures PriceRangeCovers(f, items)
    ensures Unrestricted(f) ==> FilterItems(f, items) == items
  {
    if Unrestricted(f) {
      UnrestrictedFilterIsIdentity(f, items);
    }
  }

  /** What `loadProducts` makes of fetched data: the list sorted newest first,
      and a price range (the data's own, when there is data) that keeps every
      loaded item in view. */
  lemma LoadedCatalog(f0: Filters, data: seq<Product>, sorted: seq<Product>, f1: Filters)
    requires sorted == SortNewestFirst(data)
    requires f1 == if sorted == [] then f0
                   else f0.(priceRange := (MinPrice(sorted), MaxPrice(sorted)))
    ensures multiset(sorted) == multiset(data) && NewestFirst(sorted)
    ensures (sorted == []) == (data == [])
    ensures data != [] ==> PriceRangeCovers(f1, sorted)
    ensures data != [] && Unrestricted(f0) ==> FilterItems(f1, sorted) == sorted
  {
    if sorted != [] {
      DataBoundsCover(f1, sorted);
    }
  }

  /** A keyword that is all white space is no keyword. */
  lemma BlankKeywordMatchesAll(f: Filters, items: seq<Product>)
    requires forall i :: 0 <= i < |f.keyword| ==> IsSpace(f.keyword[i])
    requires f.colors == [] && f.seasons == [] && f.designs == [] && PriceRangeCovers(f, items)
    ensures FilterItems(f, items) == items
  {
    assert Trim(f.keyword) == [];
    UnrestrictedFilterIsIdentity(f, items);
  }

  /** The keyword test of the unit test: with the keyword '春色', every item in
      view has '春' in its title or its description. */
  lemma SpringKeywordExample(f: Filters, items: seq<Product>)
    requires f.keyword == "春色"
    ensures forall x :: x in FilterItems(f, items) ==>
      Contains(x.title, "春") || Contains(x.description, "春")
  {
    SpringKeywordIsNormal();
    forall x | x in FilterItems(f, items)
      ensures Contains(x.title, "春") || Contains(x.description, "春")
    {
      assert Contains(ToLower(x.title), "春色") || Contains(ToLower(x.description), "春色");
      if Contains(ToLower(x.title), "春色") {
        LoweredOccurrence(x.title);
      } else {
        LoweredOccurrence(x.description);
      }
    }
  }

  /** Trimming and lower-casing leave '春色' as it is. */
  lemma SpringKeywordIsNormal()
    ensures NormalizeKeyword("春色") == "春色"
  {
    var k := "春色";
    assert |k| == 2 && k[0] == '春' && k[1] == '色';
    assert !IsSpace(k[0]) && !IsSpace(k[1]);
    assert TrimStart(k) == k;
    assert TrimEnd(k) == k;
    assert forall i :: 0 <= i < |k| ==> LowerChar(k[i]) == k[i];
    assert ToLower(k) == k;
  }

  /** '春色' in the lower-cased text puts '春' in the text itself. */
  lemma LoweredOccurrence(s: string)
    requires Contains(ToLower(s), "春色")
    ensures Contains(s, "春")
  {
    ContainsPiece(ToLower(s), "春色", 0, 1);
    assert "春色"[0..1] == "春";
    var i :| OccursAt(ToLower(s), "春", i);
    assert ToLower(s)[i] == '春';
    ToLowerKeepsOthers(s, i);
    assert s[i..i + 1] == "春";
    assert OccursAt(s, "春", i);
  }

  /** Newest first: creation times never increase along the list. */
  predicate NewestFirst(s: seq<Product>)
  {
    forall i, j :: 0 <= i < j < |s| ==> s[i].createdAt >= s[j].createdAt
  }

  /** Places `x` in a newest-first list, ahead of the entries it ties with. */
  function InsertNewest(x: Product, s: seq<Product>): (r: seq<Product>)
    requires NewestFirst(s)
    ensures NewestFirst(r)
    ensures multiset(r) == multiset(s) + multiset{x}
  {
    if s == [] then [x]
    else if s[0].createdAt <= x.createdAt then
      TailNewestFirst(s);
      ConsNewestFirst(x, s);
      [x] + s
    else
      TailNewestFirst(s);
      var rest := InsertNewest(x, s[1..]);
      assert s == [s[0]] + s[1..];
      NoNewerThanHead(s, x, rest);
      ConsNewestFirst(s[0], rest);
      [s[0]] + rest
  }

  lemma TailNewestFirst(s: seq<Product>)
    requires s != [] && NewestFirst(s)
    ensures NewestFirst(s[1..])
    ensures forall j :: 0 <= j < |s| ==> s[j].createdAt <= s[0].createdAt
  {
    forall i, j | 0 <= i < j < |s[1..]| ensures s[1..][i].createdAt >= s[1..][j].createdAt {
      assert s[1..][i] == s[i + 1] && s[1..][j] == s[j + 1];
    }
  }

  /** A product no older than the head of a newest-first list may go in front. */
  lemma ConsNewestFirst(h: Product, s: seq<Product>)
    requires NewestFirst(s)
    requires forall j :: 0 <= j < |s| ==> s[j].createdAt <= h.createdAt
    ensures NewestFirst([h] + s)
  {
    var r := [h] + s;
    forall i, j | 0 <= i < j < |r| ensures r[i].createdAt >= r[j].createdAt {
      assert r[j] == s[j - 1];
      if i > 0 {
        assert r[i] == s[i - 1];
      }
    }
  }

  /** What is left of a newest-first list after its head, plus an older
      product, holds nothing newer than the head. */
  lemma NoNewerThanHead(s: seq<Product>, x: Product, rest: seq<Product>)
    requires s != [] && NewestFirst(s) && x.createdAt < s[0].createdAt
    requires multiset(rest) == multiset(s[1..]) + multiset{x}
    ensures forall j :: 0 <= j < |rest| ==> s[0].createdAt >= rest[j].createdAt
  {
    forall j | 0 <= j < |rest| ensures s[0].createdAt >= rest[j].createdAt {
      assert rest[j] in multiset(rest);
      if rest[j] != x {
        assert rest[j] in s[1..];
      }
    }
  }

  /** `data.sort((a, b) => b.createdAt - a.createdAt)`: the same products, newest first. */
  function SortNewestFirst(s: seq<Product>): (r: seq<Product>)
    ensures NewestFirst(r)
    ensures multiset(r) == multiset(s) && |r| == |s|
  {
    if s == [] then []
    else
      assert s == [s[0]] + s[1..];
      InsertNewest(s[0], SortNewestFirst(s[1..]))
  }

  function CreatedAt(t: int): Product -> bool
  {
    (p: Product) => p.createdAt == t
  }

  /** Inserting `x` adds it to the products of its own time stamp, ahead of them,
      and leaves the products of every other time stamp as they were. */
  lemma {:induction false} InsertNewestStable(x: Product, s: seq<Product>, t: int)
    requires NewestFirst(s)
    ensures Filter(InsertNewest(x, s), CreatedAt(t)) ==
      (if x.createdAt == t then [x] else []) + Filter(s, CreatedAt(t))
  {
    if s != [] && s[0].createdAt > x.createdAt {
      var rest := InsertNewest(x, s[1..]);
      InsertNewestStable(x, s[1..], t);
      assert ([s[0]] + rest)[1..] == rest;
      assert Filter([s[0]] + rest, CreatedAt(t)) ==
        (if s[0].createdAt == t then [s[0]] else []) + Filter(rest, CreatedAt(t));
    } else if s != [] {
      assert ([x] + s)[1..] == s;
    }
  }

  /** The sort is stable: the products that share a time stamp keep their order. */
  lemma {:induction false} SortNewestFirstStable(s: seq<Product>, t: int)
    ensures Filter(SortNewestFirst(s), CreatedAt(t)) == Filter(s, CreatedAt(t))
  {
    if s != [] {
      SortNewestFirstStable(s[1..], t);
      InsertNewestStable(s[0], SortNewestFirst(s[1..]), t);
    }
  }

  /** `Math.min(...prices)`. */
  function MinPrice(s: seq<Product>): (m: int)
    requires s != []
    ensures forall i :: 0 <= i < |s| ==> m <= s[i].price
    ensures exists i :: 0 <= i < |s| && m == s[i].price
  {
    if |s| == 1 then s[0].price
    else
      var m := MinPrice(s[1..]);
      assert forall i :: 1 <= i < |s| ==> s[i] == s[1..][i - 1];
      if s[0].price <= m then s[0].price else m
  }

  /** `Math.max(...prices)`. */
  function MaxPrice(s: seq<Product>): (m: int)
    requires s != []
    ensures forall i :: 0 <= i < |s| ==> s[i].price <= m
    ensures exists i :: 0 <= i < |s| && m == s[i].price
  {
    if |s| == 1 then s[0].price
    else
      var m := MaxPrice(s[1..]);
      assert forall i :: 1 <= i < |s| ==> s[i] == s[1..][i - 1];
      if s[0].price >= m then s[0].price else m
  }

  /** `items.map((item) => (item.id === id ? product : item))`. */
  function ReplaceById(items: seq<Product>, id: string, product: Product): (r: seq<Product>)
    ensures |r| == |items|
    ensures forall i :: 0 <= i < |r| ==> r[i] == if items[i].id == id then product else items[i]
  {
    seq(|items|, i requires 0 <= i < |items| => if items[i].id == id then product else items[i])
  }

  /** An answer that keeps the id keeps the list's ids, and so their distinctness. */
  lemma ReplaceByIdKeepsIds(items: seq<Product>, id: string, product: Product)
    requires product.id == id
    ensures forall i :: 0 <= i < |items| ==> ReplaceById(items, id, product)[i].id == items[i].id
    ensures KeysDistinct(items, Id) ==> KeysDistinct(ReplaceById(items, id, product), Id)
  {
    var r := ReplaceById(items, id, product);
    assert forall i :: 0 <= i < |items| ==> Id(r[i]) == Id(items[i]);
  }

  /** The distinct colors, seasons and designs of a list, in order of first use. */
  function ColorsOf(items: seq<Product>): (r: seq<Color>)
    ensures NoDuplicates(r)
    ensures forall c :: c in r <==> exists p :: p in items && p.color == c
  {
    DistinctKeys(items, (p: Product) => p.color)
  }

  function SeasonsOf(items: seq<Product>): (r: seq<Season>)
    ensures NoDuplicates(r)
    ensures forall s :: s in r <==> exists p :: p in items && p.season == s
  {
    DistinctKeys(items, (p: Product) => p.season)
  }

  function DesignsOf(items: seq<Product>): (r: seq<Design>)
    ensures NoDuplicates(r)
    ensures forall d :: d in r <==> exists p :: p in items && p.design == d
  {
    DistinctKeys(items, (p: Product) => p.design)
  }

  /** The message `loadProducts` shows: the Error's message, or a generic one. */
  function LoadErrorText(e: Failure): (t: string)
    ensures Message(e).Some? ==> t == Message(e).value
    ensures e == NotAnError ==> t == "商品データの取得に失敗しました。"
  {
    Message(e).GetOr("商品データの取得に失敗しました。")
  }

  class NailStore {
    var items: seq<Product>
    var isLoading: bool
    var errorMessage: Option<string>
    var filters: Filters
    var selectedProduct: Option<Product>

    constructor ()
      ensures items == [] && !isLoading && errorMessage == None
      ensures filters == DefaultFilters() && selectedProduct == None
    {
      items := [];
      isLoading := false;
      errorMessage := None;
      filters := DefaultFilters();
      selectedProduct := None;
    }

    /** `loadProducts`, given what `fetchAll` returned or threw. */
    method LoadProducts(fetched: Result<seq<Product>>)
      modifies this`items, this`isLoading, this`errorMessage, this`filters
      ensures !isLoading && selectedProduct == old(selectedProduct)
      ensures fetched.Ok? ==>
        && items == SortNewestFirst(fetched.value)
        && errorMessage == None
        && filters == if fetched.value == [] then old(filters)
                      else old(filters).(priceRange := (MinPrice(items), MaxPrice(items)))
      ensures fetched.Ok? ==> multiset(items) == multiset(fetched.value) && NewestFirst(items)
      ensures fetched.Ok? && fetched.value != [] ==> PriceRangeCovers(filters, items)
      ensures fetched.Ok? && fetched.value != [] && Unrestricted(old(filters)) ==>
        FilteredItems() == items
      ensures fetched.Err? ==>
        && items == old(items) && filters == old(filters)
        && errorMessage == Some(LoadErrorText(fetched.error))
    {
      isLoading := true;
      errorMessage := None;
      if fetched.Ok? {
        var sorted := SortNewestFirst(fetched.value);
        var bounded := if sorted == [] then filters
                       else filters.(priceRange := (MinPrice(sorted), MaxPrice(sorted)));
        LoadedCatalog(filters, fetched.value, sorted, bounded);
        items := sorted;
        filters := bounded;
      } else {
        errorMessage := Some(LoadErrorText(fetched.error));
      }
      isLoading := false;
    }

    method ResetFilters()
      modifies this`filters
      ensures filters == DefaultFilters()
    {
      filters := DefaultFilters();
    }

    method UpdateFilters(draft: FiltersDraft)
      modifies this`filters
      ensures filters == ApplyDraft(old(filters), draft)
    {
      filters := ApplyDraft(filters, draft);
    }

    /** `filteredItems`. */
    function FilteredItems(): (r: seq<Product>)
      reads this
      ensures IsSubsequence(r, items)
      ensures forall x :: x in r <==> x in items && Matches(filters, x)
    {
      FilterItems(filters, items)
    }

    function ColorFacets(): (r: seq<Color>)
      reads this
      ensures NoDuplicates(r)
      ensures forall c :: c in r <==> exists p :: p in items && p.color == c
    {
      ColorsOf(items)
    }

    function SeasonFacets(): (r: seq<Season>)
      reads this
      ensures NoDuplicates(r)
      ensures forall s :: s in r <==> exists p :: p in items && p.season == s
    {
      SeasonsOf(items)
    }

    function DesignFacets(): (r: seq<Design>)
      reads this
      ensures NoDuplicates(r)
      ensures forall d :: d in r <==> exists p :: p in items && p.design == d
    {
      DesignsOf(items)
    }

    /** `createProduct`, given what the service's `create` returned or threw. */
    method CreateProduct(created: Result<Product>) returns (r: Result<Product>)
      modifies this
      ensures r == created && !isLoading
      ensures created.Ok? ==> items == [created.value] + old(items)
      ensures created.Err? ==> items == old(items)
      ensures filters == old(filters) && errorMessage == old(errorMessage)
      ensures selectedProduct == old(selectedProduct)
    {
      isLoading := true;
      if created.Ok? {
        var product := created.value;
        items := [product] + items;
      }
      isLoading := false;
      r := created;
    }

    /** `updateProduct(id, ...)`, given what the service's `update` returned or threw. */
    method UpdateProduct(id: string, updated: Result<Product>) returns (r: Result<Product>)
      modifies this
      ensures r == updated && !isLoading
      ensures updated.Ok? ==>
        items == ReplaceById(old(items), id, updated.value) && selectedProduct == None
      ensures updated.Err? ==> items == old(items) && selectedProduct == old(selectedProduct)
      ensures filters == old(filters) && errorMessage == old(errorMessage)
    {
      isLoading := true;
      if updated.Ok? {
        var product := updated.value;
        items := ReplaceById(items, id, product);
        selectedProduct := None;
      }
      isLoading := false;
      r := updated;
    }

    /** `removeProduct(id)`, given what the service's `remove` returned or threw. */
    method RemoveProduct(id: string, removed: Result<()>) returns (r: Result<()>)
      modifies this
      ensures r == removed && !isLoading
      ensures removed.Ok? ==> items == WithoutId(old(items), id)
      ensures removed.Err? ==> items == old(items)
      ensures filters == old(filters) && errorMessage == old(errorMessage)
      ensures selectedProduct == old(selectedProduct)
    {
      isLoading := true;
      if removed.Ok? {
        items := Filter(items, OtherId(id));
      }
      isLoading := false;
      r := removed;
    }

    /** `highlightProduct(id)`: nothing for the empty id; otherwise the record
        `fetchById` returned becomes the selection, and what it threw propagates. */
    method HighlightProduct(id: string, fetched: Result<Product>) returns (r: Result<()>)
      modifies this`selectedProduct
      ensures id == "" ==> r == Ok(()) && selectedProduct == old(selectedProduct)
      ensures id != "" && fetched.Ok? ==> r == Ok(()) && selectedProduct == Some(fetched.value)
      ensures id != "" && fetched.Err? ==>
        r == Err(fetched.error) && selectedProduct == old(selectedProduct)
    {
      if id == "" {
        return Ok(());
      }
      match fetched {
        case Ok(product) =>
          selectedProduct := Some(product);
          r := Ok(());
        case Err(e) =>
          r := Err(e);
      }
    }
  }
}
