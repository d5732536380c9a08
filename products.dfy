/**
 * The in-memory part of catalog resolution: what happens to the product, category
 * and media rows once the database has returned them. The rows are inputs; the
 * queries that fetch them are not modelled.
 */
module Products {

  import opened Wrappers
  import opened Subsequences

  /** A `products` row as selected: `sale_price` and `price` may be null. */
  datatype ProductRow = ProductRow(
    id: string,
    slug: string,
    title: string,
    price: Option<real>,
    salePrice: Option<real>,
    active: bool,
    categoryId: Option<string>,
    createdAt: int)

  /** A `product_media` row. */
  datatype MediaRow = MediaRow(productId: string, url: string, position: int)

  /** A `categories` row. */
  datatype CategoryRow = CategoryRow(id: string, slug: string)

  datatype SortKey = New | PriceAsc | PriceDesc

  /** The display record the storefront renders. */
  datatype CatalogProduct = CatalogProduct(
    id: string,
    slug: string,
    title: string,
    price: real,
    image: Option<string>,
    badge: Option<string>,
    category: Option<string>)

  /** The pseudo-category that is a price rule, not a stored category. */
  const Under25Slug := "under-25"
  const Under25Limit := 25.0

  // ---------------------------------------------------------------------------
  // Effective price

  /** `sale_price ?? price ?? 0`: the one price used by the filter, both sorts and the output. */
  function EffectivePrice(p: ProductRow): real {
    match p.salePrice
    case Some(s) => s
    case None => p.price.GetOr(0.0)
  }

  /** The rows whose effective price is at most 25, in their fetched order. */
  function Under25(rows: seq<ProductRow>): (r: seq<ProductRow>)
    ensures |r| <= |rows|
    ensures forall k :: 0 <= k < |r| ==> EffectivePrice(r[k]) <= Under25Limit
  {
    if rows == [] then []
    else if EffectivePrice(rows[0]) <= Under25Limit then [rows[0]] + Under25(rows[1..])
    else Under25(rows[1..])
  }

  /** The under-25 filter keeps exactly the rows priced at most 25, and only removes rows. */
  lemma {:induction false} Under25Members(rows: seq<ProductRow>)
    ensures forall p :: p in Under25(rows) <==> p in rows && EffectivePrice(p) <= Under25Limit
    ensures multiset(Under25(rows)) <= multiset(rows)
  {
    if rows != [] {
      Under25Members(rows[1..]);
      assert rows == [rows[0]] + rows[1..];
    }
  }

  /** The under-25 filter keeps the surviving rows in their fetched order. */
  lemma {:induction false} Under25KeepsOrder(rows: seq<ProductRow>)
    ensures IsSubsequence(Under25(rows), rows)
  {
    if rows == [] {
      EmptyIsSubsequence(rows);
    } else {
      Under25KeepsOrder(rows[1..]);
      if EffectivePrice(rows[0]) <= Under25Limit {
        KeepHead(Under25(rows[1..]), rows);
      } else {
        SkipHead(Under25(rows[1..]), rows);
      }
    }
  }

  // ---------------------------------------------------------------------------
  // Sorting by effective price

  /** `a` may come before `b`: nondecreasing price ascending, nonincreasing descending. */
  predicate InOrder(a: ProductRow, b: ProductRow, desc: bool) {
    if desc then EffectivePrice(a) >= EffectivePrice(b) else EffectivePrice(a) <= EffectivePrice(b)
  }

  /** The comparator is negative: `a` must come before `b`. */
  predicate StrictlyBefore(a: ProductRow, b: ProductRow, desc: bool) {
    if desc then EffectivePrice(a) > EffectivePrice(b) else EffectivePrice(a) < EffectivePrice(b)
  }

  predicate PriceOrdered(rows: seq<ProductRow>, desc: bool) {
    forall i, j :: 0 <= i < j < |rows| ==> InOrder(rows[i], rows[j], desc)
  }

  /** Insert `x` after every row it does not strictly precede. */
  function Insert(x: ProductRow, rows: seq<ProductRow>, desc: bool): (r: seq<ProductRow>)
    ensures multiset(r) == multiset(rows) + multiset{x}
  {
    if rows == [] then [x]
    else if StrictlyBefore(x, rows[0], desc) then [x] + rows
    else
      assert rows == [rows[0]] + rows[1..];
      [rows[0]] + Insert(x, rows[1..], desc)
  }

  /** The head of an ordered list may come before every later row. */
  lemma HeadInOrder(rows: seq<ProductRow>, desc: bool)
    requires rows != [] && PriceOrdered(rows, desc)
    ensures forall y :: y in rows[1..] ==> InOrder(rows[0], y, desc)
  {
    forall y | y in rows[1..] ensures InOrder(rows[0], y, desc) {
      var m :| 0 <= m < |rows[1..]| && rows[1..][m] == y;
      assert rows[m + 1] == y;
    }
  }

  /** Inserting into an ordered list keeps it ordered. */
  lemma {:induction false} InsertOrdered(x: ProductRow, rows: seq<ProductRow>, desc: bool)
    requires PriceOrdered(rows, desc)
    ensures PriceOrdered(Insert(x, rows, desc), desc)
  {
    if rows != [] && !StrictlyBefore(x, rows[0], desc) {
      var rest := Insert(x, rows[1..], desc);
      InsertOrdered(x, rows[1..], desc);
      HeadInOrder(rows, desc);
      var r := [rows[0]] + rest;
      forall j | 1 <= j < |r| ensures InOrder(rows[0], r[j], desc) {
        assert r[j] in multiset(rest);
        assert r[j] == x || r[j] in multiset(rows[1..]);
      }
    }
  }

  /** `[...rows].sort(comparator)`: a permutation of the rows ordered by effective price. */
  function SortByPrice(rows: seq<ProductRow>, desc: bool): (r: seq<ProductRow>)
    ensures multiset(r) == multiset(rows)
    ensures PriceOrdered(r, desc)
  {
    if rows == [] then []
    else
      var init := rows[..|rows| - 1];
      assert rows == init + [rows[|rows| - 1]];
      var sorted := SortByPrice(init, desc);
      InsertOrdered(rows[|rows| - 1], sorted, desc);
      Insert(rows[|rows| - 1], sorted, desc)
  }

  // ---------------------------------------------------------------------------
  // Category lookup

  /** `categories.select("id").eq("slug", slug).maybeSingle()`: the id of the row with that slug. */
  function LookupCategory(categories: seq<CategoryRow>, slug: string): (r: Option<string>)
    ensures r.None? <==> forall k :: 0 <= k < |categories| ==> categories[k].slug != slug
    ensures r.Some? ==> exists k :: 0 <= k < |categories| && categories[k].slug == slug && categories[k].id == r.value
                                    && (forall j :: 0 <= j < k ==> categories[j].slug != slug)
  {
    if categories == [] then None
    else if categories[0].slug == slug then Some(categories[0].id)
    else LookupCategory(categories[1..], slug)
  }

  /** A category filter that names a category and is not the under-25 rule. */
  predicate NamesCategory(category: Option<string>) {
    category.Some? && category.value != "" && category.value != Under25Slug
  }

  /** `if (!categoryId) return []`: the lookup found no row, or a row with an empty id. */
  predicate CategoryMissing(categories: seq<CategoryRow>, slug: string) {
    var id := LookupCategory(categories, slug);
    id.None? || id.value == ""
  }

  // ---------------------------------------------------------------------------
  // The surviving rows

  /** The rows `getActiveProducts` projects, in output order. */
  function ResolveRows(category: Option<string>, sort: Option<SortKey>,
                       categories: seq<CategoryRow>, fetched: seq<ProductRow>): seq<ProductRow>
  {
    if NamesCategory(category) && CategoryMissing(categories, category.value) then []
    else
      var filtered := if category == Some(Under25Slug) then Under25(fetched) else fetched;
      match sort.GetOr(New)
      case New => filtered
      case PriceAsc => SortByPrice(filtered, false)
      case PriceDesc => SortByPrice(filtered, true)
  }

  /** Output rows are fetched rows: filtering only removes and sorting only permutes. */
  lemma ResolveRowsSubset(category: Option<string>, sort: Option<SortKey>,
                          categories: seq<CategoryRow>, fetched: seq<ProductRow>)
    ensures multiset(ResolveRows(category, sort, categories, fetched)) <= multiset(fetched)
  {
    Under25Members(fetched);
    var filtered := if category == Some(Under25Slug) then Under25(fetched) else fetched;
    assert multiset(filtered) <= multiset(fetched);
  }

  /** Under `under-25` the output is exactly the fetched rows priced at most 25, whatever the categories. */
  lemma Under25Exact(sort: Option<SortKey>, categories: seq<CategoryRow>, fetched: seq<ProductRow>)
    ensures forall p :: p in ResolveRows(Some(Under25Slug), sort, categories, fetched) <==>
      p in fetched && EffectivePrice(p) <= Under25Limit
    ensures ResolveRows(Some(Under25Slug), sort, categories, fetched) ==
      ResolveRows(Some(Under25Slug), sort, [], fetched)
  {
    Under25Members(fetched);
    var r := ResolveRows(Some(Under25Slug), sort, categories, fetched);
    assert multiset(r) == multiset(Under25(fetched));
    forall p ensures p in r <==> p in Under25(fetched) {
      assert p in r <==> p in multiset(r);
      assert p in Under25(fetched) <==> p in multiset(Under25(fetched));
    }
  }

  /** A category slug that no category row carries gives an empty list, not the whole catalog. */
  lemma UnknownCategoryEmpty(slug: string, sort: Option<SortKey>,
                             categories: seq<CategoryRow>, fetched: seq<ProductRow>)
    requires slug != "" && slug != Under25Slug
    requires forall k :: 0 <= k < |categories| ==> categories[k].slug != slug
    ensures ResolveRows(Some(slug), sort, categories, fetched) == []
  {
  }

  /** Under `price-asc` the effective prices never fall; under `price-desc` they never rise. */
  lemma PriceSortsOrdered(category: Option<string>, categories: seq<CategoryRow>, fetched: seq<ProductRow>)
    ensures var r := ResolveRows(category, Some(PriceAsc), categories, fetched);
      forall i, j :: 0 <= i < j < |r| ==> EffectivePrice(r[i]) <= EffectivePrice(r[j])
    ensures var r := ResolveRows(category, Some(PriceDesc), categories, fetched);
      forall i, j :: 0 <= i < j < |r| ==> EffectivePrice(r[i]) >= EffectivePrice(r[j])
  {
  }

  /** With no sort (the `new` default) and no category filter to miss, the fetched order is kept. */
  lemma NewKeepsFetchedOrder(category: Option<string>, sort: Option<SortKey>,
                             categories: seq<CategoryRow>, fetched: seq<ProductRow>)
    requires sort == None || sort == Some(New)
    requires category != Some(Under25Slug)
    requires NamesCategory(category) ==> !CategoryMissing(categories, category.value)
    ensures ResolveRows(category, sort, categories, fetched) == fetched
  {
  }

  /** Under `under-25` with no sort (or `new`) the output is the filter's result, in fetched order. */
  lemma Under25NewKeepsOrder(sort: Option<SortKey>, categories: seq<CategoryRow>, fetched: seq<ProductRow>)
    requires sort == None || sort == Some(New)
    ensures ResolveRows(Some(Under25Slug), sort, categories, fetched) == Under25(fetched)
    ensures IsSubsequence(ResolveRows(Some(Under25Slug), sort, categories, fetched), fetched)
  {
    Under25KeepsOrder(fetched);
  }

  /** A sale item sorts by its sale price: 30 on sale at 20 comes after 24 under `price-desc`. */
  lemma SaleSortsBySalePrice(a: ProductRow, b: ProductRow)
    requires a.price == Some(30.0) && a.salePrice == Some(20.0)
    requires b.price == Some(24.0) && b.salePrice == None
    ensures ResolveRows(Some(Under25Slug), Some(PriceDesc), [], [a, b]) == [b, a]
  {
    assert [a, b][1..] == [b];
    assert [b][1..] == [];
    assert Under25([b]) == [b];
    assert Under25([a, b]) == [a, b];
    var init := [a, b][..1];
    assert init == [a];
    assert SortByPrice([a], true) == [a];
    assert Insert(b, [a], true) == [b, a];
  }

  // ---------------------------------------------------------------------------
  // First image per product

  /** The index of the first media row for `pid`. */
  function FirstIndex(media: seq<MediaRow>, pid: string): (r: Option<nat>)
    ensures r.Some? ==> r.value < |media| && media[r.value].productId == pid
    ensures r.Some? ==> forall j :: 0 <= j < r.value ==> media[j].productId != pid
    ensures r.None? ==> forall j :: 0 <= j < |media| ==> media[j].productId != pid
  {
    if media == [] then None
    else match FirstIndex(media[..|media| - 1], pid)
      case Some(i) => Some(i)
      case None => if media[|media| - 1].productId == pid then Some(|media| - 1) else None
  }

  /** The url of the first media row for `pid`, if it has one. */
  function FirstUrl(media: seq<MediaRow>, pid: string): (r: Option<string>)
    ensures r.None? <==> forall j :: 0 <= j < |media| ==> media[j].productId != pid
    ensures r.Some? ==> exists j :: 0 <= j < |media| && media[j].productId == pid && media[j].url == r.value
  {
    match FirstIndex(media, pid)
    case Some(i) => Some(media[i].url)
    case None => None
  }

  /** Media rows in the order the query returns them: by position, ascending. */
  predicate ByPosition(media: seq<MediaRow>) {
    forall i, j :: 0 <= i < j < |media| ==> media[i].position <= media[j].position
  }

  /** With rows by position, the first row of a product is one of its lowest-position rows. */
  lemma FirstIsLowestPosition(media: seq<MediaRow>, pid: string)
    requires ByPosition(media)
    ensures match FirstIndex(media, pid)
      case None => forall j :: 0 <= j < |media| ==> media[j].productId != pid
      case Some(i) => forall j :: 0 <= j < |media| && media[j].productId == pid ==>
                        media[i].position <= media[j].position
  {
  }

  /** One more media row changes the first url only of a product that had none. */
  lemma FirstUrlExtend(media: seq<MediaRow>, i: nat, pid: string)
    requires i < |media|
    ensures FirstUrl(media[..i + 1], pid) ==
      if FirstUrl(media[..i], pid).Some? then FirstUrl(media[..i], pid)
      else if media[i].productId == pid then Some(media[i].url)
      else None
  {
    assert media[..i + 1][..i] == media[..i];
  }

  /**
   * `firstImageByProduct`: a map filled in one pass over the media rows, where the
   * first row seen for a product wins.
   */
  method FirstImageByProduct(media: seq<MediaRow>) returns (m: map<string, string>)
    ensures forall pid :: pid in m <==> FirstUrl(media, pid).Some?
    ensures forall pid :: pid in m ==> FirstUrl(media, pid) == Some(m[pid])
  {
    m := map[];
    var i := 0;
    while i < |media|
      invariant 0 <= i <= |media|
      invariant forall pid :: FirstUrl(media[..i], pid) == if pid in m then Some(m[pid]) else None
    {
      var row := media[i];
      forall pid
        ensures FirstUrl(media[..i + 1], pid) ==
          if pid in m || pid != row.productId then FirstUrl(media[..i], pid) else Some(row.url)
      {
        FirstUrlExtend(media, i, pid);
      }
      if row.productId !in m {
        m := m[row.productId := row.url];
      }
      i := i + 1;
    }
    assert media[..i] == media;
  }

  // ---------------------------------------------------------------------------
  // Projection

  /**
   * The display record of a row: its effective price, its image, a `Sale` badge exactly
   * when `sale_price` is truthy (present and not 0), and the query's category echoed.
   */
  function Project(p: ProductRow, image: Option<string>, category: Option<string>): (c: CatalogProduct)
    ensures c.id == p.id && c.slug == p.slug && c.title == p.title
    ensures c.price == EffectivePrice(p)
    ensures c.badge.Some? <==> p.salePrice.Some? && p.salePrice.value != 0.0
    ensures c.badge.Some? ==> c.badge.value == "Sale"
    ensures c.image == image && c.category == category
  {
    CatalogProduct(
      p.id, p.slug, p.title, EffectivePrice(p), image,
      if p.salePrice.Some? && p.salePrice.value != 0.0 then Some("Sale") else None,
      category)
  }

  /** A sale price of 0 makes the item free but gives it no badge. */
  lemma ZeroSalePriceNoBadge(p: ProductRow, image: Option<string>, category: Option<string>)
    requires p.salePrice == Some(0.0)
    ensures Project(p, image, category).price == 0.0
    ensures Project(p, image, category).badge == None
  {
  }

  // ---------------------------------------------------------------------------
  // The pipeline

  /** Each row projected with the url of its first media row. */
  function Projected(rows: seq<ProductRow>, media: seq<MediaRow>, category: Option<string>): (r: seq<CatalogProduct>)
    ensures |r| == |rows|
    ensures forall k :: 0 <= k < |r| ==> r[k].id == rows[k].id && r[k].price == EffectivePrice(rows[k])
  {
    seq(|rows|, k requires 0 <= k < |rows| => Project(rows[k], FirstUrl(media, rows[k].id), category))
  }

  /** The catalog `getActiveProducts` returns: each surviving row projected with its first image. */
  function Catalog(category: Option<string>, sort: Option<SortKey>, categories: seq<CategoryRow>,
                   fetched: seq<ProductRow>, media: seq<MediaRow>): seq<CatalogProduct>
  {
    Projected(ResolveRows(category, sort, categories, fetched), media, category)
  }

  /** What the catalog promises: price order under the price sorts, the under-25 ceiling, and the category miss. */
  lemma CatalogProperties(category: Option<string>, sort: Option<SortKey>, categories: seq<CategoryRow>,
                          fetched: seq<ProductRow>, media: seq<MediaRow>)
    ensures var out := Catalog(category, sort, categories, fetched, media);
      sort == Some(PriceAsc) ==> forall i, j :: 0 <= i < j < |out| ==> out[i].price <= out[j].price
    ensures var out := Catalog(category, sort, categories, fetched, media);
      sort == Some(PriceDesc) ==> forall i, j :: 0 <= i < j < |out| ==> out[i].price >= out[j].price
    ensures var out := Catalog(category, sort, categories, fetched, media);
      category == Some(Under25Slug) ==> forall k :: 0 <= k < |out| ==> out[k].price <= Under25Limit
    ensures NamesCategory(category) && CategoryMissing(categories, category.value) ==>
      Catalog(category, sort, categories, fetched, media) == []
  {
    var rows := ResolveRows(category, sort, categories, fetched);
    PriceSortsOrdered(category, categories, fetched);
    if category == Some(Under25Slug) {
      Under25Exact(sort, categories, fetched);
      assert forall k :: 0 <= k < |rows| ==> rows[k] in rows;
    }
  }

  /**
   * The rows of `getActiveProducts` before projection: an empty list for a category
   * that names no category, otherwise `filtered` as reassigned by the under-25 rule and
   * the two price sorts.
   */
  method SelectRows(category: Option<string>, sort: Option<SortKey>,
                    categories: seq<CategoryRow>, fetched: seq<ProductRow>)
    returns (filtered: seq<ProductRow>)
    ensures filtered == ResolveRows(category, sort, categories, fetched)
  {
    var key := sort.GetOr(New);
    var isUnder25 := category == Some(Under25Slug);
    if category.Some? && category.value != "" && !isUnder25 {
      var categoryId := LookupCategory(categories, category.value);
      if categoryId.None? || categoryId.value == "" {
        return [];
      }
    }
    filtered := fetched;
    if isUnder25 {
      filtered := Under25(filtered);
    }
    if key == PriceAsc {
      filtered := SortByPrice(filtered, false);
    }
    if key == PriceDesc {
      filtered := SortByPrice(filtered, true);
    }
  }

  /** Looking images up in the first-image map is looking up each product's first media row. */
  lemma ProjectAllWithFirstImages(rows: seq<ProductRow>, firstImage: map<string, string>,
                                  media: seq<MediaRow>, category: Option<string>)
    requires forall pid :: pid in firstImage <==> FirstUrl(media, pid).Some?
    requires forall pid :: pid in firstImage ==> FirstUrl(media, pid) == Some(firstImage[pid])
    ensures ProjectAll(rows, firstImage, category) == Projected(rows, media, category)
  {
    forall k | 0 <= k < |rows|
      ensures ProjectAll(rows, firstImage, category)[k] == Projected(rows, media, category)[k]
    {
      var id := rows[k].id;
      assert id in firstImage <==> FirstUrl(media, id).Some?;
    }
  }

  /**
   * `getActiveProducts` after the rows arrive: resolve the category, filter by the
   * under-25 rule, re-sort by effective price, pick each product's first image, project.
   */
  method GetActiveProducts(category: Option<string>, sort: Option<SortKey>,
                           categories: seq<CategoryRow>, fetched: seq<ProductRow>,
                           media: seq<MediaRow>)
    returns (out: seq<CatalogProduct>)
    ensures out == Catalog(category, sort, categories, fetched, media)
    ensures sort == Some(PriceAsc) ==> forall i, j :: 0 <= i < j < |out| ==> out[i].price <= out[j].price
    ensures sort == Some(PriceDesc) ==> forall i, j :: 0 <= i < j < |out| ==> out[i].price >= out[j].price
    ensures category == Some(Under25Slug) ==> forall k :: 0 <= k < |out| ==> out[k].price <= Under25Limit
    ensures NamesCategory(category) && CategoryMissing(categories, category.value) ==> out == []
  {
    CatalogProperties(category, sort, categories, fetched, media);
    var filtered := SelectRows(category, sort, categories, fetched);
    if |filtered| == 0 {
      return [];
    }
    var firstImage := FirstImageByProduct(media);
    out := ProjectAll(filtered, firstImage, category);
    ProjectAllWithFirstImages(filtered, firstImage, media, category);
  }

  /** `filtered.map(p => ({ ..., image: firstImageByProduct.get(p.id) ?? null, ... }))` */
  function ProjectAll(rows: seq<ProductRow>, firstImage: map<string, string>, category: Option<string>)
    : (r: seq<CatalogProduct>)
    ensures |r| == |rows|
    ensures forall k :: 0 <= k < |r| ==> r[k].id == rows[k].id && r[k].price == EffectivePrice(rows[k])
  {
    seq(|rows|, k requires 0 <= k < |rows| =>
      Project(rows[k], if rows[k].id in firstImage then Some(firstImage[rows[k].id]) else None, category))
  }
}
