/**
 * `GET /api/products`: the storefront's product list. Only products in stock, optionally
 * narrowed by a search term and a category name, newest first, one page at a time.
 */
module ProductsApi {
  import opened Wrappers
  import opened Text
  import opened Http
  import opened Schema
  import opened Sorting
  import opened Seqs

  /** The query string, parsed: "" for an absent `search` or `category`. */
  datatype Query = Query(search: string, category: string, page: int, limit: int)

  /** A product as the storefront receives it. */
  datatype ProductCard = ProductCard(
    id: string,
    name: string,
    price: int,
    image: Option<string>,
    description: Option<string>,
    category: string,
    inStock: bool)

  /** `totalPages` is None where `Math.ceil(totalCount / limit)` is not finite, which JSON sends as null. */
  datatype Pagination = Pagination(currentPage: int, totalPages: Option<int>, totalCount: int, hasMore: bool)

  datatype ProductPage = ProductPage(products: seq<ProductCard>, pagination: Pagination)

  const NoCategory: string := "Без категории"

  /** `product.category?.name || 'Без категории'`. */
  function CategoryName(categories: seq<Category>, p: Product): (name: string)
    ensures name != ""
    ensures FindCategory(categories, p.categoryId).None? ==> name == NoCategory
    ensures FindCategory(categories, p.categoryId).Some? ==>
              var c := FindCategory(categories, p.categoryId).value;
              (c.name != "" ==> name == c.name) && (c.name == "" ==> name == NoCategory)
  {
    match FindCategory(categories, p.categoryId)
    case None => NoCategory
    case Some(c) => if c.name != "" then c.name else NoCategory
  }

  /** `x || undefined` on a nullable text column: empty text counts as absent. */
  function NonEmpty(s: Option<string>): (r: Option<string>)
    ensures r.Some? ==> r.value != "" && s == r
    ensures s.Some? && s.value != "" ==> r == s
  {
    if s.Some? && s.value != "" then s else None
  }

  /** The `where` clause: in stock, matching the search in name or description, in the category. */
  predicate Matches(categories: seq<Category>, search: string, category: string, p: Product) {
    && p.stock > 0
    && (search == "" || Contains(p.name, search) ||
        (p.description.Some? && Contains(p.description.value, search)))
    && (category == "" ||
        (FindCategory(categories, p.categoryId).Some? && FindCategory(categories, p.categoryId).value.name == category))
  }

  /** `orderBy: { created_at: 'desc' }`. */
  predicate NewerFirst(a: Product, b: Product) { a.createdAt >= b.createdAt }

  lemma NewerFirstIsPreorder()
    ensures TotalPreorder(NewerFirst)
  {
  }

  /** The products the `where` clause selects, in table order. */
  function Matching(products: seq<Product>, categories: seq<Category>, search: string, category: string): (r: seq<Product>)
    ensures forall i :: 0 <= i < |r| ==> Matches(categories, search, category, r[i])
  {
    Filter(products, (p: Product) => Matches(categories, search, category, p))
  }

  /** Every matching product, newest first: what the query pages through. */
  function Ranked(products: seq<Product>, categories: seq<Category>, search: string, category: string): (r: seq<Product>)
    ensures SortedBy(NewerFirst, r)
    ensures multiset(r) == multiset(Matching(products, categories, search, category))
    ensures forall i :: 0 <= i < |r| ==> Matches(categories, search, category, r[i])
  {
    NewerFirstIsPreorder();
    var m := Matching(products, categories, search, category);
    var r := SortBy(NewerFirst, m);
    assert forall i :: 0 <= i < |r| ==> Matches(categories, search, category, r[i]) by {
      forall i | 0 <= i < |r|
        ensures Matches(categories, search, category, r[i])
      {
        assert r[i] in multiset(m);
      }
    }
    r
  }

  function ToCard(categories: seq<Category>, p: Product): (c: ProductCard)
    ensures c.id == p.id && c.name == p.name && c.price == p.price
    ensures c.inStock <==> p.stock > 0
    ensures c.image.Some? <==> p.imageUrl.Some? && p.imageUrl.value != ""
    ensures c.image.Some? ==> c.image == p.imageUrl
    ensures c.description.Some? <==> p.description.Some? && p.description.value != ""
    ensures c.description.Some? ==> c.description == p.description
    ensures c.category == CategoryName(categories, p)
  {
    ProductCard(p.id, p.name, p.price, NonEmpty(p.imageUrl), NonEmpty(p.description), CategoryName(categories, p),
                p.stock > 0)
  }

  /** `Math.ceil(count / limit)` for a positive limit. */
  function CeilDiv(count: nat, limit: nat): (pages: nat)
    requires limit > 0
    ensures pages * limit >= count
    ensures pages > 0 ==> (pages - 1) * limit < count
  {
    (count + limit - 1) / limit
  }

  /** `(page - 1) * limit`: how many ranked rows the query skips. */
  function Skip(page: int, limit: int): (skip: nat)
    requires page >= 1 && limit >= 1
  {
    (page - 1) * limit
  }

  /** `skip` rows dropped, at most `limit` kept. */
  function Window<T>(ranked: seq<T>, skip: nat, limit: nat): (r: seq<T>)
    ensures |r| <= limit
    ensures skip <= |ranked| ==> r == ranked[skip..if skip + limit <= |ranked| then skip + limit else |ranked|]
    ensures skip > |ranked| ==> r == []
  {
    if skip > |ranked| then []
    else if skip + limit <= |ranked| then ranked[skip..skip + limit]
    else ranked[skip..]
  }

  lemma WindowAt<T>(ranked: seq<T>, skip: nat, limit: nat, i: nat)
    requires i < |Window(ranked, skip, limit)|
    ensures skip + i < |ranked| && Window(ranked, skip, limit)[i] == ranked[skip + i]
  {
  }

  /** A page of products, as cards. */
  function Cards(categories: seq<Category>, rows: seq<Product>): (cards: seq<ProductCard>)
    ensures |cards| == |rows|
    ensures forall i :: 0 <= i < |rows| ==> cards[i] == ToCard(categories, rows[i])
  {
    seq(|rows|, i requires 0 <= i < |rows| => ToCard(categories, rows[i]))
  }

  lemma CardsAppend(categories: seq<Category>, a: seq<Product>, b: seq<Product>)
    ensures Cards(categories, a + b) == Cards(categories, a) + Cards(categories, b)
  {
    var l, r := Cards(categories, a + b), Cards(categories, a) + Cards(categories, b);
    forall i | 0 <= i < |a + b|
      ensures l[i] == r[i]
    {
      if i < |a| {
        assert (a + b)[i] == a[i];
      } else {
        assert (a + b)[i] == b[i - |a|];
      }
    }
  }

  /**
   * The handler. A limit of 0 takes no rows and skips none, whatever the page. A negative
   * skip, from a page below 1 and a positive limit, is refused by the database: 500.
   */
  function List(products: seq<Product>, categories: seq<Category>, q: Query): (r: Response<ProductPage>)
    ensures r.Ok? <==> q.limit == 0 || (q.page >= 1 && q.limit >= 1)
    ensures r.Err? ==> r == Err(500, "Ошибка получения продуктов")
    ensures r.Ok? ==> r.status == 200 && r.value.pagination.currentPage == q.page
    ensures r.Ok? ==> r.value.pagination.totalCount == |Ranked(products, categories, q.search, q.category)|
    ensures r.Ok? ==> |r.value.products| <= q.limit
    ensures r.Ok? && q.limit == 0 ==>
              r.value.products == [] && r.value.pagination.totalPages.None? &&
              (r.value.pagination.hasMore <==> r.value.pagination.totalCount > 0)
    ensures r.Ok? && q.limit >= 1 ==>
              r.value.products ==
                Cards(categories, Window(Ranked(products, categories, q.search, q.category), Skip(q.page, q.limit), q.limit)) &&
              r.value.pagination.totalPages == Some(CeilDiv(r.value.pagination.totalCount, q.limit)) &&
              (r.value.pagination.hasMore <==> Skip(q.page, q.limit) + |r.value.products| < r.value.pagination.totalCount)
  {
    var ranked := Ranked(products, categories, q.search, q.category);
    if q.limit == 0 then Ok(200, ProductPage([], Pagination(q.page, None, |ranked|, 0 < |ranked|)))
    else if q.page < 1 || q.limit < 0 then Err(500, "Ошибка получения продуктов")
    else
      var skip := Skip(q.page, q.limit);
      var rows := Window(ranked, skip, q.limit);
      Ok(200, ProductPage(Cards(categories, rows), Pagination(q.page, Some(CeilDiv(|ranked|, q.limit)), |ranked|, skip + |rows| < |ranked|)))
  }

  /** Every listed product is in stock and matches the search and the category. */
  lemma ListedProductsMatch(products: seq<Product>, categories: seq<Category>, q: Query)
    requires q.page >= 1 && q.limit >= 1
    ensures var rows := Window(Ranked(products, categories, q.search, q.category), Skip(q.page, q.limit), q.limit);
            forall i :: 0 <= i < |rows| ==> Matches(categories, q.search, q.category, rows[i])
  {
    var ranked := Ranked(products, categories, q.search, q.category);
    var skip := Skip(q.page, q.limit);
    var rows := Window(ranked, skip, q.limit);
    forall i | 0 <= i < |rows|
      ensures Matches(categories, q.search, q.category, rows[i])
    {
      WindowAt(ranked, skip, q.limit, i);
    }
  }

  /** Every page lists its products newest first. */
  lemma ListedNewestFirst(products: seq<Product>, categories: seq<Category>, q: Query)
    requires q.page >= 1 && q.limit >= 1
    ensures SortedBy(NewerFirst, Window(Ranked(products, categories, q.search, q.category), Skip(q.page, q.limit), q.limit))
  {
    var ranked := Ranked(products, categories, q.search, q.category);
    var skip := Skip(q.page, q.limit);
    if skip <= |ranked| {
      var end := if skip + q.limit <= |ranked| then skip + q.limit else |ranked|;
      SortedSlice(NewerFirst, ranked, skip, end);
    }
  }

  /** Pages 1 to `pages` of `ranked`, concatenated, as an infinite scroll shows them. */
  function Pages<T>(ranked: seq<T>, limit: nat, pages: nat): seq<T>
    requires limit >= 1
  {
    if pages == 0 then [] else Pages(ranked, limit, pages - 1) + Window(ranked, Skip(pages, limit), limit)
  }

  /** Consecutive pages follow each other: the first `pages` pages are a prefix of the ranking. */
  lemma {:induction false} PagesConcatenate<T>(ranked: seq<T>, limit: nat, pages: nat)
    requires limit >= 1
    ensures Skip(pages + 1, limit) <= |ranked| ==> Pages(ranked, limit, pages) == ranked[..Skip(pages + 1, limit)]
    ensures Skip(pages + 1, limit) > |ranked| ==> Pages(ranked, limit, pages) == ranked
  {
    if pages > 0 {
      PagesConcatenate(ranked, limit, pages - 1);
      var skip := Skip(pages, limit);
      assert Skip(pages + 1, limit) == skip + limit;
      if skip <= |ranked| {
        if skip + limit <= |ranked| {
          assert ranked[..skip] + ranked[skip..skip + limit] == ranked[..skip + limit];
        } else {
          assert ranked[..skip] + ranked[skip..] == ranked;
        }
      }
    }
  }

  /** Once the pages shown reach the end of the ranking, they hold all of it. */
  lemma PagesReachEnd<T>(ranked: seq<T>, limit: nat, pages: nat)
    requires pages >= 1 && limit >= 1
    requires Skip(pages, limit) + |Window(ranked, Skip(pages, limit), limit)| >= |ranked|
    ensures Pages(ranked, limit, pages) == ranked
  {
    PagesConcatenate(ranked, limit, pages);
    var skip := Skip(pages, limit);
    assert Skip(pages + 1, limit) == skip + limit;
    if skip + limit <= |ranked| {
      assert ranked[..skip + limit] == ranked;
    }
  }

  /** When a page reports no more products, the pages shown so far hold every match. */
  lemma LastPageShowsEverything(products: seq<Product>, categories: seq<Category>, q: Query)
    requires q.page >= 1 && q.limit >= 1
    requires !List(products, categories, q).value.pagination.hasMore
    ensures var ranked := Ranked(products, categories, q.search, q.category);
            Pages(ranked, q.limit, q.page) == ranked
  {
    PagesReachEnd(Ranked(products, categories, q.search, q.category), q.limit, q.page);
  }
}
