/**
 * `GET /api/products/featured`: the home page's twelve newest products in stock, ties broken
 * by name.
 */
module Featured {
  import opened Wrappers
  import opened Text
  import opened Schema
  import opened Sorting
  import opened Seqs
  import opened ProductsApi

  const FeaturedCount := 12

  datatype FeaturedCard = FeaturedCard(id: string, name: string, price: int, image: Option<string>, category: string)

  /** `orderBy: [{ created_at: 'desc' }, { name: 'asc' }]`. */
  predicate NewestThenName(a: Product, b: Product) {
    a.createdAt > b.createdAt || (a.createdAt == b.createdAt && LexLeq(a.name, b.name))
  }

  lemma NewestThenNameIsPreorder()
    ensures TotalPreorder(NewestThenName)
  {
    forall a: Product, b: Product
      ensures NewestThenName(a, b) || NewestThenName(b, a)
    {
      LexLeqTotal(a.name, b.name);
    }
    forall a: Product, b: Product, c: Product | NewestThenName(a, b) && NewestThenName(b, c)
      ensures NewestThenName(a, c)
    {
      if a.createdAt == b.createdAt == c.createdAt {
        LexLeqTransitive(a.name, b.name, c.name);
      }
    }
  }

  predicate InStock(p: Product) { p.stock > 0 }

  /** Every product in stock, in the order of the query. */
  function Candidates(products: seq<Product>): (r: seq<Product>)
    ensures SortedBy(NewestThenName, r)
    ensures multiset(r) == multiset(Filter(products, InStock))
    ensures |r| == |Filter(products, InStock)|
    ensures forall i :: 0 <= i < |r| ==> r[i].stock > 0
  {
    NewestThenNameIsPreorder();
    var m := Filter(products, InStock);
    var r := SortBy(NewestThenName, m);
    assert |multiset(r)| == |r| && |multiset(m)| == |m|;
    assert forall i :: 0 <= i < |r| ==> r[i].stock > 0 by {
      forall i | 0 <= i < |r|
        ensures r[i].stock > 0
      {
        assert r[i] in multiset(m);
      }
    }
    r
  }

  /** The rows the query returns: the first twelve candidates. */
  function FeaturedRows(products: seq<Product>): (r: seq<Product>)
    ensures |r| <= FeaturedCount
    ensures SortedBy(NewestThenName, r)
    ensures forall i :: 0 <= i < |r| ==> r[i].stock > 0
    ensures |Filter(products, InStock)| <= FeaturedCount ==> r == Candidates(products)
    ensures |r| == if |Filter(products, InStock)| < FeaturedCount then |Filter(products, InStock)| else FeaturedCount
    ensures r == Candidates(products)[..|r|]
  {
    var c := Candidates(products);
    var r := Take(c, FeaturedCount);
    SortedSlice(NewestThenName, c, 0, |r|);
    assert c[0..|r|] == r;
    r
  }

  /** No product left out is newer than one shown (or as new and earlier by name). */
  lemma ShownOutrankLeftOut(products: seq<Product>, i: nat, j: nat)
    requires i < |FeaturedRows(products)| <= j < |Candidates(products)|
    ensures NewestThenName(FeaturedRows(products)[i], Candidates(products)[j])
  {
    var c := Candidates(products);
    assert FeaturedRows(products) == Take(c, FeaturedCount);
    assert FeaturedRows(products)[i] == c[i];
  }

  /** The handler's mapping: no image for an empty URL, a fallback category name. */
  function ToFeaturedCard(categories: seq<Category>, p: Product): (c: FeaturedCard)
    ensures c.id == p.id && c.name == p.name && c.price == p.price
    ensures c.image.Some? <==> p.imageUrl.Some? && p.imageUrl.value != ""
    ensures c.image.Some? ==> c.image == p.imageUrl
    ensures c.category != "" && (FindCategory(categories, p.categoryId).None? ==> c.category == NoCategory)
    ensures c.category == CategoryName(categories, p)
  {
    FeaturedCard(p.id, p.name, p.price, NonEmpty(p.imageUrl), CategoryName(categories, p))
  }

  /** The handler. */
  function Get(products: seq<Product>, categories: seq<Category>): (r: seq<FeaturedCard>)
    ensures |r| == |FeaturedRows(products)|
    ensures forall i :: 0 <= i < |r| ==> r[i] == ToFeaturedCard(categories, FeaturedRows(products)[i])
  {
    var rows := FeaturedRows(products);
    seq(|rows|, i requires 0 <= i < |rows| => ToFeaturedCard(categories, rows[i]))
  }

  /** At most twelve cards, each for a product in stock. */
  lemma FeaturedInStock(products: seq<Product>, categories: seq<Category>)
    ensures |Get(products, categories)| <= FeaturedCount
    ensures forall i :: 0 <= i < |Get(products, categories)| ==>
              exists k :: 0 <= k < |products| && products[k].id == Get(products, categories)[i].id && products[k].stock > 0
  {
    var rows := FeaturedRows(products);
    var c := Candidates(products);
    forall i | 0 <= i < |rows|
      ensures exists k :: 0 <= k < |products| && products[k].id == rows[i].id && products[k].stock > 0
    {
      assert rows[i] == c[i] && c[i] in multiset(c);
      assert rows[i] in Filter(products, InStock);
      var k :| 0 <= k < |products| && products[k] == rows[i];
    }
  }
}
