/**
 * The back-office product table: a stock badge per product, a search and category filter,
 * and the list of category names the filter offers.
 */
module AdminProductsPage {
  import opened Text
  import opened Seqs

  /** A product as the page receives it from `GET /api/admin/products`. */
  datatype Row = Row(id: string, name: string, price: int, stock: int, categoryName: string)

  datatype Badge = OutOfStock | Available | LowStock

  /** The badge's text. */
  function Label(b: Badge): string {
    match b
    case OutOfStock => "Нет в наличии"
    case Available => "В наличии"
    case LowStock => "Мало товара"
  }

  /** `getStatusBadge`: none at exactly 0, plenty above 10, low otherwise (negatives included). */
  function StatusBadge(stock: int): (b: Badge)
    ensures b == OutOfStock <==> stock == 0
    ensures b == Available <==> stock > 10
    ensures b == LowStock <==> stock < 0 || 1 <= stock <= 10
  {
    if stock == 0 then OutOfStock else if stock > 10 then Available else LowStock
  }

  /** The filter's test: the name contains the term (both lowercased), and the category fits. */
  predicate Shown(searchTerm: string, selectedCategory: string, p: Row) {
    Contains(Lower(p.name), Lower(searchTerm)) && (selectedCategory == "all" || p.categoryName == selectedCategory)
  }

  /** `filteredProducts`. */
  function FilteredProducts(products: seq<Row>, searchTerm: string, selectedCategory: string): (r: seq<Row>)
    ensures IsSubsequence(r, products)
    ensures forall i :: 0 <= i < |r| ==> Shown(searchTerm, selectedCategory, r[i])
    ensures forall i :: 0 <= i < |products| && Shown(searchTerm, selectedCategory, products[i]) ==> products[i] in r
  {
    FilterIsSubsequence(products, (p: Row) => Shown(searchTerm, selectedCategory, p));
    Filter(products, (p: Row) => Shown(searchTerm, selectedCategory, p))
  }

  /** With no search term and every category selected, the table shows all products. */
  lemma NoFilterShowsAll(products: seq<Row>)
    ensures FilteredProducts(products, "", "all") == products
  {
    forall i | 0 <= i < |products|
      ensures Shown("", "all", products[i])
    {
      ContainsEmpty(Lower(products[i].name));
    }
    FilterAll(products, (p: Row) => Shown("", "all", p));
  }

  /** The category of each product, in product order. */
  function CategoryNames(products: seq<Row>): (names: seq<string>)
    ensures |names| == |products|
    ensures forall i :: 0 <= i < |products| ==> names[i] == products[i].categoryName
  {
    seq(|products|, i requires 0 <= i < |products| => products[i].categoryName)
  }

  /** Where `x` first occurs in `s`. */
  function FirstIndex(s: seq<string>, x: string): (k: nat)
    requires x in s
    ensures k < |s| && s[k] == x && forall j :: 0 <= j < k ==> s[j] != x
  {
    if s[0] == x then 0 else 1 + FirstIndex(s[1..], x)
  }

  lemma FirstIndexExtend(s: seq<string>, x: string, y: string)
    requires y in s
    ensures FirstIndex(s + [x], y) == FirstIndex(s, y)
  {
    var k := FirstIndex(s, y);
    assert (s + [x])[k] == y;
    var k' := FirstIndex(s + [x], y);
    assert k' <= k;
    assert s[k'] == y;
  }

  /** `Array.from(new Set(names))`: each name once, in the order it first appears. */
  function Distinct(names: seq<string>): (r: seq<string>)
    ensures forall i, j :: 0 <= i < j < |r| ==> r[i] != r[j]
    ensures forall x :: x in r <==> x in names
    ensures forall i, j :: 0 <= i < j < |r| ==> FirstIndex(names, r[i]) < FirstIndex(names, r[j])
  {
    if names == [] then []
    else
      var init := names[..|names| - 1];
      var last := names[|names| - 1];
      assert names == init + [last];
      var d := Distinct(init);
      forall y | y in init
        ensures FirstIndex(names, y) == FirstIndex(init, y)
      {
        FirstIndexExtend(init, last, y);
      }
      if last in d then d
      else
        assert FirstIndex(names, last) == |init|;
        d + [last]
  }

  /** `categories`: the filter's options. */
  function Categories(products: seq<Row>): (r: seq<string>)
    ensures forall i, j :: 0 <= i < j < |r| ==> r[i] != r[j]
    ensures forall x :: x in r <==> exists k :: 0 <= k < |products| && products[k].categoryName == x
    ensures forall x :: x in r ==> x in CategoryNames(products)
    ensures forall i, j :: 0 <= i < j < |r| ==>
              FirstIndex(CategoryNames(products), r[i]) < FirstIndex(CategoryNames(products), r[j])
  {
    var names := CategoryNames(products);
    assert forall x :: x in names <==> exists k :: 0 <= k < |products| && products[k].categoryName == x by {
      forall x | x in names
        ensures exists k :: 0 <= k < |products| && products[k].categoryName == x
      {
        var k :| 0 <= k < |names| && names[k] == x;
      }
    }
    Distinct(names)
  }
}
