/**
 * `GET /api/admin/popular-products`: the five products with the most order lines, with the
 * units sold and the revenue over those lines; products never sold are dropped.
 */
module PopularProducts {
  import opened Schema
  import opened Sorting
  import opened Seqs

  datatype Popular = Popular(id: string, name: string, sales: int, revenue: int)

  const TopCount := 5

  /** The order lines of product `id`, over all orders, in table order. */
  function LinesOf(orders: seq<Order>, id: string): seq<OrderItem> {
    if orders == [] then []
    else Filter(orders[0].items, (item: OrderItem) => item.productId == id) + LinesOf(orders[1..], id)
  }

  /** `_count.order_items`. */
  function LineCount(orders: seq<Order>, id: string): nat {
    |LinesOf(orders, id)|
  }

  /** Units sold: the sum of the lines' quantities. */
  function Sales(lines: seq<OrderItem>): int {
    if lines == [] then 0 else lines[0].quantity + Sales(lines[1..])
  }

  /** Revenue: the sum of each line's price times its quantity. */
  function Revenue(lines: seq<OrderItem>): int {
    if lines == [] then 0 else lines[0].price * lines[0].quantity + Revenue(lines[1..])
  }

  lemma {:induction false} SalesAppend(a: seq<OrderItem>, b: seq<OrderItem>)
    ensures Sales(a + b) == Sales(a) + Sales(b)
    ensures Revenue(a + b) == Revenue(a) + Revenue(b)
  {
    if a == [] {
      assert a + b == b;
    } else {
      assert (a + b)[1..] == a[1..] + b;
      SalesAppend(a[1..], b);
    }
  }

  /** The sales of a product are its units over every order, order by order. */
  lemma {:induction false} SalesOverOrders(orders: seq<Order>, extra: Order, id: string)
    ensures Sales(LinesOf(orders + [extra], id)) ==
            Sales(LinesOf(orders, id)) + Sales(Filter(extra.items, (item: OrderItem) => item.productId == id))
  {
    var own := Filter(extra.items, (item: OrderItem) => item.productId == id);
    if orders == [] {
      assert [extra][1..] == [];
      assert LinesOf([extra], id) == own + [];
      SalesAppend(own, []);
    } else {
      assert (orders + [extra])[1..] == orders[1..] + [extra];
      SalesOverOrders(orders[1..], extra, id);
      var head := Filter(orders[0].items, (item: OrderItem) => item.productId == id);
      SalesAppend(head, LinesOf(orders[1..] + [extra], id));
      SalesAppend(head, LinesOf(orders[1..], id));
    }
  }

  /** A product with its number of order lines. */
  datatype Counted = Counted(product: Product, lines: nat)

  /** `orderBy: { order_items: { _count: 'desc' } }` (ties in any order). */
  predicate MoreLines(a: Counted, b: Counted) { a.lines >= b.lines }

  lemma MoreLinesIsPreorder()
    ensures TotalPreorder(MoreLines)
  {
  }

  function WithCounts(products: seq<Product>, orders: seq<Order>): (r: seq<Counted>)
    ensures |r| == |products|
    ensures forall i :: 0 <= i < |r| ==> r[i] == Counted(products[i], LineCount(orders, products[i].id))
  {
    seq(|products|, i requires 0 <= i < |products| => Counted(products[i], LineCount(orders, products[i].id)))
  }

  /** Every product, most order lines first. */
  function Ranking(products: seq<Product>, orders: seq<Order>): (r: seq<Counted>)
    ensures SortedBy(MoreLines, r)
    ensures multiset(r) == multiset(WithCounts(products, orders))
    ensures |r| == |products|
  {
    MoreLinesIsPreorder();
    var r := SortBy(MoreLines, WithCounts(products, orders));
    assert |multiset(r)| == |r|;
    r
  }

  /** The rows the query returns: the five products with the most order lines. */
  function TopRows(products: seq<Product>, orders: seq<Order>): (r: seq<Counted>)
    ensures |r| <= TopCount && |r| == if |products| <= TopCount then |products| else TopCount
    ensures SortedBy(MoreLines, r)
    ensures r == Ranking(products, orders)[..|r|]
  {
    var ranking := Ranking(products, orders);
    var r := Take(ranking, TopCount);
    SortedSlice(MoreLines, ranking, 0, |r|);
    assert ranking[0..|r|] == r;
    r
  }

  function Entry(orders: seq<Order>, p: Product): (e: Popular)
    ensures e.id == p.id && e.name == p.name
    ensures e.sales == Sales(LinesOf(orders, p.id)) && e.revenue == Revenue(LinesOf(orders, p.id))
  {
    Popular(p.id, p.name, Sales(LinesOf(orders, p.id)), Revenue(LinesOf(orders, p.id)))
  }

  function Entries(orders: seq<Order>, rows: seq<Counted>): (r: seq<Popular>)
    ensures |r| == |rows|
    ensures forall i :: 0 <= i < |rows| ==> r[i] == Entry(orders, rows[i].product)
  {
    seq(|rows|, i requires 0 <= i < |rows| => Entry(orders, rows[i].product))
  }

  predicate Sold(e: Popular) { e.sales > 0 }

  /** The handler: the top rows as entries, those with no sales dropped, order kept. */
  function Get(products: seq<Product>, orders: seq<Order>): (r: seq<Popular>)
    ensures |r| <= TopCount
    ensures forall i :: 0 <= i < |r| ==> r[i].sales > 0
    ensures IsSubsequence(r, Entries(orders, TopRows(products, orders)))
    ensures var entries := Entries(orders, TopRows(products, orders));
            forall i :: 0 <= i < |entries| && entries[i].sales > 0 ==> entries[i] in r
  {
    var entries := Entries(orders, TopRows(products, orders));
    FilterIsSubsequence(entries, Sold);
    Filter(entries, Sold)
  }

  /** A product shown has at least as many order lines as any product the query left out. */
  lemma ShownOutrankLeftOut(products: seq<Product>, orders: seq<Order>, i: nat, j: nat)
    requires i < |TopRows(products, orders)| <= j < |products|
    ensures TopRows(products, orders)[i].lines >= Ranking(products, orders)[j].lines
  {
    assert TopRows(products, orders)[i] == Ranking(products, orders)[i];
  }

  /** With five products or fewer, every product is considered. */
  lemma FewProductsAllConsidered(products: seq<Product>, orders: seq<Order>)
    requires |products| <= TopCount
    ensures multiset(TopRows(products, orders)) == multiset(WithCounts(products, orders))
  {
    assert TopRows(products, orders) == Ranking(products, orders);
  }
}
