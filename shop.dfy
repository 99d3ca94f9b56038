/**
 * The shop page: the product grid, filled page by page from `GET /api/products` (nine per
 * page, later pages appended), and the "add to cart" button, which updates the cart kept in
 * the browser's storage.
 */
module ShopPage {
  import opened Wrappers
  import opened Schema
  import opened Cart
  import opened ProductsApi

  const PageSize := 9

  /** The line of `cart` holding product `id`, as `cart.find` picks it: the first one. */
  function FindLine(cart: seq<CartItem>, id: string): (r: Option<nat>)
    ensures r.None? <==> forall k :: 0 <= k < |cart| ==> cart[k].id != id
    ensures r.Some? ==> r.value < |cart| && cart[r.value].id == id &&
                        forall k :: 0 <= k < r.value ==> cart[k].id != id
  {
    if cart == [] then None
    else if cart[0].id == id then Some(0)
    else match FindLine(cart[1..], id)
      case None => None
      case Some(k) => Some(k + 1)
  }

  /** The new line `addToCart` appends for a product not yet in the cart. */
  function NewLine(product: ProductCard): CartItem {
    CartItem(product.id, product.name, product.price, 1, product.image)
  }

  /** `addToCart`'s cart: one more unit on the first line of the product, or a new line. */
  function AddedToCart(cart: seq<CartItem>, product: ProductCard): (r: seq<CartItem>)
    ensures FindLine(cart, product.id).Some? ==>
              var k := FindLine(cart, product.id).value;
              r == cart[k := cart[k].(quantity := cart[k].quantity + 1)]
    ensures FindLine(cart, product.id).None? ==> r == cart + [NewLine(product)]
  {
    match FindLine(cart, product.id)
    case Some(k) => cart[k := cart[k].(quantity := cart[k].quantity + 1)]
    case None => cart + [NewLine(product)]
  }

  /**
   * Adding a product raises the number of items in the cart by exactly one, and the amount by
   * one unit at the price the cart already holds for it (the card's price for a new line).
   */
  lemma AddRaisesItemsByOne(cart: seq<CartItem>, product: ProductCard)
    ensures TotalItems(AddedToCart(cart, product)) == TotalItems(cart) + 1
    ensures FindLine(cart, product.id).None? ==>
              TotalAmount(AddedToCart(cart, product)) == TotalAmount(cart) + product.price
    ensures FindLine(cart, product.id).Some? ==>
              TotalAmount(AddedToCart(cart, product)) ==
              TotalAmount(cart) + cart[FindLine(cart, product.id).value].price
  {
    match FindLine(cart, product.id)
    case Some(k) =>
      TotalsUpdateAt(cart, k, cart[k].(quantity := cart[k].quantity + 1));
    case None =>
      TotalsAppend(cart, [NewLine(product)]);
      assert [NewLine(product)][1..] == [];
  }

  /** Adding a product adds one unit of that product, and no other product's count moves. */
  lemma {:induction false} AddRaisesOnlyThatProduct(cart: seq<CartItem>, product: ProductCard, id: string)
    ensures QuantityOf(AddedToCart(cart, product), id) ==
            QuantityOf(cart, id) + (if id == product.id then 1 else 0)
  {
    if cart == [] {
      assert AddedToCart(cart, product)[1..] == [];
    } else if cart[0].id == product.id {
      assert AddedToCart(cart, product)[1..] == cart[1..];
    } else {
      AddRaisesOnlyThatProduct(cart[1..], product, id);
      assert AddedToCart(cart, product)[1..] == AddedToCart(cart[1..], product);
    }
  }

  /** `addToCart`: reads the stored cart (`[]` when none), updates it and stores it back. */
  method AddToCart(storage: Storage, product: ProductCard)
    modifies storage
    ensures storage.cart == Some(AddedToCart(old(storage.cart).GetOr([]), product))
  {
    var cart := storage.cart.GetOr([]);
    var i := 0;
    while i < |cart| && cart[i].id != product.id
      invariant 0 <= i <= |cart|
      invariant forall k :: 0 <= k < i ==> cart[k].id != product.id
    {
      i := i + 1;
    }
    if i < |cart| {
      cart := cart[i := cart[i].(quantity := cart[i].quantity + 1)];
    } else {
      cart := cart + [NewLine(product)];
    }
    storage.cart := Some(cart);
  }

  /** The products shown after scrolling through `pages` pages for one search and category. */
  function Scrolled(products: seq<Product>, categories: seq<Category>, search: string, category: string,
                    pages: nat): (r: seq<ProductCard>)
    ensures |r| <= pages * PageSize
  {
    if pages == 0 then []
    else Scrolled(products, categories, search, category, pages - 1) +
         List(products, categories, Query(search, category, pages, PageSize)).value.products
  }

  /** Scrolling shows the newest matching products, in order, without gaps or repeats. */
  lemma {:induction false} ScrollShowsRanking(products: seq<Product>, categories: seq<Category>, search: string,
                                              category: string, pages: nat)
    ensures Scrolled(products, categories, search, category, pages) ==
            Cards(categories, Pages(Ranked(products, categories, search, category), PageSize, pages))
  {
    if pages > 0 {
      var ranked := Ranked(products, categories, search, category);
      var page := Window(ranked, Skip(pages, PageSize), PageSize);
      ScrollShowsRanking(products, categories, search, category, pages - 1);
      assert List(products, categories, Query(search, category, pages, PageSize)).value.products == Cards(categories, page);
      assert Pages(ranked, PageSize, pages) == Pages(ranked, PageSize, pages - 1) + page;
      CardsAppend(categories, Pages(ranked, PageSize, pages - 1), page);
    }
  }

  /** What the grid shows: the loaded products and the last page's pagination. */
  class Shop {
    var products: seq<ProductCard>
    var selectedCategory: string
    var searchQuery: string
    var loading: bool
    var loadingMore: bool
    var pagination: Pagination

    constructor()
      ensures products == [] && selectedCategory == "" && searchQuery == ""
      ensures loading && !loadingMore && pagination == Pagination(1, Some(1), 0, false)
    {
      products := [];
      selectedCategory := "";
      searchQuery := "";
      loading := true;
      loadingMore := false;
      pagination := Pagination(1, Some(1), 0, false);
    }

    /** The query `fetchProducts(page)` sends. */
    function QueryFor(page: int): (q: Query)
      reads this
      ensures q.page == page && q.limit == PageSize
      ensures q.search == searchQuery && q.category == selectedCategory
    {
      Query(searchQuery, selectedCategory, page, PageSize)
    }

    /** The start of `fetchProducts(page)`: the first page shows the spinner, later ones the footer. */
    method StartFetch(page: int) returns (q: Query)
      modifies this
      ensures q == old(QueryFor(page))
      ensures page == 1 ==> loading && loadingMore == old(loadingMore)
      ensures page != 1 ==> loadingMore && loading == old(loading)
      ensures products == old(products) && pagination == old(pagination)
      ensures searchQuery == old(searchQuery) && selectedCategory == old(selectedCategory)
    {
      if page == 1 {
        loading := true;
      } else {
        loadingMore := true;
      }
      q := QueryFor(page);
    }

    /**
     * The end of `fetchProducts(page, append)`: `reply` is the decoded page when the response
     * was ok. An appended page goes after the products shown; otherwise it replaces them.
     */
    method FinishFetch(append: bool, reply: Option<ProductPage>)
      modifies this
      ensures reply.Some? && append ==> products == old(products) + reply.value.products
      ensures reply.Some? && !append ==> products == reply.value.products
      ensures reply.Some? ==> pagination == reply.value.pagination
      ensures reply.None? ==> products == old(products) && pagination == old(pagination)
      ensures !loading && !loadingMore
      ensures searchQuery == old(searchQuery) && selectedCategory == old(selectedCategory)
    {
      if reply.Some? {
        if append {
          products := products + reply.value.products;
        } else {
          products := reply.value.products;
        }
        pagination := reply.value.pagination;
      }
      loading := false;
      loadingMore := false;
    }

    /** `loadMore`: the next page is requested only when there is one and none is loading. */
    method LoadMore() returns (q: Option<Query>)
      modifies this
      ensures old(pagination.hasMore && !loadingMore) <==> q.Some?
      ensures q.Some? ==> q.value == old(QueryFor(pagination.currentPage + 1))
      ensures q.Some? && q.value.page != 1 ==> loadingMore
      ensures q.None? ==> loading == old(loading) && loadingMore == old(loadingMore)
      ensures products == old(products) && pagination == old(pagination)
      ensures searchQuery == old(searchQuery) && selectedCategory == old(selectedCategory)
    {
      if pagination.hasMore && !loadingMore {
        var next := StartFetch(pagination.currentPage + 1);
        q := Some(next);
      } else {
        q := None;
      }
    }

    /** `resetFilters`: both filters cleared (the page then reloads from page 1). */
    method ResetFilters()
      modifies this
      ensures searchQuery == "" && selectedCategory == ""
      ensures products == old(products) && pagination == old(pagination)
      ensures loading == old(loading) && loadingMore == old(loadingMore)
    {
      searchQuery := "";
      selectedCategory := "";
    }
  }
}
