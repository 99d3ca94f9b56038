/**
 * `/api/admin/products`: the back-office product list (newest first, with category names) and
 * product creation, which checks the fields one by one and reports the first problem.
 */
module AdminProductsApi {
  import opened Wrappers
  import opened Http
  import opened Schema
  import opened Sorting
  import opened ProductsApi

  /** A JSON number field: absent, `null`, or a number (integers only in this model). */
  datatype JsonNumber = Missing | Null | Num(n: int)

  /** The request body; "" stands for an absent or empty text field. */
  datatype NewProduct = NewProduct(
    name: string,
    description: string,
    price: JsonNumber,
    stock: JsonNumber,
    categoryId: string,
    imageUrl: string)

  /** A product as the list shows it: the row and its category's name, if the category exists. */
  datatype Listed = Listed(product: Product, categoryName: Option<string>)

  const NameRequired := "Название товара обязательно"
  const PricePositive := "Цена должна быть больше нуля"
  const StockNonNegative := "Количество на складе не может быть отрицательным"
  const CategoryRequired := "Категория обязательна"
  const CategoryMissing := "Указанная категория не существует"
  const CreateFailed := "Ошибка создания товара"

  /** `!price || price <= 0`: absent, null, zero and negative prices are refused. */
  predicate BadPrice(price: JsonNumber) {
    !price.Num? || price.n <= 0
  }

  /** `stock === undefined || stock < 0`: `null` is not refused here. */
  predicate BadStock(stock: JsonNumber) {
    stock.Missing? || (stock.Num? && stock.n < 0)
  }

  /** The checks, in the handler's order: the first one that fails gives the message. */
  function Problem(body: NewProduct, categories: seq<Category>): (r: Option<string>)
    ensures r.None? <==> body.name != "" && !BadPrice(body.price) && !BadStock(body.stock) &&
                         body.categoryId != "" && FindCategory(categories, body.categoryId).Some?
    ensures body.name == "" ==> r == Some(NameRequired)
    ensures body.name != "" && BadPrice(body.price) ==> r == Some(PricePositive)
    ensures body.name != "" && !BadPrice(body.price) && BadStock(body.stock) ==> r == Some(StockNonNegative)
    ensures body.name != "" && !BadPrice(body.price) && !BadStock(body.stock) && body.categoryId == "" ==>
              r == Some(CategoryRequired)
    ensures (body.name != "" && !BadPrice(body.price) && !BadStock(body.stock) && body.categoryId != "" &&
             FindCategory(categories, body.categoryId).None?) ==> r == Some(CategoryMissing)
  {
    if body.name == "" then Some(NameRequired)
    else if BadPrice(body.price) then Some(PricePositive)
    else if BadStock(body.stock) then Some(StockNonNegative)
    else if body.categoryId == "" then Some(CategoryRequired)
    else if FindCategory(categories, body.categoryId).None? then Some(CategoryMissing)
    else None
  }

  /** What a product row must satisfy to be created by this handler. */
  predicate WellFormed(categories: seq<Category>, p: Product) {
    p.name != "" && p.price > 0 && p.stock >= 0 && FindCategory(categories, p.categoryId).Some?
  }

  /**
   * The POST handler on the product rows: `id` and `now` are the identifier and creation time
   * the database assigns. A `null` stock passes the checks but cannot be stored (500).
   */
  function Outcome(products: seq<Product>, categories: seq<Category>, body: NewProduct, id: string, now: int)
    : (out: (Response<Listed>, seq<Product>))
    ensures out.0.Ok? <==> Problem(body, categories).None? && body.stock.Num?
    ensures out.0.Err? ==> out.1 == products
    ensures out.0.Err? && Problem(body, categories).Some? ==> out.0 == Err(400, Problem(body, categories).value)
    ensures out.0.Ok? ==> out.0.status == 201 && out.1 == products + [out.0.value.product]
    ensures out.0.Ok? ==> WellFormed(categories, out.0.value.product)
    ensures out.0.Ok? ==>
              out.0.value.product == Product(id, body.name, Truthy(body.description), body.price.n, body.stock.n,
                                             Truthy(body.imageUrl), body.categoryId, now) &&
              out.0.value.categoryName == Some(FindCategory(categories, body.categoryId).value.name)
    ensures Problem(body, categories).None? && !body.stock.Num? ==> out == (Err(500, CreateFailed), products)
  {
    match Problem(body, categories)
    case Some(message) => (Err(400, message), products)
    case None =>
      if !body.stock.Num? then (Err(500, CreateFailed), products)
      else
        var p := Product(id, body.name, Truthy(body.description), body.price.n, body.stock.n,
                         Truthy(body.imageUrl), body.categoryId, now);
        (Ok(201, Listed(p, Some(FindCategory(categories, body.categoryId).value.name))), products + [p])
  }

  /** A catalogue built through this handler only holds well-formed products. */
  lemma PostKeepsCatalogueWellFormed(products: seq<Product>, categories: seq<Category>, body: NewProduct,
                                     id: string, now: int)
    requires forall i :: 0 <= i < |products| ==> WellFormed(categories, products[i])
    ensures var rows := Outcome(products, categories, body, id, now).1;
            forall i :: 0 <= i < |rows| ==> WellFormed(categories, rows[i])
  {
  }

  /** A stock of zero is accepted: only negative stock is refused. */
  lemma ZeroStockAccepted(products: seq<Product>, categories: seq<Category>, body: NewProduct, id: string, now: int)
    requires body.name != "" && body.price.Num? && body.price.n > 0 && body.stock == Num(0)
    requires FindCategory(categories, body.categoryId).Some? && body.categoryId != ""
    ensures Outcome(products, categories, body, id, now).0.Ok?
    ensures Outcome(products, categories, body, id, now).0.value.product.stock == 0
  {
  }

  /** `POST /api/admin/products`. */
  method Post(products: ProductTable, categories: CategoryTable, body: NewProduct, id: string, now: int)
    returns (r: Response<Listed>)
    modifies products
    ensures (r, products.rows) == Outcome(old(products.rows), categories.rows, body, id, now)
  {
    var problem := Problem(body, categories.rows);
    if problem.Some? {
      return Err(400, problem.value);
    }
    if !body.stock.Num? {
      return Err(500, CreateFailed);
    }
    var p := Product(id, body.name, Truthy(body.description), body.price.n, body.stock.n,
                     Truthy(body.imageUrl), body.categoryId, now);
    products.rows := products.rows + [p];
    r := Ok(201, Listed(p, Some(FindCategory(categories.rows, body.categoryId).value.name)));
  }

  /** A product with the name of its category (`include: { category: { select: { name } } }`), None without one. */
  function ToListed(categories: seq<Category>, p: Product): (r: Listed)
    ensures r.product == p
    ensures r.categoryName.Some? <==> exists i :: 0 <= i < |categories| && categories[i].id == p.categoryId
    ensures r.categoryName.Some? ==>
              exists i :: 0 <= i < |categories| && categories[i].id == p.categoryId &&
                          categories[i].name == r.categoryName.value
  {
    Listed(p, match FindCategory(categories, p.categoryId) case Some(c) => Some(c.name) case None => None)
  }

  /** `GET /api/admin/products`: every product, newest first, with its category name. */
  function Get(products: seq<Product>, categories: seq<Category>): (r: seq<Listed>)
    ensures |r| == |products|
    ensures forall i, j :: 0 <= i < j < |r| ==> r[i].product.createdAt >= r[j].product.createdAt
    ensures multiset(seq(|r|, i requires 0 <= i < |r| => r[i].product)) == multiset(products)
    ensures forall i :: 0 <= i < |r| ==> r[i] == ToListed(categories, r[i].product)
  {
    NewerFirstIsPreorder();
    var sorted := SortBy(NewerFirst, products);
    assert |multiset(sorted)| == |sorted|;
    var r := seq(|sorted|, i requires 0 <= i < |sorted| => ToListed(categories, sorted[i]));
    assert seq(|r|, i requires 0 <= i < |r| => r[i].product) == sorted;
    r
  }
}
