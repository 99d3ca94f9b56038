/**
 * `POST /api/admin/products/import`: spreadsheet rows become products, one row at a time.
 * A row without a name, price or catalogue is skipped and reported; the catalogue names a
 * category that is found or created; a row with an ID replaces the product with that ID.
 */
module ProductImport {
  import opened Wrappers
  import opened Text
  import opened Http
  import opened Schema
  import opened Seqs

  /** A spreadsheet row: its cells by column title, as text ("" or absent for an empty cell). */
  type SheetRow = map<string, string>

  function Cell(row: SheetRow, title: string): string {
    if title in row then row[title] else ""
  }

  const NameColumn := "Название товара"
  const PriceColumn := "Цена"
  const CatalogueColumn := "Каталог"
  const RequiredFields := [NameColumn, PriceColumn, CatalogueColumn]

  /**
   * What the handler cannot compute itself: the clock, `parseFloat` and `parseInt` (`None` is
   * NaN), and the ids the database gives to the category and the product created for row `i`.
   */
  datatype Env = Env(
    now: int,
    parseFloat: string -> Option<int>,
    parseInt: string -> Option<int>,
    categoryIdFor: nat -> string,
    productIdFor: nat -> string)

  datatype Results = Results(success: nat, failed: nat, replaced: nat, created: nat, errors: seq<string>)

  datatype Store = Store(categories: seq<Category>, products: seq<Product>)

  datatype Summary = Summary(message: string, results: Results)

  predicate Blank(row: SheetRow, title: string) { Cell(row, title) == "" }

  /** The required columns the row leaves empty, in the order they are required. */
  function MissingFields(row: SheetRow): (r: seq<string>)
    ensures r == [] <==> !Blank(row, NameColumn) && !Blank(row, PriceColumn) && !Blank(row, CatalogueColumn)
    ensures IsSubsequence(r, RequiredFields)
  {
    FilterIsSubsequence(RequiredFields, (f: string) => Blank(row, f));
    var r := Filter(RequiredFields, (f: string) => Blank(row, f));
    assert Blank(row, NameColumn) ==> RequiredFields[0] in r;
    assert Blank(row, PriceColumn) ==> RequiredFields[1] in r;
    assert Blank(row, CatalogueColumn) ==> RequiredFields[2] in r;
    r
  }

  /** `parts.join(sep)` for a separator of any length. */
  function JoinWith(parts: seq<string>, sep: string): string {
    if parts == [] then ""
    else if |parts| == 1 then parts[0]
    else parts[0] + sep + JoinWith(parts[1..], sep)
  }

  function SkippedMessage(missing: seq<string>): string {
    "Товар пропущен: отсутствуют поля " + JoinWith(missing, ", ")
  }

  /** `isNaN(x) ? 0 : x`. */
  function OrZero(parsed: Option<int>): (n: int)
    ensures parsed.None? ==> n == 0
    ensures parsed.Some? ==> n == parsed.value
  {
    parsed.GetOr(0)
  }

  /** The first non-empty of the three image columns, or null. */
  function ImageUrl(row: SheetRow): (r: Option<string>)
    ensures r.Some? ==> r.value != ""
    ensures r.None? <==> Blank(row, "Ссылки на изображение") && Blank(row, "image_url") && Blank(row, "Ссылка на изображение")
  {
    if !Blank(row, "Ссылки на изображение") then Some(Cell(row, "Ссылки на изображение"))
    else if !Blank(row, "image_url") then Some(Cell(row, "image_url"))
    else if !Blank(row, "Ссылка на изображение") then Some(Cell(row, "Ссылка на изображение"))
    else None
  }

  /** The category named `name`: the first with that name, or a new one (type `other`). */
  function FindOrCreateCategory(categories: seq<Category>, name: string, newId: string): (out: (Category, seq<Category>))
    ensures out.0.name == name
    ensures FindCategoryByName(categories, name).Some? ==> out == (FindCategoryByName(categories, name).value, categories)
    ensures FindCategoryByName(categories, name).None? ==>
              out.1 == categories + [out.0] && out.0 == Category(newId, name, "other", Some("Категория " + name))
  {
    match FindCategoryByName(categories, name)
    case Some(c) => (c, categories)
    case None =>
      var c := Category(newId, name, "other", Some("Категория " + name));
      (c, categories + [c])
  }

  predicate OtherId(id: string, p: Product) { p.id != id }

  /** The product a complete row describes, with its id and category id. */
  function Imported(row: SheetRow, id: string, categoryId: string, env: Env): (p: Product)
    ensures p.id == id && p.name == Cell(row, NameColumn) && p.categoryId == categoryId
    ensures env.parseFloat(Cell(row, PriceColumn)).None? ==> p.price == 0
    ensures env.parseInt(Cell(row, "Количество на складе")).None? ==> p.stock == 0
  {
    var description := if Blank(row, "Описание") then None else Some(Cell(row, "Описание"));
    Product(id, Cell(row, NameColumn), description, OrZero(env.parseFloat(Cell(row, PriceColumn))),
            OrZero(env.parseInt(Cell(row, "Количество на складе"))), ImageUrl(row), categoryId, env.now)
  }

  /** The loop body for a complete row: category found or created, product created or replaced. */
  function Accepted(results: Results, store: Store, row: SheetRow, i: nat, env: Env): (out: (Results, Store))
    ensures out.1.categories == FindOrCreateCategory(store.categories, Cell(row, CatalogueColumn), env.categoryIdFor(i)).1
    ensures out.0.success == results.success + 1 && out.0.failed == results.failed && out.0.errors == results.errors
    ensures out.0.created + out.0.replaced == results.created + results.replaced + 1
    ensures var id := Cell(row, "ID");
            id != "" && FindProduct(store.products, id).Some? ==>
              out.0.replaced == results.replaced + 1 &&
              out.1.products == Filter(store.products, (p: Product) => OtherId(id, p)) +
                                [Imported(row, id, FindOrCreateCategory(store.categories, Cell(row, CatalogueColumn),
                                                                        env.categoryIdFor(i)).0.id, env)]
    ensures var id := Cell(row, "ID");
            (id == "" || FindProduct(store.products, id).None?) ==>
              out.0.created == results.created + 1 && out.0.replaced == results.replaced &&
              out.1.products == store.products +
                                [Imported(row, if id != "" then id else env.productIdFor(i),
                                          FindOrCreateCategory(store.categories, Cell(row, CatalogueColumn),
                                                               env.categoryIdFor(i)).0.id, env)]
  {
    var (category, categories) := FindOrCreateCategory(store.categories, Cell(row, CatalogueColumn), env.categoryIdFor(i));
    var id := Cell(row, "ID");
    if id != "" then
      var product := Imported(row, id, category.id, env);
      if FindProduct(store.products, id).Some? then
        var kept := Filter(store.products, (p: Product) => OtherId(id, p));
        (results.(replaced := results.replaced + 1, success := results.success + 1), Store(categories, kept + [product]))
      else
        (results.(created := results.created + 1, success := results.success + 1),
         Store(categories, store.products + [product]))
    else
      (results.(created := results.created + 1, success := results.success + 1),
       Store(categories, store.products + [Imported(row, env.productIdFor(i), category.id, env)]))
  }

  /** One pass of the loop body, for row number `i`. */
  function Step(acc: (Results, Store), row: SheetRow, i: nat, env: Env): (out: (Results, Store))
    ensures MissingFields(row) != [] ==>
              out == (acc.0.(failed := acc.0.failed + 1,
                             errors := acc.0.errors + [SkippedMessage(MissingFields(row))]), acc.1)
    ensures MissingFields(row) == [] ==> out == Accepted(acc.0, acc.1, row, i, env)
  {
    var missing := MissingFields(row);
    if missing != [] then
      (acc.0.(failed := acc.0.failed + 1, errors := acc.0.errors + [SkippedMessage(missing)]), acc.1)
    else
      Accepted(acc.0, acc.1, row, i, env)
  }

  const NoResults := Results(0, 0, 0, 0, [])

  /** The loop over all rows, from the initial tables. */
  function Run(rows: seq<SheetRow>, start: Store, env: Env): (Results, Store) {
    if rows == [] then (NoResults, start)
    else Step(Run(rows[..|rows| - 1], start, env), rows[|rows| - 1], |rows| - 1, env)
  }

  /** Every row is counted once, every failure leaves one message, every success one product. */
  lemma {:induction false} CountersAddUp(rows: seq<SheetRow>, start: Store, env: Env)
    ensures var res := Run(rows, start, env).0;
            res.success + res.failed == |rows| && |res.errors| == res.failed &&
            res.created + res.replaced == res.success
  {
    if rows != [] {
      CountersAddUp(rows[..|rows| - 1], start, env);
    }
  }

  /** No two categories share a name. */
  predicate DistinctNames(categories: seq<Category>) {
    forall i, j :: 0 <= i < j < |categories| ==> categories[i].name != categories[j].name
  }

  /** Find-or-create never makes a second category of one name, and never drops one. */
  lemma {:induction false} CategoriesStayDistinct(rows: seq<SheetRow>, start: Store, env: Env)
    requires DistinctNames(start.categories)
    ensures var cats := Run(rows, start, env).1.categories;
            DistinctNames(cats) && |start.categories| <= |cats| && cats[..|start.categories|] == start.categories
  {
    if rows != [] {
      var prev := Run(rows[..|rows| - 1], start, env);
      CategoriesStayDistinct(rows[..|rows| - 1], start, env);
      var row := rows[|rows| - 1];
      if MissingFields(row) == [] {
        var cats := prev.1.categories;
        var name := Cell(row, CatalogueColumn);
        var out := FindOrCreateCategory(cats, name, env.categoryIdFor(|rows| - 1));
        assert Run(rows, start, env).1.categories == out.1;
        if FindCategoryByName(cats, name).None? {
          assert forall k :: 0 <= k < |cats| ==> cats[k].name != name;
          assert (cats + [out.0])[..|start.categories|] == cats[..|start.categories|];
        }
      }
    }
  }

  /** Find-or-create loses no category and always yields one with the name asked for. */
  lemma FindOrCreateKeepsNames(categories: seq<Category>, name: string, newId: string, other: string)
    ensures FindCategoryByName(FindOrCreateCategory(categories, name, newId).1, name).Some?
    ensures FindCategoryByName(categories, other).Some? ==>
              FindCategoryByName(FindOrCreateCategory(categories, name, newId).1, other).Some?
  {
    var out := FindOrCreateCategory(categories, name, newId);
    assert out.0 in out.1;
    if FindCategoryByName(categories, other).Some? {
      assert FindCategoryByName(categories, other).value in out.1;
    }
  }

  /** What one pass of the loop does to the categories. */
  function NextCategories(cats: seq<Category>, row: SheetRow, i: nat, env: Env): seq<Category> {
    if MissingFields(row) == [] then FindOrCreateCategory(cats, Cell(row, CatalogueColumn), env.categoryIdFor(i)).1
    else cats
  }

  /** The categories after each row in turn. */
  function CategoryTrail(rows: seq<SheetRow>, cats: seq<Category>, env: Env): seq<Category> {
    if rows == [] then cats
    else NextCategories(CategoryTrail(rows[..|rows| - 1], cats, env), rows[|rows| - 1], |rows| - 1, env)
  }

  lemma {:induction false} RunCategories(rows: seq<SheetRow>, start: Store, env: Env)
    ensures Run(rows, start, env).1.categories == CategoryTrail(rows, start.categories, env)
  {
    if rows != [] {
      RunCategories(rows[..|rows| - 1], start, env);
    }
  }

  /** A pass keeps every category name there was. */
  lemma TrailStep(rows: seq<SheetRow>, cats: seq<Category>, env: Env, name: string)
    requires rows != [] && FindCategoryByName(CategoryTrail(rows[..|rows| - 1], cats, env), name).Some?
    ensures FindCategoryByName(CategoryTrail(rows, cats, env), name).Some?
  {
    var n := |rows| - 1;
    if MissingFields(rows[n]) == [] {
      FindOrCreateKeepsNames(CategoryTrail(rows[..n], cats, env), Cell(rows[n], CatalogueColumn), env.categoryIdFor(n), name);
    }
  }

  /** A pass over an accepted row leaves a category with that row's catalogue name. */
  lemma TrailLastRow(rows: seq<SheetRow>, cats: seq<Category>, env: Env)
    requires rows != [] && MissingFields(rows[|rows| - 1]) == []
    ensures FindCategoryByName(CategoryTrail(rows, cats, env), Cell(rows[|rows| - 1], CatalogueColumn)).Some?
  {
    var n := |rows| - 1;
    var name := Cell(rows[n], CatalogueColumn);
    FindOrCreateKeepsNames(CategoryTrail(rows[..n], cats, env), name, env.categoryIdFor(n), name);
  }

  lemma {:induction false} TrailHasCategory(rows: seq<SheetRow>, cats: seq<Category>, env: Env, k: nat)
    requires k < |rows| && MissingFields(rows[k]) == []
    ensures FindCategoryByName(CategoryTrail(rows, cats, env), Cell(rows[k], CatalogueColumn)).Some?
  {
    var n := |rows| - 1;
    if k < n {
      assert rows[..n][k] == rows[k];
      TrailHasCategory(rows[..n], cats, env, k);
      TrailStep(rows, cats, env, Cell(rows[k], CatalogueColumn));
    } else {
      TrailLastRow(rows, cats, env);
    }
  }

  /** After the import, the catalogue of every accepted row exists as a category. */
  lemma AcceptedRowsHaveCategory(rows: seq<SheetRow>, start: Store, env: Env, k: nat)
    requires k < |rows| && MissingFields(rows[k]) == []
    ensures FindCategoryByName(Run(rows, start, env).1.categories, Cell(rows[k], CatalogueColumn)).Some?
  {
    RunCategories(rows, start, env);
    TrailHasCategory(rows, start.categories, env, k);
  }

  /** A row whose ID is in use replaces that product: the old row goes, one with that ID comes. */
  lemma ReplaceById(results: Results, store: Store, row: SheetRow, i: nat, env: Env)
    requires Cell(row, "ID") != "" && FindProduct(store.products, Cell(row, "ID")).Some?
    ensures var out := Accepted(results, store, row, i, env);
            out.0.replaced == results.replaced + 1 && out.0.created == results.created &&
            |out.1.products| >= 1 && out.1.products[|out.1.products| - 1].id == Cell(row, "ID") &&
            forall k :: 0 <= k < |out.1.products| - 1 ==> out.1.products[k].id != Cell(row, "ID")
  {
    var id := Cell(row, "ID");
    var kept := Filter(store.products, (p: Product) => OtherId(id, p));
    var out := Accepted(results, store, row, i, env);
    forall k | 0 <= k < |out.1.products| - 1
      ensures out.1.products[k].id != id
    {
      assert out.1.products[k] == kept[k];
    }
  }

  /** The summary line shown after an import. */
  function Message(r: Results): string {
    "Импорт завершен! Всего обработано: " + NatToString(r.success) + " товаров. Создано новых: " +
    NatToString(r.created) + ", Заменено: " + NatToString(r.replaced) + ", Ошибок: " + NatToString(r.failed)
  }

  /** The loop body for a complete row, on the tables. */
  method ImportRow(categories: CategoryTable, products: ProductTable, results: Results, row: SheetRow, i: nat, env: Env)
    returns (next: Results)
    modifies categories, products
    ensures (next, Store(categories.rows, products.rows)) ==
            Accepted(results, Store(old(categories.rows), old(products.rows)), row, i, env)
  {
    var found := FindOrCreateCategory(categories.rows, Cell(row, CatalogueColumn), env.categoryIdFor(i));
    categories.rows := found.1;
    next := results;
    var id := Cell(row, "ID");
    if id != "" {
      if FindProduct(products.rows, id).Some? {
        products.rows := Filter(products.rows, (p: Product) => OtherId(id, p));
        next := next.(replaced := next.replaced + 1);
      } else {
        next := next.(created := next.created + 1);
      }
      products.rows := products.rows + [Imported(row, id, found.0.id, env)];
    } else {
      products.rows := products.rows + [Imported(row, env.productIdFor(i), found.0.id, env)];
      next := next.(created := next.created + 1);
    }
    next := next.(success := next.success + 1);
  }

  /** One pass of the loop: a row with missing fields is reported, a complete one imported. */
  method ProcessRow(categories: CategoryTable, products: ProductTable, results: Results, row: SheetRow, i: nat, env: Env)
    returns (next: Results)
    modifies categories, products
    ensures (next, Store(categories.rows, products.rows)) ==
            Step((results, Store(old(categories.rows), old(products.rows))), row, i, env)
  {
    var missing := MissingFields(row);
    if missing != [] {
      next := results.(failed := results.failed + 1, errors := results.errors + [SkippedMessage(missing)]);
    } else {
      next := ImportRow(categories, products, results, row, i, env);
    }
  }

  lemma RunOneMore(rows: seq<SheetRow>, i: nat, start: Store, env: Env)
    requires i < |rows|
    ensures Run(rows[..i + 1], start, env) == Step(Run(rows[..i], start, env), rows[i], i, env)
  {
    assert rows[..i + 1][..i] == rows[..i];
  }

  /** The handler; `body` is `None` when `products` is absent or not an array. */
  method Import(categories: CategoryTable, products: ProductTable, body: Option<seq<SheetRow>>, env: Env)
    returns (r: Response<Summary>)
    modifies categories, products
    ensures body.None? ==> r == Err(400, "Неверный формат данных") &&
                           categories.rows == old(categories.rows) && products.rows == old(products.rows)
    ensures body.Some? ==>
              var out := Run(body.value, Store(old(categories.rows), old(products.rows)), env);
              r == Ok(200, Summary(Message(out.0), out.0)) &&
              categories.rows == out.1.categories && products.rows == out.1.products
  {
    if body.None? {
      return Err(400, "Неверный формат данных");
    }
    var rows := body.value;
    var start := Store(categories.rows, products.rows);
    var results := NoResults;
    var i := 0;
    while i < |rows|
      invariant 0 <= i <= |rows|
      invariant (results, Store(categories.rows, products.rows)) == Run(rows[..i], start, env)
    {
      RunOneMore(rows, i, start, env);
      results := ProcessRow(categories, products, results, rows[i], i, env);
      i := i + 1;
    }
    assert rows[..i] == rows;
    r := Ok(200, Summary(Message(results), results));
  }
}
