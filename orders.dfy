/**
 * `POST /api/orders`: an order placed from the cart. The fields are checked, every line is
 * checked against the product's stock, the customer is found or registered, the order is stored
 * with its lines, the stock is decremented line by line, and a delivery and a notification are
 * recorded.
 */
module Orders {
  import opened Wrappers
  import opened Text
  import opened Http
  import opened Schema
  import opened Cart
  import opened Seqs

  datatype Placed = Placed(orderId: string, status: string, message: string)

  /** The tables the handler writes. */
  datatype Db = Db(
    products: seq<Product>,
    users: seq<User>,
    orders: seq<Order>,
    deliveries: seq<Delivery>,
    notifications: seq<Notification>)

  const MissingFields := "Не все обязательные поля заполнены"
  const Failed := "Ошибка создания заказа"

  function NotFound(id: string): string {
    "Товар с ID " + id + " не найден"
  }

  function Shortage(p: Product, item: CartItem): string {
    "Недостаточно товара \"" + p.name + "\" на складе. Доступно: " + IntToString(p.stock) +
    ", запрошено: " + IntToString(item.quantity)
  }

  /** The check of one line against the stock as it was before the order. */
  function LineProblem(products: seq<Product>, item: CartItem): (r: Option<string>)
    ensures r.None? <==> FindProduct(products, item.id).Some? && FindProduct(products, item.id).value.stock >= item.quantity
  {
    match FindProduct(products, item.id)
    case None => Some(NotFound(item.id))
    case Some(p) => if p.stock < item.quantity then Some(Shortage(p, item)) else None
  }

  /** The first line that fails the check, in order; `None` when every line passes. */
  function FirstStockError(products: seq<Product>, items: seq<CartItem>): (r: Option<string>)
    ensures r.None? <==> forall i :: 0 <= i < |items| ==> LineProblem(products, items[i]).None?
    ensures r.Some? ==> exists i :: 0 <= i < |items| && r == LineProblem(products, items[i]) &&
                                    forall j :: 0 <= j < i ==> LineProblem(products, items[j]).None?
  {
    FirstSome(items, (item: CartItem) => LineProblem(products, item))
  }

  /** The check loop: every line is compared with the stock as it stands, before any write. */
  method CheckStock(products: seq<Product>, items: seq<CartItem>) returns (problem: Option<string>)
    ensures problem == FirstStockError(products, items)
  {
    var i := 0;
    while i < |items|
      invariant 0 <= i <= |items|
      invariant forall j :: 0 <= j < i ==> LineProblem(products, items[j]).None?
      invariant FirstStockError(products, items) == FirstStockError(products, items[i..])
    {
      assert items[i..][1..] == items[i + 1..];
      problem := LineProblem(products, items[i]);
      if problem.Some? {
        return;
      }
      i := i + 1;
    }
    problem := None;
  }

  /** `product.update({ data: { stock: { decrement: q } } })` on the product with that id. */
  function DecrementOne(products: seq<Product>, item: CartItem): (r: seq<Product>)
    ensures |r| == |products|
    ensures forall k :: 0 <= k < |products| ==>
              r[k] == if products[k].id == item.id then products[k].(stock := products[k].stock - item.quantity)
                      else products[k]
  {
    seq(|products|, k requires 0 <= k < |products| =>
      if products[k].id == item.id then products[k].(stock := products[k].stock - item.quantity) else products[k])
  }

  /** The decrement loop over all lines, first to last. */
  function DecrementAll(products: seq<Product>, items: seq<CartItem>): (r: seq<Product>)
    ensures |r| == |products|
    ensures forall k :: 0 <= k < |products| ==> r[k].(stock := products[k].stock) == products[k]
    ensures forall k :: 0 <= k < |products| && (forall j :: 0 <= j < |items| ==> items[j].id != products[k].id) ==>
              r[k] == products[k]
    decreases |items|
  {
    if items == [] then products else DecrementAll(DecrementOne(products, items[0]), items[1..])
  }

  /** Each product loses exactly the sum of its lines' quantities; nothing else changes. */
  lemma {:induction false} DecrementAllStock(products: seq<Product>, items: seq<CartItem>, k: nat)
    requires k < |products|
    ensures DecrementAll(products, items)[k] ==
            products[k].(stock := products[k].stock - QuantityOf(items, products[k].id))
    decreases |items|
  {
    if items != [] {
      var once := DecrementOne(products, items[0]);
      DecrementAllStock(once, items[1..], k);
    }
  }

  method DecrementStock(products: ProductTable, items: seq<CartItem>)
    modifies products
    ensures products.rows == DecrementAll(old(products.rows), items)
  {
    var i := 0;
    while i < |items|
      invariant 0 <= i <= |items|
      invariant DecrementAll(products.rows, items[i..]) == DecrementAll(old(products.rows), items)
    {
      assert items[i..][1..] == items[i + 1..];
      products.rows := DecrementOne(products.rows, items[i]);
      i := i + 1;
    }
    assert items[i..] == [];
  }

  /** `customerEmail || customerPhone + '@temp.com'`. */
  function CustomerEmail(req: OrderRequest): (email: string)
    ensures req.customerEmail != "" ==> email == req.customerEmail
    ensures req.customerEmail == "" ==> email == req.customerPhone + "@temp.com"
  {
    if req.customerEmail != "" then req.customerEmail else req.customerPhone + "@temp.com"
  }

  /** The customer with that email, or a new client with the placeholder hash `temp`. */
  function Customer(users: seq<User>, req: OrderRequest, userId: string, now: int): (out: (User, seq<User>))
    ensures out.0.email == CustomerEmail(req)
    ensures FindUserByEmail(users, CustomerEmail(req)).Some? ==> out == (FindUserByEmail(users, CustomerEmail(req)).value, users)
    ensures FindUserByEmail(users, CustomerEmail(req)).None? ==>
              out.1 == users + [out.0] &&
              out.0 == User(userId, req.customerName, CustomerEmail(req), Some(req.customerPhone), "temp", Client, now)
  {
    var email := CustomerEmail(req);
    match FindUserByEmail(users, email)
    case Some(u) => (u, users)
    case None =>
      var u := User(userId, req.customerName, email, Some(req.customerPhone), "temp", Client, now);
      (u, users + [u])
  }

  /** The order's lines: product, quantity and the price the client sent. */
  function OrderLines(items: seq<CartItem>): (lines: seq<OrderItem>)
    ensures |lines| == |items|
    ensures forall i :: 0 <= i < |items| ==> lines[i] == OrderItem(items[i].id, items[i].quantity, items[i].price)
  {
    seq(|items|, i requires 0 <= i < |items| => OrderItem(items[i].id, items[i].quantity, items[i].price))
  }

  function NewOrderNotice(orderId: string, req: OrderRequest): (n: Notification)
    ensures n.title == "Новый заказ" && n.kind == "info" && !n.isRead
    ensures Contains(n.message, orderId) && Contains(n.message, IntToString(req.totalPrice) + "₽")
  {
    var head := "Поступил новый заказ #";
    var middle := " от " + req.customerName + " на сумму ";
    var total := IntToString(req.totalPrice) + "₽";
    var message := head + orderId + middle + total;
    assert OccursAt(message, orderId, |head|) by {
      assert message[|head|..|head| + |orderId|] == orderId;
    }
    assert OccursAt(message, total, |message| - |total|) by {
      assert message[|message| - |total|..] == total;
    }
    Notification("Новый заказ", message, "info", false)
  }

  predicate Incomplete(req: OrderRequest) {
    req.customerName == "" || req.customerPhone == "" || req.items == []
  }

  /** The handler on the tables; `userId` and `orderId` are the ids the database assigns. */
  function Outcome(db: Db, req: OrderRequest, userId: string, orderId: string, now: int): (out: (Response<Placed>, Db))
    ensures Incomplete(req) ==> out == (Err(400, MissingFields), db)
    ensures !Incomplete(req) && FirstStockError(db.products, req.items).Some? ==>
              out == (Err(400, FirstStockError(db.products, req.items).value), db)
    ensures out.0.Ok? <==> !Incomplete(req) && FirstStockError(db.products, req.items).None?
    ensures out.0.Ok? ==> out.0 == Ok(201, Placed(orderId, "success", "Заказ успешно создан"))
    ensures out.0.Ok? ==>
              var user := Customer(db.users, req, userId, now);
              && out.1.users == user.1
              && out.1.orders == db.orders + [Order(orderId, user.0.id, "NEW", req.totalPrice, OrderLines(req.items), now)]
              && out.1.products == DecrementAll(db.products, req.items)
              && out.1.deliveries == db.deliveries +
                   (if req.customerAddress != "" then [Delivery(orderId, req.customerAddress, "PENDING")] else [])
              && out.1.notifications == db.notifications + [NewOrderNotice(orderId, req)]
  {
    if Incomplete(req) then (Err(400, MissingFields), db)
    else match FirstStockError(db.products, req.items)
      case Some(problem) => (Err(400, problem), db)
      case None =>
        var (user, users) := Customer(db.users, req, userId, now);
        var order := Order(orderId, user.id, "NEW", req.totalPrice, OrderLines(req.items), now);
        var deliveries := if req.customerAddress != "" then [Delivery(orderId, req.customerAddress, "PENDING")] else [];
        (Ok(201, Placed(orderId, "success", "Заказ успешно создан")),
         Db(DecrementAll(db.products, req.items), users, db.orders + [order], db.deliveries + deliveries,
            db.notifications + [NewOrderNotice(orderId, req)]))
  }

  /** Every placed order produces exactly one notification; a refused one writes nothing. */
  lemma OneNotificationPerOrder(db: Db, req: OrderRequest, userId: string, orderId: string, now: int)
    ensures var out := Outcome(db, req, userId, orderId, now);
            |out.1.notifications| == |db.notifications| + (if out.0.Ok? then 1 else 0)
    ensures Outcome(db, req, userId, orderId, now).0.Err? ==> Outcome(db, req, userId, orderId, now).1 == db
  {
  }

  predicate UniqueIds(products: seq<Product>) {
    forall i, j :: 0 <= i < j < |products| ==> products[i].id != products[j].id
  }

  predicate DistinctLines(items: seq<CartItem>) {
    forall i, j :: 0 <= i < j < |items| ==> items[i].id != items[j].id
  }

  /** With one line per product the check is sound: no stock goes below zero. */
  lemma {:induction false} DistinctLinesNeverOversell(products: seq<Product>, items: seq<CartItem>, k: nat)
    requires UniqueIds(products) && DistinctLines(items) && k < |products| && products[k].stock >= 0
    requires FirstStockError(products, items).None?
    ensures DecrementAll(products, items)[k].stock >= 0
  {
    DecrementAllStock(products, items, k);
    var id := products[k].id;
    if exists i :: 0 <= i < |items| && items[i].id == id {
      var i :| 0 <= i < |items| && items[i].id == id;
      assert LineProblem(products, items[i]).None?;
      assert FindProduct(products, id).value == products[k] by {
        var p := FindProduct(products, id).value;
        var m :| 0 <= m < |products| && products[m] == p && p.id == id;
        assert m == k;
      }
      QuantityOfSingle(items, i);
    } else {
      QuantityOfAbsent(items, id);
    }
  }

  /** A product with exactly one line has that line's quantity. */
  lemma {:induction false} QuantityOfSingle(items: seq<CartItem>, i: nat)
    requires DistinctLines(items) && i < |items|
    ensures QuantityOf(items, items[i].id) == items[i].quantity
  {
    if i == 0 {
      QuantityOfAbsent(items[1..], items[0].id);
    } else {
      assert items[1..][i - 1] == items[i];
      QuantityOfSingle(items[1..], i - 1);
    }
  }

  lemma {:induction false} QuantityOfAbsent(items: seq<CartItem>, id: string)
    requires forall i :: 0 <= i < |items| ==> items[i].id != id
    ensures QuantityOf(items, id) == 0
  {
    if items != [] {
      QuantityOfAbsent(items[1..], id);
    }
  }

  /**
   * The check compares each line with the stock before the order, not with what earlier lines
   * of the same order take: two lines of one unit each pass the check on a stock of one unit,
   * and the stock ends at -1.
   */
  lemma DuplicateLinesOversell()
    ensures var products := [Product("p", "Ноутбук", None, 100, 1, None, "c", 0)];
            var items := [CartItem("p", "Ноутбук", 100, 1, None), CartItem("p", "Ноутбук", 100, 1, None)];
            FirstStockError(products, items).None? && DecrementAll(products, items)[0].stock == -1
  {
    var products := [Product("p", "Ноутбук", None, 100, 1, None, "c", 0)];
    var items := [CartItem("p", "Ноутбук", 100, 1, None), CartItem("p", "Ноутбук", 100, 1, None)];
    assert FindProduct(products, "p") == Some(products[0]);
    assert LineProblem(products, items[0]).None? && LineProblem(products, items[1]).None?;
    DecrementAllStock(products, items, 0);
    assert items[1..][1..] == [];
  }

  /** `POST /api/orders`. */
  method Post(products: ProductTable, users: UserTable, orders: OrderTable, deliveries: DeliveryTable,
              notifications: NotificationTable, req: OrderRequest, userId: string, orderId: string, now: int)
    returns (r: Response<Placed>)
    modifies products, users, orders, deliveries, notifications
    ensures (r, Db(products.rows, users.rows, orders.rows, deliveries.rows, notifications.rows)) ==
            Outcome(Db(old(products.rows), old(users.rows), old(orders.rows), old(deliveries.rows),
                       old(notifications.rows)), req, userId, orderId, now)
  {
    ghost var db := Db(products.rows, users.rows, orders.rows, deliveries.rows, notifications.rows);
    if Incomplete(req) {
      return Err(400, MissingFields);
    }
    var problem := CheckStock(products.rows, req.items);
    if problem.Some? {
      return Err(400, problem.value);
    }
    var user: User;
    var found := FindUserByEmail(users.rows, CustomerEmail(req));
    if found.Some? {
      user := found.value;
    } else {
      user := User(userId, req.customerName, CustomerEmail(req), Some(req.customerPhone), "temp", Client, now);
      users.rows := users.rows + [user];
    }
    assert (user, users.rows) == Customer(db.users, req, userId, now);
    orders.rows := orders.rows + [Order(orderId, user.id, "NEW", req.totalPrice, OrderLines(req.items), now)];
    DecrementStock(products, req.items);
    if req.customerAddress != "" {
      deliveries.rows := deliveries.rows + [Delivery(orderId, req.customerAddress, "PENDING")];
    }
    notifications.rows := notifications.rows + [NewOrderNotice(orderId, req)];
    r := Ok(201, Placed(orderId, "success", "Заказ успешно создан"));
    ghost var out := Outcome(db, req, userId, orderId, now);
    assert out.0 == r;
    assert out.1.users == users.rows;
    assert out.1.orders == orders.rows;
    assert out.1.products == products.rows;
    assert out.1.deliveries == deliveries.rows;
    assert out.1.notifications == notifications.rows;
  }
}
