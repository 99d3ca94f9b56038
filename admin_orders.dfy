/**
 * `/api/admin/orders`: the back-office order list (newest first, one summary line per order)
 * and manual order entry, which finds the customer by email or registers them.
 */
module AdminOrders {
  import opened Wrappers
  import opened Text
  import opened Http
  import opened Schema
  import opened Sorting

  /** One line of the order list. */
  datatype OrderLine = OrderLine(
    customer: string,
    email: string,
    phone: string,
    total: int,
    status: string,
    date: string,
    items: nat)

  /** `orderBy: { created_at: 'desc' }`. */
  predicate NewerOrder(a: Order, b: Order) { a.createdAt >= b.createdAt }

  lemma NewerOrderIsPreorder()
    ensures TotalPreorder(NewerOrder)
  {
  }

  /** `toISOString().split('T')[0]`: the text before the first `T`. */
  function DatePart(iso: string): (d: string)
    ensures 'T' !in d && StartsWith(iso, d)
    ensures |d| < |iso| ==> iso[|d|] == 'T'
  {
    SplitFirstPart(iso, 'T');
    Split(iso, 'T')[0]
  }

  /** For an ISO timestamp `YYYY-MM-DD` + `T` + time, the date part is exactly `YYYY-MM-DD`. */
  lemma DatePartOfIso(day: string, time: string)
    requires 'T' !in day
    ensures DatePart(day + "T" + time) == day
  {
    assert day + "T" + time == day + ['T'] + time;
    SplitAtSeparator(day, time, 'T');
    SplitNoSeparator(day, 'T');
  }

  /** The mapping of one order and its customer; `iso` is `Date.prototype.toISOString`. */
  function ToLine(o: Order, u: User, iso: int -> string): (l: OrderLine)
    ensures l.customer == u.name && l.email == u.email && l.total == o.totalPrice && l.items == |o.items|
    ensures l.status == Lower(o.status)
    ensures u.phone.None? ==> l.phone == ""
    ensures l.date == DatePart(iso(o.createdAt))
  {
    OrderLine(u.name, u.email, u.phone.GetOr(""), o.totalPrice, Lower(o.status), DatePart(iso(o.createdAt)), |o.items|)
  }

  predicate HasCustomer(users: seq<User>, o: Order) { FindUser(users, o.userId).Some? }

  /** Every order, newest first. */
  function Newest(orders: seq<Order>): (r: seq<Order>)
    ensures SortedBy(NewerOrder, r) && multiset(r) == multiset(orders) && |r| == |orders|
  {
    NewerOrderIsPreorder();
    var r := SortBy(NewerOrder, orders);
    assert |multiset(r)| == |r|;
    r
  }

  /**
   * `GET`: every order, newest first. An order whose customer row is missing makes the mapping
   * throw, and the handler answers 500.
   */
  function Get(orders: seq<Order>, users: seq<User>, iso: int -> string): (r: Response<seq<OrderLine>>)
    ensures r.Ok? <==> forall i :: 0 <= i < |orders| ==> HasCustomer(users, orders[i])
    ensures r.Ok? ==> r.status == 200 && |r.value| == |orders| &&
                      forall i :: 0 <= i < |orders| ==>
                        HasCustomer(users, Newest(orders)[i]) &&
                        r.value[i] == ToLine(Newest(orders)[i], FindUser(users, Newest(orders)[i].userId).value, iso)
  {
    if exists i :: 0 <= i < |orders| && !HasCustomer(users, orders[i]) then
      Err(500, "Ошибка получения заказов")
    else
      NewestKeepsCustomers(orders, users);
      Ok(200, Lines(Newest(orders), users, iso))
  }

  /** Sorting loses no order, so every sorted order still has its customer. */
  lemma NewestKeepsCustomers(orders: seq<Order>, users: seq<User>)
    requires forall i :: 0 <= i < |orders| ==> HasCustomer(users, orders[i])
    ensures forall i :: 0 <= i < |Newest(orders)| ==> HasCustomer(users, Newest(orders)[i])
  {
    var sorted := Newest(orders);
    forall i | 0 <= i < |sorted|
      ensures HasCustomer(users, sorted[i])
    {
      assert sorted[i] in multiset(orders);
    }
  }

  /** One line per order, in the given order. */
  function Lines(sorted: seq<Order>, users: seq<User>, iso: int -> string): (r: seq<OrderLine>)
    requires forall i :: 0 <= i < |sorted| ==> HasCustomer(users, sorted[i])
    ensures |r| == |sorted|
    ensures forall i :: 0 <= i < |sorted| ==>
              HasCustomer(users, sorted[i]) && r[i] == ToLine(sorted[i], FindUser(users, sorted[i].userId).value, iso)
  {
    seq(|sorted|, i requires 0 <= i < |sorted| =>
      assert HasCustomer(users, sorted[i]);
      ToLine(sorted[i], FindUser(users, sorted[i].userId).value, iso))
  }

  /**
   * The POST body. `None` stands for an absent field: Prisma refuses a lookup by an absent
   * email and an insert of a user without a name, `status.toUpperCase()` throws on an absent
   * status, and an absent total cannot be stored.
   */
  datatype NewOrder = NewOrder(
    customerName: Option<string>,
    customerEmail: Option<string>,
    customerPhone: Option<string>,
    status: Option<string>,
    total: Option<int>)

  datatype Created = Created(orderId: string, message: string)

  /**
   * The customer with that email, or a new client with a placeholder password hash; None when
   * a new client is needed but the body has no name, so the insert fails.
   */
  function Customer(users: seq<User>, body: NewOrder, email: string, userId: string, now: int)
    : (out: Option<(User, seq<User>)>)
    ensures out.Some? ==> out.value.0.email == email
    ensures FindUserByEmail(users, email).Some? ==> out == Some((FindUserByEmail(users, email).value, users))
    ensures FindUserByEmail(users, email).None? ==> (out.Some? <==> body.customerName.Some?)
    ensures FindUserByEmail(users, email).None? && out.Some? ==>
              out.value.1 == users + [out.value.0] && out.value.0.role == Client &&
              out.value.0.passwordHash == "temp_hash" && out.value.0.id == userId &&
              out.value.0.name == body.customerName.value && out.value.0.phone == body.customerPhone
  {
    match FindUserByEmail(users, email)
    case Some(u) => Some((u, users))
    case None =>
      if body.customerName.None? then None
      else
        var u := User(userId, body.customerName.value, email, body.customerPhone, "temp_hash", Client, now);
        Some((u, users + [u]))
  }

  /**
   * `POST` on the users and orders tables; `userId` and `orderId` are the ids the database
   * assigns. The customer is written before the order, so a request that fails on the status or
   * the total still leaves a new customer behind.
   */
  function Outcome(users: seq<User>, orders: seq<Order>, body: NewOrder, userId: string, orderId: string, now: int)
    : (out: (Response<Created>, seq<User>, seq<Order>))
    ensures out.0.Ok? <==> body.customerEmail.Some? &&
                           Customer(users, body, body.customerEmail.value, userId, now).Some? &&
                           body.status.Some? && body.total.Some?
    ensures out.0.Err? ==> out.0 == Err(500, "Ошибка создания заказа") && out.2 == orders
    ensures body.customerEmail.None? ==> out.1 == users
    ensures body.customerEmail.Some? && Customer(users, body, body.customerEmail.value, userId, now).None? ==>
              out.1 == users
    ensures body.customerEmail.Some? && Customer(users, body, body.customerEmail.value, userId, now).Some? ==>
              out.1 == Customer(users, body, body.customerEmail.value, userId, now).value.1
    ensures out.0.Ok? ==>
              out.0 == Ok(201, Created(orderId, "Заказ успешно создан")) &&
              out.2 == orders + [Order(orderId, Customer(users, body, body.customerEmail.value, userId, now).value.0.id,
                                       Upper(body.status.value), body.total.value, [], now)]
  {
    if body.customerEmail.None? then (Err(500, "Ошибка создания заказа"), users, orders)
    else match Customer(users, body, body.customerEmail.value, userId, now)
      case None => (Err(500, "Ошибка создания заказа"), users, orders)
      case Some((user, users')) =>
        if body.status.None? || body.total.None? then (Err(500, "Ошибка создания заказа"), users', orders)
        else
          var order := Order(orderId, user.id, Upper(body.status.value), body.total.value, [], now);
          (Ok(201, Created(orderId, "Заказ успешно создан")), users', orders + [order])
  }

  /** A new customer without a name writes nothing at all: the insert fails before the order. */
  lemma NamelessNewCustomerWritesNothing(users: seq<User>, orders: seq<Order>, body: NewOrder, userId: string,
                                         orderId: string, now: int)
    requires body.customerEmail.Some? && FindUserByEmail(users, body.customerEmail.value).None?
    requires body.customerName.None?
    ensures Outcome(users, orders, body, userId, orderId, now) == (Err(500, "Ошибка создания заказа"), users, orders)
  {
  }

  /** A known email never registers a second customer. */
  lemma KnownEmailAddsNoUser(users: seq<User>, orders: seq<Order>, body: NewOrder, userId: string, orderId: string,
                             now: int)
    requires body.customerEmail.Some? && FindUserByEmail(users, body.customerEmail.value).Some?
    ensures Outcome(users, orders, body, userId, orderId, now).1 == users
  {
  }

  /** Registering a customer never duplicates an email that was unique before. */
  lemma EmailsStayUnique(users: seq<User>, orders: seq<Order>, body: NewOrder, userId: string, orderId: string, now: int)
    requires forall i, j :: 0 <= i < j < |users| ==> users[i].email != users[j].email
    ensures var users' := Outcome(users, orders, body, userId, orderId, now).1;
            forall i, j :: 0 <= i < j < |users'| ==> users'[i].email != users'[j].email
  {
  }

  method Post(users: UserTable, orders: OrderTable, body: NewOrder, userId: string, orderId: string, now: int)
    returns (r: Response<Created>)
    modifies users, orders
    ensures (r, users.rows, orders.rows) == Outcome(old(users.rows), old(orders.rows), body, userId, orderId, now)
  {
    if body.customerEmail.None? {
      return Err(500, "Ошибка создания заказа");
    }
    var user: User;
    var found := FindUserByEmail(users.rows, body.customerEmail.value);
    if found.Some? {
      user := found.value;
    } else {
      if body.customerName.None? {
        return Err(500, "Ошибка создания заказа");
      }
      user := User(userId, body.customerName.value, body.customerEmail.value, body.customerPhone, "temp_hash", Client, now);
      users.rows := users.rows + [user];
    }
    if body.status.None? || body.total.None? {
      return Err(500, "Ошибка создания заказа");
    }
    orders.rows := orders.rows + [Order(orderId, user.id, Upper(body.status.value), body.total.value, [], now)];
    r := Ok(201, Created(orderId, "Заказ успешно создан"));
  }
}
