/**
 * The relational schema the handlers read and write, with each table held in memory:
 * rows as datatypes, tables as objects whose `rows` field the handlers reassign.
 * Ids the database generates are passed to the handlers as parameters.
 */
module Schema {
  import opened Wrappers

  /** A `settings` row: site settings, admin credentials and the bot token share this table. */
  datatype Setting = Setting(
    id: string,
    loginAdmin: Option<string>,
    passwordAdmin: Option<string>,
    telegramKey: Option<string>,
    description: Option<string>,
    isSecure: bool,
    createdAt: int)

  /** A `twoFactorSession` row; the table maps each session id to one of these. */
  datatype Session = Session(phone: string, code: string, expiresAt: int)

  datatype Role = Admin | Client

  datatype User = User(
    id: string,
    name: string,
    email: string,
    phone: Option<string>,
    passwordHash: string,
    role: Role,
    createdAt: int)

  datatype Category = Category(id: string, name: string, kind: string, description: Option<string>)

  /** A `products` row; money and stock are integers. */
  datatype Product = Product(
    id: string,
    name: string,
    description: Option<string>,
    price: int,
    stock: int,
    imageUrl: Option<string>,
    categoryId: string,
    createdAt: int)

  datatype OrderItem = OrderItem(productId: string, quantity: int, price: int)

  datatype Order = Order(
    id: string,
    userId: string,
    status: string,
    totalPrice: int,
    items: seq<OrderItem>,
    createdAt: int)

  datatype Delivery = Delivery(orderId: string, address: string, status: string)

  datatype Notification = Notification(title: string, message: string, kind: string, isRead: bool)

  class SettingTable { var rows: seq<Setting> }
  class SessionTable { var rows: map<string, Session> }
  class UserTable { var rows: seq<User> }
  class CategoryTable { var rows: seq<Category> }
  class ProductTable { var rows: seq<Product> }
  class OrderTable { var rows: seq<Order> }
  class DeliveryTable { var rows: seq<Delivery> }
  class NotificationTable { var rows: seq<Notification> }

  // ---------------------------------------------------------------- findFirst

  /** `findFirst`: the first row satisfying `p`, if any. */
  function First<T>(rows: seq<T>, p: T -> bool): (r: Option<T>)
    ensures r.None? <==> forall i :: 0 <= i < |rows| ==> !p(rows[i])
    ensures r.Some? ==> exists i :: 0 <= i < |rows| && rows[i] == r.value && p(r.value) &&
                                    forall j :: 0 <= j < i ==> !p(rows[j])
  {
    if rows == [] then None
    else if p(rows[0]) then Some(rows[0])
    else
      var r := First(rows[1..], p);
      assert r.Some? ==> exists i :: 0 <= i < |rows[1..]| && rows[1..][i] == r.value &&
                                     forall j :: 0 <= j < i ==> !p(rows[1..][j]);
      r
  }

  /** A row holding admin credentials: both columns are non-null. */
  predicate HasCredentials(s: Setting) { s.loginAdmin.Some? && s.passwordAdmin.Some? }

  /** `findFirst({ where: { login_admin: { not: null }, password_admin: { not: null } } })`. */
  function FirstAdmin(rows: seq<Setting>): Option<Setting> {
    First(rows, HasCredentials)
  }

  predicate HasTelegramKey(s: Setting) { s.telegramKey.Some? }

  /** `findFirst({ where: { telegram_key: { not: null } } })`. */
  function FirstWithTelegramKey(rows: seq<Setting>): Option<Setting> {
    First(rows, HasTelegramKey)
  }

  /** `user.findUnique({ where: { email } })`. */
  function FindUserByEmail(rows: seq<User>, email: string): Option<User> {
    First(rows, (u: User) => u.email == email)
  }

  function FindUser(rows: seq<User>, id: string): Option<User> {
    First(rows, (u: User) => u.id == id)
  }

  /** `product.findUnique({ where: { id } })`. */
  function FindProduct(rows: seq<Product>, id: string): Option<Product> {
    First(rows, (p: Product) => p.id == id)
  }

  function FindCategory(rows: seq<Category>, id: string): Option<Category> {
    First(rows, (c: Category) => c.id == id)
  }

  function FindCategoryByName(rows: seq<Category>, name: string): Option<Category> {
    First(rows, (c: Category) => c.name == name)
  }
}
