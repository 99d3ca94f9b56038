/**
 * The shopping cart page. The cart is a list of items kept in the browser's storage under the
 * key `cart`; every change is written back there. Prices and quantities are integers.
 */
module Cart {
  import opened Wrappers
  import opened Seqs

  datatype CartItem = CartItem(id: string, name: string, price: int, quantity: int, image: Option<string>)

  /** The items with quantity `q` on every item whose id is `id`. */
  function WithQuantity(items: seq<CartItem>, id: string, q: int): (r: seq<CartItem>)
    ensures |r| == |items|
    ensures forall i :: 0 <= i < |items| && items[i].id == id ==> r[i] == items[i].(quantity := q)
    ensures forall i :: 0 <= i < |items| && items[i].id != id ==> r[i] == items[i]
  {
    seq(|items|, i requires 0 <= i < |items| => if items[i].id == id then items[i].(quantity := q) else items[i])
  }

  predicate OtherId(id: string, item: CartItem) { item.id != id }

  /** `removeItem`'s list: every item with that id dropped, the rest in order. */
  function Without(items: seq<CartItem>, id: string): (r: seq<CartItem>)
    ensures forall i :: 0 <= i < |r| ==> r[i].id != id && r[i] in items
    ensures forall i :: 0 <= i < |items| && items[i].id != id ==> items[i] in r
    ensures IsSubsequence(r, items)
  {
    FilterIsSubsequence(items, (item: CartItem) => OtherId(id, item));
    Filter(items, (item: CartItem) => OtherId(id, item))
  }

  /** `updateQuantity`'s list. */
  function Updated(items: seq<CartItem>, id: string, q: int): (r: seq<CartItem>)
    ensures forall i :: 0 <= i < |r| ==> r[i].quantity > 0 || r[i] in items
    ensures forall i :: 0 <= i < |r| && r[i].id == id ==> r[i].quantity == q
    ensures q > 0 ==> |r| == |items|
    ensures q <= 0 ==> forall i :: 0 <= i < |r| ==> r[i].id != id
  {
    if q <= 0 then Without(items, id) else WithQuantity(items, id, q)
  }

  /** Every line has a price and a quantity that are not negative. */
  predicate NonNegativeLines(items: seq<CartItem>) {
    forall i :: 0 <= i < |items| ==> items[i].price >= 0 && items[i].quantity >= 0
  }

  /** `totalAmount`: the sum of price × quantity. */
  function TotalAmount(items: seq<CartItem>): int
  {
    if items == [] then 0 else items[0].price * items[0].quantity + TotalAmount(items[1..])
  }

  /** `totalItems`: the sum of quantities. */
  function TotalItems(items: seq<CartItem>): int
  {
    if items == [] then 0 else items[0].quantity + TotalItems(items[1..])
  }

  /** With no negative price or quantity neither total is negative. */
  lemma {:induction false} TotalsNonNegative(items: seq<CartItem>)
    requires NonNegativeLines(items)
    ensures TotalAmount(items) >= 0 && TotalItems(items) >= 0
  {
    if items != [] {
      assert NonNegativeLines(items[1..]) by {
        forall i | 0 <= i < |items[1..]| ensures items[1..][i] == items[i + 1] { }
      }
      TotalsNonNegative(items[1..]);
    }
  }

  /** When every line holds at least one unit, the cart holds at least as many items as lines. */
  lemma {:induction false} TotalItemsAtLeastLines(items: seq<CartItem>)
    requires forall i :: 0 <= i < |items| ==> items[i].quantity >= 1
    ensures TotalItems(items) >= |items|
  {
    if items != [] {
      assert forall i :: 0 <= i < |items[1..]| ==> items[1..][i] == items[i + 1];
      TotalItemsAtLeastLines(items[1..]);
    }
  }

  lemma {:induction false} TotalsAppend(a: seq<CartItem>, b: seq<CartItem>)
    ensures TotalItems(a + b) == TotalItems(a) + TotalItems(b)
    ensures TotalAmount(a + b) == TotalAmount(a) + TotalAmount(b)
  {
    if a == [] {
      assert a + b == b;
    } else {
      assert (a + b)[1..] == a[1..] + b;
      TotalsAppend(a[1..], b);
    }
  }

  /** Replacing one item changes the totals by the difference it makes. */
  lemma TotalsUpdateAt(items: seq<CartItem>, i: nat, item: CartItem)
    requires i < |items|
    ensures TotalItems(items[i := item]) == TotalItems(items) - items[i].quantity + item.quantity
    ensures TotalAmount(items[i := item]) ==
            TotalAmount(items) - items[i].price * items[i].quantity + item.price * item.quantity
  {
    assert items == items[..i] + [items[i]] + items[i + 1..];
    assert items[i := item] == items[..i] + [item] + items[i + 1..];
    TotalsAppend(items[..i] + [items[i]], items[i + 1..]);
    TotalsAppend(items[..i], [items[i]]);
    TotalsAppend(items[..i] + [item], items[i + 1..]);
    TotalsAppend(items[..i], [item]);
  }

  /** Removing a product takes exactly its lines out of the item count. */
  lemma {:induction false} TotalItemsWithout(items: seq<CartItem>, id: string)
    ensures TotalItems(Without(items, id)) == TotalItems(items) - QuantityOf(items, id)
  {
    if items != [] {
      TotalItemsWithout(items[1..], id);
      assert Without(items, id) ==
             (if items[0].id != id then [items[0]] else []) + Without(items[1..], id);
      TotalsAppend(if items[0].id != id then [items[0]] else [], Without(items[1..], id));
    }
  }

  /** How many units of product `id` the cart holds, over all its lines. */
  function QuantityOf(items: seq<CartItem>, id: string): int {
    if items == [] then 0 else (if items[0].id == id then items[0].quantity else 0) + QuantityOf(items[1..], id)
  }

  /** A quantity of zero or less is the same as removing the product. */
  lemma NonPositiveQuantityRemoves(items: seq<CartItem>, id: string, q: int)
    requires q <= 0
    ensures Updated(items, id, q) == Without(items, id)
  {
  }

  /** The browser's storage, as far as the cart is concerned: the list under `cart`, if any. */
  class Storage {
    var cart: Option<seq<CartItem>>

    constructor()
      ensures cart == None
    {
      cart := None;
    }
  }

  /** The order request the page posts: the form fields, the items and their total. */
  datatype OrderRequest = OrderRequest(
    customerName: string,
    customerEmail: string,
    customerPhone: string,
    customerAddress: string,
    items: seq<CartItem>,
    totalPrice: int)

  datatype OrderForm = OrderForm(customerName: string, customerEmail: string, customerPhone: string, customerAddress: string)

  const EmptyForm := OrderForm("", "", "", "")

  class CartPage {
    var cartItems: seq<CartItem>
    var orderData: OrderForm
    var showOrderForm: bool
    const storage: Storage

    /** The page as mounted: the stored cart, or an empty one. */
    constructor(storage: Storage)
      ensures this.storage == storage
      ensures cartItems == storage.cart.GetOr([]) && orderData == EmptyForm && !showOrderForm
    {
      this.storage := storage;
      cartItems := storage.cart.GetOr([]);
      orderData := EmptyForm;
      showOrderForm := false;
    }

    /** Every stored change writes the same list to the page and to storage. */
    ghost predicate Saved()
      reads this, storage
    {
      storage.cart == Some(cartItems)
    }

    /** `saveCart`. */
    method SaveCart(items: seq<CartItem>)
      modifies this, storage
      ensures cartItems == items && Saved()
      ensures orderData == old(orderData) && showOrderForm == old(showOrderForm)
    {
      cartItems := items;
      storage.cart := Some(items);
    }

    /** `updateQuantity`. */
    method UpdateQuantity(id: string, q: int)
      modifies this, storage
      ensures cartItems == Updated(old(cartItems), id, q) && Saved()
      ensures orderData == old(orderData) && showOrderForm == old(showOrderForm)
    {
      if q <= 0 {
        RemoveItem(id);
        return;
      }
      SaveCart(WithQuantity(cartItems, id, q));
    }

    /** `removeItem`. */
    method RemoveItem(id: string)
      modifies this, storage
      ensures cartItems == Without(old(cartItems), id) && Saved()
      ensures orderData == old(orderData) && showOrderForm == old(showOrderForm)
    {
      SaveCart(Without(cartItems, id));
    }

    /** `clearCart`. */
    method ClearCart()
      modifies this, storage
      ensures cartItems == [] && Saved() && TotalAmount(cartItems) == 0 && TotalItems(cartItems) == 0
      ensures orderData == old(orderData) && showOrderForm == old(showOrderForm)
    {
      SaveCart([]);
    }

    /**
     * `handleCreateOrder`: posts the cart with its total. `ok` is `response.ok`; on success the
     * cart, its storage key and the form are cleared, otherwise nothing changes.
     */
    method CreateOrder(ok: bool) returns (request: OrderRequest)
      modifies this, storage
      ensures request == OrderRequest(old(orderData).customerName, old(orderData).customerEmail,
                                      old(orderData).customerPhone, old(orderData).customerAddress,
                                      old(cartItems), TotalAmount(old(cartItems)))
      ensures ok ==> cartItems == [] && storage.cart == None && orderData == EmptyForm && !showOrderForm
      ensures !ok ==> cartItems == old(cartItems) && storage.cart == old(storage.cart) &&
                      orderData == old(orderData) && showOrderForm == old(showOrderForm)
    {
      request := OrderRequest(orderData.customerName, orderData.customerEmail, orderData.customerPhone,
                              orderData.customerAddress, cartItems, TotalAmount(cartItems));
      if ok {
        storage.cart := None;
        cartItems := [];
        showOrderForm := false;
        orderData := EmptyForm;
      }
    }
  }
}
