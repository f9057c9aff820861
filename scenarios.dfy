/** Client code of the cart proxy. The first group follows tests/test_proxy.py test by
    test, with the test's `_create_item_in_db` helper as `Store.AddNewItem`; the methods
    under "Further scenarios" are not in the tests. */
module Scenarios {
  import opened Exceptions
  import opened Models
  import opened Proxy

  /** The `cart_proxy_anonuser` fixture (tests/test_proxy.py:35-40): an anonymous request
      with an empty session gets a fresh cart, whose id is then written into the session. */
  method AnonymousCartProxy() returns (store: Store, proxy: CartProxy, request: Request)
    ensures fresh(store) && proxy.store == store && proxy.Valid()
    ensures proxy.cart == 1 && store.carts == map[1 := FreshCart(None, 1)]
    ensures store.items == map[] && store.nextCartId == 2 && store.nextItemId == 1
    ensures request == Request(None, map[CART_ID := 1])
  {
    store := new Store();
    proxy := new CartProxy(store, Request(None, map[]), 1);
    request := Request(None, map[CART_ID := proxy.cart]);
  }

  /** tests/test_proxy.py:62-67. Clearing a second time is an extra step. */
  method CartClear(product: ProductRef) {
    var store, proxy, request := AnonymousCartProxy();
    var cart := CartProxy.GetCart(store, request, 2);
    assert cart == proxy.cart;
    var item := store.AddNewItem(cart, Item(2000, 12500, product));
    var empty := proxy.IsEmpty();
    assert !empty;
    proxy.ClearItems();
    empty := proxy.IsEmpty();
    assert empty;
    proxy.ClearItems();
    empty := proxy.IsEmpty();
    assert empty;
  }

  /** tests/test_proxy.py:71-74: one unit at 125.00 makes a cart total of 125.00. */
  method CartAddItem(product: ProductRef) {
    var store, proxy, request := AnonymousCartProxy();
    var added := proxy.AddItem(product, 12500, 1000);
    assert added == Success(1);
    var empty := proxy.IsEmpty();
    assert !empty;
    var lines := proxy.Items();
    assert lines == [Item(1000, 12500, product)];
    assert TotalPrice(lines) == ItemTotalPrice(lines[0]) + TotalPrice(lines[1..]);
    assert lines[1..] == [];
    assert TotalPrice(lines) == 125_00000;  // 125 at TOTAL_SCALE
  }

  /** tests/test_proxy.py:78-82. */
  method CartRemoveItem(product: ProductRef) {
    var store, proxy, request := AnonymousCartProxy();
    var cart := CartProxy.GetCart(store, request, 2);
    var item := store.AddNewItem(cart, Item(2000, 12500, product));
    var removed := proxy.RemoveItem(item);
    assert removed == Pass;
    var empty := proxy.IsEmpty();
    assert empty;
  }

  /** tests/test_proxy.py:86-91. */
  method ProxyGetItem(product: ProductRef) {
    var store, proxy, request := AnonymousCartProxy();
    var cart := CartProxy.GetCart(store, request, 2);
    var item := store.AddNewItem(cart, Item(2000, 12500, product));
    var copy := proxy.GetItem(item);
    assert copy == Success(store.items[item]);
    assert copy.value.quantity == 2000;
  }

  /** tests/test_proxy.py:95-99. */
  method ProxyCartCheckout(product: ProductRef) {
    var store, proxy, request := AnonymousCartProxy();
    var cart := CartProxy.GetCart(store, request, 2);
    var item := store.AddNewItem(cart, Item(2000, 12500, product));
    var done := proxy.Checkout();
    assert store.carts[proxy.cart].checkedOut;
  }

  /** tests/test_proxy.py:103-112: once checked out and the session cleared, an anonymous
      request gets a new, open cart. */
  method NewCartAfterCheckoutAnonUser() {
    var store, proxy, request := AnonymousCartProxy();
    var done := proxy.Checkout();
    assert store.carts[done].checkedOut;
    var proxy2 := new CartProxy(store, Request(None, map[]), 2);
    assert proxy2.cart != done && !store.carts[proxy2.cart].checkedOut;
  }

  /** tests/test_proxy.py:116-123, 143-148 and 152-159, which share their steps: a user
      who checks out gets a second, open cart on the next request; both count, and the
      second is the user's last cart. */
  method NewCartAfterCheckoutUser(user: UserId) {
    var store := new Store();
    var request := Request(Some(user), map[]);
    var proxy := new CartProxy(store, request, 1);
    assert store.carts == map[1 := FreshCart(Some(user), 1)];
    var first := proxy.Checkout();
    var checkedOut := Cart(Some(user), 1, true, []);
    assert store.carts == map[1 := checkedOut];

    var proxy2 := new CartProxy(store, request, 2);
    assert proxy2.cart == 2;
    assert store.carts == map[1 := checkedOut, 2 := FreshCart(Some(user), 2)];
    assert proxy2.cart != first && !store.carts[proxy2.cart].checkedOut;
    assert OwnedCarts(store.carts, user) == {1, 2};
    var n := CartProxy.NCarts(store, user);
    assert n == 2;

    assert IsOpenCartOf(store.carts, user, 2);
    var last := CartProxy.GetUserLastCart(store, user);
    assert last == Success(proxy2.cart);
  }

  /** tests/test_proxy.py:127-129. */
  method CartRemoveUnexistentItem() {
    var store, proxy, request := AnonymousCartProxy();
    var removed := proxy.RemoveItem(60);
    assert removed == Fail(ItemDoesNotExist);
  }

  /** tests/test_proxy.py:133-139: the quantity is set to 3, not raised by 3. */
  method CartUpdateItem(product: ProductRef) {
    var store, proxy, request := AnonymousCartProxy();
    var cart := CartProxy.GetCart(store, request, 2);
    var item := store.AddNewItem(cart, Item(2000, 12500, product));
    var empty := proxy.IsEmpty();
    assert !empty;
    assert store.items[item].quantity == 2000;
    var updated := proxy.UpdateItemQuantity(product, 3000);
    assert updated == Pass;
    var lines := proxy.Items();
    assert lines[0].quantity == 3000;
  }

  /** tests/test_proxy.py:163-165: a user with no cart has no last cart. */
  method GetUserUnexistentLastCart(user: UserId) {
    var store := new Store();
    var last := CartProxy.GetUserLastCart(store, user);
    assert last == Failure(CartDoesNotExist);
  }

  // ---------------------------------------------------------------------------
  // Further scenarios

  /** Adding the same product with quantities 2 and then 3 leaves one item of quantity 5,
      at the first unit price. */
  method AddSameProductTwice(product: ProductRef) {
    var store, proxy, request := AnonymousCartProxy();
    var first := proxy.AddItem(product, 12500, 2000);
    assert first == Success(1);
    var second := proxy.AddItem(product, 9900, 3000);
    assert second == first;
    assert store.carts[proxy.cart].items == [1];
    assert store.items[1] == Item(5000, 12500, product);
  }

  /** Updating the quantity of a product the cart does not hold reports it and creates
      no item. */
  method UpdateMissingProduct(product: ProductRef) {
    var store, proxy, request := AnonymousCartProxy();
    var updated := proxy.UpdateItemQuantity(product, 3000);
    assert updated == Fail(ItemDoesNotExist);
    assert store.items == map[];
  }

  /** `delete_user_last_cart` with no cart, one cart and two carts. */
  method DeleteUserLastCartOutcomes(user: UserId) {
    var store := new Store();
    var deleted := CartProxy.DeleteUserLastCart(store, user);
    assert deleted == Pass && store.carts == map[];

    var request := Request(Some(user), map[]);
    var proxy := new CartProxy(store, request, 1);
    assert store.carts == map[1 := FreshCart(Some(user), 1)];
    assert OwnedCarts(store.carts, user) == {1};
    deleted := CartProxy.DeleteUserLastCart(store, user);
    assert deleted == Pass && store.carts == map[];

    var first := CartProxy.NewCart(store, Some(user), 2);
    var second := CartProxy.NewCart(store, Some(user), 3);
    assert store.carts == map[2 := FreshCart(Some(user), 2), 3 := FreshCart(Some(user), 3)];
    assert OwnedCarts(store.carts, user) == {2, 3};
    deleted := CartProxy.DeleteUserLastCart(store, user);
    assert deleted == Fail(MultipleObjectsReturned);
  }
}
