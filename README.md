# django-changuito cart core in Dafny

This project models the cart logic of django-changuito, a session- and user-scoped
shopping cart for Django.

- **Models** (`models.dfy`, changuito/models.py) holds the records. An item has a quantity,
  a unit price and a generic reference to the product. A cart has an owner, a creation
  date, a checked-out flag and a list of items.
  - The derived quantities are `is_empty`, the cart's `total_price` and `total_quantity`,
    and `Item.total_price`.
  - The database is modelled by `Store`, a class holding the cart table, the item table,
    the cart-to-item relation and the next free ids. `Item.update_quantity`,
    `update_price` and `update_contenttype` are methods of `Store` with frame conditions.
- **Proxy** (`proxy.dfy`, changuito/proxy.py) resolves the cart of a request
  (`get_cart`, `new_cart`). `CartProxy` is a class that holds the store and the id of
  its cart.
  - It changes the cart's items with `add_item`, `update_item_quantity`, `remove_item`,
    `get_item` and `clear_items`, and checks the cart out.
  - It answers questions about a user's carts: `get_user_last_cart`, `n_carts` and
    `delete_user_last_cart`.
- **Exceptions** (`exceptions.dfy`) holds the error kinds: the package's
  `ItemDoesNotExist` and `CartDoesNotExist`, and the ORM's `ObjectDoesNotExist` (a model's
  `DoesNotExist`) and `MultipleObjectsReturned`. changuito/exceptions.py
  is not part of this model. Its two exception names come from the imports of
  changuito/proxy.py.
- **Scenarios** (`scenarios.dfy`) holds client methods.
  - The first group follows the tests of tests/test_proxy.py one by one. The
    `cart_proxy_anonuser` fixture is a method of its own, and the tests' raw
    `_create_item_in_db` helper is `Store.AddNewItem`. `CartClear` clears twice, one
    step more than its test.
  - Three further scenarios are in no test: adding the same product twice, updating a
    product the cart does not hold, and `delete_user_last_cart` with zero, one and two
    carts.

Representation choices:
- Amounts are exact scaled integers. A quantity counts thousandths and a unit price
  counts hundredths (the `decimal_places` of the two `DecimalField`s). An item's total
  price is their product, which is exact at 5 decimal places.
- Ids are handed out from 1 upwards, as the database's auto-increment does. This matters
  because a session value of 0 is falsy, so the anonymous branch treats it as "no cart
  id".
- The clock (`timezone.now()`) is a caller-supplied `now: nat`.
- A request is its user (`None` when anonymous) and its session map.

Behaviours of the code that the model keeps as written:
- `delete_user_last_cart` runs `Cart.objects.get(user=user)` with no filter on
  `checked_out`. So it deletes the user's only cart, even one that is checked out.
  - With no cart it does nothing.
  - With two or more carts the lookup fails with `MultipleObjectsReturned`.
- Deleting a cart removes only its rows in the many-to-many relation. The item rows stay
  in the item table; there is no cascade delete of items.
- The anonymous branch looks the session's cart id up by id and `checked_out=False`
  only. It does not check the cart's owner.
- Writing the resolved cart id back into the session is done by the middleware, not by
  `get_cart`.
- Two places in `get_cart` fail outright (see "## Findings"). `Proxy.Resolve`,
  `CartProxy.GetCart` and `CartProxy.GetUserLastCart` use the corrected behaviour:
  - not-found outcomes are typed;
  - a cart owned by the request's user (`None` when anonymous) is created on a not-found
    outcome.

  This is the behaviour tests/test_proxy.py:116-123 and 163-165 expect.
- Resolution keeps the data model's invariant that an authenticated user has at most one
  cart that is not checked out (`Proxy.OneOpenCartPerUser`). A user's cart is created
  only when the user has no open cart. Checking out and deleting carts keep the
  invariant too.

## Model

| member | source | states |
|---|---|---|
| `Models.IsEmpty` | changuito/models.py:43-44 | `is_empty`: the cart lists no items; `Models.EmptyCartTotals` and `Proxy.CartProxy.IsEmpty` state its consequences |
| `Models.ItemTotalPrice` | changuito/models.py:83-85 | `Item.total_price` as the exact scaled product; `Models.ItemTotalPriceExact` states its decimal value |
| `Models.TotalPrice` | changuito/models.py:46-47 | `total_price`: the sum of the items' total prices; `Models.SumAppend`, `Models.SumPermutation` and the `Sum*` lemmas state how it changes |
| `Models.TotalQuantity` | changuito/models.py:49-50 | `total_quantity`: the sum of the items' quantities; same lemmas as `total_price` |
| `Models.FreshCart` | changuito/models.py:24-31 | a newly created cart has the given owner and creation date, is not checked out and is empty |
| `Models.DecimalProduct` | changuito/models.py:61-64 | multiplying a scale-m integer by a scale-n integer gives the exact product at scale m+n |
| `Models.Pow10Add` | changuito/models.py:61-64 | 10^(m+n) = 10^m · 10^n, the scale arithmetic behind exact products |
| `Models.ItemTotalPriceExact` | changuito/models.py:83-85 | an item's total price, read at 5 decimal places, is exactly quantity (3 places) times unit price (2 places) |
| `Models.ItemTotalPriceExample` | tests/test_models.py:71-74 | 4 units at 3.20 cost exactly 12.80 |
| `Models.SumAppend` | changuito/models.py:46-50 | a cart total over two groups of items is the sum of the two groups' totals |
| `Models.SumPermutation` | changuito/models.py:46-50 | a cart total is the same whatever order the cart's items are listed in |
| `Models.TotalsExample` | tests/test_models.py:57-69 | (125 × 2) + 100 = 350 for total_price, and 3 + 1 = 4 for total_quantity |
| `Models.EmptyCartTotals` | changuito/models.py:43-50 | a cart is empty exactly when it lists no items, and an empty cart has total price 0 and total quantity 0 |
| `Models.Lines` | changuito/models.py:30-31 | `cart.items.all()`: one item record per id of the cart, in order, each the stored record for that id |
| `Models.Without` | changuito/proxy.py:70 | the cart's id list after a delete holds exactly the other ids and still holds none twice |
| `Models.WithoutAbsent` | changuito/proxy.py:70 | deleting an id that is not in the list leaves the list as it was |
| `Models.SumReplace` | changuito/proxy.py:57-58 | changing one item of a cart changes any cart total by the new weight minus the old weight |
| `Models.SumWithout` | changuito/proxy.py:70 | deleting one item of a cart lowers any cart total by that item's weight |
| `Models.SumAddLine` | changuito/proxy.py:60-65 | attaching a new item raises any cart total by the new item's weight |
| `Models.Store.CreateCart` | changuito/proxy.py:50 | `Cart.objects.create`: the cart is stored under the next id, and nothing else changes |
| `Models.Store.DeleteCarts` | changuito/proxy.py:101-102 | `cart.delete()`: exactly those carts leave the cart table; item rows stay |
| `Models.Store.AddNewItem` | changuito/proxy.py:60-65 | `Item.objects.create` + `cart.items.add`: a new item under the next id, appended to that cart only |
| `Models.Store.DeleteItem` | changuito/proxy.py:70 | `item.delete()`: the item row and its relation row go, and other carts are unchanged |
| `Models.Store.UpdateQuantity` | changuito/models.py:87-89 | sets the quantity, keeps the unit price and product, and changes no other item or cart |
| `Models.Store.UpdatePrice` | changuito/models.py:91-93 | sets the unit price, keeps the quantity and product, and changes no other item or cart |
| `Models.Store.UpdateProduct` | changuito/models.py:95-97 | repoints the product and keeps the quantity and total price |
| `Proxy.HasSessionCart` | changuito/proxy.py:37 | the session holds the cart key with a truthy (non-zero) id |
| `Proxy.OwnedCarts` | changuito/proxy.py:112 | the `n_carts` query: every cart the user owns, checked out or not; `Proxy.OwnedCartsAfterCreate` and `Proxy.OwnedCartsAfterCheckout` state how it changes |
| `Proxy.Matches` | changuito/proxy.py:54-56 | the items of the cart that point at the product, none twice |
| `Proxy.GetByProduct` | changuito/proxy.py:54-59 | the ORM's `get`: the one item for the product; `ItemDoesNotExist` exactly when none matches; `MultipleObjectsReturned` exactly when two distinct items match |
| `Proxy.LastOpenCart` | changuito/proxy.py:106-108 | some open cart of the user with the greatest creation date, or None exactly when the user has no open cart |
| `Proxy.OwnedCartsAfterCreate` | changuito/proxy.py:110-112 | creating a cart raises its owner's cart count by one and leaves everyone else's |
| `Proxy.OwnedCartsAfterCheckout` | changuito/proxy.py:110-118 | checking out does not change any user's cart count |
| `Proxy.CheckoutKeepsOneOpenCart` | changuito/proxy.py:114-118 | checking a cart out keeps at most one open cart per user |
| `Proxy.DeletionKeepsOneOpenCart` | changuito/proxy.py:98-104 | deleting carts keeps at most one open cart per user |
| `Proxy.ResolveAsWritten` | changuito/proxy.py:33-46 | get_cart as written: the ORM's does-not-exist error escapes exactly when an anonymous session names a cart id that is missing or checked out; a user with no open cart gets no cart |
| `Proxy.Resolve` | changuito/proxy.py:33-46 | the corrected resolution, stated below by request kind |
| `Proxy.AsWrittenUserWithoutOpenCart` | changuito/proxy.py:42-45 | for a user without an open cart the source resolves to no cart, while the corrected resolution creates one owned by the user |
| `Proxy.AsWrittenStaleSession` | changuito/proxy.py:36-39 | an anonymous session naming a checked-out cart makes the source raise the ORM's does-not-exist error, while the corrected resolution starts a new anonymous cart |
| `Proxy.ResolvedToKeepsOneOpenCart` | changuito/proxy.py:33-46 | resolving a request keeps at most one open cart per user, and a user's resolved cart is then that user's only open cart |
| `Proxy.CartProxy.constructor` | changuito/proxy.py:26-27 | the proxy is bound to an open cart, the store changes exactly as `get_cart` changes it, and at most one open cart per user is kept |
| `Proxy.CartProxy.GetCart` | changuito/proxy.py:33-46 | returns an open cart: the existing one `Resolve` names, with the store unchanged, or a fresh cart stored under the next id; the requesting user's cart count grows by one exactly when a cart is created for them; at most one open cart per user is kept, and the user's cart is then their only open one |
| `Proxy.CartProxy.NewCart` | changuito/proxy.py:48-50 | a fresh, empty, open cart for the owner with creation date `now`, under the next id; the owner's cart count grows by one and no one else's changes |
| `Proxy.CartProxy.Items` | changuito/proxy.py:29-31 | the cart's item records, one per id of the cart, in order |
| `Proxy.CartProxy.AddItem` | changuito/proxy.py:52-66 | see the AddItem note below |
| `Proxy.CartProxy.RemoveItem` | changuito/proxy.py:68-72 | deletes exactly that item of the cart, lowering the totals by its quantity and price; for an id not in the cart, `ItemDoesNotExist` with nothing changed |
| `Proxy.CartProxy.GetItem` | changuito/proxy.py:74-79 | the stored item exactly when the id is in the cart, else `ItemDoesNotExist` |
| `Proxy.CartProxy.ClearItems` | changuito/proxy.py:81-83 | see the ClearItems note below |
| `Proxy.CartProxy.IsEmpty` | changuito/proxy.py:85-86 | true exactly when the cart has no items, and then both totals are 0 |
| `Proxy.CartProxy.UpdateItemQuantity` | changuito/proxy.py:88-96 | sets, not adds, the quantity of the product's item; the lookup's failure is returned with nothing changed and no item is created |
| `Proxy.CartProxy.DeleteUserLastCart` | changuito/proxy.py:98-104 | with at most one cart the user's carts are deleted and the call succeeds (a no-op with none); with two or more, `MultipleObjectsReturned` with nothing changed; at most one open cart per user is kept |
| `Proxy.CartProxy.GetUserLastCart` | changuito/proxy.py:106-108 | the user's open cart with the greatest creation date, or `CartDoesNotExist` exactly when there is none |
| `Proxy.CartProxy.NCarts` | changuito/proxy.py:110-112 | the number of carts the user owns, checked out or not |
| `Proxy.CartProxy.Checkout` | changuito/proxy.py:114-118 | sets checked_out and returns the same cart; items, owner, date and cart counts are unchanged; a second call changes nothing; at most one open cart per user is kept |

Notes on the longer contracts:

- `Proxy.Resolve` never yields "no cart" or an error.
  - An anonymous request gets the session's cart exactly when the session names an open
    cart. Otherwise it gets a fresh cart with no owner.
  - A user gets their open cart with the greatest creation date. A fresh cart owned by the
    user comes only when the user has no open cart.
- `Proxy.CartProxy.AddItem` looks the product up first.
  - If the cart has one item for the product, that item's quantity grows by `quantity`.
    Its price stays, and the cart's item list stays.
  - If the cart has none, exactly one new item with the given quantity and price is
    appended, and it is the item returned.
  - If the cart has two or more, `MultipleObjectsReturned` is returned with nothing
    changed.
  - Either way the total quantity grows by `quantity`.
- `Proxy.CartProxy.ClearItems` leaves the cart empty and deletes exactly its former
  items. No other cart changes, and it is a no-op on an empty cart.

## Findings

| source | as written | input that shows it | evidently intended | confidence | as-written member | corrected member |
|---|---|---|---|---|---|---|
| changuito/proxy.py:42-45 | `get_user_last_cart` returns `None` when the user has no open cart, and `get_cart` returns that `None` as the cart; the `except CartDoesNotExist` branch is never reached | an authenticated user with no open cart, such as a new user or one who has just checked out | create a cart owned by the user, as the `except` branch and tests/test_proxy.py:116-123 expect | high (`.last()` on an empty query gives `None`); not executed | `Proxy.AsWrittenUserWithoutOpenCart` | `Proxy.Resolve` |
| changuito/proxy.py:36-44 | a session cart id naming a checked-out cart makes `Cart.objects.get` raise the ORM's does-not-exist error, which `except CartDoesNotExist` does not catch | an anonymous session whose `CART-ID` names a checked-out cart, which is the state the middleware leaves after an anonymous checkout | start a new anonymous cart | medium (changuito/exceptions.py is not part of this model, so the two exception classes are assumed distinct; were they the same, line 45 would pass an anonymous user to the cart's `user` foreign key, which Django refuses, so the request fails either way); not executed | `Proxy.AsWrittenStaleSession` | `Proxy.Resolve` |

## Left out

- Persistence: the ORM's queries, `save`, transactions and database constraints are
  replaced by the maps of `Store`.
  - Creation timestamps are a caller-supplied number.
  - Which of several open carts with the same creation date `get_user_last_cart`
    returns is unspecified by the source and left open by `Proxy.LastOpenCart`.
- Content types and generic-relation dereference: a product is an opaque
  (content type, object id) pair compared structurally.
- Floating point: `Item.total_price` converts to float. The model keeps the exact scaled
  product instead.
- Decimal storage limits are not modelled. The database rounds values with more than
  3 (quantity) or 2 (price) fractional digits, and rejects values over 18 digits.
  Arguments are taken at storage scale, unbounded.
- `Proxy.CartProxy.AddItem`: its default quantity 1 is the scaled 1000. A Python
  quantity with more than three fractional digits is not modelled.
- `settings.CART_MODEL` (a swapped-in cart model), `__unicode__`, changuito/admin.py,
  setup.py and tests/conftest.py are configuration, display or packaging.
- changuito/middleware.py is left out. It gates resolution on a CSRF token in
  `request.POST` and writes the cart id into the session. The scenarios do that write
  themselves.
- `request.user.is_anonymous` is read as a boolean property (newer Django). Older Django
  has it as a method, which is always truthy when not called.
- Concurrent requests that race to find or create the same user's cart.
- Using a proxy after `delete_user_last_cart` has deleted its own cart. Proxy methods
  require their cart to be stored.
- `Models.Store.UpdateQuantity`, `Models.Store.UpdatePrice`,
  `Models.Store.UpdateProduct`: they update one field of the stored row. In the source
  they assign one field of the caller's in-memory instance and `save()` writes every
  field of that instance. So their frames (the other fields kept) hold only for an
  instance that matches the stored row. A stale instance also writes back its old
  values for the other fields, and that is not modelled. Neither is saving an item whose
  row was deleted, which re-inserts it: these methods require the item to be stored.
