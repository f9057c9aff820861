/** changuito/proxy.py: resolving the cart of a request, and `CartProxy`, which
    changes the items of that cart and answers questions about a user's carts. */
module Proxy {
  import opened Exceptions
  import opened Models

  /** The session key under which an anonymous visitor's cart id is kept. */
  const CART_ID: string := "CART-ID"

  /** What the resolver reads from a request: the authenticated user (None when
      anonymous) and the session. A session value of 0 is falsy (no cart id). */
  datatype Request = Request(user: Option<UserId>, session: map<string, nat>)

  /** `CART_ID in request.session and request.session[CART_ID]` */
  predicate HasSessionCart(session: map<string, nat>) {
    CART_ID in session && session[CART_ID] != 0
  }

  // ---------------------------------------------------------------------------
  // Item lookup by product: `cart.items.get(content_type=..., object_id=...)`

  /** The ids in `ids` whose item points at `product`, in order. */
  function Matches(items: map<ItemId, Item>, ids: seq<ItemId>, product: ProductRef): (r: seq<ItemId>)
    requires AllIn(ids, items)
    ensures forall id :: id in r <==> id in ids && items[id].product == product
    ensures Distinct(ids) ==> Distinct(r)
  {
    if ids == [] then []
    else
      var rest := Matches(items, ids[1..], product);
      assert Distinct(ids) ==> ids[0] !in ids[1..] && Distinct(ids[1..]);
      if items[ids[0]].product == product then [ids[0]] + rest else rest
  }

  /** The ORM's `get`: the one matching item, `ItemDoesNotExist` when none
      matches, `MultipleObjectsReturned` when two or more do. */
  function GetByProduct(items: map<ItemId, Item>, ids: seq<ItemId>, product: ProductRef): (r: Result<ItemId>)
    requires AllIn(ids, items) && Distinct(ids)
    ensures r.Success? ==> r.value in ids && items[r.value].product == product
    ensures r.Success? ==> forall id :: id in ids && items[id].product == product ==> id == r.value
    ensures r == Failure(ItemDoesNotExist) <==> forall id :: id in ids ==> items[id].product != product
    ensures r == Failure(MultipleObjectsReturned) <==>
      exists a, b :: a in ids && b in ids && a != b && items[a].product == product && items[b].product == product
    ensures r.Failure? ==> r.error == ItemDoesNotExist || r.error == MultipleObjectsReturned
  {
    var m := Matches(items, ids, product);
    if |m| == 0 then
      Failure(ItemDoesNotExist)
    else if |m| == 1 then
      assert forall id :: id in m ==> id == m[0];
      Success(m[0])
    else
      assert m[0] in m && m[1] in m && m[0] != m[1];
      Failure(MultipleObjectsReturned)
  }

  // ---------------------------------------------------------------------------
  // A user's carts

  predicate IsOpenCartOf(carts: map<CartId, Cart>, user: UserId, c: CartId) {
    c in carts && carts[c].owner == Some(user) && !carts[c].checkedOut
  }

  /** `c` is the user's open cart with the greatest creation date. */
  ghost predicate IsLastOpenCartOf(carts: map<CartId, Cart>, user: UserId, c: CartId) {
    && IsOpenCartOf(carts, user, c)
    && forall d :: IsOpenCartOf(carts, user, d) ==> carts[d].creationDate <= carts[c].creationDate
  }

  /** `Cart.objects.filter(user=user, checked_out=False).order_by('creation_date').last()`
      over the carts whose ids are below `bound`. Which of several carts created at the
      same instant is returned is left open. */
  function LastOpenCart(carts: map<CartId, Cart>, user: UserId, bound: nat): (r: Option<CartId>)
    ensures r.Some? ==> r.value < bound && IsOpenCartOf(carts, user, r.value)
    ensures r.Some? ==> forall d: CartId :: d < bound && IsOpenCartOf(carts, user, d) ==>
                          carts[d].creationDate <= carts[r.value].creationDate
    ensures r.None? <==> forall d: CartId :: d < bound ==> !IsOpenCartOf(carts, user, d)
  {
    if bound == 0 then None
    else
      var rest := LastOpenCart(carts, user, bound - 1);
      var c := bound - 1;
      if !IsOpenCartOf(carts, user, c) then rest
      else if rest.Some? && carts[c].creationDate < carts[rest.value].creationDate then rest
      else Some(c)
  }

  /** The ids of every cart the user owns, checked out or not. */
  function OwnedCarts(carts: map<CartId, Cart>, user: UserId): set<CartId> {
    set c | c in carts && carts[c].owner == Some(user)
  }

  /** Storing a new cart adds it to its owner's carts and to no one else's. */
  lemma OwnedCartsAfterCreate(carts: map<CartId, Cart>, id: CartId, cart: Cart, user: UserId)
    requires id !in carts
    ensures |OwnedCarts(carts[id := cart], user)| == |OwnedCarts(carts, user)| + (if cart.owner == Some(user) then 1 else 0)
  {
    if cart.owner == Some(user) {
      assert OwnedCarts(carts[id := cart], user) == OwnedCarts(carts, user) + {id};
    } else {
      assert OwnedCarts(carts[id := cart], user) == OwnedCarts(carts, user);
    }
  }

  /** Checking a cart out does not change whose carts are whose. */
  lemma OwnedCartsAfterCheckout(carts: map<CartId, Cart>, id: CartId, user: UserId)
    requires id in carts
    ensures OwnedCarts(carts[id := carts[id].(checkedOut := true)], user) == OwnedCarts(carts, user)
  {
  }

  /** The data-model invariant the resolver keeps: an authenticated owner has at most
      one cart that is not checked out. */
  ghost predicate OneOpenCartPerUser(carts: map<CartId, Cart>) {
    forall u, c, d :: IsOpenCartOf(carts, u, c) && IsOpenCartOf(carts, u, d) ==> c == d
  }

  /** Checking a cart out keeps at most one open cart per user. */
  lemma CheckoutKeepsOneOpenCart(carts: map<CartId, Cart>, id: CartId)
    requires id in carts && OneOpenCartPerUser(carts)
    ensures OneOpenCartPerUser(carts[id := carts[id].(checkedOut := true)])
  {
    var after := carts[id := carts[id].(checkedOut := true)];
    forall u: UserId, c: CartId, d: CartId | IsOpenCartOf(after, u, c) && IsOpenCartOf(after, u, d)
      ensures c == d
    {
      assert IsOpenCartOf(carts, u, c) && IsOpenCartOf(carts, u, d);
    }
  }

  /** Deleting carts keeps at most one open cart per user. */
  lemma DeletionKeepsOneOpenCart(carts: map<CartId, Cart>, ids: set<CartId>)
    requires OneOpenCartPerUser(carts)
    ensures OneOpenCartPerUser(carts - ids)
  {
    forall u: UserId, c: CartId, d: CartId | IsOpenCartOf(carts - ids, u, c) && IsOpenCartOf(carts - ids, u, d)
      ensures c == d
    {
      assert IsOpenCartOf(carts, u, c) && IsOpenCartOf(carts, u, d);
    }
  }

  // ---------------------------------------------------------------------------
  // Cart resolution (`CartProxy.get_cart`)

  /** How a request's cart is found: an existing cart, a new cart with the given
      owner, no cart at all, or an escaping error. */
  datatype Resolution = Existing(id: CartId) | Fresh(owner: Option<UserId>) | NoCart | Raised(error: Error)

  /** `get_cart` as the source has it. A session id naming no open cart makes the
      ORM raise its own does-not-exist error, which the `except CartDoesNotExist`
      clause does not catch; a user without an open cart gets the `None` that
      `get_user_last_cart` returns. */
  function ResolveAsWritten(carts: map<CartId, Cart>, bound: nat, request: Request): (r: Resolution)
    ensures r.Raised? ==> r.error == ObjectDoesNotExist
    ensures r.Raised? <==>
      && request.user.None? && HasSessionCart(request.session)
      && !(request.session[CART_ID] in carts && !carts[request.session[CART_ID]].checkedOut)
    ensures r.NoCart? <==>
      request.user.Some? && forall d: CartId :: d < bound ==> !IsOpenCartOf(carts, request.user.value, d)
  {
    match request.user
    case None =>
      if HasSessionCart(request.session) then
        var id := request.session[CART_ID];
        if id in carts && !carts[id].checkedOut then Existing(id) else Raised(ObjectDoesNotExist)
      else Fresh(None)
    case Some(user) =>
      match LastOpenCart(carts, user, bound)
      case Some(id) => Existing(id)
      case None => NoCart
  }

  /** `get_cart` with both not-found outcomes handled the way its `except` clause
      intends: create a cart owned by the request's user (None when anonymous). */
  function Resolve(carts: map<CartId, Cart>, bound: nat, request: Request): (r: Resolution)
    requires forall c :: c in carts ==> c < bound
    ensures r.Existing? || r.Fresh?
    ensures r.Existing? ==> r.id in carts && !carts[r.id].checkedOut
    ensures r.Fresh? ==> r.owner == request.user
    ensures request.user.None? ==>
      (r.Existing? <==> HasSessionCart(request.session) && request.session[CART_ID] in carts
                          && !carts[request.session[CART_ID]].checkedOut)
    ensures request.user.None? && r.Existing? ==> r.id == request.session[CART_ID]
    ensures request.user.Some? && r.Existing? ==> IsLastOpenCartOf(carts, request.user.value, r.id)
    ensures request.user.Some? ==>
      (r.Fresh? <==> forall c :: !IsOpenCartOf(carts, request.user.value, c))
  {
    match ResolveAsWritten(carts, bound, request)
    case NoCart => Fresh(request.user)
    case Raised(_) => Fresh(request.user)
    case other => other
  }

  /** Finding: for a user with no open cart (a new user, or one who has just
      checked out) the source resolves to no cart at all. */
  lemma AsWrittenUserWithoutOpenCart(carts: map<CartId, Cart>, bound: nat, user: UserId, session: map<string, nat>)
    requires forall c :: c in carts ==> c < bound
    requires forall c :: !IsOpenCartOf(carts, user, c)
    ensures ResolveAsWritten(carts, bound, Request(Some(user), session)) == NoCart
    ensures Resolve(carts, bound, Request(Some(user), session)) == Fresh(Some(user))
  {
  }

  /** Finding: an anonymous session still naming a cart that has been checked out
      makes the source raise instead of starting a new cart. */
  lemma AsWrittenStaleSession(carts: map<CartId, Cart>, bound: nat, id: CartId)
    requires forall c :: c in carts ==> c < bound
    requires id in carts && carts[id].checkedOut && id != 0
    ensures ResolveAsWritten(carts, bound, Request(None, map[CART_ID := id])) == Raised(ObjectDoesNotExist)
    ensures Resolve(carts, bound, Request(None, map[CART_ID := id])) == Fresh(None)
  {
  }

  /** The store after resolving `request`: unchanged when an existing cart is used,
      one fresh cart more otherwise. */
  ghost predicate ResolvedTo(carts0: map<CartId, Cart>, next0: CartId, carts1: map<CartId, Cart>, next1: CartId,
                             request: Request, now: nat, id: CartId)
  {
    && (forall c :: c in carts0 ==> c < next0)
    && match Resolve(carts0, next0, request)
       case Existing(c) => id == c && carts1 == carts0 && next1 == next0
       case Fresh(owner) => id == next0 && carts1 == carts0[id := FreshCart(owner, now)] && next1 == next0 + 1
       case _ => false
  }

  /** Resolving a request keeps at most one open cart per user, and a user's resolved
      cart is then the only open cart that user has. */
  lemma ResolvedToKeepsOneOpenCart(carts0: map<CartId, Cart>, next0: CartId, carts1: map<CartId, Cart>, next1: CartId,
                                   request: Request, now: nat, id: CartId)
    requires ResolvedTo(carts0, next0, carts1, next1, request, now, id)
    requires OneOpenCartPerUser(carts0)
    ensures OneOpenCartPerUser(carts1)
    ensures request.user.Some? ==> forall c :: IsOpenCartOf(carts1, request.user.value, c) <==> c == id
  {
    match Resolve(carts0, next0, request)
    case Existing(e) =>
    case Fresh(owner) =>
      forall u: UserId, c: CartId, d: CartId | IsOpenCartOf(carts1, u, c) && IsOpenCartOf(carts1, u, d)
        ensures c == d
      {
        if c == id || d == id {
          assert request.user == Some(u);
          assert !IsOpenCartOf(carts0, u, c) && !IsOpenCartOf(carts0, u, d);
        } else {
          assert IsOpenCartOf(carts0, u, c) && IsOpenCartOf(carts0, u, d);
        }
      }
      if request.user.Some? {
        forall c | IsOpenCartOf(carts1, request.user.value, c)
          ensures c == id
        {
          assert !IsOpenCartOf(carts0, request.user.value, c);
        }
      }
  }

  // ---------------------------------------------------------------------------

  class CartProxy {
    const store: Store
    /** `self.cart`: the id of the cart this proxy works on. */
    var cart: CartId

    ghost predicate Valid()
      reads this, store
    {
      store.Valid() && cart in store.carts
    }

    /** `CartProxy(request)`: bind the proxy to the request's cart. */
    constructor (store: Store, request: Request, now: nat)
      requires store.Valid()
      modifies store
      ensures this.store == store && Valid()
      ensures !store.carts[cart].checkedOut
      ensures ResolvedTo(old(store.carts), old(store.nextCartId), store.carts, store.nextCartId, request, now, cart)
      ensures store.items == old(store.items) && store.nextItemId == old(store.nextItemId)
      ensures OneOpenCartPerUser(old(store.carts)) ==> OneOpenCartPerUser(store.carts)
    {
      this.store := store;
      var id := GetCart(store, request, now);
      this.cart := id;
    }

    /** `get_cart`: the open cart of the request, created when there is none. */
    static method GetCart(store: Store, request: Request, now: nat) returns (id: CartId)
      requires store.Valid()
      modifies store
      ensures store.Valid() && id in store.carts && !store.carts[id].checkedOut
      ensures ResolvedTo(old(store.carts), old(store.nextCartId), store.carts, store.nextCartId, request, now, id)
      ensures store.items == old(store.items) && store.nextItemId == old(store.nextItemId)
      ensures forall u: UserId :: |OwnedCarts(store.carts, u)|
                == |OwnedCarts(old(store.carts), u)| + (if id == old(store.nextCartId) && request.user == Some(u) then 1 else 0)
      ensures OneOpenCartPerUser(old(store.carts)) ==> OneOpenCartPerUser(store.carts)
      ensures OneOpenCartPerUser(old(store.carts)) && request.user.Some? ==>
                forall c :: IsOpenCartOf(store.carts, request.user.value, c) <==> c == id
    {
      var found: Option<CartId>;
      match request.user {
        case None =>
          if HasSessionCart(request.session) {
            var sessionId := request.session[CART_ID];
            found := if sessionId in store.carts && !store.carts[sessionId].checkedOut then Some(sessionId) else None;
          } else {
            // `new_cart()`: an anonymous request's new cart has no owner, as below
            found := None;
          }
        case Some(user) =>
          found := LastOpenCart(store.carts, user, store.nextCartId);
      }
      match found {
        case Some(c) =>
          id := c;
        case None =>
          id := NewCart(store, request.user, now);
      }
      if OneOpenCartPerUser(old(store.carts)) {
        ResolvedToKeepsOneOpenCart(old(store.carts), old(store.nextCartId), store.carts, store.nextCartId, request, now, id);
      }
    }

    /** `new_cart`: store a fresh cart for `owner`, created at `now`. */
    static method NewCart(store: Store, owner: Option<UserId>, now: nat) returns (id: CartId)
      requires store.Valid()
      modifies store
      ensures store.Valid()
      ensures id == old(store.nextCartId) && id !in old(store.carts)
      ensures store.carts == old(store.carts)[id := FreshCart(owner, now)] && store.nextCartId == id + 1
      ensures store.items == old(store.items) && store.nextItemId == old(store.nextItemId)
      ensures forall u: UserId :: |OwnedCarts(store.carts, u)| == |OwnedCarts(old(store.carts), u)| + (if owner == Some(u) then 1 else 0)
    {
      forall u: UserId ensures |OwnedCarts(store.carts[store.nextCartId := FreshCart(owner, now)], u)|
                       == |OwnedCarts(store.carts, u)| + (if owner == Some(u) then 1 else 0) {
        OwnedCartsAfterCreate(store.carts, store.nextCartId, FreshCart(owner, now), u);
      }
      id := store.CreateCart(FreshCart(owner, now));
    }

    /** `__iter__`: the items of the cart. */
    method Items() returns (lines: seq<Item>)
      requires Valid()
      ensures |lines| == |store.carts[cart].items|
      ensures forall k :: 0 <= k < |lines| ==> lines[k] == store.items[store.carts[cart].items[k]]
    {
      lines := store.CartLines(cart);
    }

    /** `add_item`: a second add of the same product raises the quantity of its item;
        otherwise a new item is attached. The unit price of an existing item is kept. */
    method AddItem(product: ProductRef, unitPrice: int, quantity: int := 1000) returns (r: Result<ItemId>)
      requires Valid()
      modifies store
      ensures Valid()
      ensures store.nextCartId == old(store.nextCartId)
      ensures var found := GetByProduct(old(store.items), old(store.carts[cart].items), product);
        && (found.Success? ==>
              && r == found
              && store.items == old(store.items)[found.value := old(store.items[found.value]).(quantity := old(store.items[found.value].quantity) + quantity)]
              && store.carts == old(store.carts) && store.nextItemId == old(store.nextItemId))
        && (found == Failure(ItemDoesNotExist) ==>
              && r == Success(old(store.nextItemId)) && r.value !in old(store.items)
              && store.items == old(store.items)[r.value := Item(quantity, unitPrice, product)]
              && store.carts == old(store.carts)[cart := old(store.carts[cart]).(items := old(store.carts[cart].items) + [r.value])]
              && store.nextItemId == r.value + 1)
        && (found == Failure(MultipleObjectsReturned) ==> r == found && unchanged(store))
      ensures r.Success? ==> r.value in store.carts[cart].items && store.items[r.value].product == product
      ensures r.Success? ==> TotalQuantity(store.CartLines(cart)) == old(TotalQuantity(store.CartLines(cart))) + quantity
    {
      var ids := store.carts[cart].items;
      var found := GetByProduct(store.items, ids, product);
      match found {
        case Success(id) =>
          var item := store.items[id];
          SumReplace(store.items, ids, id, item.(quantity := item.quantity + quantity), Quantity);
          store.UpdateQuantity(id, item.quantity + quantity);
          r := found;
        case Failure(e) =>
          if e == ItemDoesNotExist {
            var item := Item(quantity, unitPrice, product);
            SumAddLine(store.items, ids, store.nextItemId, item, Quantity);
            var id := store.AddNewItem(cart, item);
            r := Success(id);
          } else {
            r := found;
          }
      }
    }

    /** `remove_item`: delete the cart's item with id `itemId`. */
    method RemoveItem(itemId: ItemId) returns (r: Outcome)
      requires Valid()
      modifies store
      ensures Valid()
      ensures r == Pass <==> old(itemId in store.carts[cart].items)
      ensures r == Pass ==>
        && store.items == old(store.items) - {itemId}
        && store.carts == old(store.carts)[cart := old(store.carts[cart]).(items := Without(old(store.carts[cart].items), itemId))]
        && TotalQuantity(store.CartLines(cart)) == old(TotalQuantity(store.CartLines(cart))) - old(store.items[itemId].quantity)
        && TotalPrice(store.CartLines(cart)) == old(TotalPrice(store.CartLines(cart))) - old(ItemTotalPrice(store.items[itemId]))
      ensures r.Fail? ==> r.error == ItemDoesNotExist && unchanged(store)
      ensures store.nextCartId == old(store.nextCartId) && store.nextItemId == old(store.nextItemId)
    {
      var ids := store.carts[cart].items;
      if itemId in ids {
        SumWithout(store.items, ids, itemId, Quantity);
        SumWithout(store.items, ids, itemId, ItemTotalPrice);
        store.DeleteItem(cart, itemId);
        r := Pass;
      } else {
        r := Fail(ItemDoesNotExist);
      }
    }

    /** `get_item`: the cart's item with id `itemId`. */
    method GetItem(itemId: ItemId) returns (r: Result<Item>)
      requires Valid()
      ensures r.Success? <==> itemId in store.carts[cart].items
      ensures r.Success? ==> r.value == store.items[itemId]
      ensures r.Failure? ==> r.error == ItemDoesNotExist
    {
      if itemId in store.carts[cart].items {
        r := Success(store.items[itemId]);
      } else {
        r := Failure(ItemDoesNotExist);
      }
    }

    /** `clear_items`: delete every item of the cart, one by one. */
    method ClearItems()
      requires Valid()
      modifies store
      ensures Valid() && Models.IsEmpty(store.carts[cart])
      ensures store.carts == old(store.carts)[cart := old(store.carts[cart]).(items := [])]
      ensures store.items == old(store.items) - IdSet(old(store.carts[cart].items))
      ensures store.nextCartId == old(store.nextCartId) && store.nextItemId == old(store.nextItemId)
    {
      var ids := store.carts[cart].items;
      for k := 0 to |ids|
        invariant Valid()
        invariant store.carts == old(store.carts)[cart := old(store.carts[cart]).(items := ids[k..])]
        invariant store.items == old(store.items) - IdSet(ids[..k])
        invariant store.nextCartId == old(store.nextCartId) && store.nextItemId == old(store.nextItemId)
      {
        WithoutHead(ids[k..]);
        assert ids[k..][1..] == ids[k + 1..];
        store.DeleteItem(cart, ids[k]);
        assert IdSet(ids[..k + 1]) == IdSet(ids[..k]) + {ids[k]};
      }
      assert ids[..|ids|] == ids;
    }

    /** `is_empty`: the cart has no items. */
    method IsEmpty() returns (empty: bool)
      requires Valid()
      ensures empty <==> store.CartLines(cart) == []
      ensures empty ==> TotalPrice(store.CartLines(cart)) == 0 && TotalQuantity(store.CartLines(cart)) == 0
    {
      empty := Models.IsEmpty(store.carts[cart]);
    }

    /** `update_item_quantity`: set, not add to, the quantity of the item for `product`. */
    method UpdateItemQuantity(product: ProductRef, quantity: int) returns (r: Outcome)
      requires Valid()
      modifies store
      ensures Valid()
      ensures var found := GetByProduct(old(store.items), old(store.carts[cart].items), product);
        && (found.Success? ==>
              && r == Pass
              && store.items == old(store.items)[found.value := old(store.items[found.value]).(quantity := quantity)]
              && store.carts == old(store.carts))
        && (found.Failure? ==> r == Fail(found.error) && unchanged(store))
      ensures store.nextCartId == old(store.nextCartId) && store.nextItemId == old(store.nextItemId)
    {
      var found := GetByProduct(store.items, store.carts[cart].items, product);
      match found {
        case Success(id) =>
          store.UpdateQuantity(id, quantity);
          r := Pass;
        case Failure(e) =>
          r := Fail(e);
      }
    }

    /** `delete_user_last_cart`: `Cart.objects.get(user=user).delete()`, with no
        filter on `checked_out`; no cart is a silent no-op, two or more make the
        lookup fail. The deleted cart's items stay in the item table. */
    static method DeleteUserLastCart(store: Store, user: UserId) returns (r: Outcome)
      requires store.Valid()
      modifies store
      ensures store.Valid()
      ensures r == Pass <==> |OwnedCarts(old(store.carts), user)| <= 1
      ensures r == Pass ==> store.carts == old(store.carts) - OwnedCarts(old(store.carts), user)
      ensures r.Fail? ==> r.error == MultipleObjectsReturned && store.carts == old(store.carts)
      ensures store.items == old(store.items)
      ensures store.nextCartId == old(store.nextCartId) && store.nextItemId == old(store.nextItemId)
      ensures OneOpenCartPerUser(old(store.carts)) ==> OneOpenCartPerUser(store.carts)
    {
      var owned := OwnedCarts(store.carts, user);
      if |owned| <= 1 {
        if OneOpenCartPerUser(store.carts) {
          DeletionKeepsOneOpenCart(store.carts, owned);
        }
        store.DeleteCarts(owned);
        r := Pass;
      } else {
        r := Fail(MultipleObjectsReturned);
      }
    }

    /** `get_user_last_cart`: the user's newest open cart, or `CartDoesNotExist`. */
    static method GetUserLastCart(store: Store, user: UserId) returns (r: Result<CartId>)
      requires store.Valid()
      ensures r.Success? ==> IsLastOpenCartOf(store.carts, user, r.value)
      ensures r.Failure? ==> r.error == CartDoesNotExist && forall c :: !IsOpenCartOf(store.carts, user, c)
    {
      match LastOpenCart(store.carts, user, store.nextCartId) {
        case Some(c) => r := Success(c);
        case None => r := Failure(CartDoesNotExist);
      }
    }

    /** `n_carts`: how many carts the user owns, checked out or not. */
    static method NCarts(store: Store, user: UserId) returns (n: nat)
      ensures n == |OwnedCarts(store.carts, user)|
    {
      n := |OwnedCarts(store.carts, user)|;
    }

    /** `checkout`: mark the cart checked out and return it; a second call changes nothing. */
    method Checkout() returns (c: CartId)
      requires Valid()
      modifies store
      ensures Valid() && c == cart
      ensures store.carts == old(store.carts)[cart := old(store.carts[cart]).(checkedOut := true)]
      ensures old(store.carts[cart].checkedOut) ==> store.carts == old(store.carts)
      ensures store.items == old(store.items)
      ensures store.nextCartId == old(store.nextCartId) && store.nextItemId == old(store.nextItemId)
      ensures forall user :: OwnedCarts(store.carts, user) == OwnedCarts(old(store.carts), user)
      ensures OneOpenCartPerUser(old(store.carts)) ==> OneOpenCartPerUser(store.carts)
    {
      if OneOpenCartPerUser(store.carts) {
        CheckoutKeepsOneOpenCart(store.carts, cart);
      }
      forall user ensures OwnedCarts(store.carts[cart := store.carts[cart].(checkedOut := true)], user) == OwnedCarts(store.carts, user) {
        OwnedCartsAfterCheckout(store.carts, cart, user);
      }
      store.carts := store.carts[cart := store.carts[cart].(checkedOut := true)];
      c := cart;
    }
  }
}
