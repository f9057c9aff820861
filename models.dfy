/** The cart and item records of changuito/models.py, their derived quantities,
    and `Store`, the in-memory stand-in for the two database tables. */
module Models {
  import opened Exceptions

  type UserId = nat
  type CartId = nat
  type ItemId = nat

  /** Fractional digits kept by the database for an item's quantity and unit price. */
  const QUANTITY_SCALE: nat := 3
  const PRICE_SCALE: nat := 2
  /** The scale at which quantity times unit price is exact. */
  const TOTAL_SCALE: nat := QUANTITY_SCALE + PRICE_SCALE

  /** The generic relation to the product: (content type, object id), compared structurally. */
  datatype ProductRef = ProductRef(contentType: nat, objectId: nat)

  /** A line item. `quantity` counts thousandths and `unitPrice` hundredths. */
  datatype Item = Item(quantity: int, unitPrice: int, product: ProductRef)

  /** A cart record. `items` lists the ids of the cart's items, each at most once. */
  datatype Cart = Cart(owner: Option<UserId>, creationDate: nat, checkedOut: bool, items: seq<ItemId>)

  /** A cart as first created: the field defaults of the model (not checked out, no items). */
  function FreshCart(owner: Option<UserId>, now: nat): (c: Cart)
    ensures IsEmpty(c) && !c.checkedOut
    ensures c.owner == owner && c.creationDate == now
  {
    Cart(owner, now, false, [])
  }

  predicate IsEmpty(cart: Cart) {
    |cart.items| == 0
  }

  // ---------------------------------------------------------------------------
  // Scaled decimals

  function Pow10(n: nat): (r: nat)
    ensures r >= 1
  {
    if n == 0 then 1 else 10 * Pow10(n - 1)
  }

  lemma {:induction false} Pow10Add(m: nat, n: nat)
    ensures Pow10(m + n) == Pow10(m) * Pow10(n)
  {
    if m > 0 {
      Pow10Add(m - 1, n);
      calc {
        Pow10(m + n);
        10 * Pow10(m - 1 + n);
        10 * (Pow10(m - 1) * Pow10(n));
        (10 * Pow10(m - 1)) * Pow10(n);
      }
    }
  }

  /** The decimal number `units` / 10^`scale`. */
  function DecimalValue(units: int, scale: nat): real {
    units as real / Pow10(scale) as real
  }

  /** Multiplying two scaled integers gives the exact product at the sum of the scales. */
  lemma DecimalProduct(a: int, m: nat, b: int, n: nat)
    ensures DecimalValue(a * b, m + n) == DecimalValue(a, m) * DecimalValue(b, n)
  {
    Pow10Add(m, n);
    CastProduct(Pow10(m), Pow10(n));
    CastProduct(a, b);
    QuotientProduct(a as real, Pow10(m) as real, b as real, Pow10(n) as real);
  }

  lemma CastProduct(i: int, j: int)
    ensures (i * j) as real == (i as real) * (j as real)
  {
  }

  lemma QuotientProduct(p: real, x: real, q: real, y: real)
    requires x > 0.0 && y > 0.0
    ensures (p / x) * (q / y) == (p * q) / (x * y)
  {
  }

  /** `Item.total_price`, exact at TOTAL_SCALE. */
  function ItemTotalPrice(item: Item): int {
    item.quantity * item.unitPrice
  }

  lemma ItemTotalPriceExact(item: Item)
    ensures DecimalValue(ItemTotalPrice(item), TOTAL_SCALE)
         == DecimalValue(item.quantity, QUANTITY_SCALE) * DecimalValue(item.unitPrice, PRICE_SCALE)
  {
    DecimalProduct(item.quantity, QUANTITY_SCALE, item.unitPrice, PRICE_SCALE);
  }

  /** 4 units at 3.20 cost 12.80. */
  lemma ItemTotalPriceExample(product: ProductRef)
    ensures DecimalValue(ItemTotalPrice(Item(4000, 320, product)), TOTAL_SCALE) == 12.8
  {
    assert Pow10(5) == 100000;
  }

  // ---------------------------------------------------------------------------
  // Cart totals

  function Quantity(item: Item): int {
    item.quantity
  }

  /** The sum of `weight` over the lines. */
  function Sum(lines: seq<Item>, weight: Item -> int): int {
    if lines == [] then 0 else weight(lines[0]) + Sum(lines[1..], weight)
  }

  /** `total_price` of a cart whose items are `lines`, at TOTAL_SCALE. */
  function TotalPrice(lines: seq<Item>): int {
    Sum(lines, ItemTotalPrice)
  }

  /** `total_quantity` of a cart whose items are `lines`, at QUANTITY_SCALE. */
  function TotalQuantity(lines: seq<Item>): int {
    Sum(lines, Quantity)
  }

  lemma {:induction false} SumAppend(a: seq<Item>, b: seq<Item>, weight: Item -> int)
    ensures Sum(a + b, weight) == Sum(a, weight) + Sum(b, weight)
  {
    if a == [] {
      assert a + b == b;
    } else {
      assert (a + b)[1..] == a[1..] + b;
      SumAppend(a[1..], b, weight);
    }
  }

  /** A cart total does not depend on the order in which the items are listed
      (the item query has no fixed order within a cart). */
  lemma {:induction false} SumPermutation(a: seq<Item>, b: seq<Item>, weight: Item -> int)
    requires multiset(a) == multiset(b)
    ensures Sum(a, weight) == Sum(b, weight)
    decreases |a|
  {
    if a != [] {
      assert a[0] in multiset(b);
      var i :| 0 <= i < |b| && b[i] == a[0];
      assert a == [a[0]] + a[1..];
      assert multiset(a[1..]) == multiset(a) - multiset{a[0]};
      MultisetRemoveAt(b, i);
      SumPermutation(a[1..], b[..i] + b[i + 1..], weight);
      SumRemoveAt(b, i, weight);
    }
  }

  lemma MultisetRemoveAt<T>(s: seq<T>, i: nat)
    requires i < |s|
    ensures multiset(s[..i] + s[i + 1..]) == multiset(s) - multiset{s[i]}
  {
    assert s == s[..i] + [s[i]] + s[i + 1..];
  }

  lemma SumRemoveAt(lines: seq<Item>, i: nat, weight: Item -> int)
    requires i < |lines|
    ensures Sum(lines, weight) == weight(lines[i]) + Sum(lines[..i] + lines[i + 1..], weight)
  {
    assert lines == lines[..i] + [lines[i]] + lines[i + 1..];
    SumAppend(lines[..i] + [lines[i]], lines[i + 1..], weight);
    SumAppend(lines[..i], [lines[i]], weight);
    SumAppend(lines[..i], lines[i + 1..], weight);
    assert Sum([lines[i]], weight) == weight(lines[i]);
  }

  /** (125 * 2) + 100 = 350, and 3 + 1 = 4. */
  lemma TotalsExample(user: ProductRef, site: ProductRef)
    ensures TotalPrice([Item(2000, 12500, user), Item(1000, 10000, user)]) == 350 * Pow10(TOTAL_SCALE)
    ensures TotalQuantity([Item(3000, 40000, user), Item(1000, 10000, site)]) == 4 * Pow10(QUANTITY_SCALE)
  {
    assert Pow10(5) == 100000;
    assert Pow10(3) == 1000;
    var lines := [Item(2000, 12500, user), Item(1000, 10000, user)];
    assert lines[1..][1..] == [];
    assert Sum(lines[1..], ItemTotalPrice) == 10000000;
    var lines' := [Item(3000, 40000, user), Item(1000, 10000, site)];
    assert lines'[1..][1..] == [];
    assert Sum(lines'[1..], Quantity) == 1000;
  }

  // ---------------------------------------------------------------------------
  // The items of a cart, looked up in the item table

  predicate Distinct(ids: seq<ItemId>) {
    forall j, k :: 0 <= j < k < |ids| ==> ids[j] != ids[k]
  }

  function IdSet(ids: seq<ItemId>): set<ItemId> {
    set id | id in ids
  }

  predicate AllIn(ids: seq<ItemId>, items: map<ItemId, Item>) {
    forall id :: id in ids ==> id in items
  }

  /** The item records a cart's id list refers to, in order: `cart.items.all()`. */
  function Lines(items: map<ItemId, Item>, ids: seq<ItemId>): (r: seq<Item>)
    requires AllIn(ids, items)
    ensures |r| == |ids|
    ensures forall k :: 0 <= k < |ids| ==> r[k] == items[ids[k]]
  {
    if ids == [] then [] else [items[ids[0]]] + Lines(items, ids[1..])
  }

  /** `ids` with `id` removed. */
  function Without(ids: seq<ItemId>, id: ItemId): (r: seq<ItemId>)
    ensures forall x :: x in r <==> x in ids && x != id
    ensures Distinct(ids) ==> Distinct(r)
  {
    if ids == [] then []
    else if ids[0] == id then Without(ids[1..], id)
    else
      var r := Without(ids[1..], id);
      assert Distinct(ids) ==> ids[0] !in ids[1..] && Distinct(ids[1..]);
      [ids[0]] + r
  }

  lemma {:induction false} WithoutAbsent(ids: seq<ItemId>, id: ItemId)
    requires id !in ids
    ensures Without(ids, id) == ids
  {
    if ids != [] {
      WithoutAbsent(ids[1..], id);
    }
  }

  /** Removing the first id of a list without repeats leaves the rest. */
  lemma WithoutHead(ids: seq<ItemId>)
    requires ids != [] && Distinct(ids)
    ensures Without(ids, ids[0]) == ids[1..]
  {
    assert ids[0] !in ids[1..];
    WithoutAbsent(ids[1..], ids[0]);
  }

  /** Replacing the record of one item of a cart changes a sum over the cart by the difference. */
  lemma {:induction false} SumReplace(items: map<ItemId, Item>, ids: seq<ItemId>, id: ItemId, item: Item, weight: Item -> int)
    requires AllIn(ids, items) && Distinct(ids) && id in ids
    ensures Sum(Lines(items[id := item], ids), weight) == Sum(Lines(items, ids), weight) - weight(items[id]) + weight(item)
  {
    var items' := items[id := item];
    var rest := ids[1..];
    assert Lines(items, ids)[1..] == Lines(items, rest);
    assert Lines(items', ids)[1..] == Lines(items', rest);
    if ids[0] == id {
      assert id !in rest;
      assert Lines(items', rest) == Lines(items, rest);
    } else {
      SumReplace(items, rest, id, item, weight);
    }
  }

  /** Deleting an item of a cart lowers a sum over the cart by that item's weight. */
  lemma {:induction false} SumWithout(items: map<ItemId, Item>, ids: seq<ItemId>, id: ItemId, weight: Item -> int)
    requires AllIn(ids, items) && Distinct(ids) && id in ids
    ensures AllIn(Without(ids, id), items - {id})
    ensures Sum(Lines(items - {id}, Without(ids, id)), weight) == Sum(Lines(items, ids), weight) - weight(items[id])
  {
    var rest := ids[1..];
    assert Lines(items, ids)[1..] == Lines(items, rest);
    assert Lines(items - {id}, Without(ids, id)) == Lines(items, Without(ids, id));
    if ids[0] == id {
      WithoutHead(ids);
    } else {
      SumWithout(items, rest, id, weight);
      var w := Without(ids, id);
      assert w == [ids[0]] + Without(rest, id);
      assert Lines(items, w)[1..] == Lines(items, Without(rest, id));
      assert Lines(items - {id}, Without(rest, id)) == Lines(items, Without(rest, id));
    }
  }

  /** Adding a new item to a cart raises a sum over the cart by the new item's weight. */
  lemma SumAddLine(items: map<ItemId, Item>, ids: seq<ItemId>, id: ItemId, item: Item, weight: Item -> int)
    requires AllIn(ids, items) && id !in items
    ensures AllIn(ids + [id], items[id := item])
    ensures Sum(Lines(items[id := item], ids + [id]), weight) == Sum(Lines(items, ids), weight) + weight(item)
  {
    assert Lines(items[id := item], ids + [id]) == Lines(items, ids) + [item];
    SumAppend(Lines(items, ids), [item], weight);
  }

  /** A cart with no items has no price and no quantity. */
  lemma EmptyCartTotals(items: map<ItemId, Item>, cart: Cart)
    requires AllIn(cart.items, items)
    ensures IsEmpty(cart) <==> Lines(items, cart.items) == []
    ensures IsEmpty(cart) ==> TotalPrice(Lines(items, cart.items)) == 0 && TotalQuantity(Lines(items, cart.items)) == 0
  {
  }

  // ---------------------------------------------------------------------------
  // The database tables

  /** The cart table, the item table and the cart-to-item relation (each cart's id list).
      Ids are handed out from 1 upwards and never reused. */
  class Store {
    var carts: map<CartId, Cart>
    var items: map<ItemId, Item>
    var nextCartId: CartId
    var nextItemId: ItemId

    /** A cart's id list names stored items, each once. */
    predicate Holds(cart: Cart)
      reads this
    {
      AllIn(cart.items, items) && Distinct(cart.items)
    }

    ghost predicate Valid()
      reads this
    {
      && 0 < nextCartId && 0 < nextItemId
      && (forall c :: c in carts ==> 0 < c < nextCartId)
      && (forall i :: i in items ==> 0 < i < nextItemId)
      && (forall c :: c in carts ==> Holds(carts[c]))
      // an item belongs to at most one cart
      && (forall c, d, i :: c in carts && d in carts && i in carts[c].items && i in carts[d].items ==> c == d)
    }

    /** `cart.items.all()` for the cart with id `c`. */
    function CartLines(c: CartId): seq<Item>
      reads this
      requires c in carts && Holds(carts[c])
    {
      Lines(items, carts[c].items)
    }

    constructor ()
      ensures Valid()
      ensures carts == map[] && items == map[] && nextCartId == 1 && nextItemId == 1
    {
      carts, items := map[], map[];
      nextCartId, nextItemId := 1, 1;
    }

    /** `Cart.objects.create(...)`: store a new cart under the next id. */
    method CreateCart(cart: Cart) returns (id: CartId)
      requires Valid() && cart.items == []
      modifies this
      ensures Valid()
      ensures id == old(nextCartId) && id !in old(carts)
      ensures carts == old(carts)[id := cart] && nextCartId == id + 1
      ensures items == old(items) && nextItemId == old(nextItemId)
    {
      id := nextCartId;
      carts := carts[id := cart];
      nextCartId := nextCartId + 1;
    }

    /** `cart.delete()` for every cart in `ids`. The relation rows go with the cart;
        the item rows stay in the item table. */
    method DeleteCarts(ids: set<CartId>)
      requires Valid()
      modifies this
      ensures Valid()
      ensures carts == old(carts) - ids
      ensures items == old(items) && nextCartId == old(nextCartId) && nextItemId == old(nextItemId)
    {
      carts := carts - ids;
    }

    /** `Item.objects.create(...)` followed by `cart.items.add(item)`. */
    method AddNewItem(c: CartId, item: Item) returns (id: ItemId)
      requires Valid() && c in carts
      modifies this
      ensures Valid()
      ensures id == old(nextItemId) && id !in old(items)
      ensures items == old(items)[id := item] && nextItemId == id + 1
      ensures carts == old(carts)[c := old(carts[c]).(items := old(carts[c].items) + [id])]
      ensures nextCartId == old(nextCartId)
    {
      id := nextItemId;
      assert forall d :: d in carts ==> id !in carts[d].items;
      items := items[id := item];
      carts := carts[c := carts[c].(items := carts[c].items + [id])];
      nextItemId := nextItemId + 1;
    }

    /** `item.delete()` for an item of cart `c`: the item row and its relation row go. */
    method DeleteItem(c: CartId, id: ItemId)
      requires Valid() && c in carts && id in carts[c].items
      modifies this
      ensures Valid()
      ensures items == old(items) - {id}
      ensures carts == old(carts)[c := old(carts[c]).(items := Without(old(carts[c].items), id))]
      ensures nextCartId == old(nextCartId) && nextItemId == old(nextItemId)
    {
      items := items - {id};
      carts := carts[c := carts[c].(items := Without(carts[c].items, id))];
    }

    /** `Item.update_quantity`: overwrite the quantity and save. */
    method UpdateQuantity(id: ItemId, quantity: int)
      requires Valid() && id in items
      modifies this
      ensures Valid()
      ensures items == old(items)[id := old(items[id]).(quantity := quantity)]
      ensures items[id].unitPrice == old(items[id].unitPrice) && items[id].product == old(items[id].product)
      ensures ItemTotalPrice(items[id]) == quantity * items[id].unitPrice
      ensures carts == old(carts) && nextCartId == old(nextCartId) && nextItemId == old(nextItemId)
    {
      items := items[id := items[id].(quantity := quantity)];
    }

    /** `Item.update_price`: overwrite the unit price and save. */
    method UpdatePrice(id: ItemId, price: int)
      requires Valid() && id in items
      modifies this
      ensures Valid()
      ensures items == old(items)[id := old(items[id]).(unitPrice := price)]
      ensures items[id].quantity == old(items[id].quantity) && items[id].product == old(items[id].product)
      ensures carts == old(carts) && nextCartId == old(nextCartId) && nextItemId == old(nextItemId)
    {
      items := items[id := items[id].(unitPrice := price)];
    }

    /** `Item.update_contenttype`: repoint the item at another product and save. */
    method UpdateProduct(id: ItemId, product: ProductRef)
      requires Valid() && id in items
      modifies this
      ensures Valid()
      ensures items == old(items)[id := old(items[id]).(product := product)]
      ensures items[id].quantity == old(items[id].quantity)
      ensures ItemTotalPrice(items[id]) == old(ItemTotalPrice(items[id]))
      ensures carts == old(carts) && nextCartId == old(nextCartId) && nextItemId == old(nextItemId)
    {
      items := items[id := items[id].(product := product)];
    }
  }
}
