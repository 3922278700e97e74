/** The shopping cart of OOP/index.js: products, cart entries, and a cart that merges
    entries by product id, removes whole or partial entries, and counts its items. */
module Cart {
  import opened Wrappers

  /** A product. The price is kept in integer cents; no operation modelled here reads it. */
  datatype Product = Product(id: int, name: string, price: int)

  /** One entry of the cart: a product and how many units of it. */
  datatype Item = Item(product: Product, quantity: int)

  /** The quantity that `addItem` and the `ShoppingCartItem` constructor use when the caller omits one. */
  const DefaultQuantity: int := 1

  // ---------------------------------------------------------------------------
  // Queries over a sequence of entries

  /** Some entry of `items` is for the product with id `id`. */
  predicate HasId(items: seq<Item>, id: int)
  {
    exists k :: 0 <= k < |items| && items[k].product.id == id
  }

  /** No two entries are for products with the same id. */
  predicate UniqueIds(items: seq<Item>)
  {
    forall i, j :: 0 <= i < j < |items| ==> items[i].product.id != items[j].product.id
  }

  /** Every entry holds at least one unit. */
  predicate AllPositive(items: seq<Item>)
  {
    forall k :: 0 <= k < |items| ==> items[k].quantity > 0
  }

  /** The position of the first entry for product `id`, or -1 when there is none
      (the `find`/`findIndex` search by product id). */
  function IndexOf(items: seq<Item>, id: int): (r: int)
    ensures -1 <= r < |items|
    ensures r == -1 <==> !HasId(items, id)
    ensures r != -1 ==> items[r].product.id == id
    ensures r != -1 ==> forall k :: 0 <= k < r ==> items[k].product.id != id
  {
    if items == [] then -1
    else if items[0].product.id == id then 0
    else
      var r := IndexOf(items[1..], id);
      if r == -1 then
        assert forall k :: 0 < k < |items| ==> items[k] == items[1..][k - 1];
        -1
      else
        assert items[r + 1] == items[1..][r];
        r + 1
  }

  /** The total number of units in the cart: the quantities summed from the first entry
      to the last, as `reduce((sum, it) => sum + it.quantity, 0)` does. */
  function TotalItems(items: seq<Item>): int
  {
    if items == [] then 0 else TotalItems(items[..|items| - 1]) + items[|items| - 1].quantity
  }

  // ---------------------------------------------------------------------------
  // The effect of the cart's operations on its entries

  /** The entries after `addItem(product, quantity)`. */
  function AfterAdd(items: seq<Item>, product: Product, quantity: int): seq<Item>
  {
    var i := IndexOf(items, product.id);
    if i != -1 then items[i := items[i].(quantity := items[i].quantity + quantity)]
    else items + [Item(product, quantity)]
  }

  /** The entries after `removeItem(productId, quantity)`; `None` is the omitted quantity. */
  function AfterRemove(items: seq<Item>, productId: int, quantity: Option<int>): seq<Item>
  {
    var i := IndexOf(items, productId);
    if i == -1 then items
    else if quantity.None? || items[i].quantity <= quantity.value then items[..i] + items[i + 1..]
    else items[i := items[i].(quantity := items[i].quantity - quantity.value)]
  }

  // ---------------------------------------------------------------------------
  // TotalItems is a sum

  lemma {:induction false} TotalItemsConcat(a: seq<Item>, b: seq<Item>)
    ensures TotalItems(a + b) == TotalItems(a) + TotalItems(b)
    decreases |b|
  {
    if b == [] {
      assert a + b == a;
    } else {
      var b' := b[..|b| - 1];
      assert (a + b)[..|a + b| - 1] == a + b';
      TotalItemsConcat(a, b');
    }
  }

  lemma TotalItemsSingle(x: Item)
    ensures TotalItems([x]) == x.quantity
  {
    assert [x][..0] == [];
  }

  /** Replacing entry `i` changes the total by the difference of the two quantities. */
  lemma TotalItemsUpdate(s: seq<Item>, i: int, x: Item)
    requires 0 <= i < |s|
    ensures TotalItems(s[i := x]) == TotalItems(s) - s[i].quantity + x.quantity
  {
    assert s == s[..i] + [s[i]] + s[i + 1..];
    assert s[i := x] == s[..i] + [x] + s[i + 1..];
    TotalItemsConcat(s[..i] + [s[i]], s[i + 1..]);
    TotalItemsConcat(s[..i] + [x], s[i + 1..]);
    TotalItemsConcat(s[..i], [s[i]]);
    TotalItemsConcat(s[..i], [x]);
    TotalItemsSingle(s[i]);
    TotalItemsSingle(x);
  }

  /** Deleting entry `i` lowers the total by exactly that entry's quantity. */
  lemma TotalItemsDelete(s: seq<Item>, i: int)
    requires 0 <= i < |s|
    ensures TotalItems(s[..i] + s[i + 1..]) == TotalItems(s) - s[i].quantity
  {
    assert s == s[..i] + [s[i]] + s[i + 1..];
    TotalItemsConcat(s[..i] + [s[i]], s[i + 1..]);
    TotalItemsConcat(s[..i], [s[i]]);
    TotalItemsConcat(s[..i], s[i + 1..]);
    TotalItemsSingle(s[i]);
  }

  // ---------------------------------------------------------------------------
  // At most one entry per product id

  /** With unique ids, the search finds the one entry that carries the id. */
  lemma IndexOfUnique(items: seq<Item>, k: int)
    requires UniqueIds(items)
    requires 0 <= k < |items|
    ensures IndexOf(items, items[k].product.id) == k
  {
    assert HasId(items, items[k].product.id);
  }

  // ---------------------------------------------------------------------------
  // addItem

  /** An existing entry for the product gains `quantity` units; it keeps its own product
      record; the number of entries and every other entry stay as they were. */
  lemma AddExisting(items: seq<Item>, product: Product, quantity: int)
    requires HasId(items, product.id)
    ensures var i, r := IndexOf(items, product.id), AfterAdd(items, product, quantity);
      0 <= i < |items| && |r| == |items| &&
      r[i] == Item(items[i].product, items[i].quantity + quantity) &&
      forall k :: 0 <= k < |items| && k != i ==> r[k] == items[k]
  {
  }

  /** A product not yet in the cart is appended as one new entry at the end. */
  lemma AddNew(items: seq<Item>, product: Product, quantity: int)
    requires !HasId(items, product.id)
    ensures var r := AfterAdd(items, product, quantity);
      |r| == |items| + 1 && r[..|items|] == items && r[|items|] == Item(product, quantity)
  {
  }

  /** `addItem(product, quantity)` raises the total by exactly `quantity`. */
  lemma AddTotal(items: seq<Item>, product: Product, quantity: int)
    ensures TotalItems(AfterAdd(items, product, quantity)) == TotalItems(items) + quantity
  {
    var i := IndexOf(items, product.id);
    if i != -1 {
      TotalItemsUpdate(items, i, items[i].(quantity := items[i].quantity + quantity));
    } else {
      TotalItemsConcat(items, [Item(product, quantity)]);
      TotalItemsSingle(Item(product, quantity));
    }
  }

  /** `addItem` never creates a second entry for a product id. */
  lemma AddKeepsIdsUnique(items: seq<Item>, product: Product, quantity: int)
    requires UniqueIds(items)
    ensures UniqueIds(AfterAdd(items, product, quantity))
  {
    var r := AfterAdd(items, product, quantity);
    if IndexOf(items, product.id) == -1 {
      forall i, j | 0 <= i < j < |r| ensures r[i].product.id != r[j].product.id {
        if j == |items| {
          assert r[i] == items[i];
        }
      }
    }
  }

  /** With a positive quantity, `addItem` keeps every entry positive. */
  lemma AddKeepsPositive(items: seq<Item>, product: Product, quantity: int)
    requires AllPositive(items)
    requires quantity > 0
    ensures AllPositive(AfterAdd(items, product, quantity))
  {
  }

  // ---------------------------------------------------------------------------
  // removeItem

  /** Removing a product that is not in the cart changes nothing. */
  lemma RemoveMissing(items: seq<Item>, productId: int, quantity: Option<int>)
    requires !HasId(items, productId)
    ensures AfterRemove(items, productId, quantity) == items
  {
  }

  /** Without a quantity, or with one at least the entry's own, the entry is deleted, the
      remaining entries keep their relative order, and the total drops by its quantity. */
  lemma RemoveWhole(items: seq<Item>, productId: int, quantity: Option<int>)
    requires HasId(items, productId)
    requires quantity.None? || items[IndexOf(items, productId)].quantity <= quantity.value
    ensures var i, r := IndexOf(items, productId), AfterRemove(items, productId, quantity);
      0 <= i < |items| && |r| == |items| - 1 &&
      r[..i] == items[..i] && r[i..] == items[i + 1..] &&
      TotalItems(r) == TotalItems(items) - items[i].quantity
  {
    var i := IndexOf(items, productId);
    TotalItemsDelete(items, i);
  }

  /** With a quantity below the entry's own, the entry stays in place with that many units
      fewer, every other entry is unchanged, and the total drops by exactly that amount. */
  lemma RemovePartial(items: seq<Item>, productId: int, quantity: int)
    requires HasId(items, productId)
    requires quantity < items[IndexOf(items, productId)].quantity
    ensures var i, r := IndexOf(items, productId), AfterRemove(items, productId, Some(quantity));
      |r| == |items| &&
      r[i] == Item(items[i].product, items[i].quantity - quantity) &&
      (forall k :: 0 <= k < |items| && k != i ==> r[k] == items[k]) &&
      TotalItems(r) == TotalItems(items) - quantity
  {
    var i := IndexOf(items, productId);
    TotalItemsUpdate(items, i, items[i].(quantity := items[i].quantity - quantity));
  }

  /** `removeItem` never creates a second entry for a product id. */
  lemma RemoveKeepsIdsUnique(items: seq<Item>, productId: int, quantity: Option<int>)
    requires UniqueIds(items)
    ensures UniqueIds(AfterRemove(items, productId, quantity))
  {
    var i := IndexOf(items, productId);
    var r := AfterRemove(items, productId, quantity);
    if i != -1 && (quantity.None? || items[i].quantity <= quantity.value) {
      forall a, b | 0 <= a < b < |r| ensures r[a].product.id != r[b].product.id {
        var a', b' := if a < i then a else a + 1, if b < i then b else b + 1;
        assert r[a] == items[a'] && r[b] == items[b'];
      }
    }
  }

  /** `removeItem` never leaves an entry with no units, whatever quantity it is given. */
  lemma RemoveKeepsPositive(items: seq<Item>, productId: int, quantity: Option<int>)
    requires AllPositive(items)
    ensures AllPositive(AfterRemove(items, productId, quantity))
  {
    var i := IndexOf(items, productId);
    var r := AfterRemove(items, productId, quantity);
    if i != -1 && (quantity.None? || items[i].quantity <= quantity.value) {
      forall k | 0 <= k < |r| ensures r[k].quantity > 0 {
        assert r[k] == items[if k < i then k else k + 1];
      }
    }
  }

  /** Round trip for a product that already has an entry holding at least one unit. */
  lemma RemoveUndoesAddExisting(items: seq<Item>, product: Product, quantity: int, i: int)
    requires i == IndexOf(items, product.id) && i != -1
    requires items[i].quantity > 0
    ensures AfterRemove(AfterAdd(items, product, quantity), product.id, Some(quantity)) == items
  {
    var added := items[i := Item(items[i].product, items[i].quantity + quantity)];
    assert AfterAdd(items, product, quantity) == added;
    var j := IndexOf(added, product.id);
    assert added[i].product.id == product.id;
    assert j == i;
    assert added[i := items[i]] == items;
  }

  /** Round trip for a product that has no entry yet. */
  lemma RemoveUndoesAddNew(items: seq<Item>, product: Product, quantity: int)
    requires !HasId(items, product.id)
    ensures AfterRemove(AfterAdd(items, product, quantity), product.id, Some(quantity)) == items
  {
    var added := items + [Item(product, quantity)];
    assert AfterAdd(items, product, quantity) == added;
    assert added[|items|].product.id == product.id;
    assert forall k :: 0 <= k < |items| ==> added[k] == items[k];
    var j := IndexOf(added, product.id);
    assert j == |items|;
    assert added[..j] + added[j + 1..] == items;
  }

  /** Removing the same number of units that were just added restores the cart, as long as
      the product's existing entry, if there is one, held at least one unit before. */
  lemma RemoveUndoesAdd(items: seq<Item>, product: Product, quantity: int)
    requires HasId(items, product.id) ==> items[IndexOf(items, product.id)].quantity > 0
    ensures AfterRemove(AfterAdd(items, product, quantity), product.id, Some(quantity)) == items
  {
    var i := IndexOf(items, product.id);
    if i != -1 {
      RemoveUndoesAddExisting(items, product, quantity, i);
    } else {
      RemoveUndoesAddNew(items, product, quantity);
    }
  }

  // ---------------------------------------------------------------------------
  // The cart object

  /** A cart whose ordered list of entries is updated in place by its operations. */
  class ShoppingCart {
    var items: seq<Item>

    /** An empty cart. */
    constructor ()
      ensures items == []
    {
      items := [];
    }

    /** The number of units in the cart (`getTotalItems`). */
    function GetTotalItems(): int
      reads this
    {
      TotalItems(items)
    }

    /** `addItem(product, quantity)`; a caller that omits the quantity passes `DefaultQuantity`. */
    method AddItem(product: Product, quantity: int)
      modifies this
      ensures items == AfterAdd(old(items), product, quantity)
      ensures GetTotalItems() == old(GetTotalItems()) + quantity
      ensures UniqueIds(old(items)) ==> UniqueIds(items)
    {
      ghost var before := items;
      var i := IndexOf(items, product.id);
      if i != -1 {
        items := items[i := items[i].(quantity := items[i].quantity + quantity)];
      } else {
        items := items + [Item(product, quantity)];
      }
      AddTotal(before, product, quantity);
      if UniqueIds(before) {
        AddKeepsIdsUnique(before, product, quantity);
      }
    }

    /** `removeItem(productId, quantity)`: reports whether the cart had an entry for the product. */
    method RemoveItem(productId: int, quantity: Option<int>) returns (removed: bool)
      modifies this
      ensures removed == HasId(old(items), productId)
      ensures items == AfterRemove(old(items), productId, quantity)
      ensures !removed ==> GetTotalItems() == old(GetTotalItems())
      ensures removed ==>
        var e := old(items)[IndexOf(old(items), productId)];
        GetTotalItems() == old(GetTotalItems()) -
          if quantity.None? || e.quantity <= quantity.value then e.quantity else quantity.value
      ensures UniqueIds(old(items)) ==> UniqueIds(items)
    {
      ghost var before := items;
      if UniqueIds(before) {
        RemoveKeepsIdsUnique(before, productId, quantity);
      }
      ghost var i := IndexOf(before, productId);
      if i != -1 {
        if quantity.None? || before[i].quantity <= quantity.value {
          RemoveWhole(before, productId, quantity);
        } else {
          RemovePartial(before, productId, quantity.value);
        }
      }
      var idx := IndexOf(items, productId);
      if idx == -1 {
        return false;
      }
      if quantity.None? || items[idx].quantity <= quantity.value {
        items := items[..idx] + items[idx + 1..];
      } else {
        items := items[idx := items[idx].(quantity := items[idx].quantity - quantity.value)];
      }
      return true;
    }
  }

  /** The demonstration in OOP/test.js, checked against the cart's contracts. */
  method Demonstration()
  {
    var p1 := Product(1, "T-shirt", 1999);
    var p2 := Product(2, "Jeans", 4950);
    var p3 := Product(3, "Cap", 925);
    var cart := new ShoppingCart();
    cart.AddItem(p1, 2);
    cart.AddItem(p2, DefaultQuantity);
    cart.AddItem(p3, 3);
    assert cart.items == [Item(p1, 2), Item(p2, 1), Item(p3, 3)];
    assert cart.GetTotalItems() == 6;
    var removed := cart.RemoveItem(2, None);
    assert removed;
    assert cart.items == [Item(p1, 2), Item(p3, 3)];
    removed := cart.RemoveItem(3, Some(2));
    assert removed;
    assert cart.items == [Item(p1, 2), Item(p3, 1)];
    assert cart.GetTotalItems() == 3;
  }
}
