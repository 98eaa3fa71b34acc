/**
 * The shopping cart of js/cart.js: a list of line items, each with an id,
 * a name, a price, an image and a quantity, kept in browser storage under
 * the key "shoppingCart". Items are merged by id on add, filtered by id on
 * remove, and quantities are never set below 1.
 */
module Cart {

  /** What an "add to cart" button describes. */
  datatype Product = Product(id: string, name: string, price: int, image: string)

  /** One line of the cart. */
  datatype Item = Item(id: string, name: string, price: int, image: string, quantity: int)

  /** The two quantity buttons of a cart line; any other `data-action` does nothing. */
  datatype QtyAction = Increase | Decrease | Other

  /** Browser storage, with each value held as the item list it serialises. */
  type Store = map<string, seq<Item>>

  const CartKey: string := "shoppingCart"

  // ---------------------------------------------------------------------------
  // Storage

  /** `loadCart`: the saved list, or the empty cart when nothing is saved. */
  function Load(store: Store): (items: seq<Item>)
    ensures CartKey !in store ==> items == []
  {
    if CartKey in store then store[CartKey] else []
  }

  /** `saveCart`: the list written under the cart key, every other key kept. */
  function Save(store: Store, items: seq<Item>): (store': Store)
    ensures store'.Keys == store.Keys + {CartKey}
    ensures forall key :: key in store && key != CartKey ==> store'[key] == store[key]
  {
    store[CartKey := items]
  }

  lemma LoadAfterSave(store: Store, items: seq<Item>)
    ensures Load(Save(store, items)) == items
  {
  }

  // ---------------------------------------------------------------------------
  // Invariants of the list

  predicate UniqueIds(items: seq<Item>) {
    forall i, j :: 0 <= i < j < |items| ==> items[i].id != items[j].id
  }

  predicate QuantitiesPositive(items: seq<Item>) {
    forall i :: 0 <= i < |items| ==> items[i].quantity >= 1
  }

  predicate WellFormed(items: seq<Item>) {
    UniqueIds(items) && QuantitiesPositive(items)
  }

  predicate HasId(items: seq<Item>, id: string) {
    exists i :: 0 <= i < |items| && items[i].id == id
  }

  // ---------------------------------------------------------------------------
  // The operations on the list

  /** `items.find(item => item.id === id)`, as an index: the first match, or -1. */
  function IndexOf(items: seq<Item>, id: string): (k: int)
    ensures -1 <= k < |items|
    ensures k >= 0 ==> items[k].id == id && forall j :: 0 <= j < k ==> items[j].id != id
    ensures k == -1 <==> !HasId(items, id)
  {
    if items == [] then -1
    else if items[0].id == id then 0
    else
      var k := IndexOf(items[1..], id);
      assert forall j :: 0 < j < |items| ==> items[j] == items[1..][j - 1];
      if k < 0 then -1 else k + 1
  }

  function NewItem(p: Product): Item {
    Item(p.id, p.name, p.price, p.image, 1)
  }

  /** `addItem`: bump the quantity of the item with this id, or append a new item of quantity 1. */
  function Added(items: seq<Item>, p: Product): seq<Item> {
    var k := IndexOf(items, p.id);
    if k >= 0 then items[k := items[k].(quantity := items[k].quantity + 1)]
    else items + [NewItem(p)]
  }

  /** `removeItem`: `items.filter(item => item.id !== id)`, written from the last element. */
  function Removed(items: seq<Item>, id: string): seq<Item> {
    if items == [] then []
    else
      var init := Removed(items[..|items| - 1], id);
      if items[|items| - 1].id == id then init else init + [items[|items| - 1]]
  }

  function Max(a: int, b: int): int {
    if a >= b then a else b
  }

  /** `updateQuantity`: the first item with this id gets `max(1, q)`; no change when there is none. */
  function QuantitySet(items: seq<Item>, id: string, q: int): seq<Item> {
    var k := IndexOf(items, id);
    if k >= 0 then items[k := items[k].(quantity := Max(1, q))] else items
  }

  /** A click on a quantity button of the line with this id. */
  function QtyClicked(items: seq<Item>, id: string, action: QtyAction): seq<Item> {
    var k := IndexOf(items, id);
    if k < 0 then items
    else
      match action
      case Increase => QuantitySet(items, id, items[k].quantity + 1)
      case Decrease => QuantitySet(items, id, items[k].quantity - 1)
      case Other => items
  }

  /** `getItemCount`: the sum of the quantities. */
  function ItemCount(items: seq<Item>): int {
    if items == [] then 0 else items[0].quantity + ItemCount(items[1..])
  }

  /** `getTotal`: the sum of price times quantity. */
  function Total(items: seq<Item>): int {
    if items == [] then 0 else LineTotal(items[0]) + Total(items[1..])
  }

  /** The amount one line contributes: price times quantity. */
  function LineTotal(it: Item): int {
    it.price * it.quantity
  }

  /** The shipping line of `updateCartSummary`: free above 500, otherwise 50. */
  function ShippingFor(subtotal: int): (fee: int)
    ensures fee == 0 <==> subtotal > 500
    ensures fee == 0 || fee == 50
  {
    if subtotal > 500 then 0 else 50
  }

  lemma ShippingAtBoundary()
    ensures ShippingFor(500) == 50 && ShippingFor(501) == 0
  {
  }

  // ---------------------------------------------------------------------------
  // Properties of the operations

  lemma IndexOfUnique(items: seq<Item>, k: int)
    requires UniqueIds(items)
    requires 0 <= k < |items|
    ensures IndexOf(items, items[k].id) == k
  {
  }

  /** Adding a product whose id is not in the cart appends one item of quantity 1. */
  lemma AddNewAppends(items: seq<Item>, p: Product)
    requires !HasId(items, p.id)
    ensures Added(items, p) == items + [Item(p.id, p.name, p.price, p.image, 1)]
  {
  }

  /** Adding a product already in the cart raises that line's quantity by one and changes nothing else. */
  lemma AddExistingIncrements(items: seq<Item>, p: Product, k: int)
    requires UniqueIds(items)
    requires 0 <= k < |items| && items[k].id == p.id
    ensures |Added(items, p)| == |items|
    ensures Added(items, p)[k] == items[k].(quantity := items[k].quantity + 1)
    ensures forall j :: 0 <= j < |items| && j != k ==> Added(items, p)[j] == items[j]
  {
    IndexOfUnique(items, k);
  }

  lemma AddPreservesWellFormed(items: seq<Item>, p: Product)
    requires WellFormed(items)
    ensures WellFormed(Added(items, p))
  {
  }

  lemma {:induction false} RemovedMembers(items: seq<Item>, id: string)
    ensures forall x :: x in Removed(items, id) <==> x in items && x.id != id
    ensures |Removed(items, id)| <= |items|
  {
    if items != [] {
      var init := items[..|items| - 1];
      RemovedMembers(init, id);
      assert items == init + [items[|items| - 1]];
    }
  }

  /** Removing an id that is absent leaves the list as it was. */
  lemma {:induction false} RemovedAbsent(items: seq<Item>, id: string)
    requires !HasId(items, id)
    ensures Removed(items, id) == items
  {
    if items != [] {
      var init := items[..|items| - 1];
      RemovedAbsent(init, id);
      assert items == init + [items[|items| - 1]];
    }
  }

  /** With unique ids, removing the id at index k drops exactly that item and keeps the rest in order. */
  lemma {:induction false} RemovedUnique(items: seq<Item>, id: string, k: int)
    requires UniqueIds(items)
    requires 0 <= k < |items| && items[k].id == id
    ensures Removed(items, id) == items[..k] + items[k + 1..]
  {
    var last := |items| - 1;
    var init := items[..last];
    if k == last {
      RemovedAbsent(init, id);
    } else {
      RemovedUnique(init, id, k);
      assert init[..k] + init[k + 1..] + [items[last]] == items[..k] + items[k + 1..];
    }
  }

  lemma DropPreservesWellFormed(items: seq<Item>, k: int)
    requires WellFormed(items)
    requires 0 <= k < |items|
    ensures WellFormed(items[..k] + items[k + 1..])
  {
    var r := items[..k] + items[k + 1..];
    assert forall j :: 0 <= j < |r| ==> r[j] == items[if j < k then j else j + 1];
  }

  lemma RemovedPreservesWellFormed(items: seq<Item>, id: string)
    requires WellFormed(items)
    ensures WellFormed(Removed(items, id))
    ensures !HasId(Removed(items, id), id)
  {
    RemovedMembers(items, id);
    var r := Removed(items, id);
    if HasId(items, id) {
      var k := IndexOf(items, id);
      RemovedUnique(items, id, k);
      DropPreservesWellFormed(items, k);
    } else {
      RemovedAbsent(items, id);
    }
    forall j | 0 <= j < |r|
      ensures r[j].id != id
    {
      assert r[j] in r;
    }
  }

  /** `updateQuantity` sets the unique matching line to max(1, q) and touches nothing else. */
  lemma QuantitySetPresent(items: seq<Item>, id: string, q: int, k: int)
    requires UniqueIds(items)
    requires 0 <= k < |items| && items[k].id == id
    ensures |QuantitySet(items, id, q)| == |items|
    ensures QuantitySet(items, id, q)[k] == items[k].(quantity := if q >= 1 then q else 1)
    ensures forall j :: 0 <= j < |items| && j != k ==> QuantitySet(items, id, q)[j] == items[j]
  {
    IndexOfUnique(items, k);
  }

  lemma QuantitySetAbsent(items: seq<Item>, id: string, q: int)
    requires !HasId(items, id)
    ensures QuantitySet(items, id, q) == items
  {
  }

  lemma QuantitySetPreservesWellFormed(items: seq<Item>, id: string, q: int)
    requires WellFormed(items)
    ensures WellFormed(QuantitySet(items, id, q))
  {
  }

  /** The "decrease" button on a line of quantity 1 leaves the cart unchanged. */
  lemma DecreaseAtOneStays(items: seq<Item>, k: int)
    requires UniqueIds(items)
    requires 0 <= k < |items| && items[k].quantity == 1
    ensures QtyClicked(items, items[k].id, Decrease) == items
  {
    IndexOfUnique(items, k);
    assert items[k := items[k].(quantity := 1)] == items;
  }

  /** The "increase" button raises the line's quantity by exactly one. */
  lemma IncreaseAddsOne(items: seq<Item>, k: int)
    requires UniqueIds(items)
    requires 0 <= k < |items|
    ensures QtyClicked(items, items[k].id, Increase)
         == items[k := items[k].(quantity := Max(1, items[k].quantity + 1))]
  {
    IndexOfUnique(items, k);
  }

  lemma QtyClickedPreservesWellFormed(items: seq<Item>, id: string, action: QtyAction)
    requires WellFormed(items)
    ensures WellFormed(QtyClicked(items, id, action))
  {
    if IndexOf(items, id) >= 0 {
      var k := IndexOf(items, id);
      QuantitySetPreservesWellFormed(items, id, items[k].quantity + 1);
      QuantitySetPreservesWellFormed(items, id, items[k].quantity - 1);
    }
  }

  lemma {:induction false} ItemCountAppend(a: seq<Item>, b: seq<Item>)
    ensures ItemCount(a + b) == ItemCount(a) + ItemCount(b)
    ensures Total(a + b) == Total(a) + Total(b)
  {
    if a == [] {
      assert a + b == b;
    } else {
      ItemCountAppend(a[1..], b);
      assert (a + b)[0] == a[0];
      assert (a + b)[1..] == a[1..] + b;
    }
  }

  lemma {:induction false} ItemCountUpdate(items: seq<Item>, k: int, x: Item)
    requires 0 <= k < |items|
    ensures ItemCount(items[k := x]) == ItemCount(items) - items[k].quantity + x.quantity
    ensures Total(items[k := x]) == Total(items) - LineTotal(items[k]) + LineTotal(x)
  {
    if k > 0 {
      ItemCountUpdate(items[1..], k - 1, x);
      assert items[k := x][1..] == items[1..][k - 1 := x];
    }
  }

  /** Every add raises the item count by exactly one. */
  lemma AddRaisesCount(items: seq<Item>, p: Product)
    ensures ItemCount(Added(items, p)) == ItemCount(items) + 1
  {
    var k := IndexOf(items, p.id);
    if k >= 0 {
      ItemCountUpdate(items, k, items[k].(quantity := items[k].quantity + 1));
    } else {
      ItemCountAppend(items, [NewItem(p)]);
      assert [NewItem(p)][1..] == [];
    }
  }

  /** One more of a line adds its price once. */
  lemma LineTotalBump(it: Item)
    ensures LineTotal(it.(quantity := it.quantity + 1)) == LineTotal(it) + it.price
  {
    assert it.price * (it.quantity + 1) == it.price * it.quantity + it.price;
  }

  /** Bumping one line's quantity raises the total by that line's price. */
  lemma BumpTotal(items: seq<Item>, k: int)
    requires 0 <= k < |items|
    ensures Total(items[k := items[k].(quantity := items[k].quantity + 1)]) == Total(items) + items[k].price
  {
    var it := items[k];
    var bumped := it.(quantity := it.quantity + 1);
    ItemCountUpdate(items, k, bumped);
    LineTotalBump(it);
  }

  lemma AddNewTotal(items: seq<Item>, p: Product)
    requires IndexOf(items, p.id) == -1
    ensures Total(Added(items, p)) == Total(items) + p.price
  {
    assert Added(items, p) == items + [NewItem(p)];
    ItemCountAppend(items, [NewItem(p)]);
    assert [NewItem(p)][1..] == [];
  }

  /**
   * The total rises by the price of the line that was bumped: the price stored
   * in the cart, not the product's, when the id is already present.
   */
  lemma AddRaisesTotal(items: seq<Item>, p: Product)
    ensures !HasId(items, p.id) ==> Total(Added(items, p)) == Total(items) + p.price
    ensures HasId(items, p.id) ==> Total(Added(items, p)) == Total(items) + items[IndexOf(items, p.id)].price
  {
    var k := IndexOf(items, p.id);
    if k >= 0 {
      BumpTotal(items, k);
    } else {
      AddNewTotal(items, p);
    }
  }

  /** Removing a line lowers the item count by its quantity (ids unique). */
  lemma RemoveLowersCount(items: seq<Item>, k: int)
    requires UniqueIds(items)
    requires 0 <= k < |items|
    ensures ItemCount(Removed(items, items[k].id)) == ItemCount(items) - items[k].quantity
  {
    RemovedUnique(items, items[k].id, k);
    ItemCountDrop(items, k);
  }

  /** Deleting one position lowers the item count by that line's quantity. */
  lemma ItemCountDrop(items: seq<Item>, k: int)
    requires 0 <= k < |items|
    ensures ItemCount(items[..k] + items[k + 1..]) == ItemCount(items) - items[k].quantity
  {
    var front := items[..k];
    var back := items[k + 1..];
    var rest := items[k..];
    ItemCountAppend(front, back);
    assert rest != [] && rest[0] == items[k] && rest[1..] == back;
    assert ItemCount(rest) == items[k].quantity + ItemCount(back);
    ItemCountAppend(front, rest);
    assert items == front + rest;
  }

  lemma {:induction false} ItemCountPositive(items: seq<Item>)
    requires QuantitiesPositive(items)
    ensures ItemCount(items) >= |items|
  {
    if items != [] {
      ItemCountPositive(items[1..]);
    }
  }

  // ---------------------------------------------------------------------------
  // The cart object

  class ShoppingCart {
    var items: seq<Item>
    var store: Store

    /** The constructor loads the saved cart. */
    constructor (saved: Store)
      ensures items == Load(saved) && store == saved
    {
      items := Load(saved);
      store := saved;
    }

    method SaveCart()
      modifies this
      ensures items == old(items)
      ensures store == Save(old(store), items)
    {
      store := Save(store, items);
    }

    /** The linear search behind `items.find`. */
    method FindIndex(id: string) returns (k: int)
      ensures k == IndexOf(items, id)
    {
      k := 0;
      while k < |items| && items[k].id != id
        invariant 0 <= k <= |items|
        invariant forall j :: 0 <= j < k ==> items[j].id != id
      {
        k := k + 1;
      }
      if k == |items| {
        k := -1;
      }
    }

    method AddItem(p: Product)
      modifies this
      ensures items == Added(old(items), p)
      ensures store == Save(old(store), items)
      ensures old(WellFormed(items)) ==> WellFormed(items)
    {
      if WellFormed(items) {
        AddPreservesWellFormed(items, p);
      }
      var k := FindIndex(p.id);
      if k >= 0 {
        items := items[k := items[k].(quantity := items[k].quantity + 1)];
      } else {
        items := items + [NewItem(p)];
      }
      SaveCart();
    }

    method RemoveItem(id: string)
      modifies this
      ensures items == Removed(old(items), id)
      ensures !HasId(items, id)
      ensures store == Save(old(store), items)
      ensures old(WellFormed(items)) ==> WellFormed(items)
    {
      if WellFormed(items) {
        RemovedPreservesWellFormed(items, id);
      }
      RemovedMembers(items, id);
      var kept: seq<Item> := [];
      var i := 0;
      while i < |items|
        invariant 0 <= i <= |items|
        invariant kept == Removed(items[..i], id)
      {
        assert items[..i + 1][..i] == items[..i];
        if items[i].id != id {
          kept := kept + [items[i]];
        }
        i := i + 1;
      }
      assert items[..i] == items;
      items := kept;
      SaveCart();
    }

    method UpdateQuantity(id: string, quantity: int)
      modifies this
      ensures items == QuantitySet(old(items), id, quantity)
      ensures store == if HasId(old(items), id) then Save(old(store), items) else old(store)
      ensures old(WellFormed(items)) ==> WellFormed(items)
    {
      if WellFormed(items) {
        QuantitySetPreservesWellFormed(items, id, quantity);
      }
      var k := FindIndex(id);
      if k >= 0 {
        items := items[k := items[k].(quantity := Max(1, quantity))];
        SaveCart();
      }
    }

    /** The click handler of a quantity button. */
    method QtyButton(id: string, action: QtyAction)
      modifies this
      ensures items == QtyClicked(old(items), id, action)
      ensures store == if HasId(old(items), id) && !action.Other? then Save(old(store), items) else old(store)
      ensures old(WellFormed(items)) ==> WellFormed(items)
    {
      if WellFormed(items) {
        QtyClickedPreservesWellFormed(items, id, action);
      }
      var k := FindIndex(id);
      if k >= 0 {
        match action
        case Increase => UpdateQuantity(id, items[k].quantity + 1);
        case Decrease => UpdateQuantity(id, items[k].quantity - 1);
        case Other =>
      }
    }

    method ClearCart()
      modifies this
      ensures items == []
      ensures store == Save(old(store), [])
    {
      items := [];
      SaveCart();
    }
  }
}
