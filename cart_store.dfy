/**
 * The shopping cart store: a list of items and an open flag. The operations replace
 * the list with a mapped, filtered or extended copy; the total and the count are
 * left-to-right sums over it.
 */
module CartStore {
  import opened Seqs

  /** Prices are exact reals here, not floating point. */
  datatype CartItem = CartItem(
    id: string,
    name: string,
    nameAr: string,
    price: real,
    quantity: int,
    image: string)

  predicate UniqueIds(items: seq<CartItem>) {
    forall i, j :: 0 <= i < j < |items| ==> items[i].id != items[j].id
  }

  /** `items.find(i => i.id === id)` finds something. */
  predicate HasId(items: seq<CartItem>, id: string) {
    exists i :: 0 <= i < |items| && items[i].id == id
  }

  /** `items.map(i => i.id === id ? { ...i, quantity: f(i) } : i)` for the two updates
      the store performs: adding to the quantity, and setting it. */
  function AddQuantity(items: seq<CartItem>, id: string, q: int): (r: seq<CartItem>)
    ensures |r| == |items|
    ensures forall i :: 0 <= i < |items| && items[i].id != id ==> r[i] == items[i]
    ensures forall i :: 0 <= i < |items| && items[i].id == id ==>
              r[i] == items[i].(quantity := items[i].quantity + q)
  {
    seq(|items|, i requires 0 <= i < |items| =>
      if items[i].id == id then items[i].(quantity := items[i].quantity + q) else items[i])
  }

  function SetQuantity(items: seq<CartItem>, id: string, q: int): (r: seq<CartItem>)
    ensures |r| == |items|
    ensures forall i :: 0 <= i < |items| && items[i].id != id ==> r[i] == items[i]
    ensures forall i :: 0 <= i < |items| && items[i].id == id ==> r[i] == items[i].(quantity := q)
  {
    seq(|items|, i requires 0 <= i < |items| =>
      if items[i].id == id then items[i].(quantity := q) else items[i])
  }

  /** The list `addItem` leaves: merged into the existing entry, or appended. */
  function Added(items: seq<CartItem>, item: CartItem): seq<CartItem> {
    if HasId(items, item.id) then AddQuantity(items, item.id, item.quantity) else items + [item]
  }

  /** `items.filter(i => i.id !== id)` */
  function Without(items: seq<CartItem>, id: string): (r: seq<CartItem>)
    ensures !HasId(r, id)
    ensures forall x :: x in r <==> x in items && x.id != id
  {
    Filter(items, (x: CartItem) => x.id != id)
  }

  /** The list `updateQuantity` leaves. */
  function Updated(items: seq<CartItem>, id: string, q: int): seq<CartItem> {
    if q <= 0 then Without(items, id) else SetQuantity(items, id, q)
  }

  /** `getCount`: `reduce((sum, i) => sum + i.quantity, 0)` */
  function CountOf(items: seq<CartItem>): int {
    if items == [] then 0 else CountOf(items[..|items| - 1]) + items[|items| - 1].quantity
  }

  /** `getTotal`: `reduce((sum, i) => sum + i.price * i.quantity, 0)` */
  function TotalOf(items: seq<CartItem>): real {
    if items == [] then 0.0
    else TotalOf(items[..|items| - 1]) + items[|items| - 1].price * items[|items| - 1].quantity as real
  }

  /** A new id is appended at the end; a known id keeps the length and the order, and
      only the matching entry's quantity grows. */
  lemma AddedShape(items: seq<CartItem>, item: CartItem)
    ensures !HasId(items, item.id) ==> Added(items, item) == items + [item]
    ensures HasId(items, item.id) ==>
              && |Added(items, item)| == |items|
              && (forall i :: 0 <= i < |items| ==> Added(items, item)[i].id == items[i].id)
              && (forall i :: 0 <= i < |items| && items[i].id != item.id ==> Added(items, item)[i] == items[i])
    ensures HasId(Added(items, item), item.id)
  {
    if !HasId(items, item.id) {
      assert (items + [item])[|items|].id == item.id;
    }
  }

  /** Adding keeps the ids unique. */
  lemma AddedKeepsUnique(items: seq<CartItem>, item: CartItem)
    requires UniqueIds(items)
    ensures UniqueIds(Added(items, item))
  {
  }

  /** Removing and updating keep the ids unique. */
  lemma UpdatedKeepsUnique(items: seq<CartItem>, id: string, q: int)
    requires UniqueIds(items)
    ensures UniqueIds(Updated(items, id, q))
  {
    if q <= 0 {
      WithoutKeepsUnique(items, id);
    }
  }

  lemma {:induction false} WithoutKeepsUnique(items: seq<CartItem>, id: string)
    requires UniqueIds(items)
    ensures UniqueIds(Without(items, id))
    decreases |items|
  {
    if items != [] {
      var rest := items[1..];
      assert UniqueIds(rest) by {
        forall i, j | 0 <= i < j < |rest| ensures rest[i].id != rest[j].id {
          assert rest[i] == items[i + 1] && rest[j] == items[j + 1];
        }
      }
      WithoutKeepsUnique(rest, id);
      var p := (x: CartItem) => x.id != id;
      assert Filter(items, p) == (if p(items[0]) then [items[0]] else []) + Filter(rest, p);
      forall x | x in Filter(rest, p) ensures x.id != items[0].id {
        var k :| 0 <= k < |rest| && rest[k] == x;
        assert items[k + 1] == x;
      }
    }
  }

  /** `getCount` after `addItem(item)` is the count before plus `item.quantity`. */
  lemma CountAfterAdd(items: seq<CartItem>, item: CartItem)
    requires UniqueIds(items)
    ensures CountOf(Added(items, item)) == CountOf(items) + item.quantity
  {
    if HasId(items, item.id) {
      CountAddQuantity(items, item.id, item.quantity);
    } else {
      assert (items + [item])[..|items|] == items;
    }
  }

  /** Adding `q` to the quantity of the one entry with `id` adds `q` to the count. */
  lemma {:induction false} CountAddQuantity(items: seq<CartItem>, id: string, q: int)
    requires UniqueIds(items) && HasId(items, id)
    ensures CountOf(AddQuantity(items, id, q)) == CountOf(items) + q
    decreases |items|
  {
    var n := |items| - 1;
    var init := items[..n];
    var r := AddQuantity(items, id, q);
    assert r[..n] == AddQuantity(init, id, q);
    assert UniqueIds(init);
    if items[n].id == id {
      assert !HasId(init, id);
      assert AddQuantity(init, id, q) == init;
    } else {
      assert HasId(init, id) by {
        var i :| 0 <= i < |items| && items[i].id == id;
        assert i < n && init[i] == items[i];
      }
      CountAddQuantity(init, id, q);
    }
  }

  /** An update for an id that is not in the cart changes nothing. */
  lemma UpdatedAbsent(items: seq<CartItem>, id: string, q: int)
    requires !HasId(items, id)
    ensures Updated(items, id, q) == items
  {
    if q <= 0 {
      FilterAll(items, (x: CartItem) => x.id != id);
    } else {
      assert SetQuantity(items, id, q) == items;
    }
  }

  /** Removal keeps the remaining entries in their relative order: removing from a list
      split in two removes from each part. */
  lemma WithoutKeepsOrder(a: seq<CartItem>, b: seq<CartItem>, id: string)
    ensures Without(a + b, id) == Without(a, id) + Without(b, id)
  {
    FilterAppend(a, b, (x: CartItem) => x.id != id);
  }

  /** The store: `items` and `isOpen`. */
  class Cart {
    var items: seq<CartItem>
    var isOpen: bool

    ghost predicate Valid()
      reads this
    {
      UniqueIds(items)
    }

    /** The cart starts empty and closed. */
    constructor()
      ensures Valid() && items == [] && !isOpen
    {
      items := [];
      isOpen := false;
    }

    method SetOpen(open: bool)
      modifies this`isOpen
      ensures isOpen == open
    {
      isOpen := open;
    }

    /** `addItem`: merge or append, then open the drawer. */
    method AddItem(item: CartItem)
      requires Valid()
      modifies this
      ensures Valid()
      ensures items == Added(old(items), item) && isOpen
      ensures GetCount() == old(GetCount()) + item.quantity
    {
      AddedKeepsUnique(items, item);
      CountAfterAdd(items, item);
      var existing := FindItem(item.id);
      if existing {
        items := AddQuantity(items, item.id, item.quantity);
      } else {
        items := items + [item];
      }
      isOpen := true;
    }

    /** `items.find(i => i.id === id)` as a loop. */
    method FindItem(id: string) returns (found: bool)
      ensures found <==> HasId(items, id)
    {
      found := false;
      var i := 0;
      while i < |items|
        invariant 0 <= i <= |items|
        invariant forall k :: 0 <= k < i ==> items[k].id != id
      {
        if items[i].id == id {
          return true;
        }
        i := i + 1;
      }
    }

    /** `removeItem`: every entry with the id goes; the drawer is untouched. */
    method RemoveItem(id: string)
      requires Valid()
      modifies this`items
      ensures Valid()
      ensures items == Without(old(items), id)
    {
      WithoutKeepsUnique(items, id);
      items := Without(items, id);
    }

    /** `updateQuantity`: a quantity of zero or less removes the entry. */
    method UpdateQuantity(id: string, q: int)
      requires Valid()
      modifies this`items
      ensures Valid()
      ensures items == Updated(old(items), id, q)
      ensures q <= 0 ==> items == Without(old(items), id)
    {
      UpdatedKeepsUnique(items, id, q);
      items := Updated(items, id, q);
    }

    /** `clearCart` empties the list and leaves the drawer as it was. */
    method ClearCart()
      modifies this`items
      ensures Valid() && items == [] && GetTotal() == 0.0 && GetCount() == 0
    {
      items := [];
    }

    function GetTotal(): real
      reads this
    {
      TotalOf(items)
    }

    function GetCount(): int
      reads this
    {
      CountOf(items)
    }
  }
}
