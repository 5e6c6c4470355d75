/** The shopping cart (frontend/src/context/CartContext.tsx): an ordered
    list of cart lines keyed by (product id, color, size), mirrored to the
    browser's storage after every change. Prices are integer cents. */
module CartStore {
  import opened Common

  /** The identity of a cart line. */
  datatype LineKey = LineKey(productId: int, color: string, size: string)

  datatype CartItem = CartItem(
    productId: int,
    productName: string,
    productImage: Option<string>,
    price: int,
    quantity: int,
    color: string,
    size: string,
    slug: string)
  {
    function Key(): LineKey { LineKey(productId, color, size) }
  }

  /** At most one line per key: the invariant `addToCart` is written to keep. */
  ghost predicate UniqueKeys(items: seq<CartItem>)
  {
    forall i, j :: 0 <= i < j < |items| ==> items[i].Key() != items[j].Key()
  }

  /** Number of lines carrying key `k`. */
  function CountKey(items: seq<CartItem>, k: LineKey): nat
  {
    if items == [] then 0
    else (if items[0].Key() == k then 1 else 0) + CountKey(items[1..], k)
  }

  /** `findIndex` on the key: the first line with key `k`, or -1. */
  function IndexOfKey(items: seq<CartItem>, k: LineKey): (r: int)
    ensures -1 <= r < |items|
    ensures r == -1 <==> forall i :: 0 <= i < |items| ==> items[i].Key() != k
    ensures r >= 0 ==> items[r].Key() == k && forall i :: 0 <= i < r ==> items[i].Key() != k
  {
    if items == [] then -1
    else if items[0].Key() == k then 0
    else
      var r := IndexOfKey(items[1..], k);
      if r == -1 then -1 else r + 1
  }

  /** The cart after `addToCart(item)`: merge into the line with the same
      key, or append a new line. */
  function Added(items: seq<CartItem>, item: CartItem): seq<CartItem>
  {
    var i := IndexOfKey(items, item.Key());
    if i == -1 then items + [item]
    else items[i := items[i].(quantity := items[i].quantity + item.quantity)]
  }

  /** The cart after `updateCartItemQuantity(k, q)`: the `map` that puts
      `q` on the lines with key `k`. */
  function WithQuantity(items: seq<CartItem>, k: LineKey, q: int): (r: seq<CartItem>)
    ensures |r| == |items|
    ensures forall i :: 0 <= i < |items| ==> r[i].Key() == items[i].Key()
    ensures forall i :: 0 <= i < |items| ==> r[i].(quantity := items[i].quantity) == items[i]
    ensures forall i :: 0 <= i < |items| ==>
              r[i].quantity == if items[i].Key() == k then q else items[i].quantity
  {
    seq(|items|, i requires 0 <= i < |items| =>
      if items[i].Key() == k then items[i].(quantity := q) else items[i])
  }

  /** The cart after `removeCartItem(k)`: the `filter` that drops the lines
      with key `k`. */
  function Removed(items: seq<CartItem>, k: LineKey): seq<CartItem>
  {
    if items == [] then []
    else (if items[0].Key() == k then [] else [items[0]]) + Removed(items[1..], k)
  }

  /** `calculateCartTotal`: the left fold of price * quantity. */
  function TotalOf(items: seq<CartItem>): int
  {
    if items == [] then 0
    else TotalOf(items[..|items| - 1]) + items[|items| - 1].price * items[|items| - 1].quantity
  }

  // ---------------------------------------------------------------- addToCart

  /** Adding a key that is present keeps the length, raises that line by the
      added quantity and leaves every other line as it was. */
  lemma AddExisting(items: seq<CartItem>, item: CartItem)
    requires exists j :: 0 <= j < |items| && items[j].Key() == item.Key()
    ensures var r := Added(items, item);
      var i := IndexOfKey(items, item.Key());
      && |r| == |items|
      && 0 <= i < |items|
      && r[i] == items[i].(quantity := items[i].quantity + item.quantity)
      && forall j :: 0 <= j < |items| && j != i ==> r[j] == items[j]
  {
  }

  /** Adding a new key appends the item and keeps the earlier lines in order. */
  lemma AddNew(items: seq<CartItem>, item: CartItem)
    requires forall j :: 0 <= j < |items| ==> items[j].Key() != item.Key()
    ensures Added(items, item) == items + [item]
  {
  }

  /** `addToCart` keeps at most one line per key. */
  lemma AddKeepsUnique(items: seq<CartItem>, item: CartItem)
    requires UniqueKeys(items)
    ensures UniqueKeys(Added(items, item))
    ensures forall k :: CountKey(Added(items, item), k) ==
              if k == item.Key() then 1 else CountKey(items, k)
  {
    var r := Added(items, item);
    var i := IndexOfKey(items, item.Key());
    forall k ensures CountKey(r, k) == if k == item.Key() then 1 else CountKey(items, k) {
      if i == -1 {
        CountKeyConcat(items, [item], k);
        assert CountKey([item], k) == if k == item.Key() then 1 else 0 by {
          assert [item][1..] == [];
        }
        if k == item.Key() { CountKeyAbsent(items, k); }
      } else {
        CountKeySameKeys(items, r, k);
        if k == item.Key() { CountKeyUnique(items, i, k); }
      }
    }
  }

  /** Two adds of the same key leave one line carrying both quantities. */
  lemma AddTwice(items: seq<CartItem>, a: CartItem, b: CartItem)
    requires UniqueKeys(items)
    requires forall j :: 0 <= j < |items| ==> items[j].Key() != a.Key()
    requires b.Key() == a.Key()
    ensures var r := Added(Added(items, a), b);
      && |r| == |items| + 1
      && CountKey(r, a.Key()) == 1
      && r[|items|] == a.(quantity := a.quantity + b.quantity)
  {
    var r1 := Added(items, a);
    assert r1 == items + [a];
    AddKeepsUnique(items, a);
    AddKeepsUnique(r1, b);
    assert r1[|items|] == a;
    assert forall j :: 0 <= j < |items| ==> r1[j] == items[j];
    assert IndexOfKey(r1, b.Key()) == |items|;
  }

  // ------------------------------------------------------ updateCartItemQuantity

  /** Updating keeps the keys, hence the uniqueness invariant. */
  lemma UpdateKeepsUnique(items: seq<CartItem>, k: LineKey, q: int)
    requires UniqueKeys(items)
    ensures UniqueKeys(WithQuantity(items, k, q))
  {
  }

  // ---------------------------------------------------------- removeCartItem

  /** Removing keeps the keys unique: it only drops lines. */
  lemma {:induction false} RemoveKeepsUnique(items: seq<CartItem>, k: LineKey)
    requires UniqueKeys(items)
    ensures UniqueKeys(Removed(items, k))
    ensures CountKey(Removed(items, k), k) == 0
    decreases |items|
  {
    if items != [] {
      assert UniqueKeys(items[1..]) by {
        forall i, j | 0 <= i < j < |items[1..]| ensures items[1..][i].Key() != items[1..][j].Key() {
          assert items[1..][i] == items[i + 1] && items[1..][j] == items[j + 1];
        }
      }
      RemoveKeepsUnique(items[1..], k);
      RemoveDropsExactlyKey(items[1..], k);
      var rest := Removed(items[1..], k);
      var r := Removed(items, k);
      if items[0].Key() == k {
        assert r == rest;
      } else {
        assert r[0] == items[0] && r[1..] == rest;
        forall j | 0 <= j < |rest| ensures rest[j].Key() != items[0].Key() {
          assert rest[j] in rest;
          var m :| 0 <= m < |items[1..]| && items[1..][m] == rest[j];
          assert items[m + 1] == rest[j];
        }
      }
    }
  }

  /** Removing drops exactly the lines with the key: none of them is left,
      every other line is kept, the result is part of the cart, and the
      length falls by the number of lines dropped. */
  lemma {:induction false} RemoveDropsExactlyKey(items: seq<CartItem>, k: LineKey)
    ensures var r := Removed(items, k);
      && (forall x :: x in r ==> x in items && x.Key() != k)
      && (forall x :: x in items && x.Key() != k ==> x in r)
      && |r| == |items| - CountKey(items, k)
    decreases |items|
  {
    if items != [] {
      RemoveDropsExactlyKey(items[1..], k);
      var r := Removed(items, k);
      forall x | x in items && x.Key() != k ensures x in r {
        if x != items[0] { assert x in items[1..]; }
      }
    }
  }

  /** Removing keeps the remaining lines in their order: it distributes over
      concatenation. */
  lemma {:induction false} RemoveConcat(a: seq<CartItem>, b: seq<CartItem>, k: LineKey)
    ensures Removed(a + b, k) == Removed(a, k) + Removed(b, k)
    decreases |a|
  {
    if a == [] {
      assert a + b == b;
    } else {
      assert (a + b)[0] == a[0] && (a + b)[1..] == a[1..] + b;
      RemoveConcat(a[1..], b, k);
    }
  }

  /** Removing a key that is absent changes nothing. */
  lemma {:induction false} RemoveAbsent(items: seq<CartItem>, k: LineKey)
    requires forall j :: 0 <= j < |items| ==> items[j].Key() != k
    ensures Removed(items, k) == items
    decreases |items|
  {
    if items != [] {
      RemoveAbsent(items[1..], k);
    }
  }

  /** Removing then adding the same key leaves exactly one line for it,
      carrying only the newly added quantity. */
  lemma RemoveThenAdd(items: seq<CartItem>, item: CartItem)
    ensures var r := Added(Removed(items, item.Key()), item);
      && CountKey(r, item.Key()) == 1
      && r[|r| - 1] == item
  {
    var m := Removed(items, item.Key());
    RemoveDropsExactlyKey(items, item.Key());
    assert forall j :: 0 <= j < |m| ==> m[j].Key() != item.Key() by {
      forall j | 0 <= j < |m| ensures m[j].Key() != item.Key() { assert m[j] in m; }
    }
    assert Added(m, item) == m + [item];
    CountKeyConcat(m, [item], item.Key());
    CountKeyAbsent(m, item.Key());
    assert [item][1..] == [];
  }

  // ------------------------------------------------------ calculateCartTotal

  lemma {:induction false} TotalConcat(a: seq<CartItem>, b: seq<CartItem>)
    ensures TotalOf(a + b) == TotalOf(a) + TotalOf(b)
    decreases |b|
  {
    if b == [] {
      assert a + b == a;
    } else {
      var b' := b[..|b| - 1];
      assert (a + b)[..|a + b| - 1] == a + b';
      TotalConcat(a, b');
    }
  }

  /** The total of one line is its price times its quantity. */
  lemma TotalSingle(x: CartItem)
    ensures TotalOf([x]) == x.price * x.quantity
  {
    assert [x][..0] == [];
  }

  /** Changing one line changes the total by the difference of that line's
      price * quantity. */
  lemma TotalUpdateAt(items: seq<CartItem>, i: nat, x: CartItem)
    requires i < |items|
    ensures TotalOf(items[i := x]) ==
              TotalOf(items) - items[i].price * items[i].quantity + x.price * x.quantity
  {
    var pre, post := items[..i], items[i + 1..];
    assert items == pre + [items[i]] + post;
    assert items[i := x] == pre + [x] + post;
    TotalConcat(pre + [items[i]], post);
    TotalConcat(pre, [items[i]]);
    TotalConcat(pre + [x], post);
    TotalConcat(pre, [x]);
    TotalSingle(x);
    TotalSingle(items[i]);
  }

  /** Adding raises the total by price * added quantity, where the price is
      the one already on the merged line if the key was present. */
  lemma AddRaisesTotal(items: seq<CartItem>, item: CartItem)
    ensures var i := IndexOfKey(items, item.Key());
      var price := if i == -1 then item.price else items[i].price;
      TotalOf(Added(items, item)) == TotalOf(items) + price * item.quantity
  {
    var i := IndexOfKey(items, item.Key());
    if i == -1 {
      TotalConcat(items, [item]);
      TotalSingle(item);
    } else {
      TotalUpdateAt(items, i, items[i].(quantity := items[i].quantity + item.quantity));
      assert items[i].price * (items[i].quantity + item.quantity) ==
             items[i].price * items[i].quantity + items[i].price * item.quantity;
    }
  }


  // ---------------------------------------------------------------- helpers

  lemma {:induction false} CountKeyConcat(a: seq<CartItem>, b: seq<CartItem>, k: LineKey)
    ensures CountKey(a + b, k) == CountKey(a, k) + CountKey(b, k)
    decreases |a|
  {
    if a == [] {
      assert a + b == b;
    } else {
      assert (a + b)[0] == a[0] && (a + b)[1..] == a[1..] + b;
      CountKeyConcat(a[1..], b, k);
    }
  }

  lemma {:induction false} CountKeyAbsent(items: seq<CartItem>, k: LineKey)
    requires forall j :: 0 <= j < |items| ==> items[j].Key() != k
    ensures CountKey(items, k) == 0
    decreases |items|
  {
    if items != [] { CountKeyAbsent(items[1..], k); }
  }

  lemma {:induction false} CountKeySameKeys(a: seq<CartItem>, b: seq<CartItem>, k: LineKey)
    requires |a| == |b|
    requires forall j :: 0 <= j < |a| ==> a[j].Key() == b[j].Key()
    ensures CountKey(a, k) == CountKey(b, k)
    decreases |a|
  {
    if a != [] { CountKeySameKeys(a[1..], b[1..], k); }
  }

  lemma {:induction false} CountKeyUnique(items: seq<CartItem>, i: nat, k: LineKey)
    requires UniqueKeys(items)
    requires i < |items| && items[i].Key() == k
    ensures CountKey(items, k) == 1
    decreases |items|
  {
    if i == 0 {
      CountKeyAbsent(items[1..], k);
    } else {
      CountKeyUnique(items[1..], i - 1, k);
    }
  }

  // ----------------------------------------------------------------- the store

  /** The cart provider's state: the current lines and the copy last
      written to the browser's storage slot. */
  class Cart {
    var items: seq<CartItem>
    var persisted: seq<CartItem>

    /** The initial state: the saved cart if there is one, otherwise empty;
        the mount effect then writes it back. */
    constructor (saved: Option<seq<CartItem>>)
      ensures items == (if saved.Some? then saved.value else [])
      ensures persisted == items
    {
      items := if saved.Some? then saved.value else [];
      persisted := items;
    }

    /** `calculateCartTotal`. */
    function Total(): (t: int)
      reads this
      ensures items == [] ==> t == 0
    {
      TotalOf(items)
    }

    /** The `findIndex` scan of `addToCart`. */
    static method FindIndex(items: seq<CartItem>, k: LineKey) returns (idx: int)
      ensures idx == IndexOfKey(items, k)
    {
      idx := 0;
      while idx < |items|
        invariant 0 <= idx <= |items|
        invariant forall j :: 0 <= j < idx ==> items[j].Key() != k
      {
        if items[idx].Key() == k {
          return;
        }
        idx := idx + 1;
      }
      idx := -1;
    }

    method AddToCart(item: CartItem)
      modifies this
      ensures items == Added(old(items), item)
      ensures persisted == items
    {
      var idx := FindIndex(items, item.Key());
      if idx != -1 {
        var newItems := items;
        newItems := newItems[idx := newItems[idx].(quantity := newItems[idx].quantity + item.quantity)];
        items := newItems;
      } else {
        items := items + [item];
      }
      persisted := items;
    }

    method UpdateCartItemQuantity(productId: int, color: string, size: string, quantity: int)
      modifies this
      ensures items == WithQuantity(old(items), LineKey(productId, color, size), quantity)
      ensures persisted == items
    {
      items := WithQuantity(items, LineKey(productId, color, size), quantity);
      persisted := items;
    }

    method RemoveCartItem(productId: int, color: string, size: string)
      modifies this
      ensures items == Removed(old(items), LineKey(productId, color, size))
      ensures persisted == items
    {
      items := Removed(items, LineKey(productId, color, size));
      persisted := items;
    }

    method ClearCart()
      modifies this
      ensures items == [] && persisted == []
    {
      items := [];
      persisted := items;
    }
  }
}
