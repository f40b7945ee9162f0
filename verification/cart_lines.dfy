/**
  The pure half of the cart: the updater functions that addToCart,
  removeFromCart and updateQuantity hand to the state setter, and the two
  folds getTotalItems and getTotalPrice. Every recursive definition works
  from the end of the sequence, the way `reduce` accumulates from the left.
*/
module CartLines {
  import opened CartTypes

  /** The composite key `${productId}-${size}-${color}` of a cart line. */
  function ItemKey(productId: string, size: string, color: string): string
  {
    productId + "-" + size + "-" + color
  }

  /** Cutting two strings at their first '-' gives back the same two halves. */
  lemma {:induction false} SplitAtFirstDash(a: string, b: string, c: string, d: string)
    requires '-' !in a && '-' !in c
    requires a + "-" + b == c + "-" + d
    ensures a == c && b == d
  {
    var s := a + "-" + b;
    assert forall k :: 0 <= k < |a| ==> s[k] == a[k] && a[k] in a;
    assert forall k :: 0 <= k < |c| ==> s[k] == c[k] && c[k] in c;
    assert s[|a|] == '-' && s[|c|] == '-';
    assert |a| == |c|;
    assert a == s[..|a|] == c;
    assert b == s[|a| + 1..] == d;
  }

  /**
    The key tells variants apart as long as neither the product id nor the
    size contains a '-', which holds for the numeric ids and sizes such as
    "9.5" that the screens pass.
  */
  lemma ItemKeyInjective(p1: string, s1: string, c1: string, p2: string, s2: string, c2: string)
    requires '-' !in p1 && '-' !in p2 && '-' !in s1 && '-' !in s2
    ensures ItemKey(p1, s1, c1) == ItemKey(p2, s2, c2) <==> p1 == p2 && s1 == s2 && c1 == c2
  {
    if ItemKey(p1, s1, c1) == ItemKey(p2, s2, c2) {
      assert p1 + "-" + (s1 + "-" + c1) == ItemKey(p1, s1, c1);
      assert p2 + "-" + (s2 + "-" + c2) == ItemKey(p2, s2, c2);
      SplitAtFirstDash(p1, s1 + "-" + c1, p2, s2 + "-" + c2);
      SplitAtFirstDash(s1, c1, s2, c2);
    }
  }

  predicate HasKey(items: seq<CartItem>, id: string)
  {
    exists i :: 0 <= i < |items| && items[i].itemId == id
  }

  /** At most one line per itemId. */
  predicate UniqueKeys(items: seq<CartItem>)
  {
    forall i, j :: 0 <= i < j < |items| ==> items[i].itemId != items[j].itemId
  }

  predicate PositiveQuantities(items: seq<CartItem>)
  {
    forall i :: 0 <= i < |items| ==> items[i].quantity >= 1
  }

  /** Every line carries the key of its own product id, size and color. */
  predicate KeysMatch(items: seq<CartItem>)
  {
    forall i :: 0 <= i < |items| ==>
      items[i].itemId == ItemKey(items[i].product.id, items[i].size, items[i].color)
  }

  /** The invariant the store keeps on its cart. */
  predicate WellFormed(items: seq<CartItem>)
  {
    UniqueKeys(items) && PositiveQuantities(items) && KeysMatch(items)
  }

  /** A well-formed cart holds no two lines of the same (product id, size, color) variant. */
  lemma OneLinePerVariant(items: seq<CartItem>)
    requires WellFormed(items)
    ensures forall i, j :: 0 <= i < j < |items| ==>
      !(items[i].product.id == items[j].product.id && items[i].size == items[j].size && items[i].color == items[j].color)
  {
  }

  /** `Array.prototype.findIndex` on the itemId: the first matching index, or -1. */
  function FindIndex(items: seq<CartItem>, id: string): (r: int)
    ensures -1 <= r < |items|
    ensures r == -1 <==> !HasKey(items, id)
    ensures 0 <= r ==> items[r].itemId == id && forall j :: 0 <= j < r ==> items[j].itemId != id
  {
    if items == [] then -1
    else
      var n := |items| - 1;
      var k := FindIndex(items[..n], id);
      assert forall j :: 0 <= j < n ==> items[..n][j] == items[j];
      if k != -1 then k
      else if items[n].itemId == id then n
      else -1
  }

  /** In a cart with unique keys the first match is the only one. */
  lemma FindIndexUnique(items: seq<CartItem>, id: string, i: int)
    requires UniqueKeys(items)
    requires 0 <= i < |items| && items[i].itemId == id
    ensures FindIndex(items, id) == i
  {
  }

  // ----- folds --------------------------------------------------------------

  /** The left fold of f over the lines, starting from 0. */
  function Sum(items: seq<CartItem>, f: CartItem -> int): int
  {
    if items == [] then 0 else Sum(items[..|items| - 1], f) + f(items[|items| - 1])
  }

  function Quantity(item: CartItem): int
  {
    item.quantity
  }

  /** Unit price (cents) times quantity. */
  function LineTotal(item: CartItem): int
  {
    item.product.price * item.quantity
  }

  /** The quantity of a line if it carries the given key, and 0 otherwise. */
  function QuantityWithKey(id: string): CartItem -> int
  {
    (item: CartItem) => if item.itemId == id then item.quantity else 0
  }

  /** getTotalItems: the sum of the lines' quantities. */
  function TotalItems(items: seq<CartItem>): int
  {
    Sum(items, Quantity)
  }

  /** getTotalPrice: the sum of unit price times quantity, in cents. */
  function TotalPrice(items: seq<CartItem>): int
  {
    Sum(items, LineTotal)
  }

  /** How many units of the variant with this key the cart holds. */
  function QuantityOf(items: seq<CartItem>, id: string): int
  {
    Sum(items, QuantityWithKey(id))
  }

  lemma SumAppend(items: seq<CartItem>, x: CartItem, f: CartItem -> int)
    ensures Sum(items + [x], f) == Sum(items, f) + f(x)
  {
    assert (items + [x])[..|items|] == items;
  }

  /** Replacing one line changes the sum by the difference of the two lines. */
  lemma {:induction false} SumUpdate(items: seq<CartItem>, i: int, x: CartItem, f: CartItem -> int)
    requires 0 <= i < |items|
    ensures Sum(items[i := x], f) == Sum(items, f) - f(items[i]) + f(x)
  {
    var n := |items| - 1;
    if i == n {
      assert items[i := x][..n] == items[..n];
    } else {
      assert items[i := x][..n] == items[..n][i := x];
      SumUpdate(items[..n], i, x, f);
    }
  }

  /** Lines with other keys contribute nothing to QuantityOf. */
  lemma {:induction false} QuantityOfAbsent(items: seq<CartItem>, id: string)
    requires !HasKey(items, id)
    ensures QuantityOf(items, id) == 0
  {
    if items != [] {
      var n := |items| - 1;
      assert !HasKey(items[..n], id) by {
        assert forall j :: 0 <= j < n ==> items[..n][j] == items[j];
      }
      QuantityOfAbsent(items[..n], id);
    }
  }

  /** With unique keys, QuantityOf is the quantity on the one matching line. */
  lemma {:induction false} QuantityOfPresent(items: seq<CartItem>, id: string, i: int)
    requires UniqueKeys(items)
    requires 0 <= i < |items| && items[i].itemId == id
    ensures QuantityOf(items, id) == items[i].quantity
  {
    var n := |items| - 1;
    var prefix := items[..n];
    assert items == prefix + [items[n]];
    if i == n {
      assert !HasKey(prefix, id);
      QuantityOfAbsent(prefix, id);
    } else {
      QuantityOfPresent(prefix, id, i);
    }
    SumAppend(prefix, items[n], QuantityWithKey(id));
  }

  /** On a well-formed cart there are at least as many units as lines. */
  lemma {:induction false} TotalItemsAtLeastLines(items: seq<CartItem>)
    requires PositiveQuantities(items)
    ensures TotalItems(items) >= |items|
  {
    if items != [] {
      var n := |items| - 1;
      assert PositiveQuantities(items[..n]) by {
        assert forall j :: 0 <= j < n ==> items[..n][j] == items[j];
      }
      TotalItemsAtLeastLines(items[..n]);
    }
  }

  /** On a cart whose quantities are positive, every line's price is part of the subtotal. */
  lemma {:induction false} TotalPriceCoversLines(items: seq<CartItem>)
    requires PositiveQuantities(items)
    ensures TotalPrice(items) >= 0
    ensures forall i :: 0 <= i < |items| ==> LineTotal(items[i]) <= TotalPrice(items)
  {
    if items != [] {
      var n := |items| - 1;
      assert forall j :: 0 <= j < n ==> items[..n][j] == items[j];
      TotalPriceCoversLines(items[..n]);
      assert LineTotal(items[n]) >= 0;
    }
  }

  // ----- addToCart ----------------------------------------------------------

  /**
    The addToCart updater: raise the quantity of the first line with the
    variant's key by one, or append a new line of quantity 1.
  */
  function AddLine(items: seq<CartItem>, product: Product, size: string, color: string): (r: seq<CartItem>)
    ensures HasKey(r, ItemKey(product.id, size, color))
    ensures |r| == if HasKey(items, ItemKey(product.id, size, color)) then |items| else |items| + 1
  {
    var key := ItemKey(product.id, size, color);
    var i := FindIndex(items, key);
    if i > -1 then
      var r := items[i := items[i].(quantity := items[i].quantity + 1)];
      assert r[i].itemId == key;
      r
    else
      assert (items + [CartItem(key, product, size, color, 1)])[|items|].itemId == key;
      items + [CartItem(key, product, size, color, 1)]
  }

  /**
    Adding a variant already in the cart raises that line's quantity by one
    and leaves the length, the order and every other line as they were; the
    subtotal grows by that line's unit price.
  */
  lemma AddExistingLine(items: seq<CartItem>, product: Product, size: string, color: string, i: int)
    requires UniqueKeys(items)
    requires 0 <= i < |items| && items[i].itemId == ItemKey(product.id, size, color)
    ensures var r := AddLine(items, product, size, color);
      && |r| == |items|
      && r[i] == items[i].(quantity := items[i].quantity + 1)
      && (forall j :: 0 <= j < |items| && j != i ==> r[j] == items[j])
      && TotalItems(r) == TotalItems(items) + 1
      && TotalPrice(r) == TotalPrice(items) + items[i].product.price
  {
    FindIndexUnique(items, ItemKey(product.id, size, color), i);
    var x := items[i].(quantity := items[i].quantity + 1);
    SumUpdate(items, i, x, Quantity);
    SumUpdate(items, i, x, LineTotal);
    assert LineTotal(x) == LineTotal(items[i]) + items[i].product.price;
  }

  /**
    Adding a variant not yet in the cart appends one line with key
    `productId-size-color` and quantity 1 after the untouched earlier lines.
  */
  lemma AddNewLine(items: seq<CartItem>, product: Product, size: string, color: string)
    requires !HasKey(items, ItemKey(product.id, size, color))
    ensures var r := AddLine(items, product, size, color);
      && |r| == |items| + 1
      && r[..|items|] == items
      && r[|items|] == CartItem(ItemKey(product.id, size, color), product, size, color, 1)
      && TotalItems(r) == TotalItems(items) + 1
      && TotalPrice(r) == TotalPrice(items) + product.price
  {
    var x := CartItem(ItemKey(product.id, size, color), product, size, color, 1);
    SumAppend(items, x, Quantity);
    SumAppend(items, x, LineTotal);
    assert (items + [x])[..|items|] == items;
  }

  /** Either way, addToCart raises the item count by exactly one. */
  lemma AddLineTotalItems(items: seq<CartItem>, product: Product, size: string, color: string)
    ensures TotalItems(AddLine(items, product, size, color)) == TotalItems(items) + 1
  {
    var key := ItemKey(product.id, size, color);
    var i := FindIndex(items, key);
    if i > -1 {
      SumUpdate(items, i, items[i].(quantity := items[i].quantity + 1), Quantity);
    } else {
      SumAppend(items, CartItem(key, product, size, color, 1), Quantity);
    }
  }

  /** addToCart adds one unit of its own variant and none of any other. */
  lemma AddLineQuantityOf(items: seq<CartItem>, product: Product, size: string, color: string, id: string)
    ensures QuantityOf(AddLine(items, product, size, color), id)
         == QuantityOf(items, id) + (if id == ItemKey(product.id, size, color) then 1 else 0)
  {
    var key := ItemKey(product.id, size, color);
    var i := FindIndex(items, key);
    if i > -1 {
      SumUpdate(items, i, items[i].(quantity := items[i].quantity + 1), QuantityWithKey(id));
    } else {
      SumAppend(items, CartItem(key, product, size, color, 1), QuantityWithKey(id));
    }
  }

  /**
    Adding one variant leaves the units of every other variant unchanged, as
    long as product ids and sizes contain no '-' (otherwise two variants can
    share a key).
  */
  lemma AddOtherVariant(items: seq<CartItem>, product: Product, size: string, color: string,
                        otherId: string, otherSize: string, otherColor: string)
    requires '-' !in product.id && '-' !in size && '-' !in otherId && '-' !in otherSize
    requires (otherId, otherSize, otherColor) != (product.id, size, color)
    ensures QuantityOf(AddLine(items, product, size, color), ItemKey(otherId, otherSize, otherColor))
         == QuantityOf(items, ItemKey(otherId, otherSize, otherColor))
  {
    ItemKeyInjective(product.id, size, color, otherId, otherSize, otherColor);
    AddLineQuantityOf(items, product, size, color, ItemKey(otherId, otherSize, otherColor));
  }

  /** addToCart keeps keys unique and quantities positive. */
  lemma AddLinePreservesWellFormed(items: seq<CartItem>, product: Product, size: string, color: string)
    requires WellFormed(items)
    ensures WellFormed(AddLine(items, product, size, color))
  {
    var key := ItemKey(product.id, size, color);
    var i := FindIndex(items, key);
    var r := AddLine(items, product, size, color);
    if i > -1 {
      assert forall j :: 0 <= j < |r| ==> r[j].itemId == items[j].itemId;
    } else {
      assert forall j :: 0 <= j < |items| ==> r[j] == items[j];
      assert r[|items|].itemId == key;
    }
  }

  /** The cart after the same variant has been added n times. */
  function AddRepeatedly(items: seq<CartItem>, product: Product, size: string, color: string, n: nat): seq<CartItem>
  {
    if n == 0 then items else AddLine(AddRepeatedly(items, product, size, color, n - 1), product, size, color)
  }

  lemma {:induction false} AddRepeatedlyQuantity(items: seq<CartItem>, product: Product, size: string, color: string, n: nat)
    requires WellFormed(items)
    ensures var r := AddRepeatedly(items, product, size, color, n);
      && WellFormed(r)
      && QuantityOf(r, ItemKey(product.id, size, color)) == QuantityOf(items, ItemKey(product.id, size, color)) + n
  {
    if n > 0 {
      var prev := AddRepeatedly(items, product, size, color, n - 1);
      AddRepeatedlyQuantity(items, product, size, color, n - 1);
      AddLinePreservesWellFormed(prev, product, size, color);
      AddLineQuantityOf(prev, product, size, color, ItemKey(product.id, size, color));
    }
  }

  /**
    Adding a variant that is not in the cart n >= 1 times leaves exactly one
    line with its key, and that line's quantity is n.
  */
  lemma AddSameVariantNTimes(items: seq<CartItem>, product: Product, size: string, color: string, n: nat)
    requires WellFormed(items) && n >= 1
    requires !HasKey(items, ItemKey(product.id, size, color))
    ensures var r := AddRepeatedly(items, product, size, color, n);
      var i := FindIndex(r, ItemKey(product.id, size, color));
      && 0 <= i
      && r[i].quantity == n
      && (forall j :: 0 <= j < |r| && r[j].itemId == ItemKey(product.id, size, color) ==> j == i)
  {
    var key := ItemKey(product.id, size, color);
    var r := AddRepeatedly(items, product, size, color, n);
    AddRepeatedlyQuantity(items, product, size, color, n);
    QuantityOfAbsent(items, key);
    assert r == AddLine(AddRepeatedly(items, product, size, color, n - 1), product, size, color);
    var i := FindIndex(r, key);
    QuantityOfPresent(r, key, i);
  }

  // ----- removeFromCart -----------------------------------------------------

  /** The removeFromCart updater: keeps, in order, the lines whose itemId is not `id`. */
  function RemoveLines(items: seq<CartItem>, id: string): (r: seq<CartItem>)
    ensures |r| <= |items|
    ensures forall x :: x in r <==> x in items && x.itemId != id
  {
    if items == [] then []
    else
      var n := |items| - 1;
      var rest := RemoveLines(items[..n], id);
      assert items == items[..n] + [items[n]];
      if items[n].itemId == id then rest else rest + [items[n]]
  }

  lemma RemoveLinesNoKey(items: seq<CartItem>, id: string)
    ensures !HasKey(RemoveLines(items, id), id)
  {
    var r := RemoveLines(items, id);
    forall i | 0 <= i < |r| ensures r[i].itemId != id {
      assert r[i] in r;
    }
  }

  /** Removing a key that is absent changes nothing. */
  lemma {:induction false} RemoveAbsent(items: seq<CartItem>, id: string)
    requires !HasKey(items, id)
    ensures RemoveLines(items, id) == items
  {
    if items != [] {
      var n := |items| - 1;
      var prefix := items[..n];
      assert !HasKey(prefix, id) by {
        assert forall j :: 0 <= j < n ==> prefix[j] == items[j];
      }
      RemoveAbsent(prefix, id);
      assert items[n].itemId != id;
      RemoveLinesLast(items, id);
      assert prefix + [items[n]] == items;
    }
  }

  /** Removing twice is removing once. */
  lemma RemoveIdempotent(items: seq<CartItem>, id: string)
    ensures RemoveLines(RemoveLines(items, id), id) == RemoveLines(items, id)
  {
    RemoveLinesNoKey(items, id);
    RemoveAbsent(RemoveLines(items, id), id);
  }

  /** RemoveLines unfolded once at the last line. */
  lemma RemoveLinesLast(items: seq<CartItem>, id: string)
    requires items != []
    ensures RemoveLines(items, id) == RemoveLines(items[..|items| - 1], id)
      + (if items[|items| - 1].itemId == id then [] else [items[|items| - 1]])
  {
  }

  /** Cutting out a line before the last one commutes with dropping the last line. */
  lemma CutBeforeLast(items: seq<CartItem>, i: int)
    requires 0 <= i < |items| - 1
    ensures items[..i] + items[i + 1..]
         == (items[..|items| - 1][..i] + items[..|items| - 1][i + 1..]) + [items[|items| - 1]]
  {
    var n := |items| - 1;
    assert items[i + 1..] == items[i + 1..n] + [items[n]];
  }

  /** With unique keys, removing a present key cuts out exactly its line, keeping the order of the rest. */
  lemma {:induction false} RemovePresent(items: seq<CartItem>, id: string, i: int)
    requires UniqueKeys(items)
    requires 0 <= i < |items| && items[i].itemId == id
    ensures RemoveLines(items, id) == items[..i] + items[i + 1..]
  {
    var n := |items| - 1;
    var prefix := items[..n];
    RemoveLinesLast(items, id);
    if i == n {
      assert !HasKey(prefix, id);
      RemoveAbsent(prefix, id);
      assert items[..i] + items[i + 1..] == prefix;
    } else {
      assert UniqueKeys(prefix);
      RemovePresent(prefix, id, i);
      assert items[n].itemId != id;
      CutBeforeLast(items, i);
    }
  }

  /** Removal keeps keys unique and quantities positive. */
  lemma {:induction false} RemovePreservesWellFormed(items: seq<CartItem>, id: string)
    requires WellFormed(items)
    ensures WellFormed(RemoveLines(items, id))
  {
    if items != [] {
      var n := |items| - 1;
      var prefix := items[..n];
      assert forall j :: 0 <= j < n ==> prefix[j] == items[j];
      RemovePreservesWellFormed(prefix, id);
      var rest := RemoveLines(prefix, id);
      if items[n].itemId != id {
        var r := rest + [items[n]];
        forall j, k | 0 <= j < k < |r| ensures r[j].itemId != r[k].itemId {
          assert r[j] == rest[j];
          if k == |rest| {
            assert rest[j] in prefix;
            var m :| 0 <= m < n && prefix[m] == rest[j];
          } else {
            assert r[k] == rest[k];
          }
        }
        forall j | 0 <= j < |r| ensures r[j].quantity >= 1 {
          if j < |rest| {
            assert r[j] == rest[j];
          }
        }
      }
    }
  }

  /** Removal takes away exactly the units held under that key. */
  lemma {:induction false} RemoveTotalItems(items: seq<CartItem>, id: string)
    ensures TotalItems(RemoveLines(items, id)) == TotalItems(items) - QuantityOf(items, id)
  {
    if items != [] {
      var n := |items| - 1;
      var rest := RemoveLines(items[..n], id);
      RemoveTotalItems(items[..n], id);
      if items[n].itemId != id {
        SumAppend(rest, items[n], Quantity);
      }
    }
  }

  // ----- updateQuantity -----------------------------------------------------

  /** The map updater of updateQuantity: every line with the key gets quantity q. */
  function SetQuantity(items: seq<CartItem>, id: string, q: int): (r: seq<CartItem>)
    ensures |r| == |items|
    ensures forall j :: 0 <= j < |items| ==>
      r[j] == if items[j].itemId == id then items[j].(quantity := q) else items[j]
  {
    if items == [] then []
    else
      var n := |items| - 1;
      var last := items[n];
      SetQuantity(items[..n], id, q) + [if last.itemId == id then last.(quantity := q) else last]
  }

  /** updateQuantity: a quantity of zero or less removes the line, otherwise it is set outright. */
  function UpdateLines(items: seq<CartItem>, id: string, q: int): seq<CartItem>
  {
    if q <= 0 then RemoveLines(items, id) else SetQuantity(items, id, q)
  }

  /**
    A positive quantity replaces (not adds to) the quantity of the one line
    with the key, keeping length, order and the other lines; the item count
    moves by the difference.
  */
  lemma UpdatePresent(items: seq<CartItem>, id: string, q: int, i: int)
    requires UniqueKeys(items) && q > 0
    requires 0 <= i < |items| && items[i].itemId == id
    ensures var r := UpdateLines(items, id, q);
      && r == items[i := items[i].(quantity := q)]
      && TotalItems(r) == TotalItems(items) - items[i].quantity + q
  {
    var r := UpdateLines(items, id, q);
    assert r == items[i := items[i].(quantity := q)];
    SumUpdate(items, i, items[i].(quantity := q), Quantity);
  }

  /** Updating a key that is not in the cart changes nothing, whatever the quantity. */
  lemma UpdateAbsent(items: seq<CartItem>, id: string, q: int)
    requires !HasKey(items, id)
    ensures UpdateLines(items, id, q) == items
  {
    if q <= 0 {
      RemoveAbsent(items, id);
    } else {
      assert SetQuantity(items, id, q) == items;
    }
  }

  /** updateQuantity keeps keys unique and quantities positive. */
  lemma UpdatePreservesWellFormed(items: seq<CartItem>, id: string, q: int)
    requires WellFormed(items)
    ensures WellFormed(UpdateLines(items, id, q))
  {
    if q <= 0 {
      RemovePreservesWellFormed(items, id);
    }
  }
}
