/** The two `reduce` folds every cart view shares: the number of units and
    the price total. Both folds run left to right from 0, so each is the fold
    of all but the last line plus the last line's contribution. */
module CartTotals {
  import opened Types
  import opened CartLines

  /** `items.reduce((total, item) => total + item.quantity, 0)`. */
  function TotalItems(items: seq<CartItem>): (r: int)
  {
    if items == [] then 0
    else TotalItems(items[..|items| - 1]) + items[|items| - 1].quantity
  }

  /** What one line contributes to the price total: unit price times units. */
  function LineAmount(item: CartItem): (r: real)
  {
    item.product.price * item.quantity as real
  }

  /** `items.reduce((total, item) => total + item.price * item.quantity, 0)`. */
  function TotalPrice(items: seq<CartItem>): (r: real)
  {
    if items == [] then 0.0
    else TotalPrice(items[..|items| - 1]) + LineAmount(items[|items| - 1])
  }

  /** Both folds are additive over concatenation. */
  lemma {:induction false} TotalsAppend(s: seq<CartItem>, t: seq<CartItem>)
    ensures TotalItems(s + t) == TotalItems(s) + TotalItems(t)
    ensures TotalPrice(s + t) == TotalPrice(s) + TotalPrice(t)
    decreases |t|
  {
    if t == [] {
      assert s + t == s;
    } else {
      var t' := t[..|t| - 1];
      assert (s + t)[..|s + t| - 1] == s + t';
      TotalsAppend(s, t');
    }
  }

  /** A single line contributes its quantity and its amount. */
  lemma {:induction false} TotalsSingleton(x: CartItem)
    ensures TotalItems([x]) == x.quantity && TotalPrice([x]) == LineAmount(x)
  {
    assert [x][..0] == [];
  }

  /** Both folds are 0 on an empty cart, and the unit total of a cart that
      keeps the invariant is at least its number of lines, so it is 0 exactly
      when the cart is empty. */
  lemma {:induction false} TotalItemsAtLeastLines(items: seq<CartItem>)
    requires CartInvariant(items)
    ensures TotalItems(items) >= |items|
    ensures TotalItems(items) == 0 <==> items == []
  {
    if items != [] {
      var init := items[..|items| - 1];
      assert CartInvariant(init) by {
        assert forall j :: 0 <= j < |init| ==> init[j] == items[j];
      }
      TotalItemsAtLeastLines(init);
    }
  }

  /** Splitting the cart at line `k` separates that line's contribution. */
  lemma {:induction false} TotalsAround(items: seq<CartItem>, k: int)
    requires 0 <= k < |items|
    ensures TotalItems(items) == TotalItems(items[..k] + items[k + 1..]) + items[k].quantity
    ensures TotalPrice(items) == TotalPrice(items[..k] + items[k + 1..]) + LineAmount(items[k])
  {
    assert items == items[..k] + [items[k]] + items[k + 1..];
    TotalsAppend(items[..k] + [items[k]], items[k + 1..]);
    TotalsAppend(items[..k], [items[k]]);
    TotalsAppend(items[..k], items[k + 1..]);
    TotalsSingleton(items[k]);
  }

  /** Under unique ids, the unit total is the in-cart quantity of one product
      plus the unit total of every other line. */
  lemma {:induction false} TotalItemsSplit(items: seq<CartItem>, id: string)
    requires UniqueIds(items)
    ensures TotalItems(items) == TotalItems(WithoutId(items, id)) + InCartQuantity(items, id)
  {
    var k := IndexOf(items, id);
    if k >= 0 {
      WithoutIdRemovesOneLine(items, id);
      TotalsAround(items, k);
    } else {
      WithoutIdAbsent(items, id);
    }
  }
}
