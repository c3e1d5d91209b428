/** The array operations both cart containers apply to their list of lines:
    `findIndex` and `find` by product id, `filter` out one id, `map` one id's
    quantity, and the invariant a well-formed cart keeps (one line per product
    id, every quantity at least 1). */
module CartLines {
  import opened Types

  /** `items.findIndex(item => item.id === id)`: the first position holding
      `id`, or -1 when no line does. */
  function IndexOf(items: seq<CartItem>, id: string): (i: int)
    ensures -1 <= i < |items|
    ensures i >= 0 ==> items[i].Id() == id && forall j :: 0 <= j < i ==> items[j].Id() != id
    ensures i == -1 ==> forall j :: 0 <= j < |items| ==> items[j].Id() != id
  {
    if items == [] then -1
    else if items[0].Id() == id then 0
    else
      var k := IndexOf(items[1..], id);
      if k == -1 then -1 else k + 1
  }

  /** `items.find(item => item.id === id)?.quantity ?? 0`: the quantity of
      the first line holding `id`, or 0 when there is none. */
  function InCartQuantity(items: seq<CartItem>, id: string): (q: int)
    ensures IndexOf(items, id) >= 0 ==> q == items[IndexOf(items, id)].quantity
    ensures IndexOf(items, id) == -1 ==> q == 0
  {
    if items == [] then 0
    else if items[0].Id() == id then items[0].quantity
    else InCartQuantity(items[1..], id)
  }

  /** `items.filter(item => item.id !== id)`. */
  function WithoutId(items: seq<CartItem>, id: string): (r: seq<CartItem>)
    ensures forall j :: 0 <= j < |r| ==> r[j].Id() != id
    ensures |r| <= |items|
  {
    if items == [] then []
    else if items[0].Id() == id then WithoutId(items[1..], id)
    else [items[0]] + WithoutId(items[1..], id)
  }

  /** `items.map(item => item.id === id ? { ...item, quantity: n } : item)`. */
  function WithQuantity(items: seq<CartItem>, id: string, n: int): (r: seq<CartItem>)
    ensures |r| == |items|
    ensures forall j :: 0 <= j < |items| ==>
      r[j].product == items[j].product &&
      r[j].quantity == (if items[j].Id() == id then n else items[j].quantity)
  {
    if items == [] then []
    else
      [if items[0].Id() == id then items[0].(quantity := n) else items[0]]
      + WithQuantity(items[1..], id, n)
  }

  /** At most one line per product id. */
  ghost predicate UniqueIds(items: seq<CartItem>) {
    forall i, j :: 0 <= i < j < |items| ==> items[i].Id() != items[j].Id()
  }

  /** The cart invariant: unique ids and every quantity at least 1. */
  ghost predicate CartInvariant(items: seq<CartItem>) {
    UniqueIds(items) && forall j :: 0 <= j < |items| ==> items[j].quantity >= 1
  }

  lemma {:induction false} UniqueIdsCons(x: CartItem, s: seq<CartItem>)
    ensures UniqueIds([x] + s) <==> UniqueIds(s) && forall y :: y in s ==> y.Id() != x.Id()
  {
    var t := [x] + s;
    assert forall j :: 0 <= j < |s| ==> t[j + 1] == s[j];
    if UniqueIds(s) && forall y :: y in s ==> y.Id() != x.Id() {
      forall i, j | 0 <= i < j < |t| ensures t[i].Id() != t[j].Id() {
        if i == 0 { assert t[j] == s[j - 1]; assert t[j] in s; }
      }
    }
    if UniqueIds(t) {
      forall y | y in s ensures y.Id() != x.Id() {
        var j :| 0 <= j < |s| && s[j] == y;
        assert t[j + 1] == y && t[0] == x;
        assert t[0].Id() != t[j + 1].Id();
      }
    }
  }

  /** Where an id sits in a concatenation: in the first part if it is there,
      otherwise shifted past the first part. */
  lemma {:induction false} IndexOfAppend(s: seq<CartItem>, t: seq<CartItem>, id: string)
    ensures IndexOf(s + t, id) ==
      if IndexOf(s, id) >= 0 then IndexOf(s, id)
      else if IndexOf(t, id) >= 0 then |s| + IndexOf(t, id)
      else -1
  {
    var st := s + t;
    assert forall j :: 0 <= j < |s| ==> st[j] == s[j];
    assert forall j :: 0 <= j < |t| ==> st[|s| + j] == t[j];
    var k, a, b := IndexOf(st, id), IndexOf(s, id), IndexOf(t, id);
    if a >= 0 {
      assert st[a].Id() == id;
    } else if b >= 0 {
      assert st[|s| + b].Id() == id;
      if k >= |s| { assert t[k - |s|] == st[k]; }
    } else {
      forall j | 0 <= j < |st| ensures st[j].Id() != id {
        if j >= |s| { assert st[j] == t[j - |s|]; }
      }
    }
  }

  /** The in-cart quantity of an id in a concatenation. */
  lemma {:induction false} InCartAppend(s: seq<CartItem>, t: seq<CartItem>, id: string)
    ensures InCartQuantity(s + t, id) ==
      if IndexOf(s, id) >= 0 then InCartQuantity(s, id) else InCartQuantity(t, id)
  {
    IndexOfAppend(s, t, id);
    var st := s + t;
    if IndexOf(s, id) >= 0 {
      assert st[IndexOf(s, id)] == s[IndexOf(s, id)];
    } else if IndexOf(t, id) >= 0 {
      assert st[|s| + IndexOf(t, id)] == t[IndexOf(t, id)];
    }
  }

  // ----- removal (filter) -----

  /** Filtering an absent id is a no-op. */
  lemma {:induction false} WithoutIdAbsent(items: seq<CartItem>, id: string)
    requires IndexOf(items, id) == -1
    ensures WithoutId(items, id) == items
  {
    if items != [] {
      assert items[1..][0..] == items[1..];
      WithoutIdAbsent(items[1..], id);
      assert items == [items[0]] + items[1..];
    }
  }

  /** The filtered lines are exactly the lines whose id differs. */
  lemma {:induction false} WithoutIdMembers(items: seq<CartItem>, id: string)
    ensures forall x :: x in WithoutId(items, id) <==> x in items && x.Id() != id
  {
    if items != [] {
      WithoutIdMembers(items[1..], id);
      assert items == [items[0]] + items[1..];
    }
  }

  /** After filtering, no line holds the id. */
  lemma {:induction false} WithoutIdGone(items: seq<CartItem>, id: string)
    ensures IndexOf(WithoutId(items, id), id) == -1
  {
  }

  /** Filtering twice is filtering once. */
  lemma {:induction false} WithoutIdIdempotent(items: seq<CartItem>, id: string)
    ensures WithoutId(WithoutId(items, id), id) == WithoutId(items, id)
  {
    WithoutIdGone(items, id);
    WithoutIdAbsent(WithoutId(items, id), id);
  }

  /** With unique ids, filtering a present id removes exactly its one line
      and keeps every other line in its order. */
  lemma {:induction false} WithoutIdRemovesOneLine(items: seq<CartItem>, id: string)
    requires UniqueIds(items)
    requires IndexOf(items, id) >= 0
    ensures var k := IndexOf(items, id); WithoutId(items, id) == items[..k] + items[k + 1..]
  {
    WithoutIdAt(items, id, IndexOf(items, id));
  }

  /** The same, for any position `k` that holds the id. */
  lemma {:induction false} WithoutIdAt(items: seq<CartItem>, id: string, k: int)
    requires UniqueIds(items)
    requires 0 <= k < |items| && items[k].Id() == id
    ensures WithoutId(items, id) == items[..k] + items[k + 1..]
  {
    if k == 0 {
      WithoutIdHead(items, id);
    } else {
      var tail := items[1..];
      UniqueIdsTail(items);
      assert tail[k - 1] == items[k];
      WithoutIdAt(tail, id, k - 1);
      assert items[0].Id() != id;
      calc {
        WithoutId(items, id);
        [items[0]] + WithoutId(tail, id);
        [items[0]] + (tail[..k - 1] + tail[k..]);
        ([items[0]] + tail[..k - 1]) + tail[k..];
        { assert items[..k] == [items[0]] + tail[..k - 1]; assert items[k + 1..] == tail[k..]; }
        items[..k] + items[k + 1..];
      }
    }
  }

  /** With unique ids, filtering the first line's id drops just that line. */
  lemma {:induction false} WithoutIdHead(items: seq<CartItem>, id: string)
    requires UniqueIds(items)
    requires |items| > 0 && items[0].Id() == id
    ensures WithoutId(items, id) == items[1..]
  {
    var tail := items[1..];
    assert IndexOf(tail, id) == -1 by {
      forall j | 0 <= j < |tail| ensures tail[j].Id() != id {
        assert tail[j] == items[j + 1];
      }
    }
    WithoutIdAbsent(tail, id);
  }

  /** Unique ids survive dropping the first line. */
  lemma {:induction false} UniqueIdsTail(items: seq<CartItem>)
    requires UniqueIds(items)
    requires |items| > 0
    ensures UniqueIds(items[1..])
  {
    var tail := items[1..];
    forall a, b | 0 <= a < b < |tail| ensures tail[a].Id() != tail[b].Id() {
      assert tail[a] == items[a + 1] && tail[b] == items[b + 1];
    }
  }

  /** `filter` distributes over concatenation. */
  lemma {:induction false} WithoutIdAppend(s: seq<CartItem>, t: seq<CartItem>, id: string)
    ensures WithoutId(s + t, id) == WithoutId(s, id) + WithoutId(t, id)
  {
    if s == [] {
      assert s + t == t;
    } else {
      assert (s + t)[0] == s[0] && (s + t)[1..] == s[1..] + t;
      WithoutIdAppend(s[1..], t, id);
    }
  }

  /** After filtering, the id is not in the cart and every other id keeps its
      quantity. */
  lemma {:induction false} WithoutIdInCart(items: seq<CartItem>, id: string, other: string)
    ensures InCartQuantity(WithoutId(items, id), id) == 0
    ensures other != id ==> InCartQuantity(WithoutId(items, id), other) == InCartQuantity(items, other)
  {
    if items != [] {
      WithoutIdInCart(items[1..], id, other);
      if items[0].Id() != id {
        var r := [items[0]] + WithoutId(items[1..], id);
        assert r[1..] == WithoutId(items[1..], id);
      }
    }
  }

  /** Filtering keeps the cart invariant. */
  lemma {:induction false} WithoutIdPreservesInvariant(items: seq<CartItem>, id: string)
    requires CartInvariant(items)
    ensures CartInvariant(WithoutId(items, id))
  {
    if items != [] {
      UniqueIdsCons(items[0], items[1..]);
      assert [items[0]] + items[1..] == items;
      assert CartInvariant(items[1..]) by {
        forall j | 0 <= j < |items[1..]| ensures items[1..][j].quantity >= 1 {
          assert items[1..][j] == items[j + 1];
        }
      }
      WithoutIdPreservesInvariant(items[1..], id);
      var rest := WithoutId(items[1..], id);
      if items[0].Id() != id {
        WithoutIdMembers(items[1..], id);
        UniqueIdsCons(items[0], rest);
        var r := [items[0]] + rest;
        forall j | 0 <= j < |r| ensures r[j].quantity >= 1 {
          if j > 0 { assert r[j] == rest[j - 1]; }
        }
      }
    }
  }

  // ----- overwrite (map) -----

  /** Overwriting the quantity never adds, drops or reorders lines: ids and
      the positions of ids are unchanged. */
  lemma {:induction false} WithQuantityKeepsIds(items: seq<CartItem>, id: string, n: int, other: string)
    ensures IndexOf(WithQuantity(items, id, n), other) == IndexOf(items, other)
  {
    var r := WithQuantity(items, id, n);
    assert forall j :: 0 <= j < |r| ==> r[j].Id() == items[j].Id();
    var i, k := IndexOf(r, other), IndexOf(items, other);
    if i >= 0 && k >= 0 {
      assert !(i < k) && !(k < i);
    }
  }

  /** Overwriting one id's quantity leaves every other line, in order, as it
      was. */
  lemma {:induction false} WithQuantityOthersUnchanged(items: seq<CartItem>, id: string, n: int)
    ensures WithoutId(WithQuantity(items, id, n), id) == WithoutId(items, id)
  {
    if items != [] {
      var r := WithQuantity(items, id, n);
      assert r[1..] == WithQuantity(items[1..], id, n);
      WithQuantityOthersUnchanged(items[1..], id, n);
    }
  }

  /** With unique ids, assigning the line at the id's index is the same as
      mapping over the whole cart. */
  lemma {:induction false} AssignAtIndexIsWithQuantity(items: seq<CartItem>, id: string, n: int)
    requires UniqueIds(items)
    requires IndexOf(items, id) >= 0
    ensures var i := IndexOf(items, id);
      items[i := items[i].(quantity := n)] == WithQuantity(items, id, n)
  {
    var i := IndexOf(items, id);
    var a, r := items[i := items[i].(quantity := n)], WithQuantity(items, id, n);
    forall j | 0 <= j < |items| ensures a[j] == r[j] {
      if j != i {
        assert items[j].Id() != items[i].Id() by {
          if j < i { assert items[j].Id() != items[i].Id(); }
        }
      }
    }
  }

  /** An absent id leaves the lines as they were: `map` never inserts. */
  lemma {:induction false} WithQuantityAbsent(items: seq<CartItem>, id: string, n: int)
    requires IndexOf(items, id) == -1
    ensures WithQuantity(items, id, n) == items
  {
    var r := WithQuantity(items, id, n);
    assert forall j :: 0 <= j < |r| ==> r[j] == items[j];
  }

  /** After the overwrite the id holds exactly `n` when present and other ids
      keep their quantity. */
  lemma {:induction false} WithQuantityInCart(items: seq<CartItem>, id: string, n: int, other: string)
    ensures InCartQuantity(WithQuantity(items, id, n), id) == if IndexOf(items, id) >= 0 then n else 0
    ensures other != id ==> InCartQuantity(WithQuantity(items, id, n), other) == InCartQuantity(items, other)
  {
    WithQuantityKeepsIds(items, id, n, id);
    WithQuantityKeepsIds(items, id, n, other);
  }

  lemma {:induction false} WithQuantityPreservesInvariant(items: seq<CartItem>, id: string, n: int)
    requires CartInvariant(items)
    requires n >= 1
    ensures CartInvariant(WithQuantity(items, id, n))
  {
    var r := WithQuantity(items, id, n);
    assert forall j :: 0 <= j < |r| ==> r[j].Id() == items[j].Id();
  }

  // ----- find -----

  /** Under the invariant a product is present exactly when its in-cart
      quantity is positive. */
  lemma {:induction false} InCartPositiveIffPresent(items: seq<CartItem>, id: string)
    requires CartInvariant(items)
    ensures InCartQuantity(items, id) > 0 <==> IndexOf(items, id) >= 0
  {
  }
}
