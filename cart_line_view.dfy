/** One cart line as both cart panels draw it: the unit price, the line
    amount, the quantity control with its default minimum, and the three
    store actions its buttons issue; plus the "producto"/"productos" label
    both footers use. */
module CartLineView {
  import opened Types
  import opened CartLines
  import opened CartTotals
  import opened CartStore
  import QuantityControl

  const Singular: string := "producto"
  const Plural: string := "productos"

  /** The label next to a unit total. */
  function ItemsLabel(total: int): (word: string)
    ensures word == "producto" || word == "productos"
    ensures word == "producto" <==> total == 1
  {
    if total == 1 then Singular else Plural
  }

  datatype LineView = LineView(
    id: string,
    name: string,
    unitPrice: real,
    amount: real,
    control: QuantityControl.ControlView,
    onIncrement: StoreCall,
    onDecrement: StoreCall,
    onRemove: StoreCall)

  /** The markup of one line: `QuantityControl` with no `minQuantity`,
      "+" wired to `updateQuantity(id, quantity + 1)`, "−" to
      `updateQuantity(id, quantity - 1)` and the trash button to
      `removeItem(id)`. */
  function RenderLine(item: CartItem): (v: LineView)
    ensures v.id == item.Id() && v.name == item.product.name
    ensures v.unitPrice == item.product.price
    ensures v.amount == item.product.price * item.quantity as real
    ensures v.control.shown == item.quantity
    ensures v.control.minusDisabled <==> item.quantity <= 1
    ensures v.onIncrement == UpdateQuantityCall(item.Id(), item.quantity + 1)
    ensures v.onDecrement == UpdateQuantityCall(item.Id(), item.quantity - 1)
    ensures v.onRemove == RemoveItemCall(item.Id())
  {
    LineView(item.Id(), item.product.name, item.product.price, LineAmount(item),
      QuantityControl.Render(item.quantity),
      UpdateQuantityCall(item.Id(), item.quantity + 1),
      UpdateQuantityCall(item.Id(), item.quantity - 1),
      RemoveItemCall(item.Id()))
  }

  /** `items.map(...)`: one line per cart item, in order. */
  function RenderLines(items: seq<CartItem>): (lines: seq<LineView>)
    ensures |lines| == |items|
    ensures forall k :: 0 <= k < |items| ==> lines[k] == RenderLine(items[k])
  {
    seq(|items|, k requires 0 <= k < |items| => RenderLine(items[k]))
  }

  /** The store action a click on a line's button issues, if any: the
      control's own buttons go through `QuantityControl.Click`, so a
      disabled "−" issues nothing. */
  function LineClick(v: LineView, b: QuantityControl.Button): (call: Option<StoreCall>)
    ensures b == QuantityControl.Plus ==>
      call == if v.control.plusDisabled then None else Some(v.onIncrement)
    ensures b == QuantityControl.Minus ==> (call.None? <==> v.control.minusDisabled)
    ensures call.Some? ==> call.value == v.onIncrement || call.value == v.onDecrement
  {
    var fired := QuantityControl.Click(v.control, b);
    if fired.None? then None
    else if fired.value.OnIncrement? then Some(v.onIncrement)
    else Some(v.onDecrement)
  }

  /** Under unique ids a line's position is the first position of its id. */
  lemma {:induction false} IndexOfLine(items: seq<CartItem>, k: int)
    requires UniqueIds(items)
    requires 0 <= k < |items|
    ensures IndexOf(items, items[k].Id()) == k
  {
  }

  /** One more unit on a line adds its unit price to its amount. */
  lemma {:induction false} LineAmountOneMore(item: CartItem)
    ensures LineAmount(item.(quantity := item.quantity + 1)) == LineAmount(item) + item.product.price
    ensures LineAmount(item.(quantity := item.quantity - 1)) == LineAmount(item) - item.product.price
  {
    var p, n := item.product.price, item.quantity;
    assert p * (n + 1) as real == p * n as real + p;
    assert p * (n - 1) as real == p * n as real - p;
  }

  /** Replacing line `k`'s quantity by `n` moves both totals by exactly that
      line's change. */
  lemma {:induction false} TotalsAfterSetQuantity(items: seq<CartItem>, k: int, n: int)
    requires 0 <= k < |items|
    ensures var r := items[k := items[k].(quantity := n)];
      && TotalItems(r) == TotalItems(items) - items[k].quantity + n
      && TotalPrice(r) == TotalPrice(items) - LineAmount(items[k]) + LineAmount(items[k].(quantity := n))
  {
    var r := items[k := items[k].(quantity := n)];
    assert r[..k] + r[k + 1..] == items[..k] + items[k + 1..];
    TotalsAround(items, k);
    TotalsAround(r, k);
  }

  /** One unit more or less on line `k` moves the unit total by one and the
      price total by the unit price. */
  lemma {:induction false} TotalsByOne(items: seq<CartItem>, k: int)
    requires 0 <= k < |items|
    ensures var q := items[k].quantity;
      && TotalItems(items[k := items[k].(quantity := q + 1)]) == TotalItems(items) + 1
      && TotalPrice(items[k := items[k].(quantity := q + 1)]) == TotalPrice(items) + items[k].product.price
      && TotalItems(items[k := items[k].(quantity := q - 1)]) == TotalItems(items) - 1
      && TotalPrice(items[k := items[k].(quantity := q - 1)]) == TotalPrice(items) - items[k].product.price
  {
    var q := items[k].quantity;
    LineAmountOneMore(items[k]);
    TotalsAfterSetQuantity(items, k, q + 1);
    TotalsAfterSetQuantity(items, k, q - 1);
  }

  /** On a cart that keeps the invariant, `updateQuantity` with a positive
      quantity for line `k`'s id changes that line alone and keeps the
      invariant. */
  lemma {:induction false} UpdateLine(items: seq<CartItem>, k: int, n: int)
    requires CartInvariant(items)
    requires 0 <= k < |items|
    requires n >= 1
    ensures UpdatedItems(items, items[k].Id(), n) == items[k := items[k].(quantity := n)]
    ensures CartInvariant(UpdatedItems(items, items[k].Id(), n))
  {
    IndexOfLine(items, k);
    AssignAtIndexIsWithQuantity(items, items[k].Id(), n);
    WithQuantityPreservesInvariant(items, items[k].Id(), n);
  }

  /** Pressing "+" on line `k` adds one unit of that product: the call it
      issues changes only that line, raising its quantity by one, and keeps
      the cart invariant. */
  lemma {:induction false} IncrementAddsOneUnit(items: seq<CartItem>, k: int)
    requires CartInvariant(items)
    requires 0 <= k < |items|
    ensures var call := LineClick(RenderLine(items[k]), QuantityControl.Plus);
      call.Some? && call.value.UpdateQuantityCall?
    ensures RenderLine(items[k]).onIncrement == UpdateQuantityCall(items[k].Id(), items[k].quantity + 1)
    ensures var r := UpdatedItems(items, items[k].Id(), items[k].quantity + 1);
      && CartInvariant(r)
      && r == items[k := items[k].(quantity := items[k].quantity + 1)]
  {
    UpdateLine(items, k, items[k].quantity + 1);
  }

  /** After "+" on line `k` the unit total is one more and the price total
      is one unit price more. */
  lemma {:induction false} IncrementTotals(items: seq<CartItem>, k: int)
    requires CartInvariant(items)
    requires 0 <= k < |items|
    ensures var r := UpdatedItems(items, items[k].Id(), items[k].quantity + 1);
      && TotalItems(r) == TotalItems(items) + 1
      && TotalPrice(r) == TotalPrice(items) + items[k].product.price
  {
    UpdateLine(items, k, items[k].quantity + 1);
    TotalsByOne(items, k);
  }

  /** Pressing "−" on line `k` issues nothing at quantity 1, where the
      control disables it; otherwise its call removes one unit and changes
      only that line, so the "−" never drops a line from either panel. */
  lemma {:induction false} DecrementNeverDropsLine(items: seq<CartItem>, k: int)
    requires CartInvariant(items)
    requires 0 <= k < |items|
    ensures var call := LineClick(RenderLine(items[k]), QuantityControl.Minus);
      call.None? <==> items[k].quantity == 1
    ensures RenderLine(items[k]).onDecrement == UpdateQuantityCall(items[k].Id(), items[k].quantity - 1)
    ensures items[k].quantity > 1 ==>
      var r := UpdatedItems(items, items[k].Id(), items[k].quantity - 1);
      && CartInvariant(r)
      && r == items[k := items[k].(quantity := items[k].quantity - 1)]
      && TotalItems(r) == TotalItems(items) - 1
      && TotalPrice(r) == TotalPrice(items) - items[k].product.price
  {
    if items[k].quantity > 1 {
      UpdateLine(items, k, items[k].quantity - 1);
      TotalsByOne(items, k);
    }
  }

  /** The trash button removes exactly line `k` and its contribution to both
      totals. */
  lemma {:induction false} RemoveDropsLine(items: seq<CartItem>, k: int)
    requires CartInvariant(items)
    requires 0 <= k < |items|
    ensures var r := Step(CartState(items, false, None), RenderLine(items[k]).onRemove).items;
      && CartInvariant(r)
      && r == items[..k] + items[k + 1..]
      && TotalItems(r) == TotalItems(items) - items[k].quantity
      && TotalPrice(r) == TotalPrice(items) - LineAmount(items[k])
  {
    IndexOfLine(items, k);
    WithoutIdRemovesOneLine(items, items[k].Id());
    WithoutIdPreservesInvariant(items, items[k].Id());
    TotalsAround(items, k);
  }

  /** Under the cart invariant the label is singular exactly when the cart
      holds one line of one unit. */
  lemma {:induction false} SingularIffOneUnit(items: seq<CartItem>)
    requires CartInvariant(items)
    ensures ItemsLabel(TotalItems(items)) == "producto" <==> |items| == 1 && items[0].quantity == 1
  {
    TotalItemsAtLeastLines(items);
    if |items| == 1 {
      assert items == [items[0]];
      TotalsSingleton(items[0]);
    }
  }
}
