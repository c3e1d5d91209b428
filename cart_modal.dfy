/** The cart modal driven by the store: the same line list as the drawer, a
    promotion line only when the cart has lines, a footer that always shows
    the unit count and subtotal, and a pay button disabled on an empty
    cart. Its open flag and close handler are props. */
module CartModal {
  import opened Types
  import opened CartLines
  import opened CartTotals
  import opened CartStore
  import opened CartLineView
  import CartDrawer

  datatype ModalView = ModalView(
    isOpen: bool,
    showEmpty: bool,
    lines: seq<LineView>,
    promo: Option<real>,
    itemCount: int,
    word: string,
    subtotal: real,
    payDisabled: bool)

  /** The modal for the store's `items` and the `isOpen` prop. */
  function Render(items: seq<CartItem>, isOpen: bool): (v: ModalView)
    ensures v.isOpen == isOpen
    ensures v.showEmpty <==> |items| == 0
    ensures |v.lines| == |items|
    ensures forall k :: 0 <= k < |items| ==> v.lines[k] == RenderLine(items[k])
    ensures v.promo.Some? <==> |items| > 0
    ensures v.promo.Some? ==> v.promo.value == TotalPrice(items)
    ensures v.itemCount == TotalItems(items) && v.subtotal == TotalPrice(items)
    ensures v.word == ItemsLabel(TotalItems(items))
    ensures v.payDisabled <==> |items| == 0
  {
    var subtotal := TotalPrice(items);
    var itemCount := TotalItems(items);
    ModalView(
      isOpen,
      |items| == 0,
      if |items| == 0 then [] else RenderLines(items),
      if |items| > 0 then Some(subtotal) else None,
      itemCount,
      ItemsLabel(itemCount),
      subtotal,
      |items| == 0)
  }

  /** An empty modal still shows its footer: "0 productos", a subtotal of 0
      and a disabled pay button, with no promotion line. */
  lemma {:induction false} EmptyModal(isOpen: bool)
    ensures var v := Render([], isOpen);
      && v.itemCount == 0 && v.word == "productos" && v.subtotal == 0.0
      && v.payDisabled && v.promo.None? && v.showEmpty
  {
  }

  /** On a cart that keeps the invariant, the pay button is enabled, and the
      promotion line shown, exactly when the unit count is positive. */
  lemma {:induction false} PayEnabledIffUnits(items: seq<CartItem>, isOpen: bool)
    requires CartInvariant(items)
    ensures !Render(items, isOpen).payDisabled <==> Render(items, isOpen).itemCount > 0
    ensures Render(items, isOpen).promo.Some? <==> Render(items, isOpen).itemCount > 0
  {
    TotalItemsAtLeastLines(items);
  }

  /** The modal and the drawer show the same lines, and whenever the drawer
      has a footer the two footers agree on count, word and total. */
  lemma {:induction false} AgreesWithDrawer(s: CartState, isOpen: bool)
    ensures var m, d := Render(s.items, isOpen), CartDrawer.Render(s);
      && m.lines == d.lines
      && (d.footer.Some? ==>
            d.footer.value.totalItems == m.itemCount && d.footer.value.word == m.word
            && d.footer.value.totalPrice == m.subtotal)
  {
  }

  /** Removing the only line of a one-line cart disables the pay button. */
  lemma {:induction false} RemovingLastLineDisablesPay(items: seq<CartItem>, isOpen: bool)
    requires CartInvariant(items)
    requires |items| == 1
    ensures Render(WithoutId(items, Render(items, isOpen).lines[0].onRemove.productId), isOpen).payDisabled
  {
    RemoveDropsLine(items, 0);
  }
}
