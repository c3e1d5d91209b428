/** The slide-in cart panel driven by the store: a header with the unit
    total, either the empty message or one line per item, and a footer with
    the subtotal and the checkout links only when the cart has lines. Every
    closing control toggles the drawer flag. */
module CartDrawer {
  import opened Types
  import opened CartLines
  import opened CartTotals
  import opened CartStore
  import opened CartLineView

  datatype DrawerFooter = DrawerFooter(totalItems: int, word: string, totalPrice: real)

  datatype DrawerView = DrawerView(
    isOpen: bool,
    headerCount: int,
    showEmpty: bool,
    lines: seq<LineView>,
    footer: Option<DrawerFooter>,
    onClose: StoreCall)

  /** The drawer for a store state. */
  function Render(s: CartState): (v: DrawerView)
    ensures v.isOpen == s.isDrawerOpen
    ensures v.headerCount == TotalItems(s.items)
    ensures v.showEmpty <==> |s.items| == 0
    ensures |v.lines| == |s.items|
    ensures forall k :: 0 <= k < |s.items| ==> v.lines[k] == RenderLine(s.items[k])
    ensures v.footer.Some? <==> |s.items| > 0
    ensures v.footer.Some? ==>
      v.footer.value == DrawerFooter(TotalItems(s.items), ItemsLabel(TotalItems(s.items)), TotalPrice(s.items))
    ensures v.onClose == ToggleDrawerCall
  {
    var totalItems := TotalItems(s.items);
    var totalPrice := TotalPrice(s.items);
    DrawerView(
      s.isDrawerOpen,
      totalItems,
      |s.items| == 0,
      if |s.items| == 0 then [] else RenderLines(s.items),
      if |s.items| > 0 then Some(DrawerFooter(totalItems, ItemsLabel(totalItems), totalPrice)) else None,
      ToggleDrawerCall)
  }

  /** On a cart that keeps the invariant, the footer is shown exactly when
      the header count is positive, the count is at least the number of
      lines, and the footer's word is singular only for one line of one
      unit. */
  lemma {:induction false} FooterFollowsCount(s: CartState)
    requires CartInvariant(s.items)
    ensures var v := Render(s);
      && (v.footer.Some? <==> v.headerCount > 0)
      && v.headerCount >= |v.lines|
      && (v.footer.Some? ==> (v.footer.value.word == "producto" <==> |s.items| == 1 && s.items[0].quantity == 1))
  {
    TotalItemsAtLeastLines(s.items);
    SingularIffOneUnit(s.items);
  }

  /** Closing the drawer from any of its controls flips the open flag and
      touches nothing else, so it reopens to the same cart. */
  lemma {:induction false} CloseThenReopen(s: CartState)
    ensures var closed := Step(s, Render(s).onClose);
      && closed.isDrawerOpen == !s.isDrawerOpen
      && closed.items == s.items && closed.notification == s.notification
      && Step(closed, Render(closed).onClose) == s
  {
    FlagActions(s);
  }
}
