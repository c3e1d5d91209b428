/** One catalog card: the badge with the product's in-cart quantity, the
    star row, the local quantity picker (starting at 1) and the button that
    adds that many units to the store. */
module ProductCard {
  import opened Types
  import opened CartLines
  import opened CartStore
  import ProductQuantity
  import QuantityControl
  import StarRating

  const InitialLocalQuantity: int := 1

  /** The badge: present, and showing the in-cart quantity, only when that
      quantity is positive. */
  function Badge(items: seq<CartItem>, product: Product): (badge: Option<int>)
    ensures badge.Some? <==> InCartQuantity(items, product.id) > 0
    ensures badge.Some? ==> badge.value == InCartQuantity(items, product.id)
  {
    var inCart := InCartQuantity(items, product.id);
    if inCart > 0 then Some(inCart) else None
  }

  datatype CardView = CardView(
    badge: Option<int>,
    stars: StarRating.StarsView,
    control: QuantityControl.ControlView,
    isPriority: bool)

  /** The card for `product` against the store's `items`, with the local
      picker at `localQuantity`. */
  function Render(items: seq<CartItem>, product: Product, localQuantity: int, isPriority: bool := false): (v: CardView)
    ensures v.badge == Badge(items, product)
    ensures v.stars == StarRating.Render(product.rating, product.reviewCount)
    ensures v.control.shown == localQuantity
    ensures v.control.minusDisabled <==> localQuantity <= 1
    ensures v.isPriority == isPriority
  {
    CardView(Badge(items, product), StarRating.Render(product.rating, product.reviewCount),
      QuantityControl.Render(localQuantity), isPriority)
  }

  /** The add button: `addItem(product, quantity)` with the picker's value. */
  function OnAddToCart(product: Product, localQuantity: int): (call: StoreCall)
    ensures call.AddItemCall? && call.product == product && call.quantity == localQuantity
  {
    AddItemCall(product, localQuantity)
  }

  /** On a cart that keeps the invariant the badge shows exactly when the
      product has a line. */
  lemma {:induction false} BadgeIffInCart(items: seq<CartItem>, product: Product)
    requires CartInvariant(items)
    ensures Badge(items, product).Some? <==> IndexOf(items, product.id) >= 0
  {
    InCartPositiveIffPresent(items, product.id);
  }

  /** Adding from a card whose picker has been pressed any number of times
      adds at least one unit: the badge then shows the old in-cart quantity
      plus the picker's value, no other product's quantity moves, and the
      cart keeps its invariant. */
  lemma {:induction false} AddFromCard(s: CartState, product: Product, presses: seq<bool>, other: string)
    requires CartInvariant(s.items)
    ensures var q := ProductQuantity.Run(InitialLocalQuantity, presses);
      var after := Step(s, OnAddToCart(product, q)).items;
      && q >= 1
      && CartInvariant(after)
      && Badge(after, product) == Some(InCartQuantity(s.items, product.id) + q)
      && (other != product.id ==> InCartQuantity(after, other) == InCartQuantity(s.items, other))
  {
    var q := ProductQuantity.Run(InitialLocalQuantity, presses);
    ProductQuantity.RunStaysAtLeastMin(InitialLocalQuantity, presses);
    var after := AddedItems(s.items, product, q);
    assert Step(s, OnAddToCart(product, q)).items == after;
    InCartPositiveIffPresent(s.items, product.id);
    var before := InCartQuantity(s.items, product.id);
    assert before >= 0;
    StoreAddItemInCart(s.items, product, q);
    assert InCartQuantity(after, product.id) == before + q;
    StoreAddItemPreservesInvariant(s.items, product, q);
    if other != product.id {
      StoreAddItemOthersInCart(s.items, product, q, other);
    }
  }

  /** A fresh card on a product not yet in the cart: one click shows a badge
      of 1. */
  lemma {:induction false} FirstClick(s: CartState, product: Product)
    requires CartInvariant(s.items)
    requires IndexOf(s.items, product.id) == -1
    ensures Badge(Step(s, OnAddToCart(product, InitialLocalQuantity)).items, product) == Some(1)
  {
    AddFromCard(s, product, [], product.id);
  }
}
