/** The React-context cart: the same line operations as the zustand store but
    with its own `addItem` rule (the merged quantity is clamped at 1, so a line
    is never removed by an add), a notification that carries the requested
    quantity, a `clearCart` that also clears the notification, the two folds,
    and the flag that holds back storage writes until the initial load from
    storage has been attempted. */
module CartContext {
  import opened Types
  import opened CartLines
  import opened CartTotals
  import CartStore

  const AddedMessage: string := "Producto añadido al carrito"
  const MissingProviderMessage: string := "useCart debe ser usado dentro de un CartProvider"

  /** The updater `addItem` hands to `setItems`: merge into the existing line
      with the total clamped at 1, else append a new line for a positive
      quantity, else keep the list. */
  function ContextAddedItems(items: seq<CartItem>, product: Product, quantity: int): (r: seq<CartItem>)
  {
    var i := IndexOf(items, product.id);
    if i >= 0 then items[i := items[i].(quantity := Max(1, items[i].quantity + quantity))]
    else if quantity > 0 then items + [CartItem(product, quantity)]
    else items
  }

  /** The notification `addItem` sets once the deferred update has run. */
  function ContextNotification(product: Product, quantity: int): (r: CartNotification)
  {
    CartNotification(AddedMessage, product.name, product.imageUrl, quantity)
  }

  /** The storage entry under the cart key, as the load effect finds it:
      nothing (or an empty string), the encoding of a list of lines, or text
      that `JSON.parse` rejects. */
  datatype Stored = Missing | Encoded(lines: seq<CartItem>) | Malformed

  /** `useCart`: the provider's value, or the error it throws outside one. */
  function UseCart<T>(context: Option<T>): (r: Result<T, string>)
    ensures r.Ok? <==> context.Some?
    ensures r.Ok? ==> r.value == context.value
    ensures r.Err? ==> r.error == "useCart debe ser usado dentro de un CartProvider"
  {
    match context
    case Some(value) => Ok(value)
    case None => Err(MissingProviderMessage)
  }

  class CartProvider {
    var items: seq<CartItem>
    var notification: Option<CartNotification>
    var isInitialLoadComplete: bool
    /** Whether `notificationTimerRef.current` holds a pending auto-clear. */
    var timerPending: bool
    /** The browser storage entry under the cart key. */
    var stored: Stored

    /** First render: empty cart whatever storage holds, flag down. */
    constructor (storage: Stored)
      ensures items == [] && notification == None
      ensures !isInitialLoadComplete && !timerPending && stored == storage
    {
      items := [];
      notification := None;
      isInitialLoadComplete := false;
      timerPending := false;
      stored := storage;
    }

    /** The mount effect: on the client, adopt the stored lines when they
        parse; in every case raise the flag afterwards. */
    method LoadEffect(onClient: bool)
      modifies this
      ensures isInitialLoadComplete
      ensures items == if onClient && old(stored).Encoded? then old(stored).lines else old(items)
      ensures stored == old(stored) && notification == old(notification) && timerPending == old(timerPending)
    {
      if onClient {
        match stored
        case Encoded(lines) => items := lines;
        case Missing =>
        case Malformed =>
      }
      isInitialLoadComplete := true;
    }

    /** The save effect: write the lines only once the initial load is done
        and only on the client. */
    method SaveEffect(onClient: bool)
      modifies this
      ensures stored == if isInitialLoadComplete && onClient then Encoded(items) else old(stored)
      ensures items == old(items) && isInitialLoadComplete == old(isInitialLoadComplete)
      ensures notification == old(notification) && timerPending == old(timerPending)
    {
      if isInitialLoadComplete && onClient {
        stored := Encoded(items);
      }
    }

    /** Mounting runs the load and then the save: stored lines are adopted
        and written back unchanged, never overwritten by the empty first
        render; unreadable or missing storage is replaced by the current
        lines. */
    method Mount(onClient: bool)
      requires !isInitialLoadComplete
      modifies this
      ensures isInitialLoadComplete
      ensures onClient && old(stored).Encoded? ==> items == old(stored).lines && stored == old(stored)
      ensures onClient && !old(stored).Encoded? ==> items == old(items) && stored == Encoded(old(items))
      ensures !onClient ==> items == old(items) && stored == old(stored)
    {
      var before := stored;
      SaveEffect(onClient);
      assert stored == before;
      LoadEffect(onClient);
      SaveEffect(onClient);
    }

    /** `clearNotification()`: cancel a pending auto-clear and drop the
        notification. */
    method ClearNotification()
      modifies this
      ensures notification == None && !timerPending
      ensures items == old(items) && stored == old(stored) && isInitialLoadComplete == old(isInitialLoadComplete)
    {
      if timerPending {
        timerPending := false;
      }
      notification := None;
    }

    /** `addItem(product, quantity)`: the synchronous clear, then the update
        the 50 ms timeout performs, taken as having fired. */
    method AddItem(product: Product, quantity: int)
      modifies this
      ensures items == ContextAddedItems(old(items), product, quantity)
      ensures notification == Some(ContextNotification(product, quantity))
      ensures timerPending
      ensures stored == old(stored) && isInitialLoadComplete == old(isInitialLoadComplete)
    {
      if timerPending {
        timerPending := false;
      }
      notification := None;
      // deferred part
      items := ContextAddedItems(items, product, quantity);
      notification := Some(ContextNotification(product, quantity));
      timerPending := true;
    }

    /** `removeItem(productId)`. */
    method RemoveItem(productId: string)
      modifies this
      ensures items == WithoutId(old(items), productId)
      ensures notification == old(notification) && stored == old(stored)
      ensures timerPending == old(timerPending) && isInitialLoadComplete == old(isInitialLoadComplete)
    {
      items := WithoutId(items, productId);
    }

    /** `updateQuantity(productId, quantity)`: the same updater as the store's. */
    method UpdateQuantity(productId: string, quantity: int)
      modifies this
      ensures items == CartStore.UpdatedItems(old(items), productId, quantity)
      ensures notification == old(notification) && stored == old(stored)
      ensures timerPending == old(timerPending) && isInitialLoadComplete == old(isInitialLoadComplete)
    {
      if quantity <= 0 {
        items := WithoutId(items, productId);
      } else {
        items := WithQuantity(items, productId, quantity);
      }
    }

    /** `clearCart()`: empties the lines and clears the notification too. */
    method ClearCart()
      modifies this
      ensures items == [] && notification == None && !timerPending
      ensures stored == old(stored) && isInitialLoadComplete == old(isInitialLoadComplete)
    {
      items := [];
      ClearNotification();
    }

    /** `getItemCount()`. */
    function GetItemCount(): (n: int)
      reads this
      ensures n == TotalItems(items)
      ensures items == [] ==> n == 0
    {
      TotalItems(items)
    }

    /** `getSubtotal()`. */
    function GetSubtotal(): (r: real)
      reads this
      ensures r == TotalPrice(items)
      ensures items == [] ==> r == 0.0
    {
      TotalPrice(items)
    }
  }

  // ----- what the context's addItem promises -----

  /** An existing product's in-cart quantity becomes the total clamped at 1;
      an absent product enters with a positive request and stays out
      otherwise; other products are untouched. */
  lemma {:induction false} ContextAddItemInCart(items: seq<CartItem>, product: Product, quantity: int, other: string)
    requires CartInvariant(items)
    ensures InCartQuantity(ContextAddedItems(items, product, quantity), product.id)
      == if IndexOf(items, product.id) >= 0
         then Max(1, InCartQuantity(items, product.id) + quantity)
         else Max(0, quantity)
    ensures other != product.id ==>
      InCartQuantity(ContextAddedItems(items, product, quantity), other) == InCartQuantity(items, other)
  {
    var i := IndexOf(items, product.id);
    if i >= 0 {
      ClampedInCart(items, product, quantity, other);
    } else if quantity > 0 {
      AppendedInCart(items, product, quantity, other);
    }
  }

  lemma {:induction false} ClampedCase(items: seq<CartItem>, product: Product, quantity: int, n: int)
    requires UniqueIds(items)
    requires IndexOf(items, product.id) >= 0
    requires n == Max(1, items[IndexOf(items, product.id)].quantity + quantity)
    ensures ContextAddedItems(items, product, quantity) == WithQuantity(items, product.id, n)
  {
    var i := IndexOf(items, product.id);
    var merged := items[i := items[i].(quantity := n)];
    assert ContextAddedItems(items, product, quantity) == merged;
    AssignAtIndexIsWithQuantity(items, product.id, n);
  }

  lemma {:induction false} ClampedInCart(items: seq<CartItem>, product: Product, quantity: int, other: string)
    requires UniqueIds(items)
    requires IndexOf(items, product.id) >= 0
    ensures InCartQuantity(ContextAddedItems(items, product, quantity), product.id)
      == Max(1, items[IndexOf(items, product.id)].quantity + quantity)
    ensures other != product.id ==>
      InCartQuantity(ContextAddedItems(items, product, quantity), other) == InCartQuantity(items, other)
  {
    var n := Max(1, items[IndexOf(items, product.id)].quantity + quantity);
    ClampedCase(items, product, quantity, n);
    WithQuantityInCart(items, product.id, n, other);
  }

  lemma {:induction false} AppendedInCart(items: seq<CartItem>, product: Product, quantity: int, other: string)
    requires IndexOf(items, product.id) == -1
    requires quantity > 0
    ensures InCartQuantity(ContextAddedItems(items, product, quantity), product.id) == quantity
    ensures other != product.id ==>
      InCartQuantity(ContextAddedItems(items, product, quantity), other) == InCartQuantity(items, other)
  {
    var line := CartItem(product, quantity);
    InCartAppend(items, [line], product.id);
    InCartAppend(items, [line], other);
    assert [line][1..] == [];
  }

  /** The context's add never removes a line: a present product stays at its
      position and the list keeps its length. */
  lemma {:induction false} ContextAddItemNeverRemoves(items: seq<CartItem>, product: Product, quantity: int)
    requires UniqueIds(items)
    requires IndexOf(items, product.id) >= 0
    ensures |ContextAddedItems(items, product, quantity)| == |items|
    ensures IndexOf(ContextAddedItems(items, product, quantity), product.id) == IndexOf(items, product.id)
    ensures WithoutId(ContextAddedItems(items, product, quantity), product.id) == WithoutId(items, product.id)
  {
    var n := Max(1, items[IndexOf(items, product.id)].quantity + quantity);
    ClampedCase(items, product, quantity, n);
    WithQuantityKeepsIds(items, product.id, n, product.id);
    WithQuantityOthersUnchanged(items, product.id, n);
  }

  /** The context's add keeps the cart invariant. */
  lemma {:induction false} ContextAddItemPreservesInvariant(items: seq<CartItem>, product: Product, quantity: int)
    requires CartInvariant(items)
    ensures CartInvariant(ContextAddedItems(items, product, quantity))
  {
    var i := IndexOf(items, product.id);
    if i >= 0 {
      ClampedCase(items, product, quantity, Max(1, items[i].quantity + quantity));
      WithQuantityPreservesInvariant(items, product.id, Max(1, items[i].quantity + quantity));
    } else if quantity > 0 {
      var r := items + [CartItem(product, quantity)];
      forall a, b | 0 <= a < b < |r| ensures r[a].Id() != r[b].Id() {
        if b == |items| { assert r[a] == items[a]; } else { assert r[a] == items[a] && r[b] == items[b]; }
      }
      forall j | 0 <= j < |r| ensures r[j].quantity >= 1 {
        if j < |items| { assert r[j] == items[j]; }
      }
    }
  }

  /** The two `addItem` rules agree exactly when the merged total stays at 1
      or more (or the product is new); below that the store drops the line
      and the context keeps it at 1. */
  lemma {:induction false} AddRulesCompared(items: seq<CartItem>, product: Product, quantity: int)
    requires CartInvariant(items)
    ensures var i := IndexOf(items, product.id);
      (i == -1 || items[i].quantity + quantity >= 1) <==>
        CartStore.AddedItems(items, product, quantity) == ContextAddedItems(items, product, quantity)
    ensures var i := IndexOf(items, product.id);
      i >= 0 && items[i].quantity + quantity < 1 ==>
        InCartQuantity(CartStore.AddedItems(items, product, quantity), product.id) == 0 &&
        InCartQuantity(ContextAddedItems(items, product, quantity), product.id) == 1
  {
    var i := IndexOf(items, product.id);
    CartStore.StoreAddItemInCart(items, product, quantity);
    ContextAddItemInCart(items, product, quantity, product.id);
    if i >= 0 && items[i].quantity + quantity >= 1 {
      CartStore.MergedCase(items, product, quantity);
      ClampedCase(items, product, quantity, items[i].quantity + quantity);
    }
  }

  /** The store's notification reports the merged total while the context's
      reports the request: with 2 units in the cart, adding 3 notifies 5
      from the store and 3 from the context. */
  lemma {:induction false} NotificationQuantitiesDiffer(product: Product)
    ensures var items := [CartItem(product, 2)];
      && CartStore.AddedNotification(items, product, 3).quantity == 5
      && ContextNotification(product, 3).quantity == 3
      && CartStore.AddedItems(items, product, 3) == ContextAddedItems(items, product, 3)
  {
  }
}
