/** The zustand cart store: three fields (`items`, `isDrawerOpen`,
    `notification`) replaced by six actions, and the projection of the state
    that the persistence middleware writes to storage.

    Each action's new state is given by a pure function of the old state
    (`AddedItems`, `UpdatedItems`, ...); the lemmas below say what those
    functions promise. */
module CartStore {
  import opened Types
  import opened CartLines
  import opened CartTotals

  const AddedMessage: string := "Añadido al carrito"

  /** The whole store state as a value. */
  datatype CartState = CartState(
    items: seq<CartItem>,
    isDrawerOpen: bool,
    notification: Option<CartNotification>)

  /** What `partialize` hands to storage. There is no notification field. */
  datatype PersistedCart = PersistedCart(items: seq<CartItem>, isDrawerOpen: bool)

  /** `partialize`: keep `items` and `isDrawerOpen`, drop the notification. */
  function Partialize(s: CartState): (r: PersistedCart)
  {
    PersistedCart(s.items, s.isDrawerOpen)
  }

  // ----- addItem -----

  /** `newQuantity` of `addItem`: the clamped total for a line already in the
      cart, otherwise the requested quantity. */
  function AddedQuantity(items: seq<CartItem>, product: Product, quantity: int): (r: int)
  {
    var i := IndexOf(items, product.id);
    if i >= 0 then Max(0, items[i].quantity + quantity) else quantity
  }

  /** The item list `addItem` produces: merge into the existing line (clamped
      at 0, the line spliced out at 0), else append a new line for a positive
      quantity, else leave the list alone. */
  function AddedItems(items: seq<CartItem>, product: Product, quantity: int): (r: seq<CartItem>)
  {
    var i := IndexOf(items, product.id);
    if i >= 0 then
      var n := Max(0, items[i].quantity + quantity);
      if n <= 0 then items[..i] + items[i + 1..] else items[i := items[i].(quantity := n)]
    else if quantity > 0 then items + [CartItem(product, quantity)]
    else items
  }

  /** The notification `addItem` always writes. */
  function AddedNotification(items: seq<CartItem>, product: Product, quantity: int): (r: CartNotification)
  {
    CartNotification(AddedMessage, product.name, product.imageUrl, AddedQuantity(items, product, quantity))
  }

  // ----- updateQuantity -----

  /** `updateQuantity`: filter the id out for a non-positive quantity,
      otherwise overwrite the matching lines' quantity. */
  function UpdatedItems(items: seq<CartItem>, id: string, n: int): (r: seq<CartItem>)
  {
    if n <= 0 then WithoutId(items, id) else WithQuantity(items, id, n)
  }

  // ----- the actions as values, for the components that issue them -----

  datatype StoreCall =
    | AddItemCall(product: Product, quantity: int)
    | RemoveItemCall(productId: string)
    | UpdateQuantityCall(productId: string, newQuantity: int)
    | ClearCartCall
    | ToggleDrawerCall
    | ClearNotificationCall

  /** The state after one action; the fields an action does not `set` keep
      their value (zustand merges the partial state shallowly). */
  function Step(s: CartState, call: StoreCall): (r: CartState)
  {
    match call
    case AddItemCall(p, q) =>
      s.(items := AddedItems(s.items, p, q), notification := Some(AddedNotification(s.items, p, q)))
    case RemoveItemCall(id) => s.(items := WithoutId(s.items, id))
    case UpdateQuantityCall(id, n) => s.(items := UpdatedItems(s.items, id, n))
    case ClearCartCall => s.(items := [])
    case ToggleDrawerCall => s.(isDrawerOpen := !s.isDrawerOpen)
    case ClearNotificationCall => s.(notification := None)
  }

  /** `items.findIndex(item => item.id === id)`, as the loop it runs. */
  method FindIndex(items: seq<CartItem>, id: string) returns (i: int)
    ensures -1 <= i < |items|
    ensures i >= 0 ==> items[i].Id() == id && forall j :: 0 <= j < i ==> items[j].Id() != id
    ensures i == -1 ==> forall j :: 0 <= j < |items| ==> items[j].Id() != id
    ensures i == IndexOf(items, id)
  {
    i := 0;
    while i < |items| && items[i].Id() != id
      invariant 0 <= i <= |items|
      invariant forall j :: 0 <= j < i ==> items[j].Id() != id
    {
      i := i + 1;
    }
    if i == |items| {
      i := -1;
    }
  }

  class Store {
    var items: seq<CartItem>
    var isDrawerOpen: bool
    var notification: Option<CartNotification>

    /** The initial state: no lines, drawer closed, no notification. */
    constructor ()
      ensures items == [] && !isDrawerOpen && notification == None
    {
      items := [];
      isDrawerOpen := false;
      notification := None;
    }

    function State(): (r: CartState)
      reads this
    {
      CartState(items, isDrawerOpen, notification)
    }

    /** The persisted projection of the current state. */
    function Persisted(): (p: PersistedCart)
      reads this
      ensures p.items == items && p.isDrawerOpen == isDrawerOpen
      ensures p == Partialize(State())
    {
      PersistedCart(items, isDrawerOpen)
    }

    /** `addItem(product, quantity = 1)`. */
    method AddItem(product: Product, quantity: int := 1)
      modifies this
      ensures items == AddedItems(old(items), product, quantity)
      ensures notification == Some(AddedNotification(old(items), product, quantity))
      ensures isDrawerOpen == old(isDrawerOpen)
      ensures State() == Step(old(State()), AddItemCall(product, quantity))
    {
      var existingItemIndex := FindIndex(items, product.id);
      var newStateItems: seq<CartItem>;
      var newQuantity := quantity;
      if existingItemIndex > -1 {
        var updatedItems := items;
        var currentQuantity := updatedItems[existingItemIndex].quantity;
        newQuantity := Max(0, currentQuantity + quantity);
        updatedItems := updatedItems[existingItemIndex := updatedItems[existingItemIndex].(quantity := newQuantity)];
        if updatedItems[existingItemIndex].quantity <= 0 {
          updatedItems := updatedItems[..existingItemIndex] + updatedItems[existingItemIndex + 1..];
        }
        newStateItems := updatedItems;
      } else if quantity > 0 {
        newQuantity := quantity;
        newStateItems := items + [CartItem(product, quantity)];
      } else {
        newStateItems := items;
      }
      notification := Some(CartNotification(AddedMessage, product.name, product.imageUrl, newQuantity));
      items := newStateItems;
    }

    /** `removeItem(productId)`. */
    method RemoveItem(productId: string)
      modifies this
      ensures items == WithoutId(old(items), productId)
      ensures isDrawerOpen == old(isDrawerOpen) && notification == old(notification)
      ensures State() == Step(old(State()), RemoveItemCall(productId))
    {
      items := WithoutId(items, productId);
    }

    /** `updateQuantity(productId, newQuantity)`. */
    method UpdateQuantity(productId: string, newQuantity: int)
      modifies this
      ensures items == UpdatedItems(old(items), productId, newQuantity)
      ensures isDrawerOpen == old(isDrawerOpen) && notification == old(notification)
      ensures State() == Step(old(State()), UpdateQuantityCall(productId, newQuantity))
    {
      if newQuantity <= 0 {
        items := WithoutId(items, productId);
        return;
      }
      items := WithQuantity(items, productId, newQuantity);
    }

    /** `clearCart()`: empties the lines only. */
    method ClearCart()
      modifies this
      ensures items == []
      ensures isDrawerOpen == old(isDrawerOpen) && notification == old(notification)
      ensures State() == Step(old(State()), ClearCartCall)
    {
      items := [];
    }

    /** `toggleDrawer()`: flips the drawer flag only. */
    method ToggleDrawer()
      modifies this
      ensures isDrawerOpen == !old(isDrawerOpen)
      ensures items == old(items) && notification == old(notification)
      ensures State() == Step(old(State()), ToggleDrawerCall)
    {
      isDrawerOpen := !isDrawerOpen;
    }

    /** `clearNotification()`. */
    method ClearNotification()
      modifies this
      ensures notification == None
      ensures items == old(items) && isDrawerOpen == old(isDrawerOpen)
      ensures State() == Step(old(State()), ClearNotificationCall)
    {
      notification := None;
    }
  }

  // ----- what addItem promises -----

  /** Under unique ids, `addItem`'s copy-assign-splice is the cart's `filter`
      (line reaches 0), its `map` (line survives) or an append. */
  lemma {:induction false} AddedItemsByCase(items: seq<CartItem>, product: Product, quantity: int)
    requires UniqueIds(items)
    ensures var i := IndexOf(items, product.id);
      i >= 0 && items[i].quantity + quantity <= 0 ==>
        AddedItems(items, product, quantity) == WithoutId(items, product.id)
    ensures var i := IndexOf(items, product.id);
      i >= 0 && items[i].quantity + quantity > 0 ==>
        AddedItems(items, product, quantity) == WithQuantity(items, product.id, items[i].quantity + quantity)
  {
    var i := IndexOf(items, product.id);
    if i >= 0 {
      var n := items[i].quantity + quantity;
      if n <= 0 {
        RemovedCase(items, product, quantity);
      } else {
        MergedCase(items, product, quantity);
      }
    }
  }

  lemma {:induction false} RemovedCase(items: seq<CartItem>, product: Product, quantity: int)
    requires UniqueIds(items)
    requires IndexOf(items, product.id) >= 0
    requires items[IndexOf(items, product.id)].quantity + quantity <= 0
    ensures AddedItems(items, product, quantity) == WithoutId(items, product.id)
  {
    WithoutIdRemovesOneLine(items, product.id);
  }

  lemma {:induction false} MergedCase(items: seq<CartItem>, product: Product, quantity: int)
    requires UniqueIds(items)
    requires IndexOf(items, product.id) >= 0
    requires items[IndexOf(items, product.id)].quantity + quantity > 0
    ensures AddedItems(items, product, quantity)
      == WithQuantity(items, product.id, items[IndexOf(items, product.id)].quantity + quantity)
  {
    AssignAtIndexIsWithQuantity(items, product.id, items[IndexOf(items, product.id)].quantity + quantity);
  }

  /** The requested quantity lands on the product's in-cart quantity, floored
      at 0: a line that reaches 0 is gone. */
  lemma {:induction false} StoreAddItemInCart(items: seq<CartItem>, product: Product, quantity: int)
    requires UniqueIds(items)
    ensures InCartQuantity(AddedItems(items, product, quantity), product.id)
      == Max(0, InCartQuantity(items, product.id) + quantity)
  {
    var i := IndexOf(items, product.id);
    if i >= 0 {
      if items[i].quantity + quantity <= 0 {
        RemovedInCart(items, product, quantity, product.id);
      } else {
        MergedOwn(items, product, quantity);
      }
    } else if quantity > 0 {
      AppendedInCart(items, product, quantity, product.id);
    } else {
      UnchangedCase(items, product, quantity);
    }
  }

  lemma {:induction false} UnchangedCase(items: seq<CartItem>, product: Product, quantity: int)
    requires IndexOf(items, product.id) == -1
    requires quantity <= 0
    ensures AddedItems(items, product, quantity) == items
    ensures InCartQuantity(AddedItems(items, product, quantity), product.id)
      == Max(0, InCartQuantity(items, product.id) + quantity)
  {
  }

  /** No other product's in-cart quantity moves. */
  lemma {:induction false} StoreAddItemOthersInCart(items: seq<CartItem>, product: Product, quantity: int, other: string)
    requires UniqueIds(items)
    requires other != product.id
    ensures InCartQuantity(AddedItems(items, product, quantity), other) == InCartQuantity(items, other)
  {
    var i := IndexOf(items, product.id);
    if i >= 0 {
      if items[i].quantity + quantity <= 0 {
        RemovedInCart(items, product, quantity, other);
      } else {
        MergedInCart(items, product, quantity, other);
      }
    } else if quantity > 0 {
      AppendedInCart(items, product, quantity, other);
    }
  }

  lemma {:induction false} RemovedInCart(items: seq<CartItem>, product: Product, quantity: int, other: string)
    requires UniqueIds(items)
    requires IndexOf(items, product.id) >= 0
    requires items[IndexOf(items, product.id)].quantity + quantity <= 0
    ensures InCartQuantity(AddedItems(items, product, quantity), product.id) == 0
    ensures other != product.id ==>
      InCartQuantity(AddedItems(items, product, quantity), other) == InCartQuantity(items, other)
    ensures InCartQuantity(AddedItems(items, product, quantity), product.id)
      == Max(0, InCartQuantity(items, product.id) + quantity)
  {
    RemovedCase(items, product, quantity);
    WithoutIdInCart(items, product.id, other);
  }

  lemma {:induction false} MergedInCart(items: seq<CartItem>, product: Product, quantity: int, other: string)
    requires UniqueIds(items)
    requires IndexOf(items, product.id) >= 0
    requires items[IndexOf(items, product.id)].quantity + quantity > 0
    ensures InCartQuantity(AddedItems(items, product, quantity), product.id)
      == items[IndexOf(items, product.id)].quantity + quantity
    ensures other != product.id ==>
      InCartQuantity(AddedItems(items, product, quantity), other) == InCartQuantity(items, other)
  {
    MergedCase(items, product, quantity);
    WithQuantityInCart(items, product.id, items[IndexOf(items, product.id)].quantity + quantity, other);
  }

  lemma {:induction false} MergedOwn(items: seq<CartItem>, product: Product, quantity: int)
    requires UniqueIds(items)
    requires IndexOf(items, product.id) >= 0
    requires items[IndexOf(items, product.id)].quantity + quantity > 0
    ensures InCartQuantity(AddedItems(items, product, quantity), product.id)
      == Max(0, InCartQuantity(items, product.id) + quantity)
  {
    MergedInCart(items, product, quantity, product.id);
  }

  lemma {:induction false} AppendedInCart(items: seq<CartItem>, product: Product, quantity: int, other: string)
    requires IndexOf(items, product.id) == -1
    requires quantity > 0
    ensures InCartQuantity(AddedItems(items, product, quantity), product.id) == quantity
    ensures other != product.id ==>
      InCartQuantity(AddedItems(items, product, quantity), other) == InCartQuantity(items, other)
    ensures InCartQuantity(AddedItems(items, product, quantity), product.id)
      == Max(0, InCartQuantity(items, product.id) + quantity)
  {
    var line := CartItem(product, quantity);
    InCartAppend(items, [line], product.id);
    InCartAppend(items, [line], other);
    assert [line][1..] == [];
  }

  /** Every line of another product is left as it was and where it was. */
  lemma {:induction false} StoreAddItemOthersUnchanged(items: seq<CartItem>, product: Product, quantity: int)
    requires UniqueIds(items)
    ensures WithoutId(AddedItems(items, product, quantity), product.id) == WithoutId(items, product.id)
  {
    AddedItemsByCase(items, product, quantity);
    var id := product.id;
    var i := IndexOf(items, id);
    if i >= 0 {
      if items[i].quantity + quantity <= 0 {
        WithoutIdIdempotent(items, id);
      } else {
        WithQuantityOthersUnchanged(items, id, items[i].quantity + quantity);
      }
    } else if quantity > 0 {
      var line := CartItem(product, quantity);
      WithoutIdAppend(items, [line], id);
      assert WithoutId([line], id) == [];
    }
  }

  /** Where the product's line is afterwards: an existing line that survives
      keeps its position, a new line goes to the end, and the list grows by
      one only for a new line and shrinks by one only when a line reaches 0. */
  lemma {:induction false} StoreAddItemPosition(items: seq<CartItem>, product: Product, quantity: int)
    requires UniqueIds(items)
    ensures var r, i := AddedItems(items, product, quantity), IndexOf(items, product.id);
      && (i >= 0 && items[i].quantity + quantity > 0 ==>
            |r| == |items| && IndexOf(r, product.id) == i && r[i].product == items[i].product)
      && (i >= 0 && items[i].quantity + quantity <= 0 ==>
            |r| == |items| - 1 && IndexOf(r, product.id) == -1)
      && (i == -1 && quantity > 0 ==>
            |r| == |items| + 1 && IndexOf(r, product.id) == |items| && r[|items|] == CartItem(product, quantity))
      && (i == -1 && quantity <= 0 ==> r == items)
  {
    var i := IndexOf(items, product.id);
    if i >= 0 {
      if items[i].quantity + quantity <= 0 {
        RemovedPosition(items, product, quantity);
      } else {
        MergedPosition(items, product, quantity);
      }
    } else if quantity > 0 {
      IndexOfAppend(items, [CartItem(product, quantity)], product.id);
    }
  }

  lemma {:induction false} RemovedPosition(items: seq<CartItem>, product: Product, quantity: int)
    requires UniqueIds(items)
    requires IndexOf(items, product.id) >= 0
    requires items[IndexOf(items, product.id)].quantity + quantity <= 0
    ensures |AddedItems(items, product, quantity)| == |items| - 1
    ensures IndexOf(AddedItems(items, product, quantity), product.id) == -1
  {
    RemovedCase(items, product, quantity);
    WithoutIdRemovesOneLine(items, product.id);
    WithoutIdGone(items, product.id);
  }

  lemma {:induction false} MergedPosition(items: seq<CartItem>, product: Product, quantity: int)
    requires UniqueIds(items)
    requires IndexOf(items, product.id) >= 0
    requires items[IndexOf(items, product.id)].quantity + quantity > 0
    ensures var i := IndexOf(items, product.id);
      && |AddedItems(items, product, quantity)| == |items|
      && IndexOf(AddedItems(items, product, quantity), product.id) == i
      && AddedItems(items, product, quantity)[i].product == items[i].product
  {
    var i := IndexOf(items, product.id);
    var n := items[i].quantity + quantity;
    MergedCase(items, product, quantity);
    WithQuantityKeepsIds(items, product.id, n, product.id);
  }

  /** `addItem` keeps the cart invariant. */
  lemma {:induction false} StoreAddItemPreservesInvariant(items: seq<CartItem>, product: Product, quantity: int)
    requires CartInvariant(items)
    ensures CartInvariant(AddedItems(items, product, quantity))
  {
    AddedItemsByCase(items, product, quantity);
    var id := product.id;
    var i := IndexOf(items, id);
    if i >= 0 {
      if items[i].quantity + quantity <= 0 {
        WithoutIdPreservesInvariant(items, id);
      } else {
        WithQuantityPreservesInvariant(items, id, items[i].quantity + quantity);
      }
    } else if quantity > 0 {
      var r := items + [CartItem(product, quantity)];
      forall a, b | 0 <= a < b < |r| ensures r[a].Id() != r[b].Id() {
        if b == |items| { assert r[a] == items[a]; } else { assert r[a] == items[a] && r[b] == items[b]; }
      }
      forall j | 0 <= j < |r| ensures r[j].quantity >= 1 {
        if j < |items| { assert r[j] == items[j]; }
      }
    }
  }

  /** The unit total moves by exactly the change in the product's in-cart
      quantity. */
  lemma {:induction false} StoreAddItemTotalItems(items: seq<CartItem>, product: Product, quantity: int)
    requires CartInvariant(items)
    ensures TotalItems(AddedItems(items, product, quantity))
      == TotalItems(items) - InCartQuantity(items, product.id)
         + Max(0, InCartQuantity(items, product.id) + quantity)
  {
    var r := AddedItems(items, product, quantity);
    StoreAddItemPreservesInvariant(items, product, quantity);
    StoreAddItemOthersUnchanged(items, product, quantity);
    StoreAddItemInCart(items, product, quantity);
    TotalItemsSplit(items, product.id);
    TotalItemsSplit(r, product.id);
  }

  /** The notification reports the product's resulting in-cart quantity when
      the product was already in the cart, and the requested quantity
      otherwise; it always names the product. */
  lemma {:induction false} StoreAddItemNotification(items: seq<CartItem>, product: Product, quantity: int)
    requires CartInvariant(items)
    ensures var note := AddedNotification(items, product, quantity);
      && note.message == "Añadido al carrito"
      && note.productName == product.name && note.imageUrl == product.imageUrl
      && note.quantity == if IndexOf(items, product.id) >= 0
                          then InCartQuantity(AddedItems(items, product, quantity), product.id)
                          else quantity
  {
    if IndexOf(items, product.id) >= 0 {
      StoreAddItemInCart(items, product, quantity);
    }
  }

  /** Successive adds of one product: each step floors the running total at
      0. */
  function FlooredSum(start: int, quantities: seq<int>): (r: int)
    decreases |quantities|
  {
    if quantities == [] then start
    else FlooredSum(Max(0, start + quantities[0]), quantities[1..])
  }

  function AddAll(items: seq<CartItem>, product: Product, quantities: seq<int>): (r: seq<CartItem>)
    decreases |quantities|
  {
    if quantities == [] then items
    else AddAll(AddedItems(items, product, quantities[0]), product, quantities[1..])
  }

  function Sum(quantities: seq<int>): (r: int)
  {
    if quantities == [] then 0 else quantities[0] + Sum(quantities[1..])
  }

  /** Any run of `addItem` calls for one product leaves its in-cart quantity
      at the step-by-step floored sum of the requested quantities. */
  lemma {:induction false} StoreAddAllInCart(items: seq<CartItem>, product: Product, quantities: seq<int>)
    requires CartInvariant(items)
    ensures CartInvariant(AddAll(items, product, quantities))
    ensures InCartQuantity(AddAll(items, product, quantities), product.id)
      == FlooredSum(InCartQuantity(items, product.id), quantities)
    decreases |quantities|
  {
    if quantities != [] {
      StoreAddItemInCart(items, product, quantities[0]);
      StoreAddItemPreservesInvariant(items, product, quantities[0]);
      StoreAddAllInCart(AddedItems(items, product, quantities[0]), product, quantities[1..]);
    }
  }

  /** With no negative request along the way the floor never bites: the
      in-cart quantity grows by the plain sum. */
  lemma {:induction false} FlooredSumOfNonNegatives(start: int, quantities: seq<int>)
    requires start >= 0
    requires forall k :: 0 <= k < |quantities| ==> quantities[k] >= 0
    ensures FlooredSum(start, quantities) == start + Sum(quantities)
    decreases |quantities|
  {
    if quantities != [] {
      FlooredSumOfNonNegatives(start + quantities[0], quantities[1..]);
    }
  }

  // ----- the other item actions -----

  /** `updateQuantity` leaves the id at exactly the new quantity when it was
      present and positive, drops it at 0 or below, never inserts, and leaves
      other products alone. */
  lemma {:induction false} StoreUpdateQuantityInCart(items: seq<CartItem>, id: string, n: int, other: string)
    ensures InCartQuantity(UpdatedItems(items, id, n), id)
      == if n > 0 && IndexOf(items, id) >= 0 then n else 0
    ensures n <= 0 || IndexOf(items, id) == -1 ==> IndexOf(UpdatedItems(items, id, n), id) == -1
    ensures other != id ==> InCartQuantity(UpdatedItems(items, id, n), other) == InCartQuantity(items, other)
    ensures WithoutId(UpdatedItems(items, id, n), id) == WithoutId(items, id)
  {
    if n <= 0 {
      WithoutIdInCart(items, id, other);
      WithoutIdIdempotent(items, id);
      WithoutIdGone(items, id);
    } else {
      WithQuantityInCart(items, id, n, other);
      WithQuantityKeepsIds(items, id, n, id);
      WithQuantityOthersUnchanged(items, id, n);
    }
  }

  /** `removeItem` drops exactly the one line of the id, keeps the rest in
      order, is a no-op for an absent id and is idempotent. */
  lemma {:induction false} StoreRemoveItem(items: seq<CartItem>, id: string)
    requires UniqueIds(items)
    ensures var k := IndexOf(items, id);
      WithoutId(items, id) == if k >= 0 then items[..k] + items[k + 1..] else items
    ensures WithoutId(WithoutId(items, id), id) == WithoutId(items, id)
  {
    if IndexOf(items, id) >= 0 {
      WithoutIdRemovesOneLine(items, id);
    } else {
      WithoutIdAbsent(items, id);
    }
    WithoutIdIdempotent(items, id);
  }

  /** Every action keeps the cart invariant on integer quantities. */
  lemma {:induction false} StepPreservesInvariant(s: CartState, call: StoreCall)
    requires CartInvariant(s.items)
    ensures CartInvariant(Step(s, call).items)
  {
    match call
    case AddItemCall(p, q) => StoreAddItemPreservesInvariant(s.items, p, q);
    case RemoveItemCall(id) => WithoutIdPreservesInvariant(s.items, id);
    case UpdateQuantityCall(id, n) =>
      if n <= 0 { WithoutIdPreservesInvariant(s.items, id); }
      else { WithQuantityPreservesInvariant(s.items, id, n); }
    case ClearCartCall =>
    case ToggleDrawerCall =>
    case ClearNotificationCall =>
  }

  /** Two toggles restore the state, clearing the notification twice is
      clearing it once, and clearing the cart leaves the drawer flag and the
      notification alone. */
  lemma {:induction false} FlagActions(s: CartState)
    ensures Step(Step(s, ToggleDrawerCall), ToggleDrawerCall) == s
    ensures Step(s, ToggleDrawerCall).isDrawerOpen != s.isDrawerOpen
    ensures Step(Step(s, ClearNotificationCall), ClearNotificationCall) == Step(s, ClearNotificationCall)
    ensures Step(s, ClearCartCall) == CartState([], s.isDrawerOpen, s.notification)
  {
  }

  /** The persisted projection never depends on the notification, so the
      notification actions never change what is written to storage. */
  lemma {:induction false} PartializeIgnoresNotification(s: CartState, n: Option<CartNotification>)
    ensures Partialize(s.(notification := n)) == Partialize(s)
    ensures Partialize(Step(s, ClearNotificationCall)) == Partialize(s)
    ensures Partialize(s) == Partialize(CartState(s.items, s.isDrawerOpen, None))
  {
  }
}
