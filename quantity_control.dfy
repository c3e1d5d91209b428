/** The "−  n  +" control: it shows the quantity it is given, disables the
    "−" at or below its minimum (1 unless told otherwise), never disables the
    "+", and each button fires only its own callback. */
module QuantityControl {
  import opened Types
  import ProductQuantity

  const DefaultMinQuantity: int := 1

  datatype ControlView = ControlView(shown: int, minusDisabled: bool, plusDisabled: bool)

  datatype Button = Minus | Plus

  datatype Callback = OnIncrement | OnDecrement

  /** The rendered control for a `quantity` prop and a `minQuantity` prop. */
  function Render(quantity: int, minQuantity: int := DefaultMinQuantity): (v: ControlView)
    ensures v.shown == quantity
    ensures v.minusDisabled <==> quantity <= minQuantity
    ensures !v.plusDisabled
  {
    ControlView(quantity, quantity <= minQuantity, false)
  }

  /** What a click fires: a disabled button fires nothing. */
  function Click(v: ControlView, b: Button): (fired: Option<Callback>)
    ensures b == Plus && !v.plusDisabled ==> fired == Some(OnIncrement)
    ensures b == Minus ==> fired == if v.minusDisabled then None else Some(OnDecrement)
    ensures fired.Some? ==> (fired.value == OnIncrement <==> b == Plus)
  {
    match b
    case Plus => if v.plusDisabled then None else Some(OnIncrement)
    case Minus => if v.minusDisabled then None else Some(OnDecrement)
  }

  /** Wired to the picker, the "−" is disabled exactly when pressing it would
      change nothing. */
  lemma {:induction false} MinusDisabledIffDecrementIsNoOp(q: int)
    requires q >= ProductQuantity.MinQuantity
    ensures Render(q).minusDisabled <==> ProductQuantity.Decremented(q) == q
  {
  }
}
