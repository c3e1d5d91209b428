/** The per-card quantity picker (`useProductQuantity`): one state variable
    that the "+" raises by one, the "−" lowers by one but never below the
    minimum of 1, and the reset puts back to the initial value. */
module ProductQuantity {
  import opened Types

  const MinQuantity: int := 1

  /** The value the "−" produces from `q`. */
  function Decremented(q: int): (r: int)
    ensures r >= MinQuantity
    ensures q > MinQuantity ==> r == q - 1
    ensures q >= MinQuantity ==> (r == q <==> q == MinQuantity)
  {
    Max(MinQuantity, q - 1)
  }

  class QuantityPicker {
    var quantity: int
    const initialQuantity: int

    /** `useProductQuantity(initialQuantity = MIN_QUANTITY)`. */
    constructor (initialQuantity: int := MinQuantity)
      ensures quantity == initialQuantity && this.initialQuantity == initialQuantity
    {
      quantity := initialQuantity;
      this.initialQuantity := initialQuantity;
    }

    /** `incrementQuantity()`. */
    method Increment()
      modifies this
      ensures quantity == old(quantity) + 1
    {
      quantity := quantity + 1;
    }

    /** `decrementQuantity()`. */
    method Decrement()
      modifies this
      ensures quantity == Decremented(old(quantity))
      ensures quantity >= MinQuantity
    {
      quantity := Max(MinQuantity, quantity - 1);
    }

    /** `resetQuantity()`. */
    method Reset()
      modifies this
      ensures quantity == initialQuantity
    {
      quantity := initialQuantity;
    }

    /** The exposed `setQuantity`, which applies no floor. */
    method SetQuantity(q: int)
      modifies this
      ensures quantity == q
    {
      quantity := q;
    }
  }

  /** From any quantity of at least 1, "+" then "−" comes back to it. */
  method IncrementThenDecrement(picker: QuantityPicker)
    requires picker.quantity >= MinQuantity
    modifies picker
    ensures picker.quantity == old(picker.quantity)
  {
    picker.Increment();
    picker.Decrement();
  }

  /** The quantity after a run of presses, `true` for "+" and `false` for
      "−". */
  function Run(q: int, presses: seq<bool>): (r: int)
    decreases |presses|
  {
    if presses == [] then q
    else Run(if presses[0] then q + 1 else Decremented(q), presses[1..])
  }

  /** From any start of at least 1 the quantity never drops below 1 and
      never passes the start plus the number of presses. */
  lemma {:induction false} RunStaysAtLeastMin(q: int, presses: seq<bool>)
    requires q >= MinQuantity
    ensures Run(q, presses) >= MinQuantity
    ensures Run(q, presses) <= q + |presses|
    decreases |presses|
  {
    if presses != [] {
      RunStaysAtLeastMin(if presses[0] then q + 1 else Decremented(q), presses[1..]);
    }
  }
}
