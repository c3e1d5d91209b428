/** The catalog grid's choice of what to show: skeletons while loading, the
    "no products" message, the error message, or one card per product with
    the first ten marked as priority images. */
module ProductList {
  import opened Types
  import UseProducts

  const SkeletonCount: nat := 10
  const NoProductsText: string := "No se encontraron productos."
  const ErrorPrefix: string := "Error al cargar productos: "

  datatype Card = Card(product: Product, isPriority: bool)

  datatype ListView =
    | Skeletons(count: nat)
    | NoProducts(text: string)
    | ErrorMessage(text: string)
    | Cards(cards: seq<Card>)

  /** JavaScript truthiness of `error`: null and the empty string are
      falsy. */
  predicate Truthy(error: Option<string>) {
    error.Some? && error.value != ""
  }

  /** `products.map((product, index) => <ProductCard isPriority={index < 10} />)`. */
  function CardsFor(products: seq<Product>): (cards: seq<Card>)
    ensures |cards| == |products|
    ensures forall k :: 0 <= k < |products| ==>
      cards[k].product == products[k] && (cards[k].isPriority <==> k < SkeletonCount)
  {
    seq(|products|, k requires 0 <= k < |products| => Card(products[k], k < SkeletonCount))
  }

  /** The component's if-chain, in its order. The fourth test repeats the
      second and can never be reached. */
  function SelectView(products: seq<Product>, isLoading: bool, error: Option<string>): (v: ListView)
    ensures v.Skeletons? <==> isLoading
    ensures v.Skeletons? ==> v.count == 10
    ensures v.NoProducts? <==> !isLoading && |products| == 0
    ensures v.NoProducts? ==> v.text == "No se encontraron productos."
    ensures v.ErrorMessage? <==> !isLoading && |products| > 0 && Truthy(error)
    ensures v.ErrorMessage? ==> v.text == "Error al cargar productos: " + error.value
    ensures v.Cards? <==> !isLoading && |products| > 0 && !Truthy(error)
  {
    if isLoading then Skeletons(SkeletonCount)
    else if |products| == 0 then NoProducts(NoProductsText)
    else if Truthy(error) then ErrorMessage(ErrorPrefix + error.value)
    else if |products| == 0 then assert false; NoProducts(NoProductsText)
    else Cards(CardsFor(products))
  }

  /** The empty test wins over the error: with no products the grid says
      "no products" whatever the error is. */
  lemma {:induction false} EmptyWinsOverError(isLoading: bool, error: Option<string>)
    requires !isLoading
    ensures SelectView([], isLoading, error) == NoProducts("No se encontraron productos.")
  {
  }

  /** Composed with the hook, the error text is never shown after the one
      fetch of a mount: a failed attempt leaves the products empty, and the
      empty test comes first. */
  lemma {:induction false} FailedFetchHidesError(outcome: UseProducts.FetchOutcome)
    requires !outcome.Fetched?
    ensures SelectView(UseProducts.ProductsAfter([], outcome), false, UseProducts.FetchError(outcome))
      == NoProducts("No se encontraron productos.")
  {
  }

  /** The chain with the error test first, as the repeated empty test
      suggests it was meant to read. */
  function SelectViewErrorFirst(products: seq<Product>, isLoading: bool, error: Option<string>): (v: ListView)
    ensures v.Skeletons? <==> isLoading
    ensures v.ErrorMessage? <==> !isLoading && Truthy(error)
    ensures v.NoProducts? <==> !isLoading && !Truthy(error) && |products| == 0
    ensures v.Cards? <==> !isLoading && !Truthy(error) && |products| > 0
  {
    if isLoading then Skeletons(SkeletonCount)
    else if Truthy(error) then ErrorMessage(ErrorPrefix + error.value)
    else if |products| == 0 then NoProducts(NoProductsText)
    else Cards(CardsFor(products))
  }

  /** With the error test first, every failed fetch whose message is not
      empty shows that message, and the two chains agree whenever there is
      no error or there are products. */
  lemma {:induction false} ErrorFirstShowsFetchFailure(outcome: UseProducts.FetchOutcome, products: seq<Product>, isLoading: bool, error: Option<string>)
    ensures !outcome.Fetched? && Truthy(UseProducts.FetchError(outcome)) ==>
      SelectViewErrorFirst(UseProducts.ProductsAfter([], outcome), false, UseProducts.FetchError(outcome))
        == ErrorMessage("Error al cargar productos: " + UseProducts.FetchError(outcome).value)
    ensures !Truthy(error) || |products| > 0 ==>
      SelectViewErrorFirst(products, isLoading, error) == SelectView(products, isLoading, error)
  {
  }

  /** Every failure outcome but an Error with an empty message has a
      truthy error. */
  lemma {:induction false} FetchFailuresAreTruthy(outcome: UseProducts.FetchOutcome)
    requires outcome.HttpFailure? || outcome.ThrownValue?
    ensures Truthy(UseProducts.FetchError(outcome))
  {
    UseProducts.FetchErrorCases(outcome);
  }
}
