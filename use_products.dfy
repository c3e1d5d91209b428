/** The product-fetching hook: the adapter from the public catalog API's
    record to `Product`, and the `products` / `isLoading` / `error` state that
    one fetch attempt moves through. The network call itself is a parameter:
    its outcome is given as a value. */
module UseProducts {
  import opened Types
  import opened NumberFormat

  const HttpErrorPrefix: string := "HTTP error! status: "
  const UnknownErrorMessage: string := "Ocurrió un error desconocido"

  /** The field-by-field map of one API record. */
  function ToProduct(api: ApiProduct): (r: Product)
  {
    Product(IntToString(api.id), api.title, api.price, api.image, api.rating.rate, Some(api.rating.count))
  }

  /** `data.map(...)`: one product per record, in order. */
  function AdaptAll(data: seq<ApiProduct>): (r: seq<Product>)
    ensures |r| == |data|
    ensures forall k :: 0 <= k < |data| ==> r[k] == ToProduct(data[k])
  {
    if data == [] then [] else [ToProduct(data[0])] + AdaptAll(data[1..])
  }

  /** Every field of a product comes from its record, and the numeric id can
      be read back from the string id. */
  lemma {:induction false} ToProductFields(api: ApiProduct)
    ensures var p := ToProduct(api);
      && ParseInt(p.id) == Some(api.id)
      && p.name == api.title && p.price == api.price && p.imageUrl == api.image
      && p.rating == api.rating.rate && p.reviewCount == Some(api.rating.count)
  {
    IntToStringRoundTrip(api.id);
  }

  /** Records with distinct numeric ids become products with distinct string
      ids, so the adapted catalog never puts two products under one id. */
  lemma {:induction false} AdaptKeepsIdsDistinct(data: seq<ApiProduct>)
    requires forall a, b :: 0 <= a < b < |data| ==> data[a].id != data[b].id
    ensures var r := AdaptAll(data);
      forall a, b :: 0 <= a < b < |r| ==> r[a].id != r[b].id
  {
    var r := AdaptAll(data);
    forall a, b | 0 <= a < b < |r| ensures r[a].id != r[b].id {
      IntToStringInjective(data[a].id, data[b].id);
    }
  }

  /** How the one network attempt ends. */
  datatype FetchOutcome =
    | Fetched(data: seq<ApiProduct>)   // `response.ok` and the body parsed
    | HttpFailure(status: int)         // `!response.ok`: an Error is thrown
    | ThrownError(message: string)     // any other thrown Error
    | ThrownValue                      // a thrown value that is not an Error

  /** The `error` the catch block leaves. */
  function FetchError(outcome: FetchOutcome): (r: Option<string>)
  {
    match outcome
    case Fetched(_) => None
    case HttpFailure(status) => Some(HttpErrorPrefix + IntToString(status))
    case ThrownError(message) => Some(message)
    case ThrownValue => Some(UnknownErrorMessage)
  }

  /** The `products` after the attempt: replaced only on success. */
  function ProductsAfter(previous: seq<Product>, outcome: FetchOutcome): (r: seq<Product>)
  {
    if outcome.Fetched? then AdaptAll(outcome.data) else previous
  }

  /** A failed attempt always leaves an error, a successful one never does;
      an HTTP failure's message carries the status, which can be read back
      from it. */
  lemma {:induction false} FetchErrorCases(outcome: FetchOutcome)
    ensures FetchError(outcome).None? <==> outcome.Fetched?
    ensures outcome.HttpFailure? ==>
      var m := FetchError(outcome).value;
      |m| > |HttpErrorPrefix| && m[..|HttpErrorPrefix|] == "HTTP error! status: "
      && ParseInt(m[|HttpErrorPrefix|..]) == Some(outcome.status)
    ensures outcome.ThrownValue? ==> FetchError(outcome) == Some("Ocurrió un error desconocido")
    ensures outcome.ThrownError? ==> FetchError(outcome) == Some(outcome.message)
  {
    if outcome.HttpFailure? {
      var m := FetchError(outcome).value;
      IntToStringRoundTrip(outcome.status);
      NatToStringDigits(if outcome.status < 0 then -outcome.status else outcome.status);
      assert m[|HttpErrorPrefix|..] == IntToString(outcome.status);
    }
  }

  /** A 500 response reads "HTTP error! status: 500". */
  lemma {:induction false} Http500Message()
    ensures FetchError(HttpFailure(500)) == Some("HTTP error! status: 500")
  {
    assert DigitChar(5) == '5' && DigitChar(0) == '0';
    assert NatToString(5) == "5";
    assert NatToString(50) == "50";
    assert NatToString(500) == "500";
    assert IntToString(500) == "500";
    assert HttpErrorPrefix + "500" == "HTTP error! status: 500";
  }

  class ProductsState {
    var products: seq<Product>
    var isLoading: bool
    var error: Option<string>

    /** The hook's first state: no products, loading, no error. */
    constructor ()
      ensures products == [] && isLoading && error == None
    {
      products := [];
      isLoading := true;
      error := None;
    }

    /** `fetchProducts()`: raise `isLoading`, reset `error`, run the attempt,
        and lower `isLoading` in `finally`. */
    method FetchProducts(outcome: FetchOutcome)
      modifies this
      ensures !isLoading
      ensures error == FetchError(outcome)
      ensures products == ProductsAfter(old(products), outcome)
    {
      isLoading := true;
      error := None;
      match outcome {
        case Fetched(data) =>
          products := AdaptAll(data);
        case HttpFailure(status) =>
          error := Some(HttpErrorPrefix + IntToString(status));
        case ThrownError(message) =>
          error := Some(message);
        case ThrownValue =>
          error := Some(UnknownErrorMessage);
      }
      isLoading := false;
    }
  }

  /** The one fetch of a mount, from the first state: a 500 ends with no
      products, not loading, and the status message. */
  method MountWith500() returns (state: ProductsState)
    ensures !state.isLoading && state.products == []
    ensures state.error == Some("HTTP error! status: 500")
  {
    state := new ProductsState();
    state.FetchProducts(HttpFailure(500));
    Http500Message();
  }
}
