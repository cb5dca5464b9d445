/** `loadProducts`: normalising the products endpoint's outcome to a list. */
module CatalogClient {
  import opened Types

  /** The JavaScript values the check on the response distinguishes. An array
      field is taken to hold products; element decoding is not modelled. */
  datatype JsValue =
    | Undefined
    | Null
    | Bool(b: bool)
    | Num(n: int)
    | Str(s: string)
    | Arr(items: seq<Product>)
    | Obj

  /** JavaScript truthiness over these values. */
  predicate Truthy(v: JsValue)
  {
    match v
    case Undefined => false
    case Null => false
    case Bool(b) => b
    case Num(n) => n != 0
    case Str(s) => s != ""
    case Arr(_) => true
    case Obj => true
  }

  /** The decoded body. A `null` body makes `data.success` throw; any other
      non-object body reads both fields as undefined, i.e. `Record(Undefined, Undefined)`. */
  datatype Payload = NullPayload | Record(success: JsValue, products: JsValue)

  /** What the network and JSON decoding produce: a thrown error from either,
      or a decoded body. */
  datatype Response = Failed | Decoded(data: Payload)

  /** The response carries a usable product list: `data.success` is truthy and
      `Array.isArray(data.products)`. */
  predicate Accepted(resp: Response)
  {
    resp.Decoded? && resp.data.Record? && Truthy(resp.data.success) && resp.data.products.Arr?
  }

  /** The list the screen stores after a load. */
  function LoadProducts(resp: Response): (products: seq<Product>)
    ensures Accepted(resp) ==> products == resp.data.products.items
    ensures !Accepted(resp) ==> products == []
  {
    match resp
    case Failed => []
    case Decoded(NullPayload) => []
    case Decoded(Record(success, field)) =>
      if Truthy(success) && field.Arr? then field.items else []
  }

  /** Why a load yields no catalog. */
  datatype Unavailable = FetchFailed | NullBody | NotSuccessful | NotAnArray

  /** A reference classification that keeps the reason a load produced nothing. */
  datatype CatalogLoad = Loaded(products: seq<Product>) | Missing(reason: Unavailable)

  function Classify(resp: Response): CatalogLoad
  {
    match resp
    case Failed => Missing(FetchFailed)
    case Decoded(NullPayload) => Missing(NullBody)
    case Decoded(Record(success, field)) =>
      if !Truthy(success) then Missing(NotSuccessful)
      else if !field.Arr? then Missing(NotAnArray)
      else Loaded(field.items)
  }

  /** The screen's list is the classification with every reason collapsed to
      the empty list, and a response is accepted exactly when it classifies as
      loaded. */
  lemma LoadIsClassifyCollapsed(resp: Response)
    ensures Classify(resp).Loaded? <==> Accepted(resp)
    ensures LoadProducts(resp) == (if Classify(resp).Loaded? then Classify(resp).products else [])
  {
  }

  /** An empty list does not tell the caller whether the catalog is empty or
      unavailable: each failure reason and a genuinely empty catalog all give []. */
  lemma EmptyIsAmbiguous()
    ensures Classify(Decoded(Record(Bool(true), Arr([])))) == Loaded([])
    ensures Classify(Failed) == Missing(FetchFailed)
    ensures Classify(Decoded(Record(Bool(false), Arr([])))) == Missing(NotSuccessful)
    ensures Classify(Decoded(Record(Num(1), Obj))) == Missing(NotAnArray)
    ensures LoadProducts(Decoded(Record(Bool(true), Arr([])))) == []
    ensures LoadProducts(Failed) == []
    ensures LoadProducts(Decoded(Record(Bool(false), Arr([])))) == []
    ensures LoadProducts(Decoded(Record(Num(1), Obj))) == []
  {
  }
}
