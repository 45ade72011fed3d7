/**
 * The product record the form submits and the remote product API that
 * receives it. The HTTP calls themselves are outside the model: a call is a
 * value (which endpoint, which body) and its result is supplied by the caller.
 */
module ProductsApi {
  import opened Wrappers

  /** One gallery image: its hosted URL and its original file name. */
  datatype Photo = Photo(url: string, filename: string)

  /**
   * The draft record, with the fields the form initialises. `extraProps`
   * holds any further string-valued property that a field edit adds under a
   * name that is not one of the record's own (a JavaScript object accepts any
   * key).
   */
  datatype Product = Product(
    productId: Option<int>,
    productName: string,
    price: int,
    stock: int,
    productPhoto: seq<Photo>,
    thumbnail: string,
    thumbnailName: string,
    photoName: seq<string>,
    description: string,
    extraProps: map<string, string>)

  /** A request to the remote API: `createProduct(body)` or `updateProduct(id, body)`. */
  datatype RemoteCall =
    | CreateProduct(body: Product)
    | UpdateProduct(id: string, body: Product)

  /** How an awaited remote call settled: resolved, or rejected with a message. */
  datatype RemoteOutcome = Succeeded | Failed(message: string)
}
