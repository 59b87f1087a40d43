/** The catalog as the order service sees it: the product record returned by
    the product service (`ProductResponse`) and a lookup by product id.

    The HTTP call, its URL and the forwarded `Authorization` header are replaced
    by a finite map; a missing key stands for every way the call can fail to
    produce a record (a 404, an empty body, a transport error).
 */
module Products {
  import opened Common
  import opened OrderItems

  /** One catalog record. Every field is a boxed Java value and may be null;
      `quantity` is the stock on hand. */
  datatype ProductResponse = ProductResponse(
    id: Option<ProductId>,
    name: Option<string>,
    price: Option<Money>,
    quantity: Option<int>)

  /** The catalog at the time of the request. */
  type Catalog = map<ProductId, ProductResponse>

  /** Fetches the record of a product; a null id finds nothing. */
  function Lookup(catalog: Catalog, pid: Option<ProductId>): (r: Option<ProductResponse>)
    ensures r.Some? <==> pid.Some? && pid.value in catalog
    ensures r.Some? ==> r.value == catalog[pid.value]
  {
    match pid
    case None => None
    case Some(k) => if k in catalog then Some(catalog[k]) else None
  }
}
