/** The order workflows of `OrderService`: create, update and delete against a
    store of orders, with every line item checked and priced against the catalog.

    The store is a map from order id to order. Each workflow is one
    transaction: it returns either the new store (with the saved order) or an
    error, and an error carries no store, so a failing call leaves the caller's
    store exactly as it was.
 */
module OrderService {
  import opened Common
  import opened OrderItems
  import opened Orders
  import opened Products

  /** Why a workflow failed. The source rewraps every failure into one generic
      exception; the model keeps the causes apart. `MissingQuantity` is the
      null-unboxing failure of the stock comparison. */
  datatype OrderError =
    | EmptyOrder
    | ProductNotFound(productId: Option<ProductId>)
    | MissingQuantity(productId: Option<ProductId>)
    | InsufficientStock(productId: Option<ProductId>)
    | OrderNotFound(orderId: OrderId)

  /** The persisted orders, by id. */
  type Store = map<OrderId, Order>

  /** A successful write: the new store and the order as saved. */
  datatype Saved = Saved(store: Store, order: Order)

  /** The stock check of order creation: the product is in the catalog, both
      the stock and the requested quantity are non-null, and the stock covers
      the quantity (equal stock is enough). */
  predicate Available(catalog: Catalog, item: OrderItem)
  {
    match Lookup(catalog, item.productId)
    case None => false
    case Some(p) =>
      p.quantity.Some? && item.quantity.Some? && item.quantity.value <= p.quantity.value
  }

  /** The reason creation turns an unavailable item down. */
  function Rejection(catalog: Catalog, item: OrderItem): OrderError
    requires !Available(catalog, item)
  {
    match Lookup(catalog, item.productId)
    case None => ProductNotFound(item.productId)
    case Some(p) =>
      if p.quantity.None? || item.quantity.None? then MissingQuantity(item.productId)
      else InsufficientStock(item.productId)
  }

  /** `out` is `req` priced from catalog record `p` and owned by order `owner`:
      name and unit price are snapshots of the catalog's, the line total is
      unit price x quantity, product and quantity are the requested ones. */
  predicate EnrichedFrom(out: OrderItem, req: OrderItem, p: ProductResponse, owner: OrderId)
  {
    && out.productId == req.productId
    && out.quantity == req.quantity
    && out.productName == p.name
    && out.unitPrice == Some(OrZero(p.price))
    && out.totalPrice == Some(OrZero(p.price) * OrZero(req.quantity))
    && out.owner == Some(owner)
  }

  /** One pass of the per-item loop body: look the product up, check stock
      when creating (`checkStock`; updating skips it), copy name and price,
      recompute the line total and attach the item to its order. */
  function EnrichItem(catalog: Catalog, item: OrderItem, owner: OrderId, checkStock: bool)
    : (r: Result<OrderItem, OrderError>)
    ensures r.Ok? <==> Lookup(catalog, item.productId).Some? && (checkStock ==> Available(catalog, item))
    ensures r.Err? && checkStock ==> !Available(catalog, item) && r.error == Rejection(catalog, item)
    ensures r.Err? && !checkStock ==> r.error == ProductNotFound(item.productId)
    ensures r.Ok? ==> EnrichedFrom(r.value, item, Lookup(catalog, item.productId).value, owner)
    ensures r.Ok? ==> LineTotalConsistent(r.value)
  {
    match Lookup(catalog, item.productId)
    case None => Err(ProductNotFound(item.productId))
    case Some(p) =>
      if checkStock && (p.quantity.None? || item.quantity.None?) then
        Err(MissingQuantity(item.productId))
      else if checkStock && p.quantity.value < item.quantity.value then
        Err(InsufficientStock(item.productId))
      else
        Ok(SetOrder(RecalcTotalPrice(SetUnitPrice(SetProductName(item, p.name), p.price)), Some(owner)))
  }

  /** Item `k` is the first of `items` to fail, with error `e`. */
  predicate FirstFailureAt(catalog: Catalog, items: seq<OrderItem>, owner: OrderId, checkStock: bool,
                           k: int, e: OrderError)
  {
    && 0 <= k < |items|
    && (forall j :: 0 <= j < k ==> EnrichItem(catalog, items[j], owner, checkStock).Ok?)
    && EnrichItem(catalog, items[k], owner, checkStock) == Err(e)
  }

  /** A first failure in the tail, behind a head that passes, is the first
      failure of the whole list, one position further on. */
  lemma FirstFailureBehindHead(catalog: Catalog, items: seq<OrderItem>, owner: OrderId,
                               checkStock: bool, k: int, e: OrderError)
    requires |items| > 0 && EnrichItem(catalog, items[0], owner, checkStock).Ok?
    requires FirstFailureAt(catalog, items[1..], owner, checkStock, k, e)
    ensures FirstFailureAt(catalog, items, owner, checkStock, k + 1, e)
  {
  }

  /** The per-item loop: items are processed in the order given and the first
      failure aborts the whole loop. */
  function EnrichAll(catalog: Catalog, items: seq<OrderItem>, owner: OrderId, checkStock: bool)
    : (r: Result<seq<OrderItem>, OrderError>)
    ensures r.Ok? <==>
              forall i :: 0 <= i < |items| ==> EnrichItem(catalog, items[i], owner, checkStock).Ok?
    ensures r.Ok? ==> |r.value| == |items|
    ensures r.Ok? ==>
              forall i :: 0 <= i < |items| ==> EnrichItem(catalog, items[i], owner, checkStock) == Ok(r.value[i])
    ensures r.Err? ==> exists k :: FirstFailureAt(catalog, items, owner, checkStock, k, r.error)
    decreases |items|
  {
    if |items| == 0 then Ok([])
    else
      match EnrichItem(catalog, items[0], owner, checkStock)
      case Err(e) =>
        assert FirstFailureAt(catalog, items, owner, checkStock, 0, e);
        Err(e)
      case Ok(first) =>
        match EnrichAll(catalog, items[1..], owner, checkStock)
        case Err(e) =>
          var k :| FirstFailureAt(catalog, items[1..], owner, checkStock, k, e);
          FirstFailureBehindHead(catalog, items, owner, checkStock, k, e);
          Err(e)
        case Ok(rest) => Ok([first] + rest)
  }

  /** The loop's running total (`totalAmount += item.getTotalPrice()`), which
      comes out as the order-level sum of line totals. */
  function RunningTotal(items: seq<OrderItem>, acc: Money): (r: Money)
    ensures r == acc + SumLineTotals(items)
    decreases |items|
  {
    if |items| == 0 then acc
    else RunningTotal(items[1..], acc + OrZero(items[0].totalPrice))
  }

  /** `o` is what creating `request` under `id` against `catalog` must save:
      the customer data of the request, status PENDING, every item priced from
      the catalog and owned by the order, and the total equal to the sum of the
      line totals. */
  predicate CreatedFrom(o: Order, request: Order, catalog: Catalog, id: OrderId)
  {
    && o.id == id
    && o.customerName == request.customerName
    && o.customerEmail == request.customerEmail
    && o.status == Some(PENDING)
    && o.totalAmount == Some(SumLineTotals(o.items))
    && |o.items| == |request.items|
    && forall i :: 0 <= i < |o.items| ==>
         var p := Lookup(catalog, request.items[i].productId);
         p.Some? && EnrichedFrom(o.items[i], request.items[i], p.value, id)
  }

  /** Creates an order under the fresh id `id`. Fails on an empty item list and
      on the first item that is unknown to the catalog or short of stock;
      otherwise saves the priced order with status PENDING. */
  function CreateOrder(store: Store, catalog: Catalog, request: Order, id: OrderId)
    : (r: Result<Saved, OrderError>)
    requires id !in store
    ensures |request.items| == 0 ==> r == Err(EmptyOrder)
    ensures r.Ok? <==>
              |request.items| > 0
              && forall i :: 0 <= i < |request.items| ==> Available(catalog, request.items[i])
    ensures r.Err? && |request.items| > 0 ==>
              exists k :: 0 <= k < |request.items|
                && (forall j :: 0 <= j < k ==> Available(catalog, request.items[j]))
                && !Available(catalog, request.items[k])
                && r.error == Rejection(catalog, request.items[k])
    ensures r.Ok? ==> r.value.store == store[id := r.value.order]
    ensures r.Ok? ==> CreatedFrom(r.value.order, request, catalog, id)
  {
    if |request.items| == 0 then Err(EmptyOrder)
    else
      match EnrichAll(catalog, request.items, id, true)
      case Err(e) => Err(e)
      case Ok(items) =>
        var o := SetTotalAmount(request.(id := id, items := items, status := Some(PENDING)),
                                Some(RunningTotal(items, 0)));
        Ok(Saved(store[id := o], o))
  }

  /** The status an update writes: the requested one, or PENDING when null. */
  function RequestedStatus(details: Order): Option<string>
  {
    if details.status.Some? then details.status else Some(PENDING)
  }

  /** Updates order `id`. Customer name, email and status are taken from
      `details`. A non-empty item list replaces the old items by the newly
      priced ones (no stock check) and resets the total to their sum; an empty
      list keeps the old items and total. */
  function UpdateOrder(store: Store, catalog: Catalog, id: OrderId, details: Order)
    : (r: Result<Saved, OrderError>)
    ensures id !in store ==> r == Err(OrderNotFound(id))
    ensures id in store ==>
              (r.Ok? <==>
                 forall i :: 0 <= i < |details.items| ==> Lookup(catalog, details.items[i].productId).Some?)
    ensures id in store && r.Err? ==>
              exists k :: 0 <= k < |details.items|
                && (forall j :: 0 <= j < k ==> Lookup(catalog, details.items[j].productId).Some?)
                && Lookup(catalog, details.items[k].productId).None?
                && r.error == ProductNotFound(details.items[k].productId)
    ensures r.Ok? ==> id in store && r.value.store == store[id := r.value.order]
    ensures r.Ok? ==>
              && r.value.order.id == store[id].id
              && r.value.order.customerName == details.customerName
              && r.value.order.customerEmail == details.customerEmail
              && (details.status.Some? ==> r.value.order.status == details.status)
              && (details.status.None? ==> r.value.order.status == Some(PENDING))
    ensures r.Ok? && |details.items| == 0 ==>
              && r.value.order.items == store[id].items
              && r.value.order.totalAmount == store[id].totalAmount
    ensures r.Ok? && |details.items| > 0 ==>
              && r.value.order.totalAmount == Some(SumLineTotals(r.value.order.items))
              && |r.value.order.items| == |details.items|
              && forall i :: 0 <= i < |details.items| ==>
                   var p := Lookup(catalog, details.items[i].productId);
                   p.Some? && EnrichedFrom(r.value.order.items[i], details.items[i], p.value, store[id].id)
  {
    if id !in store then Err(OrderNotFound(id))
    else
      var current := store[id];
      var renamed := current.(customerName := details.customerName,
                              customerEmail := details.customerEmail,
                              status := RequestedStatus(details));
      if |details.items| == 0 then Ok(Saved(store[id := renamed], renamed))
      else
        match EnrichAll(catalog, details.items, current.id, false)
        case Err(e) => Err(e)
        case Ok(items) =>
          var o := SetTotalAmount(renamed.(items := items), Some(RunningTotal(items, 0)));
          Ok(Saved(store[id := o], o))
  }

  /** Deletes order `id` (with its items); fails when there is no such order. */
  function DeleteOrder(store: Store, id: OrderId): (r: Result<Store, OrderError>)
    ensures r.Err? <==> id !in store
    ensures r.Err? ==> r.error == OrderNotFound(id)
    ensures r.Ok? ==> r.value.Keys == store.Keys - {id}
    ensures r.Ok? ==> forall k :: k in r.value ==> r.value[k] == store[k]
  {
    if id !in store then Err(OrderNotFound(id)) else Ok(store - {id})
  }

  /** What every stored order satisfies: it sits under its own id, its totals
      are consistent, and it owns all its items. */
  predicate StoreInvariant(store: Store)
  {
    forall k :: k in store ==> store[k].id == k && Consistent(store[k]) && OwnsItems(store[k])
  }

  /** Creation keeps the store invariant. */
  lemma CreatePreservesInvariant(store: Store, catalog: Catalog, request: Order, id: OrderId)
    requires id !in store && StoreInvariant(store)
    requires CreateOrder(store, catalog, request, id).Ok?
    ensures StoreInvariant(CreateOrder(store, catalog, request, id).value.store)
  {
  }

  /** Updating keeps the store invariant. */
  lemma UpdatePreservesInvariant(store: Store, catalog: Catalog, id: OrderId, details: Order)
    requires StoreInvariant(store)
    requires UpdateOrder(store, catalog, id, details).Ok?
    ensures StoreInvariant(UpdateOrder(store, catalog, id, details).value.store)
  {
  }

  /** Deleting keeps the store invariant. */
  lemma DeletePreservesInvariant(store: Store, id: OrderId)
    requires StoreInvariant(store)
    requires DeleteOrder(store, id).Ok?
    ensures StoreInvariant(DeleteOrder(store, id).value)
  {
  }

  /** Deleting an order right after creating it restores the previous store. */
  lemma CreateThenDelete(store: Store, catalog: Catalog, request: Order, id: OrderId)
    requires id !in store
    requires CreateOrder(store, catalog, request, id).Ok?
    ensures DeleteOrder(CreateOrder(store, catalog, request, id).value.store, id) == Ok(store)
  {
    var s := CreateOrder(store, catalog, request, id).value.store;
    assert s - {id} == store;
  }

  /** Updates replace rather than merge: repeating a successful update with the
      same details against the same catalog changes nothing further. */
  lemma UpdateIsIdempotent(store: Store, catalog: Catalog, id: OrderId, details: Order)
    requires UpdateOrder(store, catalog, id, details).Ok?
    ensures var saved := UpdateOrder(store, catalog, id, details).value;
            UpdateOrder(saved.store, catalog, id, details) == Ok(saved)
  {
    var saved := UpdateOrder(store, catalog, id, details).value;
    assert saved.store[id := saved.order] == saved.store;
  }

  /** A one-line request for product 7, quantity 2. */
  function SampleRequest(): Order
  {
    NewOrder(0).(customerName := Some("Ann"), customerEmail := Some("ann@example.org"),
                 items := [NewItem().(productId := Some(7), quantity := Some(2))])
  }

  /** Product 7 at 10.00 (1000 cents) with the given stock. */
  function SampleCatalog(stock: int): Catalog
  {
    map[7 := ProductResponse(Some(7), Some("Widget"), Some(1000), Some(stock))]
  }

  /** Two units of a 10.00 product with five in stock: one line of 20.00, an
      order total of 20.00, status PENDING. */
  lemma CreateWithEnoughStock()
    ensures var r := CreateOrder(map[], SampleCatalog(5), SampleRequest(), 1);
            && r.Ok?
            && r.value.order.items[0].productName == Some("Widget")
            && r.value.order.items[0].unitPrice == Some(1000)
            && r.value.order.items[0].totalPrice == Some(2000)
            && r.value.order.totalAmount == Some(2000)
            && r.value.order.status == Some(PENDING)
            && r.value.store == map[1 := r.value.order]
  {
  }

  /** The same request with only one unit in stock fails with
      InsufficientStock and saves nothing; stock equal to the quantity passes. */
  lemma CreateStockBoundary()
    ensures CreateOrder(map[], SampleCatalog(1), SampleRequest(), 1)
            == Err(InsufficientStock(Some(7)))
    ensures CreateOrder(map[], SampleCatalog(2), SampleRequest(), 1).Ok?
  {
  }

  /** Updating does not check stock: the request creation turns down for
      lack of stock is accepted as the new item list of an existing order. */
  lemma UpdateSkipsStockCheck()
    ensures CreateOrder(map[], SampleCatalog(1), SampleRequest(), 1).Err?
    ensures UpdateOrder(map[1 := NewOrder(1)], SampleCatalog(1), 1, SampleRequest()).Ok?
  {
  }
}
