# Order orchestration model

A Dafny model of the order service of a two-service shop: orders made of line
items, whose names and prices are copied from a product catalog at the time an
order is created or updated. It covers three parts of the service:

- the line item (`OrderItem`). Its price and quantity setters turn `null`
  into 0 and re-derive the line total = unit price x quantity;
- the order (`Order`). It holds an ordered list of items it owns. Its total
  is the sum of the items' line totals;
- the workflows of `OrderService`:
  - create checks stock, copies prices and totals, then saves with status PENDING;
  - update copies the customer data and replaces the items without a stock check;
  - delete removes an order after an existence check.

The model is functional. Entities are immutable datatypes. The catalog is a
`map<ProductId, ProductResponse>` and the order store is a
`map<OrderId, Order>`. Create and update return `Ok(Saved(newStore, order))`
or `Err(reason)`. Delete returns `Ok(newStore)` or `Err(reason)`. An error
carries no store, so a failed call leaves the caller's store exactly as it was.
This is the model of the transactional rollback.

Modules:

- `Common` (common.dfy): `Option`, where `None` stands for Java `null`. `Result`. `OrZero`, which unboxes with null as 0.
- `OrderItems` (order_items.dfy): `OrderItem`, its setters and the line-total invariant.
- `Orders` (orders.dfy): `Order`, its item-list operations, the total fold, and the `Consistent` and `OwnsItems` invariants.
- `Products` (products.dfy): the catalog record `ProductResponse` and `Lookup`.
- `OrderService` (order_service.dfy): `CreateOrder`, `UpdateOrder`, `DeleteOrder`, the per-item enrichment loop, and the store invariant with lemmas showing each workflow preserves it.

Money is `int` in minor units (cents). The source uses `Double`.

The model follows the code on these points:

- nothing rejects a zero or negative requested quantity. Create accepts it whenever the product's stock is non-null and at least that quantity (the stock itself is an unchecked integer and may be negative);
- `addItem`, `removeItem` and `setItems` do not recompute the order total. Only `recalcTotalAmount` and the service workflows do;
- update never checks stock, and `UpdateSkipsStockCheck` exhibits this;
- a missing product and an unreachable catalog are not told apart. Both are one failed lookup.

## Model

| member | source | states |
|---|---|---|
| `OrderItems.NewItem` | order-service/src/main/java/org/example/orderservice/model/OrderItem.java:22-28 | a new item has quantity 0, unit price 0 and line total 0, no product, no name, no owner, so the line-total invariant holds from the start |
| `OrderItems.RecalcTotalPrice` | order-service/src/main/java/org/example/orderservice/model/OrderItem.java:80-84 | afterwards line total = unit price x quantity, and 0 when either factor is null; no other field changes |
| `OrderItems.RecalcTotalPriceFixpoint` | order-service/src/main/java/org/example/orderservice/model/OrderItem.java:80-84 | recalculation leaves an item unchanged exactly when its line total is already consistent, and it is idempotent |
| `OrderItems.SetQuantity` | order-service/src/main/java/org/example/orderservice/model/OrderItem.java:54-57 | a null quantity is stored as 0, any other is stored as given; the line total is then unit price x new quantity; only quantity and line total change |
| `OrderItems.SetUnitPrice` | order-service/src/main/java/org/example/orderservice/model/OrderItem.java:60-63 | a null price is stored as 0, any other is stored as given; the line total is then new price x quantity; only price and line total change |
| `OrderItems.PriceAndQuantitySettersCommute` | order-service/src/main/java/org/example/orderservice/model/OrderItem.java:54-63 | setting price then quantity gives the same item as setting quantity then price |
| `OrderItems.SetTotalPrice` | order-service/src/main/java/org/example/orderservice/model/OrderItem.java:66 | a null total is stored as 0, any other as given; unit price, quantity and every other field are left alone |
| `OrderItems.RecalcOverridesSetTotalPrice` | order-service/src/main/java/org/example/orderservice/model/OrderItem.java:66-84 | a line total written directly is discarded by the next recalculation, which depends only on price and quantity |
| `OrderItems.SetProductName` | order-service/src/main/java/org/example/orderservice/model/OrderItem.java:51 | only the product name changes; a consistent line total stays consistent |
| `OrderItems.SetOrder` | order-service/src/main/java/org/example/orderservice/model/OrderItem.java:69 | only the owner changes; a consistent line total stays consistent |
| `Orders.NewOrder` | order-service/src/main/java/org/example/orderservice/model/Order.java:24-37 | a new order has total 0, status PENDING and no items, so it is consistent and owns all its items |
| `Orders.SetTotalAmount` | order-service/src/main/java/org/example/orderservice/model/Order.java:52 | a null total is stored as 0, any other as given; nothing else changes |
| `Orders.RecalcOverridesSetTotalAmount` | order-service/src/main/java/org/example/orderservice/model/Order.java:52-93 | an order total written directly is discarded by the next recalculation, which depends only on the items' line totals |
| `Orders.AddItem` | order-service/src/main/java/org/example/orderservice/model/Order.java:74-79 | null is a no-op; otherwise the list grows by one, the earlier items are unchanged, the new last item is the given one owned by this order, and ownership of all items is kept |
| `Orders.RemoveFirst` | order-service/src/main/java/org/example/orderservice/model/Order.java:83 | an absent item leaves the list as it is; a present one loses exactly its first occurrence, with everything before and after kept in order |
| `Orders.RemoveItem` | order-service/src/main/java/org/example/orderservice/model/Order.java:81-86 | null is a no-op; otherwise the first occurrence is removed, the item comes back with its owner cleared, and no other field of the order changes |
| `Orders.AddThenRemove` | order-service/src/main/java/org/example/orderservice/model/Order.java:74-86 | removing the item just added gives back the original order and the item detached |
| `Orders.Present` | order-service/src/main/java/org/example/orderservice/model/Order.java:64-69 | the non-null elements of a list are never more than the list's elements; which elements and in what order is stated by `PresentMembers` and `PresentAppend` |
| `Orders.PresentMembers` | order-service/src/main/java/org/example/orderservice/model/Order.java:64-69 | the filtered list holds exactly the values x with Some(x) in the input |
| `Orders.PresentAppend` | order-service/src/main/java/org/example/orderservice/model/Order.java:64-69 | filtering null out distributes over concatenation, so the input order is kept |
| `Orders.AddAll` | order-service/src/main/java/org/example/orderservice/model/Order.java:67 | adding each element in turn appends exactly the non-null elements, in order, each owned by this order |
| `Orders.SetItems` | order-service/src/main/java/org/example/orderservice/model/Order.java:64-69 | the list becomes the non-null elements of the argument, in order, each owned by this order; a null argument leaves it empty; nothing else changes |
| `Orders.RecalcTotalAmount` | order-service/src/main/java/org/example/orderservice/model/Order.java:89-93 | the total becomes the sum of the line totals with null counted as 0, and 0 with no items; with consistent lines the order becomes consistent |
| `Orders.SumLineTotalsAppend` | order-service/src/main/java/org/example/orderservice/model/Order.java:89-93 | the sum of line totals over a concatenation is the sum of the two parts |
| `Orders.RecalcAfterAddItem` | order-service/src/main/java/org/example/orderservice/model/Order.java:74-79 | after adding an item, recalculation gives the old sum plus that item's line total |
| `Orders.RecalcAfterRemoveItem` | order-service/src/main/java/org/example/orderservice/model/Order.java:81-86 | after removing an item of the order, recalculation gives the old sum minus that item's line total |
| `Products.Lookup` | order-service/src/main/java/org/example/orderservice/service/OrderService.java:54-67 | a record is found exactly when the product id is non-null and in the catalog, and it is the catalog's record |
| `OrderService.EnrichItem` | order-service/src/main/java/org/example/orderservice/service/OrderService.java:64-76 | succeeds exactly when the product is found and, when stock is checked, the stock covers the non-null quantity; the result copies the catalog's name and price (null price as 0), keeps product and quantity, has line total = price x quantity and belongs to the order; a failure names the cause |
| `OrderService.EnrichAll` | order-service/src/main/java/org/example/orderservice/service/OrderService.java:52-87 | succeeds exactly when every item does, producing one enriched item per request item in order; otherwise the error is that of the first failing item, all earlier ones having passed |
| `OrderService.RunningTotal` | order-service/src/main/java/org/example/orderservice/service/OrderService.java:82-90 | the loop's accumulated total equals the start value plus the order-level sum of line totals |
| `OrderService.CreateOrder` | order-service/src/main/java/org/example/orderservice/service/OrderService.java:43-96 | an empty item list fails with EmptyOrder; success exactly when every item's product is known and its stock is non-null and at least the non-null quantity; a failure reports the first unavailable item's cause; on success the store gains exactly the new order under the fresh id, with the request's customer data, status PENDING, every item priced from the catalog and owned by the order, and total = sum of line totals |
| `OrderService.UpdateOrder` | order-service/src/main/java/org/example/orderservice/service/OrderService.java:99-154 | an unknown id fails with OrderNotFound; otherwise success exactly when every new item's product is known (no stock check), else the first unknown product is reported; name and email are copied and status is the requested one or PENDING when null; a non-empty list replaces the items by the priced new ones in order with total = their sum; an empty list keeps items and total; only that order is rewritten |
| `OrderService.DeleteOrder` | order-service/src/main/java/org/example/orderservice/service/OrderService.java:157-163 | fails with OrderNotFound exactly when the id is absent; otherwise that id is gone and every other order is unchanged |
| `OrderService.CreatePreservesInvariant` | order-service/src/main/java/org/example/orderservice/service/OrderService.java:43-96 | a successful create keeps every stored order under its own id, with consistent totals and owning its items |
| `OrderService.UpdatePreservesInvariant` | order-service/src/main/java/org/example/orderservice/service/OrderService.java:99-154 | a successful update keeps the same store invariant |
| `OrderService.DeletePreservesInvariant` | order-service/src/main/java/org/example/orderservice/service/OrderService.java:157-163 | a successful delete keeps the same store invariant |
| `OrderService.CreateThenDelete` | order-service/src/main/java/org/example/orderservice/service/OrderService.java:157-163 | deleting the order just created restores the store as it was before the create |
| `OrderService.UpdateIsIdempotent` | order-service/src/main/java/org/example/orderservice/service/OrderService.java:108-149 | the item list is replaced, not merged: repeating a successful update with the same details changes nothing more |
| `OrderService.CreateWithEnoughStock` | order-service/src/main/java/org/example/orderservice/service/OrderService.java:69-91 | two units of a 10.00 product with stock 5 give one line at 10.00 with line total 20.00, an order total of 20.00 and status PENDING |
| `OrderService.CreateStockBoundary` | order-service/src/main/java/org/example/orderservice/service/OrderService.java:69-71 | stock 1 for quantity 2 fails with InsufficientStock; stock equal to the quantity is accepted |
| `OrderService.UpdateSkipsStockCheck` | order-service/src/main/java/org/example/orderservice/service/OrderService.java:125-141 | a request that create rejects for lack of stock is accepted by update as the new item list of an existing order |

## Left out

- HTTP transport: the `RestTemplate` call, the URL, and forwarding the `Authorization` header. The catalog is a map and a lookup is a map access. A 404, an empty body and a transport error all count as a missing product. The order service requests `/products/{id}`, while the catalog controller serves JSON at `/products/api/{id}`. The model assumes the lookup reaches the catalog.
- Error message text: the source rewraps every failure into one generic `RuntimeException`. The model keeps the causes apart as `OrderError` constructors and has no messages.
- Timestamps: the `createdAt`/`updatedAt` fields of both entities and their writes in the workflows. They carry no checked behaviour.
- Persistence: JPA, `@Transactional` and the repository. The store is a map, and rollback follows from an error carrying no store. Create takes the fresh id as an argument, constrained to be absent from the store. The source lets the database assign it.
- Database ids of line items are not modelled, so removed items are absent rather than deleted by id.
- Column constraints (`nullable = false`) enforced by the database at save time are not modelled. A null customer name or email is saved as given.
- Object identity: `List.remove` in `removeItem` compares by identity. The model compares items as values. Aliasing is not modelled either: in the source, `setItems(getItems())` clears the list it then iterates.
- The `getItems() == null` guards: an order's list is never null (field initialiser, null-safe `setItems`), so a null list is not representable and the empty case stands for it. Null elements inside a request list are likewise not representable. The source would fail on them.
- A caller-supplied id on the create request is ignored. The source would merge into the row with that id.
- Floating point: `Double` money and its rounding. Money is exact integer cents.
- Concurrency: nothing reserves stock between the check and the save, so two concurrent creates can both pass. The model is sequential.
- Read paths: `getAllOrders` and `getOrderById` are plain lookups.
- The product service's controllers and service, and the security configuration. Only the shape of a catalog record is used.
