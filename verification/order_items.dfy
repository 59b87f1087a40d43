/** The order line item (`OrderItem`): a product reference, a quantity, a price
    snapshot and a derived line total.

    Every boxed field of the entity is nullable, so each is an `Option`. The
    price and quantity setters normalise `null` to zero and re-derive the line
    total; `RecalcTotalPrice` is the single place where the derivation lives.
 */
module OrderItems {
  import opened Common

  /** Catalog product identifier (a Java `Long`). */
  type ProductId = int

  /** Order identifier (a Java `Long`). */
  type OrderId = int

  /** Money in minor units (cents); the source uses `Double`, without rounding here. */
  type Money = int

  /** One line of an order. `owner` is the id of the order the item belongs to,
      standing for the entity's back-reference to its `Order`. Database ids and
      timestamps are not modelled. */
  datatype OrderItem = OrderItem(
    productId: Option<ProductId>,
    productName: Option<string>,
    quantity: Option<int>,
    unitPrice: Option<Money>,
    totalPrice: Option<Money>,
    owner: Option<OrderId>)

  /** The line-total invariant: total = unit price x quantity, a null factor counting as 0. */
  predicate LineTotalConsistent(it: OrderItem)
  {
    it.totalPrice == Some(OrZero(it.unitPrice) * OrZero(it.quantity))
  }

  /** A freshly constructed item: zero quantity, zero price, zero line total. */
  function NewItem(): (it: OrderItem)
    ensures it.quantity == Some(0) && it.unitPrice == Some(0) && it.totalPrice == Some(0)
    ensures it.productId.None? && it.productName.None? && it.owner.None?
    ensures LineTotalConsistent(it)
  {
    OrderItem(None, None, Some(0), Some(0), Some(0), None)
  }

  /** Re-derives the line total from the current unit price and quantity. */
  function RecalcTotalPrice(it: OrderItem): (r: OrderItem)
    ensures LineTotalConsistent(r)
    ensures it.unitPrice.None? || it.quantity.None? ==> r.totalPrice == Some(0)
    ensures r.(totalPrice := it.totalPrice) == it
  {
    it.(totalPrice :=
          if it.unitPrice.Some? && it.quantity.Some?
          then Some(it.unitPrice.value * it.quantity.value)
          else Some(0))
  }

  /** Recalculation changes nothing exactly when the invariant already holds. */
  lemma RecalcTotalPriceFixpoint(it: OrderItem)
    ensures RecalcTotalPrice(it) == it <==> LineTotalConsistent(it)
    ensures RecalcTotalPrice(RecalcTotalPrice(it)) == RecalcTotalPrice(it)
  {
  }

  /** Sets the quantity (null becomes 0) and re-derives the line total. */
  function SetQuantity(it: OrderItem, q: Option<int>): (r: OrderItem)
    ensures q.Some? ==> r.quantity == q
    ensures q.None? ==> r.quantity == Some(0)
    ensures LineTotalConsistent(r)
    ensures r.totalPrice == Some(OrZero(it.unitPrice) * OrZero(q))
    ensures r.(quantity := it.quantity, totalPrice := it.totalPrice) == it
  {
    RecalcTotalPrice(it.(quantity := Some(OrZero(q))))
  }

  /** Sets the unit price (null becomes 0) and re-derives the line total. */
  function SetUnitPrice(it: OrderItem, p: Option<Money>): (r: OrderItem)
    ensures p.Some? ==> r.unitPrice == p
    ensures p.None? ==> r.unitPrice == Some(0)
    ensures LineTotalConsistent(r)
    ensures r.totalPrice == Some(OrZero(p) * OrZero(it.quantity))
    ensures r.(unitPrice := it.unitPrice, totalPrice := it.totalPrice) == it
  {
    RecalcTotalPrice(it.(unitPrice := Some(OrZero(p))))
  }

  /** The line total only depends on the last price and quantity written,
      not on the order in which the two setters ran. */
  lemma PriceAndQuantitySettersCommute(it: OrderItem, q: Option<int>, p: Option<Money>)
    ensures SetUnitPrice(SetQuantity(it, q), p) == SetQuantity(SetUnitPrice(it, p), q)
  {
  }

  /** Overwrites the line total (null becomes 0); price and quantity are untouched,
      so this is the one setter that can break the line-total invariant. */
  function SetTotalPrice(it: OrderItem, t: Option<Money>): (r: OrderItem)
    ensures t.Some? ==> r.totalPrice == t
    ensures t.None? ==> r.totalPrice == Some(0)
    ensures r.(totalPrice := it.totalPrice) == it
  {
    it.(totalPrice := Some(OrZero(t)))
  }

  /** A line total written directly is overridden by the next recalculation,
      which restores the invariant from price and quantity alone. */
  lemma RecalcOverridesSetTotalPrice(it: OrderItem, t: Option<Money>)
    ensures RecalcTotalPrice(SetTotalPrice(it, t)) == RecalcTotalPrice(it)
  {
  }

  /** Plain setter of the product name; the line total is not touched. */
  function SetProductName(it: OrderItem, name: Option<string>): (r: OrderItem)
    ensures r.productName == name
    ensures r.(productName := it.productName) == it
    ensures LineTotalConsistent(it) ==> LineTotalConsistent(r)
  {
    it.(productName := name)
  }

  /** Plain setter of the owning order; the line total is not touched. */
  function SetOrder(it: OrderItem, owner: Option<OrderId>): (r: OrderItem)
    ensures r.owner == owner
    ensures r.(owner := it.owner) == it
    ensures LineTotalConsistent(it) ==> LineTotalConsistent(r)
  {
    it.(owner := owner)
  }
}
