/** The order aggregate (`Order`): customer data, a status, an ordered list of
    line items it owns, and a total amount derived from the items' line totals.

    The item-list operations (`AddItem`, `RemoveItem`, `SetItems`) maintain
    ownership but, as in the source, do not recompute the total; only
    `RecalcTotalAmount` (and the service workflows) do.
 */
module Orders {
  import opened Common
  import opened OrderItems

  /** The status every new or re-submitted order is given. */
  const PENDING: string := "PENDING"

  /** An order. `id` is the key it is stored under; the source assigns it on
      first save, the model fixes it when the value is built. Timestamps are
      not modelled. The item list is never null in the source. */
  datatype Order = Order(
    id: OrderId,
    customerName: Option<string>,
    customerEmail: Option<string>,
    totalAmount: Option<Money>,
    status: Option<string>,
    items: seq<OrderItem>)

  /** Sum of the line totals, a null line total counting as 0. */
  function SumLineTotals(items: seq<OrderItem>): Money
  {
    if |items| == 0 then 0 else OrZero(items[0].totalPrice) + SumLineTotals(items[1..])
  }

  /** The sum distributes over concatenation, so it does not depend on how the
      list was built up. */
  lemma {:induction false} SumLineTotalsAppend(a: seq<OrderItem>, b: seq<OrderItem>)
    ensures SumLineTotals(a + b) == SumLineTotals(a) + SumLineTotals(b)
    decreases |a|
  {
    if |a| == 0 {
      assert a + b == b;
    } else {
      assert (a + b)[1..] == a[1..] + b;
      SumLineTotalsAppend(a[1..], b);
    }
  }

  /** The derived-field invariants of an order: the total is the sum of the
      line totals, and every line total is unit price x quantity. */
  predicate Consistent(o: Order)
  {
    && o.totalAmount == Some(SumLineTotals(o.items))
    && forall i :: 0 <= i < |o.items| ==> LineTotalConsistent(o.items[i])
  }

  /** Every item of the order points back to it. */
  predicate OwnsItems(o: Order)
  {
    forall i :: 0 <= i < |o.items| ==> o.items[i].owner == Some(o.id)
  }

  /** A freshly constructed order: total 0, status PENDING, no items. */
  function NewOrder(id: OrderId): (o: Order)
    ensures o.id == id
    ensures o.totalAmount == Some(0) && o.status == Some(PENDING) && o.items == []
    ensures Consistent(o) && OwnsItems(o)
  {
    Order(id, None, None, Some(0), Some(PENDING), [])
  }

  /** Stores a total amount, null becoming 0; nothing else changes. */
  function SetTotalAmount(o: Order, t: Option<Money>): (r: Order)
    ensures t.Some? ==> r.totalAmount == t
    ensures t.None? ==> r.totalAmount == Some(0)
    ensures r.(totalAmount := o.totalAmount) == o
  {
    o.(totalAmount := Some(OrZero(t)))
  }

  /** Appends a non-null item and makes this order its owner; null is ignored.
      The total is not recomputed. */
  function AddItem(o: Order, it: Option<OrderItem>): (r: Order)
    ensures it.None? ==> r == o
    ensures it.Some? ==> |r.items| == |o.items| + 1
    ensures it.Some? ==> r.items[..|o.items|] == o.items
    ensures it.Some? ==> r.items[|o.items|] == SetOrder(it.value, Some(o.id))
    ensures r == o.(items := r.items)
    ensures OwnsItems(o) ==> OwnsItems(r)
  {
    match it
    case None => o
    case Some(x) => o.(items := o.items + [SetOrder(x, Some(o.id))])
  }

  /** Position of the first occurrence of `x` in `xs`. */
  function FirstIndex(xs: seq<OrderItem>, x: OrderItem): (i: nat)
    requires x in xs
    ensures i < |xs| && xs[i] == x
    ensures x !in xs[..i]
  {
    if xs[0] == x then 0
    else
      var j := FirstIndex(xs[1..], x);
      assert xs[..j + 1] == [xs[0]] + xs[1..][..j];
      j + 1
  }

  /** Removing past a non-matching head: the first occurrence in `xs` sits
      one position after the first occurrence in its tail. */
  lemma RemoveAfterHead(xs: seq<OrderItem>, x: OrderItem)
    requires |xs| > 0 && xs[0] != x && x in xs[1..]
    ensures x in xs
    ensures FirstIndex(xs, x) == FirstIndex(xs[1..], x) + 1
    ensures var i, j := FirstIndex(xs, x), FirstIndex(xs[1..], x);
            xs[..i] + xs[i + 1..] == [xs[0]] + (xs[1..][..j] + xs[1..][j + 1..])
  {
    var j := FirstIndex(xs[1..], x);
    assert xs[j + 1] == x;
    assert xs[..j + 1] == [xs[0]] + xs[1..][..j];
    assert xs[j + 2..] == xs[1..][j + 1..];
    ConcatAssociative([xs[0]], xs[1..][..j], xs[1..][j + 1..]);
  }

  /** Removes the first occurrence of `x` (the behaviour of `List.remove(Object)`). */
  function RemoveFirst(xs: seq<OrderItem>, x: OrderItem): (r: seq<OrderItem>)
    ensures x !in xs ==> r == xs
    ensures x in xs ==> r == xs[..FirstIndex(xs, x)] + xs[FirstIndex(xs, x) + 1..]
  {
    if |xs| == 0 then []
    else if xs[0] == x then xs[1..]
    else if x in xs[1..] then
      RemoveAfterHead(xs, x);
      [xs[0]] + RemoveFirst(xs[1..], x)
    else
      assert xs == [xs[0]] + xs[1..];
      [xs[0]] + RemoveFirst(xs[1..], x)
  }

  /** Removes the first occurrence of a non-null item and clears that item's
      owner; null is ignored. Returns the new order and the detached item.
      The total is not recomputed. */
  function RemoveItem(o: Order, it: Option<OrderItem>): (r: (Order, Option<OrderItem>))
    ensures it.None? ==> r == (o, None)
    ensures it.Some? ==> r.1 == Some(SetOrder(it.value, None))
    ensures it.Some? && it.value !in o.items ==> r.0 == o
    ensures it.Some? && it.value in o.items ==>
              var i := FirstIndex(o.items, it.value);
              r.0.items == o.items[..i] + o.items[i + 1..]
    ensures r.0 == o.(items := r.0.items)
  {
    match it
    case None => (o, None)
    case Some(x) => (o.(items := RemoveFirst(o.items, x)), Some(SetOrder(x, None)))
  }

  /** Removing what was just added gives back the original order, and the
      item comes back detached. */
  lemma AddThenRemove(o: Order, it: OrderItem)
    requires SetOrder(it, Some(o.id)) !in o.items
    ensures RemoveItem(AddItem(o, Some(it)), Some(SetOrder(it, Some(o.id))))
            == (o, Some(SetOrder(it, None)))
  {
    var owned := SetOrder(it, Some(o.id));
    var xs := AddItem(o, Some(it)).items;
    assert xs == o.items + [owned];
    var i := FirstIndex(xs, owned);
    assert forall j :: 0 <= j < |o.items| ==> xs[j] == o.items[j] != owned;
    assert i == |o.items|;
    assert xs[..i] == o.items;
    assert RemoveFirst(xs, owned) == o.items + xs[i + 1..];
    assert o.items + xs[i + 1..] == o.items;
    assert SetOrder(owned, None) == SetOrder(it, None);
  }

  /** The non-null elements of a list, in their original order. The contract
      only bounds the length; `PresentMembers` (which elements) and
      `PresentAppend` (order is kept) state what the filter means. */
  function Present(xs: seq<Option<OrderItem>>): (r: seq<OrderItem>)
    ensures |r| <= |xs|
  {
    if |xs| == 0 then []
    else
      match xs[0]
      case None => Present(xs[1..])
      case Some(x) => [x] + Present(xs[1..])
  }

  /** The filtered list holds exactly the values that were present. */
  lemma {:induction false} PresentMembers(xs: seq<Option<OrderItem>>)
    ensures forall x :: x in Present(xs) <==> Some(x) in xs
    decreases |xs|
  {
    if |xs| > 0 {
      PresentMembers(xs[1..]);
      assert xs == [xs[0]] + xs[1..];
    }
  }

  /** Filtering null out commutes with concatenation: order is preserved. */
  lemma {:induction false} PresentAppend(a: seq<Option<OrderItem>>, b: seq<Option<OrderItem>>)
    ensures Present(a + b) == Present(a) + Present(b)
    decreases |a|
  {
    if |a| == 0 {
      assert a + b == b;
    } else {
      assert (a + b)[1..] == a[1..] + b;
      PresentAppend(a[1..], b);
    }
  }

  /** The given items, each made owned by order `id`. */
  function Adopted(items: seq<OrderItem>, id: OrderId): (r: seq<OrderItem>)
    ensures |r| == |items|
    ensures forall i :: 0 <= i < |r| ==> r[i] == SetOrder(items[i], Some(id))
  {
    seq(|items|, i requires 0 <= i < |items| => SetOrder(items[i], Some(id)))
  }

  /** Concatenation of item lists is associative. */
  lemma ConcatAssociative(a: seq<OrderItem>, b: seq<OrderItem>, c: seq<OrderItem>)
    ensures (a + b) + c == a + (b + c)
  {
  }

  /** Adopting distributes over concatenation. */
  lemma AdoptedAppend(a: seq<OrderItem>, b: seq<OrderItem>, id: OrderId)
    ensures Adopted(a + b, id) == Adopted(a, id) + Adopted(b, id)
  {
  }

  /** One step of `AddAll`: adding the head and then the adopted rest
      appends the adopted non-null elements of the whole list. */
  lemma AddAllStep(o: Order, xs: seq<Option<OrderItem>>)
    requires |xs| > 0
    ensures AddItem(o, xs[0]).items + Adopted(Present(xs[1..]), o.id)
            == o.items + Adopted(Present(xs), o.id)
  {
    var head := if xs[0].Some? then [xs[0].value] else [];
    var tail := Present(xs[1..]);
    assert Present(xs) == head + tail;
    AdoptedAppend(head, tail, o.id);
    var (h, t) := (Adopted(head, o.id), Adopted(tail, o.id));
    assert AddItem(o, xs[0]).items == o.items + h;
    ConcatAssociative(o.items, h, t);
  }

  /** `AddItem` applied to each element in turn, the loop inside `setItems`. */
  function AddAll(o: Order, xs: seq<Option<OrderItem>>): (r: Order)
    ensures r == o.(items := r.items)
    ensures r.items == o.items + Adopted(Present(xs), o.id)
    decreases |xs|
  {
    if |xs| == 0 then o
    else
      AddAllStep(o, xs);
      AddAll(AddItem(o, xs[0]), xs[1..])
  }

  /** Replaces the item list by the non-null elements of `xs`, in order, each
      owned by this order; a null list leaves it empty. The total is not
      recomputed. */
  function SetItems(o: Order, xs: Option<seq<Option<OrderItem>>>): (r: Order)
    ensures xs.None? ==> r.items == []
    ensures xs.Some? ==> r.items == Adopted(Present(xs.value), o.id)
    ensures OwnsItems(r)
    ensures r == o.(items := r.items)
  {
    var cleared := o.(items := []);
    match xs
    case None => cleared
    case Some(ys) => AddAll(cleared, ys)
  }

  /** Sets the total to the sum of the current line totals (null counted as 0). */
  function RecalcTotalAmount(o: Order): (r: Order)
    ensures r.totalAmount == Some(SumLineTotals(o.items))
    ensures |o.items| == 0 ==> r.totalAmount == Some(0)
    ensures r == o.(totalAmount := r.totalAmount)
    ensures (forall i :: 0 <= i < |o.items| ==> LineTotalConsistent(o.items[i])) ==> Consistent(r)
  {
    o.(totalAmount := Some(SumLineTotals(o.items)))
  }

  /** A total written directly is overridden by the next recalculation:
      the stored amount plays no part in the recomputed one. */
  lemma RecalcOverridesSetTotalAmount(o: Order, t: Option<Money>)
    ensures RecalcTotalAmount(SetTotalAmount(o, t)) == RecalcTotalAmount(o)
  {
  }

  /** After adding an item, recalculation raises the total by exactly that
      item's line total. */
  lemma RecalcAfterAddItem(o: Order, it: OrderItem)
    ensures RecalcTotalAmount(AddItem(o, Some(it))).totalAmount
            == Some(SumLineTotals(o.items) + OrZero(it.totalPrice))
  {
    var owned := SetOrder(it, Some(o.id));
    assert AddItem(o, Some(it)).items == o.items + [owned];
    SumLineTotalsAppend(o.items, [owned]);
  }

  /** Dropping the element at position `i` lowers the sum by its line total. */
  lemma SumLineTotalsWithout(xs: seq<OrderItem>, i: nat)
    requires i < |xs|
    ensures SumLineTotals(xs[..i] + xs[i + 1..]) == SumLineTotals(xs) - OrZero(xs[i].totalPrice)
  {
    SumLineTotalsAppend(xs[..i], xs[i + 1..]);
    assert xs[..i] + xs[i..] == xs;
    SumLineTotalsAppend(xs[..i], xs[i..]);
    assert xs[i..][1..] == xs[i + 1..];
  }

  /** After removing an item of the order, recalculation lowers the total by
      exactly that item's line total. */
  lemma RecalcAfterRemoveItem(o: Order, it: OrderItem)
    requires it in o.items
    ensures RecalcTotalAmount(RemoveItem(o, Some(it)).0).totalAmount
            == Some(SumLineTotals(o.items) - OrZero(it.totalPrice))
  {
    SumLineTotalsWithout(o.items, FirstIndex(o.items, it));
  }
}
