/**
 * The domain events (src/allocation/domain/model/events.py): immutable
 * records that carry no behaviour.
 */
module Events {
  import opened Common
  import opened Allocation

  datatype Event =
      /** No batch could take a line of `sku`. */
    | OutOfStock(sku: string)
      /** A batch `ref` of `qty` units of `sku` was purchased; without an
          eta it is warehouse stock. */
    | BatchCreated(ref: string, sku: string, qty: int, eta: Eta := None)
      /** Batch `ref` now holds `qty` units; it names no sku. */
    | BatchQuantityChanged(ref: string, qty: int)
      /** Order `orderId` needs `qty` units of `sku`. */
    | AllocationRequired(orderId: string, sku: string, qty: int)
      /** Any other subclass of the base `Event`; no handler is registered for it. */
    | Unregistered(typeName: string)

  /** `type(event)`: the key of the handler registry. */
  datatype EventKind =
    | OutOfStockKind
    | BatchCreatedKind
    | BatchQuantityChangedKind
    | AllocationRequiredKind
    | OtherKind(typeName: string)

  function KindOf(e: Event): EventKind {
    match e
    case OutOfStock(_) => OutOfStockKind
    case BatchCreated(_, _, _, _) => BatchCreatedKind
    case BatchQuantityChanged(_, _) => BatchQuantityChangedKind
    case AllocationRequired(_, _, _) => AllocationRequiredKind
    case Unregistered(name) => OtherKind(name)
  }

  /** The four kinds declared by the domain. */
  const DomainKinds: set<EventKind> :=
    {OutOfStockKind, BatchCreatedKind, BatchQuantityChangedKind, AllocationRequiredKind}

  lemma ExactlyFourDomainKinds(e: Event)
    ensures |DomainKinds| == 4
    ensures KindOf(e) in DomainKinds <==> !e.Unregistered?
  {
  }

  /** The event that re-submits a deallocated line, keeping its order, sku and quantity. */
  function Reallocation(line: OrderLine): (e: Event)
    ensures e.AllocationRequired? && e.orderId == line.orderId && e.sku == line.sku && e.qty == line.qty
  {
    AllocationRequired(line.orderId, line.sku, line.qty)
  }

  function Reallocations(lines: seq<OrderLine>): (evs: seq<Event>)
    ensures |evs| == |lines| && forall k :: 0 <= k < |lines| ==> evs[k] == Reallocation(lines[k])
  {
    seq(|lines|, k requires 0 <= k < |lines| => Reallocation(lines[k]))
  }
}
