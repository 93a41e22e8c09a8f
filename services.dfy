/**
 * The unit-of-work service layer that takes request DTOs
 * (src/allocation/domain/service/services.py): `add_batch` and `allocate`
 * over the products of a unit of work, before the handlers took the same
 * shape with events as their input.
 */
module Services {
  import opened Common
  import opened Allocation
  import opened Events
  import opened Aggregate
  import opened UnitOfWork
  import Handlers

  /** `dto.BatchInput`: pydantic has already checked that the quantity is positive. */
  datatype BatchInput = BatchInput(reference: string, sku: string, purchasedQuantity: Qty, eta: Eta)

  /** `dto.OrderLineInput`: pydantic has already checked that the quantity is positive. */
  datatype OrderLineInput = OrderLineInput(sku: string, orderId: string, qty: Qty)

  /** `add_batch(dto, uow)`: a batch built from the DTO's reference, sku,
      eta and quantity is appended to the product of its sku, created when
      there is none; the product is added to the repository and the work
      committed. */
  method AddBatch(dto: BatchInput, uow: FakeUnitOfWork)
    requires uow.Valid()
    modifies uow, uow.products, uow.products.products
    ensures uow.Valid() && uow.committed
    ensures uow.products.products >= old(uow.products.products)
    ensures forall p :: p in uow.products.products ==> p in old(uow.products.products) || fresh(p)
    ensures forall p :: p in uow.products.products ==> forall b :: b in p.batches ==> b in old(BatchesOf(uow.products.products)) || fresh(b)
    ensures exists p :: p in uow.products.products && p.sku == dto.sku
    ensures forall p :: p in uow.products.products && p.sku == dto.sku ==>
      && |p.batches| > 0
      && fresh(p.batches[|p.batches| - 1])
      && p.batches[|p.batches| - 1].id == dto.reference
      && p.batches[|p.batches| - 1].sku == dto.sku
      && p.batches[|p.batches| - 1].eta == dto.eta
      && p.batches[|p.batches| - 1].purchasedQuantity == dto.purchasedQuantity
      && p.batches[|p.batches| - 1].allocations == {}
      && (p in old(uow.products.products) ==>
            p.batches[..|p.batches| - 1] == old(p.batches) && p.events == old(p.events) && p.versionNumber == old(p.versionNumber))
      && (p !in old(uow.products.products) ==> fresh(p) && |p.batches| == 1 && p.events == [] && p.versionNumber == 0)
    ensures forall p :: p in old(uow.products.products) && p.sku != dto.sku ==> unchanged(p)
    ensures old(EventsOnly(uow.products.products, {})) ==> EventsOnly(uow.products.products, {})
  {
    var batch := new Batch(dto.reference, dto.sku, dto.eta, dto.purchasedQuantity);
    var _ := uow.Enter();
    var found := uow.products.Get(dto.sku);
    Handlers.AddToFound(uow, found, batch);
    uow.Exit();
  }

  /** `allocate(dto, uow)`: an unknown sku raises `InvalidSkuException`
      before anything changes and without a commit; otherwise the product of
      the sku (`target`) allocates the line, the work is committed and
      `Product.allocate`'s result is returned. */
  method Allocate(dto: OrderLineInput, uow: FakeUnitOfWork)
    returns (r: Result<Option<string>>, ghost target: Option<Product>, ghost chosen: Option<Batch>)
    requires uow.Valid()
    modifies uow, uow.products, uow.products.products, BatchesOf(uow.products.products)
    ensures uow.Valid()
    ensures uow.products.products == old(uow.products.products)
    ensures forall p :: p in uow.products.products ==> p.batches == old(p.batches)
    ensures target.Some? <==> exists p :: p in uow.products.products && p.sku == dto.sku
    ensures target.None? ==> r == Err(InvalidSku(Handlers.InvalidSkuMessage(dto.sku)))
    ensures target.None? ==>
      uow.products.seen == old(uow.products.seen) && unchanged(uow) && unchanged(uow.products.products)
    ensures target.Some? ==> var p := target.value; p in uow.products.products && p.sku == dto.sku
    ensures target.Some? ==> uow.committed
    ensures target.Some? ==> var p := target.value;
      r == Ok(old(p.PreferredRef(OrderLine(dto.sku, dto.orderId, dto.qty))))
    ensures target.Some? ==> var p := target.value;
      p.events == old(p.events) + (if r.value.None? then [OutOfStock(dto.sku)] else [])
    ensures target.Some? ==> chosen == old(target.value.PreferredBatch(OrderLine(dto.sku, dto.orderId, dto.qty)))
    ensures target.None? ==> chosen.None?
    ensures chosen.Some? ==>
      r == Ok(Some(chosen.value.id)) && chosen.value.allocations == old(chosen.value.allocations) + {OrderLine(dto.sku, dto.orderId, dto.qty)}
    ensures forall b :: b in BatchesOf(uow.products.products) && Some(b) != chosen ==> b.allocations == old(b.allocations)
  {
    r, target, chosen := Handlers.AllocateLine(OrderLine(dto.sku, dto.orderId, dto.qty), uow);
  }
}
