/**
 * The event handlers of the service layer
 * (src/allocation/domain/service/handlers.py). Each opens the unit of work
 * (`async with uow`), changes the products it finds in the repository and
 * commits; leaving the scope rolls back, which the in-memory unit of work
 * ignores. The mail transport behind the out-of-stock notification is
 * modelled as an outbox that records what was sent.
 */
module Handlers {
  import opened Common
  import opened Allocation
  import opened Events
  import opened Aggregate
  import opened ProductRepository
  import opened UnitOfWork

  /** The message of `InvalidSkuException`. */
  function InvalidSkuMessage(sku: string): string {
    "Invalid sku " + sku
  }

  /** The message of `InvalidBatchReferenceException`. */
  function InvalidBatchReferenceMessage(ref: string): string {
    "Invalid Batch reference " + ref
  }

  /** The mails handed to `email.send_mail`: (recipient, body). */
  class Outbox {
    var sent: seq<(string, string)>

    constructor ()
      ensures sent == []
    {
      sent := [];
    }

    method Send(to: string, body: string)
      modifies this
      ensures sent == old(sent) + [(to, body)]
    {
      sent := sent + [(to, body)];
    }
  }

  /** `add_batch`: the new batch is appended to the product of its sku,
      which is created when the repository holds none; then the product is
      added to the repository and the work committed. */
  method AddBatch(e: Event, uow: FakeUnitOfWork)
    requires e.BatchCreated? && uow.Valid()
    modifies uow, uow.products, uow.products.products
    ensures uow.Valid() && uow.committed
    ensures uow.products.products >= old(uow.products.products)
    ensures forall p :: p in uow.products.products ==> p in old(uow.products.products) || fresh(p)
    ensures forall p :: p in uow.products.products ==> forall b :: b in p.batches ==> b in old(BatchesOf(uow.products.products)) || fresh(b)
    ensures exists p :: p in uow.products.products && p.sku == e.sku
    ensures forall p :: p in uow.products.products && p.sku == e.sku ==>
      && |p.batches| > 0
      && fresh(p.batches[|p.batches| - 1])
      && p.batches[|p.batches| - 1].id == e.ref
      && p.batches[|p.batches| - 1].sku == e.sku
      && p.batches[|p.batches| - 1].eta == e.eta
      && p.batches[|p.batches| - 1].purchasedQuantity == e.qty
      && p.batches[|p.batches| - 1].allocations == {}
      && (p in old(uow.products.products) ==>
            p.batches[..|p.batches| - 1] == old(p.batches) && p.events == old(p.events) && p.versionNumber == old(p.versionNumber))
      && (p !in old(uow.products.products) ==> fresh(p) && |p.batches| == 1 && p.events == [] && p.versionNumber == 0)
    ensures forall p :: p in old(uow.products.products) && p.sku != e.sku ==> unchanged(p)
    ensures old(EventsOnly(uow.products.products, {})) ==> EventsOnly(uow.products.products, {})
  {
    var batch := new Batch(e.ref, e.sku, e.eta, e.qty);
    var _ := uow.Enter();
    var found := uow.products.Get(e.sku);
    AddToFound(uow, found, batch);
    uow.Exit();
  }

  /** The `async with uow` block of `add_batch` once the lookup for the
      batch's sku returned `found`: the batch is appended to the found
      product, or to a new product of that sku; the product is added to the
      repository and the work committed. Every other product is untouched. */
  method AddToFound(uow: FakeUnitOfWork, found: Option<Product>, batch: Batch)
    requires uow.Valid()
    requires found.None? <==> forall p :: p in uow.products.products ==> p.sku != batch.sku
    requires found.Some? ==> found.value in uow.products.products && found.value.sku == batch.sku
    modifies uow, uow.products, uow.products.products
    ensures uow.Valid() && uow.committed
    ensures uow.products.products >= old(uow.products.products)
    ensures forall p :: p in uow.products.products ==> p in old(uow.products.products) || fresh(p)
    ensures forall p :: p in uow.products.products ==> forall b :: b in p.batches ==> b in old(BatchesOf(uow.products.products)) || b == batch
    ensures exists p :: p in uow.products.products && p.sku == batch.sku
    ensures forall p :: p in uow.products.products && p.sku == batch.sku ==>
      && |p.batches| > 0 && p.batches[|p.batches| - 1] == batch
      && (p in old(uow.products.products) ==>
            p.batches[..|p.batches| - 1] == old(p.batches) && p.events == old(p.events) && p.versionNumber == old(p.versionNumber))
      && (p !in old(uow.products.products) ==> fresh(p) && |p.batches| == 1 && p.events == [] && p.versionNumber == 0)
    ensures forall p :: p in old(uow.products.products) && p.sku != batch.sku ==> unchanged(p)
    ensures old(EventsOnly(uow.products.products, {})) ==> EventsOnly(uow.products.products, {})
  {
    var product: Product;
    if found.Some? {
      product := found.value;
    } else {
      product := new Product(batch.sku, []);
    }
    product.AddBatch(batch);
    uow.products.Add(product);
    uow.Commit();
  }

  /** The `AllocationRequired` events that re-submit released lines lead
      `allocate` back to exactly those lines: each event's `OrderLine(sku,
      order_id, qty)` is the released line, in order, and different
      releases give different events. */
  lemma ReallocationsRoundTrip(lines: seq<OrderLine>, others: seq<OrderLine>)
    ensures |Reallocations(lines)| == |lines|
    ensures forall k :: 0 <= k < |lines| ==>
      var e := Reallocations(lines)[k];
      e.AllocationRequired? && e.qty > 0 && OrderLine(e.sku, e.orderId, e.qty) == lines[k]
    ensures Reallocations(lines) == Reallocations(others) <==> lines == others
  {
  }

  /** `allocate`: an order line of a non-positive quantity fails
      validation before the unit of work is entered; otherwise the line is
      allocated as `AllocateLine` states. */
  method Allocate(e: Event, uow: FakeUnitOfWork)
    returns (r: Result<Option<string>>, ghost target: Option<Product>, ghost chosen: Option<Batch>)
    requires e.AllocationRequired? && uow.Valid()
    modifies uow, uow.products, uow.products.products, BatchesOf(uow.products.products)
    ensures uow.Valid()
    ensures uow.products.products == old(uow.products.products)
    ensures forall p :: p in uow.products.products ==> p.batches == old(p.batches)
    ensures target.Some? <==> e.qty > 0 && exists p :: p in uow.products.products && p.sku == e.sku
    ensures target.None? ==> uow.products.seen == old(uow.products.seen) && unchanged(uow) && unchanged(uow.products.products)
    ensures target.None? && e.qty <= 0 ==> r == Err(ValidationError("qty"))
    ensures target.None? && e.qty > 0 ==> r == Err(InvalidSku(InvalidSkuMessage(e.sku)))
    ensures target.Some? ==> var p := target.value; p in uow.products.products && p.sku == e.sku
    ensures target.Some? ==> uow.committed
    ensures target.Some? ==> var p := target.value; r == Ok(old(p.PreferredRef(OrderLine(e.sku, e.orderId, e.qty))))
    ensures target.Some? ==> var p := target.value;
      p.versionNumber == old(p.versionNumber) + (if r.value.Some? then 1 else 0)
    ensures target.Some? ==> var p := target.value;
      p.events == old(p.events) + (if r.value.None? then [OutOfStock(e.sku)] else [])
    ensures target.Some? ==> chosen == old(target.value.PreferredBatch(OrderLine(e.sku, e.orderId, e.qty)))
    ensures target.None? ==> chosen.None?
    ensures chosen.Some? ==>
      r == Ok(Some(chosen.value.id)) && chosen.value.allocations == old(chosen.value.allocations) + {OrderLine(e.sku, e.orderId, e.qty)}
    ensures forall b :: b in BatchesOf(uow.products.products) && Some(b) != chosen ==> b.allocations == old(b.allocations)
    ensures forall b :: b in BatchesOf(uow.products.products) ==> b.purchasedQuantity == old(b.purchasedQuantity)
    ensures forall q :: q in uow.products.products && Some(q) != target ==> q.events == old(q.events) && q.versionNumber == old(q.versionNumber)
    ensures old(EventsOnly(uow.products.products, {})) ==> EventsOnly(uow.products.products, {OutOfStockKind})
  {
    if e.qty <= 0 {
      return Err(ValidationError("qty")), None, None;
    }
    r, target, chosen := AllocateLine(OrderLine(e.sku, e.orderId, e.qty), uow);
  }

  /** The `async with uow` block of `allocate`: an unknown sku raises
      `InvalidSkuException` before anything changes; otherwise the product
      of the sku (`target`) allocates the line, the work is committed even
      when no batch could take it, and `Product.allocate`'s result is
      returned. */
  method AllocateLine(line: OrderLine, uow: FakeUnitOfWork)
    returns (r: Result<Option<string>>, ghost target: Option<Product>, ghost chosen: Option<Batch>)
    requires uow.Valid()
    modifies uow, uow.products, uow.products.products, BatchesOf(uow.products.products)
    ensures uow.Valid()
    ensures uow.products.products == old(uow.products.products)
    ensures forall p :: p in uow.products.products ==> p.batches == old(p.batches)
    ensures target.Some? <==> exists p :: p in uow.products.products && p.sku == line.sku
    ensures target.None? ==> uow.products.seen == old(uow.products.seen) && unchanged(uow) && unchanged(uow.products.products)
    ensures target.None? ==> r == Err(InvalidSku(InvalidSkuMessage(line.sku)))
    ensures target.Some? ==> var p := target.value; p in uow.products.products && p.sku == line.sku
    ensures target.Some? ==> uow.committed
    ensures target.Some? ==> var p := target.value; r == Ok(old(p.PreferredRef(line)))
    ensures target.Some? ==> var p := target.value;
      p.versionNumber == old(p.versionNumber) + (if r.value.Some? then 1 else 0)
    ensures target.Some? ==> var p := target.value;
      p.events == old(p.events) + (if r.value.None? then [OutOfStock(line.sku)] else [])
    ensures target.Some? ==> chosen == old(target.value.PreferredBatch(line))
    ensures target.None? ==> chosen.None?
    ensures chosen.Some? ==> r == Ok(Some(chosen.value.id)) && chosen.value.allocations == old(chosen.value.allocations) + {line}
    ensures forall b :: b in BatchesOf(uow.products.products) && Some(b) != chosen ==> b.allocations == old(b.allocations)
    ensures forall b :: b in BatchesOf(uow.products.products) ==> b.purchasedQuantity == old(b.purchasedQuantity)
    ensures forall q :: q in uow.products.products && Some(q) != target ==> q.events == old(q.events) && q.versionNumber == old(q.versionNumber)
    ensures old(EventsOnly(uow.products.products, {})) ==> EventsOnly(uow.products.products, {OutOfStockKind})
  {
    var _ := uow.Enter();
    var found := uow.products.Get(line.sku);
    assert found.Some? ==>
      found.value.PreferredBatch(line) == old(found.value.PreferredBatch(line)) && found.value.PreferredRef(line) == old(found.value.PreferredRef(line));
    r, target, chosen := AllocateFound(uow, found, line);
    uow.Exit();
  }

  /** `allocate` once the repository lookup for the line's sku returned
      `found`: `InvalidSkuException` when it found nothing, otherwise the
      allocation by the found product and the commit. */
  method AllocateFound(uow: FakeUnitOfWork, found: Option<Product>, line: OrderLine)
    returns (r: Result<Option<string>>, ghost target: Option<Product>, ghost chosen: Option<Batch>)
    requires uow.Valid()
    requires found.None? <==> forall p :: p in uow.products.products ==> p.sku != line.sku
    requires found.Some? ==> found.value in uow.products.products && found.value.sku == line.sku
    modifies uow, uow.products.products, BatchesOf(uow.products.products)
    ensures uow.Valid()
    ensures forall p :: p in uow.products.products ==> p.batches == old(p.batches)
    ensures target == found
    ensures target.None? ==> unchanged(uow) && unchanged(uow.products.products)
    ensures target.None? ==> r == Err(InvalidSku(InvalidSkuMessage(line.sku)))
    ensures target.Some? ==> uow.committed
    ensures target.Some? ==> var p := target.value; r == Ok(old(p.PreferredRef(line)))
    ensures target.Some? ==> var p := target.value;
      p.versionNumber == old(p.versionNumber) + (if r.value.Some? then 1 else 0)
    ensures target.Some? ==> var p := target.value;
      p.events == old(p.events) + (if r.value.None? then [OutOfStock(line.sku)] else [])
    ensures target.Some? ==> chosen == old(target.value.PreferredBatch(line))
    ensures target.None? ==> chosen.None?
    ensures chosen.Some? ==> r == Ok(Some(chosen.value.id)) && chosen.value.allocations == old(chosen.value.allocations) + {line}
    ensures forall b :: b in BatchesOf(uow.products.products) && Some(b) != chosen ==> b.allocations == old(b.allocations)
    ensures forall b :: b in BatchesOf(uow.products.products) ==> b.purchasedQuantity == old(b.purchasedQuantity)
    ensures forall q :: q in uow.products.products && Some(q) != target ==> q.events == old(q.events) && q.versionNumber == old(q.versionNumber)
    ensures old(EventsOnly(uow.products.products, {})) ==> EventsOnly(uow.products.products, {OutOfStockKind})
  {
    target, chosen := found, None;
    if found.None? {
      r := Err(InvalidSku(InvalidSkuMessage(line.sku)));
    } else {
      var product := found.value;
      assert forall b :: b in product.batches ==> b in BatchesOf(uow.products.products);
      var ref;
      ref, chosen := AllocateStored(uow, product, line);
      r := Ok(ref);
    }
  }

  /** The body of the `async with` block of `allocate` once the product of
      the line's sku is found: it allocates the line and the work is committed. */
  method AllocateStored(uow: FakeUnitOfWork, product: Product, line: OrderLine)
    returns (ref: Option<string>, ghost chosen: Option<Batch>)
    requires uow.Valid() && product in uow.products.products && product.sku == line.sku
    modifies uow, product, product.batches
    ensures uow.Valid() && uow.committed
    ensures product.batches == old(product.batches)
    ensures chosen == old(product.PreferredBatch(line)) && ref == old(product.PreferredRef(line))
    ensures chosen.Some? ==> ref == Some(chosen.value.id) && chosen.value.allocations == old(chosen.value.allocations) + {line}
    ensures forall b :: b in BatchesOf(uow.products.products) && Some(b) != chosen ==> b.allocations == old(b.allocations)
    ensures forall b :: b in BatchesOf(uow.products.products) ==> b.purchasedQuantity == old(b.purchasedQuantity)
    ensures product.versionNumber == old(product.versionNumber) + (if ref.Some? then 1 else 0)
    ensures ref.None? ==> product.events == old(product.events) + [OutOfStock(line.sku)]
    ensures ref.Some? ==> product.events == old(product.events)
    ensures forall q :: q in uow.products.products && q != product ==> q.events == old(q.events) && q.versionNumber == old(q.versionNumber)
    ensures old(product.Consistent()) ==> product.Consistent()
    ensures old(EventsOnly(uow.products.products, {})) ==> EventsOnly(uow.products.products, {OutOfStockKind})
  {
    chosen := product.PreferredBatch(line);
    ghost var pick;
    ref, pick := product.Allocate(line);
    uow.Commit();
  }

  /** Batch `b`, whose allocations were `before`, now holds `qty` units and
      has deallocated exactly the distinct lines `released`: no line joins
      it, a line stays exactly when it was not released, the last release
      was needed to cover the new quantity, nothing is released when the
      new quantity covers every line, and a non-negative quantity leaves no
      shortfall. */
  ghost predicate Resized(b: Batch, before: set<OrderLine>, qty: int, released: seq<OrderLine>)
    reads b
  {
    && b.purchasedQuantity == qty
    && (forall l :: l in released ==> l in before && l !in b.allocations)
    && (forall i, j :: 0 <= i < j < |released| ==> released[i] != released[j])
    && b.allocations <= before
    && (forall l :: l in before ==> (l in b.allocations <==> l !in released))
    && (released != [] ==> b.Free() - released[|released| - 1].qty < 0)
    && (qty >= SumQty(before) ==> released == [])
    && (qty >= 0 ==> b.Free() >= 0)
  }

  /** A new quantity that covers every allocated line keeps them all, and
      the batch then has the new quantity less those lines available: a
      batch of 100 units with no allocations resized to 50 has 50 units
      available. */
  lemma ResizedKeepsCoveredLines(b: Batch, before: set<OrderLine>, qty: int, released: seq<OrderLine>)
    requires Resized(b, before, qty, released) && qty >= SumQty(before)
    ensures released == [] && b.allocations == before
    ensures b.Free() == qty - SumQty(before)
    ensures before == {} ==> b.Free() == qty
  {
    assert forall l :: l in before ==> l in b.allocations;
    assert b.allocations == before;
  }

  /** `change_batch_quantity`: a batch reference that no stored product
      holds raises `InvalidBatchReferenceException` before anything
      changes; otherwise the product holding it (`target`) changes the
      quantity of its first batch with that reference (`changed`),
      deallocating and re-submitting as `AllocationRequired` events the
      lines (`released`) it can no longer cover, and the work is committed. */
  method ChangeBatchQuantity(e: Event, uow: FakeUnitOfWork)
    returns (r: Result<()>, ghost target: Option<Product>, ghost released: seq<OrderLine>, ghost changed: Option<Batch>)
    requires e.BatchQuantityChanged? && uow.Valid()
    modifies uow, uow.products, uow.products.products, BatchesOf(uow.products.products)
    ensures uow.Valid()
    ensures uow.products.products == old(uow.products.products)
    ensures forall p :: p in uow.products.products ==> p.batches == old(p.batches)
    ensures target.Some? <==> r.Ok?
    ensures changed.Some? <==> r.Ok?
    ensures r.Err? <==> forall p :: p in uow.products.products ==> !old(p.HasBatch(e.ref))
    ensures r.Err? ==> r.error == InvalidBatchReference(InvalidBatchReferenceMessage(e.ref)) && released == []
    ensures r.Err? ==> uow.products.seen == old(uow.products.seen) && unchanged(uow) && unchanged(uow.products.products)
    ensures target.Some? ==> var p := target.value; p in uow.products.products && old(p.HasBatch(e.ref)) && p.HasBatch(e.ref)
    ensures target.Some? ==> uow.committed
    ensures target.Some? ==> var p := target.value; changed == Some(p.batches[p.BatchIndex(e.ref)])
    ensures changed.Some? ==> Resized(changed.value, old(changed.value.allocations), e.qty, released)
    ensures forall b :: b in BatchesOf(uow.products.products) && Some(b) != changed ==>
      b.allocations == old(b.allocations) && b.purchasedQuantity == old(b.purchasedQuantity)
    ensures target.Some? ==> var p := target.value; p.events == old(p.events) + Reallocations(released)
    ensures forall q :: q in uow.products.products ==> q.versionNumber == old(q.versionNumber)
    ensures forall q :: q in uow.products.products && Some(q) != target ==> q.events == old(q.events)
    ensures old(EventsOnly(uow.products.products, {})) ==> EventsOnly(uow.products.products, {AllocationRequiredKind})
  {
    var _ := uow.Enter();
    r, target, released, changed := ChangeFound(uow, e.ref, e.qty);
    uow.Exit();
  }

  /** The `async with uow` block of `change_batch_quantity`: the lookup of
      the product holding the batch reference, then
      `InvalidBatchReferenceException` when none does, otherwise the
      quantity change by that product and the commit. */
  method ChangeFound(uow: FakeUnitOfWork, ref: string, qty: int)
    returns (r: Result<()>, ghost target: Option<Product>, ghost released: seq<OrderLine>, ghost changed: Option<Batch>)
    requires uow.Valid()
    modifies uow.products, uow, uow.products.products, BatchesOf(uow.products.products)
    ensures uow.Valid()
    ensures uow.products.products == old(uow.products.products)
    ensures forall p :: p in uow.products.products ==> p.batches == old(p.batches)
    ensures target.Some? <==> r.Ok?
    ensures changed.Some? <==> r.Ok?
    ensures r.Err? <==> forall p :: p in uow.products.products ==> !old(p.HasBatch(ref))
    ensures r.Err? ==> r.error == InvalidBatchReference(InvalidBatchReferenceMessage(ref)) && released == []
    ensures r.Err? ==> uow.products.seen == old(uow.products.seen) && unchanged(uow) && unchanged(uow.products.products)
    ensures target.Some? ==> var p := target.value; p in uow.products.products && old(p.HasBatch(ref)) && p.HasBatch(ref)
    ensures target.Some? ==> uow.committed
    ensures target.Some? ==> var p := target.value; changed == Some(p.batches[p.BatchIndex(ref)])
    ensures changed.Some? ==> Resized(changed.value, old(changed.value.allocations), qty, released)
    ensures forall b :: b in BatchesOf(uow.products.products) && Some(b) != changed ==>
      b.allocations == old(b.allocations) && b.purchasedQuantity == old(b.purchasedQuantity)
    ensures target.Some? ==> var p := target.value; p.events == old(p.events) + Reallocations(released)
    ensures forall q :: q in uow.products.products ==> q.versionNumber == old(q.versionNumber)
    ensures forall q :: q in uow.products.products && Some(q) != target ==> q.events == old(q.events)
    ensures old(EventsOnly(uow.products.products, {})) ==> EventsOnly(uow.products.products, {AllocationRequiredKind})
  {
    target, released, changed := None, [], None;
    var found := uow.products.GetByBatchRef(ref);
    if found.None? {
      r := Err(InvalidBatchReference(InvalidBatchReferenceMessage(ref)));
    } else {
      var product := found.value;
      target := found;
      assert forall b :: b in product.batches ==> b in old(BatchesOf(uow.products.products));
      ghost var batch;
      released, batch := ChangeQuantityStored(uow, product, ref, qty);
      changed := Some(batch);
      r := Ok(());
    }
  }

  /** The body of the `async with` block of `change_batch_quantity` once the
      product holding the batch is found: the quantity of its first batch
      with that reference (`batch`) changes, and the work is committed. */
  method ChangeQuantityStored(uow: FakeUnitOfWork, product: Product, ref: string, qty: int)
    returns (released: seq<OrderLine>, ghost batch: Batch)
    requires uow.Valid() && product in uow.products.products && product.HasBatch(ref)
    modifies uow, product, product.batches
    ensures uow.Valid() && uow.committed
    ensures product.batches == old(product.batches) && product.versionNumber == old(product.versionNumber)
    ensures product.HasBatch(ref) && batch == product.batches[product.BatchIndex(ref)]
    ensures Resized(batch, old(batch.allocations), qty, released)
    ensures forall b :: b in BatchesOf(uow.products.products) && b != batch ==>
      b.allocations == old(b.allocations) && b.purchasedQuantity == old(b.purchasedQuantity)
    ensures product.events == old(product.events) + Reallocations(released)
    ensures forall q :: q in uow.products.products && q != product ==> q.events == old(q.events) && q.versionNumber == old(q.versionNumber)
    ensures old(product.Consistent()) ==> product.Consistent()
    ensures old(EventsOnly(uow.products.products, {})) ==> EventsOnly(uow.products.products, {AllocationRequiredKind})
  {
    batch := product.batches[product.BatchIndex(ref)];
    released := product.ChangeBatchQuantity(ref, qty);
    uow.Commit();
  }

  /** `send_out_of_stock_notification`: mails the stock team; the unit of
      work is not used. */
  method SendOutOfStockNotification(e: Event, outbox: Outbox)
    requires e.OutOfStock?
    modifies outbox
    ensures outbox.sent == old(outbox.sent) + [("stock@made.com", "Out of stock for " + e.sku)]
  {
    outbox.Send("stock@made.com", "Out of stock for " + e.sku);
  }
}
