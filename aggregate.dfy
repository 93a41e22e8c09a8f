/**
 * The aggregate domain model (src/allocation/domain/model/aggregate.py):
 * a `Batch` entity that owns a set of order lines, and the `Product`
 * aggregate that owns the batches of one sku and allocates lines to them.
 * Both are mutable objects; their contracts are stated against the
 * allocation rule of module `Allocation`.
 */
module Aggregate {
  import opened Common
  import opened BaseTypes
  import opened Allocation
  import opened Events

  const BatchClass := PyClass(["BaseModel", "DomainBaseModel", "Entity", "Batch"])
  const ProductClass := PyClass(["BaseModel", "DomainBaseModel", "Aggregate", "Product"])

  /** The tuple that `OrderLine.__hash__` hashes. `unsafe_hash=True` makes
      the dataclass define its own `__hash__` over its fields (sku, order id,
      qty), which takes the place of the inherited `ValueObject.__hash__`,
      so the type is not part of the tuple. */
  function OrderLineHashKey(line: OrderLine): seq<HashItem> {
    [StrItem(line.sku), StrItem(line.orderId), IntItem(line.qty)]
  }

  /** Every field of an order line reaches its hash: two lines share a
      hashed tuple exactly when they are equal. */
  lemma {:induction false} OrderLineHashCoversAllFields(a: OrderLine, b: OrderLine)
    ensures OrderLineHashKey(a) == OrderLineHashKey(b) <==> a == b
  {
    var fa, fb := OrderLineHashKey(a), OrderLineHashKey(b);
    if fa == fb {
      assert fa[0] == fb[0] && fa[1] == fb[1] && fa[2] == fb[2];
    }
  }

  class Batch {
    const id: string
    const sku: string
    const eta: Eta
    var purchasedQuantity: int
    var allocations: set<OrderLine>

    constructor (id: string, sku: string, eta: Eta, purchasedQuantity: int)
      ensures this.id == id && this.sku == sku && this.eta == eta
      ensures this.purchasedQuantity == purchasedQuantity && allocations == {}
    {
      this.id := id;
      this.sku := sku;
      this.eta := eta;
      this.purchasedQuantity := purchasedQuantity;
      allocations := {};
    }

    /** What `__eq__` and `__hash__` read. */
    function Key(): Identity {
      Identity(BatchClass, id)
    }

    /** `__eq__` between two batches. */
    predicate Equals(other: Batch) {
      EntityEq(Key(), other.Key())
    }

    /** `__gt__`. */
    predicate Later(other: Batch) {
      EtaGt(eta, other.eta)
    }

    ghost function Free(): int
      reads this
    {
      Available(purchasedQuantity, allocations)
    }

    ghost predicate Fits(line: OrderLine)
      reads this
    {
      CanTake(sku, purchasedQuantity, allocations, line)
    }

    /** Every allocated line is of this batch's sku. */
    ghost predicate LinesMatchSku()
      reads this
    {
      forall l :: l in allocations ==> l.sku == sku
    }

    /** `allocated_quantity`. */
    method AllocatedQuantity() returns (q: int)
      ensures q == SumQty(allocations)
      ensures q == 0 <==> allocations == {}
    {
      q := SumQuantities(allocations);
    }

    /** `available_quantity`. */
    method AvailableQuantity() returns (q: int)
      ensures q == purchasedQuantity - SumQty(allocations)
    {
      var taken := AllocatedQuantity();
      q := purchasedQuantity - taken;
    }

    /** `can_allocate`. */
    method CanAllocate(line: OrderLine) returns (ok: bool)
      ensures ok <==> sku == line.sku && purchasedQuantity - SumQty(allocations) >= line.qty
      ensures ok == Fits(line)
    {
      var free := AvailableQuantity();
      ok := sku == line.sku && free >= line.qty;
    }

    /** `allocate`: adds the line when it fits, otherwise leaves the batch alone. */
    method Allocate(line: OrderLine)
      modifies this
      ensures purchasedQuantity == old(purchasedQuantity)
      ensures allocations == AllocateLine(sku, old(purchasedQuantity), old(allocations), line)
      ensures old(Fits(line)) ==> line in allocations
      ensures old(Free()) >= 0 ==> Free() >= 0
      ensures old(Fits(line)) && line !in old(allocations) ==> Free() == old(Free()) - line.qty
      ensures !old(Fits(line)) || line in old(allocations) ==> allocations == old(allocations)
    {
      if Free() >= 0 {
        AllocateKeepsStockNonNegative(sku, purchasedQuantity, allocations, line);
      }
      if Fits(line) && line !in allocations {
        AllocateTakesQty(sku, purchasedQuantity, allocations, line);
      }
      var ok := CanAllocate(line);
      if ok {
        allocations := allocations + {line};
      }
    }

    /** `deallocate`: removes the line if it is allocated, otherwise a no-op. */
    method Deallocate(line: OrderLine)
      modifies this
      ensures purchasedQuantity == old(purchasedQuantity)
      ensures allocations == old(allocations) - {line}
      ensures line in old(allocations) ==> Free() == old(Free()) + line.qty
      ensures line !in old(allocations) ==> allocations == old(allocations)
    {
      if line in allocations {
        DeallocateReturnsQty(purchasedQuantity, allocations, line);
        allocations := allocations - {line};
      }
    }

    /** The lines the batch can no longer cover after its purchased quantity
        shrank: while the available quantity is negative, any one allocated
        line is deallocated. Returns the lines in the order they were released. */
    method ReleaseExcess() returns (released: seq<OrderLine>)
      modifies this
      ensures purchasedQuantity == old(purchasedQuantity)
      ensures forall l :: l in released ==> l in old(allocations)
      ensures forall i, j :: 0 <= i < j < |released| ==> released[i] != released[j]
      ensures allocations <= old(allocations)
      ensures forall l :: l in old(allocations) ==> (l in allocations <==> l !in released)
      ensures released != [] ==> Free() - released[|released| - 1].qty < 0
      ensures old(Free()) >= 0 ==> released == []
      ensures purchasedQuantity >= 0 ==> Free() >= 0
    {
      released := [];
      var free := AvailableQuantity();
      while free < 0 && allocations != {}
        invariant purchasedQuantity == old(purchasedQuantity)
        invariant free == Free()
        invariant forall l :: l in released ==> l in old(allocations)
        invariant forall i, j :: 0 <= i < j < |released| ==> released[i] != released[j]
        invariant allocations <= old(allocations)
        invariant forall l :: l in old(allocations) ==> (l in allocations <==> l !in released)
        invariant released != [] ==> free - released[|released| - 1].qty < 0
        invariant released == [] ==> allocations == old(allocations)
        invariant old(Free()) >= 0 ==> released == []
        decreases |allocations|
      {
        var line :| line in allocations;
        Deallocate(line);
        released := released + [line];
        free := AvailableQuantity();
      }
    }
  }

  /** Equal batches are the batches with equal ids, whatever their other
      fields hold, and equal batches hash alike. */
  lemma BatchEqualityIsById(hashClass: PyClass -> int, hashStr: string -> int, a: Batch, b: Batch)
    ensures a.Equals(b) <==> a.id == b.id
    ensures a.Equals(b) ==> EntityHash(hashClass, hashStr, a.Key()) == EntityHash(hashClass, hashStr, b.Key())
  {
    EntityEqByClassAndId(a.Key(), b.Key());
  }

  /** The etas of a batch list, position by position. */
  function Etas(bs: seq<Batch>): (r: seq<Eta>)
    ensures |r| == |bs| && forall k :: 0 <= k < |bs| ==> r[k] == bs[k].eta
  {
    seq(|bs|, k requires 0 <= k < |bs| => bs[k].eta)
  }

  /** Which batches of a list can take the line, position by position. */
  ghost function FitMask(bs: seq<Batch>, line: OrderLine): (r: seq<bool>)
    reads set k | 0 <= k < |bs| :: bs[k]
    ensures |r| == |bs|
  {
    if bs == [] then [] else FitMask(bs[..|bs| - 1], line) + [bs[|bs| - 1].Fits(line)]
  }

  /** `FitMask` marks exactly the batches that can take the line. */
  lemma {:induction false} FitMaskAt(bs: seq<Batch>, line: OrderLine)
    ensures forall k :: 0 <= k < |bs| ==> FitMask(bs, line)[k] == bs[k].Fits(line)
  {
    if bs != [] {
      FitMaskAt(bs[..|bs| - 1], line);
    }
  }

  /** The allocation rule over a product's batches: the chosen batch can take
      the line and precedes, in eta order, every other batch that can;
      nothing is chosen exactly when no batch can take the line. */
  lemma PreferredIsEarliestFit(bs: seq<Batch>, line: OrderLine)
    ensures var pick := PreferredIndex(Etas(bs), FitMask(bs, line));
      && (pick.None? <==> forall j :: 0 <= j < |bs| ==> !bs[j].Fits(line))
      && (pick.Some? ==>
            && pick.value < |bs|
            && bs[pick.value].Fits(line)
            && forall j :: 0 <= j < |bs| && bs[j].Fits(line) && j != pick.value ==>
                 Before(Etas(bs), pick.value, j))
  {
    FitMaskAt(bs, line);
    PreferredIndexIsEarliestFit(Etas(bs), FitMask(bs, line));
  }

  /** The position of the first batch of `bs` whose id is `ref`. */
  function IndexOfId(bs: seq<Batch>, ref: string): (k: nat)
    requires exists k :: 0 <= k < |bs| && bs[k].id == ref
    ensures k < |bs| && bs[k].id == ref
    ensures forall j :: 0 <= j < k ==> bs[j].id != ref
  {
    if bs[0].id == ref then 0
    else
      var k :| 0 <= k < |bs| && bs[k].id == ref;
      assert bs[1..][k - 1].id == ref;
      1 + IndexOfId(bs[1..], ref)
  }

  class Product {
    const sku: string
    var batches: seq<Batch>
    var versionNumber: int
    var events: seq<Event>

    /** `Product(sku=..., batches=...)`: the version counter starts at 0 and no event is pending. */
    constructor (sku: string, batches: seq<Batch>)
      ensures this.sku == sku && this.batches == batches
      ensures versionNumber == 0 && events == []
    {
      this.sku := sku;
      this.batches := batches;
      versionNumber := 0;
      events := [];
    }

    /** What `__hash__` reads. */
    function Key(): Identity {
      Identity(ProductClass, sku)
    }

    /** Every batch has this product's sku, and so has every line allocated to it. */
    ghost predicate Consistent()
      reads this, batches
    {
      forall k :: 0 <= k < |batches| ==> batches[k].sku == sku && batches[k].LinesMatchSku()
    }

    /** Some batch of this product has the given id. */
    predicate HasBatch(ref: string)
      reads this
    {
      exists k :: 0 <= k < |batches| && batches[k].id == ref
    }

    /** The position of the batch the allocation rule picks for `line`. */
    ghost function Preferred(line: OrderLine): (r: Option<nat>)
      reads this, batches
      ensures r.Some? ==> r.value < |batches|
    {
      PreferredIndexIsEarliestFit(Etas(batches), FitMask(batches, line));
      PreferredIndex(Etas(batches), FitMask(batches, line))
    }

    /** The id that `allocate(line)` returns in the current state. */
    ghost function PreferredRef(line: OrderLine): Option<string>
      reads this, batches
    {
      match Preferred(line)
      case Some(i) => Some(batches[i].id)
      case None => None
    }

    /** The batch that `allocate(line)` hands the line to in the current state. */
    ghost function PreferredBatch(line: OrderLine): (r: Option<Batch>)
      reads this, batches
      ensures r.Some? ==> r.value in batches && PreferredRef(line) == Some(r.value.id)
      ensures r.None? <==> PreferredRef(line).None?
    {
      match Preferred(line)
      case Some(i) => Some(batches[i])
      case None => None
    }

    /** `add_batch`. */
    method AddBatch(batch: Batch)
      modifies this
      ensures batches == old(batches) + [batch]
      ensures versionNumber == old(versionNumber) && events == old(events)
      ensures old(Consistent()) && batch.sku == sku && batch.LinesMatchSku() ==> Consistent()
    {
      batches := batches + [batch];
    }

    /** `_update_version`. */
    method UpdateVersion()
      modifies this
      ensures versionNumber == old(versionNumber) + 1
      ensures batches == old(batches) && events == old(events)
    {
      versionNumber := versionNumber + 1;
    }

    /** `next(b for b in sorted(self.batches) if b.can_allocate(line))`: the
        position of the first batch, in stable eta order, that can take the
        line; `None` where Python raises `StopIteration`. */
    method FindBatch(line: OrderLine) returns (pick: Option<nat>)
      ensures pick == Preferred(line)
    {
      ghost var fits := FitMask(batches, line);
      FitMaskAt(batches, line);
      var order := SortedByEta(Etas(batches));
      var k := 0;
      while k < |order|
        invariant 0 <= k <= |order|
        invariant forall m :: 0 <= m < k ==> !fits[order[m]]
      {
        var ok := batches[order[k]].CanAllocate(line);
        if ok {
          FirstFitAt(order, fits, k);
          return Some(order[k]);
        }
        k := k + 1;
      }
      FirstFitNone(order, fits);
      return None;
    }

    /** `allocate`. On success the chosen batch takes the line, the version
        goes up by one and its id is returned; when no batch fits, an
        `OutOfStock` event is recorded and `None` is returned. */
    method Allocate(line: OrderLine) returns (ref: Option<string>, ghost chosen: Option<nat>)
      modifies this, batches
      ensures batches == old(batches)
      ensures chosen == old(Preferred(line)) && ref == old(PreferredRef(line))
      ensures forall b :: b in batches ==> b.purchasedQuantity == old(b.purchasedQuantity)
      ensures forall b :: b in batches && old(b.LinesMatchSku()) ==> b.LinesMatchSku()
      ensures old(Consistent()) ==> Consistent()
      ensures chosen.Some? ==>
        && chosen.value < |batches|
        && ref == Some(batches[chosen.value].id)
        && batches[chosen.value].allocations == old(batches[chosen.value].allocations) + {line}
        && (line !in old(batches[chosen.value].allocations) ==>
              batches[chosen.value].Free() == old(batches[chosen.value].Free()) - line.qty)
        && (forall b :: b in batches && b != batches[chosen.value] ==> b.allocations == old(b.allocations))
        && versionNumber == old(versionNumber) + 1
        && events == old(events)
      ensures chosen.None? ==>
        && ref == None
        && (forall j :: 0 <= j < |batches| ==> !old(batches[j].Fits(line)))
        && (forall b :: b in batches ==> b.allocations == old(b.allocations))
        && versionNumber == old(versionNumber)
        && events == old(events) + [OutOfStock(line.sku)]
    {
      PreferredIsEarliestFit(batches, line);
      var pick := FindBatch(line);
      chosen := pick;
      if pick.Some? {
        var batch := batches[pick.value];
        batch.Allocate(line);
        UpdateVersion();
        ref := Some(batch.id);
      } else {
        events := events + [OutOfStock(line.sku)];
        ref := None;
      }
    }

    /** The position of the first batch with id `ref`. */
    function BatchIndex(ref: string): (k: nat)
      reads this
      requires HasBatch(ref)
      ensures k < |batches| && batches[k].id == ref
      ensures forall j :: 0 <= j < k ==> batches[j].id != ref
    {
      IndexOfId(batches, ref)
    }

    /** `change_batch_quantity(ref, qty)`: the batch `ref` now holds `qty`
        units; the lines it can no longer cover are deallocated and each is
        re-submitted as an `AllocationRequired` event. */
    method ChangeBatchQuantity(ref: string, qty: int) returns (released: seq<OrderLine>)
      requires HasBatch(ref)
      modifies this, batches
      ensures batches == old(batches) && versionNumber == old(versionNumber)
      ensures var b := batches[BatchIndex(ref)];
        && b.purchasedQuantity == qty
        && (forall l :: l in released ==> l in old(b.allocations))
        && (forall i, j :: 0 <= i < j < |released| ==> released[i] != released[j])
        && b.allocations <= old(b.allocations)
        && (forall l :: l in old(b.allocations) ==> (l in b.allocations <==> l !in released))
        && (released != [] ==> b.Free() - released[|released| - 1].qty < 0)
        && (qty >= SumQty(old(b.allocations)) ==> released == [])
        && (qty >= 0 ==> b.Free() >= 0)
      ensures events == old(events) + Reallocations(released)
      ensures forall c :: c in batches && old(c.LinesMatchSku()) ==> c.LinesMatchSku()
      ensures old(Consistent()) ==> Consistent()
      ensures forall c :: c in batches && c != batches[BatchIndex(ref)] ==>
        c.allocations == old(c.allocations) && c.purchasedQuantity == old(c.purchasedQuantity)
    {
      var batch := batches[BatchIndex(ref)];
      batch.purchasedQuantity := qty;
      released := batch.ReleaseExcess();
      events := events + Reallocations(released);
    }
  }

  /** Warehouse stock wins: when an undated batch can take the line,
      `Product.allocate` picks an undated batch. */
  lemma ProductPrefersWarehouseStock(p: Product, line: OrderLine, j: nat)
    requires j < |p.batches| && p.batches[j].Fits(line) && p.batches[j].eta.None?
    ensures p.Preferred(line).Some? && p.batches[p.Preferred(line).value].eta.None?
  {
    FitMaskAt(p.batches, line);
    WarehouseStockPreferred(Etas(p.batches), FitMask(p.batches, line), j);
  }
}
