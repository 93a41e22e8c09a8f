/**
 * The first iteration of the domain model (model.py): a `Batch` class that
 * compares by reference alone, and a module-level `allocate(line, batches)`
 * that picks a batch by the shared allocation rule or raises
 * `OutOfStockError`. Its order lines have the same three fields as the
 * aggregate's, so the `OrderLine` value of module `Allocation` serves both.
 */
module ListModel {
  import opened Common
  import opened Allocation

  class Batch {
    const reference: string
    const sku: string
    const eta: Eta
    const purchasedQuantity: int
    var allocations: set<OrderLine>

    /** `Batch(ref, sku, qty, eta)`. */
    constructor (ref: string, sku: string, qty: int, eta: Eta)
      ensures reference == ref && this.sku == sku && this.eta == eta
      ensures purchasedQuantity == qty && allocations == {}
    {
      reference := ref;
      this.sku := sku;
      this.eta := eta;
      purchasedQuantity := qty;
      allocations := {};
    }

    /** `__eq__` between two batches. */
    predicate Equals(other: Batch) {
      other.reference == reference
    }

    /** `__hash__`: the hash of the reference. */
    function Hash(hashStr: string -> int): int {
      hashStr(reference)
    }

    /** `__gt__`. */
    predicate Later(other: Batch) {
      EtaGt(eta, other.eta)
    }

    ghost function Free(): int
      reads this
    {
      Available(purchasedQuantity, allocations)
    }

    ghost predicate Fits(line: OrderLine)
      reads this
    {
      CanTake(sku, purchasedQuantity, allocations, line)
    }

    /** `allocated_quantity`. */
    method AllocatedQuantity() returns (q: int)
      ensures q == SumQty(allocations)
      ensures q == 0 <==> allocations == {}
    {
      q := SumQuantities(allocations);
    }

    /** `available_quantity`. */
    method AvailableQuantity() returns (q: int)
      ensures q == purchasedQuantity - SumQty(allocations)
    {
      var taken := AllocatedQuantity();
      q := purchasedQuantity - taken;
    }

    /** `can_allocate`. */
    method CanAllocate(line: OrderLine) returns (ok: bool)
      ensures ok <==> sku == line.sku && purchasedQuantity - SumQty(allocations) >= line.qty
    {
      var free := AvailableQuantity();
      ok := sku == line.sku && free >= line.qty;
    }

    /** `allocate`: adds the line when it fits, otherwise leaves the batch alone. */
    method Allocate(line: OrderLine)
      modifies this
      ensures allocations == AllocateLine(sku, purchasedQuantity, old(allocations), line)
      ensures old(Fits(line)) ==> line in allocations
      ensures old(Free()) >= 0 ==> Free() >= 0
      ensures old(Fits(line)) && line !in old(allocations) ==> Free() == old(Free()) - line.qty
      ensures !old(Fits(line)) || line in old(allocations) ==> allocations == old(allocations)
    {
      if Free() >= 0 {
        AllocateKeepsStockNonNegative(sku, purchasedQuantity, allocations, line);
      }
      if Fits(line) && line !in allocations {
        AllocateTakesQty(sku, purchasedQuantity, allocations, line);
      }
      var ok := CanAllocate(line);
      if ok {
        allocations := allocations + {line};
      }
    }

    /** `deallocate`: removes the line if it is allocated, otherwise a no-op. */
    method Deallocate(line: OrderLine)
      modifies this
      ensures allocations == old(allocations) - {line}
      ensures line in old(allocations) ==> Free() == old(Free()) + line.qty
      ensures line !in old(allocations) ==> allocations == old(allocations)
    {
      if line in allocations {
        DeallocateReturnsQty(purchasedQuantity, allocations, line);
        allocations := allocations - {line};
      }
    }
  }

  /** Batches are equal exactly when their references are, whatever their
      sku, eta, quantity and allocations; equal batches hash alike. */
  lemma BatchIdentityIsReference(hashStr: string -> int, a: Batch, b: Batch)
    ensures a.Equals(b) <==> b.Equals(a)
    ensures a.Equals(b) <==> a.reference == b.reference
    ensures a.Equals(b) ==> a.Hash(hashStr) == b.Hash(hashStr)
  {
  }

  function Etas(bs: seq<Batch>): (r: seq<Eta>)
    ensures |r| == |bs| && forall k :: 0 <= k < |bs| ==> r[k] == bs[k].eta
  {
    seq(|bs|, k requires 0 <= k < |bs| => bs[k].eta)
  }

  ghost function FitMask(bs: seq<Batch>, line: OrderLine): (r: seq<bool>)
    reads set k | 0 <= k < |bs| :: bs[k]
    ensures |r| == |bs|
  {
    if bs == [] then [] else FitMask(bs[..|bs| - 1], line) + [bs[|bs| - 1].Fits(line)]
  }

  /** `FitMask` marks exactly the batches that can take the line. */
  lemma {:induction false} FitMaskAt(bs: seq<Batch>, line: OrderLine)
    ensures forall k :: 0 <= k < |bs| ==> FitMask(bs, line)[k] == bs[k].Fits(line)
  {
    if bs != [] {
      FitMaskAt(bs[..|bs| - 1], line);
    }
  }


  /** The allocation rule over a list of batches: the chosen batch can take
      the line and precedes, in eta order, every other batch that can;
      nothing is chosen exactly when no batch can take the line. */
  lemma PreferredIsEarliestFit(bs: seq<Batch>, line: OrderLine)
    ensures var pick := PreferredIndex(Etas(bs), FitMask(bs, line));
      && (pick.None? <==> forall j :: 0 <= j < |bs| ==> !bs[j].Fits(line))
      && (pick.Some? ==>
            && pick.value < |bs|
            && bs[pick.value].Fits(line)
            && forall j :: 0 <= j < |bs| && bs[j].Fits(line) && j != pick.value ==>
                 Before(Etas(bs), pick.value, j))
  {
    FitMaskAt(bs, line);
    PreferredIndexIsEarliestFit(Etas(bs), FitMask(bs, line));
  }

  /** `next(b for b in sorted(batches) if b.can_allocate(line))`, with
      `None` where Python raises `StopIteration`. */
  method FindBatch(line: OrderLine, batches: seq<Batch>) returns (pick: Option<nat>)
    ensures pick == PreferredIndex(Etas(batches), FitMask(batches, line))
  {
    ghost var fits := FitMask(batches, line);
    FitMaskAt(batches, line);
    var order := SortedByEta(Etas(batches));
    var k := 0;
    while k < |order|
      invariant 0 <= k <= |order|
      invariant forall m :: 0 <= m < k ==> !fits[order[m]]
    {
      var ok := batches[order[k]].CanAllocate(line);
      assert ok == fits[order[k]];
      if ok {
        FirstFitAt(order, fits, k);
        return Some(order[k]);
      }
      k := k + 1;
    }
    FirstFitNone(order, fits);
    return None;
  }

  /** The message of the `OutOfStockError` that `allocate` raises. */
  function OutOfStockMessage(sku: string): string {
    "Out of stock for sku " + sku
  }

  /** `allocate(line, batches)`: the chosen batch takes the line and its
      reference is returned; when no batch fits, `OutOfStockError` is raised
      and no batch changes. */
  method Allocate(line: OrderLine, batches: seq<Batch>) returns (r: Result<string>, ghost chosen: Option<nat>)
    modifies set k | 0 <= k < |batches| :: batches[k]
    ensures chosen == old(PreferredIndex(Etas(batches), FitMask(batches, line)))
    ensures chosen.Some? ==>
      && chosen.value < |batches|
      && r == Ok(batches[chosen.value].reference)
      && batches[chosen.value].allocations == old(batches[chosen.value].allocations) + {line}
      && (line !in old(batches[chosen.value].allocations) ==>
            batches[chosen.value].Free() == old(batches[chosen.value].Free()) - line.qty)
      && forall b :: b in batches && b != batches[chosen.value] ==> b.allocations == old(b.allocations)
    ensures chosen.None? ==>
      && r == Err(OutOfStockError(OutOfStockMessage(line.sku)))
      && (forall j :: 0 <= j < |batches| ==> !old(batches[j].Fits(line)))
      && forall b :: b in batches ==> b.allocations == old(b.allocations)
  {
    PreferredIsEarliestFit(batches, line);
    var pick := FindBatch(line, batches);
    chosen := pick;
    if pick.Some? {
      var batch := batches[pick.value];
      batch.Allocate(line);
      r := Ok(batch.reference);
    } else {
      r := Err(OutOfStockError(OutOfStockMessage(line.sku)));
    }
  }
}
