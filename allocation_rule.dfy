/**
 * The allocation rule shared by both iterations of the domain model
 * (the aggregate form in src/allocation/domain/model/aggregate.py and the
 * list form in model.py): the order lines, the eta ordering of batches,
 * Python's stable `sorted` over that ordering, the "first batch that can
 * take the line" search, and the quantity arithmetic of a batch.
 *
 * Everything here is a value; the classes that own mutable batches are
 * proved against these definitions.
 */
module Allocation {
  import opened Common

  /** A calendar date; the core only ever compares dates. */
  type Date = int

  /** `Optional[date]`: `None` means the stock is already in the warehouse. */
  type Eta = Option<Date>

  /** A quantity that pydantic accepts for an order line (`Field(..., gt=0)`). */
  type Qty = q: int | q > 0 witness 1

  /** A customer's request for `qty` units of `sku`. A frozen value object:
      equality and hashing are structural over all three fields. */
  datatype OrderLine = OrderLine(sku: string, orderId: string, qty: Qty)

  // ---------------------------------------------------------------------
  // Eta ordering
  // ---------------------------------------------------------------------

  /** `Batch.__gt__`: a batch without an eta is never later than another;
      a dated batch is later than any undated one; two dated batches compare
      by date. */
  predicate EtaGt(a: Eta, b: Eta) {
    if a.None? then false
    else if b.None? then true
    else a.value > b.value
  }

  /** `__gt__` is a strict order in which two etas are incomparable exactly
      when they are equal, so sorting by it is well defined. */
  lemma EtaGtRules(a: Eta, b: Eta, c: Eta)
    ensures !EtaGt(a, a)
    ensures EtaGt(a, b) ==> !EtaGt(b, a)
    ensures EtaGt(a, b) && EtaGt(b, c) ==> EtaGt(a, c)
    ensures !EtaGt(a, b) && !EtaGt(b, a) <==> a == b
  {
  }

  /** Only `__gt__` is defined, so Python evaluates `x < y` as the reflected
      `y > x`. Position `i` of a batch list precedes position `j` in the
      stable sort when its eta is strictly earlier, or when neither eta is
      earlier and `i` was listed first. */
  predicate Before(etas: seq<Eta>, i: nat, j: nat)
    requires i < |etas| && j < |etas|
  {
    EtaGt(etas[j], etas[i]) || (!EtaGt(etas[i], etas[j]) && i < j)
  }

  /** `Before` is a strict total order on the positions of a list. */
  lemma BeforeIsStrictTotalOrder(etas: seq<Eta>, i: nat, j: nat, k: nat)
    requires i < |etas| && j < |etas| && k < |etas|
    ensures !Before(etas, i, i)
    ensures i != j ==> (Before(etas, i, j) <==> !Before(etas, j, i))
    ensures Before(etas, i, j) && Before(etas, j, k) ==> Before(etas, i, k)
  {
  }

  // ---------------------------------------------------------------------
  // Python's stable sort, applied to the positions of a batch list
  // ---------------------------------------------------------------------

  /** The positions `0 .. n-1` in their listed order. */
  function Range(n: nat): (r: seq<nat>)
    ensures |r| == n && forall k :: 0 <= k < n ==> r[k] == k
  {
    if n == 0 then [] else Range(n - 1) + [n - 1]
  }

  /** Insert position `i` into `s` just before the first position whose
      batch is strictly later than `i`'s: after every position that ties. */
  function Insert(etas: seq<Eta>, i: nat, s: seq<nat>): (r: seq<nat>)
    requires i < |etas|
    requires forall k :: 0 <= k < |s| ==> s[k] < |etas|
    ensures |r| == |s| + 1
    ensures forall k :: 0 <= k < |r| ==> r[k] == i || r[k] in s
  {
    if s == [] then [i]
    else if EtaGt(etas[s[0]], etas[i]) then [i] + s
    else
      assert s == [s[0]] + s[1..];
      [s[0]] + Insert(etas, i, s[1..])
  }

  /** Insertion sort of the first `n` positions: the order in which
      `sorted(batches[:n])` lists the batches. */
  function SortPositions(etas: seq<Eta>, n: nat): (r: seq<nat>)
    requires n <= |etas|
    ensures |r| == n
    ensures forall k :: 0 <= k < |r| ==> r[k] < n
  {
    if n == 0 then [] else Insert(etas, n - 1, SortPositions(etas, n - 1))
  }

  /** Inserting adds exactly the one position. */
  lemma {:induction false} InsertPermutes(etas: seq<Eta>, i: nat, s: seq<nat>)
    requires i < |etas|
    requires forall k :: 0 <= k < |s| ==> s[k] < |etas|
    ensures multiset(Insert(etas, i, s)) == multiset(s) + multiset{i}
    decreases |s|
  {
    if s != [] && !EtaGt(etas[s[0]], etas[i]) {
      InsertPermutes(etas, i, s[1..]);
      assert s == [s[0]] + s[1..];
    }
  }

  /** The sort lists every one of the first `n` positions exactly once. */
  lemma {:induction false} SortPositionsPermutes(etas: seq<Eta>, n: nat)
    requires n <= |etas|
    ensures multiset(SortPositions(etas, n)) == multiset(Range(n))
  {
    if n > 0 {
      var prev := SortPositions(etas, n - 1);
      SortPositionsPermutes(etas, n - 1);
      InsertPermutes(etas, n - 1, prev);
      assert SortPositions(etas, n) == Insert(etas, n - 1, prev);
    }
  }

  /** `sorted(batches)`, as the list of positions it visits. */
  function SortedByEta(etas: seq<Eta>): (r: seq<nat>)
    ensures |r| == |etas|
    ensures forall k :: 0 <= k < |r| ==> r[k] < |etas|
  {
    SortPositions(etas, |etas|)
  }

  ghost predicate Ordered(etas: seq<Eta>, order: seq<nat>)
    requires forall k :: 0 <= k < |order| ==> order[k] < |etas|
  {
    forall k, m :: 0 <= k < m < |order| ==> Before(etas, order[k], order[m])
  }

  /** The head of an ordered list precedes every later member. */
  lemma HeadBeforeRest(etas: seq<Eta>, s: seq<nat>, x: nat)
    requires forall k :: 0 <= k < |s| ==> s[k] < |etas|
    requires Ordered(etas, s) && s != [] && x in s[1..]
    ensures Before(etas, s[0], x)
  {
    var p :| 0 <= p < |s[1..]| && s[1..][p] == x;
    assert s[p + 1] == x;
  }

  lemma {:induction false} InsertOrdered(etas: seq<Eta>, i: nat, s: seq<nat>)
    requires i < |etas|
    requires forall k :: 0 <= k < |s| ==> s[k] < i
    requires Ordered(etas, s)
    ensures Ordered(etas, Insert(etas, i, s))
    decreases |s|
  {
    var r := Insert(etas, i, s);
    if s == [] {
    } else if EtaGt(etas[s[0]], etas[i]) {
      assert r == [i] + s;
      forall k, m | 0 <= k < m < |r| ensures Before(etas, r[k], r[m]) {
        if k == 0 && m > 1 {
          BeforeIsStrictTotalOrder(etas, i, s[0], s[m - 1]);
        }
      }
    } else {
      var rest := Insert(etas, i, s[1..]);
      InsertOrdered(etas, i, s[1..]);
      assert r == [s[0]] + rest;
      assert Before(etas, s[0], i);
      forall m | 0 <= m < |rest| ensures Before(etas, s[0], rest[m]) {
        if rest[m] != i {
          HeadBeforeRest(etas, s, rest[m]);
        }
      }
      forall k, m | 0 <= k < m < |r| ensures Before(etas, r[k], r[m]) {
        assert r[m] == rest[m - 1];
        if k > 0 {
          assert r[k] == rest[k - 1];
        }
      }
    }
  }

  lemma {:induction false} SortPositionsOrdered(etas: seq<Eta>, n: nat)
    requires n <= |etas|
    ensures Ordered(etas, SortPositions(etas, n))
  {
    if n > 0 {
      SortPositionsOrdered(etas, n - 1);
      InsertOrdered(etas, n - 1, SortPositions(etas, n - 1));
    }
  }

  /** The sorted list of positions is a strictly increasing enumeration of
      every position under `Before`. */
  lemma SortedByEtaIsStableSort(etas: seq<Eta>)
    ensures Ordered(etas, SortedByEta(etas))
    ensures forall j :: 0 <= j < |etas| ==> j in SortedByEta(etas)
  {
    var order := SortedByEta(etas);
    SortPositionsOrdered(etas, |etas|);
    SortPositionsPermutes(etas, |etas|);
    forall j | 0 <= j < |etas| ensures j in order {
      assert Range(|etas|)[j] == j;
      assert j in multiset(Range(|etas|));
    }
  }

  // ---------------------------------------------------------------------
  // next(b for b in sorted(batches) if b.can_allocate(line))
  // ---------------------------------------------------------------------

  /** The first position in `order` whose batch can take the line. */
  function FirstFit(order: seq<nat>, fits: seq<bool>): Option<nat>
    requires forall k :: 0 <= k < |order| ==> order[k] < |fits|
  {
    if order == [] then None
    else if fits[order[0]] then Some(order[0])
    else FirstFit(order[1..], fits)
  }

  /** A search that has rejected the first `k` positions and accepts the
      next one has found `FirstFit`. */
  lemma {:induction false} FirstFitAt(order: seq<nat>, fits: seq<bool>, k: nat)
    requires forall m :: 0 <= m < |order| ==> order[m] < |fits|
    requires k < |order| && fits[order[k]]
    requires forall m :: 0 <= m < k ==> !fits[order[m]]
    ensures FirstFit(order, fits) == Some(order[k])
  {
    if k > 0 {
      FirstFitAt(order[1..], fits, k - 1);
    }
  }

  /** A search that rejects every position finds nothing, and conversely. */
  lemma {:induction false} FirstFitNone(order: seq<nat>, fits: seq<bool>)
    requires forall m :: 0 <= m < |order| ==> order[m] < |fits|
    ensures FirstFit(order, fits).None? <==> forall m :: 0 <= m < |order| ==> !fits[order[m]]
  {
    if order != [] {
      FirstFitNone(order[1..], fits);
      if !fits[order[0]] {
        assert forall m :: 1 <= m < |order| ==> order[m] == order[1..][m - 1];
      }
    }
  }

  /** Where `FirstFit` stopped: the found position, after only rejections. */
  lemma {:induction false} FirstFitPosition(order: seq<nat>, fits: seq<bool>) returns (k: nat)
    requires forall m :: 0 <= m < |order| ==> order[m] < |fits|
    requires FirstFit(order, fits).Some?
    ensures k < |order| && order[k] == FirstFit(order, fits).value && fits[order[k]]
    ensures forall m :: 0 <= m < k ==> !fits[order[m]]
  {
    if fits[order[0]] {
      k := 0;
    } else {
      var k' := FirstFitPosition(order[1..], fits);
      k := k' + 1;
    }
  }

  /** The position that both allocators choose: the first batch of the
      eta-sorted list that can take the line. */
  function PreferredIndex(etas: seq<Eta>, fits: seq<bool>): Option<nat>
    requires |etas| == |fits|
  {
    FirstFit(SortedByEta(etas), fits)
  }

  /** The allocation rule: the chosen batch can take the line and precedes
      every other batch that can (earliest eta, warehouse stock first, ties
      to the batch listed first); nothing is chosen exactly when no batch
      can take the line. */
  lemma PreferredIndexIsEarliestFit(etas: seq<Eta>, fits: seq<bool>)
    requires |etas| == |fits|
    ensures PreferredIndex(etas, fits).None? <==> forall j :: 0 <= j < |fits| ==> !fits[j]
    ensures PreferredIndex(etas, fits).Some? ==>
      var i := PreferredIndex(etas, fits).value;
      i < |fits| && fits[i] &&
      forall j :: 0 <= j < |fits| && fits[j] && j != i ==> Before(etas, i, j)
  {
    var order := SortedByEta(etas);
    SortedByEtaIsStableSort(etas);
    FirstFitNone(order, fits);
    if PreferredIndex(etas, fits).None? {
      forall j | 0 <= j < |fits| ensures !fits[j] {
        assert j in order;
      }
    } else {
      var k := FirstFitPosition(order, fits);
      var i := order[k];
      forall j | 0 <= j < |fits| && fits[j] && j != i ensures Before(etas, i, j) {
        assert j in order;
        var m :| 0 <= m < |order| && order[m] == j;
        assert k < m;
      }
    }
  }

  /** Conversely, a batch that can take the line and precedes every other
      batch that can is the one chosen. */
  lemma PreferredIndexUnique(etas: seq<Eta>, fits: seq<bool>, i: nat)
    requires |etas| == |fits| && i < |fits| && fits[i]
    requires forall j :: 0 <= j < |fits| && fits[j] && j != i ==> Before(etas, i, j)
    ensures PreferredIndex(etas, fits) == Some(i)
  {
    PreferredIndexIsEarliestFit(etas, fits);
    var c := PreferredIndex(etas, fits).value;
    if c != i {
      BeforeIsStrictTotalOrder(etas, i, c, c);
    }
  }

  /** Stock already in the warehouse wins over every shipment: if some
      undated batch can take the line, an undated batch is chosen. */
  lemma WarehouseStockPreferred(etas: seq<Eta>, fits: seq<bool>, j: nat)
    requires |etas| == |fits| && j < |fits| && fits[j] && etas[j].None?
    ensures PreferredIndex(etas, fits).Some?
    ensures PreferredIndex(etas, fits).value < |etas| && etas[PreferredIndex(etas, fits).value].None?
  {
    PreferredIndexIsEarliestFit(etas, fits);
  }

  // ---------------------------------------------------------------------
  // Quantities of a batch
  // ---------------------------------------------------------------------

  /** `sum(line.qty for line in allocations)`. */
  ghost function SumQty(lines: set<OrderLine>): (r: int)
    ensures r >= 0
    ensures r == 0 <==> lines == {}
  {
    if lines == {} then 0
    else
      var l :| l in lines;
      l.qty + SumQty(lines - {l})
  }

  /** The sum does not depend on which line is taken out first. */
  lemma {:induction false} SumQtyRemove(lines: set<OrderLine>, x: OrderLine)
    requires x in lines
    ensures SumQty(lines) == x.qty + SumQty(lines - {x})
    decreases |lines|
  {
    var l :| l in lines && SumQty(lines) == l.qty + SumQty(lines - {l});
    if l != x {
      SumQtyRemove(lines - {l}, x);
      SumQtyRemove(lines - {x}, l);
      assert lines - {l} - {x} == lines - {x} - {l};
    }
  }

  lemma SumQtyInsert(lines: set<OrderLine>, x: OrderLine)
    requires x !in lines
    ensures SumQty(lines + {x}) == SumQty(lines) + x.qty
  {
    SumQtyRemove(lines + {x}, x);
    assert lines + {x} - {x} == lines;
  }

  /** Iterating over a set in whatever order Python visits it. */
  method SumQuantities(lines: set<OrderLine>) returns (total: int)
    ensures total == SumQty(lines)
  {
    total := 0;
    var rest := lines;
    while rest != {}
      invariant rest <= lines
      invariant total + SumQty(rest) == SumQty(lines)
      decreases |rest|
    {
      var l :| l in rest;
      SumQtyRemove(rest, l);
      total := total + l.qty;
      rest := rest - {l};
    }
  }

  /** `available_quantity`: purchased minus the allocated lines. */
  ghost function Available(purchased: int, allocations: set<OrderLine>): int {
    purchased - SumQty(allocations)
  }

  /** `can_allocate`: same sku and enough available stock. */
  ghost predicate CanTake(sku: string, purchased: int, allocations: set<OrderLine>, line: OrderLine) {
    sku == line.sku && Available(purchased, allocations) >= line.qty
  }

  /** The allocation set after `Batch.allocate(line)`. */
  ghost function AllocateLine(sku: string, purchased: int, allocations: set<OrderLine>, line: OrderLine): set<OrderLine> {
    if CanTake(sku, purchased, allocations, line) then allocations + {line} else allocations
  }

  /** Allocation never drives the available quantity below zero. */
  lemma AllocateKeepsStockNonNegative(sku: string, purchased: int, allocations: set<OrderLine>, line: OrderLine)
    requires Available(purchased, allocations) >= 0
    ensures Available(purchased, AllocateLine(sku, purchased, allocations, line)) >= 0
  {
    if CanTake(sku, purchased, allocations, line) {
      if line in allocations {
        assert allocations + {line} == allocations;
      } else {
        SumQtyInsert(allocations, line);
      }
    }
  }

  /** A line that fits and is new takes exactly its quantity. */
  lemma AllocateTakesQty(sku: string, purchased: int, allocations: set<OrderLine>, line: OrderLine)
    requires CanTake(sku, purchased, allocations, line) && line !in allocations
    ensures Available(purchased, AllocateLine(sku, purchased, allocations, line))
         == Available(purchased, allocations) - line.qty
  {
    SumQtyInsert(allocations, line);
  }

  /** A line that does not fit, or that is already allocated, changes nothing:
      the allocations are a set, so the same line is never counted twice. */
  lemma AllocateNoOp(sku: string, purchased: int, allocations: set<OrderLine>, line: OrderLine)
    requires !CanTake(sku, purchased, allocations, line) || line in allocations
    ensures AllocateLine(sku, purchased, allocations, line) == allocations
  {
  }

  /** Deallocating an allocated line gives its quantity back. */
  lemma DeallocateReturnsQty(purchased: int, allocations: set<OrderLine>, line: OrderLine)
    requires line in allocations
    ensures Available(purchased, allocations - {line}) == Available(purchased, allocations) + line.qty
  {
    SumQtyRemove(allocations, line);
  }
}
