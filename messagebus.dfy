/**
 * The message bus (src/allocation/domain/service/messagebus.py): the
 * registry from event type to handlers, and `handle`, which works through
 * a list of events from its end, running the handlers of each event and
 * appending to the list the events that the handlers left on the products
 * of the unit of work.
 */
module MessageBus {
  import opened Common
  import opened Allocation
  import opened Events
  import opened Aggregate
  import opened UnitOfWork
  import Handlers

  /** The four handler functions of the service layer. */
  datatype HandlerName =
    | AddBatchHandler
    | AllocateHandler
    | ChangeBatchQuantityHandler
    | SendOutOfStockNotificationHandler

  /** `_EVENT_HANDLERS`: each event type and the handlers run for it. */
  const EventHandlers: map<EventKind, seq<HandlerName>> := map[
    BatchCreatedKind := [AddBatchHandler],
    AllocationRequiredKind := [AllocateHandler],
    BatchQuantityChangedKind := [ChangeBatchQuantityHandler],
    OutOfStockKind := [SendOutOfStockNotificationHandler]
  ]

  /** The kind of event whose fields a handler reads. */
  function Handles(h: HandlerName): EventKind {
    match h
    case AddBatchHandler => BatchCreatedKind
    case AllocateHandler => AllocationRequiredKind
    case ChangeBatchQuantityHandler => BatchQuantityChangedKind
    case SendOutOfStockNotificationHandler => OutOfStockKind
  }

  /** The kinds of event a handler can leave pending on the products it
      changes: `Product.allocate` records `OutOfStock`, a batch whose
      quantity shrinks re-submits its lines as `AllocationRequired`. */
  function Spawns(h: HandlerName): set<EventKind> {
    match h
    case AddBatchHandler => {}
    case AllocateHandler => {OutOfStockKind}
    case ChangeBatchQuantityHandler => {AllocationRequiredKind}
    case SendOutOfStockNotificationHandler => {}
  }

  /** The events a handler leaves pending, for event `e`, on the product
      it changed when none was pending before: `allocate` records
      `OutOfStock` when no batch takes the line (`result` is `None`),
      `change_batch_quantity` re-submits each line it released, in the
      order it released them, and the other handlers record nothing. */
  function Raised(e: Event, result: Option<string>, released: seq<OrderLine>): (evs: seq<Event>)
    ensures forall x :: x in evs ==> Rank(KindOf(x)) < Rank(KindOf(e))
    ensures !e.AllocationRequired? && !e.BatchQuantityChanged? ==> evs == []
  {
    match e
    case AllocationRequired(_, sku, _) => if result.None? then [OutOfStock(sku)] else []
    case BatchQuantityChanged(_, _) => Reallocations(released)
    case _ => []
  }

  /** What a turn on `e` returns, as a function of the stored `products`
      before it: `KeyError` for an unregistered type; for `allocate`, the
      validation error, `InvalidSkuException`, or the reference the
      allocation rule picks in the product of the sku; for
      `change_batch_quantity`, `InvalidBatchReferenceException` when no
      product has the batch; `None` from every other handler. */
  ghost function Outcome(e: Event, products: set<Product>): Result<Option<string>>
    reads products, BatchesOf(products)
  {
    match e
    case Unregistered(typeName) => Err(KeyError(typeName))
    case AllocationRequired(orderId, sku, qty) =>
      if qty <= 0 then Err(ValidationError("qty"))
      else if forall p :: p in products ==> p.sku != sku then Err(InvalidSku(Handlers.InvalidSkuMessage(sku)))
      else
        var p :| p in products && p.sku == sku;
        assert forall b :: b in p.batches ==> b in BatchesOf(products);
        Ok(p.PreferredRef(OrderLine(sku, orderId, qty)))
    case BatchQuantityChanged(ref, _) =>
      if forall p :: p in products ==> !p.HasBatch(ref) then Err(InvalidBatchReference(Handlers.InvalidBatchReferenceMessage(ref)))
      else Ok(None)
    case _ => Ok(None)
  }

  /** With one stored product per sku, `allocate` succeeds exactly when the
      quantity is positive and the sku is stored, and then returns the
      reference the allocation rule picks in that product. */
  lemma OutcomeOfAllocation(e: Event, products: set<Product>)
    requires e.AllocationRequired?
    requires forall p, q :: p in products && q in products && p.sku == q.sku ==> p == q
    ensures Outcome(e, products).Ok? <==> e.qty > 0 && exists p :: p in products && p.sku == e.sku
    ensures Outcome(e, products).Err? ==>
      Outcome(e, products).error == if e.qty <= 0 then ValidationError("qty") else InvalidSku(Handlers.InvalidSkuMessage(e.sku))
    ensures e.qty > 0 ==> forall p :: p in products && p.sku == e.sku ==>
      Outcome(e, products) == Ok(p.PreferredRef(OrderLine(e.sku, e.orderId, e.qty)))
  {
  }

  /** An event of a prefix is an event of the whole list. */
  lemma PrefixMember(s: seq<Event>, t: seq<Event>, x: Event)
    requires s <= t && x in s
    ensures x in t
  {
    var i :| 0 <= i < |s| && s[i] == x;
    assert t[i] == x;
  }

  /** Exactly the four domain event types are registered, each with exactly
      one handler, and that handler reads events of that type. */
  lemma OneHandlerPerKind(k: EventKind)
    ensures k in EventHandlers <==> k in DomainKinds
    ensures k in EventHandlers ==> |EventHandlers[k]| == 1 && Handles(EventHandlers[k][0]) == k
  {
  }

  /** The rank that bounds the bus's work: an event's handler only leaves
      events of a lower rank behind. */
  function Rank(k: EventKind): nat {
    match k
    case OutOfStockKind => 0
    case AllocationRequiredKind => 1
    case _ => 2
  }

  /** Every event a handler leaves pending ranks below the events it handles. */
  lemma SpawnsRankLower(h: HandlerName, k: EventKind)
    requires k in Spawns(h)
    ensures Rank(k) < Rank(Handles(h))
  {
  }

  /** The number of events of rank `t` in `q`. */
  function CountRank(q: seq<Event>, t: nat): (n: nat)
    ensures n <= |q|
  {
    if q == [] then 0
    else CountRank(q[..|q| - 1], t) + (if Rank(KindOf(q[|q| - 1])) == t then 1 else 0)
  }

  /** Counting distributes over concatenation. */
  lemma {:induction false} CountRankAppend(a: seq<Event>, b: seq<Event>, t: nat)
    ensures CountRank(a + b, t) == CountRank(a, t) + CountRank(b, t)
  {
    if b == [] {
      assert a + b == a;
    } else {
      assert (a + b)[..|a + b| - 1] == a + b[..|b| - 1];
      assert (a + b)[|a + b| - 1] == b[|b| - 1];
      CountRankAppend(a, b[..|b| - 1], t);
    }
  }

  /** Events all ranked below `t` contribute nothing to the count of rank `t`. */
  lemma {:induction false} CountRankBelow(q: seq<Event>, t: nat)
    requires forall e :: e in q ==> Rank(KindOf(e)) < t
    ensures CountRank(q, t) == 0
  {
    if q != [] {
      assert q[|q| - 1] in q;
      assert forall e :: e in q[..|q| - 1] ==> e in q;
      CountRankBelow(q[..|q| - 1], t);
    }
  }

  /** Popping the last event and appending events of lower rank makes the
      work list smaller: fewer events of the popped rank and no more of
      any rank above it. */
  lemma TurnShrinksWork(q: seq<Event>, evs: seq<Event>)
    requires q != []
    requires forall x :: x in evs ==> Rank(KindOf(x)) < Rank(KindOf(q[|q| - 1]))
    ensures var next := q[..|q| - 1] + evs;
      || CountRank(next, 2) < CountRank(q, 2)
      || (CountRank(next, 2) == CountRank(q, 2) &&
          (|| CountRank(next, 1) < CountRank(q, 1)
           || (CountRank(next, 1) == CountRank(q, 1) && CountRank(next, 0) < CountRank(q, 0))))
  {
    var rest := q[..|q| - 1];
    var k := Rank(KindOf(q[|q| - 1]));
    CountRankAppend(rest, evs, 0);
    CountRankAppend(rest, evs, 1);
    CountRankAppend(rest, evs, 2);
    CountRankBelow(evs, 2);
    if k <= 1 {
      CountRankBelow(evs, 1);
    }
    if k == 0 {
      CountRankBelow(evs, 0);
    }
  }

  /** `handle`'s bookkeeping: `queues[0]` is `[start]`; step `i` pops the
      last event of `queues[i]`, which is `trace[i]`, and the next queue is
      what remains followed by the events collected after its handler,
      `spawned[i]`. */
  ghost predicate LifoRun(start: Event, queues: seq<seq<Event>>, trace: seq<Event>, spawned: seq<seq<Event>>) {
    && |queues| >= 1 && queues[0] == [start]
    && |trace| <= |queues| && |spawned| == |queues| - 1 && |spawned| <= |trace|
    && (forall i :: 0 <= i < |trace| ==> queues[i] != [] && trace[i] == queues[i][|queues[i]| - 1])
    && (forall i {:trigger spawned[i]} :: 0 <= i < |spawned| ==> queues[i] != [] && queues[i + 1] == queues[i][..|queues[i]| - 1] + spawned[i])
  }

  /** A pop extends the run: the popped event is the last of the current
      work list, and the next work list is the rest followed by `evs`. */
  lemma {:induction false} LifoRunStep(start: Event, queues: seq<seq<Event>>, trace: seq<Event>, spawned: seq<seq<Event>>, evs: seq<Event>)
    requires LifoRun(start, queues, trace, spawned)
    requires |queues| == |trace| + 1 && queues[|trace|] != []
    ensures var q := queues[|trace|];
      && LifoRun(start, queues, trace + [q[|q| - 1]], spawned)
      && LifoRun(start, queues + [q[..|q| - 1] + evs], trace + [q[|q| - 1]], spawned + [evs])
  {
    var q := queues[|trace|];
    var trace' := trace + [q[|q| - 1]];
    var queues' := queues + [q[..|q| - 1] + evs];
    var spawned' := spawned + [evs];
    assert forall i :: 0 <= i < |trace| ==> trace'[i] == trace[i] && queues'[i] == queues[i];
    assert forall i :: 0 <= i < |spawned| ==> spawned'[i] == spawned[i] && queues'[i + 1] == queues[i + 1];
  }

  /** A run that empties its work list pops every event it ever queued:
      an event waiting in `queues[i]` is popped at step `i` or later. */
  lemma {:induction false} QueuedIsPopped(start: Event, queues: seq<seq<Event>>, trace: seq<Event>, spawned: seq<seq<Event>>, i: nat, x: Event)
    requires LifoRun(start, queues, trace, spawned)
    requires |queues| == |trace| + 1 && queues[|trace|] == []
    requires i <= |trace| && x in queues[i]
    ensures x in trace[i..]
    decreases |trace| - i
  {
    var q := queues[i];
    if x != q[|q| - 1] {
      assert x in q[..|q| - 1];
      assert queues[i + 1] == q[..|q| - 1] + spawned[i];
      QueuedIsPopped(start, queues, trace, spawned, i + 1, x);
      assert trace[i + 1..] == trace[i..][1..];
    }
  }

  /** In a run that empties its work list, every event a turn collected
      is popped and handled. */
  lemma SpawnedIsPopped(start: Event, queues: seq<seq<Event>>, trace: seq<Event>, spawned: seq<seq<Event>>)
    requires LifoRun(start, queues, trace, spawned)
    requires |queues| == |trace| + 1 && queues[|trace|] == []
    ensures forall i, x :: 0 <= i < |spawned| && x in spawned[i] ==> x in trace
  {
    forall i, x | 0 <= i < |spawned| && x in spawned[i]
      ensures x in trace
    {
      var q := queues[i];
      assert queues[i + 1] == q[..|q| - 1] + spawned[i];
      QueuedIsPopped(start, queues, trace, spawned, i + 1, x);
    }
  }

  /** What a run records about its turns: for each turn `i`, the handler's
      result `results[i]` (a reference only for `allocate`), the lines it
      deallocated `releases[i]` (none unless a batch quantity changed), and
      the collected events `spawned[i]`, which are the events `Raised` names
      for every turn but the first, and for the first too when nothing was
      pending before the run (`wasDrained`). */
  ghost predicate Accounted(trace: seq<Event>, spawned: seq<seq<Event>>, results: seq<Option<string>>,
                            releases: seq<seq<OrderLine>>, wasDrained: bool)
  {
    && |spawned| <= |trace| && |results| == |spawned| && |releases| == |spawned|
    && (forall i :: 0 <= i < |spawned| && !trace[i].AllocationRequired? ==> results[i] == None)
    && (forall i :: 0 <= i < |spawned| && !trace[i].BatchQuantityChanged? ==> releases[i] == [])
    && (forall i :: 0 <= i < |spawned| && (i > 0 || wasDrained) ==> spawned[i] == Raised(trace[i], results[i], releases[i]))
  }

  /** A turn that succeeds extends what the run records. */
  lemma AccountedStep(trace: seq<Event>, spawned: seq<seq<Event>>, results: seq<Option<string>>,
                      releases: seq<seq<OrderLine>>, wasDrained: bool,
                      e: Event, evs: seq<Event>, result: Option<string>, released: seq<OrderLine>)
    requires Accounted(trace, spawned, results, releases, wasDrained) && |spawned| == |trace|
    requires !e.AllocationRequired? ==> result == None
    requires !e.BatchQuantityChanged? ==> released == []
    requires trace != [] || wasDrained ==> evs == Raised(e, result, released)
    ensures Accounted(trace + [e], spawned + [evs], results + [result], releases + [released], wasDrained)
  {
  }

  /** Runs handler `h` on `e`, with the outbox standing in for the mail
      transport. The result is what the handler returns: `allocate`'s
      batch reference, `None` for the others. No pending event is lost;
      when none was pending, the product the handler changed (`target`)
      holds exactly the events `Raised` names and every other product none.
      `changed` is the batch whose quantity changed, and `released` the
      lines it deallocated. */
  method Dispatch(h: HandlerName, e: Event, uow: FakeUnitOfWork, outbox: Handlers.Outbox)
    returns (res: Result<Option<string>>, ghost target: Option<Product>, ghost released: seq<OrderLine>, ghost changed: Option<Batch>,
             ghost chosen: Option<Batch>)
    requires uow.Valid() && Handles(h) == KindOf(e)
    modifies uow, uow.products, uow.products.products, BatchesOf(uow.products.products), outbox
    ensures uow.Valid()
    ensures old(uow.products.products) <= uow.products.products
    ensures forall p :: p in uow.products.products ==> p in old(uow.products.products) || fresh(p)
    ensures forall b :: b in BatchesOf(uow.products.products) ==> b in old(BatchesOf(uow.products.products)) || fresh(b)
    ensures old(EventsOnly(uow.products.products, {})) ==> EventsOnly(uow.products.products, Spawns(h))
    ensures res.Err? ==> h == AllocateHandler || h == ChangeBatchQuantityHandler
    ensures res.Ok? && h != AllocateHandler ==> res.value == None
    ensures e.AllocationRequired? ==> (res.Ok? <==> e.qty > 0 && exists p :: p in old(uow.products.products) && p.sku == e.sku)
    ensures e.AllocationRequired? && res.Err? ==>
      res.error == if e.qty <= 0 then ValidationError("qty") else InvalidSku(Handlers.InvalidSkuMessage(e.sku))
    ensures e.BatchQuantityChanged? ==> (res.Err? <==> forall p :: p in old(uow.products.products) ==> !old(p.HasBatch(e.ref)))
    ensures e.BatchQuantityChanged? && res.Err? ==> res.error == InvalidBatchReference(Handlers.InvalidBatchReferenceMessage(e.ref))
    ensures forall p :: p in old(uow.products.products) ==> old(p.events) <= p.events
    ensures res.Ok? && old(EventsOnly(uow.products.products, {})) ==>
      forall p :: p in uow.products.products ==> p.events == if Some(p) == target then Raised(e, res.value, released) else []
    ensures target.Some? ==> target.value in uow.products.products
    ensures res.Ok? && target.None? ==> Raised(e, res.value, released) == []
    ensures !e.BatchQuantityChanged? ==> released == [] && changed.None?
    ensures changed.Some? ==>
      && e.BatchQuantityChanged? && changed.value in old(BatchesOf(uow.products.products))
      && Handlers.Resized(changed.value, old(changed.value.allocations), e.qty, released)
    ensures res.Ok? && e.BatchQuantityChanged? ==> changed.Some?
    ensures e.AllocationRequired? && res.Ok? ==> target.Some?
    ensures e.AllocationRequired? && target.Some? ==>
      && e.qty > 0 && target.value in old(uow.products.products) && target.value.sku == e.sku
      && res == Ok(old(target.value.PreferredRef(OrderLine(e.sku, e.orderId, e.qty))))
      && chosen == old(target.value.PreferredBatch(OrderLine(e.sku, e.orderId, e.qty)))
    ensures !e.AllocationRequired? ==> chosen.None?
    ensures chosen.Some? ==>
      && e.AllocationRequired? && e.qty > 0 && chosen.value in old(BatchesOf(uow.products.products))
      && res == Ok(Some(chosen.value.id))
      && chosen.value.allocations == old(chosen.value.allocations) + {OrderLine(e.sku, e.orderId, e.qty)}
    ensures forall b :: b in old(BatchesOf(uow.products.products)) && Some(b) != chosen && Some(b) != changed ==>
      b.allocations == old(b.allocations) && b.purchasedQuantity == old(b.purchasedQuantity)
  {
    ghost var drained := EventsOnly(uow.products.products, {});
    ghost var before := uow.products.products;
    if drained {
      forall p | p in before
        ensures p.events == []
      {
        NoPendingEvents(before, p);
      }
    }
    target, released, changed, chosen := None, [], None, None;
    match h
    case AddBatchHandler =>
      Handlers.AddBatch(e, uow);
      res := Ok(None);
      if drained {
        forall p | p in uow.products.products
          ensures p.events == []
        {
          NoPendingEvents(uow.products.products, p);
        }
      }
    case AllocateHandler =>
      res, target, chosen := Handlers.Allocate(e, uow);
    case ChangeBatchQuantityHandler =>
      var r;
      r, target, released, changed := Handlers.ChangeBatchQuantity(e, uow);
      res := if r.Ok? then Ok(None) else Err(r.error);
      if r.Ok? {
        ghost var p := target.value;
        assert p in old(uow.products.products) && changed.value in old(p.batches);
      }
    case SendOutOfStockNotificationHandler =>
      Handlers.SendOutOfStockNotification(e, outbox);
      res := Ok(None);
  }

  /** One turn of `handle`'s loop for the popped event `e`: the registry
      lookup, its handler, and `uow.collect_new_events()`, whose events
      `evs` are appended to the work list. A handler that raises ends the
      turn before the collection. Every event pending before the turn is
      collected; when none was, the collected events are exactly those the
      handler raised (`Raised`), `changed` being the batch whose quantity
      changed and `released` the lines it deallocated. */
  method Turn(e: Event, uow: FakeUnitOfWork, outbox: Handlers.Outbox)
    returns (res: Result<Option<string>>, evs: seq<Event>, ghost released: seq<OrderLine>, ghost changed: Option<Batch>,
             ghost chosen: Option<Batch>)
    requires uow.Valid()
    modifies uow, uow.products, uow.products.products, BatchesOf(uow.products.products), outbox
    ensures uow.Valid()
    ensures old(uow.products.products) <= uow.products.products
    ensures forall p :: p in uow.products.products ==> p in old(uow.products.products) || fresh(p)
    ensures forall b :: b in BatchesOf(uow.products.products) ==> b in old(BatchesOf(uow.products.products)) || fresh(b)
    ensures res.Err? ==> evs == [] && (e.Unregistered? || e.AllocationRequired? || e.BatchQuantityChanged?)
    ensures res.Err? && e.Unregistered? ==> res.error == KeyError(e.typeName)
    ensures res.Ok? ==> !e.Unregistered? && EventsOnly(uow.products.products, {})
    ensures res.Ok? && !e.AllocationRequired? ==> res.value == None
    ensures e.AllocationRequired? ==> (res.Ok? <==> e.qty > 0 && exists p :: p in old(uow.products.products) && p.sku == e.sku)
    ensures e.AllocationRequired? && res.Err? ==>
      res.error == if e.qty <= 0 then ValidationError("qty") else InvalidSku(Handlers.InvalidSkuMessage(e.sku))
    ensures e.BatchQuantityChanged? ==> (res.Err? <==> forall p :: p in old(uow.products.products) ==> !old(p.HasBatch(e.ref)))
    ensures e.BatchQuantityChanged? && res.Err? ==> res.error == InvalidBatchReference(Handlers.InvalidBatchReferenceMessage(e.ref))
    ensures res.Ok? && old(EventsOnly(uow.products.products, {})) ==>
      forall x :: x in evs ==> Rank(KindOf(x)) < Rank(KindOf(e))
    ensures res.Ok? ==> forall p, x :: p in old(uow.products.products) && x in old(p.events) ==> x in evs
    ensures res.Ok? && old(EventsOnly(uow.products.products, {})) ==> evs == Raised(e, res.value, released)
    ensures !e.BatchQuantityChanged? ==> released == [] && changed.None?
    ensures changed.Some? ==>
      && e.BatchQuantityChanged? && changed.value in old(BatchesOf(uow.products.products))
      && Handlers.Resized(changed.value, old(changed.value.allocations), e.qty, released)
    ensures res.Ok? && e.BatchQuantityChanged? ==> changed.Some?
    ensures res.Ok? && e.AllocationRequired? ==> e.qty > 0 && exists p :: p in old(uow.products.products) && p.sku == e.sku
    ensures res.Ok? && e.AllocationRequired? && e.qty > 0 ==>
      forall p :: p in old(uow.products.products) && p.sku == e.sku ==>
        res.value == old(p.PreferredRef(OrderLine(e.sku, e.orderId, e.qty))) && chosen == old(p.PreferredBatch(OrderLine(e.sku, e.orderId, e.qty)))
    ensures !e.AllocationRequired? ==> chosen.None?
    ensures chosen.Some? ==>
      && e.AllocationRequired? && e.qty > 0 && chosen.value in old(BatchesOf(uow.products.products))
      && res == Ok(Some(chosen.value.id))
      && chosen.value.allocations == old(chosen.value.allocations) + {OrderLine(e.sku, e.orderId, e.qty)}
    ensures forall b :: b in old(BatchesOf(uow.products.products)) && Some(b) != chosen && Some(b) != changed ==>
      b.allocations == old(b.allocations) && b.purchasedQuantity == old(b.purchasedQuantity)
  {
    var kind := KindOf(e);
    evs, released, changed, chosen := [], [], None, None;
    if kind !in EventHandlers {
      return Err(KeyError(e.typeName)), evs, released, changed, chosen;
    }
    OneHandlerPerKind(kind);
    var h := EventHandlers[kind][0];
    ghost var wasDrained := EventsOnly(uow.products.products, {});
    ghost var target;
    res, target, released, changed, chosen := Dispatch(h, e, uow, outbox);
    if res.Err? {
      return;
    }
    assert forall p, x :: p in old(uow.products.products) && x in old(p.events) ==> x in p.events by {
      forall p, x | p in old(uow.products.products) && x in old(p.events)
        ensures x in p.events
      {
        PrefixMember(old(p.events), p.events, x);
      }
    }
    evs := CollectRaised(uow, target);
  }

  /** A turn as the loop of `handle` sees it: the handler's result and the
      collected events, with the lines a quantity change released. */
  method TurnEvents(e: Event, uow: FakeUnitOfWork, outbox: Handlers.Outbox)
    returns (res: Result<Option<string>>, evs: seq<Event>, ghost released: seq<OrderLine>)
    requires uow.Valid()
    modifies uow, uow.products, uow.products.products, BatchesOf(uow.products.products), outbox
    ensures uow.Valid()
    ensures old(uow.products.products) <= uow.products.products
    ensures forall p :: p in uow.products.products ==> p in old(uow.products.products) || fresh(p)
    ensures forall b :: b in BatchesOf(uow.products.products) ==> b in old(BatchesOf(uow.products.products)) || fresh(b)
    ensures res.Err? ==> evs == [] && (e.Unregistered? || e.AllocationRequired? || e.BatchQuantityChanged?)
    ensures res.Err? && e.Unregistered? ==> res.error == KeyError(e.typeName)
    ensures res.Ok? ==> !e.Unregistered? && EventsOnly(uow.products.products, {})
    ensures res.Ok? && !e.AllocationRequired? ==> res.value == None
    ensures res == old(Outcome(e, uow.products.products))
    ensures res.Ok? && old(EventsOnly(uow.products.products, {})) ==>
      forall x :: x in evs ==> Rank(KindOf(x)) < Rank(KindOf(e))
    ensures res.Ok? ==> forall p, x :: p in old(uow.products.products) && x in old(p.events) ==> x in evs
    ensures res.Ok? && old(EventsOnly(uow.products.products, {})) ==> evs == Raised(e, res.value, released)
    ensures !e.BatchQuantityChanged? ==> released == []
  {
    if e.AllocationRequired? {
      OutcomeOfAllocation(e, uow.products.products);
    }
    ghost var changed, chosen;
    res, evs, released, changed, chosen := Turn(e, uow, outbox);
  }

  /** `uow.collect_new_events()` after a handler ran: every event pending
      on a stored product is collected, and when only the product `target`
      had events, the collected events are exactly its events. */
  method CollectRaised(uow: FakeUnitOfWork, ghost target: Option<Product>) returns (evs: seq<Event>)
    requires uow.Valid()
    modifies uow.products.products`events
    ensures uow.Valid()
    ensures EventsOnly(uow.products.products, {})
    ensures forall p :: p in uow.products.products ==> p.batches == old(p.batches) && p.versionNumber == old(p.versionNumber)
    ensures forall p, x :: p in uow.products.products && x in old(p.events) ==> x in evs
    ensures (forall q :: q in uow.products.products && Some(q) != target ==> old(q.events) == []) ==>
      evs == if target.Some? && target.value in uow.products.products then old(target.value.events) else []
  {
    ghost var order, pending;
    evs, order, pending := uow.CollectNewEvents();
    forall p, x | p in uow.products.products && x in old(p.events)
      ensures x in evs
    {
      DrainedCovers(order, pending, p, x);
    }
    if forall q :: q in uow.products.products && Some(q) != target ==> old(q.events) == [] {
      DrainedOnly(order, pending, target);
    }
  }

  /** `handle(event, uow)`: the work list starts as `[event]`; until it is
      empty, its last event is popped, the handler registered for the
      event's type runs and its result is appended to `results`, and the
      events collected from the unit of work are appended to the work list.
      A missing registry entry or a handler that raises ends the run with
      that error. `trace` lists the popped events and `queues` the work list
      before each pop, with `spawned` the events each turn appended,
      `outcomes` the handlers' results and `releases` the lines each turn
      deallocated. */
  method Handle(event: Event, uow: FakeUnitOfWork, outbox: Handlers.Outbox)
    returns (r: Result<seq<Option<string>>>, ghost queues: seq<seq<Event>>, ghost trace: seq<Event>, ghost spawned: seq<seq<Event>>,
             ghost outcomes: seq<Option<string>>, ghost releases: seq<seq<OrderLine>>)
    requires uow.Valid()
    modifies uow, uow.products, uow.products.products, BatchesOf(uow.products.products), outbox
    ensures uow.Valid()
    ensures old(uow.products.products) <= uow.products.products
    ensures forall p :: p in uow.products.products ==> p in old(uow.products.products) || fresh(p)
    ensures forall b :: b in BatchesOf(uow.products.products) ==> b in old(BatchesOf(uow.products.products)) || fresh(b)
    ensures LifoRun(event, queues, trace, spawned)
    ensures trace != [] && trace[0] == event
    ensures |outcomes| == |spawned| && |releases| == |spawned|
    ensures forall i :: 0 <= i < |spawned| && (i > 0 || old(EventsOnly(uow.products.products, {}))) ==>
      spawned[i] == Raised(trace[i], outcomes[i], releases[i])
    ensures forall i :: 0 <= i < |spawned| && !trace[i].BatchQuantityChanged? ==> releases[i] == []
    ensures forall i :: 1 <= i < |spawned| ==>
      forall x :: x in spawned[i] ==> Rank(KindOf(x)) < Rank(KindOf(trace[i]))
    ensures r.Ok? ==> |queues| == |trace| + 1 && queues[|trace|] == [] && r.value == outcomes
    ensures r.Ok? ==> forall i :: 0 <= i < |trace| && !trace[i].AllocationRequired? ==> r.value[i] == None
    ensures r.Ok? ==> EventsOnly(uow.products.products, {})
    ensures r.Ok? ==> forall i, x :: 0 <= i < |spawned| && x in spawned[i] ==> x in trace
    ensures r.Ok? ==> forall p, x :: p in old(uow.products.products) && x in old(p.events) ==> x in trace
    ensures r.Ok? && event.AllocationRequired? ==> event.qty > 0 && exists p :: p in old(uow.products.products) && p.sku == event.sku
    ensures r.Ok? && event.AllocationRequired? && event.qty > 0 ==>
      forall p :: p in old(uow.products.products) && p.sku == event.sku ==> r.value[0] == old(p.PreferredRef(OrderLine(event.sku, event.orderId, event.qty)))
    ensures old(Outcome(event, uow.products.products)).Err? ==>
      |trace| == 1 && r == Err(old(Outcome(event, uow.products.products)).error)
    ensures r.Err? && |trace| == 1 ==> old(Outcome(event, uow.products.products)) == Err(r.error)
    ensures r.Ok? ==> old(Outcome(event, uow.products.products)) == Ok(r.value[0])
    ensures event.AllocationRequired? && old(Outcome(event, uow.products.products)).Ok? && old(EventsOnly(uow.products.products, {})) ==>
      r.Ok?
    ensures r.Err? ==> |queues| == |trace|
    ensures r.Err? ==> var last := trace[|trace| - 1];
      last.Unregistered? || last.AllocationRequired? || last.BatchQuantityChanged?
    ensures r.Err? && trace[|trace| - 1].Unregistered? ==> r.error == KeyError(trace[|trace| - 1].typeName)
  {
    var results: seq<Option<string>> := [];
    ghost var wasDrained := EventsOnly(uow.products.products, {});
    var res, queue;
    res, queue, queues, trace, spawned, releases := FirstPass(event, uow, outbox);
    if res.Err? {
      r, outcomes := Err(res.error), results;
      return;
    }
    results := [res.value];
    ghost var queues0, trace0, spawned0 := queues, trace, spawned;
    r, queues, trace, spawned, outcomes, releases := RunQueue(event, queue, results, uow, outbox, queues, trace, spawned, releases, wasDrained);
    assert spawned[0] == spawned0[0] && outcomes[0] == results[0];
    if r.Ok? {
      SpawnedIsPopped(event, queues, trace, spawned);
      forall p, x | p in old(uow.products.products) && x in old(p.events)
        ensures x in trace
      {
        assert x in spawned[0];
      }
    }
  }

  /** The first pass of `handle`'s loop: `event` is popped from the work
      list `[event]`, its handler runs and, unless it raises, the collected
      events become the work list `queue`. The result is `Outcome` of the
      stored products before the pass. */
  method FirstPass(event: Event, uow: FakeUnitOfWork, outbox: Handlers.Outbox)
    returns (res: Result<Option<string>>, queue: seq<Event>, ghost queues: seq<seq<Event>>, ghost trace: seq<Event>,
             ghost spawned: seq<seq<Event>>, ghost releases: seq<seq<OrderLine>>)
    requires uow.Valid()
    modifies uow, uow.products, uow.products.products, BatchesOf(uow.products.products), outbox
    ensures uow.Valid()
    ensures old(uow.products.products) <= uow.products.products
    ensures forall p :: p in uow.products.products ==> p in old(uow.products.products) || fresh(p)
    ensures forall b :: b in BatchesOf(uow.products.products) ==> b in old(BatchesOf(uow.products.products)) || fresh(b)
    ensures res == old(Outcome(event, uow.products.products))
    ensures res.Ok? && event.AllocationRequired? ==> event.qty > 0 && exists p :: p in old(uow.products.products) && p.sku == event.sku
    ensures res.Ok? && event.AllocationRequired? && event.qty > 0 ==>
      forall p :: p in old(uow.products.products) && p.sku == event.sku ==> res.value == old(p.PreferredRef(OrderLine(event.sku, event.orderId, event.qty)))
    ensures |trace| == 1 && trace[0] == event && LifoRun(event, queues, trace, spawned)
    ensures res.Err? ==> |queues| == 1 && spawned == [] && releases == []
    ensures res.Err? ==> event.Unregistered? || event.AllocationRequired? || event.BatchQuantityChanged?
    ensures res.Err? && event.Unregistered? ==> res.error == KeyError(event.typeName)
    ensures res.Ok? ==> |queues| == 2 && queues[1] == queue && EventsOnly(uow.products.products, {})
    ensures res.Ok? ==> Accounted(trace, spawned, [res.value], releases, old(EventsOnly(uow.products.products, {})))
    ensures res.Ok? ==> forall p, x :: p in old(uow.products.products) && x in old(p.events) ==> x in spawned[0]
    ensures res.Ok? && old(EventsOnly(uow.products.products, {})) && event.AllocationRequired? ==>
      forall x :: x in queue ==> x.OutOfStock?
  {
    ghost var wasDrained := EventsOnly(uow.products.products, {});
    if event.AllocationRequired? {
      OutcomeOfAllocation(event, uow.products.products);
    }
    var results: seq<Option<string>> := [];
    queues, trace, spawned, releases := [[event]], [], [], [];
    queue := [event];
    var e := queue[|queue| - 1];
    var rest := queue[..|queue| - 1];
    var evs;
    ghost var released;
    res, evs, released := TurnEvents(e, uow, outbox);
    LifoRunStep(event, queues, trace, spawned, evs);
    trace := trace + [e];
    if res.Err? {
      return;
    }
    AccountedStep([], spawned, results, releases, wasDrained, e, evs, res.value, released);
    releases := releases + [released];
    queue := rest + evs;
    queues := queues + [queue];
    spawned := spawned + [evs];
  }

  /** The rest of `handle`'s loop, once the triggering event was handled:
      while the work list `queue` is not empty, its last event is popped,
      its handler runs, the result is appended to `results` and the
      collected events to `queue`. The run recorded so far (`queues0`,
      `trace0`, `spawned0`, `releases0`) is extended; a handler that raises
      ends the run with its error. When no event was pending before the
      triggering `AllocationRequired`, only `OutOfStock` events can follow it,
      and their handler never raises. */
  method RunQueue(event: Event, pending: seq<Event>, results0: seq<Option<string>>, uow: FakeUnitOfWork, outbox: Handlers.Outbox,
                  ghost queues0: seq<seq<Event>>, ghost trace0: seq<Event>, ghost spawned0: seq<seq<Event>>,
                  ghost releases0: seq<seq<OrderLine>>, ghost wasDrained: bool)
    returns (r: Result<seq<Option<string>>>, ghost queues: seq<seq<Event>>, ghost trace: seq<Event>, ghost spawned: seq<seq<Event>>,
             ghost outcomes: seq<Option<string>>, ghost releases: seq<seq<OrderLine>>)
    requires uow.Valid() && EventsOnly(uow.products.products, {})
    requires LifoRun(event, queues0, trace0, spawned0) && |queues0| == |trace0| + 1 && queues0[|trace0|] == pending
    requires Accounted(trace0, spawned0, results0, releases0, wasDrained)
    requires wasDrained && event.AllocationRequired? ==> forall x :: x in pending ==> x.OutOfStock?
    modifies uow, uow.products, uow.products.products, BatchesOf(uow.products.products), outbox
    ensures uow.Valid()
    ensures old(uow.products.products) <= uow.products.products
    ensures forall p :: p in uow.products.products ==> p in old(uow.products.products) || fresh(p)
    ensures forall b :: b in BatchesOf(uow.products.products) ==> b in old(BatchesOf(uow.products.products)) || fresh(b)
    ensures LifoRun(event, queues, trace, spawned)
    ensures trace0 <= trace && spawned0 <= spawned && results0 <= outcomes
    ensures Accounted(trace, spawned, outcomes, releases, wasDrained)
    ensures r.Ok? ==> |queues| == |trace| + 1 && queues[|trace|] == [] && r.value == outcomes
    ensures r.Ok? ==> EventsOnly(uow.products.products, {})
    ensures r.Err? ==> |queues| == |trace| && |trace| > |trace0|
    ensures r.Err? ==> var last := trace[|trace| - 1];
      last.Unregistered? || last.AllocationRequired? || last.BatchQuantityChanged?
    ensures r.Err? && trace[|trace| - 1].Unregistered? ==> r.error == KeyError(trace[|trace| - 1].typeName)
    ensures wasDrained && event.AllocationRequired? ==> r.Ok?
  {
    var queue := pending;
    var results := results0;
    queues, trace, spawned, releases := queues0, trace0, spawned0, releases0;
    while queue != []
      invariant uow.Valid() && EventsOnly(uow.products.products, {})
      invariant old(uow.products.products) <= uow.products.products
      invariant forall p :: p in uow.products.products ==> p in old(uow.products.products) || fresh(p)
      invariant forall b :: b in BatchesOf(uow.products.products) ==> b in old(BatchesOf(uow.products.products)) || fresh(b)
      invariant LifoRun(event, queues, trace, spawned)
      invariant |queues| == |trace| + 1 && queues[|trace|] == queue
      invariant trace0 <= trace && spawned0 <= spawned && results0 <= results
      invariant Accounted(trace, spawned, results, releases, wasDrained)
      invariant wasDrained && event.AllocationRequired? ==> forall x :: x in queue ==> x.OutOfStock?
      decreases CountRank(queue, 2), CountRank(queue, 1), CountRank(queue, 0)
    {
      var e := queue[|queue| - 1];
      var rest := queue[..|queue| - 1];
      var res, evs;
      ghost var released;
      res, evs, released := TurnEvents(e, uow, outbox);
      LifoRunStep(event, queues, trace, spawned, evs);
      if res.Err? {
        trace := trace + [e];
        r, outcomes := Err(res.error), results;
        return;
      }
      AccountedStep(trace, spawned, results, releases, wasDrained, e, evs, res.value, released);
      trace := trace + [e];
      results := results + [res.value];
      releases := releases + [released];
      ghost var before := queue;
      queue := rest + evs;
      queues := queues + [queue];
      spawned := spawned + [evs];
      TurnShrinksWork(before, evs);
    }
    r, outcomes := Ok(results), results;
  }

  /** `publish_events` as evidently intended, each popped event handed to
      `handle(event, uow)`: the events of the seen products are popped from
      the front and handled, product after product in the set's iteration
      order. The first bus run drains every product, so when no handler
      raises no event is left pending, and every event pending before was
      handled, either popped here or by that run (`handled`); `published`
      lists the popped events, each of which was pending before. */
  method PublishEvents(uow: FakeUnitOfWork, outbox: Handlers.Outbox)
    returns (r: Result<()>, ghost published: seq<Event>, ghost handled: seq<Event>)
    requires uow.Valid()
    modifies uow, uow.products, uow.products.products, BatchesOf(uow.products.products), outbox
    ensures uow.Valid()
    ensures old(uow.products.products) <= uow.products.products
    ensures forall p :: p in uow.products.products ==> p in old(uow.products.products) || fresh(p)
    ensures r.Ok? ==> EventsOnly(uow.products.products, {})
    ensures r.Ok? ==> forall p, x :: p in old(uow.products.products) && x in old(p.events) ==> x in handled
    ensures old(EventsOnly(uow.products.products, {})) ==> r.Ok? && published == [] && handled == []
    ensures forall e :: e in published ==> exists p :: p in old(uow.products.products) && e in old(p.events)
  {
    published, handled := [], [];
    var rest := uow.products.seen;
    while rest != {}
      invariant uow.Valid()
      invariant rest <= old(uow.products.products) <= uow.products.products
      invariant forall p :: p in uow.products.products ==> p in old(uow.products.products) || fresh(p)
      invariant forall b :: b in BatchesOf(uow.products.products) ==> b in old(BatchesOf(uow.products.products)) || fresh(b)
      invariant published == [] ==> uow.products.products == old(uow.products.products) && handled == []
      invariant published == [] ==> forall p :: p in uow.products.products ==> p.events == old(p.events)
      invariant published == [] ==> forall p :: p in uow.products.products && p !in rest ==> p.events == []
      invariant published != [] ==> EventsOnly(uow.products.products, {})
      invariant published != [] ==> forall p, x :: p in old(uow.products.products) && x in old(p.events) ==> x in handled
      invariant old(EventsOnly(uow.products.products, {})) ==> published == []
      invariant forall e :: e in published ==> exists p :: p in old(uow.products.products) && e in old(p.events)
      decreases |rest|
    {
      var p :| p in rest;
      if published != [] {
        NoPendingEvents(uow.products.products, p);
      }
      ghost var popped, ran;
      var res;
      res, popped, ran := PublishProductEvents(p, uow, outbox);
      assert popped != [] ==> published == [] && popped[0] in old(p.events);
      if res.Err? {
        return Err(res.error), published + popped, handled + ran;
      }
      published := published + popped;
      handled := handled + ran;
      rest := rest - {p};
    }
    r := Ok(());
  }

  /** The inner loop of `publish_events` for one product: while it has
      events, the first is popped and handled. The first bus run leaves no
      event pending, so at most one is popped (`popped`); when no handler
      raises, that run (`handled`) handled every event pending before. */
  method PublishProductEvents(p: Product, uow: FakeUnitOfWork, outbox: Handlers.Outbox)
    returns (r: Result<()>, ghost popped: seq<Event>, ghost handled: seq<Event>)
    requires uow.Valid() && p in uow.products.products
    modifies uow, uow.products, uow.products.products, BatchesOf(uow.products.products), outbox
    ensures uow.Valid()
    ensures old(uow.products.products) <= uow.products.products
    ensures forall q :: q in uow.products.products ==> q in old(uow.products.products) || fresh(q)
    ensures forall b :: b in BatchesOf(uow.products.products) ==> b in old(BatchesOf(uow.products.products)) || fresh(b)
    ensures popped == if old(p.events) == [] then [] else [old(p.events)[0]]
    ensures old(p.events) == [] ==> r.Ok? && uow.products.products == old(uow.products.products) && handled == []
    ensures old(p.events) == [] ==> forall q :: q in uow.products.products ==> q.events == old(q.events)
    ensures old(p.events) != [] && r.Ok? ==> EventsOnly(uow.products.products, {})
    ensures old(p.events) != [] && r.Ok? ==>
      forall q, x :: q in old(uow.products.products) && x in old(q.events) ==> x in handled
  {
    popped, handled := [], [];
    r := Ok(());
    while p.events != []
      invariant uow.Valid() && p in uow.products.products
      invariant old(uow.products.products) <= uow.products.products
      invariant forall q :: q in uow.products.products ==> q in old(uow.products.products) || fresh(q)
      invariant forall b :: b in BatchesOf(uow.products.products) ==> b in old(BatchesOf(uow.products.products)) || fresh(b)
      invariant popped == [] ==> p.events == old(p.events) && uow.products.products == old(uow.products.products) && handled == []
      invariant popped == [] ==> forall q :: q in uow.products.products ==> q.events == old(q.events)
      invariant popped != [] ==> old(p.events) != [] && popped == [old(p.events)[0]]
      invariant popped != [] ==> EventsOnly(uow.products.products, {}) && p.events == []
      invariant popped != [] ==> forall q, x :: q in old(uow.products.products) && x in old(q.events) ==> x in handled
      decreases |p.events|
    {
      var e := p.events[0];
      p.events := p.events[1..];
      popped := popped + [e];
      label Popped:
      ghost var queues, trace, spawned, outcomes, releases;
      var res;
      res, queues, trace, spawned, outcomes, releases := Handle(e, uow, outbox);
      handled := trace;
      if res.Err? {
        return Err(res.error), popped, handled;
      }
      forall q, x | q in old(uow.products.products) && x in old(q.events)
        ensures x in handled
      {
        if q == p && x != e {
          assert old(q.events) == [e] + old@Popped(q.events);
        }
      }
      NoPendingEvents(uow.products.products, p);
    }
  }
}
