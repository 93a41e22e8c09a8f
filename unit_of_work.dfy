/**
 * The unit of work of the event-driven service layer
 * (src/allocation/domain/service/unit_of_work.py), in its in-memory form
 * `FakeUnitOfWork`: a product repository, a `committed` flag, a rollback
 * that does nothing, and the draining of the events that the products it
 * has seen have recorded.
 */
module UnitOfWork {
  import opened Common
  import opened Events
  import opened Aggregate
  import opened ProductRepository

  /** The events `pending` records for the products of `order`, product
      after product, each product's in the order it recorded them. */
  function Drained(order: seq<Product>, pending: map<Product, seq<Event>>): seq<Event>
    requires forall p :: p in order ==> p in pending
  {
    if order == [] then [] else Drained(order[..|order| - 1], pending) + pending[order[|order| - 1]]
  }

  /** Every event pending on a drained product is among the drained events. */
  lemma {:induction false} DrainedCovers(order: seq<Product>, pending: map<Product, seq<Event>>, p: Product, x: Event)
    requires forall q :: q in order ==> q in pending
    requires p in order && x in pending[p]
    ensures x in Drained(order, pending)
  {
    var init := order[..|order| - 1];
    assert forall q :: q in init ==> q in order;
    if p != order[|order| - 1] {
      assert p in init;
      DrainedCovers(init, pending, p, x);
    }
  }

  /** When no product of `order` but `t` has a pending event, draining
      yields exactly the events of `t`, or nothing when `t` is not drained. */
  lemma {:induction false} DrainedOnly(order: seq<Product>, pending: map<Product, seq<Event>>, t: Option<Product>)
    requires forall q :: q in order ==> q in pending
    requires forall i, j :: 0 <= i < j < |order| ==> order[i] != order[j]
    requires forall q :: q in order && Some(q) != t ==> pending[q] == []
    ensures Drained(order, pending) == if t.Some? && t.value in order then pending[t.value] else []
  {
    if order != [] {
      var init := order[..|order| - 1];
      var last := order[|order| - 1];
      assert forall q :: q in init ==> q in order;
      assert forall q :: q in order ==> q in init || q == last;
      DrainedOnly(init, pending, t);
      if Some(last) == t {
        assert t.value !in init;
      }
    }
  }

  /** The batches of the products `ps`: together with the repository and
      the products themselves, what a handler may change. */
  ghost function BatchesOf(ps: set<Product>): set<Batch>
    reads ps
  {
    set p, b | p in ps && b in p.batches :: b
  }

  /** None of the products `ps` has a pending event whose kind is outside `kinds`. */
  ghost predicate EventsOnly(ps: set<Product>, kinds: set<EventKind>)
    reads ps
  {
    forall p :: p in ps ==> forall e :: e in p.events ==> KindOf(e) in kinds
  }

  /** A product among `ps` has no pending event when none of `ps` has. */
  lemma NoPendingEvents(ps: set<Product>, p: Product)
    requires EventsOnly(ps, {}) && p in ps
    ensures p.events == []
  {
    EmptyOrHasFirst(p.events);
  }

  lemma EmptyOrHasFirst(s: seq<Event>)
    ensures s == [] || s[0] in s
  {
  }

  /** `while product.events: product.events.pop(0)`: the product's pending
      events, oldest first, leaving none behind. */
  method DrainEvents(p: Product) returns (evs: seq<Event>)
    modifies p`events
    ensures evs == old(p.events) && p.events == []
    ensures p.batches == old(p.batches) && p.versionNumber == old(p.versionNumber)
  {
    evs := [];
    while p.events != []
      invariant evs + p.events == old(p.events)
      invariant p.batches == old(p.batches) && p.versionNumber == old(p.versionNumber)
      decreases |p.events|
    {
      var e := p.events[0];
      p.events := p.events[1..];
      evs := evs + [e];
    }
  }

  /** The message of the `TypeError` raised by calling `messagebus.handle`
      without its `uow` argument. */
  const HandleMissingUow := "handle() missing 1 required positional argument: 'uow'"

  class FakeUnitOfWork {
    const products: FakeRepository
    var committed: bool

    /** The seen products are exactly the stored ones (the repository
        starts empty, `add` stores and records what it stores, and the
        lookups record only stored products), and no two stored products
        share a sku. */
    ghost predicate Valid()
      reads this, products
    {
      && products.products <= products.seen && products.seen <= products.products
      && forall p, q :: p in products.products && q in products.products && p.sku == q.sku ==> p == q
    }

    /** `FakeUnitOfWork()`: an empty repository, nothing committed. */
    constructor ()
      ensures Valid() && fresh(products)
      ensures !committed && products.products == {}
    {
      products := new FakeRepository({});
      committed := false;
    }

    /** `__aenter__`. */
    method Enter() returns (u: FakeUnitOfWork)
      ensures u == this
    {
      u := this;
    }

    /** `__aexit__`: always rolls back, committed or not. */
    method Exit()
      ensures committed == old(committed)
    {
      Rollback();
    }

    /** `commit`, which calls `_commit`. */
    method Commit()
      modifies this
      ensures committed
    {
      CommitChanges();
    }

    /** `_commit` of the fake. */
    method CommitChanges()
      modifies this
      ensures committed
    {
      committed := true;
    }

    /** `rollback` of the fake does nothing. */
    method Rollback()
      ensures committed == old(committed)
    {
    }

    /** `collect_new_events`: empties the event list of every seen product,
        in the set's iteration order, taking each list from its front. */
    method CollectNewEvents() returns (evs: seq<Event>, ghost order: seq<Product>, ghost pending: map<Product, seq<Event>>)
      requires Valid()
      modifies products.seen`events
      ensures Valid()
      ensures |order| == |products.seen| && forall p :: p in order <==> p in products.seen
      ensures forall i, j :: 0 <= i < j < |order| ==> order[i] != order[j]
      ensures forall p :: p in products.seen ==> p in pending && pending[p] == old(p.events)
      ensures evs == Drained(order, pending)
      ensures forall e :: e in evs ==> exists p :: p in products.seen && e in old(p.events)
      ensures forall p :: p in products.seen ==> p.events == []
      ensures forall p :: p in products.seen ==> p.batches == old(p.batches) && p.versionNumber == old(p.versionNumber)
    {
      evs, order := [], [];
      pending := map p | p in products.seen :: p.events;
      var rest := products.seen;
      while rest != {}
        invariant rest <= products.seen
        invariant forall p :: p in order <==> p in products.seen - rest
        invariant forall i, j :: 0 <= i < j < |order| ==> order[i] != order[j]
        invariant |order| + |rest| == |products.seen|
        invariant forall p :: p in rest ==> p.events == old(p.events)
        invariant forall p :: p in products.seen - rest ==> p.events == []
        invariant forall p :: p in products.seen ==> p.batches == old(p.batches) && p.versionNumber == old(p.versionNumber)
        invariant forall p :: p in products.seen ==> p in pending && pending[p] == old(p.events)
        invariant evs == Drained(order, pending)
        invariant forall e :: e in evs ==> exists q :: q in products.seen && e in old(q.events)
        decreases |rest|
      {
        var p :| p in rest;
        var taken := DrainEvents(p);
        evs := evs + taken;
        assert (order + [p])[..|order|] == order;
        order := order + [p];
        rest := rest - {p};
      }
    }

    /** `publish_events` as written: it calls `messagebus.handle(event)`
        without the `uow` argument, so the first pending event it pops
        raises `TypeError` and is lost. */
    method PublishEvents() returns (r: Result<()>)
      requires Valid()
      modifies products.seen
      ensures Valid()
      ensures r.Ok? <==> forall p :: p in products.seen ==> old(p.events) == []
      ensures r.Ok? ==> forall p :: p in products.seen ==> p.events == old(p.events)
      ensures r.Err? ==>
        && r.error == TypeError(HandleMissingUow)
        && exists p :: p in products.seen && old(p.events) != [] && p.events == old(p.events)[1..]
              && forall q :: q in products.seen && q != p ==> q.events == old(q.events)
      ensures forall p :: p in products.seen ==> p.batches == old(p.batches) && p.versionNumber == old(p.versionNumber)
    {
      var rest := products.seen;
      while rest != {}
        invariant rest <= products.seen
        invariant forall p :: p in products.seen ==> p.events == old(p.events)
        invariant forall p :: p in products.seen - rest ==> p.events == []
        decreases |rest|
      {
        var p :| p in rest;
        if p.events != [] {
          p.events := p.events[1..];
          return Err(TypeError(HandleMissingUow));
        }
        rest := rest - {p};
      }
      return Ok(());
    }
  }
}
