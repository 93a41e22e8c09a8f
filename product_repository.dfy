/**
 * The in-memory product repository (`FakeRepository` in
 * src/allocation/repositories/sqlalchemy_repository.py). It defines the
 * protected `_add`, `_get` and `_get_by_batchref`, while its base class
 * `AbstractRepository` declares `add`, `get` and `list` abstract, so as
 * written the class cannot be instantiated (`NewFakeRepositoryAsWritten`).
 * The class below is the evidently intended one: the public `add`, `get`
 * and `get_by_batchref` that the handlers call delegate to the protected
 * operations and record every product they add or return in `seen`, the
 * set the unit of work drains.
 */
module ProductRepository {
  import opened Common
  import opened Aggregate

  /** The methods `AbstractRepository` declares abstract, in declaration order. */
  const AbstractMethods: seq<string> := ["add", "get", "list"]

  /** The methods `FakeRepository` defines. */
  const FakeRepositoryMethods: set<string> := {"__init__", "_add", "_get", "_get_by_batchref"}

  /** Those of the abstract methods `declared` that a subclass defining
      `defined` leaves without an implementation, in declaration order. */
  function Unimplemented(declared: seq<string>, defined: set<string>): (r: seq<string>)
    ensures forall m :: m in r <==> m in declared && m !in defined
    ensures |r| <= |declared|
  {
    if declared == [] then []
    else (if declared[0] in defined then [] else [declared[0]]) + Unimplemented(declared[1..], defined)
  }

  /** The names joined by ", ". */
  function JoinNames(names: seq<string>): string {
    if |names| == 0 then ""
    else if |names| == 1 then names[0]
    else names[0] + ", " + JoinNames(names[1..])
  }

  /** The message of the `TypeError` that `abc` raises for class `cls`
      (the names sorted, which for `add`, `get`, `list` is their order). */
  function AbstractClassMessage(cls: string, missing: seq<string>): string {
    "Can't instantiate abstract class " + cls + " with abstract methods " + JoinNames(missing)
  }

  /** `FakeRepository` implements none of the abstract methods. */
  lemma FakeRepositoryLeavesAllAbstract()
    ensures Unimplemented(AbstractMethods, FakeRepositoryMethods) == AbstractMethods
  {
    assert "add" !in FakeRepositoryMethods && "get" !in FakeRepositoryMethods && "list" !in FakeRepositoryMethods;
    assert Unimplemented(["list"], FakeRepositoryMethods) == ["list"];
    assert Unimplemented(["get", "list"], FakeRepositoryMethods) == ["get", "list"];
  }

  /** `FakeRepository(products)` as written: the class leaves abstract
      methods unimplemented, so the call raises `TypeError` before
      `__init__` runs, and so does `FakeUnitOfWork()`, which builds one. */
  function NewFakeRepositoryAsWritten(): (r: Result<()>)
    ensures r.Err? <==> exists m :: m in AbstractMethods && m !in FakeRepositoryMethods
    ensures r == Err(TypeError(AbstractClassMessage("FakeRepository", AbstractMethods)))
  {
    var missing := Unimplemented(AbstractMethods, FakeRepositoryMethods);
    FakeRepositoryLeavesAllAbstract();
    if missing == [] then Ok(()) else Err(TypeError(AbstractClassMessage("FakeRepository", missing)))
  }

  class FakeRepository {
    var products: set<Product>
    var seen: set<Product>

    /** `FakeRepository(products)`: stores a copy of the given set. */
    constructor (products: set<Product>)
      ensures this.products == products && seen == {}
    {
      this.products := products;
      seen := {};
    }

    /** `_add`. */
    method Store(product: Product)
      modifies this
      ensures products == old(products) + {product} && seen == old(seen)
    {
      products := products + {product};
    }

    /** `_get`: some stored product with that sku, or `None`. */
    method Lookup(sku: string) returns (r: Option<Product>)
      ensures r.Some? ==> r.value in products && r.value.sku == sku
      ensures r.None? <==> forall p :: p in products ==> p.sku != sku
    {
      var rest := products;
      while rest != {}
        invariant rest <= products
        invariant forall p :: p in products - rest ==> p.sku != sku
        decreases |rest|
      {
        var p :| p in rest;
        if p.sku == sku {
          return Some(p);
        }
        rest := rest - {p};
      }
      return None;
    }

    /** `_get_by_batchref`: some stored product owning a batch with that id, or `None`. */
    method LookupByBatchRef(ref: string) returns (r: Option<Product>)
      ensures r.Some? ==> r.value in products && r.value.HasBatch(ref)
      ensures r.None? <==> forall p :: p in products ==> !p.HasBatch(ref)
    {
      var rest := products;
      while rest != {}
        invariant rest <= products
        invariant forall p :: p in products - rest ==> !p.HasBatch(ref)
        decreases |rest|
      {
        var p :| p in rest;
        if p.HasBatch(ref) {
          return Some(p);
        }
        rest := rest - {p};
      }
      return None;
    }

    /** `add`. */
    method Add(product: Product)
      modifies this
      ensures products == old(products) + {product}
      ensures seen == old(seen) + {product}
    {
      Store(product);
      seen := seen + {product};
    }

    /** `get`. */
    method Get(sku: string) returns (r: Option<Product>)
      modifies this
      ensures products == old(products)
      ensures r.Some? ==> r.value in products && r.value.sku == sku
      ensures r.None? <==> forall p :: p in products ==> p.sku != sku
      ensures seen == old(seen) + (if r.Some? then {r.value} else {})
    {
      r := Lookup(sku);
      if r.Some? {
        seen := seen + {r.value};
      }
    }

    /** `get_by_batchref`. */
    method GetByBatchRef(ref: string) returns (r: Option<Product>)
      modifies this
      ensures products == old(products)
      ensures r.Some? ==> r.value in products && r.value.HasBatch(ref)
      ensures r.None? <==> forall p :: p in products ==> !p.HasBatch(ref)
      ensures seen == old(seen) + (if r.Some? then {r.value} else {})
    {
      r := LookupByBatchRef(ref);
      if r.Some? {
        seen := seen + {r.value};
      }
    }
  }
}
