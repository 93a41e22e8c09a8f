/**
 * The in-memory repository of the first iteration (repository.py): a set
 * of list-form batches. Because those batches compare and hash by
 * reference, the set never holds two batches with one reference.
 */
module BatchRepository {
  import opened Common
  import opened ListModel

  /** No two stored batches share a reference. */
  ghost predicate UniqueReferences(bs: set<Batch>) {
    forall a, b :: a in bs && b in bs && a.reference == b.reference ==> a == b
  }

  class FakeRepository {
    var batches: set<Batch>

    ghost predicate Valid()
      reads this
    {
      UniqueReferences(batches)
    }

    /** `FakeRepository(batches)`: stores a copy of the given set. */
    constructor (batches: set<Batch>)
      requires UniqueReferences(batches)
      ensures this.batches == batches && Valid()
    {
      this.batches := batches;
    }

    /** `add`: a batch whose reference is already stored is equal to the
        stored one, so the set keeps the stored batch. */
    method Add(batch: Batch)
      requires Valid()
      modifies this
      ensures Valid()
      ensures (exists b :: b in old(batches) && b.reference == batch.reference) ==> batches == old(batches)
      ensures (forall b :: b in old(batches) ==> b.reference != batch.reference) ==> batches == old(batches) + {batch}
      ensures exists b :: b in batches && b.reference == batch.reference
    {
      if !exists b :: b in batches && b.reference == batch.reference {
        batches := batches + {batch};
      }
    }

    /** `get`: some stored batch with that reference, or `StopIteration`
        from the exhausted generator. */
    method Get(reference: string) returns (r: Result<Batch>)
      ensures r.Ok? ==> r.value in batches && r.value.reference == reference
      ensures r.Err? <==> forall b :: b in batches ==> b.reference != reference
      ensures r.Err? ==> r.error == StopIteration
    {
      var rest := batches;
      while rest != {}
        invariant rest <= batches
        invariant forall b :: b in batches - rest ==> b.reference != reference
        decreases |rest|
      {
        var b :| b in rest;
        if b.reference == reference {
          return Ok(b);
        }
        rest := rest - {b};
      }
      return Err(StopIteration);
    }

    /** `list`: every stored batch once, in the set's iteration order. */
    method List() returns (r: seq<Batch>)
      ensures forall b :: b in r <==> b in batches
      ensures |r| == |batches|
      ensures forall i, j :: 0 <= i < j < |r| ==> r[i] != r[j]
    {
      r := [];
      var rest := batches;
      while rest != {}
        invariant rest <= batches
        invariant forall b :: b in r <==> b in batches - rest
        invariant forall i, j :: 0 <= i < j < |r| ==> r[i] != r[j]
        invariant forall i :: 0 <= i < |r| ==> r[i] !in rest
        invariant |r| + |rest| == |batches|
        decreases |rest|
      {
        var b :| b in rest;
        r := r + [b];
        rest := rest - {b};
      }
    }
  }

  /** After `add(b)`, `get(b.reference)` finds a batch with that reference. */
  method AddThenGet(repo: FakeRepository, batch: Batch) returns (r: Result<Batch>)
    requires repo.Valid()
    modifies repo
    ensures repo.Valid()
    ensures r.Ok? && r.value.reference == batch.reference
  {
    repo.Add(batch);
    r := repo.Get(batch.reference);
  }
}
