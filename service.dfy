/**
 * The first service layer (src/allocation/domain/service.py): it works on
 * the list-form batches of a repository of batches and commits through a
 * database session, of which only the number of commits is modelled.
 */
module Service {
  import opened Common
  import opened Allocation
  import opened ListModel
  import opened BatchRepository
  import Handlers
  import Services

  /** The database session; `commit` is counted. */
  class Session {
    var commits: nat

    constructor ()
      ensures commits == 0
    {
      commits := 0;
    }

    method Commit()
      modifies this
      ensures commits == old(commits) + 1
    {
      commits := commits + 1;
    }
  }

  /** `is_valid_sku`: whether the sku is among the skus of the batches. */
  function IsValidSku(sku: string, batches: seq<Batch>): (r: bool)
    ensures r <==> exists k :: 0 <= k < |batches| && batches[k].sku == sku
  {
    sku in (set b | b in batches :: b.sku)
  }

  /** The parameter names of `Batch.__init__` in model.py. */
  const BatchParameters: seq<string> := ["ref", "sku", "qty", "eta"]

  /** The keys of `BatchInput.dict()`: its field names, in declaration order. */
  const BatchInputKeys: seq<string> := ["reference", "sku", "purchased_quantity", "eta"]

  /** The first keyword argument that names no parameter: Python's
      `TypeError` reports it. */
  function FirstUnexpected(keys: seq<string>, params: seq<string>): (r: Option<string>)
    ensures r.None? <==> forall k :: k in keys ==> k in params
    ensures r.Some? ==> r.value in keys && r.value !in params
  {
    if keys == [] then None
    else if keys[0] !in params then Some(keys[0])
    else FirstUnexpected(keys[1..], params)
  }

  /** The message of that `TypeError`. */
  function UnexpectedKeywordMessage(key: string): string {
    "__init__() got an unexpected keyword argument '" + key + "'"
  }

  /** `model.Batch(**dto.dict())` cannot bind its first key: model.py's
      `Batch` takes `ref` and `qty`, not `reference` and `purchased_quantity`. */
  lemma BatchInputKeysRejected()
    ensures FirstUnexpected(BatchInputKeys, BatchParameters) == Some("reference")
    ensures forall k :: k in ["reference", "purchased_quantity"] ==> k in BatchInputKeys && k !in BatchParameters
  {
  }

  /** `add_batch(dto, repo, session)` as written: the keyword call raises
      `TypeError` before the repository or the session is touched. */
  method AddBatchAsWritten(dto: Services.BatchInput, repo: FakeRepository, session: Session) returns (r: Result<()>)
    ensures r == Err(TypeError(UnexpectedKeywordMessage("reference")))
  {
    var bad := FirstUnexpected(BatchInputKeys, BatchParameters);
    BatchInputKeysRejected();
    r := Err(TypeError(UnexpectedKeywordMessage(bad.value)));
  }

  /** `add_batch` as intended: the batch is built from the DTO's reference,
      sku, quantity and eta, added to the repository, and the session
      commits once; afterwards the repository holds a batch with that
      reference, and it is the new one unless the reference was taken. */
  method AddBatch(dto: Services.BatchInput, repo: FakeRepository, session: Session) returns (batch: Batch)
    requires repo.Valid()
    modifies repo, session
    ensures repo.Valid()
    ensures session.commits == old(session.commits) + 1
    ensures fresh(batch) && batch.reference == dto.reference && batch.sku == dto.sku
    ensures batch.purchasedQuantity == dto.purchasedQuantity && batch.eta == dto.eta
    ensures exists b :: b in repo.batches && b.reference == dto.reference
    ensures (forall b :: b in old(repo.batches) ==> b.reference != dto.reference) ==> repo.batches == old(repo.batches) + {batch}
    ensures (exists b :: b in old(repo.batches) && b.reference == dto.reference) ==> repo.batches == old(repo.batches)
  {
    batch := new Batch(dto.reference, dto.sku, dto.purchasedQuantity, dto.eta);
    repo.Add(batch);
    session.Commit();
  }

  /** `allocate(dto, repo, session)`: an unknown sku raises
      `InvalidSkuException` before anything changes; otherwise the list
      allocator runs over `repo.list()` (`listed`), and the session commits
      only when it returns a reference; its `OutOfStockError` propagates
      without a commit. */
  method Allocate(dto: Services.OrderLineInput, repo: FakeRepository, session: Session)
    returns (r: Result<string>, ghost listed: seq<Batch>)
    modifies session, repo.batches
    ensures repo.batches == old(repo.batches)
    ensures forall b :: b in listed <==> b in repo.batches
    ensures old(allocated(listed))
    ensures r == Err(InvalidSku(Handlers.InvalidSkuMessage(dto.sku))) <==>
      forall b :: b in repo.batches ==> b.sku != dto.sku
    ensures r.Err? ==> session.commits == old(session.commits)
    ensures r.Err? ==> forall b :: b in repo.batches ==> b.allocations == old(b.allocations)
    ensures r.Ok? ==> session.commits == old(session.commits) + 1
    ensures r.Ok? ==> var line := OrderLine(dto.sku, dto.orderId, dto.qty);
      var chosen := old(PreferredIndex(Etas(listed), FitMask(listed, line)));
      && chosen.Some? && chosen.value < |listed|
      && r.value == listed[chosen.value].reference
      && listed[chosen.value].allocations == old(listed[chosen.value].allocations) + {line}
      && forall b :: b in repo.batches && b != listed[chosen.value] ==> b.allocations == old(b.allocations)
    ensures r.Err? ==>
      r.error == InvalidSku(Handlers.InvalidSkuMessage(dto.sku)) || r.error == OutOfStockError(OutOfStockMessage(dto.sku))
    ensures r.Ok? <==> exists b :: b in repo.batches && old(b.Fits(OrderLine(dto.sku, dto.orderId, dto.qty)))
    ensures r.Err? && r.error.OutOfStockError? ==>
      && r.error == OutOfStockError(OutOfStockMessage(dto.sku))
      && forall b :: b in repo.batches ==> !old(b.Fits(OrderLine(dto.sku, dto.orderId, dto.qty)))
  {
    var batches := repo.List();
    listed := batches;
    assert forall b :: b in batches ==> b in old(repo.batches);
    assert forall b :: b in old(repo.batches) ==> old(allocated(b));
    if !IsValidSku(dto.sku, batches) {
      return Err(InvalidSku(Handlers.InvalidSkuMessage(dto.sku))), listed;
    }
    var line := OrderLine(dto.sku, dto.orderId, dto.qty);
    PreferredIsEarliestFit(batches, line);
    ghost var chosen;
    r, chosen := ListModel.Allocate(line, batches);
    if r.Ok? {
      session.Commit();
    }
  }
}
