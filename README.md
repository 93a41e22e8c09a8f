# Allocation domain of allocation-api, in Dafny

This project models the allocation core of the allocation-api service.
That service allocates customer order lines to batches of purchased stock.

- **Allocation rule.** A line goes to the first batch that can take it. Batches are taken in a stable sort by eta, and undated warehouse stock comes first.
- **Two forms of the rule.** The aggregate form is `Product.allocate` in `src/allocation/domain/model/aggregate.py`. It records an `OutOfStock` event on failure and bumps `version_number` on success. The older list form is `allocate(line, batches)` in `model.py`. It raises `OutOfStockError`.
- **Identity rules.** `src/allocation/lib/base_types.py` defines them: entities compare and hash by class and id, and value objects hash over all their fields.
- **Events.** The four domain events are in `src/allocation/domain/model/events.py`. `BatchCreated`'s eta defaults to None, as in the source.
- **Event pipeline.** It has four parts:
  - the handlers of `src/allocation/domain/service/handlers.py`;
  - the LIFO work-list loop `handle` with its handler registry in `messagebus.py`;
  - the in-memory `FakeUnitOfWork`, with `commit`, `rollback` and the event drain `publish_events`;
  - the in-memory product `FakeRepository`.
- **Older service layers.** These are `src/allocation/domain/service/services.py`, `src/allocation/domain/service.py` and the root `repository.py`.

Objects that the source updates in place are Dafny classes, with `modifies` clauses on their methods:

- `Batch` in both forms;
- `Product`;
- both repositories;
- the unit of work;
- the database session.

Order lines and events are datatypes. The allocation rule is stated once, as functions over values, in module `Allocation`. The sort is an insertion sort of batch positions, proved to be a stable sort. The mutable classes are proved against that rule.

A raised exception is a `Result` error carrying the exception type and its message. `None` is `Option.None`. `async`/`await` is ordinary sequential code.

Where the tests and the code disagree, the model follows the code:

- `Product.allocate` returns `None` and records `OutOfStock`; `test_product.py` expects an exception.
- The list-form error is `OutOfStockError`; `test_allocate.py` imports `OutOfStock`.

Modules, one per file:

- `Common` — `Option`, `Result` and the error kinds.
- `Allocation` — the allocation rule and the quantity arithmetic.
- `BaseTypes` — entity and value-object identity.
- `Events`
- `Aggregate` — aggregate `Batch` and `Product`.
- `ListModel` — `model.py`.
- `BatchRepository` — `repository.py`.
- `ProductRepository`
- `UnitOfWork`
- `Handlers`
- `MessageBus`
- `Services` — `services.py`.
- `Service` — `src/allocation/domain/service.py`.

## Model

| member | source | states |
|---|---|---|
| Allocation.EtaGtRules | src/allocation/domain/model/aggregate.py:58-63 | `__gt__` on etas is a strict order: irreflexive, asymmetric and transitive. Two etas are incomparable exactly when they are equal, so only equal etas keep their listed order in the sort. |
| Allocation.BeforeIsStrictTotalOrder | src/allocation/domain/model/aggregate.py:58-63 | The order `sorted` derives from `__gt__`, ties broken by list position, is irreflexive, total on distinct positions and transitive. |
| Allocation.SortPositionsPermutes | src/allocation/domain/model/aggregate.py:151 | The sorted positions are a permutation of the original positions. |
| Allocation.SortedByEtaIsStableSort | src/allocation/domain/model/aggregate.py:151 | `sorted(batches)` is ordered by eta, undated first, and stable among equal etas. Every batch appears in it. |
| Allocation.FirstFitAt | src/allocation/domain/model/aggregate.py:150-152 | `next(...)` yields the first batch in sorted order that can take the line. |
| Allocation.FirstFitNone | src/allocation/domain/model/aggregate.py:150-152 | `next(...)` raises `StopIteration` exactly when no batch can take the line. |
| Allocation.FirstFitPosition | src/allocation/domain/model/aggregate.py:150-152 | The found batch fits, and every batch before it in sorted order does not. |
| Allocation.PreferredIndexIsEarliestFit | src/allocation/domain/model/aggregate.py:149-157 | The chosen batch fits and precedes every other fitting batch in (eta, list position) order. None is chosen exactly when no batch fits. |
| Allocation.PreferredIndexUnique | src/allocation/domain/model/aggregate.py:149-157 | A fitting batch that precedes every other fitting batch is the one chosen. |
| Allocation.WarehouseStockPreferred | src/allocation/domain/model/aggregate.py:58-63 | When an undated batch fits, an undated batch is chosen. |
| Allocation.SumQty | src/allocation/domain/model/aggregate.py:83-90 | The allocated quantity is non-negative, and it is zero exactly when nothing is allocated. |
| Allocation.SumQtyRemove | src/allocation/domain/model/aggregate.py:83-90 | Removing a line from the allocations lowers the sum by that line's qty. |
| Allocation.SumQtyInsert | src/allocation/domain/model/aggregate.py:83-90 | Adding a new line raises the sum by that line's qty. |
| Allocation.SumQuantities | src/allocation/domain/model/aggregate.py:83-90 | The loop over the allocation set computes the sum of the lines' quantities. |
| Allocation.AllocateKeepsStockNonNegative | src/allocation/domain/model/aggregate.py:65-72 | Allocation never drives a non-negative available quantity below zero. |
| Allocation.AllocateTakesQty | src/allocation/domain/model/aggregate.py:65-72 | A fitting new line lowers the available quantity by exactly its qty. |
| Allocation.AllocateNoOp | src/allocation/domain/model/aggregate.py:65-72 | A line that does not fit, or is already allocated, leaves the allocation set unchanged. |
| Allocation.DeallocateReturnsQty | src/allocation/domain/model/aggregate.py:74-81 | Deallocating an allocated line raises the available quantity by its qty. |
| BaseTypes.EntityEqByClassAndId | src/allocation/lib/base_types.py:38-41 | Entities of one class are equal exactly when their ids are equal, and equality is symmetric. |
| BaseTypes.EqualEntitiesHashAlike | src/allocation/lib/base_types.py:35-36 | Equal entities have equal hashes, because the hash reads only class and id. |
| BaseTypes.ValueHashKeyDeterminesFields | src/allocation/lib/base_types.py:13-14 | A value object's hashed tuple determines its type and every field value. |
| Events.ExactlyFourDomainKinds | src/allocation/domain/model/events.py:7-26 | There are exactly four domain event kinds, and every other event type is outside them. |
| Aggregate.OrderLineHashCoversAllFields | src/allocation/domain/model/aggregate.py:16-28 | The `unsafe_hash` tuple is (sku, order_id, qty), with no class item. Two order lines hash the same tuple exactly when they are equal. |
| Aggregate.BatchEqualityIsById | src/allocation/domain/model/aggregate.py:52-56 | Batches are equal exactly when their ids are equal, and equal batches hash alike. |
| Aggregate.PreferredIsEarliestFit | src/allocation/domain/model/aggregate.py:149-152 | Over a product's batches, the chosen batch fits and precedes every other fitting batch. None is chosen exactly when none fits. |
| Aggregate.ProductPrefersWarehouseStock | src/allocation/domain/model/aggregate.py:149-152 | When an undated batch of the product can take the line, the product picks an undated batch. |
| Aggregate.Batch.constructor | src/allocation/domain/model/aggregate.py:31-47 | A new batch has the given id, sku, eta and purchased quantity, and an empty allocation set. |
| Aggregate.Batch.AllocatedQuantity | src/allocation/domain/model/aggregate.py:83-90 | The result is the sum of qty over the allocation set, and it is zero exactly when the set is empty. |
| Aggregate.Batch.AvailableQuantity | src/allocation/domain/model/aggregate.py:92-99 | The result is the purchased quantity minus the allocated sum. |
| Aggregate.Batch.CanAllocate | src/allocation/domain/model/aggregate.py:101-111 | The result is true exactly when the skus match and the available quantity is at least the line's qty. |
| Aggregate.Batch.Allocate | src/allocation/domain/model/aggregate.py:65-72 | A fitting line is added to the allocation set; otherwise nothing changes. Re-allocating a line changes nothing, and a non-negative availability stays non-negative. |
| Aggregate.Batch.Deallocate | src/allocation/domain/model/aggregate.py:74-81 | The line is removed if present, returning its qty to the available stock. An absent line is a no-op. |
| Aggregate.Batch.ReleaseExcess | tests/src/allocation/domain/test_handlers.py:147-177 | Only allocated lines are released, each once, and only while the batch is over-allocated. None is released when it was not. Afterwards a batch of non-negative quantity is not over-allocated. |
| Aggregate.Product.constructor | src/allocation/domain/model/aggregate.py:114-128 | A new product has the given sku and batches, version 0 and no events. |
| Aggregate.Product.AddBatch | src/allocation/domain/model/aggregate.py:133-134 | The batch is appended; version and events are unchanged. |
| Aggregate.Product.UpdateVersion | src/allocation/domain/model/aggregate.py:162-163 | The version number goes up by exactly 1, and nothing else changes. |
| Aggregate.Product.FindBatch | src/allocation/domain/model/aggregate.py:150-152 | The loop over the eta-sorted batches returns the earliest batch that fits, by the allocation rule. |
| Aggregate.Product.Allocate | src/allocation/domain/model/aggregate.py:136-160 | See the paragraph below the table. |
| Aggregate.Product.ChangeBatchQuantity | tests/src/allocation/domain/test_handlers.py:118-177 | See the paragraph below the table. |
| ListModel.Batch.constructor | model.py:37-42 | A new batch has the given reference, sku, eta and quantity, and no allocations. |
| ListModel.Batch.AllocatedQuantity | model.py:70-72 | The result is the sum of the allocated lines' quantities, and it is zero exactly when there are none. |
| ListModel.Batch.AvailableQuantity | model.py:74-76 | The result is the purchased quantity minus the allocated sum. |
| ListModel.Batch.CanAllocate | model.py:78-79 | The result is true exactly when the skus match and the line's qty fits the available quantity. |
| ListModel.Batch.Allocate | model.py:62-64 | The line is added only when it fits; otherwise the set is unchanged. A fitting new line takes exactly its qty. |
| ListModel.Batch.Deallocate | model.py:66-68 | The line is removed if present, returning its qty. An absent line is a no-op. |
| ListModel.BatchIdentityIsReference | model.py:47-53 | Equality is symmetric and holds exactly for equal references. Equal batches hash alike. |
| ListModel.PreferredIsEarliestFit | model.py:84 | The chosen batch fits and precedes every other fitting batch. None is chosen exactly when none fits. |
| ListModel.FindBatch | model.py:84 | The loop over `sorted(batches)` returns the earliest fitting batch of the allocation rule. |
| ListModel.Allocate | model.py:82-88 | See the paragraph below the table. |
| BatchRepository.FakeRepository.constructor | repository.py:35-37 | The repository holds a copy of exactly the given batches. |
| BatchRepository.FakeRepository.Add | repository.py:39-40 | The batch is added, unless a batch with its reference is already stored; then the set is unchanged, because equality is by reference. |
| BatchRepository.FakeRepository.Get | repository.py:42-43 | The result is a stored batch with that reference. `StopIteration` is raised exactly when none is stored. |
| BatchRepository.FakeRepository.List | repository.py:45-46 | The result lists every stored batch exactly once. |
| BatchRepository.AddThenGet | repository.py:39-43 | After `add(b)`, `get(b.reference)` returns a batch with that reference. |
| ProductRepository.FakeRepositoryLeavesAllAbstract | src/allocation/repositories/abstract.py:7-18 | None of the methods `AbstractRepository` declares abstract (`add`, `get`, `list`) is among those `FakeRepository` defines. |
| ProductRepository.NewFakeRepositoryAsWritten | src/allocation/repositories/sqlalchemy_repository.py:36-39 | As written, `FakeRepository(products)` fails exactly because an abstract method is unimplemented. It raises `TypeError("Can't instantiate abstract class FakeRepository with abstract methods add, get, list")`. |
| ProductRepository.FakeRepository.constructor | src/allocation/repositories/sqlalchemy_repository.py:37-39 | The repository holds a copy of the given products, and nothing is seen yet. |
| ProductRepository.FakeRepository.Store | src/allocation/repositories/sqlalchemy_repository.py:41-42 | `_add` inserts the product into the set. |
| ProductRepository.FakeRepository.Lookup | src/allocation/repositories/sqlalchemy_repository.py:44-47 | `_get` returns a stored product of that sku. It returns None exactly when there is none. |
| ProductRepository.FakeRepository.LookupByBatchRef | src/allocation/repositories/sqlalchemy_repository.py:49-55 | `_get_by_batchref` returns a stored product owning a batch with that id. It returns None exactly when none does. |
| ProductRepository.FakeRepository.Add | src/allocation/repositories/sqlalchemy_repository.py:41-42 | The public `add` stores the product and records it as seen. |
| ProductRepository.FakeRepository.Get | src/allocation/repositories/sqlalchemy_repository.py:44-47 | The public `get` is `_get`, and it records a found product as seen. |
| ProductRepository.FakeRepository.GetByBatchRef | src/allocation/repositories/sqlalchemy_repository.py:49-55 | The public `get_by_batchref` is `_get_by_batchref`, and it records a found product as seen. |
| UnitOfWork.DrainedCovers | src/allocation/domain/service/unit_of_work.py:35-37 | Draining the seen products in order collects every event pending on any of them. |
| UnitOfWork.DrainedOnly | src/allocation/domain/service/unit_of_work.py:35-37 | When at most one product had events, draining collects exactly that product's events. |
| UnitOfWork.DrainEvents | src/allocation/domain/service/unit_of_work.py:36-37 | `while product.events: pop(0)` yields the pending events oldest first and leaves none. |
| UnitOfWork.FakeUnitOfWork.constructor | src/allocation/domain/service/unit_of_work.py:73-76 | A new unit of work has an empty repository and nothing committed. |
| UnitOfWork.FakeUnitOfWork.Enter | src/allocation/domain/service/unit_of_work.py:25-26 | `__aenter__` returns the unit of work itself. |
| UnitOfWork.FakeUnitOfWork.Exit | src/allocation/domain/service/unit_of_work.py:28-29 | `__aexit__` always rolls back, and the fake keeps `committed` as it was. |
| UnitOfWork.FakeUnitOfWork.Commit | src/allocation/domain/service/unit_of_work.py:31-32 | `commit` delegates to `_commit`, after which `committed` holds. |
| UnitOfWork.FakeUnitOfWork.CommitChanges | src/allocation/domain/service/unit_of_work.py:78-79 | The fake's `_commit` sets `committed`. |
| UnitOfWork.FakeUnitOfWork.Rollback | src/allocation/domain/service/unit_of_work.py:81-82 | The fake's `rollback` changes nothing. |
| UnitOfWork.FakeUnitOfWork.CollectNewEvents | src/allocation/domain/service/unit_of_work.py:34-38 | Every seen product's pending events are returned, concatenated product by product with each list oldest first. Every seen product is left with no events, and batches and versions are untouched. |
| UnitOfWork.FakeUnitOfWork.PublishEvents | src/allocation/domain/service/unit_of_work.py:34-38 | As written, given the repository's `seen` (see "## Left out"). It succeeds exactly when no seen product has an event. Otherwise it fails with `TypeError` after popping the first event of one product; the other products are untouched. |
| Handlers.AddBatch | src/allocation/domain/service/handlers.py:16-38 | See the paragraph below the table. |
| Handlers.AddToFound | src/allocation/domain/service/handlers.py:31-38 | The `async with uow` block after the lookup. The batch is appended to the found product, or to a new product of its sku with version 0 and no events. A found product keeps its earlier batches, events and version. The product is stored and the work committed, and every product of another sku is unchanged. |
| Handlers.ReallocationsRoundTrip | src/allocation/domain/service/handlers.py:57-59 | Each `AllocationRequired` event that re-submits a released line has a positive qty, and `allocate` builds exactly that line from it, in release order. Two lists of released lines give the same events exactly when they are equal. |
| Handlers.Allocate | src/allocation/domain/service/handlers.py:41-66 | A non-positive qty fails validation before anything changes. Otherwise it is `Handlers.AllocateLine`: the batch the allocation rule prefers in the sku's product gains the line and its id is returned. Every other batch keeps its allocations, and every other product its events and version. |
| Handlers.AllocateLine | src/allocation/domain/service/handlers.py:60-66 | See the paragraph below the table. |
| Handlers.AllocateFound | src/allocation/domain/service/handlers.py:61-66 | The branch on the looked-up product. None raises `InvalidSkuException` with nothing changed. A found product allocates the line: the preferred batch gains it, and every other batch and product is left as it was. |
| Handlers.AllocateStored | src/allocation/domain/service/handlers.py:64-65 | `product.allocate` followed by `commit`. The result is the preferred batch id, and that batch's allocations gain the line. When no batch fits, None is returned with an `OutOfStock` event. Every other batch keeps its allocations. The version goes up only on success, and only `OutOfStock` events become pending. |
| Handlers.ChangeBatchQuantity | src/allocation/domain/service/handlers.py:69-90 | See the paragraph below the table. |
| Handlers.ChangeFound | src/allocation/domain/service/handlers.py:84-90 | The lookup by batch reference and the branch on its result. An unknown ref raises `InvalidBatchReferenceException` with nothing changed. Otherwise the batch with that ref is resized (`Resized`), and every other batch and product is left as it was. |
| Handlers.ChangeQuantityStored | src/allocation/domain/service/handlers.py:89-90 | `change_batch_quantity` on the product, then `commit`. The batch with that ref is resized (`Resized`): it holds the new quantity, keeps exactly its earlier lines that were not released, and releases a line only while over-allocated. Its available quantity is then non-negative. The released lines became events. Every other batch and product is unchanged. |
| Handlers.ResizedKeepsCoveredLines | tests/src/allocation/domain/test_handlers.py:118-144 | A resize to at least the allocated total releases nothing and keeps every line. The available quantity is the new quantity minus the allocated total, so a batch with no allocations resized to 50 has 50 available. |
| Handlers.SendOutOfStockNotification | src/allocation/domain/service/handlers.py:93-108 | Exactly one mail is sent: to `stock@made.com`, with body "Out of stock for <sku>". |
| MessageBus.Raised | src/allocation/domain/service/messagebus.py:25-27 | What a handler leaves pending when nothing was pending before. `allocate` records `OutOfStock(sku)` exactly when no batch took the line. `change_batch_quantity` records one `AllocationRequired` per released line, in release order. The other handlers record nothing. Every raised event ranks below the handled one. |
| MessageBus.OneHandlerPerKind | src/allocation/domain/service/messagebus.py:7-15 | The registry has exactly the four domain event types, each with exactly one handler for that type. |
| MessageBus.SpawnsRankLower | src/allocation/domain/service/messagebus.py:25-27 | A handler only leaves events of a lower rank than the event it handled. |
| MessageBus.TurnShrinksWork | src/allocation/domain/service/messagebus.py:23-27 | Popping an event and appending lower-ranked events shrinks the work list in the lexicographic rank count. This makes the `while queue` loop terminate. |
| MessageBus.LifoRunStep | src/allocation/domain/service/messagebus.py:24-27 | Each step pops the last event of the work list and appends the collected events after the rest. |
| MessageBus.QueuedIsPopped | src/allocation/domain/service/messagebus.py:23-24 | In a run that ends with an empty work list, an event waiting in the list before step i is popped at step i or later. |
| MessageBus.SpawnedIsPopped | src/allocation/domain/service/messagebus.py:23-27 | In a run that ends with an empty work list, every event a turn collected is popped and handled. |
| MessageBus.AccountedStep | src/allocation/domain/service/messagebus.py:24-27 | A successful turn extends the run's record: its result, its released lines and its collected events. The collected events are those `Raised` names, except in the first turn when events were already pending. |
| MessageBus.Dispatch | src/allocation/domain/service/messagebus.py:25-26 | See the paragraph below the table. |
| MessageBus.Turn | src/allocation/domain/service/messagebus.py:24-27 | See the paragraph below the table. |
| MessageBus.CollectRaised | src/allocation/domain/service/messagebus.py:27 | `uow.collect_new_events()` collects every event pending on a stored product and leaves none. When only one product had events, exactly its events are collected. Batches and versions are untouched. |
| MessageBus.OutcomeOfAllocation | src/allocation/domain/service/handlers.py:41-66 | What an `AllocationRequired` turn returns, given the stored products before it. It succeeds exactly when the qty is positive and a product of the sku exists. Otherwise the error is `ValidationError("qty")` for a non-positive qty, else `InvalidSkuException("Invalid sku <sku>")`. On success the result is the reference the allocation rule picks in the sku's product. |
| MessageBus.TurnEvents | src/allocation/domain/service/messagebus.py:24-27 | The turn as the loop sees it: the result, the collected events and the released lines, with the same clauses as `MessageBus.Turn`. The result is the outcome that the stored products before the turn decide (`MessageBus.OutcomeOfAllocation` spells it out for `allocate`). |
| MessageBus.FirstPass | src/allocation/domain/service/messagebus.py:22-27 | The first pass of `while queue` on the work list `[event]`. Its result is the outcome the products on entry decide for the triggering event. For `AllocationRequired`, that is the reference the allocation rule picks. A failure ends the run after this one turn. On success the work list is the collected events, and when nothing was pending on entry an allocate trigger can only leave `OutOfStock` events. |
| MessageBus.RunQueue | src/allocation/domain/service/messagebus.py:23-27 | The remaining passes of `while queue`. The run record (work lists, popped events, collected events, results, released lines) only grows. On success the work list ends empty and the results are the recorded ones. A failure happens at a turn after the first. An allocate trigger whose pending events are all `OutOfStock` always ends in success, because the notification handler cannot fail. |
| MessageBus.Handle | src/allocation/domain/service/messagebus.py:18-28 | See the paragraph below the table. |
| MessageBus.PublishEvents | src/allocation/domain/service/unit_of_work.py:34-38 | See the paragraph below the table. |
| MessageBus.PublishProductEvents | src/allocation/domain/service/unit_of_work.py:36-38 | The product's oldest event is popped and handled. On success no event is left pending, and every event pending before, on any product, was handled by that run. A product without events is a no-op. |
| Services.AddBatch | src/allocation/domain/service/services.py:13-35 | A fresh batch built from the DTO is appended to the sku's product, which is created if absent, with version 0 and no events. The product is stored and the work committed. An existing product keeps its earlier batches, events and version, and every product of another sku is unchanged. |
| Services.Allocate | src/allocation/domain/service/services.py:38-61 | An unknown sku raises `InvalidSkuException` with nothing changed or committed. Otherwise the work is committed and `Product.allocate`'s result is returned: the preferred batch gains the line, and every other batch keeps its allocations. |
| Service.IsValidSku | src/allocation/domain/service.py:18-28 | True exactly when some batch in the list has the sku. |
| Service.BatchInputKeysRejected | src/allocation/domain/service.py:31-37 | The first key of `BatchInput.dict()` is not a parameter of `model.Batch`. Neither `reference` nor `purchased_quantity` is. |
| Service.AddBatchAsWritten | src/allocation/domain/service.py:31-37 | As written, `add_batch` always raises `TypeError` for `reference`, before the repository or the session is touched. |
| Service.AddBatch | src/allocation/domain/service.py:31-37 | Corrected. Exactly one batch, built from the DTO, is added unless its reference is already stored. The session commits once. |
| Service.Allocate | src/allocation/domain/service.py:40-61 | See the paragraph below the table. |

Contracts too long for a table cell:

- **Aggregate.Product.Allocate.** On success, the line goes to the batch the allocation rule picks, and that batch's id is returned. Only that batch changes: it loses the line's qty if the line was new. The version goes up by exactly 1, and no event is recorded. When no batch fits, `OutOfStock(sku)` is appended to the events and None is returned. Batches and version are then unchanged.
- **Aggregate.Product.ChangeBatchQuantity.** The batch now holds `qty`. The lines it can no longer cover are deallocated, each once, and only while it is over-allocated. Each released line is appended as an `AllocationRequired` event with its order id, sku and qty. The other batches and the version are unchanged.
- **ListModel.Allocate.** The line goes to the earliest fitting batch in eta order, undated first, and that batch's reference is returned. The batch gains the line and no other batch changes. When none fits, it fails with "Out of stock for sku <sku>" and no batch changes.
- **Handlers.AddBatch.** A fresh batch built from the event is appended to the sku's product. When there is none, a product is created with only that batch, version 0 and no events. The product is stored and the work is committed. An existing product keeps its earlier batches, its events and its version, and products of other skus are untouched.
- **MessageBus.Dispatch.**
  - Running a registered handler keeps the unit of work valid, and no event already pending is lost.
  - When nothing was pending, each product holds exactly the events that `Raised` names for the product the handler changed, and no other product holds any.
  - For `allocate` on the stored product of the sku, the result is the reference the allocation rule picks. That batch (`chosen`) gains the line.
  - A resized batch (`changed`) satisfies `Resized`.
  - Every other batch that existed before keeps its allocations and its quantity.
  - Only `allocate` returns a value, and only `allocate` and `change_batch_quantity` can fail.
  - `allocate` succeeds exactly when the qty is positive and a product of the sku is stored. Otherwise it fails with `ValidationError("qty")` for a non-positive qty, else with `InvalidSkuException("Invalid sku <sku>")`.
  - `change_batch_quantity` fails exactly when no stored product holds the ref, and then with `InvalidBatchReferenceException("Invalid Batch reference <ref>")`.
- **Handlers.AllocateLine.**
  - An unknown sku raises `InvalidSkuException("Invalid sku <sku>")`. Nothing changes and nothing is committed.
  - Otherwise the sku's product allocates the line, and the work is committed even when the result is None.
  - The result is the preferred batch id, and that batch's allocations gain the line.
  - Every other batch keeps its allocations.
  - The version and events of the product move as `Product.allocate` says. Every other product keeps its events and version.
- **Handlers.ChangeBatchQuantity.**
  - A ref that no stored product holds raises `InvalidBatchReferenceException("Invalid Batch reference <ref>")`. Nothing changes then.
  - Otherwise the batch with that ref satisfies `Resized`: it holds the new qty, and it keeps exactly its earlier lines that were not released.
  - Each released line was allocated before and was needed to end the over-allocation. Nothing is released when the new qty covers the allocated total. Afterwards a non-negative qty leaves a non-negative available quantity.
  - Released lines are appended as `AllocationRequired` events.
  - Every other batch keeps its quantity and allocations, and every other product its events. The work is committed, and no version changes.
- **MessageBus.Turn.** It takes one popped event. An unregistered type raises `KeyError`. Otherwise the handler runs and the seen products' events are collected. On success no product has pending events, and every event pending before the turn is among the collected ones. When nothing was pending before the turn, the collected events are exactly those `Raised` names, so each ranks below the handled one. The batch effects are `MessageBus.Dispatch`'s. A successful `AllocationRequired` turn means the sku's product existed, and the result is the reference the allocation rule picks in it, whose batch gained the line. The success conditions and error values of `allocate` and `change_batch_quantity` are `MessageBus.Dispatch`'s, stated over the products before the turn. A resized batch satisfies `Resized`, and every other batch keeps its allocations and quantity.
- **MessageBus.Handle.**
  - The run starts from `[event]`, and each step pops the last event, so the work list is LIFO. The first pass is written out as `MessageBus.FirstPass`, and the remaining passes as `MessageBus.RunQueue`. `results` has one entry per handled event, in order, and `results[0]` belongs to the triggering event.
  - The loop ends only with an empty work list, or at the first error, which abandons the rest. That error is `KeyError` for an unregistered type.
  - Each turn's collected events are those `Raised` names for its event, its result and its released lines. The first turn is the exception when events were pending on entry.
  - On success no product has pending events. Every collected event and every event pending on entry was popped and handled, and the results are the handlers' results in order.
  - When the triggering event is `AllocationRequired`, success means the sku's product existed, and `results[0]` is the reference the allocation rule picks in it, as the handler tests expect.
  - The triggering event's outcome, decided by the products on entry, settles the first turn. If it is an error, the run fails with exactly that error after one turn. If the run fails after one turn, that turn's outcome was that error. On success, `results[0]` is that outcome's value.
  - An `AllocationRequired` trigger whose outcome is a success, with no events pending on entry, always makes the run succeed. So an allocation for a stored sku returns the preferred batch's reference (test_handlers.py:61-67), and one for an unknown sku raises `InvalidSkuException` (test_handlers.py:82-90).
- **MessageBus.PublishEvents.** Corrected: the oldest pending event of a seen product is handed to `handle` together with the unit of work. That run drains every product. On success no product has pending events, and every event pending on entry was handled, popped either here or by the run. With none pending, nothing is published. Every published event was pending before.
- **Service.Allocate.**
  - An unknown sku raises `InvalidSkuException` without a commit and without allocating.
  - Otherwise the list allocator's reference is returned, after exactly one commit.
  - An `OutOfStockError` ("Out of stock for sku <sku>") propagates without a commit and without changing any batch.
  - The call succeeds exactly when some stored batch fits the line, and every failure is one of these two errors.

## Left out

- SQLAlchemy (`orm.py`, the `SqlAlchemyRepository` classes, `SqlAlchemyUnitOfWork`), the FastAPI layer, settings and logging are persistence and HTTP plumbing. The database session of `src/allocation/domain/service.py` is reduced to a commit counter.
- `async`/`await` is modelled as sequential calls.
- pydash lookups are a linear scan of the product set in an unspecified order, which stands for Python's set iteration order.
- Hash values are parameters: Python's `hash` of strings and classes is left abstract. The model states what the hash reads, not its value.
- `Aggregate._get_primary_key` (schema reflection) is not modelled; `Product.__hash__` reads class and sku.
- Pydantic validation of `OrderLine.qty > 0` and of the DTOs is the `Qty` subset type.
  - Events carry plain `int` quantities. `Handlers.Allocate` reports a non-positive qty as a validation error.
  - `BatchCreated`'s qty is used unchecked, because `Batch.purchased_quantity` has no bound.
- `email.send_mail` is an `Outbox` that records each sent mail.
- `Aggregate.Product.ChangeBatchQuantity`: aggregate.py defines no `change_batch_quantity`. The model sets the quantity and then releases arbitrary allocated lines while the batch is over-allocated. The contract states only what the handler tests check:
  - the new quantity;
  - released lines leave the batch;
  - one `AllocationRequired` per released line, with its order id and sku;
  - no release when nothing is over-allocated.
  - Which lines are released is not fixed.
- `UnitOfWork.FakeUnitOfWork.CollectNewEvents`: `collect_new_events` is undefined in the source. It drains every seen product the way `publish_events` does, without calling the bus. The order of products is some enumeration of the seen set.
- ProductRepository.FakeRepository: `AbstractRepository` declares `add`, `get` and `list` abstract, and `FakeRepository` implements none of them. As written, `FakeRepository(set())`, and therefore `FakeUnitOfWork()`, raises `TypeError`; see "## Findings". The class models the evidently intended repository. Its public `add`/`get`/`get_by_batchref` delegate to `_add`/`_get`/`_get_by_batchref` and record what they return in `seen`. `get_by_batchref` and `seen` appear nowhere in the source, and `list` is not modelled because no core operation calls it.
- ProductRepository.NewFakeRepositoryAsWritten: the message follows the wording of CPython 3.9 to 3.11. CPython 3.12 says "without an implementation for abstract methods 'add', 'get', 'list'".
- Handlers.Allocate: does not state that `Consistent` (every batch and line carries the product's sku) is preserved. That clause stays on `Aggregate.Product.Allocate`.
- Handlers.AllocateLine: does not state that `Consistent` is preserved, for the same reason.
- Handlers.ChangeBatchQuantity: does not state that `Consistent` is preserved. That clause stays on `Aggregate.Product.ChangeBatchQuantity`.
- Services.Allocate: states the product events, the result and the batches, but not the version counter or the other products' events, which `Handlers.AllocateLine` states.
- MessageBus.Handle: ties each turn's collected events to its handler's result and released lines. Only the first turn's outcome is tied to the products on entry (its success, its error and `results[0]`). Later turns' results and errors, and the link from released lines to a batch, are stated per turn by `MessageBus.Turn`, not over the whole run. A failure at a later turn is not traced back to its cause. The run does not state how batches change from turn to turn.
- MessageBus.Turn: when events were already pending before the turn, it states only that they are among the collected ones, not where. The order of products in the collection is some enumeration of the seen set.
- MessageBus.PublishEvents: iterates over a snapshot of the seen set taken on entry. Python would raise `RuntimeError` if handling grew the set during iteration; that error is not modelled.
- Service.AddBatchAsWritten: the `TypeError` message follows CPython's wording, without the class-name prefix that newer versions add. The `__init__` of the `src/allocation/domain/model` package is not part of this model, so `model.Batch` is taken to be the `Batch` of `model.py`, whose `__init__(ref, sku, qty, eta)` rejects `reference`. If the package exported the pydantic `Batch` of `aggregate.py` instead, the unknown keyword would still be refused, but, depending on the pydantic version, as a validation error rather than a `TypeError`. If it exported no `Batch` at all, the attribute lookup would raise `AttributeError` before any call. In every case no batch is added and nothing commits.

## Findings

| source | as written | input that shows it | evidently intended | confidence | as-written member | corrected member |
|---|---|---|---|---|---|---|
| src/allocation/domain/service/unit_of_work.py:34-38 | `publish_events` calls `messagebus.handle(event)` without the `uow` argument, so the call raises `TypeError` and the popped event is lost, given the repository's `seen` (see "## Left out") | a seen product with one pending `OutOfStock` event | each event is handled with `handle(event, uow=self)`, and the products end with no pending events | not executed | UnitOfWork.FakeUnitOfWork.PublishEvents | MessageBus.PublishEvents |
| src/allocation/repositories/sqlalchemy_repository.py:36-55 | `FakeRepository` implements only `_add`, `_get` and `_get_by_batchref`, while `AbstractRepository` (abstract.py:7-18) declares `add`, `get` and `list` abstract, so `FakeRepository(set())`, and `FakeUnitOfWork()` with it, raises `TypeError` | `FakeUnitOfWork()` | the base class supplies `add`/`get`/`get_by_batchref` that delegate to the protected methods and track `seen`, so the fake can be built and `add` stores the product | not executed | ProductRepository.NewFakeRepositoryAsWritten | ProductRepository.FakeRepository.Add |
| src/allocation/domain/service.py:31-37 | `model.Batch(**dto.dict())` passes the keys `reference` and `purchased_quantity`, which `model.Batch.__init__(ref, sku, qty, eta)` does not accept, so `add_batch` always raises `TypeError` | any `BatchInput`, e.g. reference "b1", sku "LAMP", qty 10, eta None | build the batch from `dto.reference`, `dto.sku`, `dto.purchased_quantity` and `dto.eta`, add it and commit | not executed | Service.AddBatchAsWritten | Service.AddBatch |
