# Stock allocation domain model in Dafny

This project models the allocation core of a small stock-allocation service.
An **order line** asks for a quantity of a product (SKU) for an order. A
**batch** is a purchased quantity of one SKU. It has an optional expected
arrival day (eta). No eta means the stock is already on hand. A batch keeps
the set of order lines allocated to it. The **selector** takes a line and a
list of batches, picks one batch and allocates the line to it.

The repository has two versions of the model, and both are modelled:

- `model/model.py` is the main model, in `model.dfy` (module `Model`):
  - A batch derives its available quantity from its allocation set.
  - Allocation and deallocation are guarded. When the guard fails they do nothing.
  - Batches are ranked by eta.
  - The selector picks the earliest batch that can take the line, or fails with `OutOfStock`.
- `model.py` is the earlier version, in `early_model.dfy` (module `EarlyModel`).
  A batch there keeps a plain counter, and allocating subtracts from it with no check.

Shared definitions:

- `order_line.dfy` (module `OrderLines`) holds the `OrderLine` value record.
  Both versions declare the same frozen record, so it is defined once.
- `wrappers.dfy` (module `Wrappers`) holds `Option` (for the eta) and `Result`
  (for the selector's outcome).

How the model is built:

- Fields the source never reassigns are `const`: `ref`, `sku`, the purchased
  quantity and `eta`. So allocating and deallocating cannot change them. Only
  `allocations` (main model) and `availableQuantity` (early model) are `var`.
  Methods list those fields in their `modifies` clauses.
- The available quantity is a sum over a set. Dafny can only write that sum as
  a ghost function (`SumQty`), because it picks an arbitrary element of the set.
  So the property `available_quantity` and the check `can_allocate` (which reads
  it) are read-only methods. They sum with a loop and are proved equal to the
  ghost functions `Batch.Available` and `Batch.Allocatable`. Likewise the
  selector's filter comprehension, which calls `can_allocate`, is a loop method
  (`AvailableBatches`) proved equal to the ghost filter `Eligible`.
- Python's `min` on batches only ever evaluates `item < pick`. `Batch` has no
  `__lt__`, so Python falls back to the reflected `pick.__gt__(item)`. `min`
  therefore replaces its pick only when a later batch ranks strictly before it.
  `Earliest` is that loop. The selector's result is stated by the predicate
  `FirstEarliest`: the chosen batch can take the line, no eligible batch ranks
  before it, and every eligible batch earlier in the list ranks after it. In
  other words: stock on hand first, then the earliest eta, then input order.
- `Batch.Gt` (`__gt__`) is proved equal to a lexicographic order on the key
  `EtaKey`. The key of no eta is `(0, 0)`; the key of eta day `d` is `(1, d)`.
  So two batches without an eta never rank after each other.
- `Batch.CanDeallocate` and `EarlyModel.Batch.CanAllocate` are plain predicates
  with the source's bodies. Their meaning is stated in the contracts of the
  methods that use them.
- `OutOfStock` carries the order id, the SKU and the quantity, as the message
  at model/model.py:60 does.
- Batch equality is not modelled (see "## Left out").

## Model

| member | source | states |
|---|---|---|
| `Model.SumQtyRemove` | model/model.py:21-23 | The allocated-quantity sum does not depend on which line is taken first: for any line `l` in the set, the sum is `l.qty` plus the sum of the rest. |
| `Model.SumQtyAdd` | model/model.py:21-27 | Adding a line that is not yet allocated raises the allocated sum by exactly that line's quantity. |
| `Model.Batch.constructor` | model/model.py:14-19 | A new batch keeps its ref, sku, eta and purchased quantity, has no allocations, and its available quantity is the purchased quantity. |
| `Model.Batch.AvailableQuantity` | model/model.py:21-23 | Reading the available quantity changes nothing and returns the purchased quantity minus the sum of `qty` over the allocated lines. |
| `Model.Batch.CanAllocate` | model/model.py:29-34 | Read-only check. It holds exactly when the sku matches, the available quantity is at least `line.qty`, and the line is not yet allocated. |
| `Model.Batch.AllocatableMeansFits` | model/model.py:29-34 | The batch accepts a line exactly when the line has the batch's sku, is new to the batch, and adding it would not overdraw the batch. |
| `Model.Batch.Allocate` | model/model.py:25-27 | The line is added exactly when the batch accepts it, and otherwise nothing changes. After a successful add, the available quantity has dropped by `line.qty` and is still at least 0. Afterwards the line is allocated iff it already was or was accepted. |
| `Model.Batch.Deallocate` | model/model.py:36-41 | The line is removed only if it is allocated, and otherwise nothing changes. Afterwards the line is not allocated, and the available quantity has risen by `line.qty` exactly when a line was removed. |
| `Model.Batch.Gt` | model/model.py:48-53 | `a.Gt(b)` holds exactly when `b`'s eta key comes strictly before `a`'s. No eta comes before any eta. Otherwise the earlier date comes first. So a batch without an eta never ranks after another batch. |
| `Model.GtStrictWeakOrder` | model/model.py:48-53 | The ranking is irreflexive, asymmetric and transitive, and "does not rank after" is transitive. |
| `Model.Eligible` | model/model.py:57 | The filtered list holds only batches from the input that accept the line, and it holds every input batch that accepts the line. |
| `Model.AvailableBatches` | model/model.py:57 | Read-only loop. It collects, in input order, exactly the batches that accept the line. |
| `Model.Earliest` | model/model.py:62 | For a non-empty list, `min` returns the index `k` of a batch that no batch ranks before, and every earlier batch ranks strictly after it. This is the leftmost minimum. |
| `Model.EligiblePick` | model/model.py:57-62 | The leftmost minimum of the filtered list is the first-earliest eligible batch of the whole input list, and the lemma gives its input index. |
| `Model.FirstEarliestUnique` | model/model.py:48-62 | The tie-break is deterministic: at most one index of the input list is first-earliest. |
| `Model.FirstEarliestPrefersEarliest` | model/model.py:48-62 | If any eligible batch has no eta, the chosen batch has none. If the chosen batch has an eta, every eligible batch has an eta no earlier. |
| `Model.Allocate` | model/model.py:56-64 | Fails exactly when no batch accepts the line. On failure it returns `OutOfStock` with the line's orderid, sku and qty, and changes no batch. On success it adds the line to the first-earliest eligible batch, returns that batch's ref, and leaves every other batch unchanged. |
| `Model.AllocateTwice` | model/model.py:25-34 | Allocating the same line twice has the effect of allocating it once. |
| `Model.AllocateThenDeallocate` | model/model.py:25-41 | Deallocating a line that was just allocated, if it was not allocated before, restores the allocation set and the available quantity. |
| `EarlyModel.Batch.constructor` | model.py:12-15 | A new early batch keeps its ref and sku, and its available quantity equals the constructor's `qty`. |
| `EarlyModel.Batch.Allocate` | model.py:17-21 | Subtracts `line.qty` from the available quantity with no check, so the result may go negative. If `CanAllocate(line)` (sku matches and enough is left) held before, the result is at least 0. |
| `EarlyModel.AllocateBoth` | model.py:17-18 | Two successive allocations subtract the sum of both quantities, whichever line is allocated first. |

## Left out

- `Batch.__eq__` (model/model.py:43-46) is not modelled. It reads an attribute `reference` that is never set (the field is `ref`), so comparing two batches raises `AttributeError`. Nothing in the selector uses it.
- Python exceptions and the formatted message of `OutOfStock` are not modelled. The failure is a `Result.Failure` value carrying orderid, sku and qty.
- Dates are modelled as integer day numbers. `Option<int>` stands for `Optional[date]`. The clock in the tests (`date.today()`) is not modelled.
- Quantities are unbounded integers, as in Python. The model does not require them to be positive, because the source does not check that.
- Persistence (the ORM mapping and its test) is not part of this model: it is database I/O.
- The test files are not modelled as code. Their claims appear as contracts and as the small scenario methods `AllocateTwice`, `AllocateThenDeallocate` and `AllocateBoth`.
- Concurrency and check-then-act races are not modelled. The source is sequential and has no locking.
- `Batch.CanDeallocate` and `EarlyModel.Batch.CanAllocate` have no rows of their own. They are one-line predicates whose meaning is stated by the contracts of `Model.Batch.Deallocate` and `EarlyModel.Batch.Allocate`.
