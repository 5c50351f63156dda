# Inventory allocation domain, modelled in Dafny

This project models `domain.py`, a small inventory-allocation domain. An
**order line** asks for a quantity of one product (SKU). A **batch** is a
stock of one SKU. It may carry an estimated arrival date (`eta`): a batch
without one is in stock now. A batch accepts a line when the SKUs match and
the line is not already in the batch. It takes the line only when its stock
covers it. A batch gives a line back when the line is in it. Batches are
ranked by `eta`: no eta first, then earlier dates. The module-level
`allocate(line, batches)` stably sorts the batches by that rank. It gives
the line to the first batch that accepts it and returns that batch's
reference.

Files:

- `domain.dfy` (module `Domain`): the whole of `domain.py`.
  - `OrderLine` and `Batch` are classes. A line is identified by object
    identity, as in Python. A batch's `quantity` and `orders` are mutable
    fields. Its `reference`, `sku` and `eta` are constants, because the
    source never assigns them after construction.
  - The mutable part of a batch is also a value, `Stock`. The pure
    functions `AllocateStep` and `DeallocateStep` are the specification that
    `Batch.Allocate` and `Batch.Deallocate` are proved against. The
    properties of allocation and deallocation are lemmas about those
    functions.
  - `Batch.Gt` is `__gt__`. `Before(a, b)` is Python's `a < b`, which
    `sorted` uses. Because Batch defines no `__lt__`, Python answers it with
    the reflected `b.__gt__(a)`.
  - `SortByPriority` is `sorted(batches)`, written as a stable insertion
    sort. The method `FirstEligible` is the generator with `next`. The
    method `Allocate` is the module-level function.
  - `PickBest` is an independent statement of the intended choice. It picks
    the eligible batch that no eligible batch precedes, and on a tie the
    earliest one in the input list. `FirstOfSortedIsBest` proves that the
    first eligible batch of the sorted list is that batch.
- `scenarios.dfy` (module `DomainScenarios`): concrete situations replayed
  on the model. Each method states the outcome and quantities it ends with.
  Most replay a test of `test_domain.py` and state what that test expects.
  Three have no test behind them; they show the departures listed below.
  `AllocateNothingEligible` and `AllocateFromNoBatches` show the typed
  `OutOfStock` failure, where the code raises `StopIteration`.
  `OrdersAreNotShared` shows the per-batch `orders` set.
- `shared_orders.dfy` (module `SharedOrders`): the batch as written, where a
  default `orders` set is one object shared by every batch (see Findings).

Errors are values:

- `Fail(AllocationError(Allocating))` and `Fail(AllocationError(Deallocating))`
  stand for the `AllocationException`s with the allocate and deallocate
  messages.
- `Failure(OutOfStock(sku))` is the top-level outcome when no batch accepts
  the line.

Where the model departs from the code:

- **No eligible batch.** `next(...)` at domain.py:108 raises a bare
  `StopIteration`. The model returns `Failure(OutOfStock(line.sku))`
  instead. In both, no batch changes.
- **Per-batch `orders`.** The model gives every batch its own `orders` set.
  The code shares one default set between batches; see Findings.
- **Silent no-op is kept.** `Batch.allocate` with too little stock changes
  nothing and raises nothing, in the model as in the code. The top-level
  `Allocate` still returns that batch's reference.

## Model

| member | source | states |
|---|---|---|
| `Domain.OrderLine.constructor` | domain.py:14-18 | A new line holds the given SKU, quantity and reference. It is a fresh object, so it differs from every other line. |
| `Domain.Batch.constructor` | domain.py:36-48 | A new batch holds the given reference, SKU, quantity, orders and eta. |
| `Domain.Deallocatable` | domain.py:71-72 | `can_deallocate` on a set of orders: the line is in it. |
| `Domain.Allocatable` | domain.py:74-75 | `can_allocate` on a SKU and a set of orders: the SKUs match and the line is not in the set. A line that may be allocated is never one that may be deallocated. |
| `Domain.AllocateStep` | domain.py:56-62 | The whole effect of `allocate` on a batch's state: the state after the call and the outcome. A failure leaves the state unchanged. Allocation never raises the quantity and never drops a held line. |
| `Domain.DeallocateStep` | domain.py:64-69 | The whole effect of `deallocate`: the state after the call and the outcome. A failure leaves the state unchanged. Deallocation never lowers the quantity and never adds a line. |
| `Domain.Batch.CanAllocate` | domain.py:74-75 | `can_allocate` on the batch's own SKU and orders. |
| `Domain.Batch.CanDeallocate` | domain.py:71-72 | `can_deallocate` on the batch's own orders. A line that may be deallocated may not be allocated again. |
| `Domain.Batch.Allocate` | domain.py:56-62 | The new quantity, orders and outcome are `AllocateStep` of the old state. The call fails exactly when `can_allocate` was false before it. |
| `Domain.Batch.Deallocate` | domain.py:64-69 | The new quantity, orders and outcome are `DeallocateStep` of the old state. The call fails exactly when `can_deallocate` was false before it. |
| `Domain.AllocateTakesLine` | domain.py:60-62 | The line is for this SKU, is not yet held, and the stock covers it. Then allocation succeeds, adds the line to `orders` and lowers `quantity` by exactly the line's quantity, which stays non-negative. |
| `Domain.AllocateAllStockLeavesZero` | test_domain.py:22-26 | A demand equal to the stock succeeds and leaves quantity 0. |
| `Domain.AllocateShortIsSilentNoOp` | domain.py:60 | An eligible line larger than the stock leaves quantity and orders unchanged, and the outcome is success. |
| `Domain.AllocateGuard` | domain.py:57-58 | Allocation fails exactly when the SKUs differ or the line is already held. A failure returns `AllocationError(Allocating)` and leaves the state unchanged. |
| `Domain.AllocateTwiceFails` | test_domain.py:36-45 | After a successful allocation, allocating the same line again fails. The quantity stays at its value after the first allocation. |
| `Domain.DeallocateUndoesAllocate` | domain.py:68-69 | A successful allocation followed by deallocation of the same line restores the original quantity and orders. |
| `Domain.AllocateUndoesDeallocate` | domain.py:60-69 | Deallocating a held line of this SKU and then allocating it again restores the original state, when the stock was non-negative. |
| `Domain.DeallocateGuard` | domain.py:65-66 | Deallocation fails exactly when the line is not held. A failure returns `AllocationError(Deallocating)` and leaves the state unchanged. |
| `Domain.StockStaysNonNegative` | domain.py:60-69 | Neither allocation nor deallocation makes a non-negative quantity negative. |
| `Domain.Batch.Gt` | domain.py:86-94 | `__gt__`: true only when the other value is a batch and this batch has an eta. The value is `EtaAfter` of the two etas. |
| `Domain.Before` | domain.py:86-94 | Python's `a < b` for batches, answered by the reflected `b.__gt__(a)`. It holds only when `b` has an eta, and always when `a` has none and `b` has one. |
| `Domain.BeforeIff` | domain.py:86-94 | `a < b` holds exactly when `b` has an eta and either `a` has none or `a`'s eta is earlier. |
| `Domain.BeforeIrreflexive` | domain.py:89-94 | No batch is before itself. |
| `Domain.BeforeTransitive` | domain.py:89-94 | The priority order is transitive. |
| `Domain.UndatedUnordered` | domain.py:89-90 | Two batches without an eta are never ordered either way. |
| `Domain.TieIffSameEta` | domain.py:89-94 | Two batches are unordered exactly when their etas are equal, so the order is a strict weak order and a stable sort of it is well defined. |
| `Domain.GtNonBatch` | domain.py:87-88 | Comparing a batch with anything that is not a batch yields false. |
| `Domain.SortByPriority` | domain.py:108 | `sorted(batches)`, as a stable insertion sort that keeps the length. Its order, contents, stability and uniqueness are the lemmas below. |
| `Domain.SortedPermutes` | domain.py:108 | The sorted list holds the same batches, with the same multiplicities, as the input. |
| `Domain.SortedIsOrdered` | domain.py:108 | In the sorted list, no batch is strictly before a batch to its left. |
| `Domain.SortedIsStable` | domain.py:108 | For every eta, the batches with that eta appear in the sorted list in their input order. |
| `Domain.OrderedByEtaClassesIsUnique` | domain.py:108 | Two ordered lists that hold, for every eta, the same batches in the same order are equal. |
| `Domain.SortedIsUnique` | domain.py:108 | Any ordered list that keeps, for every eta, the input's batches in input order is `SortByPriority` of the input. So every stable sort, Timsort included, gives this list. |
| `Domain.FirstIn` | domain.py:108 | The position found is the first one whose batch is in the given set. It is absent exactly when no batch is in the set. |
| `Domain.PickBest` | domain.py:108-111 | The chosen position holds an eligible batch. No eligible batch is strictly before it, and every earlier eligible batch is strictly after it. It is absent exactly when no batch is eligible. |
| `Domain.BestIsUnique` | domain.py:108-111 | Those properties determine the chosen position uniquely. |
| `Domain.FirstOfSortedIsBest` | domain.py:108 | The first eligible batch of the stably sorted list is the batch `PickBest` chooses. |
| `Domain.FirstEligible` | domain.py:108 | The scan returns the position of the first batch of the list that accepts the line, or none. |
| `Domain.Allocate` | domain.py:97-111 | With no eligible batch, including an empty list, the result is `OutOfStock(line.sku)` and no batch changes. Otherwise the result is the reference of the `PickBest` batch. That batch's state follows `AllocateStep`, including the silent no-op, and every other batch is unchanged. |
| `DomainScenarios.AllocateLeavesRemainder` | test_domain.py:14-19 | Taking 2 from a batch of 20 leaves 18. |
| `DomainScenarios.AllocateAllStock` | test_domain.py:22-26 | Taking 20 from a batch of 20 leaves 0. |
| `DomainScenarios.AllocateMoreThanStock` | test_domain.py:29-33 | Asking 40 of a batch of 20 passes silently, leaves 20 and does not hold the line. |
| `DomainScenarios.AllocateTwice` | test_domain.py:36-45 | The second allocation of a line fails with the allocate error, and 18 remain. |
| `DomainScenarios.AllocateOtherSku` | test_domain.py:48-55 | A line of another SKU fails with the allocate error, and the stock stays 20. |
| `DomainScenarios.DeallocateRestores` | test_domain.py:58-63 | Allocating then deallocating restores 20 and releases the line. |
| `DomainScenarios.DeallocateUnknownLine` | test_domain.py:66-75 | Deallocating a line never allocated fails with the deallocate error, and 18 remain. |
| `DomainScenarios.UndatedSortsFirst` | test_domain.py:81-87 | A batch without an eta is before a dated batch. |
| `DomainScenarios.EarlierEtaSortsFirst` | test_domain.py:90-96 | The batch with the earlier eta is before the later one. |
| `DomainScenarios.AllocateSkipsOtherSku` | test_domain.py:102-114 | The line goes to the earlier matching batch. 18 and 20 remain, and its reference is returned. |
| `DomainScenarios.AllocatePrefersUndated` | test_domain.py:117-129 | The line goes to the batch without an eta, though it is listed second. |
| `DomainScenarios.AllocatePrefersMatchingSku` | test_domain.py:132-145 | An earlier batch of another SKU is skipped, and the later matching batch takes the line. |
| `DomainScenarios.AllocateNothingEligible` | domain.py:108 | Not a test: the typed replacement for `StopIteration`. With no batch of the line's SKU, the result is `OutOfStock` for that SKU and the stock is untouched. |
| `DomainScenarios.AllocateFromNoBatches` | domain.py:108 | Not a test: an empty list gives `OutOfStock` for the line's SKU, where the code raises `StopIteration`. |
| `DomainScenarios.OrdersAreNotShared` | domain.py:40-47 | Not a test: the per-batch `orders` set. With one set per batch, a line allocated to one batch cannot be deallocated from another, and the other's stock is untouched. |
| `SharedOrders.SharingBatch.Allocate` | domain.py:56-62 | As `Batch.Allocate`, on a batch whose orders live in a set object that other batches may share. |
| `SharedOrders.SharingBatch.Deallocate` | domain.py:64-69 | As `Batch.Deallocate`, on a shared set object. |
| `SharedOrders.DefaultOrdersLeak` | domain.py:40-47 | Two batches built with the default set share it. A line allocated to the first is refused by the second, which nevertheless accepts its release and grows from 20 to 22. |

## Left out

- The `uuid4()` calls (domain.py:16, 44): the caller passes the reference in, as a number. Randomness is not modelled. Line identity is object identity, as in Python.
- `__repr__` (domain.py:50-54): string formatting for display only.
- The `constants` and `exceptions` modules are not part of this model. Their message strings become the two `Operation` tags of `AllocationError`.
- `date` and `datetime`: an eta is an integer day number, which keeps only the order of dates.
- The commented-out alternatives (domain.py:9, 22-28, 78-83, 103-105) are not live code.
- Python's `sorted` is Timsort. The model uses a stable insertion sort instead. `SortedIsUnique` proves that any ordered list keeping each eta's batches in input order equals the sorted one, so Timsort's result is the same list. The steps Timsort takes to reach it are not modelled.
- Domain.Batch.constructor: the caller's `orders` is copied in as a value. Python stores a reference to the caller's set, so later changes through either name would be seen by both; the model does not capture that aliasing. The `orders=set()` and `eta=None` defaults are also gone: callers pass `{}` and `None` explicitly. The shared default set itself is modelled separately (see Findings).
- An order line's quantity is a natural number. The source does not check it, but negative demands are not modelled.
- The pytest runner and its `print` are not modelled. The scenarios restate what the tests assert.

## Findings

| source | as written | input that shows it | evidently intended | confidence | as-written member | corrected member |
|---|---|---|---|---|---|---|
| domain.py:40-47 | The default `orders: Set[OrderLine] = set()` is evaluated once. Every batch built without `orders` keeps a reference to that one set, which is the pitfall the comment at domain.py:42 warns about for `reference`. | Build two batches of "SMALL-TABLE" with 20 each and no `orders`. Allocate a line of 2 to the first. The second then refuses the line as already allocated, yet its `deallocate` succeeds and raises its quantity to 22. | Each batch has its own empty set, so a line allocated to one batch is unknown to every other. | high (not executed) | `SharedOrders.DefaultOrdersLeak` | `DomainScenarios.OrdersAreNotShared` |
