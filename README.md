# Point ledger — a Dafny model

This project models the core of a per-account point ledger. Accounts are
charged (credited) and used (debited). The balance has a floor of 0 and a
ceiling of 10000. Every successful charge or use leaves one record in an
append-only history.

The model has five modules:

- `Points` (`user_point.dfy`) is the immutable `UserPoint` record and its
  balance rule. `Charge` and `Use` return the new balance or fail with
  `ExceededBalance` / `InsufficientBalance`. Each error carries the account
  id, the balance before the call and the attempted amount.
- `PointTables` (`point_tables.dfy`) is the interface of the two stores.
  The ledger is a `map` that reads as a zero balance for an unknown id.
  The history is an append-only `seq`, filtered by account id.
- `BalanceEngine` (`balance_engine.dfy`) is the locked engine. `ChargeStep`
  and `UseStep` give one call's effect on the stores as values. The class
  `PointService` holds the ledger map and the history sequence as fields.
  Its methods do the same read, validate, append and write steps in place,
  and are proved equal to those functions. A ghost set `locked` models the
  per-account lock: it is taken on entry and released on both exit paths.
- `EngineRuns` (`engine_runs.dfy`) covers sequences of calls. Each call on an
  account runs under that account's lock, so the calls on one account take
  effect one after another. The model further takes each store operation to
  be atomic (see "## Left out"); with that, a concurrent batch ends in the
  state of some sequential order of its calls. The lemmas state the
  concurrency tests' end-state claims for every such order:
  - no update is lost;
  - the balance moves by the signed sum of the successful amounts;
  - each successful call adds exactly one record;
  - balance and history stay consistent with each other;
  - other accounts are untouched;
  - charge-then-use pairs, interleaved in any way that keeps each use after
    its own charge, all succeed and restore the balance when every amount
    is at least 0, the starting balance is at least 0, and the starting
    balance plus all the amounts fits under 10000.
- `DraftEngine` (`draft_engine.dfy`) is the earlier draft of the engine. It
  has the same read, validate and write sequence, but no lock and no
  history write. For calls that do not overlap, it is proved to compute the
  same ledger as the locked engine on every run, and to leave the history
  unchanged. Overlapping draft calls can lose an update
  (`DraftOverlapLosesUpdate`).

Clock reads (`System.currentTimeMillis()`) become a `now` parameter. The
methods `EngineScenarios` and `DraftServiceScenarios` replay the cases of
`PointServiceTest.java` against the contracts: an account at 5000 charged
3000 reads 8000, used 3000 reads 2000, and a charge or use of 10000 fails.

Two facts about the code shape the model:

- `UserPoint.charge` and `UserPoint.use` accept any amount
  (`domain/point/UserPoint.java:18-34`). Neither checks the sign. A negative
  charge acts as a use and can push the balance below 0, and a negative use
  can push it above 10000 (`NegativeAmountsLeaveBounds`). The model keeps
  this. The bounds lemmas therefore require non-negative amounts.
- The locked engine inserts the history record
  (`service/PointService.java:39`, `:53`) before it writes the ledger
  (`:40`, `:54`). Neither write happens until the balance rule has
  accepted the amount. The model follows this order.

## Model

| member | source | states |
|---|---|---|
| `Points.Empty` | src/main/java/io/hhplus/tdd/domain/point/UserPoint.java:14-16 | the new record has the given id, balance `ZeroPoint` (0) and the given timestamp |
| `Points.Charge` | src/main/java/io/hhplus/tdd/domain/point/UserPoint.java:18-25 | succeeds exactly when `point + amount <= 10000`, and the result less `amount` is the old balance; otherwise fails with `ExceededBalance(id, point, amount)` |
| `Points.Use` | src/main/java/io/hhplus/tdd/domain/point/UserPoint.java:27-34 | succeeds exactly when `point - amount >= 0`, and the result plus `amount` is the old balance; otherwise fails with `InsufficientBalance(id, point, amount)` |
| `Points.ChargeUseKeepBounds` | src/main/java/io/hhplus/tdd/domain/point/UserPoint.java:11-34 | with a non-negative amount, a successful charge or use of an in-bounds balance stays within [0, 10000] |
| `Points.NegativeAmountsLeaveBounds` | src/main/java/io/hhplus/tdd/domain/point/UserPoint.java:18-34 | a charge of -100 at 50 succeeds with -50, and a use of -100 at 9950 succeeds with 10050: the rule does not check the amount's sign |
| `Points.ChargeThenUse` | src/main/java/io/hhplus/tdd/domain/point/UserPoint.java:18-34 | if a charge of `amount` succeeds on a balance of at least 0, using `amount` on the result succeeds and restores the original balance |
| `PointTables.SelectById` | src/main/java/io/hhplus/tdd/service/PointService.java:28-30 | the read has the requested id; it returns the stored record when present and a zero-balance record otherwise |
| `PointTables.HistoryOf` | src/main/java/io/hhplus/tdd/service/PointService.java:60-62 | the history of one account holds exactly the stored records with that user id, and is no longer than the whole history |
| `PointTables.HistoryOfConcat` | src/main/java/io/hhplus/tdd/service/PointService.java:39 | filtering by account distributes over appending to the history |
| `PointTables.HistoryOfAppend` | src/main/java/io/hhplus/tdd/service/PointService.java:53 | appending one record adds it to its own account's history and to no other |
| `BalanceEngine.ChargeStep` | src/main/java/io/hhplus/tdd/service/PointService.java:32-44 | succeeds exactly when balance plus amount is at most 10000; then the ledger entry of `id` becomes `old + amount`, exactly one `(id, amount, CHARGE)` record is appended, and the new entry is returned; on failure both stores are unchanged and the error carries `(id, old balance, amount)` |
| `BalanceEngine.UseStep` | src/main/java/io/hhplus/tdd/service/PointService.java:46-58 | succeeds exactly when balance minus amount is at least 0; then the entry becomes `old - amount`, exactly one `(id, amount, USE)` record is appended, and the new entry is returned; on failure nothing changes and the error carries `(id, old balance, amount)` |
| `BalanceEngine.PointService.constructor` | src/main/java/io/hhplus/tdd/service/PointService.java:20-26 | the service starts over the given ledger and history, with no lock held |
| `BalanceEngine.PointService.DetailUserPoint` | src/main/java/io/hhplus/tdd/service/PointService.java:28-30 | returns a record for `id` whose balance is the ledger's (the stored record if present, else 0); reads only |
| `BalanceEngine.PointService.ListsAllPointHistory` | src/main/java/io/hhplus/tdd/service/PointService.java:60-62 | returns exactly the history records whose user id is `id`; reads only |
| `BalanceEngine.PointService.ChargeUserPoint` | src/main/java/io/hhplus/tdd/service/PointService.java:32-44 | the new ledger, history and returned value are those of `ChargeStep` on the old stores; the account's lock is released on both the success and the failure path |
| `BalanceEngine.PointService.UseUserPoint` | src/main/java/io/hhplus/tdd/service/PointService.java:46-58 | the new ledger, history and returned value are those of `UseStep` on the old stores; the lock is released on both paths |
| `EngineRuns.ApplyEffect` | src/main/java/io/hhplus/tdd/service/PointService.java:37-40 | a successful call appends exactly its record (its amount, never the resulting balance) and moves its account by the signed amount; a failed call changes neither store |
| `EngineRuns.ApplyOwnHistory` | src/main/java/io/hhplus/tdd/service/PointService.java:39-40 | a successful call adds exactly its own record to its account's history |
| `EngineRuns.ApplyFrame` | src/main/java/io/hhplus/tdd/service/PointService.java:51-54 | a call leaves every other account's ledger entry and history exactly as they were |
| `EngineRuns.Run` | src/test/java/io/hhplus/tdd/point/PointConcurrencyTest.java:50-61 | after a sequential run of calls the ledger is still keyed by id, and the successful calls are among the calls made |
| `EngineRuns.RunHistory` | src/main/java/io/hhplus/tdd/service/PointService.java:32-58 | over any run, the history is the old history followed by one record per successful call, in call order |
| `EngineRuns.RunBalance` | src/test/java/io/hhplus/tdd/point/PointConcurrencyTest.java:61-67 | over any order of calls, each account's final balance is its starting balance plus the charges minus the uses that succeeded on it |
| `EngineRuns.RunHistoryCount` | src/test/java/io/hhplus/tdd/point/PointConcurrencyTest.java:63-67 | over any run, each account's history grows by exactly the number of its successful calls |
| `EngineRuns.ApplyKeepsConsistent` | src/main/java/io/hhplus/tdd/service/PointService.java:37-54 | if every balance equals the signed sum of its account's history, one call, succeeding or failing, keeps it so |
| `EngineRuns.RunKeepsConsistent` | src/main/java/io/hhplus/tdd/service/PointService.java:32-58 | any run of calls keeps every balance equal to the signed sum of its account's history |
| `EngineRuns.ApplyKeepsBounds` | src/main/java/io/hhplus/tdd/domain/point/UserPoint.java:18-34 | a call with a non-negative amount keeps every stored balance within [0, 10000] |
| `EngineRuns.RunKeepsBounds` | src/main/java/io/hhplus/tdd/domain/point/UserPoint.java:11-12 | a run of non-negative calls keeps every stored balance within [0, 10000] |
| `EngineRuns.ChargesAllSucceed` | src/test/java/io/hhplus/tdd/point/PointConcurrencyTest.java:39-68 | non-negative charges on one account whose total fits under 10000 all succeed in any order, and the balance rises by their sum |
| `EngineRuns.UsesAllSucceed` | src/test/java/io/hhplus/tdd/point/PointConcurrencyTest.java:70-97 | non-negative uses on one account covered by its balance all succeed in any order, and the balance falls by their sum |
| `EngineRuns.ChargeBatchEndState` | src/test/java/io/hhplus/tdd/point/PointConcurrencyTest.java:63-67 | after such a batch of charges the balance is the initial balance plus the sum, and the history has one more record per charge |
| `EngineRuns.UseBatchEndState` | src/test/java/io/hhplus/tdd/point/PointConcurrencyTest.java:92-96 | after such a batch of uses the balance is the initial balance minus the sum, and the history has one more record per use |
| `EngineRuns.PairsRestore` | src/test/java/io/hhplus/tdd/point/PointConcurrencyTest.java:108-117 | in the back-to-back order, where each use runs right after its own charge, charge-then-use pairs on an in-bounds account all succeed and leave the balance where it started; each charge alone needs to fit under 10000 |
| `EngineRuns.PairBatchEndState` | src/test/java/io/hhplus/tdd/point/PointConcurrencyTest.java:125-129 | after such back-to-back pairs the balance is the initial one and the history has two more records per pair |
| `EngineRuns.PrefixBoundedAllSucceed` | src/main/java/io/hhplus/tdd/domain/point/UserPoint.java:18-34 | any order of calls on one account whose running balance stays within [0, 10000] after every prefix succeeds in full, and the balance ends at its start plus the net of the calls |
| `EngineRuns.PairInterleavingShape` | src/test/java/io/hhplus/tdd/point/PointConcurrencyTest.java:104-118 | an interleaving of charge-then-use pairs has two calls per pair not yet started and one per pair half done, all on the one account |
| `EngineRuns.PairsInterleave` | src/test/java/io/hhplus/tdd/point/PointConcurrencyTest.java:108-117 | the back-to-back order is one of the interleavings |
| `EngineRuns.CrossedPairsInterleave` | src/test/java/io/hhplus/tdd/point/PointConcurrencyTest.java:108-117 | two pairs whose charges both run before either use form an interleaving too |
| `EngineRuns.InterleavedPairsSucceed` | src/test/java/io/hhplus/tdd/point/PointConcurrencyTest.java:104-129 | in every interleaving in which each use comes after its own charge, with the balance at `b >= 0` plus the open amounts and all pending charges fitting under 10000, every call succeeds and the balance ends at `b` |
| `EngineRuns.InterleavedPairsEndState` | src/test/java/io/hhplus/tdd/point/PointConcurrencyTest.java:104-129 | for every such interleaving of N non-negative pairs on an account at `b >= 0` with `b` plus all amounts at most 10000: all 2N calls succeed, the balance ends at `b`, and the account gains 2N records |
| `EngineRuns.TenPairsAnyOrder` | src/test/java/io/hhplus/tdd/point/PointConcurrencyTest.java:101-130 | ten threads charging then using 1 through 10, interleaved in any way, on an account at most 9945 with no history: the balance is kept and 20 records are written |
| `EngineRuns.TenChargesFromZero` | src/test/java/io/hhplus/tdd/point/PointConcurrencyTest.java:46-67 | charges of 1 through 10 on an account with no balance and no history end at 55 with 10 records |
| `DraftEngine.DraftChargeStep` | src/main/java/io/hhplus/tdd/point/PointService.java:26-30 | succeeds exactly when balance plus amount is at most 10000; then only the entry of `id` changes, to `old + amount`, and is returned; on failure the ledger is unchanged and the error carries `(id, old balance, amount)` |
| `DraftEngine.DraftUseStep` | src/main/java/io/hhplus/tdd/point/PointService.java:32-36 | succeeds exactly when balance minus amount is at least 0; then only the entry of `id` changes, to `old - amount`; on failure the ledger is unchanged |
| `DraftEngine.DraftRunMatchesEngine` | src/main/java/io/hhplus/tdd/point/PointService.java:26-36 | for every run of calls that do not overlap, the draft's ledger equals the locked engine's ledger |
| `DraftEngine.DraftOverlapLosesUpdate` | src/main/java/io/hhplus/tdd/point/PointService.java:26-30 | two draft charges of 10 and 20 on an empty account that both read before either writes end at 20, while the same calls run one after the other end at 30 |
| `DraftEngine.DraftPointService.constructor` | src/main/java/io/hhplus/tdd/point/PointService.java:16-20 | the draft service starts over the given ledger and history |
| `DraftEngine.DraftPointService.DetailUserPoint` | src/main/java/io/hhplus/tdd/point/PointService.java:22-24 | returns a record for `id` with the ledger's balance (the stored record if present); reads only |
| `DraftEngine.DraftPointService.ListsAllPointHistory` | src/main/java/io/hhplus/tdd/point/PointService.java:38-40 | returns exactly the stored records of `id`; reads only |
| `DraftEngine.DraftPointService.ChargeUserPoint` | src/main/java/io/hhplus/tdd/point/PointService.java:26-30 | the new ledger and result are those of `DraftChargeStep`; the history is unchanged |
| `DraftEngine.DraftPointService.UseUserPoint` | src/main/java/io/hhplus/tdd/point/PointService.java:32-36 | the new ledger and result are those of `DraftUseStep`; the history is unchanged |

## Left out

- The lock registry is left out. The locked service imports `io.hhplus.tdd.common.util.UserLock` (`service/PointService.java:5`), which is not part of this model. `util/UserLock.java` (package `io.hhplus.tdd.util`), which the service tests use, hands out one fair `ReentrantLock` per account id; the model assumes the service's registry does the same. Atomic get-or-create, fair FIFO granting and parallel progress across accounts cannot be stated in a sequential model. The lock is a ghost set of held account ids, and no lock is held between calls.
- Atomicity of the stores is assumed, not modelled. The per-account lock orders the calls on one account only. Calls on different accounts run at the same time against the shared `UserPointTable` and `PointHistoryTable`. Reading every run as a sequential order also needs each `selectById`, `insertOrUpdate`, `insert` and `selectAllByUserId` to be atomic. Those stores are not part of this model, so their thread safety is not shown here.
- Thread pools, latches and futures of the concurrency tests are left out. Only the tests' end states are kept, as lemmas over sequential runs. Each run stands for the order in which the per-account lock admitted the calls.
- EngineRuns.PairsRestore: covers only the back-to-back order. Every other interleaving is covered by `InterleavedPairsEndState`, under the stronger requirement that the starting balance plus all the amounts fits under 10000. When every charge runs before any use, the balance really does reach that sum.
- EngineRuns.InterleavedPairsEndState: asks that the sum of all the amounts fit under 10000. In an order where the balance would cross the ceiling, some charge fails, and the calls then have the end state `RunBalance` and `RunHistoryCount` give, not the balance the test expects.
- The HTTP controller, both `ApiControllerAdvice` classes and the controller test are left out. They do request routing and status-code mapping.
- Exception messages are left out. The errors are datatype constructors carrying `(id, point, amount)`.
- Clock reads are left out. Each call takes one `now` value, used for both the history record and the ledger write; the code reads the clock separately for each.
- The history record's own id is left out. The history store assigns it, and that store's internals are not part of this model.
- `UserPointTable` and `PointHistoryTable` are not part of this model. Only their interface is modelled: a keyed map with a zero default, and an append-only sequence filtered by user id. The step functions require the ledger to be keyed by account id, because the store writes each record under its own id.
- Failures of the stores themselves are left out. Their propagation to the caller is not modelled.
- Java `long` overflow on `point + amount` and `point - amount` is not modelled; balances are mathematical integers.
- DraftEngine.DraftRunMatchesEngine: holds only for draft calls that do not overlap. The draft takes no lock, so two calls on one account can both read the balance before either writes it, and the later write loses the earlier update. `DraftRun` is a sequential model and does not show such runs; `DraftOverlapLosesUpdate` exhibits one.
- The draft's own `UserPoint` type (package `io.hhplus.tdd.point`) is not part of this model. The draft uses the balance rule of `Points`, which has the same 10000 / 0 bounds its tests exercise.
