# webook: models and proofs

This project models the five parts of webook that keep state across calls and
failures, and proves what each is for.

* **Zero-downtime migration** (`Tables`, `ConnPool`, `DoubleWrite`,
  `Validation`, `Fixing`, `MigrationScheduler`, `LiveMigration`). A pool writes
  to two databases in an order its pattern sets; a validator scans both by
  OFFSET and sends inconsistency events; a consumer repairs the non-authoritative
  side. Main results: callers cannot tell the pool from its primary alone;
  pattern switches are invisible; a full validation reports exactly the
  differences; replaying its events converges; and a validation running among
  live double writes and fixes can be stopped anywhere and still make the stores
  equal if and only if no step exposed a difference, in terms of the state before
  it.
* **Smooth weighted round robin** (`WeightedRoundRobin`). Picks are exactly
  fair over every window of `total` picks if and only if no weight is negative,
  and 64-bit overflow cannot happen while `(n + 1) * total` fits.
* **Preemptive job scheduler** (`JobPreemption`). Mutual exclusion, never-early
  starts and bounded retries, for any interleaving of any number of nodes,
  although the compare-and-set checks only the version and the release nothing.
* **Asynchronous SMS** (`AsyncSms`). Preemptions of one message are more than a
  minute apart; attempts are bounded in every run; a message's outcome is final
  if no report on it is late, and otherwise changes exactly by contradicting
  reports.
* **Counters, cache, batches and ranking** (`Interactive`, `InteractiveCache`,
  `InteractiveRepository`, `BatchConsumer`, `Ranking`). The like counter against
  the like records, the cache against the tables under overlapping calls, the batching consumer against
  the message stream, and the bounded queue against the true top n.

Databases are maps from keys to rows, Kafka is a sequence or multiset of
events, and one statement, transaction or compare-and-set is one step. A
statement (`Tables.Stmt`) is any deterministic change of one row, so results
about the pool hold for every such SQL statement. Objects whose methods update
fields are classes whose methods are proved equal to a value-level function;
the laws are lemmas about that function. Which call fails is a parameter, so
each result quantifies over failures. Runs are arbitrary sequences of steps.

## Where the code and its own words differ

The model follows the code; each disagreement has a lemma.

* A comment in `double_write_pool.go:49` says a secondary that fails to begin
  does not matter under src_first. The code returns its error (line 57). Under
  dst_first it returns a transaction with a nil mirror whose first accepted
  statement panics. See `ConnPool.BeginExact`, `ConnPool.NilMirrorPanics`.
* A comment in `interactive/repository/interactive.go:73-74` says liking again
  only refreshes utime. The code adds one to the counter. See
  `Interactive.RepeatedLikeCountsTwice`, `Interactive.LikeCountExact`.
* The ranking drain counts its index up (`ranking_service.go:127`), so it
  panics exactly when anything is listed. See `Ranking.BatchRankingService.TopN`
  and, counting down, `Ranking.BatchRankingService.TopNDescending`.
* In the validator's target scan a failed page query leaves an empty page and
  ends the scan at line 162, before the branch for errors at line 170; a failed
  base query leaves no match and reports the whole page at line 181, before the
  branch at line 188. See `Validation.BackwardExact`.
* `batch_hanler.go:47` and `:58` append a decodable message to the batch
  twice, so it is marked twice. See `BatchConsumer.MarkedIsPrefix`.

## Model

| member | source | states |
|---|---|---|
| WeightedRoundRobin.ExactFairness | webook/pkg/grpcx/balancer/wrr/wrr.go:28-73 | Every window of total picks, from any reachable state, picks each connection exactly weight times and restores all current weights: this holds if and only if no weight is negative |
| WeightedRoundRobin.FairWindow | webook/pkg/grpcx/balancer/wrr/wrr.go:28-73 | The same for one window starting after any number of picks |
| WeightedRoundRobin.FullCycle | webook/pkg/grpcx/balancer/wrr/wrr.go:28-73 | From the vector Build makes, with current weight equal to weight, total picks restore it |
| WeightedRoundRobin.OneShort | webook/pkg/grpcx/balancer/wrr/wrr.go:28-57 | One pick before a cycle closes, one connection is owed total and all others stand at zero |
| WeightedRoundRobin.OwedWins | webook/pkg/grpcx/balancer/wrr/wrr.go:46-54 | From that state the owed connection is picked and the initial vector returns |
| WeightedRoundRobin.Conservation | webook/pkg/grpcx/balancer/wrr/wrr.go:34-54 | In every reachable state the current weights sum to total, whatever the weights |
| WeightedRoundRobin.Ledger | webook/pkg/grpcx/balancer/wrr/wrr.go:34-54 | total * picks of i == (k + 1) * weight of i - current weight of i after k picks |
| WeightedRoundRobin.Bounds | webook/pkg/grpcx/balancer/wrr/wrr.go:34-54 | Each current weight lies strictly above -total and at most n * total, and every prefix of picks is near-proportional |
| WeightedRoundRobin.FirstMaxIsLargest | webook/pkg/grpcx/balancer/wrr/wrr.go:46-52 | The scan ends on a connection no other exceeds and every earlier one is below |
| WeightedRoundRobin.CountsSum | webook/pkg/grpcx/balancer/wrr/wrr.go:28-57 | Each pick is counted for exactly one connection |
| WeightedRoundRobin.NoOverflow | webook/pkg/grpcx/balancer/wrr/wrr.go:34-54 | With nonnegative weights and (n + 1) * total within int64, the wrapping machine arithmetic picks and holds what unbounded integers would |
| WeightedRoundRobin.Picker.Build | webook/pkg/grpcx/balancer/wrr/wrr.go:59-73 | One distinct connection per ready sub-connection, weight from the metadata or zero, current weight equal to weight |
| WeightedRoundRobin.Picker.Pick | webook/pkg/grpcx/balancer/wrr/wrr.go:28-58 | No connections gives ErrNoSubConnAvailable; otherwise, over the fields, the connection returned is the first of largest raised weight, it alone pays the wrapped total, and every other keeps its raised weight |
| WeightedRoundRobin.WinnerIsHeaviest | webook/pkg/grpcx/balancer/wrr/wrr.go:39-52 | The winner is the first connection whose current weight plus weight no other exceeds |
| WeightedRoundRobin.GoSumWraps | webook/pkg/grpcx/balancer/wrr/wrr.go:34-37 | The machine total is the wrapped sum of the weights |
| Tables.OffsetIsRank | webook/pkg/migrator/validator/validator.go:83-90 | ORDER BY id OFFSET i reads the key that has exactly i smaller keys |
| Tables.RankInRange | webook/pkg/migrator/validator/validator.go:83-90 | Every key is read by exactly the offset equal to its rank |
| Tables.ApplyAt | webook/pkg/gormx/connpool/double_write_pool.go:98-102 | A statement changes its own row as it asks to, or, rejected, nothing |
| ConnPool.DoubleWriteRefinement | webook/pkg/gormx/connpool/double_write_pool.go:92-137 | Under one pattern, every reply of any run equals the primary database's run alone, whatever secondary writes, commits and rollbacks fail, and the secondary's log is a subsequence of the primary's |
| ConnPool.RefinesStep | webook/pkg/gormx/connpool/double_write_pool.go:184-281 | One call of the pool or of a transaction keeps that relation and gives the primary's reply |
| ConnPool.BeginExact | webook/pkg/gormx/connpool/double_write_pool.go:32-84 | Beginning a transaction keeps the relation if and only if no mirrored begin fails on the secondary alone |
| ConnPool.NilMirrorPanics | webook/pkg/gormx/connpool/double_write_pool.go:65-80 | Under dst_first a source that fails to begin gives a transaction whose first accepted statement panics |
| ConnPool.InvisibleSwitching | webook/pkg/gormx/connpool/double_write_pool.go:22-31 | From equal databases with an answering secondary, any src_first and dst_first switches between any calls, even with transactions open, give the answers of one database |
| ConnPool.InvisibleCutOver | webook/pkg/gormx/connpool/double_write_pool.go:22-31 | After such traffic with no transaction open, moving to any pattern stays invisible whatever then befalls the database left behind |
| ConnPool.RowsReplayLog | webook/pkg/gormx/connpool/double_write_pool.go:92-281 | Whatever the calls, patterns and failures, each database's rows are the replay of its own committed statements on the rows it began with |
| ConnPool.SecondaryReplaysSubsequence | webook/pkg/gormx/connpool/double_write_pool.go:92-281 | Under one pattern the secondary's rows are the replay of some of the primary's statements in the primary's order |
| ConnPool.PatternSides | webook/pkg/gormx/connpool/double_write_pool.go:96-137 | src patterns answer from src, dst patterns from dst, and only the first patterns write both |
| ConnPool.ExecMeans | webook/pkg/gormx/connpool/double_write_pool.go:98-102 | Row by row, what an accepted, failed or rejected statement leaves, and its reply |
| ConnPool.SingleLeavesOther | webook/pkg/gormx/connpool/double_write_pool.go:96-110 | No call under a single pattern touches the other database |
| ConnPool.PatternTakesEffect | webook/pkg/gormx/connpool/double_write_pool.go:22-31 | A new pattern applies to the next call outside transactions |
| ConnPool.TransactionIsItsStatements | webook/pkg/gormx/connpool/double_write_pool.go:184-281 | Begun, filled with any statements, whichever fail or are rejected on either side, and committed, a transaction leaves both databases, and gives every statement the reply, as the statements made directly on the pool do |
| ConnPool.TransactionSeesItself | webook/pkg/gormx/connpool/double_write_pool.go:218-227 | Before its commit a transaction reads its own statements, and nobody else does |
| ConnPool.RolledBackLeavesNothing | webook/pkg/gormx/connpool/double_write_pool.go:284-319 | Rolled back, it leaves both databases as they were, and every further call on it is an error |
| DoubleWrite.Database.ExecContext | webook/pkg/gormx/connpool/double_write_pool.go:98-102 | A failed or rejected statement changes nothing; an accepted one is applied and logged |
| DoubleWrite.ExecOn | webook/pkg/gormx/connpool/double_write_pool.go:190-206 | A statement on an open, finished or nil transaction: appended, refused, or a panic |
| DoubleWrite.CommitOn | webook/pkg/gormx/connpool/double_write_pool.go:247-255 | A commit answering Ok leaves the old rows with the pending statements applied and the log extended by them; any other leaves the database as it was; either way the transaction is finished |
| DoubleWrite.RollbackOn | webook/pkg/gormx/connpool/double_write_pool.go:287-294 | Rollback publishes nothing and finishes the transaction |
| DoubleWrite.DoubleWriteTx.ExecContext | webook/pkg/gormx/connpool/double_write_pool.go:184-216 | The primary part decides the reply; the mirror is tried only after its success |
| DoubleWrite.DoubleWriteTx.QueryContext | webook/pkg/gormx/connpool/double_write_pool.go:218-227 | Reads see the primary through the transaction's own statements |
| DoubleWrite.DoubleWriteTx.Commit | webook/pkg/gormx/connpool/double_write_pool.go:244-281 | Answering Ok, the primary has its pending statements and so has a mirror that began and did not fail; failing, neither database changes |
| DoubleWrite.DoubleWriteTx.Rollback | webook/pkg/gormx/connpool/double_write_pool.go:284-319 | Answering Ok, both parts that began are finished; failing, the mirror is left open |
| DoubleWrite.DoubleWritePool.UpdatePattern | webook/pkg/gormx/connpool/double_write_pool.go:22-31 | Only the four known patterns are stored; any other is refused and changes nothing |
| DoubleWrite.DoubleWritePool.BeginTx | webook/pkg/gormx/connpool/double_write_pool.go:32-84 | Which parts begin under each pattern, which failures are returned, and which transaction comes back beside an error, its source part still open under src_first |
| DoubleWrite.DoubleWritePool.ExecContext | webook/pkg/gormx/connpool/double_write_pool.go:92-124 | The primary decides the reply; the secondary gets the statement only after its success |
| DoubleWrite.DoubleWritePool.QueryContext | webook/pkg/gormx/connpool/double_write_pool.go:127-137 | Reads go to the primary alone |
| Validation.ForwardExact | webook/pkg/migrator/validator/validator.go:102-150 | The base scan sends, in id order and once each, exactly the truth about every differing id it could read before being cancelled, whatever queries fail |
| Validation.BackwardExact | webook/pkg/migrator/validator/validator.go:153-210 | The target scan sends one base-missing event, in id order, for exactly the ids it reaches that the base lacks, and for every id of a page whose base query failed; a failed page query ends it |
| Validation.PageExact | webook/pkg/migrator/validator/validator.go:157-158 | A page holds, in order, exactly the ids whose rank lies in its window, for any table size |
| Validation.FullValidationExact | webook/pkg/migrator/validator/validator.go:70-80 | On quiescent tables without query errors each event is sent exactly once if true and never if false: every differing id once, with its type and direction |
| Validation.ConsistentIsEqual | webook/pkg/migrator/validator/validator.go:128-140 | Tables with no inconsistent id are equal |
| Validation.DiffIsMissing | webook/pkg/migrator/validator/validator.go:196-199 | The difference of a page and the rows found for it is the ids the base lacks |
| Validation.Validator.ValidateBaseToTarget | webook/pkg/migrator/validator/validator.go:102-150 | The scan loop ends, also when cancelled, having notified the specified events |
| Validation.Validator.ValidatePage | webook/pkg/migrator/validator/validator.go:176-207 | One page's events; it is the last if and only if it is not full and the base has some of it |
| Validation.Validator.ValidateTargetToBase | webook/pkg/migrator/validator/validator.go:153-210 | The page loop ends, also when the size is a multiple of the page size, having notified the specified events |
| Validation.Validator.NotifyBaseMissing | webook/pkg/migrator/validator/validator.go:213-217 | One base-missing event notified per row, in order |
| Validation.Validator.Validate | webook/pkg/migrator/validator/validator.go:70-80 | Both scans run to their end |
| Validation.AllDelivered | webook/pkg/migrator/validator/validator.go:220-234 | Every event notified is delivered if and only if no send failed; otherwise as many are missing as sends failed |
| Validation.Producer.ProduceInconsistentEvent | webook/pkg/migrator/validator/validator.go:223-233 | An event whose send fails is notified and not sent |
| Validation.Validator.CompareOne | webook/pkg/migrator/validator/validator.go:128-147 | One row's verdict; a failed target query says nothing |
| Validation.InconsistencyMeans | webook/pkg/migrator/validator/validator.go:128-147 | What each event type says of the two tables |
| Fixing.RepairedAt | webook/pkg/migrator/fixer/fixer.go:36-55 | A fix makes one id's row the base's, present or absent, and touches no other |
| Fixing.ReplayAt | webook/pkg/migrator/fixer/fixer.go:36-55 | Replay repairs exactly the ids named, with repeats and spurious ids |
| Fixing.ReplayConverges | webook/pkg/migrator/fixer/fixer.go:36-55 | Replay makes the target equal the base if and only if every inconsistent id is named |
| Fixing.ReplayOrderFree | webook/pkg/migrator/fixer/fixer.go:36-55 | Sequences naming the same ids, in any order and number, give the same target |
| Fixing.ValidateThenReplay | webook/pkg/migrator/events/fixer/consumer.go:70-81 | A full validation's events, however interleaved and whatever else is replayed with them, repair everything |
| Fixing.OneDirection | webook/pkg/migrator/events/fixer/consumer.go:70-81 | Events of one direction never modify the base and replay onto the other side |
| Fixing.OverrideFixer.Fix | webook/pkg/migrator/fixer/fixer.go:36-55 | Delete if the base has no row, else upsert; a failure leaves the target as it was |
| Fixing.Consumer.constructor | webook/pkg/migrator/events/fixer/consumer.go:27-50 | The src fixer repairs dst from src, the dst fixer src from dst |
| Fixing.Consumer.Consume | webook/pkg/migrator/events/fixer/consumer.go:70-81 | SRC events make one row of dst that of src, DST events one row of src that of dst, and nothing else changes; an unknown direction is refused and changes nothing |
| Fixing.Consumer.ConsumeClaim | webook/pkg/samarax/handler.go:26-51 | Every message is marked; those that take effect are exactly, and in order, the ones of known direction whose fix does not fail, so all of them when nothing fails |
| Fixing.ValidateThenConsume | webook/pkg/migrator/events/fixer/consumer.go:70-81 | A full validation's events, in any order and number and with any others of their direction, leave both databases equal to the base when consumed |
| MigrationScheduler.Scheduler.constructor | webook/pkg/migrator/scheduler/scheduler.go:46-68 | Starts in src_only; agrees with the pool exactly if the pool does too |
| MigrationScheduler.Scheduler.SrcFirst | webook/pkg/migrator/scheduler/scheduler.go:83-94 | Scheduler and pool patterns agree on src_first afterwards |
| MigrationScheduler.Scheduler.SrcOnly | webook/pkg/migrator/scheduler/scheduler.go:95-106 | The same for src_only |
| MigrationScheduler.Scheduler.DstFirst | webook/pkg/migrator/scheduler/scheduler.go:107-119 | The same for dst_first |
| MigrationScheduler.Scheduler.DstOnly | webook/pkg/migrator/scheduler/scheduler.go:120-131 | The same for dst_only |
| MigrationScheduler.Scheduler.NewValidator | webook/pkg/migrator/scheduler/scheduler.go:142-151 | The base is the scheduler pattern's primary, so the store queries read from if and only if the pool's pattern has the same primary; its events reach the fixer that repairs the other store from it |
| LiveMigration.LiveMigrationConverges | webook/pkg/migrator/validator/validator.go:102-210 | From any two tables, with double writes, fixes and lost fixes interleaved step by step with both scans, none of them exposing: once the scans end and no event is left the target is the base, which holds just what the application wrote |
| LiveMigration.InvHolds | webook/pkg/migrator/validator/validator.go:102-210 | At every point of every allowed run, each id on which the stores differ is unscanned or has a pending event |
| LiveMigration.ScanRowKeeps | webook/pkg/migrator/validator/validator.go:106-148 | The base scan's step hides no difference and finds no hidden one |
| LiveMigration.ScanPageKeeps | webook/pkg/migrator/validator/validator.go:156-208 | Nor does the page scan's |
| LiveMigration.UpdatesAndAppendsHarmless | webook/pkg/gormx/connpool/double_write_pool.go:99-120 | In every state where the invariant holds, no UPDATE both databases answer exposes, whether its row is in both stores, one or none, and no INSERT of an id above all others |
| LiveMigration.WriteIsDoubleExec | webook/pkg/gormx/connpool/double_write_pool.go:92-124 | A write step is what the pool does under a first pattern, whichever databases fail |
| LiveMigration.BaseIsTraffic | webook/pkg/migrator/fixer/fixer.go:36-55 | Nothing but the application's statements changes the base |
| LiveMigration.CanFinish | webook/pkg/migrator/validator/validator.go:102-210 | Every allowed run extends, by scanning and fixing alone, to a finished allowed run |
| LiveMigration.QuietScansValidate | webook/pkg/migrator/validator/validator.go:70-80 | Scan steps alone, in any interleaving, conserve the events sent and still to send, and so end with exactly a full validation's events |
| LiveMigration.DeletingAReadRowHidesAnother | webook/pkg/migrator/validator/validator.go:83-90 | Deleting a row behind the base scan's offset exposes another: the validation ends with unequal stores |
| LiveMigration.UpsertOverStrayRow | webook/pkg/migrator/validator/validator.go:102-210 | An upsert creating a base row over a stray target row after the base scan exposes it |
| LiveMigration.FixingEarlyHidesARow | webook/pkg/migrator/validator/validator.go:153-210 | Of any target larger than a page, fixing the first reported stray row during the page scan exposes: it hides the first row of the next page |
| LiveMigration.StoppingAnywhereConverges | webook/pkg/migrator/validator/validator.go:102-210 | Of any run from any two tables: stopping it anywhere and finishing quietly makes the stores equal, from every point, if and only if each of its steps is allowed, that is no write, fix or lost event exposes a difference |
| LiveMigration.QuietFinishExact | webook/pkg/migrator/validator/validator.go:102-210 | From any state, scanning on and fixing once the page scan is over leaves the stores different on exactly the ids that were hidden, so equal if and only if the invariant held |
| LiveMigration.WriteExact | webook/pkg/gormx/connpool/double_write_pool.go:92-124 | A double write, whichever database fails or refuses it, keeps the invariant if and only if it does not expose: it leaves its own id different, scanned and unreported, or removes a scanned row while an unreported difference stands at that scan's offset |
| LiveMigration.FixExact | webook/pkg/migrator/fixer/fixer.go:36-55 | A fix keeps it if and only if it does not delete a scanned target row while an unreported target-only row stands at the page offset |
| LiveMigration.DropExact | webook/pkg/samarax/handler.go:40-48 | A consumed event whose fix failed keeps it if and only if a scan or another event still covers its id |
| LiveMigration.RunExact | webook/pkg/migrator/validator/validator.go:102-210 | A run keeps the invariant at every point if and only if each step is allowed |
| LiveMigration.QuietFinish | webook/pkg/migrator/validator/validator.go:102-210 | Every state whatever has a quiet finish |
| LiveMigration.LostWriteExposes | webook/pkg/gormx/connpool/double_write_pool.go:100-108 | A write only the base accepts, changing a compared row with no event pending, always exposes |
| JobPreemption.MutualExclusion | webook/internal/repository/dao/job.go:35-92 | For any interleaving a job has at most one holder, is Running exactly when held or orphaned by a crash or lost release, and its version has risen by one per successful preempt |
| JobPreemption.RunningMeansHeld | webook/internal/service/job.go:28-53 | Without crashes or lost releases, Running exactly when held |
| JobPreemption.VersionsCountStarts | webook/internal/repository/dao/job.go:48-53 | The version rises by exactly one per winning compare-and-set and by nothing else |
| JobPreemption.NeverEarly | webook/internal/repository/dao/job.go:37-53 | No run starts before its due time although the update checks only id and version; none starts until every reset time that landed has passed; start versions only rise |
| JobPreemption.StepKeeps | webook/internal/job/mysql_job.go:63-114 | Every step of every node keeps the invariant behind these |
| JobPreemption.HeldRowIsPrivate | webook/internal/job/mysql_job.go:93-112 | While a job is held nothing others do changes its row but utime |
| JobPreemption.PreemptProgress | webook/internal/repository/dao/job.go:37-62 | A Preempt call's failed updates never outnumber the starts other tasks won during the call |
| JobPreemption.FirstEligible | webook/internal/repository/dao/job.go:40-41 | The due waiting job of least id, if there is one |
| JobPreemption.GORMJobDAO.Take | webook/internal/repository/dao/job.go:48-57 | One row is affected exactly when the update runs and id and version still match, and it alone becomes Running with the next version |
| JobPreemption.GORMJobDAO.Release | webook/internal/repository/dao/job.go:66-73 | The row becomes Waiting, whoever asks |
| JobPreemption.GORMJobDAO.UpdateUtime | webook/internal/repository/dao/job.go:76-82 | Only utime changes |
| JobPreemption.GORMJobDAO.UpdateNextTime | webook/internal/repository/dao/job.go:85-92 | Only utime and the next time change |
| JobPreemption.Cluster.Preempt | webook/internal/repository/dao/job.go:35-63 | The loop takes exactly the protocol's steps; a round is lost only if others stepped between its read and its update, and its lost rounds never outnumber the jobs others took meanwhile; it ends with a held job, with none due, or with the failed request's error |
| JobPreemption.Cluster.Attempt | webook/internal/repository/dao/job.go:37-62 | One read and update through the table, with the same |
| JobPreemption.Cluster.RunHeld | webook/internal/job/mysql_job.go:93-112 | Execute, reset on success, release: the row ends due at the new time if and only if the reset landed, and Waiting unless the release failed, whatever others do meanwhile |
| JobPreemption.GORMJobDAO.FindDue | webook/internal/repository/dao/job.go:40-44 | The read returns that job, or its error |
| JobPreemption.Cluster.Update | webook/internal/repository/dao/job.go:48-60 | The update alone: won, lost to a changed version, or an error |
| JobPreemption.StepsAreRecorded | webook/internal/repository/dao/job.go:37-53 | Read off the rows: a version rises only by one, by an update that finds the job waiting and due and records it; a next time moves only by its holder's reset, which records it |
| AsyncSms.LeaseSpacing | webook/internal/repository/dao/async_sms.go:43-72 | Two preemptions of one message are always more than 60000 ms apart |
| AsyncSms.RetryBound | webook/internal/service/sms/async/service.go:45-85 | In every run, however long attempts take: at most one attempt per message is in flight within its lease, the retry count is the number of attempts, and it never exceeds max(1, retry max) plus those lost, those reported late and those still in flight past their lease |
| AsyncSms.OutcomeIsFinal | webook/internal/repository/dao/async_sms.go:74-93 | If no report on a message lands after its attempt's lease, the message leaves waiting at most once and its row never changes again, whatever other messages do |
| AsyncSms.LateReportOverturns | webook/internal/repository/dao/async_sms.go:84-93 | A report later than its lease can turn success into failure |
| AsyncSms.StepKeeps | webook/internal/repository/dao/async_sms.go:43-93 | Every step, timely or not, keeps the bound and the single attempt within its lease |
| AsyncSms.OwnedRowIsPrivate | webook/internal/repository/dao/async_sms.go:60-67 | While an attempt is within its lease and no older one reports late, nothing others do changes the message's row |
| AsyncSms.FirstWaiting | webook/internal/repository/dao/async_sms.go:50-54 | The waiting message older than the lease of least id, if there is one |
| AsyncSms.GORMAsyncSmsDAO.GetWaitingSMS | webook/internal/repository/dao/async_sms.go:43-72 | The first eligible message is counted and touched, or nothing changes; it is not eligible again at that time |
| AsyncSms.GORMAsyncSmsDAO.MarkSuccess | webook/internal/repository/dao/async_sms.go:74-82 | Success whatever the row says, or nothing on failure |
| AsyncSms.GORMAsyncSmsDAO.MarkFailed | webook/internal/repository/dao/async_sms.go:84-93 | Failed only once the retries are used up, or nothing on failure |
| AsyncSms.Service.Send | webook/internal/service/sms/async/service.go:87-97 | A message is stored waiting, with retry maximum 3 and update time zero, unless the insert fails |
| AsyncSms.Service.AsyncSend | webook/internal/service/sms/async/service.go:45-85 | One round is the protocol's whatever happens meanwhile; ending within its lease and with no older attempt reporting late, its row's outcome depends only on its own send, report and retry count |
| AsyncSms.RetryBoundUnderLease | webook/internal/service/sms/async/service.go:45-85 | With no late report on a message and none of its attempts overdue, it never exceeds max(1, retry max) plus lost reports |
| AsyncSms.SettledExact | webook/internal/repository/dao/async_sms.go:74-93 | A settled message never waits again, and a step changes its outcome if and only if it is a report contradicting it that is a success or finds the retries used up |
| AsyncSms.OutcomeStandsExactly | webook/internal/repository/dao/async_sms.go:74-93 | An outcome stands at every point of a run if and only if no report overturns it |
| AsyncSms.GORMAsyncSmsDAO.Insert | webook/internal/repository/dao/async_sms.go:39-41 | A new message waits with update time zero, or nothing changes |
| AsyncSms.TriesAreRecorded | webook/internal/repository/dao/async_sms.go:50-69 | Read off the rows: a try is counted only for a message waiting and untouched for more than 60000 ms, which it touches |
| AsyncSms.SpoiltAreRecorded | webook/internal/service/sms/async/service.go:63-84 | A loss is counted only for a lost report, and a late report only past 60000 ms |
| Interactive.LikeDrift | webook/interactive/repository/dao/interactive.go:89-144 | For every run the counter minus the number of likers moves by one per repeated like and back by one per groundless cancel, and by nothing else |
| Interactive.LikeCountExact | webook/interactive/repository/dao/interactive.go:89-144 | The counter equals the number of users with status 1 at every point of a run if and only if no like is repeated and no cancel is groundless |
| Interactive.GuardedNonNegative | webook/interactive/repository/dao/interactive.go:125-144 | Such a run never makes the counter negative |
| Interactive.RepeatedLikeCountsTwice | webook/interactive/repository/interactive.go:72-80 | One user liking twice counts two |
| Interactive.LikersAfter | webook/interactive/repository/dao/interactive.go:89-144 | Like adds its user to the likers, cancel removes it, nothing else changes them |
| Interactive.ReadsAndCollectionsCounted | webook/interactive/repository/dao/interactive.go:70-87 | Every read and every collection is counted once, whatever runs in between |
| Interactive.BatchAddsMultiplicity | webook/interactive/repository/dao/interactive.go:35-54 | A batch adds to each article its multiplicity and changes nothing else but missing rows |
| Interactive.GORMInteractiveDAO.IncrReadCnt | webook/interactive/repository/dao/interactive.go:70-87 | Upsert of one read, or nothing on failure |
| Interactive.GORMInteractiveDAO.InsertLikeInfo | webook/interactive/repository/dao/interactive.go:89-123 | Record and counter change together or not at all |
| Interactive.GORMInteractiveDAO.DeleteLikeInfo | webook/interactive/repository/dao/interactive.go:125-144 | The same for cancel, which inserts nothing |
| Interactive.GORMInteractiveDAO.InsertCollectionBiz | webook/interactive/repository/dao/interactive.go:146-172 | The user's record and the counter change together or not at all; a second collection keeps its first folder and still counts |
| Interactive.GORMInteractiveDAO.BatchIncrReadCnt | webook/interactive/repository/dao/interactive.go:35-54 | Exactly the statements before the first failing one take effect; fewer ids than bizs panics |
| Interactive.GORMInteractiveDAO.BatchIncrReadCntV1 | webook/interactive/repository/dao/interactive.go:57-68 | All of the batch or none of it |
| Interactive.GORMInteractiveDAO.GetLikeInfo | webook/interactive/repository/dao/interactive.go:174-181 | Found exactly for the likers, or the query's error |
| Interactive.GORMInteractiveDAO.Get | webook/interactive/repository/dao/interactive.go:192-200 | The counter row, not found, or the query's error |
| Interactive.CollectionAfter | webook/interactive/repository/dao/interactive.go:146-158 | A collection leaves a record in the earlier folder or the given one, and no operation removes or moves a record |
| Interactive.CollectionRecords | webook/interactive/repository/dao/interactive.go:146-172 | In every run a record exists exactly for those who had one or collected, in the folder they had or that of their first collection |
| InteractiveCache.KeyOfInjective | webook/interactive/repository/cache/interactive.go:95-97 | Different articles have different cache keys, even with colons in biz |
| InteractiveCache.RoundTrip | webook/interactive/repository/cache/interactive.go:73-77 | A formatted integer parses back to itself |
| InteractiveCache.SetGet | webook/interactive/repository/cache/interactive.go:62-93 | What is set is got, and no other article's entry changes |
| InteractiveCache.CacheExecGet | webook/interactive/repository/cache/interactive.go:40-60 | Increment-if-present does to a present entry what the operation does to the row, and nothing to absent or other entries |
| InteractiveCache.InteractiveRedisCache.Incr | webook/interactive/repository/cache/interactive.go:40-60 | Increment if present, nothing on failure |
| InteractiveCache.InteractiveRedisCache.Get | webook/interactive/repository/cache/interactive.go:62-79 | The decoded entry; none if absent, empty or failing |
| InteractiveCache.InteractiveRedisCache.Set | webook/interactive/repository/cache/interactive.go:81-93 | The three fields are written unless HSET fails; a failing EXPIRE is reported although they are |
| InteractiveCache.KeyText | webook/interactive/repository/cache/interactive.go:95-97 | The text of two keys |
| InteractiveCache.UnreadableIsZero | webook/interactive/repository/cache/interactive.go:75-77 | A field missing or not a number reads as zero |
| InteractiveRepository.CachedAnswers | webook/interactive/repository/interactive.go:59-123 | At every point of every interleaving of calls, failures and expiries: a miss answers as the tables without a cache; a hit is right if and only if the updates committed since its row was read equal, field by field, the increments applied since its entry was set |
| InteractiveRepository.CacheTransparent | webook/interactive/repository/interactive.go:59-123 | With calls one after another and no cache increment of an article failing, Get answers as the tables alone would; it may hide an outage but never shows another row |
| InteractiveRepository.RefillHeals | webook/interactive/repository/interactive.go:109-122 | Setting a row read makes the entry right if and only if the updates committed since the read come to nothing |
| InteractiveRepository.FillRace | webook/interactive/repository/interactive.go:104-123 | From every reachable state, a fetch whose read and set span an update leaves a wrong entry |
| InteractiveRepository.IncrementRace | webook/interactive/repository/interactive.go:59-70 | From every reachable state, so does a fetch made between an update's commit and its increment |
| InteractiveRepository.CachedInteractiveRepository.IncrReadCnt | webook/interactive/repository/interactive.go:59-70 | Both stores after the call; a lost increment is reported although the tables changed |
| InteractiveRepository.CachedInteractiveRepository.IncrLike | webook/interactive/repository/interactive.go:72-80 | The same for like |
| InteractiveRepository.CachedInteractiveRepository.DecrLike | webook/interactive/repository/interactive.go:82-88 | The same for cancel |
| InteractiveRepository.CachedInteractiveRepository.AddCollectionItem | webook/interactive/repository/interactive.go:90-102 | The same for collecting |
| InteractiveRepository.CachedInteractiveRepository.Get | webook/interactive/repository/interactive.go:104-123 | A hit answers from the entry and changes nothing; a miss answers from the table and, if the fill succeeds, leaves that row cached |
| InteractiveRepository.CachedInteractiveRepository.Liked | webook/interactive/repository/interactive.go:127-137 | True exactly for the likers; not found is no error, any other error is returned |
| InteractiveRepository.LedgerHolds | webook/interactive/repository/interactive.go:59-123 | In every interleaving, a cached entry has a row, and the row less the entry is the updates committed since the entry's row was read less the increments applied since the entry was set |
| InteractiveRepository.CallIsRequests | webook/interactive/repository/interactive.go:59-123 | Made by itself, a call's requests do to the tables and the cache what its method does |
| InteractiveRepository.ForgetMeans | webook/interactive/repository/cache/interactive.go:92-92 | An expiry removes one article's entry and nothing else |
| BatchConsumer.MarkedIsPrefix | webook/pkg/samarax/batch_hanler.go:32-81 | For any stream and timeouts, marked messages are a prefix of the received, fewer than ten stay unmarked, each is marked once or, if it decodes, twice, and the decodable ones of the prefix are handled once each in order |
| BatchConsumer.NothingSkipped | webook/pkg/samarax/batch_hanler.go:32-81 | At every point the finished batches and the pending one are the messages received, in order; no batch exceeds ten |
| BatchConsumer.CutsDoNotMatter | webook/pkg/samarax/batch_hanler.go:38-65 | Marks and handled events do not depend on where timeouts cut batches |
| BatchConsumer.ReadCountConserved | webook/interactive/events/consumer.go:46-58 | With every write succeeding each article's read count grows by the number of marked messages whose event has that aid, and no other row's does |
| BatchConsumer.WrittenIsCounted | webook/interactive/events/consumer.go:46-58 | With any writes failing it grows by the number of its reads that reached the tables, and nothing else changes but missing rows |
| BatchConsumer.InteractiveReadEventConsumer.BatchConsume | webook/interactive/events/consumer.go:46-58 | One read per event of the batch, up to the first failing statement |
| BatchConsumer.BatchHandler.Receive | webook/pkg/samarax/batch_hanler.go:36-65 | The receive loop takes the machine's next batch, or stops at a closed channel |
| BatchConsumer.BatchHandler.Finish | webook/pkg/samarax/batch_hanler.go:72-79 | The batch is handed on once and then all marked, whether or not handling failed |
| BatchConsumer.BatchHandler.ConsumeClaim | webook/pkg/samarax/batch_hanler.go:32-81 | On a whole stream the session's marks and the tables are the machine's |
| BatchConsumer.MessagesInOrder | webook/pkg/samarax/batch_hanler.go:43-47 | The messages are those received, each at its place, and no others |
| BatchConsumer.EventsInOrder | webook/pkg/samarax/batch_hanler.go:48-59 | The events are the values of the messages that decode, unchanged, each at its place, and no others |
| BatchConsumer.BatchEnds | webook/pkg/samarax/batch_hanler.go:38-47 | A batch ends with a timeout or its tenth message and nothing else, and holds all the messages since the one before |
| BatchConsumer.WrittenIsHandled | webook/interactive/events/consumer.go:46-58 | With every write succeeding the reads written are those of the handled events, in order |
| Ranking.OfferWhenFull | webook/internal/service/ranking_service.go:108-117 | Exchanging the least kept for a better one, and only then, keeps a top selection |
| Ranking.OfferWithRoom | webook/internal/service/ranking_service.go:107-108 | With room left, keeping everything is a top selection |
| Ranking.RecentAreRead | webook/internal/service/ranking_service.go:120-125 | Of a newest-first listing every article not older than the deadline is read |
| Ranking.BatchRankingService.Offer | webook/internal/service/ranking_service.go:103-117 | Offering one article keeps a top selection: with room it joins, when full it replaces a least one exactly if it scores higher |
| Ranking.BatchRankingService.Select | webook/internal/service/ranking_service.go:79-125 | Paging ends, reads each article up to its last page once, and holds min(n, read) of them, none below one left out; it fails exactly if the query of a page it reads fails |
| Ranking.BatchRankingService.DrainAsWritten | webook/internal/service/ranking_service.go:126-130 | The drain as written panics exactly when something was selected, and otherwise returns nothing |
| Ranking.BatchRankingService.DrainDescending | webook/internal/service/ranking_service.go:126-132 | Counting down, it yields the whole selection in descending score order |
| Ranking.BatchRankingService.TopN | webook/internal/service/ranking_service.go:59-132 | As written, an error exactly if a page's query fails, else a panic exactly when anything is listed |
| Ranking.BatchRankingService.TopNDescending | webook/internal/service/ranking_service.go:59-132 | Counting down, the best n of the articles read, in descending order |
| Ranking.ReadingStops | webook/internal/service/ranking_service.go:79-125 | Reading goes on while pages are full and end in an article not older than the deadline, and stops at the first that is not |

## Left out

- GORM, SQL text, MySQL, Kafka, Redis, contexts, logging and HTTP: replaced by maps, sequences and failure flags.
- The Lua script behind increment-if-present is not part of this model; it is specified by its name.
- Transaction isolation and locks: a transaction's statements are a log applied at commit, seen early only by itself.
- ConnPool.DoubleWriteRefinement: one pool call is one step, so two concurrent calls reaching the two databases in different orders are not modelled.
- ConnPool.InvisibleSwitching: assumes mirrored writes succeed, which is what keeps the two databases equal.
- QueryRowContext and PrepareContext of the pool: the first reads like QueryContext, the second always panics.
- LiveMigration.LiveMigrationConverges: a row's read and its comparison are one step, although they are two queries; a write between them is not modelled.
- Validation.Validator.Validate: runs the scans one after the other; LiveMigration.QuietScansValidate shows that no interleaving of them changes the events.
- Incremental validation: its query has no utime filter and its loops do not end.
- The scheduler's cancel functions and HTTP routes, and FixV1 and other unused fixers.
- Secondary unique indexes and auto-increment ids that differ between stores: a migrated row is keyed by id.
- WeightedRoundRobin.Picker.Pick: one atomic step, as the lock intends; the value receiver copies the mutex (wrr.go:28).
- The job scheduler's 100 permits, its executor table and NextTime: a missing executor is a holder that never releases, and the next time is arbitrary.
- Nothing recovers an orphaned job in the source either; Paused is never set.
- Integer widths other than the balancer's: counters, times and versions are unbounded.
- BatchConsumer.InteractiveReadEventConsumer.BatchConsume: writes the tables; the cache increments that follow in the background are not part of it.
- An update that landed although its reply was lost: in the job table it is a win followed by a crash, in the message table a preemption whose report is lost.
- The cache's 15-minute lifetime is an expiry that may happen at any moment, or never.
- GetByIds, Collected and ToDomain: plain lookups and copies.
- Redelivery after a restart: the batch handler is modelled on one session's stream.
- Articles without counts, and floating-point rounding in the ranking: scores are arbitrary reals per article.
- The queue library is specified by its contract: Enqueue refuses when full, Dequeue removes a least element.
- User, article, comment, follow and failover code: no state protocol beyond those above, or unfinished.
