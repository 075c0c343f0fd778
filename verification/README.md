# TradePulse: verified model

A Dafny model of the two stateful cores of TradePulse, with the properties a maintainer relies on
proved for every input, every schedule and every run.

**The processor service.** One consumer polls Kafka and submits decoded trades to a bounded job
channel; `poolSize` workers dequeue, enrich and publish each trade to three bounded sinks; each sink
has one receiver (order-book keeper, Redis writer, broadcaster). `Processor.dfy` models it as an
interleaving of atomic goroutine steps: a `select` is a free choice among the ready cases, and the
done case is ready as soon as the context is cancelled. Between two steps of one goroutine any
number of steps of the others may happen; `Apply` is a Get step and a later Update step, and `Write`
is up to four steps. A run is a finite sequence of enabled steps, and the theorems quantify over all
runs, for every pool and buffer size. A record carries its partition and offset. Trades are identified
by the position of their record in the consumer's dispatch order, so equal trades are counted
separately.

**Retry and the lag cache.** `Backoff` (64-bit doubling, saturation, jitter) drives the reconnect
loop and the refresh loop of `LagCache`, which serves stale readings and turns a history of refresh
outcomes into a health verdict. Beside them: `ReadLag`, the `/health` report and the symbol
normaliser.

| file | content |
|---|---|
| `Trades.dfy`, `OrderBooks.dfy` | the events, the enricher, the order books and what applying trades means |
| `Processor.dfy` | state, steps and runs of the processor service |
| `Conservation.dfy`, `Delivery.dfy`, `Commit.dfy` | what every step keeps: trade accounting, capacities, marks, lost trades |
| `Progress.dfy` | one measure for draining and for shutdown, deadlock freedom |
| `Fifo.dfy`, `Snapshots.dfy`, `Redis.dfy` | order, reads of the books, the Redis keys |
| `Replay.dfy`, `Restarts.dfy` | the keys and the order books over crashes and restarts, with one log per partition |
| `Pipeline.dfy` | the main results, stated over reachable states |
| `Gaps.dfy` | exactly when the marks of a partition can end up with a gap |
| `Extremes.dfy` | one state that attains every bound, for every pool and buffer size |
| `Witnesses.dfy` | runs that show a hypothesis is needed, and the exact conditions |
| `Schedules.dfy` | what each goroutine's loop makes of a schedule, as a function |
| `Goroutines.dfy` | the goroutines as loops over channel objects, proved against that function |
| `RedisWriter.dfy` | `Write` on its own, against its ordered sets and against the machine |
| `Backoff.dfy`, `LagCache.dfy`, `Lag.dfy` | `shared/retry` and `shared/kafka` |
| `Health.dfy`, `Symbols.dfy` | the health report, the symbol normaliser |

The imperative service and the step machine are tied together by an abstraction function. In
`Goroutines.Service` the job channel and the three sinks are `Chan` objects with a send and a receive
that are taken only when ready, the order books are an `OrderBookStore`, and each goroutine has its
own loop: `RunConsumer`, `RunWorker` with `Publish`, `RunKeeper`, `RunWriter`, `DrainSink`. `Abs` reads
these objects as a state of the machine. A loop's own actions do not use the machine's step functions:
it sends, receives, tests the context and updates its stores, and each such action is proved to be the
corresponding step. Between two actions of a loop the schedule lets the other goroutines take any
sequence of their steps, with the same actions. `Schedules.Play` says what a loop makes of a schedule:
at each turn the others take their steps, then the loop takes the step its code is at, with the select
case that the turn picks, if that is enabled. Every loop is proved to end exactly there, so none of them
idles, skips a turn or does anything else. Conversely `Schedules.PlaysEveryRun` shows that every run of
the machine is played by every loop under some schedule. The invariant `Valid` is that the recorded trace
leads from the initial state to `Abs()`, so all results over runs hold of the service at every point.

## Where the code and its documentation disagree

The model follows the code. Each point has a theorem.

- Records are said to be marked only once handled, so that a crash replays the unmarked tail
  (services/processor-service/internal/consumer.go:56-60). The handler wired in is `Submit`, so a
  record is marked once its trade is enqueued, and an error of the Redis write is only logged
  (redis_writer.go:55-57). `Witnesses.MarkedAndLost` shuts the service down, for every pool size, with
  a marked trade that never left the job channel; `Witnesses.FailedWriteIsLost` loses a marked trade
  to a failed set with no cancellation and nothing under way.
- After `Submit` refuses a record of a batch, the batch goes on, and a later record of the same
  partition can be accepted and marked: offsets are committed per partition, so a commit then skips the
  refused one (`Witnesses.RefusedIsSkipped`). Inside a batch this can still happen if and only if some
  well-formed record that is not enqueued yet has a later one of its partition:
  `Gaps.GapPossibleExactly`.
- `Pipeline.RestartSkips` gives the exact number of trades that a restart at the end of the marks skips,
  in every reachable state: those under way to the Redis sink or abandoned before it, those of which a
  set failed, the one being set, and the refused ones below a mark of their partition, less the one
  that is enqueued and not marked yet. A skipped trade is one of which not both keys were set.
- Over whole histories of processes that resume at the marks, with one worker and whatever sets fail, a
  symbol whose last price is not that of another of its trades ends settled if and only if some process
  moved its partition past its last trade without skipping it: `Replay.MarksSettleExactly`. `Witnesses.MarksDoNotSettle` is a graceful restart after
  which a symbol never settles; `Witnesses.SettledInSubmit` shows why no process may end inside Submit
  with a trade of the symbol.
- Per-symbol order is promised by partitioning (shared/domain/broker.go:11-13). A sink gets each
  symbol's trades in order in every run if and only if the pool has one worker:
  `Witnesses.OrderExactlyWithOneWorker`. The default pool has 100.
- The Redis writes are called idempotent under reprocessing (consumer.go:72-74). For the latest-trade
  and price keys replay converges in every history if and only if the pool has one worker
  (`Witnesses.ConvergesExactlyWithOneWorker`). During a replay the latest trade can fall behind the
  price (`Witnesses.ReplayFallsBehind`), though a price is never without a latest trade
  (`Redis.StaysPaired`). A restarted process has the same order book, and stores the same
  snapshot, only under the condition of `Restarts.RestartedBooksExactly`.
- A single slow round trip is said never to flap the health report (shared/kafka/lag_cache.go:21-24).
  `LagCaches.NeverStaleExactly` gives the exact condition; the default interval absorbs two failed
  refreshes, with one nanosecond to spare (`DefaultAbsorbsTwo`), an interval of two seconds not even a
  slow one (`ShortIntervalFlaps`).
- The doubling is said not to overflow; `Retry.CeilingClosedForm` shows that it does exactly when some
  `Base*2^i` lies in `[2^62, Max)`, which the defaults exclude. `Retry.DelaysDefinedExactly` gives the
  settings under which no attempt hands the random source a non-positive bound, where it panics.
- A group is said to be stalled when it has lag and no members (shared/kafka/lag.go:53-56). The total
  is an int64 sum, so lags that wrap it can hide a stalled group: `Lag.StalledExactly` says exactly
  when, `Lag.WrappedTotalHides` is such a reading.

## Model

| member | source | states |
|---|---|---|
| `Trades.Enrich` | services/processor-service/internal/enricher.go:31-37 | only notional and market change; a metadata miss forwards the zero market |
| `Processor.Configure` | services/processor-service/internal/pool.go:21-32 | every configuration yields positive sizes; non-positive ones become 100 workers and 256 slots; the enricher is the one given |
| `Pipeline.ServiceEnriches` | services/processor-service/internal/service.go:53-58 | with the service's enricher, in every run every trade that any sink receives is its record's trade with notional price times quantity and its symbol's market, the zero market on a miss |
| `Conservation.Conserved` | services/processor-service/internal/pool.go:38-80 | in every reachable state of every schedule: capacities hold, the job channel is the tail of the accepted trades, and each enriched trade occurs as often among the accepted as among queued, held, finished and abandoned; each sink's traffic balances the same way |
| `Conservation.StepKeeps` | services/processor-service/internal/fanout.go:47-63 | every single step of every goroutine keeps that invariant |
| `Pipeline.EveryTradeAccounted` | services/processor-service/internal/fanout.go:40-63 | each accepted trade is in exactly one place, no sink gets it twice, it is finished iff all three sinks have it and no worker holds it, none is abandoned before cancellation |
| `Pipeline.WindowsBeforeCancellation` | services/processor-service/internal/pool.go:34-45 | before cancellation: capacities, at most 2*poolSize trades short of a sink, skew between sinks at most poolSize sent and poolSize+bufferSize received, at most 2*poolSize+bufferSize+1 marked trades without a returned Redis write |
| `Extremes.BoundsAttained` | services/processor-service/internal/pool.go:34-45 | for every pool and buffer size one reachable state attains all of these bounds at once |
| `Pipeline.RestartSkips` | services/processor-service/internal/consumer.go:118-140 | in every reachable state the exact number of trades, marked or refused, that a restart at the end of the marks skips without both keys set, of marked ones among them, and of marked ones whose write has not returned; outside Submit none is skipped iff nothing is under way or abandoned before Redis, no set failed, none is being made and no refused trade lies below a mark of its partition |
| `Pipeline.PermutedPrefix` | services/processor-service/internal/pool.go:68-80 | any pool: a sink was sent a permutation of the dequeued prefix less at most poolSize trades |
| `Pipeline.NeverDeadlocks` | services/processor-service/internal/fanout.go:40-46 | no reachable state before cancellation is stuck; while a trade is under way some step moving trades onwards is enabled |
| `Pipeline.DrainsCompletely` | services/processor-service/internal/service.go:70-77 | once submissions stop every schedule is finite, and at its end all queues are empty and each receiver got exactly the multiset of enriched accepted trades |
| `Pipeline.CanDrain` | services/processor-service/internal/service.go:70-77 | a draining schedule exists from every reachable state before cancellation |
| `Pipeline.ShutsDown` | services/processor-service/internal/pool.go:47-65 | after cancellation every schedule is finite and can only end with every goroutine returned |
| `Progress.Lowers` | services/processor-service/internal/pool.go:67-80 | every step that moves trades, and after cancellation every step at all, lowers one numeric measure |
| `Progress.DeadlockFree` | services/processor-service/internal/fanout.go:47-63 | an enabled step is exhibited in every state that keeps the invariants |
| `Progress.DrainBounded` | services/processor-service/internal/service.go:70-77 | draining takes at most the measure, whatever the schedule |
| `Progress.DrainedDelivers` | services/processor-service/internal/fanout.go:47-63 | a drained pipeline has delivered to every receiver exactly the enriched accepted multiset |
| `Progress.ShutdownBounded` | services/processor-service/internal/service.go:70-77 | after cancellation no schedule is longer than the measure |
| `Progress.ShutdownCompletes` | services/processor-service/internal/service.go:90-108 | after cancellation a step is enabled until every goroutine has returned |
| `Delivery.AccountedOnce` | services/processor-service/internal/fanout.go:47-63 | the accounting of one trade, from the invariants |
| `Delivery.DistinctIds` | services/processor-service/internal/fanout.go:47-63 | the trades of one sink are accepted ones with pairwise distinct identities |
| `Delivery.Windows` | services/processor-service/internal/fanout.go:22-32 | capacities, delivery lag and skew from the counts |
| `Delivery.LostExactly` | services/processor-service/internal/redis_writer.go:51-80 | the number of marked trades of which not both keys were set, as a sum over where trades are, failed sets included |
| `Delivery.SkippedExactly` | services/processor-service/internal/consumer.go:122-140 | what a restart at the end of the marks skips: those and the refused trades below a mark of their partition, and no others |
| `Delivery.AtRiskExactly` | services/processor-service/internal/consumer.go:131-139 | the size of the set of marked trades without a returned write as a sum over where trades are |
| `Delivery.HeldOnce` | services/processor-service/internal/fanout.go:47-63 | a trade in a worker's hands was sent once to each sink behind it and to no other |
| `Delivery.AtRiskWindow` | services/processor-service/internal/consumer.go:131-139 | its bound before cancellation |
| `Commit.Disciplined` | services/processor-service/internal/consumer.go:97-140 | over every run: a dispatched record is marked iff malformed or accepted; accepted trades are the stream's well-formed records in order; before cancellation the marks are exactly the dispatched prefix |
| `Commit.LateBatchMarksNothing` | services/processor-service/internal/consumer.go:100-106 | a batch polled when the context is done marks and submits nothing in any continuation |
| `Gaps.GapPossibleExactly` | services/processor-service/internal/consumer.go:112-137 | inside a batch before cancellation, a continuation without another poll can leave an unmarked record before a marked one of its partition iff some well-formed record of the batch is not enqueued yet and has a later one of its partition |
| `Gaps.GapIsRefusal` | services/processor-service/internal/consumer.go:131-137 | such a gap is a refused trade below a mark of its partition |
| `Witnesses.GapHappens` | services/processor-service/internal/consumer.go:112-137 | a run with a gap |
| `Witnesses.MarkedAndLost` | services/processor-service/internal/pool.go:38-45 | for every pool a run that ends with a marked trade in no sink and all goroutines returned |
| `Witnesses.FailedWriteIsLost` | services/processor-service/internal/redis_writer.go:51-57 | a run without cancellation that ends with a marked trade, nothing under way, and Redis unchanged because the set failed |
| `Witnesses.RefusedIsSkipped` | services/processor-service/internal/consumer.go:131-137 | a run that ends with nothing lost, nothing under way and no failed set, and a refused trade below a mark |
| `Fifo.OneWorkerIsFifo` | services/processor-service/internal/pool.go:68-80 | one worker, before cancellation: what a sink was sent and received is a prefix of the enriched accepted sequence |
| `Fifo.OneWorkerNeverReorders` | services/processor-service/internal/fanout.go:47-63 | one worker, cancelled or not: each sink's trades have increasing identities |
| `Fifo.SentPermutesPrefix` | services/processor-service/internal/pool.go:68-80 | per trade: the dequeued prefix equals what a sink was sent plus what workers hold and have not sent it |
| `Witnesses.FifoExactlyWithOneWorker` | services/processor-service/internal/pool.go:51-65 | before cancellation every sink is sent a prefix of the accepted trades in every run iff the pool has one worker |
| `Witnesses.OrderExactlyWithOneWorker` | services/processor-service/internal/pool.go:51-80 | every sink is sent each symbol's trades in dispatch order in every run, cancelled or not, iff the pool has one worker |
| `Witnesses.Inverting` | services/processor-service/internal/fanout.go:47-63 | for every larger pool and every sink a run that sends it two trades in the wrong order |
| `Witnesses.Overtaking` | services/processor-service/internal/pool.go:51-65 | for every larger pool a run in which the second trade reaches a sink first |
| `Snapshots.Linearizable` | services/processor-service/internal/orderbook.go:21-64 | every Get interleaved with the two-step Apply returns the book of a prefix of the received trades, at most one short, and prefixes seen later extend earlier ones |
| `Snapshots.StepKeeps` | services/processor-service/internal/orderbook.go:36-53 | every step keeps the map equal to the fold over the applied trades, and the book the keeper read current |
| `OrderBooks.FoldMeaning` | services/processor-service/internal/orderbook.go:36-53 | after any trades a symbol's asks are the last buy, its bids the last sell, its time the last trade; absent iff it never traded |
| `OrderBooks.ReplayIdempotent` | services/processor-service/internal/orderbook.go:36-53 | within one process replaying any suffix changes no book |
| `OrderBooks.RestartedBookExactly` | services/processor-service/internal/orderbook.go:14-19 | the book of a suffix of the trades is that of all of them iff the symbol's last trade, buy and sell are not before it |
| `Restarts.RestartedBooksExactly` | services/processor-service/internal/orderbook.go:14-64 | two processes over the same topic, one worker each, caught up: the same book of a symbol iff its last trade, buy and sell in its partition are before the earlier start or not before the later one |
| `Restarts.RestartedSnapshotExactly` | services/processor-service/internal/redis_writer.go:82-100 | the stored snapshots are equal under the same condition, if each was read after the symbol's last trade was applied |
| `Restarts.LastReceived` | services/processor-service/internal/orderbook.go:55-64 | the last trade of a kind that a caught-up keeper got is the last one in the symbol's partition, if that is not before its start |
| `OrderBooks.TwoWritersLoseAnUpdate` | services/processor-service/internal/orderbook.go:36-53 | two interleaved Applies can lose an update: the single keeper matters |
| `OrderBooks.OrderBookStore.Get` | services/processor-service/internal/orderbook.go:21-28 | presence and value of a symbol's book |
| `OrderBooks.OrderBookStore.Update` | services/processor-service/internal/orderbook.go:30-34 | replaces one book |
| `OrderBooks.OrderBookStore.Apply` | services/processor-service/internal/orderbook.go:36-53 | its Get and Update make one application |
| `OrderBooks.OrderBookStore.Run` | services/processor-service/internal/orderbook.go:55-64 | the receive loop leaves the expected book of every symbol |
| `Redis.Coherent` | services/processor-service/internal/redis_writer.go:51-103 | over an empty Redis, whatever sets fail: a price implies a latest trade of that symbol at or after it in the writer's order; a snapshot is a real prefix's book |
| `Redis.CoherentOverAny` | services/processor-service/internal/redis_writer.go:51-103 | over whatever earlier processes left: each symbol's keys are untouched, or only the latest trade is set anew, or both are and the price is not ahead |
| `Redis.StaysPaired` | services/processor-service/internal/redis_writer.go:65-80 | across any number of processes, wherever each resumes and whatever sets fail, a price key is never without a latest-trade key |
| `Redis.TrackedAlways` | services/processor-service/internal/redis_writer.go:51-80 | every trade whose first two sets are decided either had one fail, or both its keys show it or a later trade of its symbol |
| `Redis.SnapshotsNeverRegress` | services/processor-service/internal/redis_writer.go:82-100 | along any run a symbol's stored snapshot never moves to a shorter prefix |
| `Redis.OnlyItsSymbol` | services/processor-service/internal/redis_writer.go:65-103 | a step leaves every key of every other symbol alone |
| `Redis.StepKeeps` | services/processor-service/internal/redis_writer.go:65-103 | every step keeps the provenance of all three keys |
| `Redis.RenderInjective` | shared/domain/broker.go:48-54 | the three key families never collide, whatever the symbols |
| `Replay.Converges` | services/processor-service/internal/redis_writer.go:65-80 | one worker, one log and one offset per partition, any number of crashes, graceful or not, each resuming where every earlier trade was stored: at the end every symbol's latest-trade and price keys are those of its last trade in its partition |
| `Replay.SucceedingWritesStore` | services/processor-service/internal/redis_writer.go:65-80 | with no failing set every write that returned has stored its trade |
| `Replay.MarksSettleExactly` | services/processor-service/internal/consumer.go:56-80 | processes that resume at the end of the marks of each partition, whatever sets fail, none ending inside Submit with a trade of the symbol, the last price unique among its trades: the symbol ends settled iff it never trades or some process passed its last trade without skipping it |
| `Replay.KeptSettles` | services/processor-service/internal/consumer.go:56-80 | one half of it, without assumptions on prices or on where processes end |
| `Replay.PriceOrigin` | services/processor-service/internal/redis_writer.go:72-80 | after any such history a price key comes from a trade that some process stored, whatever the pool |
| `Replay.CrashesLeaveNoTrace` | services/processor-service/internal/consumer.go:72-80 | so a crashing and a crash-free history agree on both keys |
| `Replay.EnricherKeepsSymbol` | services/processor-service/internal/enricher.go:31-37 | the service's enricher meets a hypothesis of these lemmas |
| `Witnesses.OlderTradeLeft` | services/processor-service/internal/redis_writer.go:65-80 | for every larger pool a crash-free run that writes the whole log and leaves an older trade as the latest |
| `Witnesses.ConvergesExactlyWithOneWorker` | services/processor-service/internal/redis_writer.go:65-80 | every history that processes the whole log settles every symbol iff the pool has one worker |
| `Witnesses.EnricherDistinguishes` | services/processor-service/internal/enricher.go:31-37 | the service's enricher meets the hypothesis of that equivalence |
| `Witnesses.MarksDoNotSettle` | services/processor-service/internal/consumer.go:131-139 | a graceful restart that resumes at the marks and leaves a symbol unsettled for good |
| `Witnesses.SettledInSubmit` | services/processor-service/internal/consumer.go:131-139 | a process that ends inside Submit can have stored a trade that it does not mark |
| `Witnesses.ReplayFallsBehind` | services/processor-service/internal/redis_writer.go:72-80 | two processes, no failing set: a cut-off replay leaves the latest trade older than the price |
| `Goroutines.Chan.TrySend` | services/processor-service/internal/fanout.go:49-56 | a send is taken exactly when there is room, and appends |
| `Goroutines.Chan.TryReceive` | services/processor-service/internal/pool.go:70-71 | a receive is taken exactly when something is queued, and takes the oldest |
| `Goroutines.Service.constructor` | services/processor-service/internal/service.go:53-58 | the wired service is in the machine's initial state, with positive sizes |
| `Goroutines.Service.Publish` | services/processor-service/internal/fanout.go:47-63 | under any schedule the select loop over nil-able channels plays its turns; nil iff all three sinks accepted, ctx.Err() only when cancelled; each sink was sent the trade once if its variable is nil and otherwise not at all |
| `Goroutines.Service.RunWorker` | services/processor-service/internal/pool.go:67-80 | under any schedule the worker ends where Play says: it takes each turn's case exactly when it is ready; it returns iff it took the done case, and only when cancelled |
| `Goroutines.Service.Dispatch` | services/processor-service/internal/consumer.go:122-140 | dispatch with a blocking Submit, any steps of the others between enqueueing and marking: marked iff malformed or enqueued |
| `Goroutines.Service.DispatchBatch` | services/processor-service/internal/consumer.go:112-114 | the records of a batch are dispatched in order, up to where the schedule ends |
| `Goroutines.Service.RunConsumer` | services/processor-service/internal/consumer.go:97-116 | ends where Play says; what was handed to dispatch or waits in the batch is the batches of the turns at which it polled and then found the context not done, in order and without omission; the commit discipline holds; it returns iff stopped, and only when cancelled |
| `Schedules.ConsumerStream` | services/processor-service/internal/consumer.go:97-116 | the same of the function: each such batch enters the stream whole |
| `Schedules.OwnComplete` | services/processor-service/internal/service.go:70-77 | every enabled step of a goroutine is taken by its loop under some turn |
| `Schedules.PlaysEveryRun` | services/processor-service/internal/service.go:70-77 | every run of the machine is played by every goroutine's loop under some turns |
| `Goroutines.Service.RunKeeper` | services/processor-service/internal/orderbook.go:55-64 | the receive loop with Get and Update apart ends where Play says, and the map is the fold over the applied trades |
| `Goroutines.Service.RunWriter` | services/processor-service/internal/redis_writer.go:51-63 | the receive loop ends where Play says, whatever sets fail and whatever happens between them, and every symbol's keys stay coherent |
| `Goroutines.Service.Write` | services/processor-service/internal/redis_writer.go:65-103 | each of its sets and its Get is the machine's, and the first failure ends it |
| `Goroutines.Service.DrainSink` | services/processor-service/internal/service.go:90-108 | the broadcaster's receive loop ends where Play says and returns only when cancelled |
| `Goroutines.Service.Act` | services/processor-service/internal/service.go:70-77 | every enabled step of the machine is performed by an action of the loops |
| `Goroutines.Service.Perform` | services/processor-service/internal/service.go:70-77 | so every run of the machine can be performed on the channels |
| `RedisWriters.RedisWriter.Write` | services/processor-service/internal/redis_writer.go:65-103 | exactly the ordered sets before the first failure take effect; an error iff an attempted set failed |
| `RedisWriters.WriteMatchesMachine` | services/processor-service/internal/redis_writer.go:65-103 | Write and the machine's steps leave the same store for all outcomes |
| `Retry.CeilingClosedForm` | shared/retry/backoff.go:74-82 | the wrapping doubling loop equals min(Base*2^attempt, Max) for all attempts iff no doubling below Max overflows |
| `Retry.CeilingMonotone` | shared/retry/backoff.go:74-82 | the ceiling never decreases and is not negative |
| `Retry.SmallMaxNeverOverflows` | shared/retry/backoff.go:17-29 | Max up to 2^62 never overflows |
| `Retry.Backoff.CurrentCeiling` | shared/retry/backoff.go:76-82 | the loop computes the wrapping ceiling, and the closed form where nothing overflows |
| `Retry.DelaysDefinedExactly` | shared/retry/backoff.go:84-91 | for int64 settings: at every attempt that an int64 counts the random source is handed a positive int64 iff base and cap are not negative, no doubling overflows, and the base is zero or the cap below 2^63-1 |
| `Retry.Backoff.Next` | shared/retry/backoff.go:50-56 | under exactly these settings: the delay is the value drawn from [0, ceiling], the bound is a positive int64, attempt advances |
| `Retry.Backoff.Observe` | shared/retry/backoff.go:58-64 | an uptime of ResetAfter restarts the sequence |
| `Retry.Backoff.Reset` | shared/retry/backoff.go:69-72 | restarts the sequence |
| `Retry.WithBackoff` | shared/retry/backoff.go:102-123 | attempt equals the sessions since and including the last long one (all if none), and each wait is its own draw from its ceiling |
| `Retry.WaitsExactly` | shared/retry/backoff.go:102-123 | the waits that some draws produce are exactly those within the ceilings |
| `Retry.ShortSessionsWait` | shared/retry/backoff.go:102-123 | k short sessions from a fresh start wait at most min(Base*(2^k-1), k*Max) in all |
| `Retry.LongestTotal` | shared/retry/backoff.go:102-123 | and can wait the sum of the first k ceilings |
| `LagCaches.LagCache.constructor` | shared/kafka/lag_cache.go:80-98 | a non-positive interval becomes ten seconds; staleness is three intervals; the jitter is the default one |
| `LagCaches.LagCache.Refresh` | shared/kafka/lag_cache.go:140-164 | a success stores the reading and the time and clears the count, a failure keeps both, counts and stores the error; so the snapshot is a function of the whole history |
| `LagCaches.LagCache.Snapshot` | shared/kafka/lag_cache.go:166-182 | returns that function of the history |
| `LagCaches.LagCache.Age` | shared/kafka/lag_cache.go:184-198 | the age of the last success, if there was one |
| `LagCaches.LagCache.Check` | shared/kafka/lag_cache.go:202-238 | healthy iff some refresh succeeded, the last success is at most staleAfter old and not stalled, whatever failed since; no reading iff none succeeded; stale iff the last success is older |
| `LagCaches.CheckOf` | shared/kafka/lag_cache.go:210-213 | a nil cache reports itself unconfigured |
| `LagCaches.LagCache.Run` | shared/kafka/lag_cache.go:106-138 | at every loop head the backoff's attempt count is the number of trailing failures, and laps, history and time are those of the reads and draws, one jitter draw and one backoff draw per lap |
| `LagCaches.LegalExactly` | shared/kafka/lag_cache.go:106-138 | the laps that some reads and draws produce are exactly those within the jitter, timeout and backoff ranges |
| `LagCaches.JitterExactly` | shared/kafka/lag_cache.go:100-104 | the jittered interval takes exactly the values between its two bounds, truncation and a draw below one included |
| `LagCaches.AgeBound` | shared/kafka/lag_cache.go:113-138 | with at most k trailing failures the reading is at most MaxAge(k) old until the read in flight returns |
| `LagCaches.MaxAgeFormula` | shared/kafka/lag_cache.go:15-34 | MaxAge is the jittered interval plus k+1 read timeouts plus the first k ceilings |
| `LagCaches.AgeBoundTight` | shared/kafka/lag_cache.go:113-138 | the bound is attained by reads and draws of the loop, for every interval and k |
| `LagCaches.NeverStaleExactly` | shared/kafka/lag_cache.go:224-230 | whatever the reads and draws, k failures in a row can never make a check report staleness iff MaxAge(k) fits in three intervals |
| `LagCaches.DefaultAbsorbsTwo` | shared/kafka/lag_cache.go:15-34 | with the defaults that is iff k is at most two |
| `LagCaches.ShortIntervalFlaps` | shared/kafka/lag_cache.go:21-24 | with a two-second interval a slow successful read suffices |
| `Lag.ReadLag` | shared/kafka/lag.go:98-141 | the error cases in order; otherwise the one reading of the topic's partitions in the answer, empty if it does not mention the topic; for non-negative lags whose sum fits, stalled iff no members and some computed lag of the topic is positive |
| `Lag.Aggregate` | shared/kafka/lag.go:124-138 | for every traversal order: ascending partitions, exactly the map's entries, the error-free sum wrapped to an int64 |
| `Lag.SortInPlace` | shared/kafka/lag.go:136-138 | the slice is sorted in place |
| `Lag.ReadingUnique` | shared/kafka/lag.go:124-138 | a map has only one such reading |
| `Lag.StalledExactly` | shared/kafka/lag.go:53-56 | for non-negative lags: stalled iff no members and some partition behind, as long as the sum fits an int64; and exactly when a wrapped sum breaks that |
| `Lag.WrappedTotalHides` | shared/kafka/lag.go:124-134 | two partitions behind, no members, and not stalled |
| `HealthReports.RunChecks` | shared/httpserver/server.go:158-185 | under every schedule slot i holds checker i's name, error and detail from its second turn on and nothing before; Wait returns iff all have returned |
| `HealthReports.HandleHealth` | shared/httpserver/server.go:105-140 | ok and 200 iff no result has an error; the maps show the last result per name; details are omitted iff there are none |
| `HealthReports.Health` | shared/httpserver/server.go:101-140 | the report is ok iff every checker passed, shared names included; under each name it shows the last checker's error or ok, and the last detail; details are omitted iff no checker has one |
| `Symbols.NormalizeSymbols` | services/ingestion-service/internal/service.go:35-51 | no duplicates, no empties, exactly the non-empty normalised inputs, in first-occurrence order |
| `Symbols.FirstsOrdered` | services/ingestion-service/internal/service.go:30-34 | the output order is that of first occurrence |
| `Symbols.TwiceIsOnce` | services/ingestion-service/internal/service.go:30-34 | for every idempotent normaliser a second pass changes nothing |

## Left out

- Kafka, Redis, HTTP, logging and metrics clients: marking adds an index to a set, a Redis set is an atomic map update that may fail without effect, a poll hands over an arbitrary batch.
- JSON: a record is its decoding (malformed or a trade); a failed marshal ends a Redis write like a failed set, with the same effect on the keys.
- Floating point: prices are reals, and the jitter's arithmetic is exact before truncation.
- Fairness and wall-clock overhead: progress is deadlock freedom plus a decreasing measure; the timing bound counts jitter, read timeout and backoff only.
- Heap form of the concurrent service: channels and stores are objects; the other goroutines act on them between two actions of a loop rather than as threads of their own.
- Goroutines.Service.Publish: a schedule is finite, so an eternally blocked call appears as one that is still blocked when the schedule ends; so do the other loops.
- Replay.Converges: assumes that a restart resumes where every earlier trade was stored; what resuming at the marks gives instead is Replay.MarksSettleExactly.
- Replay.MarksSettleExactly: a restart resumes at the end of the marks, as after a graceful close; a commit that lags behind the marks only replays more, and is a history of Replay.Converges where the trades before it were stored.
- Lag.SortInPlace: the library's sort is an insertion sort here; only its result matters, since partitions are distinct.
- LagCaches.LagCache.Run: a finite number of laps without cancellation; the clock never shows the zero time.
- HealthReports.Health: assumes that every check goroutine gets to run to its end, which is when Wait returns.
- Retry.WithBackoff: a finite number of sessions without cancellation; the attempt counter is unbounded.
- WebSocket ingestion, the Kafka producer, the REST handlers, configuration and process wiring: input and output around the cores.
- Metadata table, middleware chain, domain helpers: single-branch members.
