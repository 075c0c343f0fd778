/** Concrete runs behind the hypotheses of the main results, and the exact conditions they give. */
module Witnesses {
  import opened Trades
  import opened Processor
  import opened Commit
  import Conservation
  import Delivery
  import Fifo
  import Gaps
  import opened Progress
  import opened Replay
  import Redis

  lemma Extend(c: Config, start: State, run: Run, s: State, step: Step) returns (more: Run, t: State)
    requires Exec(c, start, run) == Some(s) && Do(c, s, step).Some?
    ensures Exec(c, start, more) == Some(t) && Do(c, s, step) == Some(t) && more == Then(run, step)
    ensures SetsSucceed(run) && step != ByWriter(SetLatest(false)) && step != ByWriter(SetPrice(false)) ==> SetsSucceed(more)
  {
    more, t := Then(run, step), Do(c, s, step).value;
  }

  /** The record at offset o of partition 0. */
  function Trade(o: nat, event: TradeEvent): Record { WellFormed(0, o, event) }

  // ------------------------------------------------------------------ the first trade

  function Marked(c: Config, store: Store, a: TradeEvent, more: seq<Record>): State {
    Init(c, store).(intake := Intake(Dispatching(more, false), [Trade(0, a)], {0}),
                    pool := Init(c, store).pool.(accepted := [Job(0, a)], jobs := [Job(0, a)]))
  }

  /** A batch is polled, and its first trade accepted and marked. */
  lemma MarkFirst(c: Config, store: Store, a: TradeEvent, more: seq<Record>) returns (run: Run)
    requires c.poolSize > 0
    ensures Exec(c, Init(c, store), run) == Some(Marked(c, store, a, more)) && SetsSucceed(run)
  {
    var s0 := Init(c, store);
    var s: State;
    run, s := Extend(c, s0, Begin, s0, ByConsumer(Poll([Trade(0, a)] + more)));
    run, s := Extend(c, s0, run, s, ByConsumer(CheckContext));
    run, s := Extend(c, s0, run, s, ByConsumer(Submit));
    assert s.pool.jobs == [Job(0, a)] && s.pool.accepted == [Job(0, a)];
    run, s := Extend(c, s0, run, s, ByConsumer(Mark));
    assert s.intake == Intake(Dispatching(more, false), [Trade(0, a)], {0});
    assert s == Marked(c, store, a, more);
  }

  const NOT_REDIS: set<Sink> := {ToBook, ToBroadcast}

  function Taking(c: Config, store: Store, a: TradeEvent, more: seq<Record>): State
    requires c.poolSize > 0
  {
    var s, j := Marked(c, store, a, more), Enriched(c, Job(0, a));
    s.(pool := s.pool.(jobs := [], workers := s.pool.workers[0 := Publishing(j, NOT_REDIS)]),
       sinks := s.sinks.(redis := Channel([], [j])),
       writer := s.writer.(phase := BeforeLatest(j.event)))
  }

  /** Worker 0 sends it to the Redis sink, and the writer receives it. */
  lemma TakeFirst(c: Config, store: Store, a: TradeEvent, more: seq<Record>) returns (run: Run)
    requires Sized(c)
    ensures Exec(c, Init(c, store), run) == Some(Taking(c, store, a, more)) && SetsSucceed(run)
  {
    var s0, s, j := Init(c, store), Marked(c, store, a, more), Enriched(c, Job(0, a));
    run := MarkFirst(c, store, a, more);
    run, s := Extend(c, s0, run, s, ByWorker(0, Dequeue));
    assert s.pool.jobs == [];
    run, s := Extend(c, s0, run, s, ByWorker(0, Send(ToRedis)));
    assert ALL_SINKS - {ToRedis} == NOT_REDIS && s.sinks.redis == Channel([j], []);
    assert s.pool.workers == s0.pool.workers[0 := Publishing(j, NOT_REDIS)];
    run, s := Extend(c, s0, run, s, ByWriter(TakeWrite));
    assert s.sinks.redis == Channel([], [j]);
    assert s == Taking(c, store, a, more);
  }

  // ------------------------------------------------------------------ two workers overtake

  /** Two trades are polled and both accepted, the first one marked. */
  lemma AcceptTwo(c: Config, a: TradeEvent, b: TradeEvent) returns (run: Run, s: State)
    requires c.poolSize >= 2
    ensures Exec(c, Init(c, map[]), run) == Some(s) && SetsSucceed(run)
    ensures s == Init(c, map[]).(intake := Intake(Dispatching([Trade(1, b)], true), [Trade(0, a)], {0}),
                                 pool := s.pool)
    ensures s.pool == Init(c, map[]).pool.(accepted := [Job(0, a), Job(1, b)], jobs := [Job(0, a), Job(1, b)])
  {
    run := MarkFirst(c, map[], a, [Trade(1, b)]);
    run, s := Extend(c, Init(c, map[]), run, Marked(c, map[], a, [Trade(1, b)]), ByConsumer(Submit));
  }

  /** Workers 0 and 1 hold the first and the second trade; the second has reached sink k. */
  ghost predicate Overtaken(c: Config, s: State, a: TradeEvent, b: TradeEvent, k: Sink) {
    var s0 := Init(c, map[]);
    && s == s0.(intake := s.intake, pool := s.pool, sinks := Put(s0.sinks, k, Channel([Enriched(c, Job(1, b))], [])))
    && s.intake == Intake(Dispatching([Trade(1, b)], true), [Trade(0, a)], {0})
    && s.pool.accepted == [Job(0, a), Job(1, b)]
    && |s.pool.workers| >= 2 && s.pool.workers[0] == Publishing(Enriched(c, Job(0, a)), ALL_SINKS)
  }

  /** With two workers the second trade can reach a sink while the first has not. */
  lemma Overtaking(c: Config, a: TradeEvent, b: TradeEvent, k: Sink) returns (run: Run, s: State)
    requires c.poolSize >= 2 && c.bufferSize > 0
    ensures Exec(c, Init(c, map[]), run) == Some(s) && SetsSucceed(run) && Overtaken(c, s, a, b, k)
    ensures Sent(s, k) == [Enriched(c, Job(1, b))]
  {
    var s0 := Init(c, map[]);
    run, s := AcceptTwo(c, a, b);
    run, s := Extend(c, s0, run, s, ByWorker(0, Dequeue));
    assert s.pool.jobs == [Job(1, b)] && s.pool.workers[1] == Idle;
    run, s := Extend(c, s0, run, s, ByWorker(1, Dequeue));
    assert At(s.sinks, k).queue == [];
    run, s := Extend(c, s0, run, s, ByWorker(1, Send(k)));
    assert At(s.sinks, k) == Channel([Enriched(c, Job(1, b))], []);
  }

  /** The receive of sink k's goroutine. */
  function Take(k: Sink): Step {
    match k
    case ToBook => ByKeeper(TakeUpdate)
    case ToRedis => ByWriter(TakeWrite)
    case ToBroadcast => ByBroadcaster(TakeBroadcast)
  }

  lemma TakeIn(c: Config, s: State, k: Sink)
    requires At(s.sinks, k).queue != [] && s.keeper.phase.KeeperIdle? && s.writer.phase.WriterIdle? && s.broadcasting
    ensures Do(c, s, Take(k)).Some?
    ensures var t := Do(c, s, Take(k)).value;
            t.pool == s.pool && t.sinks == Put(s.sinks, k, Taken(At(s.sinks, k)))
  {
  }

  /** And then the first one follows: the sink is sent the two in the wrong order. */
  lemma Inverting(c: Config, a: TradeEvent, b: TradeEvent, k: Sink) returns (run: Run, s: State)
    requires c.poolSize >= 2 && c.bufferSize > 0
    ensures Exec(c, Init(c, map[]), run) == Some(s) && !s.cancelled
    ensures Sent(s, k) == [Enriched(c, Job(1, b)), Enriched(c, Job(0, a))]
  {
    var s0 := Init(c, map[]);
    run, s := Overtaking(c, a, b, k);
    TakeIn(c, s, k);
    run, s := Extend(c, s0, run, s, Take(k));
    assert At(s.sinks, k) == Channel([], [Enriched(c, Job(1, b))]);
    Frame(c, Exec(c, s0, run.before).value, Take(k), s);
    run, s := Extend(c, s0, run, s, ByWorker(0, Send(k)));
    assert At(s.sinks, k) == Channel([Enriched(c, Job(0, a))], [Enriched(c, Job(1, b))]);
  }

  const SOME_TRADE := TradeEvent("", 0.0, 0.0, Other, 0, 0.0, NO_MARKET, false, 0, 0)

  /** In every run, before cancellation, sink k is sent a prefix of the accepted trades. */
  ghost predicate AlwaysFifo(c: Config, k: Sink) {
    forall run, s :: Exec(c, Init(c, map[]), run) == Some(s) && !s.cancelled ==>
                       Sent(s, k) <= EnrichAll(c, s.pool.accepted)
  }

  /** Delivery is FIFO in every run exactly when the pool has a single worker. */
  lemma FifoExactlyWithOneWorker(c: Config, k: Sink)
    requires Sized(c)
    ensures AlwaysFifo(c, k) <==> c.poolSize == 1
  {
    if c.poolSize == 1 {
      forall run, s | Exec(c, Init(c, map[]), run) == Some(s) && !s.cancelled
        ensures Sent(s, k) <= EnrichAll(c, s.pool.accepted) {
        Fifo.OneWorkerIsFifo(c, map[], run, s, k);
      }
    } else {
      var run, s := Overtaking(c, SOME_TRADE, SOME_TRADE, k);
      assert EnrichAll(c, s.pool.accepted)[0].id == 0 && Sent(s, k)[0].id == 1;
      assert !(Sent(s, k) <= EnrichAll(c, s.pool.accepted));
    }
  }

  /** The trades of each symbol are in the order in which their records were dispatched. */
  ghost predicate SymbolOrdered(js: seq<Job>) {
    forall x, y :: 0 <= x < y < |js| && js[x].event.symbol == js[y].event.symbol ==> js[x].id < js[y].id
  }

  /** In every run, cancelled or not and over any Redis, sink k is sent each symbol's trades in order. */
  ghost predicate AlwaysOrdered(c: Config, k: Sink) {
    forall store, run, s :: Exec(c, Init(c, store), run) == Some(s) ==> SymbolOrdered(Sent(s, k))
  }

  /** Per-symbol order is kept in every run exactly when the pool has a single worker. */
  lemma OrderExactlyWithOneWorker(c: Config, k: Sink)
    requires Sized(c)
    ensures AlwaysOrdered(c, k) <==> c.poolSize == 1
  {
    if c.poolSize == 1 {
      forall store, run, s | Exec(c, Init(c, store), run) == Some(s) ensures SymbolOrdered(Sent(s, k)) {
        Fifo.OneWorkerNeverReorders(c, store, run, s);
        assert Increasing(Sent(s, k));
      }
    } else {
      var run, s := Inverting(c, SOME_TRADE, SOME_TRADE, k);
      assert Sent(s, k)[0].id == 1 && Sent(s, k)[1].id == 0;
      assert !SymbolOrdered(Sent(s, k));
    }
  }

  // ------------------------------------------------------------------ and leave an older trade behind

  /** The writer sets both keys of the trade it has received, while no book exists. */
  lemma WriteOne(c: Config, start: State, run: Run, s: State) returns (more: Run, t: State)
    requires Exec(c, start, run) == Some(s) && SetsSucceed(run)
    requires s.writer.phase.BeforeLatest? && s.keeper.data == map[]
    ensures Exec(c, start, more) == Some(t) && SetsSucceed(more)
    ensures t == s.(writer := t.writer) && t.writer.phase.WriterIdle?
    ensures var e := s.writer.phase.event;
            t.writer.store == s.writer.store[LatestTrade(e.symbol) := TradeJson(e)][Price(e.symbol) := PriceText(e.price)]
  {
    more, t := Extend(c, start, run, s, ByWriter(SetLatest(true)));
    more, t := Extend(c, start, more, t, ByWriter(SetPrice(true)));
    more, t := Extend(c, start, more, t, ByWriter(ReadBook));
  }

  /** The second trade is written first, with the first still in a worker's hands. */
  lemma WriteSecond(c: Config, a: TradeEvent, b: TradeEvent) returns (run: Run, s: State)
    requires c.poolSize >= 2 && c.bufferSize > 0
    ensures Exec(c, Init(c, map[]), run) == Some(s) && SetsSucceed(run)
    ensures Stream(s.intake) == [Trade(0, a), Trade(1, b)]
    ensures |s.pool.workers| >= 2 && s.pool.workers[0] == Publishing(Enriched(c, Job(0, a)), ALL_SINKS)
    ensures s.sinks.redis == Channel([], [Enriched(c, Job(1, b))])
    ensures s.writer.phase.WriterIdle? && s.keeper.data == map[]
  {
    var s0 := Init(c, map[]);
    run, s := Overtaking(c, a, b, ToRedis);
    run, s := Extend(c, s0, run, s, ByWriter(TakeWrite));
    assert s.sinks.redis == Channel([], [Enriched(c, Job(1, b))]);
    run, s := WriteOne(c, s0, run, s);
  }

  /** With two workers a single process, without any crash and with every set succeeding, can
      write the whole log and still leave a symbol's older trade as its latest. */
  lemma OlderTradeLeft(c: Config, a: TradeEvent, b: TradeEvent) returns (l: Life)
    requires c.poolSize >= 2 && c.bufferSize > 0 && KeepsSymbol(c)
    requires a.symbol == b.symbol && c.enrich(a) != c.enrich(b)
    ensures var log := [Trade(0, a), Trade(1, b)];
            && History(c, [log], [l]) && Home([log], a.symbol, 0) && ResumeAfter([l], 0) == |log|
            && SetsSucceed(l.run) && !Settled(c, log, StoreAfter([l]), a.symbol)
  {
    var s0 := Init(c, map[]);
    var run, s := WriteSecond(c, a, b);
    run, s := Extend(c, s0, run, s, ByWorker(0, Send(ToRedis)));
    run, s := Extend(c, s0, run, s, ByWriter(TakeWrite));
    assert s.sinks.redis == Channel([], [Enriched(c, Job(1, b)), Enriched(c, Job(0, a))]);
    run, s := WriteOne(c, s0, run, s);
    l := Life([0], run, s, [2]);
    OlderLeftBehind(c, a, b, l);
  }

  /** A process that is handed the records of one partition from the first on. */
  lemma FedTwo(a: TradeEvent, b: TradeEvent)
    ensures FedStream([[Trade(0, a), Trade(1, b)]], [0], [Trade(0, a), Trade(1, b)])
  {
    var st := [Trade(0, a), Trade(1, b)];
    assert IsAt(st, 0, 0, 0);
  }

  lemma OlderLeftBehind(c: Config, a: TradeEvent, b: TradeEvent, l: Life)
    requires KeepsSymbol(c) && a.symbol == b.symbol && c.enrich(a) != c.enrich(b)
    requires Exec(c, Init(c, map[]), l.run) == Some(l.end) && SetsSucceed(l.run) && l.offsets == [0] && l.resumes == [2]
    requires Stream(l.end.intake) == [Trade(0, a), Trade(1, b)] && l.end.writer.phase.WriterIdle?
    requires l.end.sinks.redis.received == [Enriched(c, Job(1, b)), Enriched(c, Job(0, a))]
    requires Redis.Read(l.end.writer.store, LatestTrade(a.symbol)) == Some(TradeJson(c.enrich(a)))
    ensures var log := [Trade(0, a), Trade(1, b)];
            History(c, [log], [l]) && Home([log], a.symbol, 0) && !Settled(c, log, l.end.writer.store, a.symbol)
  {
    var log := [Trade(0, a), Trade(1, b)];
    FedTwo(a, b);
    SucceedingWritesStore(c, map[], l.run, l.end, 0);
    SucceedingWritesStore(c, map[], l.run, l.end, 1);
    assert l.end.sinks.redis.received[0].id == 1 && l.end.sinks.redis.received[1].id == 0;
    assert IsAt(log, 0, 0, 0) && IsAt(log, 1, 0, 1);
    assert StoredAt(l, 0, 0) && StoredAt(l, 0, 1);
    assert Covered([log], l);
    assert [l][..0] == [];
    assert History(c, [log], []) && StoreAfter([]) == map[];
    assert TradesIn(log, 1, a.symbol) && LastTrade(log, a.symbol) == 1;
  }

  /** Every history that processes a whole partition settles the symbols in it. */
  ghost predicate AlwaysConverges(c: Config) {
    forall logs, lives, symbol, p :: History(c, logs, lives) && Home(logs, symbol, p)
                                     && ResumeAfter(lives, p) == |logs[p]| ==>
                                       Settled(c, logs[p], StoreAfter(lives), symbol)
  }

  /** Two trades of one symbol stay distinct when enriched. */
  ghost predicate Distinguishes(c: Config) {
    exists a: TradeEvent, b: TradeEvent :: a.symbol == b.symbol && c.enrich(a) != c.enrich(b)
  }

  lemma EnricherDistinguishes(poolSize: int, fanOutBuffer: int, table: map<Symbol, Market>)
    ensures Distinguishes(Configure(poolSize, fanOutBuffer, (e: TradeEvent) => Enrich(table, e)))
  {
    var c := Configure(poolSize, fanOutBuffer, (e: TradeEvent) => Enrich(table, e));
    var a, b := SOME_TRADE, SOME_TRADE.(tradeId := 1);
    assert c.enrich(a) == Enrich(table, a) && c.enrich(b) == Enrich(table, b);
    assert c.enrich(a).tradeId == 0 && c.enrich(b).tradeId == 1;
  }

  /** Replay converges in every history exactly when the pool has a single worker. */
  lemma ConvergesExactlyWithOneWorker(c: Config)
    requires Sized(c) && KeepsSymbol(c) && Distinguishes(c)
    ensures AlwaysConverges(c) <==> c.poolSize == 1
  {
    if c.poolSize == 1 {
      forall logs, lives, symbol, p | History(c, logs, lives) && Home(logs, symbol, p)
                                      && ResumeAfter(lives, p) == |logs[p]|
        ensures Settled(c, logs[p], StoreAfter(lives), symbol) {
        Converges(c, logs, lives, symbol, p);
      }
    } else {
      var a: TradeEvent, b: TradeEvent :| a.symbol == b.symbol && c.enrich(a) != c.enrich(b);
      var l := OlderTradeLeft(c, a, b);
      var log := [Trade(0, a), Trade(1, b)];
      assert [log][0] == log && !Settled(c, [log][0], StoreAfter([l]), a.symbol);
    }
  }

  // ------------------------------------------------------------------ marked and lost

  lemma LeavingKeeps(c: Config, s: State, step: Step, t: State)
    requires Leaving(step) && s.cancelled && Do(c, s, step) == Some(t)
    ensures t.cancelled && t.sinks == s.sinks && t.pool.jobs == s.pool.jobs
    ensures t.writer.store == s.writer.store && s.intake.marked <= t.intake.marked
    ensures Stream(t.intake) == Stream(s.intake)
  {
    if step.ByConsumer? {
      LeavingConsumer(c, s, step.c, t);
    } else {
      Frame(c, s, step, t);
    }
  }

  lemma LeavingConsumer(c: Config, s: State, a: ConsumerStep, t: State)
    requires Leaving(ByConsumer(a)) && s.cancelled && ConsumerDo(c, s, a) == Some(t)
    ensures t == s.(intake := t.intake) && s.intake.marked <= t.intake.marked
    ensures Stream(t.intake) == Stream(s.intake)
  {
  }

  predicate WriterFree(s: State) { s.writer.phase.WriterIdle? || s.writer.phase.WriterGone? }

  lemma LeavingWriter(c: Config, s: State, step: Step, t: State)
    requires Leaving(step) && WriterFree(s) && Do(c, s, step) == Some(t)
    ensures WriterFree(t) && step != ByWriter(SetLatest(false)) && step != ByWriter(SetPrice(false))
  {
    if !step.ByWriter? {
      Frame(c, s, step, t);
    }
  }

  /** A cancelled service can shut down without anything more being sent, received or written. */
  lemma {:induction false} LeaveAll(c: Config, start: State, sofar: Run, s: State) returns (run: Run, t: State)
    requires Exec(c, start, sofar) == Some(s) && SetsSucceed(sofar)
    requires Commit.Inv(s) && s.cancelled && WriterFree(s)
    ensures Exec(c, start, run) == Some(t) && SetsSucceed(run) && AllGone(t) && Commit.Inv(t) && WriterFree(t)
    ensures t.sinks == s.sinks && t.pool.jobs == s.pool.jobs && t.writer.store == s.writer.store
    ensures s.intake.marked <= t.intake.marked && Stream(t.intake) == Stream(s.intake)
    decreases Measure(s)
  {
    if AllGone(s) {
      run, t := sofar, s;
    } else {
      var step := ShutdownCompletes(c, s);
      var next := Do(c, s, step).value;
      Lowers(c, s, step, next);
      LeavingKeeps(c, s, step, next);
      LeavingWriter(c, s, step, next);
      Commit.StepKeeps(c, s, step, next);
      run, t := LeaveAll(c, start, Then(sofar, step), next);
    }
  }

  /** A record can be marked and the service shut down without its trade ever leaving the job
      channel: marking follows the enqueueing, not the handling, so a restart skips it. */
  lemma MarkedAndLost(c: Config, store: Store, a: TradeEvent) returns (run: Run, s: State)
    requires c.poolSize > 0
    ensures Exec(c, Init(c, store), run) == Some(s) && SetsSucceed(run) && AllGone(s)
    ensures s.intake.dispatched == [Trade(0, a)] && s.intake.marked == {0} && s.pool.jobs == [Job(0, a)]
    ensures s.writer.store == store && s.sinks == Init(c, store).sinks && Delivery.Lost(s) == {0}
  {
    var s0 := Init(c, store);
    run := MarkFirst(c, store, a, []);
    run, s := Extend(c, s0, run, Marked(c, store, a, []), Cancel);
    Commit.Disciplined(c, store, run, s);
    run, s := LeaveAll(c, s0, run, s);
    assert s.intake.dispatched == Stream(s.intake) == [Trade(0, a)];
    assert s.intake.marked == {0};
    assert Delivery.StoredIds(s) == {};
  }

  /** The first process: one record, marked and lost. */
  lemma FirstLife(c: Config, a: TradeEvent) returns (l: Life)
    requires c.poolSize > 0
    ensures MarkHistory(c, [[Trade(0, a)]], [l]) && AllGone(l.end) && SetsSucceed(l.run)
    ensures l.end.writer.store == map[] && l.resumes == [1]
  {
    var logs := [[Trade(0, a)]];
    var run, s := MarkedAndLost(c, map[], a);
    l := Life([0], run, s, [1]);
    assert Stream(s.intake) == [Trade(0, a)] && Fed(logs, l);
    assert IsAt(s.intake.dispatched, 0, 0, 0) && MarksEnd(s.intake, 0, 0, 1);
    MarkHistoryPush(c, logs, [], l);
    assert [] + [l] == [l];
  }

  /** A further process that is handed nothing: it resumes where the others left off, and stays there. */
  lemma IdleLife(c: Config, logs: Topic, lives: seq<Life>) returns (l: Life)
    requires MarkHistory(c, logs, lives)
    ensures MarkHistory(c, logs, lives + [l]) && l.end.writer.store == StoreAfter(lives)
    ensures !Delivery.InSubmit(l.end.intake)
    ensures |l.resumes| == |logs| && forall p :: 0 <= p < |logs| ==> l.resumes[p] == ResumeAfter(lives, p)
  {
    var at := seq(|logs|, p requires 0 <= p < |logs| => ResumeAfter(lives, p));
    l := Life(at, Begin, Init(c, StoreAfter(lives)), at);
    NothingHanded(c, logs, StoreAfter(lives), l);
    MarkHistoryPush(c, logs, lives, l);
  }

  lemma NothingHanded(c: Config, logs: Topic, store: Store, l: Life)
    requires l.run == Begin && l.end == Init(c, store) && |l.offsets| == |logs| && l.resumes == l.offsets
    ensures Ran(c, logs, store, l) && HandsOver(logs, l)
  {
    assert Stream(l.end.intake) == [];
  }

  /** Resuming at the marks does not settle: the first process shuts down gracefully with its only
      record marked, the second resumes after it, and Redis never hears of the trade. All hypotheses
      of Replay.MarksSettleExactly but the single worker are met, and with one worker it applies. */
  lemma MarksDoNotSettle(c: Config, a: TradeEvent) returns (lives: seq<Life>)
    requires c.poolSize > 0
    ensures var log := [Trade(0, a)];
            && |lives| == 2 && AllGone(lives[0].end) && SetsSucceed(lives[0].run)
            && MarkHistory(c, [log], lives) && ResumeAfter(lives, 0) == |log|
            && Home([log], a.symbol, 0) && NoneInSubmit(lives, a.symbol) && LastPriceUnique(c, log, a.symbol)
            && !Settled(c, log, StoreAfter(lives), a.symbol)
  {
    var first := FirstLife(c, a);
    var second := IdleLife(c, [[Trade(0, a)]], [first]);
    lives := [first] + [second];
    assert TradesIn([Trade(0, a)], 0, a.symbol) && LastTrade([Trade(0, a)], a.symbol) == 0;
  }

  /** A trade can be stored while its record is still in Submit: enqueued, written, not yet marked. */
  lemma WriteBeforeMark(c: Config, a: TradeEvent) returns (run: Run, s: State)
    requires Sized(c)
    ensures Exec(c, Init(c, map[]), run) == Some(s)
    ensures s.intake == Intake(Dispatching([Trade(0, a)], true), [], {})
    ensures var e := c.enrich(a);
            Redis.Read(s.writer.store, LatestTrade(e.symbol)) == Some(TradeJson(e))
            && Redis.Read(s.writer.store, Price(e.symbol)) == Some(PriceText(e.price))
  {
    var s0 := Init(c, map[]);
    run, s := Extend(c, s0, Begin, s0, ByConsumer(Poll([Trade(0, a)])));
    run, s := Extend(c, s0, run, s, ByConsumer(CheckContext));
    run, s := Extend(c, s0, run, s, ByConsumer(Submit));
    assert s.pool.jobs == [Job(0, a)];
    run, s := Extend(c, s0, run, s, ByWorker(0, Dequeue));
    run, s := Extend(c, s0, run, s, ByWorker(0, Send(ToRedis)));
    assert s.sinks.redis == Channel([Enriched(c, Job(0, a))], []);
    run, s := Extend(c, s0, run, s, ByWriter(TakeWrite));
    run, s := WriteOne(c, s0, run, s);
  }

  /** So a symbol can be settled by a life that does not pass its last trade, but only one that ends
      inside Submit. */
  lemma SettledInSubmit(c: Config, a: TradeEvent) returns (l: Life)
    requires Sized(c) && KeepsSymbol(c)
    ensures MarkHistory(c, [[Trade(0, a)]], [l]) && Settled(c, [Trade(0, a)], StoreAfter([l]), a.symbol)
    ensures !KeptBy(l, 0, 0) && !SubmitsOther(l.end.intake, a.symbol)
  {
    var logs := [[Trade(0, a)]];
    var run, s := WriteBeforeMark(c, a);
    l := Life([0], run, s, [0]);
    assert Stream(s.intake) == [Trade(0, a)] && Fed(logs, l) && HandsOver(logs, l);
    MarkHistoryPush(c, logs, [], l);
    assert [] + [l] == [l];
    assert TradesIn([Trade(0, a)], 0, a.symbol) && LastTrade([Trade(0, a)], a.symbol) == 0;
  }

  /** A refused trade is skipped as well: a later record of its partition is marked, nothing is under
      way and no set has failed. */
  lemma RefusedIsSkipped(c: Config, store: Store, a: TradeEvent) returns (run: Run, s: State)
    ensures Exec(c, Init(c, store), run) == Some(s) && !Delivery.InSubmit(s.intake)
    ensures s.intake.dispatched == [Trade(0, a), Malformed(0, 1)] && s.intake.marked == {1}
    ensures Delivery.UnderWay(s.pool, s.sinks.redis) == 0 && s.writer == Init(c, store).writer
    ensures Delivery.Lost(s) == {} && Delivery.AtRisk(s) == {} && Delivery.Skipped(s) == {0}
  {
    var s0 := Init(c, store);
    run, s := Extend(c, s0, Begin, s0, ByConsumer(Poll([Trade(0, a), Malformed(0, 1)])));
    run, s := Extend(c, s0, run, s, ByConsumer(CheckContext));
    run, s := Extend(c, s0, run, s, Cancel);
    run, s := Extend(c, s0, run, s, ByConsumer(Refuse));
    assert s.intake.phase.rest == [Malformed(0, 1)] && s.intake.dispatched == [Trade(0, a)];
    run, s := Extend(c, s0, run, s, ByConsumer(SkipMalformed));
    RefusedBelowMark(s, a);
    Conservation.SumZero(s.pool.workers, Delivery.Owing(ToRedis));
  }

  lemma RefusedBelowMark(s: State, a: TradeEvent)
    requires s.intake.dispatched == [Trade(0, a), Malformed(0, 1)] && s.intake.marked == {1}
    requires s.sinks.redis.received == []
    ensures Delivery.Lost(s) == {} && Delivery.AtRisk(s) == {} && Delivery.Skipped(s) == {0}
  {
    assert 1 in s.intake.marked && Delivery.Passed(s.intake, 0);
    assert Delivery.StoredIds(s) == {};
  }

  /** A failed set loses the trade as well, with nothing under way and no cancellation: the write
      has returned, the record stays marked, and the error is only logged. */
  lemma FailedWriteIsLost(c: Config, store: Store, a: TradeEvent) returns (run: Run, s: State)
    requires Sized(c)
    ensures Exec(c, Init(c, store), run) == Some(s) && !s.cancelled
    ensures s.intake.dispatched == [Trade(0, a)] && s.intake.marked == {0}
    ensures s.writer.store == store && s.writer.phase.WriterIdle?
    ensures Delivery.AtRisk(s) == {} && Delivery.Lost(s) == {0}
  {
    run := TakeFirst(c, store, a, []);
    run, s := Extend(c, Init(c, store), run, Taking(c, store, a, []), ByWriter(SetLatest(false)));
    assert Written(s) == [Enriched(c, Job(0, a))];
    assert Written(s)[0].id in Delivery.Ids(Written(s));
    assert Delivery.StoredIds(s) == {};
  }

  // ------------------------------------------------------------------ a replay falls behind

  /** Worker 0 gives the first trade to the other sinks and becomes idle again. */
  lemma FinishFirst(c: Config, a: TradeEvent, more: seq<Record>) returns (run: Run, s: State)
    requires Sized(c)
    ensures Exec(c, Init(c, map[]), run) == Some(s) && SetsSucceed(run) && !s.cancelled
    ensures s.intake == Intake(Dispatching(more, false), [Trade(0, a)], {0})
    ensures s.pool.jobs == [] && |s.pool.workers| > 0 && s.pool.workers[0] == Idle
    ensures s.sinks.redis == Channel([], [Enriched(c, Job(0, a))])
    ensures s.keeper.data == map[] && s.writer.phase.WriterIdle?
  {
    var s0, j := Init(c, map[]), Enriched(c, Job(0, a));
    run := TakeFirst(c, map[], a, more);
    run, s := WriteOne(c, s0, run, Taking(c, map[], a, more));
    run, s := Extend(c, s0, run, s, ByWorker(0, Send(ToBook)));
    run, s := Extend(c, s0, run, s, ByWorker(0, Send(ToBroadcast)));
    assert NOT_REDIS - {ToBook} - {ToBroadcast} == {};
    run, s := Extend(c, s0, run, s, ByWorker(0, Finish));
  }

  /** The first process writes two trades of a symbol, in order. */
  lemma WriteBoth(c: Config, a: TradeEvent, b: TradeEvent) returns (run: Run, s: State)
    requires Sized(c)
    ensures Exec(c, Init(c, map[]), run) == Some(s) && SetsSucceed(run)
    ensures s.sinks.redis.received == [Enriched(c, Job(0, a)), Enriched(c, Job(1, b))]
    ensures var e := c.enrich(b);
            Redis.Read(s.writer.store, LatestTrade(e.symbol)) == Some(TradeJson(e))
            && Redis.Read(s.writer.store, Price(e.symbol)) == Some(PriceText(e.price))
  {
    var s0 := Init(c, map[]);
    run, s := FinishFirst(c, a, [Trade(1, b)]);
    run, s := Extend(c, s0, run, s, ByConsumer(Submit));
    assert s.pool.jobs == [Job(1, b)];
    run, s := Extend(c, s0, run, s, ByWorker(0, Dequeue));
    run, s := Extend(c, s0, run, s, ByWorker(0, Send(ToRedis)));
    assert s.sinks.redis == Channel([Enriched(c, Job(1, b))], [Enriched(c, Job(0, a))]);
    run, s := Extend(c, s0, run, s, ByWriter(TakeWrite));
    run, s := WriteOne(c, s0, run, s);
  }

  /** Over a Redis left by an earlier process the latest trade can fall behind the price: the first
      process writes trades a and b of a symbol, the second replays a and is cut off between its
      two sets. No set fails. */
  lemma ReplayFallsBehind(c: Config, a: TradeEvent, b: TradeEvent) returns (ps: seq<Redis.Process>)
    requires Sized(c) && c.enrich(a).symbol == c.enrich(b).symbol
    ensures |ps| == 2 && Redis.Succession(c, ps) && SetsSucceed(ps[0].run) && SetsSucceed(ps[1].run)
    ensures ps[0].end.sinks.redis.received == [Enriched(c, Job(0, a)), Enriched(c, Job(1, b))]
    ensures Stream(ps[1].end.intake) == [Trade(0, a)]
    ensures var symbol := c.enrich(a).symbol;
            Redis.Read(Redis.LeftBy(ps), LatestTrade(symbol)) == Some(TradeJson(c.enrich(a)))
            && Redis.Read(Redis.LeftBy(ps), Price(symbol)) == Some(PriceText(c.enrich(b).price))
  {
    var run1, s1 := WriteBoth(c, a, b);
    var run2 := TakeFirst(c, s1.writer.store, a, []);
    var s2: State;
    run2, s2 := Extend(c, Init(c, s1.writer.store), run2, Taking(c, s1.writer.store, a, []), ByWriter(SetLatest(true)));
    var first, second := Redis.Process(run1, s1), Redis.Process(run2, s2);
    ps := [first, second];
    assert [first][..0] == [] && ps[..1] == [first];
    assert Redis.Succession(c, []) && Redis.LeftBy([]) == map[];
    assert Redis.Succession(c, [first]) && Redis.LeftBy([first]) == s1.writer.store;
    assert Stream(s2.intake) == [Trade(0, a)];
  }

  // ------------------------------------------------------------------ a gap between marks

  /** After cancellation one record of a batch is refused and the next accepted. */
  lemma GapHappens(c: Config, a: TradeEvent) returns (run: Run, s: State)
    requires c.poolSize >= 1
    ensures Exec(c, Init(c, map[]), run) == Some(s)
    ensures !Gaps.GapFree(s.intake) && s.intake.marked == {1} && |s.pool.accepted| == 1
  {
    var s0 := Init(c, map[]);
    run, s := Extend(c, s0, Begin, s0, ByConsumer(Poll([Trade(0, a), Trade(1, a)])));
    run, s := Extend(c, s0, run, s, ByConsumer(CheckContext));
    run, s := Extend(c, s0, run, s, Cancel);
    run, s := Extend(c, s0, run, s, ByConsumer(Refuse));
    assert s.intake.phase.rest == [Trade(1, a)] && s.intake.dispatched == [Trade(0, a)];
    run, s := Extend(c, s0, run, s, ByConsumer(Submit));
    run, s := Extend(c, s0, run, s, ByConsumer(Mark));
    assert s.intake.marked == {1};
    assert 1 in s.intake.marked && 0 !in s.intake.marked;
  }
}
