/** The bounds on lag, skew and trades at risk are attained, for every pool and buffer size.

    The writer takes one trade and then stands still. Everyone else goes on for as long as it can:
    that ends with the Redis sink and the job channel full and every worker owing its trade to the
    Redis sink alone. */
module Extremes {
  import opened Trades
  import opened Processor
  import opened Conservation
  import opened Progress
  import opened Pipeline
  import Delivery
  import Witnesses

  /** Everyone but the writer moves on, and the consumer stays within its batch. */
  predicate Pushing(step: Step) {
    step == ByConsumer(Submit) || step == ByConsumer(Mark) || (Internal(step) && !step.ByWriter?)
  }

  /** The writer is at its first trade, and the consumer in a batch of n well-formed records. */
  ghost predicate Filling(s: State, n: nat) {
    var i := s.intake;
    && !s.cancelled && s.writer.phase.BeforeLatest? && |s.sinks.redis.received| == 1
    && i.phase.Dispatching? && |i.dispatched| + |i.phase.rest| == n
    && (forall x :: 0 <= x < |i.phase.rest| ==> i.phase.rest[x].WellFormed?)
    && |s.pool.accepted| == |i.dispatched| + One(i.phase.enqueued)
  }

  ghost predicate Full(c: Config, s: State) {
    && |s.pool.jobs| == c.poolSize && |s.sinks.redis.queue| == c.bufferSize
    && s.sinks.book.queue == [] && s.sinks.broadcast.queue == [] && !Delivery.InSubmit(s.intake)
    && forall i :: 0 <= i < |s.pool.workers| ==>
         s.pool.workers[i].Publishing? && s.pool.workers[i].pending == {ToRedis}
  }

  lemma PushingLowers(c: Config, s: State, step: Step, t: State)
    requires Pushing(step) && Do(c, s, step) == Some(t)
    ensures Measure(t) < Measure(s)
  {
    if Internal(step) {
      Lowers(c, s, step, t);
    } else {
      assert t.sinks == s.sinks && t.pool.workers == s.pool.workers;
    }
  }

  lemma FillingStep(c: Config, s: State, step: Step, t: State, n: nat)
    requires Filling(s, n) && Pushing(step) && Do(c, s, step) == Some(t)
    ensures Filling(t, n)
  {
    Frame(c, s, step, t);
  }

  /** With fewer trades in the pipeline than records in the batch, the consumer is not done. */
  lemma BatchGoesOn(c: Config, s: State, n: nat)
    requires Conservation.Inv(c, s) && Filling(s, n) && n > 2 * c.poolSize + c.bufferSize + 1
    ensures s.intake.phase.rest != []
  {
    Delivery.Windows(c, s, ToRedis, ToRedis);
  }

  lemma OnlyRedis(pending: set<Sink>)
    requires pending != {} && ToBook !in pending && ToBroadcast !in pending
    ensures pending == {ToRedis}
  {
    var k :| k in pending;
    forall x | x in pending ensures x == ToRedis {
      assert x.ToBook? || x.ToRedis? || x.ToBroadcast?;
    }
    assert ToRedis in pending by {
      assert k == ToRedis;
    }
  }

  /** A worker that is not stuck on the Redis sink can move. */
  lemma WorkerPushes(c: Config, s: State, i: nat) returns (step: Step)
    requires Sized(c) && Conservation.Inv(c, s) && !s.cancelled && i < |s.pool.workers|
    requires |s.pool.jobs| == c.poolSize && s.sinks.book.queue == [] && s.sinks.broadcast.queue == []
    requires !(s.pool.workers[i].Publishing? && s.pool.workers[i].pending == {ToRedis})
             || |s.sinks.redis.queue| < c.bufferSize
    ensures Pushing(step) && Enabled(c, s, step)
  {
    var w := s.pool.workers[i];
    if w.Idle? {
      step := ByWorker(i, Dequeue);
    } else if w.pending == {} {
      step := ByWorker(i, Finish);
    } else if ToBook in w.pending {
      step := ByWorker(i, Send(ToBook));
    } else if ToBroadcast in w.pending {
      step := ByWorker(i, Send(ToBroadcast));
    } else {
      OnlyRedis(w.pending);
      step := ByWorker(i, Send(ToRedis));
    }
  }

  /** Until the service is full, someone other than the writer can move. */
  lemma CanPush(c: Config, s: State, n: nat) returns (step: Step)
    requires Sized(c) && AllInv(c, s) && Filling(s, n) && n > 2 * c.poolSize + c.bufferSize + 1 && !Full(c, s)
    ensures Pushing(step) && Enabled(c, s, step)
  {
    BatchGoesOn(c, s, n);
    if s.intake.phase.enqueued {
      step := ByConsumer(Mark);
    } else if |s.pool.jobs| < c.poolSize {
      step := ByConsumer(Submit);
    } else if s.keeper.phase.KeeperHas? {
      step := ByKeeper(GetBook);
    } else if s.keeper.phase.KeeperRead? {
      step := ByKeeper(UpdateBook);
    } else if s.sinks.book.queue != [] {
      step := ByKeeper(TakeUpdate);
    } else if s.sinks.broadcast.queue != [] {
      step := ByBroadcaster(TakeBroadcast);
    } else if i :| 0 <= i < |s.pool.workers|
                   && !(s.pool.workers[i].Publishing? && s.pool.workers[i].pending == {ToRedis}) {
      step := WorkerPushes(c, s, i);
    } else {
      assert |At(s.sinks, ToRedis).queue| < c.bufferSize;
      step := WorkerPushes(c, s, 0);
    }
  }

  lemma {:induction false} FillUp(c: Config, start: State, sofar: Run, s: State, n: nat) returns (run: Run, t: State)
    requires Sized(c) && AllInv(c, s) && Filling(s, n) && n > 2 * c.poolSize + c.bufferSize + 1
    requires Exec(c, start, sofar) == Some(s)
    ensures Exec(c, start, run) == Some(t) && AllInv(c, t) && Filling(t, n) && Full(c, t)
    decreases Measure(s)
  {
    if Full(c, s) {
      run, t := sofar, s;
    } else {
      var step := CanPush(c, s, n);
      var next := Do(c, s, step).value;
      PushingLowers(c, s, step, next);
      FillingStep(c, s, step, next, n);
      KeepsAll(c, s, Then(Begin, step), next);
      run, t := FillUp(c, start, Then(sofar, step), next, n);
    }
  }

  lemma {:induction false} SumOnes(ws: seq<Worker>, f: Worker -> nat)
    requires forall i :: 0 <= i < |ws| ==> f(ws[i]) == 1
    ensures Sum(ws, f) == |ws|
  {
    if ws != [] {
      SumOnes(ws[..|ws| - 1], f);
    }
  }

  /** In a full service the Redis sink lags by 2*poolSize, and by poolSize behind every other one. */
  lemma FullCounts(c: Config, s: State, k: Sink)
    requires Conservation.Inv(c, s) && !s.cancelled && Full(c, s) && k != ToRedis
    ensures |s.pool.accepted| == |Sent(s, ToRedis)| + 2 * c.poolSize
    ensures |Sent(s, k)| - |Sent(s, ToRedis)| == c.poolSize
    ensures |At(s.sinks, k).received| - |s.sinks.redis.received| == c.poolSize + c.bufferSize
  {
    var p := s.pool;
    assert SinkInv(p, ToRedis, Sent(s, ToRedis)) && SinkInv(p, k, Sent(s, k));
    SumOnes(p.workers, Busy());
    SumOnes(p.workers, BusyPast(k));
    SumZero(p.workers, BusyPast(ToRedis));
    assert p.abandoned == [];
  }

  lemma FullAtRisk(c: Config, s: State, n: nat)
    requires AllInv(c, s) && Full(c, s) && Filling(s, n)
    ensures |Delivery.AtRisk(s)| == 2 * c.poolSize + c.bufferSize + 1
  {
    Delivery.AtRiskExactly(c, s);
    SumOnes(s.pool.workers, Delivery.Owing(ToRedis));
    assert s.pool.abandoned == [];
  }

  function Batch(n: nat): (rs: seq<Record>)
    ensures |rs| == n && forall o :: 0 <= o < n ==> rs[o].WellFormed?
  {
    seq(n, o requires 0 <= o < n => Witnesses.Trade(o + 1, Witnesses.SOME_TRADE))
  }

  /** The writer is at the first trade of a batch of n. */
  lemma StartFilling(c: Config, store: Store, n: nat) returns (run: Run, s: State)
    requires Sized(c) && n > 0
    ensures Exec(c, Init(c, store), run) == Some(s) && Filling(s, n)
  {
    var e := Witnesses.SOME_TRADE;
    var more := Batch(n - 1);
    run := Witnesses.TakeFirst(c, store, e, more);
    s := Witnesses.Taking(c, store, e, more);
  }

  /** One reachable state attains every bound of Pipeline.WindowsBeforeCancellation at once. */
  lemma BoundsAttained(c: Config, store: Store) returns (s: State)
    requires Sized(c)
    ensures Reachable(c, store, s) && !s.cancelled
    ensures |s.pool.jobs| == c.poolSize && |s.sinks.redis.queue| == c.bufferSize
    ensures |s.pool.accepted| == |Sent(s, ToRedis)| + 2 * c.poolSize
    ensures forall k: Sink :: k != ToRedis ==>
              |Sent(s, k)| - |Sent(s, ToRedis)| == c.poolSize
              && |At(s.sinks, k).received| - |s.sinks.redis.received| == c.poolSize + c.bufferSize
    ensures |Delivery.AtRisk(s)| == 2 * c.poolSize + c.bufferSize + 1
  {
    var n := 2 * c.poolSize + c.bufferSize + 2;
    var run: Run;
    run, s := StartFilling(c, store, n);
    ReachableInv(c, store, s);
    run, s := FillUp(c, Init(c, store), run, s, n);
    forall k: Sink | k != ToRedis
      ensures |s.pool.accepted| == |Sent(s, ToRedis)| + 2 * c.poolSize
      ensures |Sent(s, k)| - |Sent(s, ToRedis)| == c.poolSize
      ensures |At(s.sinks, k).received| - |s.sinks.redis.received| == c.poolSize + c.bufferSize {
      FullCounts(c, s, k);
    }
    FullCounts(c, s, ToBook);
    FullAtRisk(c, s, n);
  }
}
