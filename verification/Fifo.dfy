/** The order in which trades reach the sinks. */
module Fifo {
  import opened Trades
  import opened Processor
  import Cons = Conservation
  import opened Commit

  // ------------------------------------------------------------------ one worker, before cancellation

  function InHand(w: Worker): seq<Job> { if w.Publishing? then [w.job] else [] }

  function InHandPast(w: Worker, k: Sink): seq<Job> {
    if w.Publishing? && k !in w.pending then [w.job] else []
  }

  /** Finished, then in hand, then queued: the accepted trades in their order. */
  ghost predicate InLine(c: Config, p: Pool) {
    |p.workers| == 1 && EnrichAll(c, p.accepted) == p.finished + InHand(p.workers[0]) + EnrichAll(c, p.jobs)
  }

  ghost predicate SinkInLine(p: Pool, k: Sink, sent: seq<Job>) {
    |p.workers| == 1 && sent == p.finished + InHandPast(p.workers[0], k)
  }

  ghost predicate LineInv(c: Config, s: State) {
    !s.cancelled ==> InLine(c, s.pool) && forall k :: SinkInLine(s.pool, k, Sent(s, k))
  }

  lemma SendLine(c: Config, s: State, to: Sink, t: State)
    requires LineInv(c, s) && !s.cancelled && WorkerDo(c, s, 0, Send(to)) == Some(t)
    ensures LineInv(c, t)
  {
    forall k ensures SinkInLine(t.pool, k, Sent(t, k)) {
      assert SinkInLine(s.pool, k, Sent(s, k));
      if k == to {
        assert Sent(t, k) == Sent(s, k) + [s.pool.workers[0].job];
      } else {
        assert Sent(t, k) == Sent(s, k);
      }
    }
  }

  lemma EnrichHead(c: Config, jobs: seq<Job>, all: seq<Job>, rest: seq<Job>)
    requires jobs != [] && all == EnrichAll(c, jobs) && rest == EnrichAll(c, jobs[1..])
    ensures all == [Enriched(c, jobs[0])] + rest
  {
    forall i | 0 < i < |all| ensures all[i] == rest[i - 1] {
      assert jobs[1..][i - 1] == jobs[i];
    }
  }

  lemma Regroup(done: seq<Job>, x: Job, all: seq<Job>, rest: seq<Job>)
    requires all == [x] + rest
    ensures done + [] + all == done + [x] + rest
  {
  }

  lemma DequeueLine(c: Config, s: State, t: State)
    requires LineInv(c, s) && !s.cancelled && WorkerDo(c, s, 0, Dequeue) == Some(t)
    ensures LineInv(c, t)
  {
    var jobs, all, rest := s.pool.jobs, EnrichAll(c, s.pool.jobs), EnrichAll(c, t.pool.jobs);
    EnrichHead(c, jobs, all, rest);
    Regroup(s.pool.finished, Enriched(c, jobs[0]), all, rest);
    forall k ensures SinkInLine(t.pool, k, Sent(t, k)) {
      assert SinkInLine(s.pool, k, Sent(s, k)) && Sent(t, k) == Sent(s, k);
    }
  }

  lemma FinishLine(c: Config, s: State, t: State)
    requires LineInv(c, s) && !s.cancelled && WorkerDo(c, s, 0, Finish) == Some(t)
    ensures LineInv(c, t)
  {
    forall k ensures SinkInLine(t.pool, k, Sent(t, k)) {
      assert SinkInLine(s.pool, k, Sent(s, k)) && Sent(t, k) == Sent(s, k);
    }
  }

  lemma WorkerLine(c: Config, s: State, a: WorkerStep, t: State)
    requires LineInv(c, s) && !s.cancelled && WorkerDo(c, s, 0, a) == Some(t)
    ensures LineInv(c, t)
  {
    match a
    case Send(k) => SendLine(c, s, k, t);
    case Dequeue => DequeueLine(c, s, t);
    case Finish => FinishLine(c, s, t);
    case _ =>
  }

  lemma SubmitLine(c: Config, s: State, t: State)
    requires LineInv(c, s) && !s.cancelled && ConsumerDo(c, s, Submit) == Some(t)
    ensures LineInv(c, t)
  {
    var p, q := s.pool, t.pool;
    var j := q.jobs[|p.jobs|];
    Cons.EnrichPush(c, p.accepted, j);
    Cons.EnrichPush(c, p.jobs, j);
    forall k ensures SinkInLine(q, k, Sent(t, k)) {
      assert SinkInLine(p, k, Sent(s, k));
    }
  }

  lemma OtherLine(c: Config, s: State, t: State)
    requires LineInv(c, s) && t.pool == s.pool && (!t.cancelled ==> !s.cancelled)
    requires forall k :: Sent(t, k) == Sent(s, k)
    ensures LineInv(c, t)
  {
    if !t.cancelled {
      forall k ensures SinkInLine(t.pool, k, Sent(t, k)) {
        assert SinkInLine(s.pool, k, Sent(s, k));
      }
    }
  }

  /** Steps other than a worker's or a Submit neither touch the pool nor send anything. */
  lemma Elsewhere(c: Config, s: State, step: Step, t: State)
    requires Do(c, s, step) == Some(t) && !step.ByWorker? && step != ByConsumer(Submit)
    ensures t.pool == s.pool && forall k :: Sent(t, k) == Sent(s, k)
  {
    forall k ensures Sent(t, k) == Sent(s, k) {
      if At(t.sinks, k) != At(s.sinks, k) {
        TakeKeepsSent(At(s.sinks, k));
      }
    }
  }

  lemma LineStep(c: Config, s: State, step: Step, t: State)
    requires LineInv(c, s) && |s.pool.workers| == 1 && Do(c, s, step) == Some(t)
    ensures LineInv(c, t) && |t.pool.workers| == 1
  {
    if step.ByWorker? {
      Frame(c, s, step, t);
      if !s.cancelled { WorkerLine(c, s, step.a, t); }
    } else if step == ByConsumer(Submit) {
      Frame(c, s, step, t);
      if !s.cancelled { SubmitLine(c, s, t); }
    } else {
      Frame(c, s, step, t);
      Elsewhere(c, s, step, t);
      OtherLine(c, s, t);
    }
  }

  lemma LineInit(c: Config, store: Store)
    requires c.poolSize == 1
    ensures LineInv(c, Init(c, store))
  {
    assert forall k :: Sent(Init(c, store), k) == [];
  }

  lemma {:induction false} Lined(c: Config, store: Store, run: Run, s: State)
    requires Exec(c, Init(c, store), run) == Some(s) && c.poolSize == 1
    ensures LineInv(c, s) && |s.pool.workers| == 1
  {
    match run
    case Begin => LineInit(c, store);
    case Then(before, step) =>
      var mid := Exec(c, Init(c, store), before).value;
      Lined(c, store, before, mid);
      LineStep(c, mid, step, s);
  }

  /** FIFO: with one worker, before cancellation, what a sink was sent, and so what its receiver
      got, is a prefix of the enriched accepted trades. */
  lemma OneWorkerIsFifo(c: Config, store: Store, run: Run, s: State, k: Sink)
    requires Exec(c, Init(c, store), run) == Some(s) && c.poolSize == 1 && !s.cancelled
    ensures Sent(s, k) <= EnrichAll(c, s.pool.accepted)
    ensures At(s.sinks, k).received <= EnrichAll(c, s.pool.accepted)
  {
    Lined(c, store, run, s);
    PrefixFromLine(c, s, k);
  }

  lemma PrefixFromLine(c: Config, s: State, k: Sink)
    requires LineInv(c, s) && !s.cancelled
    ensures Sent(s, k) <= EnrichAll(c, s.pool.accepted)
    ensures At(s.sinks, k).received <= EnrichAll(c, s.pool.accepted)
  {
    assert SinkInLine(s.pool, k, Sent(s, k));
  }

  // ------------------------------------------------------------------ any number of workers

  /** The trades that workers have dequeued. */
  function Dequeued(c: Config, p: Pool): seq<Job>
    requires |p.jobs| <= |p.accepted|
  {
    EnrichAll(c, p.accepted)[..|p.accepted| - |p.jobs|]
  }

  /** Before cancellation a sink was sent a permutation of the dequeued prefix, except for the
      trades held by workers that have not sent them to it yet: at most poolSize of them. */
  lemma SentPermutesPrefix(c: Config, s: State, k: Sink)
    requires Cons.Inv(c, s) && !s.cancelled
    ensures multiset(Sent(s, k)) <= multiset(Dequeued(c, s.pool))
    ensures |Dequeued(c, s.pool)| <= |Sent(s, k)| + c.poolSize
    ensures forall j :: Cons.Count(Dequeued(c, s.pool), j) + Cons.Sum(s.pool.workers, Cons.HoldsPast(j, k))
                        == Cons.Count(Sent(s, k), j) + Cons.Sum(s.pool.workers, Cons.Holds(j))
  {
    var p, sent := s.pool, Sent(s, k);
    var all, n := EnrichAll(c, p.accepted), |p.accepted| - |p.jobs|;
    assert Cons.SinkInv(p, k, sent);
    Cons.BusyBounds(p.workers, k);
    assert all == all[..n] + EnrichAll(c, p.jobs);
    forall j ensures Cons.Count(Dequeued(c, p), j) + Cons.Sum(p.workers, Cons.HoldsPast(j, k))
                     == Cons.Count(sent, j) + Cons.Sum(p.workers, Cons.Holds(j))
             ensures multiset(sent)[j] <= multiset(Dequeued(c, p))[j] {
      assert Cons.SinkBalanced(p, k, sent, j) && Cons.Balanced(c, p, j);
      assert Cons.Count(all, j) == Cons.Count(all[..n], j) + Cons.Count(EnrichAll(c, p.jobs), j);
      Cons.SumAtMost(p.workers, Cons.HoldsPast(j, k), Cons.Holds(j));
      assert Cons.Count(sent, j) <= Cons.Count(Dequeued(c, p), j);
    }
  }

  // ------------------------------------------------------------------ one worker, cancelled or not

  /** The smallest identity that a worker can still take. */
  function First(i: Intake, p: Pool): nat { if p.jobs != [] then p.jobs[0].id else NextId(i) }

  /** What sink k has been sent lies below this identity. */
  function Limit(w: Worker, first: nat, k: Sink): nat {
    if w.Publishing? then w.job.id + (if k in w.pending then 0 else 1) else first
  }

  ghost predicate HeldBelow(p: Pool, first: nat) {
    |p.workers| == 1 && (p.workers[0].Publishing? ==> p.workers[0].job.id < first)
  }

  ghost predicate SinkOrdered(p: Pool, first: nat, k: Sink, sent: seq<Job>) {
    && |p.workers| == 1 && Increasing(sent)
    && forall x :: 0 <= x < |sent| ==> sent[x].id < Limit(p.workers[0], first, k)
  }

  ghost predicate OrderInv(s: State) {
    && HeldBelow(s.pool, First(s.intake, s.pool))
    && forall k :: SinkOrdered(s.pool, First(s.intake, s.pool), k, Sent(s, k))
  }

  lemma FirstGrows(c: Config, s: State, step: Step, t: State)
    requires Commit.Inv(s) && Do(c, s, step) == Some(t) && !step.ByWorker?
    ensures First(s.intake, s.pool) <= First(t.intake, t.pool) && t.pool.workers == s.pool.workers
  {
  }

  lemma DequeueFirst(c: Config, s: State)
    requires Cons.QueueIsTail(s.pool) && Commit.Inv(s) && s.pool.jobs != []
    ensures var p := s.pool;
            p.jobs[0].id < First(s.intake, p.(jobs := p.jobs[1..]))
  {
    var p := s.pool;
    var n := |p.accepted| - |p.jobs|;
    assert p.accepted[n] == p.jobs[0];
    if |p.jobs| > 1 {
      assert p.accepted[n + 1] == p.jobs[1] == p.jobs[1..][0];
    }
  }

  lemma OthersOrdered(s: State, t: State)
    requires OrderInv(s) && t.pool.workers == s.pool.workers
    requires First(s.intake, s.pool) <= First(t.intake, t.pool)
    requires forall k :: Sent(t, k) == Sent(s, k)
    ensures OrderInv(t)
  {
    forall k ensures SinkOrdered(t.pool, First(t.intake, t.pool), k, Sent(t, k)) {
      assert SinkOrdered(s.pool, First(s.intake, s.pool), k, Sent(s, k));
    }
  }

  lemma SendOrdered(c: Config, s: State, to: Sink, t: State)
    requires OrderInv(s) && WorkerDo(c, s, 0, Send(to)) == Some(t)
    ensures OrderInv(t)
  {
    assert First(t.intake, t.pool) == First(s.intake, s.pool);
    forall k ensures SinkOrdered(t.pool, First(t.intake, t.pool), k, Sent(t, k)) {
      assert SinkOrdered(s.pool, First(s.intake, s.pool), k, Sent(s, k));
      if k == to {
        assert Sent(t, k) == Sent(s, k) + [s.pool.workers[0].job];
      } else {
        assert Sent(t, k) == Sent(s, k);
      }
    }
  }

  lemma WorkerOrdered(c: Config, s: State, a: WorkerStep, t: State)
    requires OrderInv(s) && Cons.QueueIsTail(s.pool) && Commit.Inv(s) && WorkerDo(c, s, 0, a) == Some(t)
    ensures OrderInv(t)
  {
    if a.Send? {
      SendOrdered(c, s, a.sink, t);
    } else {
      if a.Dequeue? {
        DequeueFirst(c, s);
      } else {
        assert First(t.intake, t.pool) == First(s.intake, s.pool);
      }
      forall k ensures SinkOrdered(t.pool, First(t.intake, t.pool), k, Sent(t, k)) {
        assert SinkOrdered(s.pool, First(s.intake, s.pool), k, Sent(s, k)) && Sent(t, k) == Sent(s, k);
      }
    }
  }

  lemma OrderStep(c: Config, s: State, step: Step, t: State)
    requires OrderInv(s) && Cons.QueueIsTail(s.pool) && Commit.Inv(s) && Do(c, s, step) == Some(t)
    ensures OrderInv(t)
  {
    if step.ByWorker? {
      WorkerOrdered(c, s, step.a, t);
    } else {
      FirstGrows(c, s, step, t);
      SentElsewhere(c, s, step, t);
      OthersOrdered(s, t);
    }
  }

  lemma OrderInit(c: Config, store: Store)
    requires c.poolSize == 1
    ensures OrderInv(Init(c, store))
  {
    assert forall k :: Sent(Init(c, store), k) == [];
  }

  lemma {:induction false} Ordered(c: Config, store: Store, run: Run, s: State)
    requires Exec(c, Init(c, store), run) == Some(s) && c.poolSize == 1
    ensures OrderInv(s)
  {
    match run
    case Begin => OrderInit(c, store);
    case Then(before, step) =>
      var mid := Exec(c, Init(c, store), before).value;
      Ordered(c, store, before, mid);
      Cons.Conserved(c, store, before, mid);
      Commit.Disciplined(c, store, before, mid);
      OrderStep(c, mid, step, s);
  }

  /** A single worker never reorders, not even while it is being cancelled: the trades sent to a
      sink have increasing identities in every reachable state. */
  lemma OneWorkerNeverReorders(c: Config, store: Store, run: Run, s: State)
    requires Exec(c, Init(c, store), run) == Some(s) && c.poolSize == 1
    ensures forall k :: Increasing(Sent(s, k))
  {
    Ordered(c, store, run, s);
    assert forall k :: SinkOrdered(s.pool, First(s.intake, s.pool), k, Sent(s, k));
  }

  lemma SentElsewhere(c: Config, s: State, step: Step, t: State)
    requires Do(c, s, step) == Some(t) && !step.ByWorker?
    ensures forall k :: Sent(t, k) == Sent(s, k)
  {
    if step == ByConsumer(Submit) {
      assert t.sinks == s.sinks;
    } else {
      Elsewhere(c, s, step, t);
    }
  }
}
