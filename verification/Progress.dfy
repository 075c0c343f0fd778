/** Deadlock freedom, draining and shutdown, by one measure that every goroutine's step lowers. */
module Progress {
  import opened Trades
  import opened Processor
  import opened Conservation
  import Commit

  // ------------------------------------------------------------------ the measure

  /** Per sink: receiving and processing one trade, plus sending it. */
  function SinkWeight(k: Sink): nat {
    match k
    case ToBook => 4
    case ToRedis => 6
    case ToBroadcast => 2
  }

  function PendingWeight(pending: set<Sink>): nat {
    (if ToBook in pending then SinkWeight(ToBook) else 0)
    + (if ToRedis in pending then SinkWeight(ToRedis) else 0)
    + (if ToBroadcast in pending then SinkWeight(ToBroadcast) else 0)
  }

  function Weight(): Worker -> nat {
    (w: Worker) =>
      match w
      case Exited => 0
      case Idle => 1
      case Publishing(_, pending) => 2 + PendingWeight(pending)
  }

  function KeeperWork(k: KeeperPhase): nat {
    match k
    case KeeperGone => 0
    case KeeperIdle => 1
    case KeeperRead(_, _) => 2
    case KeeperHas(_) => 3
  }

  function WriterWork(w: WriterPhase): nat {
    match w
    case WriterGone => 0
    case WriterIdle => 1
    case BeforeSnapshot(_, _, _) => 2
    case BeforeGet(_) => 3
    case BeforePrice(_) => 4
    case BeforeLatest(_) => 5
  }

  /** A record still to dispatch may become a queued job; a batch polled too late is dropped. */
  function ConsumerWork(p: Phase): nat {
    match p
    case Stopped => 0
    case Fetched(_) => 1
    case Polling => 2
    case Dispatching(rest, enqueued) =>
      if enqueued && rest != [] then 16 * |rest| - 12 else 3 + 16 * |rest|
  }

  function Measure(s: State): nat {
    ConsumerWork(s.intake.phase) + 14 * |s.pool.jobs| + Sum(s.pool.workers, Weight())
    + 3 * |s.sinks.book.queue| + KeeperWork(s.keeper.phase)
    + 5 * |s.sinks.redis.queue| + WriterWork(s.writer.phase)
    + |s.sinks.broadcast.queue| + One(s.broadcasting)
  }

  /** Steps that move trades onwards: dequeue, send, finish, receive and process. */
  predicate Internal(step: Step) {
    match step
    case Cancel => false
    case ByConsumer(_) => false
    case ByWorker(_, a) => a.Dequeue? || a.Send? || a.Finish?
    case ByKeeper(a) => !a.StopKeeper?
    case ByWriter(a) => !a.StopWriter?
    case ByBroadcaster(a) => !a.StopBroadcaster?
  }

  lemma SendLowers(c: Config, s: State, w: nat, k: Sink, t: State)
    requires WorkerDo(c, s, w, Send(k)) == Some(t)
    ensures Measure(t) < Measure(s)
  {
    SumPut(s.pool.workers, w, t.pool.workers[w], Weight());
    PendingDrops(s.pool.workers[w].pending, k);
  }

  lemma PendingDrops(pending: set<Sink>, k: Sink)
    requires k in pending
    ensures PendingWeight(pending) == PendingWeight(pending - {k}) + SinkWeight(k)
  {
  }

  lemma WorkerLowers(c: Config, s: State, w: nat, a: WorkerStep, t: State)
    requires WorkerDo(c, s, w, a) == Some(t)
    ensures Measure(t) < Measure(s)
  {
    if a.Send? {
      SendLowers(c, s, w, a.sink, t);
    } else {
      SumPut(s.pool.workers, w, t.pool.workers[w], Weight());
      assert t.sinks == s.sinks;
    }
  }

  lemma KeeperLowers(s: State, a: KeeperStep, t: State)
    requires KeeperDo(s, a) == Some(t)
    ensures Measure(t) < Measure(s)
  {
  }

  lemma WriterLowers(s: State, a: WriterStep, t: State)
    requires WriterDo(s, a) == Some(t)
    ensures Measure(t) < Measure(s)
  {
  }

  lemma BroadcasterLowers(s: State, a: BroadcasterStep, t: State)
    requires BroadcasterDo(s, a) == Some(t)
    ensures Measure(t) < Measure(s)
  {
  }

  lemma ConsumerLowers(c: Config, s: State, a: ConsumerStep, t: State)
    requires ConsumerDo(c, s, a) == Some(t) && s.cancelled
    ensures Measure(t) < Measure(s)
  {
  }

  /** Every internal step lowers the measure, and once cancelled so does every step. */
  lemma Lowers(c: Config, s: State, step: Step, t: State)
    requires Do(c, s, step) == Some(t) && !step.Cancel?
    requires Internal(step) || s.cancelled
    ensures Measure(t) < Measure(s)
  {
    match step
    case ByConsumer(a) => ConsumerLowers(c, s, a, t);
    case ByWorker(w, a) => WorkerLowers(c, s, w, a, t);
    case ByKeeper(a) => KeeperLowers(s, a, t);
    case ByWriter(a) => WriterLowers(s, a, t);
    case ByBroadcaster(a) => BroadcasterLowers(s, a, t);
  }

  // ------------------------------------------------------------------ nobody leaves early

  ghost predicate Alive(s: State) {
    !s.cancelled ==> !s.keeper.phase.KeeperGone? && !s.writer.phase.WriterGone? && s.broadcasting
                     && !s.intake.phase.Stopped?
  }

  lemma AliveStep(c: Config, s: State, step: Step, t: State)
    requires Alive(s) && Do(c, s, step) == Some(t)
    ensures Alive(t)
  {
  }

  lemma {:induction false} StaysAlive(c: Config, store: Store, run: Run, s: State)
    requires Exec(c, Init(c, store), run) == Some(s)
    ensures Alive(s)
  {
    if run.Then? {
      var mid := Exec(c, Init(c, store), run.before).value;
      StaysAlive(c, store, run.before, mid);
      AliveStep(c, mid, run.step, s);
    }
  }

  // ------------------------------------------------------------------ deadlock freedom

  ghost predicate Drained(s: State) {
    && s.pool.jobs == []
    && (forall i :: 0 <= i < |s.pool.workers| ==> s.pool.workers[i] == Idle)
    && (forall k :: At(s.sinks, k).queue == [])
    && s.keeper.phase.KeeperIdle? && s.writer.phase.WriterIdle?
  }

  ghost predicate Enabled(c: Config, s: State, step: Step) { Do(c, s, step).Some? }

  /** A receiver with work to do, or a trade waiting for it, can move. */
  lemma ReceiverStep(c: Config, s: State) returns (step: Step)
    requires Alive(s) && !s.cancelled
    requires !s.keeper.phase.KeeperIdle? || !s.writer.phase.WriterIdle?
             || exists k :: At(s.sinks, k).queue != []
    ensures Internal(step) && Enabled(c, s, step)
  {
    if s.keeper.phase.KeeperHas? { step := ByKeeper(GetBook); }
    else if s.keeper.phase.KeeperRead? { step := ByKeeper(UpdateBook); }
    else if s.writer.phase.BeforeLatest? { step := ByWriter(SetLatest(true)); }
    else if s.writer.phase.BeforePrice? { step := ByWriter(SetPrice(true)); }
    else if s.writer.phase.BeforeGet? { step := ByWriter(ReadBook); }
    else if s.writer.phase.BeforeSnapshot? { step := ByWriter(SetSnapshot(true)); }
    else if s.sinks.book.queue != [] { step := ByKeeper(TakeUpdate); }
    else if s.sinks.redis.queue != [] { step := ByWriter(TakeWrite); }
    else { step := ByBroadcaster(TakeBroadcast); }
  }

  /** With room in every sink, a worker that publishes, or that has a job to take, can move. */
  lemma WorkerStepEnabled(c: Config, s: State) returns (step: Step)
    requires Sized(c) && Conservation.Bounded(c, s) && CutShort(s) && !s.cancelled
    requires forall k :: At(s.sinks, k).queue == []
    requires s.pool.jobs != [] || exists i :: 0 <= i < |s.pool.workers| && s.pool.workers[i] != Idle
    ensures Internal(step) && Enabled(c, s, step)
  {
    var p := s.pool;
    if i :| 0 <= i < |p.workers| && p.workers[i].Publishing? {
      if k :| k in p.workers[i].pending {
        assert |At(s.sinks, k).queue| == 0;
        step := ByWorker(i, Send(k));
      } else {
        assert p.workers[i].pending == {};
        step := ByWorker(i, Finish);
      }
    } else {
      assert p.workers[0] == Idle;
      step := ByWorker(0, Dequeue);
    }
  }

  /** Before cancellation some step is enabled in every state, and as long as any trade is under
      way a step that moves trades onwards is: a blocked Submit never blocks the pipeline. */
  lemma DeadlockFree(c: Config, s: State) returns (step: Step)
    requires Sized(c) && Conservation.Inv(c, s) && Commit.Inv(s) && Alive(s) && !s.cancelled
    ensures Enabled(c, s, step) && !step.Cancel?
    ensures !Drained(s) ==> Internal(step)
  {
    if !s.keeper.phase.KeeperIdle? || !s.writer.phase.WriterIdle?
       || exists k :: At(s.sinks, k).queue != [] {
      step := ReceiverStep(c, s);
    } else if s.pool.jobs != [] || exists i :: 0 <= i < |s.pool.workers| && s.pool.workers[i] != Idle {
      step := WorkerStepEnabled(c, s);
    } else {
      step := ByConsumer(NextConsumerStep(s.intake.phase));
    }
  }

  function NextConsumerStep(p: Phase): ConsumerStep {
    match p
    case Polling => Poll([])
    case Fetched(_) => CheckContext
    case Stopped => EndBatch
    case Dispatching(rest, enqueued) =>
      if rest == [] then EndBatch
      else if enqueued then Mark
      else if rest[0].Malformed? then SkipMalformed
      else Submit
  }

  // ------------------------------------------------------------------ draining

  ghost predicate AllInternal(run: Run) {
    run.Then? ==> Internal(run.step) && AllInternal(run.before)
  }

  function Length(run: Run): nat { if run.Begin? then 0 else Length(run.before) + 1 }

  lemma InternalKeepsIntake(c: Config, s: State, step: Step, t: State)
    requires Do(c, s, step) == Some(t) && Internal(step)
    ensures t.intake == s.intake && t.pool.accepted == s.pool.accepted && t.cancelled == s.cancelled
  {
    Frame(c, s, step, t);
  }

  /** However the goroutines are scheduled, draining takes at most Measure steps. */
  lemma {:induction false} DrainBounded(c: Config, s: State, run: Run, t: State)
    requires Exec(c, s, run) == Some(t) && AllInternal(run)
    ensures Length(run) + Measure(t) <= Measure(s)
    ensures t.intake == s.intake && t.pool.accepted == s.pool.accepted && t.cancelled == s.cancelled
  {
    if run.Then? {
      var mid := Exec(c, s, run.before).value;
      DrainBounded(c, s, run.before, mid);
      Lowers(c, mid, run.step, t);
      InternalKeepsIntake(c, mid, run.step, t);
    }
  }

  /** A drained pipeline has delivered to each receiver exactly the enriched accepted trades. */
  lemma DrainedDelivers(c: Config, s: State, k: Sink)
    requires Conservation.Inv(c, s) && Drained(s) && !s.cancelled
    ensures multiset(At(s.sinks, k).received) == multiset(EnrichAll(c, s.pool.accepted))
  {
    var p, got := s.pool, At(s.sinks, k).received;
    assert Sent(s, k) == got;
    forall j ensures Count(got, j) == Count(EnrichAll(c, p.accepted), j) {
      assert SinkInv(p, k, Sent(s, k));
      assert SinkBalanced(p, k, got, j) && Balanced(c, p, j);
      SumZero(p.workers, Holds(j));
      SumZero(p.workers, HoldsPast(j, k));
      assert p.abandoned == [] && Sum(p.abandoned, Holds(j)) == 0 == Sum(p.abandoned, HoldsPast(j, k));
      assert EnrichAll(c, p.jobs) == [] && Count([], j) == 0;
    }
    SameCounts(got, EnrichAll(c, p.accepted));
  }

  lemma SameCounts(a: seq<Job>, b: seq<Job>)
    requires forall j :: Count(a, j) == Count(b, j)
    ensures multiset(a) == multiset(b)
  {
    forall j ensures multiset(a)[j] == multiset(b)[j] {
      assert Count(a, j) == Count(b, j);
    }
  }

  /** Once submissions stop, every schedule of the remaining steps ends, and when none is left
      all queues are empty and each receiver has got exactly the enriched accepted trades. */
  lemma DrainCompletes(c: Config, s: State, run: Run, t: State)
    requires Sized(c) && Conservation.Inv(c, s) && Commit.Inv(s) && Alive(s) && !s.cancelled
    requires Exec(c, s, run) == Some(t) && AllInternal(run)
    requires forall step :: Internal(step) ==> !Enabled(c, t, step)
    ensures Length(run) <= Measure(s)
    ensures Drained(t)
    ensures forall k :: multiset(At(t.sinks, k).received) == multiset(EnrichAll(c, s.pool.accepted))
  {
    DrainBounded(c, s, run, t);
    KeepsAll(c, s, run, t);
    var step := DeadlockFree(c, t);
    forall k ensures multiset(At(t.sinks, k).received) == multiset(EnrichAll(c, s.pool.accepted)) {
      DrainedDelivers(c, t, k);
    }
  }

  lemma {:induction false} KeepsAll(c: Config, s: State, run: Run, t: State)
    requires Conservation.Inv(c, s) && Commit.Inv(s) && Alive(s) && Exec(c, s, run) == Some(t)
    ensures Conservation.Inv(c, t) && Commit.Inv(t) && Alive(t)
  {
    if run.Then? {
      var mid := Exec(c, s, run.before).value;
      KeepsAll(c, s, run.before, mid);
      Conservation.StepKeeps(c, mid, run.step, t);
      Commit.StepKeeps(c, mid, run.step, t);
      AliveStep(c, mid, run.step, t);
    }
  }

  /** And such a schedule exists from every state. */
  lemma {:induction false} DrainExists(c: Config, s: State, sofar: Run, mid: State) returns (run: Run, t: State)
    requires Sized(c) && Conservation.Inv(c, mid) && Commit.Inv(mid) && Alive(mid) && !mid.cancelled
    requires Exec(c, s, sofar) == Some(mid) && AllInternal(sofar)
    ensures Exec(c, s, run) == Some(t) && AllInternal(run) && Drained(t)
    decreases Measure(mid)
  {
    if Drained(mid) {
      run, t := sofar, mid;
    } else {
      var step := DeadlockFree(c, mid);
      var next := Do(c, mid, step).value;
      Lowers(c, mid, step, next);
      InternalKeepsIntake(c, mid, step, next);
      Conservation.StepKeeps(c, mid, step, next);
      Commit.StepKeeps(c, mid, step, next);
      AliveStep(c, mid, step, next);
      run, t := DrainExists(c, s, Then(sofar, step), next);
    }
  }

  // ------------------------------------------------------------------ shutdown

  ghost predicate NoCancel(run: Run) { run.Then? ==> !run.step.Cancel? && NoCancel(run.before) }

  /** Every goroutine has returned. */
  ghost predicate AllGone(s: State) {
    && s.intake.phase.Stopped?
    && (forall i :: 0 <= i < |s.pool.workers| ==> s.pool.workers[i] == Exited)
    && s.keeper.phase.KeeperGone? && s.writer.phase.WriterGone? && !s.broadcasting
  }

  /** After cancellation every schedule is finite, whichever ready cases the selects pick. */
  lemma {:induction false} ShutdownBounded(c: Config, s: State, run: Run, t: State)
    requires Exec(c, s, run) == Some(t) && s.cancelled && NoCancel(run)
    ensures t.cancelled && Length(run) + Measure(t) <= Measure(s)
  {
    if run.Then? {
      var mid := Exec(c, s, run.before).value;
      ShutdownBounded(c, s, run.before, mid);
      Lowers(c, mid, run.step, t);
      Frame(c, mid, run.step, t);
    }
  }

  /** Steps of goroutines on their way out: nothing is received, sent, submitted or set. */
  predicate Leaving(step: Step) {
    match step
    case Cancel => false
    case ByConsumer(a) => a != Submit && (a.Poll? ==> a.batch == [])
    case ByWorker(_, a) => a.Finish? || a.Abandon? || a.Exit?
    case ByKeeper(a) => !a.TakeUpdate?
    case ByWriter(a) => !a.TakeWrite? && a != SetLatest(true) && a != SetPrice(true) && a != SetSnapshot(true)
    case ByBroadcaster(a) => a.StopBroadcaster?
  }

  /** And it can only end with every goroutine returned: the errgroup's Wait comes back. */
  lemma ShutdownCompletes(c: Config, s: State) returns (step: Step)
    requires Commit.Inv(s) && s.cancelled && !AllGone(s)
    ensures Enabled(c, s, step) && !step.Cancel? && Leaving(step)
  {
    var ph := s.intake.phase;
    if !ph.Stopped? {
      step := ByConsumer(if ph.Dispatching? && ph.rest != [] && !ph.enqueued && ph.rest[0].WellFormed?
                         then Refuse else NextConsumerStep(ph));
    } else if i :| 0 <= i < |s.pool.workers| && s.pool.workers[i] != Exited {
      var w := s.pool.workers[i];
      step := ByWorker(i, if w.Idle? then Exit else if w.pending == {} then Finish else Abandon);
    } else {
      step := LeavingStep(c, s);
    }
  }

  lemma LeavingStep(c: Config, s: State) returns (step: Step)
    requires s.cancelled
    requires !s.keeper.phase.KeeperGone? || !s.writer.phase.WriterGone? || s.broadcasting
    ensures Enabled(c, s, step) && !step.Cancel? && Leaving(step)
  {
    if s.keeper.phase.KeeperIdle? { step := ByKeeper(StopKeeper); }
    else if s.keeper.phase.KeeperHas? { step := ByKeeper(GetBook); }
    else if s.keeper.phase.KeeperRead? { step := ByKeeper(UpdateBook); }
    else if s.writer.phase.WriterIdle? { step := ByWriter(StopWriter); }
    else if s.writer.phase.BeforeLatest? { step := ByWriter(SetLatest(false)); }
    else if s.writer.phase.BeforePrice? { step := ByWriter(SetPrice(false)); }
    else if s.writer.phase.BeforeGet? { step := ByWriter(ReadBook); }
    else if s.writer.phase.BeforeSnapshot? { step := ByWriter(SetSnapshot(false)); }
    else { step := ByBroadcaster(StopBroadcaster); }
  }
}
