/** Nothing is lost, duplicated or altered between Submit and the sinks. */
module Conservation {
  import opened Trades
  import opened Processor

  // ------------------------------------------------------------------ sums over workers

  function Sum(ws: seq<Worker>, f: Worker -> nat): nat {
    if ws == [] then 0 else Sum(ws[..|ws| - 1], f) + f(ws[|ws| - 1])
  }

  lemma {:induction false} SumPut(ws: seq<Worker>, i: nat, w: Worker, f: Worker -> nat)
    requires i < |ws|
    ensures Sum(ws[i := w], f) + f(ws[i]) == Sum(ws, f) + f(w)
  {
    var n := |ws| - 1;
    if i == n {
      assert ws[i := w][..n] == ws[..n];
    } else {
      SumPut(ws[..n], i, w, f);
      assert ws[i := w][..n] == ws[..n][i := w];
    }
  }

  lemma SumPush(ws: seq<Worker>, w: Worker, f: Worker -> nat)
    ensures Sum(ws + [w], f) == Sum(ws, f) + f(w)
  {
    assert (ws + [w])[..|ws|] == ws;
  }

  lemma {:induction false} SumZero(ws: seq<Worker>, f: Worker -> nat)
    ensures Sum(ws, f) == 0 <==> forall i :: 0 <= i < |ws| ==> f(ws[i]) == 0
  {
    if ws != [] {
      SumZero(ws[..|ws| - 1], f);
    }
  }

  lemma {:induction false} SumAtMost(ws: seq<Worker>, f: Worker -> nat, g: Worker -> nat)
    requires forall w :: w in ws ==> f(w) <= g(w)
    ensures Sum(ws, f) <= Sum(ws, g)
  {
    if ws != [] {
      SumAtMost(ws[..|ws| - 1], f, g);
    }
  }

  function One(b: bool): nat { if b then 1 else 0 }

  function Holds(j: Job): Worker -> nat { (w: Worker) => One(w.Publishing? && w.job == j) }

  function HoldsPast(j: Job, k: Sink): Worker -> nat {
    (w: Worker) => One(w.Publishing? && w.job == j && k !in w.pending)
  }

  function Busy(): Worker -> nat { (w: Worker) => One(w.Publishing?) }

  function BusyPast(k: Sink): Worker -> nat { (w: Worker) => One(w.Publishing? && k !in w.pending) }

  function Each(): Worker -> nat { (w: Worker) => 1 }

  lemma {:induction false} SumEach(ws: seq<Worker>)
    ensures Sum(ws, Each()) == |ws|
  {
    if ws != [] {
      SumEach(ws[..|ws| - 1]);
    }
  }

  lemma BusyBounds(ws: seq<Worker>, k: Sink)
    ensures Sum(ws, BusyPast(k)) <= Sum(ws, Busy()) <= |ws|
  {
    SumAtMost(ws, BusyPast(k), Busy());
    SumAtMost(ws, Busy(), Each());
    SumEach(ws);
  }

  /** How often a trade occurs in a sequence. */
  function Count(js: seq<Job>, j: Job): nat { multiset(js)[j] }

  lemma CountPush(js: seq<Job>, x: Job, j: Job)
    ensures Count(js + [x], j) == Count(js, j) + One(x == j)
  {
  }

  lemma CountPop(js: seq<Job>, j: Job)
    requires js != []
    ensures Count(js, j) == Count(js[1..], j) + One(js[0] == j)
  {
    assert js == [js[0]] + js[1..];
  }

  lemma EnrichPush(c: Config, js: seq<Job>, x: Job)
    ensures EnrichAll(c, js + [x]) == EnrichAll(c, js) + [Enriched(c, x)]
  {
  }

  lemma EnrichPop(c: Config, js: seq<Job>)
    requires js != []
    ensures EnrichAll(c, js)[1..] == EnrichAll(c, js[1..])
  {
  }

  // ------------------------------------------------------------------ the invariant

  ghost predicate Bounded(c: Config, s: State) {
    && |s.pool.workers| == c.poolSize
    && |s.pool.jobs| <= c.poolSize
    && forall k :: |At(s.sinks, k).queue| <= c.bufferSize
  }

  /** The job channel is a FIFO: it always holds the tail of what was accepted. */
  ghost predicate QueueIsTail(p: Pool) {
    && |p.jobs| <= |p.accepted|
    && p.jobs == p.accepted[|p.accepted| - |p.jobs|..]
  }

  /** Trade j was accepted as often as it is queued, held, finished or abandoned. */
  ghost predicate Balanced(c: Config, p: Pool, j: Job) {
    Count(EnrichAll(c, p.accepted), j) ==
      Count(EnrichAll(c, p.jobs), j) + Sum(p.workers, Holds(j))
      + Count(p.finished, j) + Sum(p.abandoned, Holds(j))
  }

  /** Sink k was sent j as often as j is finished, or held or abandoned with k behind it. */
  ghost predicate SinkBalanced(p: Pool, k: Sink, sent: seq<Job>, j: Job) {
    Count(sent, j) == Count(p.finished, j) + Sum(p.workers, HoldsPast(j, k)) + Sum(p.abandoned, HoldsPast(j, k))
  }

  /** The same two laws for the number of trades. */
  ghost predicate Sizes(p: Pool) {
    |p.accepted| == |p.jobs| + Sum(p.workers, Busy()) + |p.finished| + Sum(p.abandoned, Busy())
  }

  ghost predicate SinkSizes(p: Pool, k: Sink, sent: seq<Job>) {
    |sent| == |p.finished| + Sum(p.workers, BusyPast(k)) + Sum(p.abandoned, BusyPast(k))
  }

  /** Only a cancelled context makes a worker abandon a trade or leave, and only unfinished ones. */
  ghost predicate CutShort(s: State) {
    && (forall w :: w in s.pool.abandoned ==> w.Publishing? && w.pending != {})
    && (!s.cancelled ==> s.pool.abandoned == [] && Exited !in s.pool.workers)
  }

  ghost predicate PoolInv(c: Config, p: Pool) {
    QueueIsTail(p) && Sizes(p) && forall j :: Balanced(c, p, j)
  }

  ghost predicate SinkInv(p: Pool, k: Sink, sent: seq<Job>) {
    SinkSizes(p, k, sent) && forall j :: SinkBalanced(p, k, sent, j)
  }

  ghost predicate Inv(c: Config, s: State) {
    && Bounded(c, s)
    && PoolInv(c, s.pool)
    && (forall k :: SinkInv(s.pool, k, Sent(s, k)))
    && CutShort(s)
  }

  // ------------------------------------------------------------------ pool-level effects

  lemma SubmitBalances(c: Config, p: Pool, x: Job, q: Pool)
    requires PoolInv(c, p) && q == p.(accepted := p.accepted + [x], jobs := p.jobs + [x])
    ensures PoolInv(c, q)
  {
    forall j ensures Balanced(c, q, j) {
      assert Balanced(c, p, j);
      EnrichPush(c, p.accepted, x);
      EnrichPush(c, p.jobs, x);
      CountPush(EnrichAll(c, p.accepted), Enriched(c, x), j);
      CountPush(EnrichAll(c, p.jobs), Enriched(c, x), j);
    }
  }

  lemma DequeueBalances(c: Config, p: Pool, w: nat, q: Pool)
    requires PoolInv(c, p) && w < |p.workers| && p.workers[w] == Idle && p.jobs != []
    requires q == p.(jobs := p.jobs[1..],
                     workers := p.workers[w := Publishing(Enriched(c, p.jobs[0]), ALL_SINKS)])
    ensures PoolInv(c, q)
  {
    SumPut(p.workers, w, q.workers[w], Busy());
    forall j ensures Balanced(c, q, j) {
      assert Balanced(c, p, j);
      SumPut(p.workers, w, q.workers[w], Holds(j));
      EnrichPop(c, p.jobs);
      CountPop(EnrichAll(c, p.jobs), j);
    }
  }

  /** A worker that changes its pending set still holds the same trade. */
  lemma SendBalances(c: Config, p: Pool, w: nat, now: Worker, q: Pool)
    requires PoolInv(c, p) && w < |p.workers| && p.workers[w].Publishing?
    requires now.Publishing? && now.job == p.workers[w].job && q == p.(workers := p.workers[w := now])
    ensures PoolInv(c, q)
  {
    SumPut(p.workers, w, now, Busy());
    forall j ensures Balanced(c, q, j) {
      assert Balanced(c, p, j);
      SumPut(p.workers, w, now, Holds(j));
    }
  }

  /** Finish, Abandon and Exit move the worker's trade to where it is accounted for. */
  ghost predicate Left(p: Pool, w: nat, q: Pool)
    requires w < |p.workers|
  {
    var was := p.workers[w];
    || (was.Idle? && q == p.(workers := p.workers[w := Exited]))
    || (was.Publishing? && was.pending == {}
        && q == p.(workers := p.workers[w := Idle], finished := p.finished + [was.job]))
    || (was.Publishing? && was.pending != {}
        && q == p.(workers := p.workers[w := Idle], abandoned := p.abandoned + [was]))
  }

  lemma LeaveBalances(c: Config, p: Pool, w: nat, q: Pool)
    requires PoolInv(c, p) && w < |p.workers| && Left(p, w, q)
    ensures PoolInv(c, q)
  {
    LeaveSizes(p, w, q);
    forall j ensures Balanced(c, q, j) {
      LeaveBalancesOne(c, p, w, q, j);
    }
  }

  lemma LeaveSizes(p: Pool, w: nat, q: Pool)
    requires Sizes(p) && w < |p.workers| && Left(p, w, q)
    ensures Sizes(q)
  {
    SumPut(p.workers, w, q.workers[w], Busy());
    SumPush(p.abandoned, p.workers[w], Busy());
  }

  lemma LeaveBalancesOne(c: Config, p: Pool, w: nat, q: Pool, j: Job)
    requires Balanced(c, p, j) && w < |p.workers| && Left(p, w, q)
    ensures Balanced(c, q, j)
  {
    var was := p.workers[w];
    SumPut(p.workers, w, q.workers[w], Holds(j));
    SumPush(p.abandoned, was, Holds(j));
    if was.Publishing? {
      CountPush(p.finished, was.job, j);
    }
  }

  lemma LeaveSink(p: Pool, w: nat, q: Pool, k: Sink, sent: seq<Job>)
    requires SinkInv(p, k, sent) && w < |p.workers| && Left(p, w, q)
    ensures SinkInv(q, k, sent)
  {
    var was := p.workers[w];
    SumPut(p.workers, w, q.workers[w], BusyPast(k));
    SumPush(p.abandoned, was, BusyPast(k));
    forall j ensures SinkBalanced(q, k, sent, j) {
      assert SinkBalanced(p, k, sent, j);
      SumPut(p.workers, w, q.workers[w], HoldsPast(j, k));
      SumPush(p.abandoned, was, HoldsPast(j, k));
      if was.Publishing? {
        CountPush(p.finished, was.job, j);
      }
    }
  }

  /** Replacing a worker leaves sink k balanced if the worker has sent k neither more nor less. */
  lemma OtherSink(p: Pool, w: nat, now: Worker, q: Pool, k: Sink, sent: seq<Job>)
    requires SinkInv(p, k, sent) && w < |p.workers|
    requires q.workers == p.workers[w := now] && q.finished == p.finished && q.abandoned == p.abandoned
    requires BusyPast(k)(p.workers[w]) == BusyPast(k)(now)
    requires BusyPast(k)(now) == 1 ==> now.job == p.workers[w].job
    ensures SinkInv(q, k, sent)
  {
    SumPut(p.workers, w, now, BusyPast(k));
    forall j ensures SinkBalanced(q, k, sent, j) {
      assert SinkBalanced(p, k, sent, j);
      SumPut(p.workers, w, now, HoldsPast(j, k));
    }
  }

  lemma SendSink(p: Pool, w: nat, now: Worker, q: Pool, k: Sink, sent: seq<Job>)
    requires SinkInv(p, k, sent) && w < |p.workers| && p.workers[w].Publishing? && k in p.workers[w].pending
    requires now == Publishing(p.workers[w].job, p.workers[w].pending - {k})
    requires q == p.(workers := p.workers[w := now])
    ensures SinkInv(q, k, sent + [now.job])
  {
    SumPut(p.workers, w, now, BusyPast(k));
    forall j ensures SinkBalanced(q, k, sent + [now.job], j) {
      assert SinkBalanced(p, k, sent, j);
      SumPut(p.workers, w, now, HoldsPast(j, k));
      CountPush(sent, now.job, j);
    }
  }

  // ------------------------------------------------------------------ every step keeps it

  lemma InitInv(c: Config, store: Store)
    ensures Inv(c, Init(c, store))
  {
    var s := Init(c, store);
    var p := s.pool;
    SumZero(p.workers, Busy());
    forall j ensures Balanced(c, p, j) {
      SumZero(p.workers, Holds(j));
      assert EnrichAll(c, []) == [];
    }
    forall k ensures SinkInv(p, k, Sent(s, k)) {
      assert Sent(s, k) == [];
      SumZero(p.workers, BusyPast(k));
      forall j ensures SinkBalanced(p, k, [], j) {
        SumZero(p.workers, HoldsPast(j, k));
      }
    }
  }

  /** Steps that leave the pool alone and at most receive from a sink. */
  lemma ReceiverKeeps(c: Config, s: State, t: State)
    requires Inv(c, s) && t.pool == s.pool && (s.cancelled ==> t.cancelled)
    requires forall k :: At(t.sinks, k) == At(s.sinks, k)
                         || (At(s.sinks, k).queue != [] && At(t.sinks, k) == Taken(At(s.sinks, k)))
    ensures Inv(c, t)
  {
    forall k ensures Sent(t, k) == Sent(s, k) && |At(t.sinks, k).queue| <= c.bufferSize {
      if At(t.sinks, k) != At(s.sinks, k) {
        TakeKeepsSent(At(s.sinks, k));
      }
    }
    forall k ensures SinkInv(t.pool, k, Sent(t, k)) {
      assert SinkInv(s.pool, k, Sent(s, k));
    }
  }

  lemma ConsumerKeeps(c: Config, s: State, a: ConsumerStep, t: State)
    requires Inv(c, s) && ConsumerDo(c, s, a) == Some(t)
    ensures Inv(c, t)
  {
    if t.pool == s.pool {
      ReceiverKeeps(c, s, t);
    } else {
      SubmitBalances(c, s.pool, Job(|s.intake.dispatched|, s.intake.phase.rest[0].event), t.pool);
      forall k ensures SinkInv(t.pool, k, Sent(t, k)) {
        assert SinkInv(s.pool, k, Sent(s, k)) && Sent(t, k) == Sent(s, k);
        forall j ensures SinkBalanced(t.pool, k, Sent(t, k), j) {
          assert SinkBalanced(s.pool, k, Sent(s, k), j);
        }
      }
    }
  }

  lemma DequeueKeeps(c: Config, s: State, w: nat, t: State)
    requires Inv(c, s) && WorkerDo(c, s, w, Dequeue) == Some(t)
    ensures Inv(c, t)
  {
    DequeueBalances(c, s.pool, w, t.pool);
    forall k ensures SinkInv(t.pool, k, Sent(t, k)) {
      assert SinkInv(s.pool, k, Sent(s, k));
      OtherSink(s.pool, w, t.pool.workers[w], t.pool, k, Sent(s, k));
    }
  }

  lemma SendKeeps(c: Config, s: State, w: nat, to: Sink, t: State)
    requires Inv(c, s) && WorkerDo(c, s, w, Send(to)) == Some(t)
    ensures Inv(c, t)
  {
    var now := t.pool.workers[w];
    SendBalances(c, s.pool, w, now, t.pool);
    forall k ensures SinkInv(t.pool, k, Sent(t, k)) {
      assert SinkInv(s.pool, k, Sent(s, k));
      if k == to {
        assert Sent(t, k) == Sent(s, k) + [now.job];
        SendSink(s.pool, w, now, t.pool, k, Sent(s, k));
      } else {
        OtherSink(s.pool, w, now, t.pool, k, Sent(s, k));
      }
    }
  }

  lemma LeaveKeeps(c: Config, s: State, w: nat, a: WorkerStep, t: State)
    requires Inv(c, s) && WorkerDo(c, s, w, a) == Some(t) && (a.Finish? || a.Abandon? || a.Exit?)
    ensures Inv(c, t)
  {
    LeaveBalances(c, s.pool, w, t.pool);
    forall k ensures SinkInv(t.pool, k, Sent(t, k)) {
      assert SinkInv(s.pool, k, Sent(s, k));
      LeaveSink(s.pool, w, t.pool, k, Sent(s, k));
    }
  }

  lemma StepKeeps(c: Config, s: State, step: Step, t: State)
    requires Inv(c, s) && Do(c, s, step) == Some(t)
    ensures Inv(c, t)
  {
    match step
    case Cancel => ReceiverKeeps(c, s, t);
    case ByConsumer(a) => ConsumerKeeps(c, s, a, t);
    case ByWorker(w, a) =>
      match a {
        case Dequeue => DequeueKeeps(c, s, w, t);
        case Send(k) => SendKeeps(c, s, w, k, t);
        case _ => LeaveKeeps(c, s, w, a, t);
      }
    case ByKeeper(a) => ReceiverKeeps(c, s, t);
    case ByWriter(a) => ReceiverKeeps(c, s, t);
    case ByBroadcaster(a) => ReceiverKeeps(c, s, t);
  }

  /** Conservation over every interleaving, for every pool and buffer size. */
  lemma {:induction false} Conserved(c: Config, store: Store, run: Run, s: State)
    requires Exec(c, Init(c, store), run) == Some(s)
    ensures Inv(c, s)
  {
    match run
    case Begin => InitInv(c, store);
    case Then(before, step) =>
      var mid := Exec(c, Init(c, store), before).value;
      Conserved(c, store, before, mid);
      StepKeeps(c, mid, step, s);
  }
}
