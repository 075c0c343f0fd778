/** The goroutines of the processor as imperative code on shared channels.

    Each loop sends to and receives from channel objects, tests the context and updates the stores,
    with its position kept in a field beside its local variables. Between any two of its actions
    the schedule lets the other goroutines take any number of steps. `Abs` reads the objects as a
    state of the step machine, and every action is proved to be one of its steps: `Valid` says that
    the recorded trace leads from the initial state to the present one, so that whatever holds of
    all runs holds of the running service. What each loop does under a schedule is said in full by
    `Play` (Schedules): no turn is missed and no other step is taken. */
module Goroutines {
  import opened Trades
  import opened OrderBooks
  import opened Processor
  import opened Conservation
  import opened Schedules
  import Commit
  import Delivery
  import Snapshots
  import Redis

  /** A buffered channel. */
  class Chan {
    const capacity: nat
    var queue: seq<Job>
    var received: seq<Job>

    constructor (capacity: nat)
      ensures this.capacity == capacity && queue == [] && received == []
    {
      this.capacity := capacity;
      queue, received := [], [];
    }

    /** A send case of a select: taken if there is room. */
    method TrySend(job: Job) returns (ok: bool)
      modifies this`queue
      ensures ok <==> |old(queue)| < capacity
      ensures queue == if ok then old(queue) + [job] else old(queue)
    {
      ok := |queue| < capacity;
      if ok {
        queue := queue + [job];
      }
    }

    /** A receive case: taken if something is there. */
    method TryReceive() returns (job: Option<Job>)
      modifies this
      ensures job == if old(queue) == [] then None else Some(old(queue)[0])
      ensures queue == if old(queue) == [] then [] else old(queue)[1..]
      ensures received == if old(queue) == [] then old(received) else old(received) + [old(queue)[0]]
    {
      if queue == [] {
        return None;
      }
      job := Some(queue[0]);
      received := received + [queue[0]];
      queue := queue[1..];
    }
  }

  // ------------------------------------------------------------------ traces and channel variables

  /** Run `later` goes on where `earlier` stopped. */
  ghost predicate Extends(earlier: Run, later: Run) {
    later == earlier || (later.Then? && Extends(earlier, later.before))
  }

  /** The sinks whose channel variable is not nil yet. */
  function NotNil(ob: bool, rw: bool, bc: bool): (r: set<Sink>)
    ensures r == {} <==> !(ob || rw || bc)
    ensures ToBook in r <==> ob
    ensures ToRedis in r <==> rw
    ensures ToBroadcast in r <==> bc
  {
    (if ob then {ToBook} else {}) + (if rw then {ToRedis} else {}) + (if bc then {ToBroadcast} else {})
  }

  lemma NilOut(ob: bool, rw: bool, bc: bool, k: Sink)
    ensures NotNil(ob, rw, bc) - {k} == NotNil(ob && k != ToBook, rw && k != ToRedis, bc && k != ToBroadcast)
  {
  }

  datatype Outcome = Delivered | ContextDone | StillBlocked

  // ------------------------------------------------------------------ the service

  class Service {
    const c: Config
    const jobs: Chan
    const book: Chan
    const redis: Chan
    const broadcast: Chan
    const books: OrderBookStore

    var cancelled: bool

    var phase: Phase
    var dispatched: seq<Record>
    var marked: set<nat>

    var accepted: seq<Job>
    var workers: seq<Worker>
    var finished: seq<Job>
    var abandoned: seq<Worker>

    var keeperAt: KeeperPhase
    var writer: Writer
    var broadcasting: bool

    ghost const store0: Store
    ghost var trace: Run

    ghost predicate Wired() {
      && jobs != book && jobs != redis && jobs != broadcast && book != redis && book != broadcast && redis != broadcast
      && jobs.capacity == c.poolSize
      && book.capacity == c.bufferSize && redis.capacity == c.bufferSize && broadcast.capacity == c.bufferSize
    }

    /** The objects, read as a state of the step machine. */
    function Abs(): State
      reads this, jobs, book, redis, broadcast, books
    {
      State(cancelled, Intake(phase, dispatched, marked),
            Pool(accepted, jobs.queue, workers, finished, abandoned),
            Sinks(Channel(book.queue, book.received), Channel(redis.queue, redis.received),
                  Channel(broadcast.queue, broadcast.received)),
            Keeper(books.data, keeperAt), writer, broadcasting)
    }

    ghost predicate Valid()
      reads this, jobs, book, redis, broadcast, books
    {
      Wired() && Exec(c, Init(c, store0), trace) == Some(Abs())
    }

    constructor (poolSize: int, fanOutBuffer: int, enrich: TradeEvent -> TradeEvent, store: Store)
      ensures Valid() && fresh(jobs) && fresh(book) && fresh(redis) && fresh(broadcast) && fresh(books) && Sized(c) && trace == Begin && store0 == store
      ensures c == Configure(poolSize, fanOutBuffer, enrich)
    {
      var config := Configure(poolSize, fanOutBuffer, enrich);
      c := config;
      jobs := new Chan(config.poolSize);
      book := new Chan(config.bufferSize);
      redis := new Chan(config.bufferSize);
      broadcast := new Chan(config.bufferSize);
      books := new OrderBookStore();
      cancelled := false;
      phase, dispatched, marked := Polling, [], {};
      accepted, finished, abandoned := [], [], [];
      workers := seq(config.poolSize, _ => Idle);
      keeperAt, broadcasting := KeeperIdle, true;
      writer := Writer(store, WriterIdle, map[], map[], map[], {}, {});
      store0, trace := store, Begin;
      new;
      assert Abs() == Init(c, store);
    }

    // ---------------------------------------------------------------- following a schedule

    /** The goroutine is on its way through a schedule that ends in `goal`; `turns` are left. */
    ghost predicate Follows(o: Owner, start: Run, goal: State, turns: seq<Turn>)
      reads this, jobs, book, redis, broadcast, books
    {
      Valid() && Extends(start, trace) && Play(c, o, Abs(), turns) == goal
    }

    /** The others have taken their steps of `turn`; the goroutine is to take its own. */
    ghost predicate Due(o: Owner, start: Run, goal: State, turn: Turn, turns: seq<Turn>)
      reads this, jobs, book, redis, broadcast, books
    {
      && Valid() && Extends(start, trace) && !turn.pick.Wait?
      && Play(c, o, Moved(c, o, Abs(), turn), turns) == goal
    }

    /** One of the others takes a step, if it is enabled: with the same action as its loop. */
    method Other(o: Owner, step: Step)
      requires Valid() && !Mine(o, step)
      modifies this, jobs, book, redis, broadcast, books
      ensures Valid() && Keeps(o, old(Abs()), Abs()) && Abs() == Try(c, old(Abs()), step)
      ensures trace == old(trace) || trace == Then(old(trace), step)
    {
      var next := Do(c, Abs(), step);
      OthersKeep(c, o, Abs(), step);
      if next.Some? {
        Act(step);
      }
    }

    /** The others take their steps of one turn. */
    method LetOthers(o: Owner, steps: seq<Step>, ghost start: Run)
      requires Valid() && Extends(start, trace)
      modifies this, jobs, book, redis, broadcast, books
      ensures Valid() && Extends(start, trace) && Keeps(o, old(Abs()), Abs())
      ensures Abs() == Others(c, o, old(Abs()), steps)
    {
      var rest := steps;
      while rest != []
        invariant Valid() && Extends(start, trace) && Keeps(o, old(Abs()), Abs())
        invariant Others(c, o, Abs(), rest) == Others(c, o, old(Abs()), steps)
        decreases |rest|
      {
        if !Mine(o, rest[0]) {
          Other(o, rest[0]);
        }
        rest := rest[1..];
      }
    }

    /** The goroutine waits for its next turn, while the others take their steps; there is none when
        the schedule has ended. */
    method Pause(o: Owner, turns: seq<Turn>, ghost start: Run, ghost goal: State)
      returns (more: bool, turn: Turn, rest: seq<Turn>)
      requires Follows(o, start, goal, turns)
      modifies this, jobs, book, redis, broadcast, books
      ensures Keeps(o, old(Abs()), Abs())
      ensures more ==> Due(o, start, goal, turn, rest) && |rest| < |turns|
      ensures !more ==> Follows(o, start, goal, []) && rest == []
    {
      more, turn, rest := false, BARE, turns;
      while !more && rest != []
        invariant Keeps(o, old(Abs()), Abs()) && |rest| <= |turns|
        invariant if more then Due(o, start, goal, turn, rest) && |rest| < |turns| else Follows(o, start, goal, rest)
        decreases !more, |rest|
      {
        turn, rest := rest[0], rest[1..];
        LetOthers(o, turn.others, start);
        more := !turn.pick.Wait?;
      }
    }

    /** The goroutine has returned; what is left of the schedule belongs to the others. */
    method Linger(o: Owner, turns: seq<Turn>, ghost start: Run, ghost goal: State)
      requires Follows(o, start, goal, turns) && Gone(o, Abs())
      modifies this, jobs, book, redis, broadcast, books
      ensures Follows(o, start, goal, []) && Gone(o, Abs()) && (old(cancelled) ==> cancelled)
    {
      var more, turn, rest := true, BARE, turns;
      while more
        invariant Follows(o, start, goal, rest) && Gone(o, Abs()) && (old(cancelled) ==> cancelled)
        invariant !more ==> rest == []
        decreases more, |rest|
      {
        more, turn, rest := Pause(o, rest, start, goal);
      }
    }

    // ---------------------------------------------------------------- FanOut.Publish

    function SinkOf(k: Sink): Chan {
      match k
      case ToBook => book
      case ToRedis => redis
      case ToBroadcast => broadcast
    }

    /** A send case of Publish's select. */
    method Offer(w: nat, k: Sink, ch: Chan, job: Job, ghost pending: set<Sink>) returns (ok: bool)
      requires Valid() && w < |workers| && workers[w] == Publishing(job, pending) && k in pending && ch == SinkOf(k)
      modifies this, jobs, book, redis, broadcast, books
      ensures Valid() && cancelled == old(cancelled) && Abs() == Try(c, old(Abs()), ByWorker(w, Send(k)))
      ensures ok <==> |old(At(Abs().sinks, k).queue)| < c.bufferSize
      ensures trace == if ok then Then(old(trace), ByWorker(w, Send(k))) else old(trace)
      ensures workers == if ok then old(workers)[w := Publishing(job, pending - {k})] else old(workers)
    {
      ok := ch.TrySend(job);
      if ok {
        workers := workers[w := Publishing(job, workers[w].pending - {k})];
        trace := Then(trace, ByWorker(w, Send(k)));
        assert Do(c, old(Abs()), ByWorker(w, Send(k))) == Some(Abs());
      }
    }

    /** Worker w is in Publish; its channel variables are nil for the sinks that have accepted. */
    ghost predicate AtSelect(w: nat, job: Job, ob: Chan?, rw: Chan?, bc: Chan?)
      reads this, jobs, book, redis, broadcast, books
    {
      && Valid() && ob in {null, book} && rw in {null, redis} && bc in {null, broadcast}
      && w < |workers| && workers[w] == Publishing(job, NotNil(ob != null, rw != null, bc != null))
    }

    /** The select of Publish with a send case picked: the channel variable becomes nil when the
        sink accepts. A nil channel is never ready. */
    method SendCase(w: nat, job: Job, k: Sink, ob: Chan?, rw: Chan?, bc: Chan?) returns (ob': Chan?, rw': Chan?, bc': Chan?)
      requires AtSelect(w, job, ob, rw, bc)
      modifies this, jobs, book, redis, broadcast, books
      ensures AtSelect(w, job, ob', rw', bc') && Abs() == Try(c, old(Abs()), ByWorker(w, Send(k)))
      ensures trace == old(trace) || trace == Then(old(trace), ByWorker(w, Send(k)))
    {
      ob', rw', bc' := ob, rw, bc;
      ghost var pending := workers[w].pending;
      NilOut(ob != null, rw != null, bc != null, k);
      match k {
        case ToBook =>
          if ob != null {
            var ok := Offer(w, k, ob, job, pending);
            if ok { ob' := null; }
          }
        case ToRedis =>
          if rw != null {
            var ok := Offer(w, k, rw, job, pending);
            if ok { rw' := null; }
          }
        case ToBroadcast =>
          if bc != null {
            var ok := Offer(w, k, bc, job, pending);
            if ok { bc' := null; }
          }
      }
    }

    /** The done case of Publish's select: the trade is given up, with some sink missing. */
    method GiveUp(w: nat) returns (gone: bool)
      requires Valid() && w < |workers| && workers[w].Publishing? && workers[w].pending != {}
      modifies this, jobs, book, redis, broadcast, books
      ensures Valid() && Abs() == Try(c, old(Abs()), ByWorker(w, Abandon)) && gone == old(cancelled) == cancelled
      ensures trace == if gone then Then(old(trace), ByWorker(w, Abandon)) else old(trace)
      ensures workers == if gone then old(workers)[w := Idle] else old(workers)
      ensures abandoned == if gone then old(abandoned) + [old(workers)[w]] else old(abandoned)
      ensures gone ==> forall k :: Sent(Abs(), k) == old(Sent(Abs(), k))
    {
      gone := cancelled;
      if gone {
        abandoned := abandoned + [workers[w]];
        workers := workers[w := Idle];
        trace := Then(trace, ByWorker(w, Abandon));
      }
    }

    /** Where Publish leaves worker w: with the trade in all sinks; having given it up with `pending`
        missing; or blocked on `pending`, the schedule being over. */
    ghost predicate Published(w: nat, job: Job, out: Outcome, pending: set<Sink>, rest: seq<Turn>)
      reads this
    {
      w < |workers|
      && match out
         case Delivered => pending == {} && workers[w] == Publishing(job, {})
         case ContextDone => pending != {} && cancelled && workers[w] == Idle
                             && abandoned != [] && abandoned[|abandoned| - 1] == Publishing(job, pending)
         case StillBlocked => pending != {} && workers[w] == Publishing(job, pending) && rest == []
    }

    /** The trade was sent once to each sink but the pending ones, and not at all to those. */
    ghost predicate SentExcept(job: Job, pending: set<Sink>)
      reads this, jobs, book, redis, broadcast, books
    {
      forall k :: Count(Sent(Abs(), k), job) + One(k in pending) == 1
    }

    method DoneCase(w: nat, job: Job, turn: Turn, rest: seq<Turn>, ghost start: Run, ghost goal: State)
      returns (gone: bool, ghost pending: set<Sink>)
      requires Due(TheWorker(w), start, goal, turn, rest) && turn.pick.Done? && w < |workers|
      requires workers[w].Publishing? && workers[w].job == job && workers[w].pending != {}
      modifies this, jobs, book, redis, broadcast, books
      ensures Follows(TheWorker(w), start, goal, rest)
      ensures gone ==> Published(w, job, ContextDone, pending, rest) && SentExcept(job, pending)
      ensures !gone ==> workers == old(workers)
    {
      pending := workers[w].pending;
      HeldInSinks(c, store0, trace, Abs(), w);
      ghost var before := Abs();
      gone := GiveUp(w);
      if gone {
        forall k ensures Count(Sent(Abs(), k), job) + One(k in pending) == 1 {
          assert Sent(Abs(), k) == Sent(before, k);
        }
      }
    }

    /** Between two turns at the select. */
    ghost predicate Selecting(w: nat, job: Job, ob: Chan?, rw: Chan?, bc: Chan?, start: Run, goal: State, rest: seq<Turn>)
      reads this, jobs, book, redis, broadcast, books
    {
      AtSelect(w, job, ob, rw, bc) && Follows(TheWorker(w), start, goal, rest)
    }

    /** One turn at the select. */
    method Select(w: nat, job: Job, ob: Chan?, rw: Chan?, bc: Chan?, turns: seq<Turn>, ghost start: Run, ghost goal: State)
      returns (ob': Chan?, rw': Chan?, bc': Chan?, more: bool, gone: bool, rest: seq<Turn>, ghost pending: set<Sink>)
      requires Selecting(w, job, ob, rw, bc, start, goal, turns) && !(ob == null && rw == null && bc == null)
      modifies this, jobs, book, redis, broadcast, books
      ensures |rest| <= |turns| && (more ==> |rest| < |turns|) && (!more ==> rest == [])
      ensures !gone ==> Selecting(w, job, ob', rw', bc', start, goal, rest)
      ensures gone ==> more && Follows(TheWorker(w), start, goal, rest)
                       && Published(w, job, ContextDone, pending, rest) && SentExcept(job, pending)
    {
      var turn;
      ob', rw', bc', gone := ob, rw, bc, false;
      pending := {};
      more, turn, rest := Pause(TheWorker(w), turns, start, goal);
      if more && turn.pick.Into? {
        ob', rw', bc' := SendCase(w, job, turn.pick.sink, ob, rw, bc);
      } else if more && turn.pick.Done? {
        gone, pending := DoneCase(w, job, turn, rest, start, goal);
      }
    }

    /** Publish by worker w: while some channel variable is not nil, take a turn at the select. It
        returns nil exactly when the trade is in all three sinks, and ctx.Err() only if the context is
        cancelled and some sink is missing. Whatever the outcome, each sink has been sent the trade
        once if its channel variable is nil, and not at all if it is not. */
    method Publish(w: nat, job: Job, turns: seq<Turn>, ghost start: Run, ghost goal: State)
      returns (out: Outcome, rest: seq<Turn>, ghost pending: set<Sink>)
      requires Follows(TheWorker(w), start, goal, turns) && w < |workers| && workers[w] == Publishing(job, ALL_SINKS)
      modifies this, jobs, book, redis, broadcast, books
      ensures Follows(TheWorker(w), start, goal, rest) && |rest| <= |turns|
      ensures Published(w, job, out, pending, rest) && SentExcept(job, pending)
    {
      var ob: Chan?, rw: Chan?, bc: Chan? := book, redis, broadcast;
      assert NotNil(true, true, true) == ALL_SINKS;
      var more, gone := true, false;
      rest := turns;
      while more && (ob != null || rw != null || bc != null)
        invariant Selecting(w, job, ob, rw, bc, start, goal, rest) && |rest| <= |turns|
        invariant !more ==> rest == []
        decreases more, |rest|
      {
        ob, rw, bc, more, gone, rest, pending := Select(w, job, ob, rw, bc, rest, start, goal);
        if gone {
          return ContextDone, rest, pending;
        }
      }
      pending := workers[w].pending;
      out := if ob == null && rw == null && bc == null then Delivered else StillBlocked;
      HeldInSinks(c, store0, trace, Abs(), w);
    }

    // ---------------------------------------------------------------- WorkerPool.runWorker

    /** The receive case of the worker's select, and Handle's enrichment. */
    method TakeJob(w: nat) returns (job: Option<Job>)
      requires Valid() && w < |workers| && workers[w] == Idle
      modifies this, jobs, book, redis, broadcast, books
      ensures Valid() && Abs() == Try(c, old(Abs()), ByWorker(w, Dequeue)) && (job.Some? <==> old(jobs.queue) != [])
      ensures trace == if job.Some? then Then(old(trace), ByWorker(w, Dequeue)) else old(trace)
      ensures workers == if job.Some? then old(workers)[w := Publishing(job.value, ALL_SINKS)] else old(workers)
    {
      var got := jobs.TryReceive();
      if got.None? {
        return None;
      }
      job := Some(Job(got.value.id, c.enrich(got.value.event)));
      workers := workers[w := Publishing(job.value, ALL_SINKS)];
      trace := Then(trace, ByWorker(w, Dequeue));
    }

    /** Publish has returned nil, and with it Handle. */
    method EndJob(w: nat)
      requires Valid() && w < |workers| && workers[w].Publishing? && workers[w].pending == {}
      modifies this, jobs, book, redis, broadcast, books
      ensures Valid() && Abs() == Try(c, old(Abs()), ByWorker(w, Finish)) && workers == old(workers)[w := Idle]
      ensures trace == Then(old(trace), ByWorker(w, Finish))
    {
      finished := finished + [workers[w].job];
      workers := workers[w := Idle];
      trace := Then(trace, ByWorker(w, Finish));
    }

    /** The done case of the worker's select. */
    method Quit(w: nat) returns (gone: bool)
      requires Valid() && w < |workers| && workers[w] == Idle
      modifies this, jobs, book, redis, broadcast, books
      ensures Valid() && Abs() == Try(c, old(Abs()), ByWorker(w, Exit)) && gone == cancelled == old(cancelled)
      ensures trace == if gone then Then(old(trace), ByWorker(w, Exit)) else old(trace)
      ensures workers == if gone then old(workers)[w := Exited] else old(workers)
    {
      gone := cancelled;
      if gone {
        workers := workers[w := Exited];
        trace := Then(trace, ByWorker(w, Exit));
      }
    }

    /** Take a job, if there is one, and publish it. A failed Publish is dropped. */
    method Work(w: nat, turn: Turn, turns: seq<Turn>, ghost start: Run, ghost goal: State) returns (more: bool, rest: seq<Turn>)
      requires Due(TheWorker(w), start, goal, turn, turns) && turn.pick.Go? && w < |workers| && workers[w] == Idle
      modifies this, jobs, book, redis, broadcast, books
      ensures Follows(TheWorker(w), start, goal, rest) && |rest| <= |turns| && w < |workers|
      ensures if more then workers[w] == Idle else rest == [] && workers[w] != Exited
    {
      more, rest := true, turns;
      var job := TakeJob(w);
      if job.None? {
        return;
      }
      var out, next;
      ghost var pending;
      out, rest, pending := Publish(w, job.value, turns, start, goal);
      if out.StillBlocked? {
        more := false;
      } else if out.Delivered? {
        more, next, rest := Pause(TheWorker(w), rest, start, goal);
        if more {
          EndJob(w);
        }
      }
    }

    /** runWorker: dequeue, enrich and publish until the select takes the done case. It returns
        exactly when it is gone, and only if the context is cancelled. */
    method RunWorker(w: nat, turns: seq<Turn>) returns (returned: bool)
      requires Valid() && w < |workers| && workers[w] == Idle
      modifies this, jobs, book, redis, broadcast, books
      ensures Valid() && Extends(old(trace), trace) && Abs() == Play(c, TheWorker(w), old(Abs()), turns)
      ensures w < |workers| && (returned <==> workers[w] == Exited)
      ensures returned ==> cancelled
    {
      ghost var goal := Play(c, TheWorker(w), Abs(), turns);
      var more, turn, rest := true, BARE, turns;
      returned := false;
      while more
        invariant Follows(TheWorker(w), old(trace), goal, rest) && w < |workers|
        invariant (!more ==> rest == []) && !returned && workers[w] != Exited && (more ==> workers[w] == Idle)
        decreases more, |rest|
      {
        more, turn, rest := Pause(TheWorker(w), rest, old(trace), goal);
        if more && turn.pick.Go? {
          more, rest := Work(w, turn, rest, old(trace), goal);
        } else if more && turn.pick.Done? {
          returned := Quit(w);
          if returned {
            Linger(TheWorker(w), rest, old(trace), goal);
            return;
          }
        }
      }
    }

    // ---------------------------------------------------------------- Consumer.Run

    /** MarkCommitRecords on the record at the head of the batch, which leaves dispatch. */
    method MarkHead(rest: seq<Record>, enqueued: bool)
      requires Valid() && phase == Dispatching(rest, enqueued) && rest != [] && (enqueued || rest[0].Malformed?)
      modifies this, jobs, book, redis, broadcast, books
      ensures Valid() && phase == Dispatching(rest[1..], false) && accepted == old(accepted)
      ensures dispatched == old(dispatched) + [rest[0]] && marked == old(marked) + {|old(dispatched)|}
      ensures trace == Then(old(trace), ByConsumer(if enqueued then Mark else SkipMalformed))
      ensures Abs() == Try(c, old(Abs()), ByConsumer(if enqueued then Mark else SkipMalformed))
    {
      marked := marked + {|dispatched|};
      dispatched := dispatched + [rest[0]];
      phase := Dispatching(rest[1..], false);
      trace := Then(trace, ByConsumer(if enqueued then Mark else SkipMalformed));
    }

    /** The send case of Submit's select. */
    method TrySubmit(rest: seq<Record>) returns (ok: bool)
      requires Valid() && phase == Dispatching(rest, false) && rest != [] && rest[0].WellFormed?
      modifies this, jobs, book, redis, broadcast, books
      ensures Valid() && phase == Dispatching(rest, ok) && dispatched == old(dispatched) && marked == old(marked)
      ensures accepted == old(accepted) + if ok then [Job(|dispatched|, rest[0].event)] else []
      ensures trace == if ok then Then(old(trace), ByConsumer(Submit)) else old(trace)
      ensures (ok <==> |old(jobs.queue)| < c.poolSize) && Abs() == Try(c, old(Abs()), ByConsumer(Submit))
    {
      var job := Job(|dispatched|, rest[0].event);
      ok := jobs.TrySend(job);
      if ok {
        accepted := accepted + [job];
        phase := Dispatching(rest, true);
        trace := Then(trace, ByConsumer(Submit));
        assert Do(c, old(Abs()), ByConsumer(Submit)) == Some(Abs());
      }
    }

    /** The done case of Submit's select: the record leaves dispatch unmarked. */
    method TryRefuse(rest: seq<Record>) returns (gone: bool)
      requires Valid() && phase == Dispatching(rest, false) && rest != [] && rest[0].WellFormed?
      modifies this, jobs, book, redis, broadcast, books
      ensures Valid() && accepted == old(accepted) && marked == old(marked) && gone == cancelled == old(cancelled)
      ensures phase == Dispatching(if gone then rest[1..] else rest, false)
      ensures dispatched == old(dispatched) + if gone then [rest[0]] else []
      ensures trace == if gone then Then(old(trace), ByConsumer(Refuse)) else old(trace)
      ensures Abs() == Try(c, old(Abs()), ByConsumer(Refuse))
    {
      gone := cancelled;
      if gone {
        dispatched := dispatched + [rest[0]];
        phase := Dispatching(rest[1..], false);
        trace := Then(trace, ByConsumer(Refuse));
      }
    }

    /** dispatch of the record at the head of the batch, with a blocking Submit. When it is done, the
        record is marked exactly when it is malformed or its trade was taken by the job channel. */
    method Dispatch(rest: seq<Record>, turns: seq<Turn>, ghost start: Run, ghost goal: State)
      returns (done: bool, took: bool, left: seq<Turn>)
      requires Follows(TheConsumer, start, goal, turns) && phase == Dispatching(rest, false) && rest != []
      modifies this, jobs, book, redis, broadcast, books
      ensures Follows(TheConsumer, start, goal, left) && |left| <= |turns| && (!done ==> left == [])
      ensures took ==> rest[0].WellFormed?
      ensures accepted == old(accepted) + if took then [Job(|old(dispatched)|, rest[0].event)] else []
      ensures done ==> phase == Dispatching(rest[1..], false) && dispatched == old(dispatched) + [rest[0]]
      ensures done ==> marked == old(marked) + if rest[0].Malformed? || took then {|old(dispatched)|} else {}
      ensures !done ==> phase == Dispatching(rest, took) && dispatched == old(dispatched) && marked == old(marked)
    {
      var more, turn := true, BARE;
      done, took, left := false, false, turns;
      while more && !took
        invariant Follows(TheConsumer, start, goal, left) && |left| <= |turns| && (!more ==> left == [])
        invariant phase == Dispatching(rest, took) && dispatched == old(dispatched) && marked == old(marked)
        invariant took ==> rest[0].WellFormed?
        invariant accepted == old(accepted) + if took then [Job(|old(dispatched)|, rest[0].event)] else []
        decreases more && !took, |left|
      {
        more, turn, left := Pause(TheConsumer, left, start, goal);
        if more && rest[0].Malformed? {
          MarkHead(rest, false);
          return true, false, left;
        } else if more && turn.pick.Go? {
          took := TrySubmit(rest);
        } else if more && turn.pick.Done? {
          done := TryRefuse(rest);
          if done {
            return;
          }
        }
      }
      if took {
        done, turn, left := Pause(TheConsumer, left, start, goal);
        if done {
          MarkHead(rest, true);
        }
      }
    }

    /** Inside a batch: `all` is what has been dispatched and what is still to be. */
    ghost predicate InBatch(all: seq<Record>)
      reads this
    {
      phase.Dispatching? && dispatched + phase.rest == all
    }

    method DispatchNext(rest: seq<Record>, turns: seq<Turn>, ghost start: Run, ghost goal: State, ghost all: seq<Record>)
      returns (done: bool, left: seq<Turn>)
      requires Follows(TheConsumer, start, goal, turns) && InBatch(all) && phase == Dispatching(rest, false) && rest != []
      modifies this, jobs, book, redis, broadcast, books
      ensures Follows(TheConsumer, start, goal, left) && InBatch(all) && |left| <= |turns|
      ensures if done then phase == Dispatching(rest[1..], false) else left == []
    {
      var took;
      done, took, left := Dispatch(rest, turns, start, goal);
      assert rest == [rest[0]] + rest[1..];
    }

    /** EachRecord over the fetched batch. */
    method DispatchBatch(batch: seq<Record>, turns: seq<Turn>, ghost start: Run, ghost goal: State, ghost all: seq<Record>)
      returns (done: bool, left: seq<Turn>)
      requires Follows(TheConsumer, start, goal, turns) && InBatch(all) && phase == Dispatching(batch, false)
      modifies this, jobs, book, redis, broadcast, books
      ensures Follows(TheConsumer, start, goal, left) && InBatch(all) && |left| <= |turns|
      ensures if done then phase == Dispatching([], false) else left == []
    {
      var rest := batch;
      left, done := turns, true;
      while done && rest != []
        invariant Follows(TheConsumer, start, goal, left) && InBatch(all) && |left| <= |turns|
        invariant if done then phase == Dispatching(rest, false) else left == []
        decreases done, |rest|
      {
        done, left := DispatchNext(rest, left, start, goal, all);
        rest := rest[1..];
      }
    }

    method PollBatch(batch: seq<Record>)
      requires Valid() && phase == Polling
      modifies this, jobs, book, redis, broadcast, books
      ensures Valid() && trace == Then(old(trace), ByConsumer(Poll(batch)))
      ensures Abs() == Try(c, old(Abs()), ByConsumer(Poll(batch))) && phase == Fetched(batch)
    {
      phase := Fetched(batch);
      trace := Then(trace, ByConsumer(Poll(batch)));
    }

    /** The one look at the context after a poll. */
    method CheckDone(batch: seq<Record>) returns (done: bool)
      requires Valid() && phase == Fetched(batch)
      modifies this, jobs, book, redis, broadcast, books
      ensures Valid() && trace == Then(old(trace), ByConsumer(CheckContext))
      ensures Abs() == Try(c, old(Abs()), ByConsumer(CheckContext))
      ensures done == cancelled && phase == (if done then Stopped else Dispatching(batch, false))
    {
      done := cancelled;
      phase := if done then Stopped else Dispatching(batch, false);
      trace := Then(trace, ByConsumer(CheckContext));
    }

    method FinishBatch()
      requires Valid() && phase == Dispatching([], false)
      modifies this, jobs, book, redis, broadcast, books
      ensures Valid() && trace == Then(old(trace), ByConsumer(EndBatch))
      ensures Abs() == Try(c, old(Abs()), ByConsumer(EndBatch)) && phase == Polling
    {
      phase := Polling;
      trace := Then(trace, ByConsumer(EndBatch));
    }

    /** PollFetches and the look at the context; `more` says that there is a batch to dispatch. */
    method Fetch(turns: seq<Turn>, ghost start: Run, ghost goal: State) returns (more: bool, batch: seq<Record>, rest: seq<Turn>)
      requires Follows(TheConsumer, start, goal, turns) && phase == Polling
      modifies this, jobs, book, redis, broadcast, books
      ensures Follows(TheConsumer, start, goal, rest) && |rest| <= |turns|
      ensures more ==> phase == Dispatching(batch, false) && |rest| < |turns|
      ensures !more ==> !phase.Dispatching? && (phase == Stopped ==> cancelled) && (phase != Stopped ==> rest == [])
    {
      var turn;
      batch := [];
      more, turn, rest := Pause(TheConsumer, turns, start, goal);
      if !more { return; }
      batch := turn.batch;
      PollBatch(batch);
      more, turn, rest := Pause(TheConsumer, rest, start, goal);
      if !more { return; }
      var done := CheckDone(batch);
      more := !done;
    }

    /** Between two rounds of the consumer's loop. */
    ghost predicate AtPoll(start: Run, goal: State, turns: seq<Turn>, more: bool)
      reads this, jobs, book, redis, broadcast, books
    {
      && Follows(TheConsumer, start, goal, turns)
      && if more then phase == Polling else (phase == Stopped && cancelled) || (phase != Stopped && turns == [])
    }

    /** One round of the consumer's loop: poll, look at the context once, dispatch the batch. */
    method Round(turns: seq<Turn>, ghost start: Run, ghost goal: State) returns (more: bool, rest: seq<Turn>)
      requires AtPoll(start, goal, turns, true)
      modifies this, jobs, book, redis, broadcast, books
      ensures AtPoll(start, goal, rest, more)
      ensures more ==> |rest| < |turns|
    {
      var turn, batch;
      more, batch, rest := Fetch(turns, start, goal);
      if !more { return; }
      more, rest := DispatchBatch(batch, rest, start, goal, dispatched + batch);
      if !more { return; }
      more, turn, rest := Pause(TheConsumer, rest, start, goal);
      if !more { return; }
      FinishBatch();
    }

    method Rounds(turns: seq<Turn>, ghost start: Run, ghost goal: State) returns (rest: seq<Turn>)
      requires AtPoll(start, goal, turns, true)
      modifies this, jobs, book, redis, broadcast, books
      ensures AtPoll(start, goal, rest, false)
    {
      var more := true;
      rest := turns;
      while more
        invariant AtPoll(start, goal, rest, more)
        decreases more, |rest|
      {
        more, rest := Round(rest, start, goal);
      }
    }

    /** The consumer's loop. What has been handed to dispatch, or waits in the batch in hand, is the
        batches of the turns at which it polled and then found the context not done, in order and
        without omission; the commit discipline holds; it returns only if the context is cancelled. */
    method RunConsumer(turns: seq<Turn>) returns (returned: bool)
      requires Valid() && phase == Polling
      modifies this, jobs, book, redis, broadcast, books
      ensures Valid() && Extends(old(trace), trace) && Abs() == Play(c, TheConsumer, old(Abs()), turns)
      ensures Commit.Stream(Abs().intake) == old(dispatched) + InTime(c, old(Abs()), turns, [])
      ensures Commit.Inv(Abs())
      ensures returned <==> phase == Stopped
      ensures returned ==> cancelled
    {
      ConsumerStream(c, Abs(), turns, []);
      returned := ConsumerLoop(turns, trace, Play(c, TheConsumer, Abs(), turns));
      Commit.Disciplined(c, store0, trace, Abs());
    }

    method ConsumerLoop(turns: seq<Turn>, ghost start: Run, ghost goal: State) returns (returned: bool)
      requires AtPoll(start, goal, turns, true)
      modifies this, jobs, book, redis, broadcast, books
      ensures Follows(TheConsumer, start, goal, [])
      ensures returned <==> phase == Stopped
      ensures returned ==> cancelled
    {
      var rest := Rounds(turns, start, goal);
      returned := phase == Stopped;
      if returned {
        Linger(TheConsumer, rest, start, goal);
      }
    }

    // ---------------------------------------------------------------- OrderBookStore.Run

    method TakeUpdate() returns (job: Option<Job>)
      requires Valid() && keeperAt == KeeperIdle
      modifies this, jobs, book, redis, broadcast, books
      ensures Valid() && (job.Some? <==> old(book.queue) != [])
      ensures Abs() == Try(c, old(Abs()), ByKeeper(Processor.TakeUpdate))
      ensures keeperAt == if job.Some? then KeeperHas(job.value.event) else KeeperIdle
      ensures trace == if job.Some? then Then(old(trace), ByKeeper(Processor.TakeUpdate)) else old(trace)
    {
      job := book.TryReceive();
      if job.Some? {
        keeperAt := KeeperHas(job.value.event);
        trace := Then(trace, ByKeeper(Processor.TakeUpdate));
        assert Do(c, old(Abs()), ByKeeper(Processor.TakeUpdate)) == Some(Abs());
      }
    }

    method GetCurrent(event: TradeEvent) returns (current: Book)
      requires Valid() && keeperAt == KeeperHas(event)
      modifies this, jobs, book, redis, broadcast, books
      ensures Valid() && keeperAt == KeeperRead(event, current) && trace == Then(old(trace), ByKeeper(GetBook))
      ensures Abs() == Try(c, old(Abs()), ByKeeper(GetBook))
    {
      var ok;
      current, ok := books.Get(event.symbol);
      keeperAt := KeeperRead(event, current);
      trace := Then(trace, ByKeeper(GetBook));
    }

    method PutUpdated(event: TradeEvent, current: Book)
      requires Valid() && keeperAt == KeeperRead(event, current)
      modifies this, jobs, book, redis, broadcast, books
      ensures Valid() && keeperAt == KeeperIdle && trace == Then(old(trace), ByKeeper(UpdateBook))
      ensures Abs() == Try(c, old(Abs()), ByKeeper(UpdateBook))
    {
      books.Update(event.symbol, ApplyTo(current, event));
      keeperAt := KeeperIdle;
      trace := Then(trace, ByKeeper(UpdateBook));
    }

    /** Apply, its Get and its Update apart from each other. */
    method Apply(event: TradeEvent, turns: seq<Turn>, ghost start: Run, ghost goal: State) returns (done: bool, rest: seq<Turn>)
      requires Follows(TheKeeper, start, goal, turns) && keeperAt == KeeperHas(event)
      modifies this, jobs, book, redis, broadcast, books
      ensures Follows(TheKeeper, start, goal, rest) && |rest| <= |turns|
      ensures if done then keeperAt == KeeperIdle else keeperAt != KeeperGone && rest == []
    {
      var turn;
      done, turn, rest := Pause(TheKeeper, turns, start, goal);
      if !done { return; }
      var current := GetCurrent(event);
      done, turn, rest := Pause(TheKeeper, rest, start, goal);
      if !done { return; }
      PutUpdated(event, current);
    }

    method QuitKeeper() returns (gone: bool)
      requires Valid() && keeperAt == KeeperIdle
      modifies this, jobs, book, redis, broadcast, books
      ensures Valid() && keeperAt == (if gone then KeeperGone else KeeperIdle) && gone == cancelled == old(cancelled)
      ensures trace == if gone then Then(old(trace), ByKeeper(StopKeeper)) else old(trace)
      ensures Abs() == Try(c, old(Abs()), ByKeeper(StopKeeper))
    {
      gone := cancelled;
      if gone {
        keeperAt := KeeperGone;
        trace := Then(trace, ByKeeper(StopKeeper));
      }
    }

    /** The receive loop of the order books: at every point the map is the fold over the trades
        applied so far. */
    method RunKeeper(turns: seq<Turn>) returns (returned: bool)
      requires Valid() && keeperAt == KeeperIdle
      modifies this, jobs, book, redis, broadcast, books
      ensures Valid() && Extends(old(trace), trace) && Abs() == Play(c, TheKeeper, old(Abs()), turns)
      ensures books.data == Fold(map[], Events(AppliedTrades(Abs())))
      ensures returned <==> keeperAt == KeeperGone
      ensures returned ==> cancelled
    {
      returned := KeeperLoop(turns, trace, Play(c, TheKeeper, Abs(), turns));
      Snapshots.Kept(c, store0, trace, Abs());
    }

    method KeeperLoop(turns: seq<Turn>, ghost start: Run, ghost goal: State) returns (returned: bool)
      requires Follows(TheKeeper, start, goal, turns) && keeperAt == KeeperIdle
      modifies this, jobs, book, redis, broadcast, books
      ensures Follows(TheKeeper, start, goal, [])
      ensures returned <==> keeperAt == KeeperGone
      ensures returned ==> cancelled
    {
      var more, turn, rest := true, BARE, turns;
      returned := false;
      while more
        invariant Follows(TheKeeper, start, goal, rest) && keeperAt != KeeperGone && !returned
        invariant if more then keeperAt == KeeperIdle else rest == []
        decreases more, |rest|
      {
        more, turn, rest := Pause(TheKeeper, rest, start, goal);
        if more && turn.pick.Go? {
          var job := TakeUpdate();
          if job.Some? {
            more, rest := Apply(job.value.event, rest, start, goal);
          }
        } else if more && turn.pick.Done? {
          returned := QuitKeeper();
          if returned {
            Linger(TheKeeper, rest, start, goal);
            return;
          }
        }
      }
    }

    // ---------------------------------------------------------------- RedisWriter.Run

    method TakeWrite() returns (job: Option<Job>)
      requires Valid() && writer.phase == WriterIdle
      modifies this, jobs, book, redis, broadcast, books
      ensures Valid() && (job.Some? <==> old(redis.queue) != [])
      ensures Abs() == Try(c, old(Abs()), ByWriter(Processor.TakeWrite))
      ensures writer.phase == if job.Some? then BeforeLatest(job.value.event) else WriterIdle
      ensures trace == if job.Some? then Then(old(trace), ByWriter(Processor.TakeWrite)) else old(trace)
    {
      job := redis.TryReceive();
      if job.Some? {
        writer := writer.(phase := BeforeLatest(job.value.event));
        trace := Then(trace, ByWriter(Processor.TakeWrite));
        assert Do(c, old(Abs()), ByWriter(Processor.TakeWrite)) == Some(Abs());
      }
    }

    /** The first set; `ok` is its outcome. */
    method PutLatest(event: TradeEvent, ok: bool)
      requires Valid() && writer.phase == BeforeLatest(event)
      modifies this, jobs, book, redis, broadcast, books
      ensures Valid() && trace == Then(old(trace), ByWriter(SetLatest(ok)))
      ensures Abs() == Try(c, old(Abs()), ByWriter(SetLatest(ok)))
      ensures writer.phase == if ok then BeforePrice(event) else WriterIdle
    {
      var current := |Written(Abs())|;
      if ok {
        writer := writer.(store := writer.store[LatestTrade(event.symbol) := TradeJson(event)],
                          phase := BeforePrice(event), latestAt := writer.latestAt[event.symbol := current]);
      } else {
        writer := writer.(phase := WriterIdle, failed := writer.failed + {current});
      }
      trace := Then(trace, ByWriter(SetLatest(ok)));
    }

    /** The second set. */
    method PutPrice(event: TradeEvent, ok: bool)
      requires Valid() && writer.phase == BeforePrice(event)
      modifies this, jobs, book, redis, broadcast, books
      ensures Valid() && trace == Then(old(trace), ByWriter(SetPrice(ok)))
      ensures Abs() == Try(c, old(Abs()), ByWriter(SetPrice(ok)))
      ensures writer.phase == if ok then BeforeGet(event) else WriterIdle
    {
      var current := |Written(Abs())|;
      if ok {
        writer := writer.(store := writer.store[Price(event.symbol) := PriceText(event.price)],
                          phase := BeforeGet(event), priceAt := writer.priceAt[event.symbol := current],
                          stored := writer.stored + {current});
      } else {
        writer := writer.(phase := WriterIdle, failed := writer.failed + {current});
      }
      trace := Then(trace, ByWriter(SetPrice(ok)));
    }

    /** Get of the symbol's book, from the store that the keeper updates. */
    method ReadCurrent(event: TradeEvent) returns (current: Book, found: bool)
      requires Valid() && writer.phase == BeforeGet(event)
      modifies this, jobs, book, redis, broadcast, books
      ensures Valid() && trace == Then(old(trace), ByWriter(ReadBook)) && Abs() == Try(c, old(Abs()), ByWriter(ReadBook))
      ensures if found then writer.phase.BeforeSnapshot? && writer.phase.event == event && writer.phase.book == current
              else writer.phase == WriterIdle
    {
      current, found := books.Get(event.symbol);
      writer := writer.(phase := if found then BeforeSnapshot(event, current, |AppliedTrades(Abs())|) else WriterIdle);
      trace := Then(trace, ByWriter(ReadBook));
    }

    /** The third set. */
    method PutSnapshot(event: TradeEvent, current: Book, ok: bool)
      requires Valid() && writer.phase.BeforeSnapshot? && writer.phase.event == event && writer.phase.book == current
      modifies this, jobs, book, redis, broadcast, books
      ensures Valid() && trace == Then(old(trace), ByWriter(SetSnapshot(ok))) && writer.phase == WriterIdle
      ensures Abs() == Try(c, old(Abs()), ByWriter(SetSnapshot(ok)))
    {
      if ok {
        writer := writer.(store := writer.store[Snapshot(event.symbol) := BookJson(current)], phase := WriterIdle,
                          snapshotAt := writer.snapshotAt[event.symbol := writer.phase.asOf]);
      } else {
        writer := writer.(phase := WriterIdle);
      }
      trace := Then(trace, ByWriter(SetSnapshot(ok)));
    }

    /** Write: three ordered sets with a Get before the last; the first failure ends it. */
    method Write(event: TradeEvent, turns: seq<Turn>, ghost start: Run, ghost goal: State) returns (more: bool, rest: seq<Turn>)
      requires Follows(TheWriter, start, goal, turns) && writer.phase == BeforeLatest(event)
      modifies this, jobs, book, redis, broadcast, books
      ensures Follows(TheWriter, start, goal, rest) && |rest| <= |turns|
      ensures if more then writer.phase == WriterIdle else writer.phase != WriterGone && rest == []
    {
      var turn;
      more, turn, rest := Pause(TheWriter, turns, start, goal);
      if !more { return; }
      PutLatest(event, turn.ok);
      if !turn.ok { return; }
      more, turn, rest := Pause(TheWriter, rest, start, goal);
      if !more { return; }
      PutPrice(event, turn.ok);
      if !turn.ok { return; }
      more, rest := WriteSnapshot(event, rest, start, goal);
    }

    method WriteSnapshot(event: TradeEvent, turns: seq<Turn>, ghost start: Run, ghost goal: State) returns (more: bool, rest: seq<Turn>)
      requires Follows(TheWriter, start, goal, turns) && writer.phase == BeforeGet(event)
      modifies this, jobs, book, redis, broadcast, books
      ensures Follows(TheWriter, start, goal, rest) && |rest| <= |turns|
      ensures if more then writer.phase == WriterIdle else writer.phase != WriterGone && rest == []
    {
      var turn;
      more, turn, rest := Pause(TheWriter, turns, start, goal);
      if !more { return; }
      var current, found := ReadCurrent(event);
      if found {
        more, rest := WriteBook(event, current, rest, start, goal);
      }
    }

    method WriteBook(event: TradeEvent, current: Book, turns: seq<Turn>, ghost start: Run, ghost goal: State)
      returns (more: bool, rest: seq<Turn>)
      requires Follows(TheWriter, start, goal, turns)
      requires writer.phase.BeforeSnapshot? && writer.phase.event == event && writer.phase.book == current
      modifies this, jobs, book, redis, broadcast, books
      ensures Follows(TheWriter, start, goal, rest) && |rest| <= |turns|
      ensures if more then writer.phase == WriterIdle else writer.phase != WriterGone && rest == []
    {
      var turn;
      more, turn, rest := Pause(TheWriter, turns, start, goal);
      if more {
        PutSnapshot(event, current, turn.ok);
      }
    }

    method QuitWriter() returns (gone: bool)
      requires Valid() && writer.phase == WriterIdle
      modifies this, jobs, book, redis, broadcast, books
      ensures Valid() && writer.phase == (if gone then WriterGone else WriterIdle) && gone == cancelled == old(cancelled)
      ensures trace == if gone then Then(old(trace), ByWriter(StopWriter)) else old(trace)
      ensures Abs() == Try(c, old(Abs()), ByWriter(StopWriter))
    {
      gone := cancelled;
      if gone {
        writer := writer.(phase := WriterGone);
        trace := Then(trace, ByWriter(StopWriter));
      }
    }

    /** The receive loop of the Redis writer: an error of Write is only logged. Whatever fails, the
        keys of every symbol stay coherent. */
    method RunWriter(turns: seq<Turn>) returns (returned: bool)
      requires Valid() && writer.phase == WriterIdle
      modifies this, jobs, book, redis, broadcast, books
      ensures Valid() && Extends(old(trace), trace) && Abs() == Play(c, TheWriter, old(Abs()), turns)
      ensures forall symbol :: Redis.CoherentOver(store0, Abs(), symbol)
      ensures returned <==> writer.phase == WriterGone
      ensures returned ==> cancelled
    {
      returned := WriterLoop(turns, trace, Play(c, TheWriter, Abs(), turns));
      AllCoherent(c, store0, trace, Abs());
    }

    method WriterLoop(turns: seq<Turn>, ghost start: Run, ghost goal: State) returns (returned: bool)
      requires Follows(TheWriter, start, goal, turns) && writer.phase == WriterIdle
      modifies this, jobs, book, redis, broadcast, books
      ensures Follows(TheWriter, start, goal, [])
      ensures returned <==> writer.phase == WriterGone
      ensures returned ==> cancelled
    {
      var more, turn, rest := true, BARE, turns;
      returned := false;
      while more
        invariant Follows(TheWriter, start, goal, rest) && writer.phase != WriterGone && !returned
        invariant if more then writer.phase == WriterIdle else rest == []
        decreases more, |rest|
      {
        more, turn, rest := Pause(TheWriter, rest, start, goal);
        if more && turn.pick.Go? {
          var job := TakeWrite();
          if job.Some? {
            more, rest := Write(job.value.event, rest, start, goal);
          }
        } else if more && turn.pick.Done? {
          returned := QuitWriter();
          if returned {
            Linger(TheWriter, rest, start, goal);
            return;
          }
        }
      }
    }

    // ---------------------------------------------------------------- drainSink

    method TakeBroadcast() returns (job: Option<Job>)
      requires Valid() && broadcasting
      modifies this, jobs, book, redis, broadcast, books
      ensures Valid() && broadcasting && (job.Some? <==> old(broadcast.queue) != [])
      ensures Abs() == Try(c, old(Abs()), ByBroadcaster(Processor.TakeBroadcast))
      ensures trace == if job.Some? then Then(old(trace), ByBroadcaster(Processor.TakeBroadcast)) else old(trace)
    {
      job := broadcast.TryReceive();
      if job.Some? {
        trace := Then(trace, ByBroadcaster(Processor.TakeBroadcast));
        assert Do(c, old(Abs()), ByBroadcaster(Processor.TakeBroadcast)) == Some(Abs());
      }
    }

    method QuitBroadcaster() returns (gone: bool)
      requires Valid() && broadcasting
      modifies this, jobs, book, redis, broadcast, books
      ensures Valid() && broadcasting == !gone && gone == cancelled == old(cancelled)
      ensures trace == if gone then Then(old(trace), ByBroadcaster(StopBroadcaster)) else old(trace)
      ensures Abs() == Try(c, old(Abs()), ByBroadcaster(StopBroadcaster))
    {
      gone := cancelled;
      if gone {
        broadcasting := false;
        trace := Then(trace, ByBroadcaster(StopBroadcaster));
      }
    }

    /** drainSink: it takes the broadcast trades until the select takes the done case. */
    method DrainSink(turns: seq<Turn>) returns (returned: bool)
      requires Valid() && broadcasting
      modifies this, jobs, book, redis, broadcast, books
      ensures Valid() && Extends(old(trace), trace) && Abs() == Play(c, TheBroadcaster, old(Abs()), turns)
      ensures returned <==> !broadcasting
      ensures returned ==> cancelled
    {
      ghost var goal := Play(c, TheBroadcaster, Abs(), turns);
      var more, turn, rest := true, BARE, turns;
      returned := false;
      while more
        invariant Follows(TheBroadcaster, old(trace), goal, rest) && broadcasting && !returned
        invariant !more ==> rest == []
        decreases more, |rest|
      {
        more, turn, rest := Pause(TheBroadcaster, rest, old(trace), goal);
        if more && turn.pick.Go? {
          var job := TakeBroadcast();
        } else if more && turn.pick.Done? {
          returned := QuitBroadcaster();
          if returned {
            Linger(TheBroadcaster, rest, old(trace), goal);
            return;
          }
        }
      }
    }

    // ---------------------------------------------------------------- every step is an action

    method ActWorker(w: nat, a: WorkerStep)
      requires Valid() && WorkerDo(c, Abs(), w, a).Some?
      modifies this, jobs, book, redis, broadcast, books
      ensures Valid() && trace == Then(old(trace), ByWorker(w, a))
    {
      match a {
        case Dequeue => var job := TakeJob(w);
        case Send(k) => var ok := Offer(w, k, SinkOf(k), workers[w].job, workers[w].pending);
        case Finish => EndJob(w);
        case Abandon => var gone := GiveUp(w);
        case Exit => var gone := Quit(w);
      }
    }

    method ActConsumer(a: ConsumerStep)
      requires Valid() && ConsumerDo(c, Abs(), a).Some?
      modifies this, jobs, book, redis, broadcast, books
      ensures Valid() && trace == Then(old(trace), ByConsumer(a))
    {
      Commit.Disciplined(c, store0, trace, Abs());
      match a {
        case Poll(batch) => PollBatch(batch);
        case CheckContext => var done := CheckDone(phase.batch);
        case SkipMalformed => MarkHead(phase.rest, false);
        case Submit => var ok := TrySubmit(phase.rest);
        case Mark => MarkHead(phase.rest, true);
        case Refuse => var gone := TryRefuse(phase.rest);
        case EndBatch => FinishBatch();
      }
    }

    method ActKeeper(a: KeeperStep)
      requires Valid() && KeeperDo(Abs(), a).Some?
      modifies this, jobs, book, redis, broadcast, books
      ensures Valid() && trace == Then(old(trace), ByKeeper(a))
    {
      match a {
        case TakeUpdate => var job := TakeUpdate();
        case GetBook => var current := GetCurrent(keeperAt.event);
        case UpdateBook => PutUpdated(keeperAt.event, keeperAt.book);
        case StopKeeper => var gone := QuitKeeper();
      }
    }

    method ActWriter(a: WriterStep)
      requires Valid() && WriterDo(Abs(), a).Some?
      modifies this, jobs, book, redis, broadcast, books
      ensures Valid() && trace == Then(old(trace), ByWriter(a))
    {
      match a {
        case TakeWrite => var job := TakeWrite();
        case SetLatest(ok) => PutLatest(writer.phase.event, ok);
        case SetPrice(ok) => PutPrice(writer.phase.event, ok);
        case ReadBook => var current, found := ReadCurrent(writer.phase.event);
        case SetSnapshot(ok) => PutSnapshot(writer.phase.event, writer.phase.book, ok);
        case StopWriter => var gone := QuitWriter();
      }
    }

    method ActBroadcaster(a: BroadcasterStep)
      requires Valid() && BroadcasterDo(Abs(), a).Some?
      modifies this, jobs, book, redis, broadcast, books
      ensures Valid() && trace == Then(old(trace), ByBroadcaster(a))
    {
      match a {
        case TakeBroadcast => var job := TakeBroadcast();
        case StopBroadcaster => var gone := QuitBroadcaster();
      }
    }

    method CancelContext()
      requires Valid()
      modifies this, jobs, book, redis, broadcast, books
      ensures Valid() && cancelled && trace == Then(old(trace), Cancel)
    {
      cancelled := true;
      trace := Then(trace, Cancel);
    }

    /** Every enabled step of the machine is performed by an action of the loops. */
    method Act(step: Step)
      requires Valid() && Do(c, Abs(), step).Some?
      modifies this, jobs, book, redis, broadcast, books
      ensures Valid() && trace == Then(old(trace), step) && Do(c, old(Abs()), step) == Some(Abs())
    {
      match step {
        case Cancel => CancelContext();
        case ByConsumer(a) => ActConsumer(a);
        case ByWorker(w, a) => ActWorker(w, a);
        case ByKeeper(a) => ActKeeper(a);
        case ByWriter(a) => ActWriter(a);
        case ByBroadcaster(a) => ActBroadcaster(a);
      }
    }

    /** So every run of the machine can be performed by them on the channels. */
    method Perform(run: Run)
      requires Valid() && Exec(c, Abs(), run).Some?
      modifies this, jobs, book, redis, broadcast, books
      ensures Valid() && Exec(c, old(Abs()), run) == Some(Abs())
      decreases run
    {
      if run.Then? {
        Perform(run.before);
        Act(run.step);
      }
    }
  }

  /** A trade in a worker's hands has been sent once to each sink behind it, and to no other. */
  lemma HeldInSinks(c: Config, store: Store, run: Run, s: State, w: nat)
    requires Exec(c, Init(c, store), run) == Some(s) && w < |s.pool.workers| && s.pool.workers[w].Publishing?
    ensures forall k :: Count(Sent(s, k), s.pool.workers[w].job) + One(k in s.pool.workers[w].pending) == 1
  {
    Conserved(c, store, run, s);
    Commit.Disciplined(c, store, run, s);
    forall k ensures Count(Sent(s, k), s.pool.workers[w].job) + One(k in s.pool.workers[w].pending) == 1 {
      Delivery.HeldOnce(c, s, w, k);
    }
  }

  lemma AllCoherent(c: Config, store: Store, run: Run, s: State)
    requires Exec(c, Init(c, store), run) == Some(s)
    ensures forall symbol :: Redis.CoherentOver(store, s, symbol)
  {
    forall symbol ensures Redis.CoherentOver(store, s, symbol) {
      Redis.CoherentOverAny(c, store, run, s, symbol);
    }
  }
}
