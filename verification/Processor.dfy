/** The processor service as an interleaving of atomic goroutine steps.

    One consumer dispatches records into the job channel, `poolSize` workers dequeue, enrich and
    publish each trade to three bounded sinks, and each sink has one receiver: the order-book
    keeper, the Redis writer and the broadcaster. A select is a free choice among the ready
    cases; once the context is done, its case is ready too.

    A trade is identified by the position of its record in the consumer's dispatch order, so
    that equal trades are counted separately. */
module Processor {
  import opened Trades
  import opened OrderBooks

  /** A Kafka record: its partition, its offset there, and what decoding its payload yields. */
  datatype Record =
    | Malformed(partition: nat, offset: nat)
    | WellFormed(partition: nat, offset: nat, event: TradeEvent)

  datatype Job = Job(id: nat, event: TradeEvent)

  datatype Sink = ToBook | ToRedis | ToBroadcast

  const ALL_SINKS: set<Sink> := {ToBook, ToRedis, ToBroadcast}

  // ------------------------------------------------------------------ configuration

  datatype Config = Config(poolSize: nat, bufferSize: nat, enrich: TradeEvent -> TradeEvent)

  /** The two constructors replace non-positive sizes by their defaults. */
  function Configure(poolSize: int, fanOutBuffer: int, enrich: TradeEvent -> TradeEvent): (c: Config)
    ensures Sized(c)
    ensures poolSize > 0 ==> c.poolSize == poolSize
    ensures fanOutBuffer > 0 ==> c.bufferSize == fanOutBuffer
    ensures poolSize <= 0 ==> c.poolSize == 100
    ensures fanOutBuffer <= 0 ==> c.bufferSize == 256
    ensures forall e :: c.enrich(e) == enrich(e)
  {
    Config(if poolSize <= 0 then 100 else poolSize,
           if fanOutBuffer <= 0 then 256 else fanOutBuffer, enrich)
  }

  predicate Sized(c: Config) { c.poolSize > 0 && c.bufferSize > 0 }

  function Enriched(c: Config, j: Job): Job { Job(j.id, c.enrich(j.event)) }

  function EnrichAll(c: Config, js: seq<Job>): (r: seq<Job>)
    ensures |r| == |js|
    ensures forall i :: 0 <= i < |js| ==> r[i] == Enriched(c, js[i])
  {
    seq(|js|, i requires 0 <= i < |js| => Enriched(c, js[i]))
  }

  // ------------------------------------------------------------------ state

  /** The consumer loop: polling, holding a fetched batch, inside the batch, or returned. In
      Dispatching, `enqueued` says that the trade of rest[0] was accepted but not yet marked. */
  datatype Phase =
    | Polling
    | Fetched(batch: seq<Record>)
    | Dispatching(rest: seq<Record>, enqueued: bool)
    | Stopped

  /** `dispatched` lists the records whose dispatch has returned; `marked` holds indices into it. */
  datatype Intake = Intake(phase: Phase, dispatched: seq<Record>, marked: set<nat>)

  /** A worker inside Publish: `pending` are the sink channels not yet set to nil. */
  datatype Worker = Idle | Publishing(job: Job, pending: set<Sink>) | Exited

  /** `accepted` is what Submit enqueued, in order. `finished` and `abandoned` record the trades
      whose Publish returned nil and ctx.Err(), the latter with the sinks it had not reached. */
  datatype Pool = Pool(accepted: seq<Job>, jobs: seq<Job>, workers: seq<Worker>,
                       finished: seq<Job>, abandoned: seq<Worker>)

  datatype Channel = Channel(queue: seq<Job>, received: seq<Job>)

  datatype Sinks = Sinks(book: Channel, redis: Channel, broadcast: Channel)

  function At(sinks: Sinks, k: Sink): Channel {
    match k
    case ToBook => sinks.book
    case ToRedis => sinks.redis
    case ToBroadcast => sinks.broadcast
  }

  function Put(sinks: Sinks, k: Sink, ch: Channel): (r: Sinks)
    ensures forall j :: At(r, j) == if j == k then ch else At(sinks, j)
  {
    match k
    case ToBook => sinks.(book := ch)
    case ToRedis => sinks.(redis := ch)
    case ToBroadcast => sinks.(broadcast := ch)
  }

  datatype KeeperPhase =
    | KeeperIdle
    | KeeperHas(event: TradeEvent)
    | KeeperRead(event: TradeEvent, book: Book)
    | KeeperGone

  datatype Keeper = Keeper(data: Books, phase: KeeperPhase)

  datatype Key = LatestTrade(symbol: Symbol) | Price(symbol: Symbol) | Snapshot(symbol: Symbol)

  datatype Value = TradeJson(event: TradeEvent) | PriceText(price: real) | BookJson(book: Book)

  type Store = map<Key, Value>

  /** Where Write stands: before each of the three sets, and between the second and the Get. */
  datatype WriterPhase =
    | WriterIdle
    | BeforeLatest(event: TradeEvent)
    | BeforePrice(event: TradeEvent)
    | BeforeGet(event: TradeEvent)
    | BeforeSnapshot(event: TradeEvent, book: Book, asOf: nat)
    | WriterGone

  /** The store with, per symbol, which received trade each key came from, and how many trades
      the order book had applied when the stored snapshot was read; and which received trades got
      both their keys set (`stored`), and which had one of these sets fail (`failed`). */
  datatype Writer = Writer(store: Store, phase: WriterPhase, latestAt: map<Symbol, nat>,
                           priceAt: map<Symbol, nat>, snapshotAt: map<Symbol, nat>,
                           stored: set<nat>, failed: set<nat>)

  datatype State = State(cancelled: bool, intake: Intake, pool: Pool, sinks: Sinks,
                         keeper: Keeper, writer: Writer, broadcasting: bool)

  const EMPTY := Channel([], [])

  /** A fresh process over a Redis that already holds `store`. */
  function Init(c: Config, store: Store): State {
    State(false, Intake(Polling, [], {}), Pool([], [], seq(c.poolSize, _ => Idle), [], []),
          Sinks(EMPTY, EMPTY, EMPTY), Keeper(map[], KeeperIdle),
          Writer(store, WriterIdle, map[], map[], map[], {}, {}), true)
  }

  // ------------------------------------------------------------------ steps

  datatype ConsumerStep = Poll(batch: seq<Record>) | CheckContext | SkipMalformed
                        | Submit | Mark | Refuse | EndBatch
  datatype WorkerStep = Dequeue | Send(sink: Sink) | Finish | Abandon | Exit
  datatype KeeperStep = TakeUpdate | GetBook | UpdateBook | StopKeeper
  datatype WriterStep = TakeWrite | SetLatest(ok: bool) | SetPrice(ok: bool) | ReadBook
                      | SetSnapshot(ok: bool) | StopWriter
  datatype BroadcasterStep = TakeBroadcast | StopBroadcaster

  datatype Step =
    | Cancel
    | ByConsumer(c: ConsumerStep)
    | ByWorker(w: nat, a: WorkerStep)
    | ByKeeper(k: KeeperStep)
    | ByWriter(r: WriterStep)
    | ByBroadcaster(b: BroadcasterStep)

  /** The record at the head of the batch has been dispatched, and marked or not. */
  function Advance(i: Intake, mark: bool): Intake
    requires i.phase.Dispatching? && i.phase.rest != []
  {
    Intake(Dispatching(i.phase.rest[1..], false), i.dispatched + [i.phase.rest[0]],
           if mark then i.marked + {|i.dispatched|} else i.marked)
  }

  /** Run and dispatch. PollFetches may return a batch after cancellation; the context is then
      checked once for the whole batch. */
  function ConsumerDo(c: Config, s: State, a: ConsumerStep): Option<State> {
    var i, p := s.intake, s.pool;
    match i.phase
    case Polling =>
      if a.Poll? then Some(s.(intake := i.(phase := Fetched(a.batch)))) else None
    case Fetched(batch) =>
      if a.CheckContext? then
        Some(s.(intake := i.(phase := if s.cancelled then Stopped else Dispatching(batch, false))))
      else None
    case Stopped => None
    case Dispatching(rest, enqueued) =>
      if rest == [] then
        if a.EndBatch? then Some(s.(intake := i.(phase := Polling))) else None
      else if enqueued then
        if a.Mark? then Some(s.(intake := Advance(i, true))) else None
      else match rest[0]
        case Malformed(_, _) =>
          if a.SkipMalformed? then Some(s.(intake := Advance(i, true))) else None
        case WellFormed(_, _, event) =>
          if a.Submit? && |p.jobs| < c.poolSize then
            var j := Job(|i.dispatched|, event);
            Some(s.(intake := i.(phase := Dispatching(rest, true)),
                    pool := p.(accepted := p.accepted + [j], jobs := p.jobs + [j])))
          else if a.Refuse? && s.cancelled then Some(s.(intake := Advance(i, false)))
          else None
  }

  /** runWorker, with Handle's enrichment done at the dequeue, and Publish. */
  function WorkerDo(c: Config, s: State, w: nat, a: WorkerStep): Option<State> {
    var p := s.pool;
    if w >= |p.workers| then None
    else match p.workers[w]
      case Exited => None
      case Idle =>
        if a.Dequeue? && p.jobs != [] then
          Some(s.(pool := p.(jobs := p.jobs[1..],
                             workers := p.workers[w := Publishing(Enriched(c, p.jobs[0]), ALL_SINKS)])))
        else if a.Exit? && s.cancelled then
          Some(s.(pool := p.(workers := p.workers[w := Exited])))
        else None
      case Publishing(job, pending) =>
        match a
        case Send(k) =>
          var ch := At(s.sinks, k);
          if k in pending && |ch.queue| < c.bufferSize then
            Some(s.(pool := p.(workers := p.workers[w := Publishing(job, pending - {k})]),
                    sinks := Put(s.sinks, k, ch.(queue := ch.queue + [job]))))
          else None
        case Finish =>
          if pending == {} then
            Some(s.(pool := p.(workers := p.workers[w := Idle], finished := p.finished + [job])))
          else None
        case Abandon =>
          if pending != {} && s.cancelled then
            Some(s.(pool := p.(workers := p.workers[w := Idle],
                               abandoned := p.abandoned + [p.workers[w]])))
          else None
        case _ => None
  }

  function Taken(ch: Channel): Channel
    requires ch.queue != []
  {
    Channel(ch.queue[1..], ch.received + [ch.queue[0]])
  }

  /** OrderBookStore.Run, with Apply split into its Get and its Update. */
  function KeeperDo(s: State, a: KeeperStep): Option<State> {
    var k := s.keeper;
    match k.phase
    case KeeperIdle =>
      if a.TakeUpdate? && s.sinks.book.queue != [] then
        Some(s.(sinks := s.sinks.(book := Taken(s.sinks.book)),
                keeper := k.(phase := KeeperHas(s.sinks.book.queue[0].event))))
      else if a.StopKeeper? && s.cancelled then Some(s.(keeper := k.(phase := KeeperGone)))
      else None
    case KeeperHas(event) =>
      if a.GetBook? then
        Some(s.(keeper := k.(phase := KeeperRead(event, BookOf(k.data, event.symbol)))))
      else None
    case KeeperRead(event, book) =>
      if a.UpdateBook? then
        Some(s.(keeper := Keeper(k.data[event.symbol := ApplyTo(book, event)], KeeperIdle)))
      else None
    case KeeperGone => None
  }

  function Behind(js: seq<Job>, busy: bool): seq<Job> {
    if busy && js != [] then js[..|js| - 1] else js
  }

  /** The received trades the keeper has finished applying. */
  function AppliedTrades(s: State): seq<Job> {
    Behind(s.sinks.book.received, s.keeper.phase.KeeperHas? || s.keeper.phase.KeeperRead?)
  }

  /** The received trades whose Redis write has returned. */
  function Written(s: State): seq<Job> {
    Behind(s.sinks.redis.received, !s.writer.phase.WriterIdle? && !s.writer.phase.WriterGone?)
  }

  /** Write: three ordered sets, each of which may fail without effect and then ends the write.
      A failed marshal ends it at the same point. `current` is the trade's number in the writer's
      order, and `data` the books after `asOf` applied trades. */
  function WriteDo(w: Writer, current: nat, data: Books, asOf: nat, a: WriterStep): Option<Writer> {
    match w.phase
    case BeforeLatest(event) =>
      if !a.SetLatest? then None
      else if !a.ok then Some(w.(phase := WriterIdle, failed := w.failed + {current}))
      else Some(w.(store := w.store[LatestTrade(event.symbol) := TradeJson(event)],
                   phase := BeforePrice(event), latestAt := w.latestAt[event.symbol := current]))
    case BeforePrice(event) =>
      if !a.SetPrice? then None
      else if !a.ok then Some(w.(phase := WriterIdle, failed := w.failed + {current}))
      else Some(w.(store := w.store[Price(event.symbol) := PriceText(event.price)], phase := BeforeGet(event),
                   priceAt := w.priceAt[event.symbol := current], stored := w.stored + {current}))
    case BeforeGet(event) =>
      if !a.ReadBook? then None
      else if event.symbol !in data then Some(w.(phase := WriterIdle))
      else Some(w.(phase := BeforeSnapshot(event, data[event.symbol], asOf)))
    case BeforeSnapshot(event, book, at) =>
      if !a.SetSnapshot? then None
      else if !a.ok then Some(w.(phase := WriterIdle))
      else Some(w.(store := w.store[Snapshot(event.symbol) := BookJson(book)],
                   phase := WriterIdle, snapshotAt := w.snapshotAt[event.symbol := at]))
    case _ => None
  }

  /** RedisWriter.Run: the receive loop around Write. */
  function WriterDo(s: State, a: WriterStep): Option<State> {
    var w := s.writer;
    if w.phase.WriterIdle? then
      if a.TakeWrite? && s.sinks.redis.queue != [] then
        Some(s.(sinks := s.sinks.(redis := Taken(s.sinks.redis)),
                writer := w.(phase := BeforeLatest(s.sinks.redis.queue[0].event))))
      else if a.StopWriter? && s.cancelled then Some(s.(writer := w.(phase := WriterGone)))
      else None
    else
      match WriteDo(w, |Written(s)|, s.keeper.data, |AppliedTrades(s)|, a)
      case None => None
      case Some(w') => Some(s.(writer := w'))
  }

  function BroadcasterDo(s: State, a: BroadcasterStep): Option<State> {
    if !s.broadcasting then None
    else match a
      case TakeBroadcast =>
        if s.sinks.broadcast.queue == [] then None
        else Some(s.(sinks := s.sinks.(broadcast := Taken(s.sinks.broadcast))))
      case StopBroadcaster =>
        if s.cancelled then Some(s.(broadcasting := false)) else None
  }

  /** The successor state, or None when the step is not enabled. */
  function Do(c: Config, s: State, step: Step): Option<State> {
    match step
    case Cancel => Some(s.(cancelled := true))
    case ByConsumer(a) => ConsumerDo(c, s, a)
    case ByWorker(w, a) => WorkerDo(c, s, w, a)
    case ByKeeper(a) => KeeperDo(s, a)
    case ByWriter(a) => WriterDo(s, a)
    case ByBroadcaster(a) => BroadcasterDo(s, a)
  }

  /** What each goroutine leaves alone. */
  lemma Frame(c: Config, s: State, step: Step, t: State)
    requires Do(c, s, step) == Some(t)
    ensures s.cancelled ==> t.cancelled
    ensures !step.Cancel? ==> t.cancelled == s.cancelled
    ensures !step.ByConsumer? ==> t.intake == s.intake && t.pool.accepted == s.pool.accepted
    ensures !step.ByKeeper? ==> t.keeper == s.keeper && t.sinks.book.received == s.sinks.book.received
    ensures !step.ByWriter? ==> t.writer == s.writer && t.sinks.redis.received == s.sinks.redis.received
  {
  }

  // ------------------------------------------------------------------ runs

  datatype Run = Begin | Then(before: Run, step: Step)

  /** Where a run ends, or None when one of its steps is not enabled. */
  function Exec(c: Config, s: State, run: Run): Option<State> {
    match run
    case Begin => Some(s)
    case Then(before, step) =>
      match Exec(c, s, before)
      case None => None
      case Some(t) => Do(c, t, step)
  }

  function Append(first: Run, second: Run): Run {
    match second
    case Begin => first
    case Then(before, step) => Then(Append(first, before), step)
  }

  lemma {:induction false} ExecAppend(c: Config, s: State, first: Run, t: State, second: Run, u: State)
    requires Exec(c, s, first) == Some(t) && Exec(c, t, second) == Some(u)
    ensures Exec(c, s, Append(first, second)) == Some(u)
  {
    if second.Then? {
      ExecAppend(c, s, first, t, second.before, Exec(c, t, second.before).value);
    }
  }

  /** Everything sent into a sink so far, received or still queued. */
  function Sent(s: State, k: Sink): seq<Job> { At(s.sinks, k).received + At(s.sinks, k).queue }

  function Events(js: seq<Job>): (r: seq<TradeEvent>)
    ensures |r| == |js|
    ensures forall i :: 0 <= i < |js| ==> r[i] == js[i].event
  {
    seq(|js|, i requires 0 <= i < |js| => js[i].event)
  }

  /** Receiving moves a trade from the queue to the received ones; nothing else about Sent moves. */
  lemma TakeKeepsSent(ch: Channel)
    requires ch.queue != []
    ensures Taken(ch).received + Taken(ch).queue == ch.received + ch.queue
  {
  }
}
