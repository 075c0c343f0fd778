/** The three Redis keys of a symbol, under arbitrary failures of single sets. */
module Redis {
  import opened Trades
  import opened OrderBooks
  import opened Processor
  import Snapshots

  // ------------------------------------------------------------------ keys on the wire

  function Render(key: Key): (r: string)
    ensures key.LatestTrade? ==> r == "trade:latest:" + key.symbol
    ensures key.Price? ==> r == "price:" + key.symbol
    ensures key.Snapshot? ==> r == "orderbook:" + key.symbol
  {
    match key
    case LatestTrade(symbol) => "trade:latest:" + symbol
    case Price(symbol) => "price:" + symbol
    case Snapshot(symbol) => "orderbook:" + symbol
  }

  /** Distinct keys never share a Redis string, whatever the symbols contain. */
  lemma RenderInjective(a: Key, b: Key)
    requires Render(a) == Render(b)
    ensures a == b
  {
    assert Render(a)[0] == Render(b)[0];
    match a
    case LatestTrade(x) => assert Render(a)[13..] == x && Render(b)[13..] == b.symbol;
    case Price(x) => assert Render(a)[6..] == x && Render(b)[6..] == b.symbol;
    case Snapshot(x) => assert Render(a)[10..] == x && Render(b)[10..] == b.symbol;
  }

  // ------------------------------------------------------------------ the invariant

  function Read(store: Store, key: Key): Option<Value> {
    if key in store then Some(store[key]) else None
  }

  /** Symbol's latest-trade key: the received trade it came from, or what was there before. */
  ghost predicate LatestOk(before: Store, w: Writer, r: seq<Job>, symbol: Symbol) {
    if symbol in w.latestAt then
      var i := w.latestAt[symbol];
      && i < |r| && r[i].event.symbol == symbol
      && Read(w.store, LatestTrade(symbol)) == Some(TradeJson(r[i].event))
    else Read(w.store, LatestTrade(symbol)) == Read(before, LatestTrade(symbol))
  }

  /** The price key likewise; its trade is never ahead of the latest-trade key's. */
  ghost predicate PriceOk(before: Store, w: Writer, r: seq<Job>, symbol: Symbol) {
    if symbol in w.priceAt then
      var i := w.priceAt[symbol];
      && i < |r| && r[i].event.symbol == symbol
      && Read(w.store, Price(symbol)) == Some(PriceText(r[i].event.price))
      && symbol in w.latestAt && i <= w.latestAt[symbol]
    else Read(w.store, Price(symbol)) == Read(before, Price(symbol))
  }

  /** `book` is the symbol's book after the first n applied trades. */
  ghost predicate BookAfter(applied: seq<TradeEvent>, n: nat, symbol: Symbol, book: Book) {
    n <= |applied| && Find(Fold(map[], applied[..n]), symbol) == Some(book)
  }

  ghost predicate SnapshotOk(before: Store, w: Writer, applied: seq<TradeEvent>, symbol: Symbol) {
    if symbol in w.snapshotAt then
      exists book :: BookAfter(applied, w.snapshotAt[symbol], symbol, book)
                     && Read(w.store, Snapshot(symbol)) == Some(BookJson(book))
    else Read(w.store, Snapshot(symbol)) == Read(before, Snapshot(symbol))
  }

  /** What the writer knows between two sets of one Write. */
  ghost predicate PhaseOk(w: Writer, r: seq<Job>, applied: seq<TradeEvent>) {
    match w.phase
    case WriterIdle => true
    case WriterGone => true
    case BeforeLatest(event) => r != [] && event == r[|r| - 1].event
    case BeforePrice(event) =>
      && r != [] && event == r[|r| - 1].event
      && event.symbol in w.latestAt && w.latestAt[event.symbol] == |r| - 1
    case BeforeGet(event) => r != [] && event == r[|r| - 1].event
    case BeforeSnapshot(event, book, asOf) =>
      && r != [] && event == r[|r| - 1].event
      && BookAfter(applied, asOf, event.symbol, book)
      && (event.symbol in w.snapshotAt ==> w.snapshotAt[event.symbol] <= asOf)
  }

  ghost predicate KeysOk(before: Store, w: Writer, r: seq<Job>, applied: seq<TradeEvent>) {
    && PhaseOk(w, r, applied)
    && (forall symbol :: LatestOk(before, w, r, symbol))
    && (forall symbol :: PriceOk(before, w, r, symbol))
    && (forall symbol :: SnapshotOk(before, w, applied, symbol))
  }

  ghost predicate Inv(before: Store, s: State) {
    KeysOk(before, s.writer, s.sinks.redis.received, Events(AppliedTrades(s)))
  }

  // ------------------------------------------------------------------ every step keeps it

  lemma BookAfterGrows(applied: seq<TradeEvent>, more: seq<TradeEvent>, n: nat, symbol: Symbol, book: Book)
    requires applied <= more && BookAfter(applied, n, symbol, book)
    ensures BookAfter(more, n, symbol, book)
  {
    assert more[..n] == applied[..n];
  }

  /** Receiving more trades, or applying more, disturbs nothing already written. */
  lemma GrowKeeps(before: Store, w: Writer, r: seq<Job>, r': seq<Job>,
                  applied: seq<TradeEvent>, more: seq<TradeEvent>)
    requires KeysOk(before, w, r, applied) && applied <= more
    requires r' == r || (w.phase.WriterIdle? && r <= r')
    ensures KeysOk(before, w, r', more)
  {
    if w.phase.BeforeSnapshot? {
      BookAfterGrows(applied, more, w.phase.asOf, w.phase.event.symbol, w.phase.book);
    }
    forall symbol ensures LatestOk(before, w, r', symbol) && PriceOk(before, w, r', symbol) {
      assert LatestOk(before, w, r, symbol) && PriceOk(before, w, r, symbol);
    }
    forall symbol ensures SnapshotOk(before, w, more, symbol) {
      assert SnapshotOk(before, w, applied, symbol);
      if symbol in w.snapshotAt {
        var book :| BookAfter(applied, w.snapshotAt[symbol], symbol, book)
                    && Read(w.store, Snapshot(symbol)) == Some(BookJson(book));
        BookAfterGrows(applied, more, w.snapshotAt[symbol], symbol, book);
      }
    }
  }

  lemma PhaseOnly(before: Store, w: Writer, w': Writer, r: seq<Job>, applied: seq<TradeEvent>)
    requires KeysOk(before, w, r, applied) && PhaseOk(w', r, applied)
    requires w' == w.(phase := w'.phase, failed := w'.failed)
    ensures KeysOk(before, w', r, applied)
  {
    forall symbol ensures LatestOk(before, w', r, symbol) && PriceOk(before, w', r, symbol)
                          && SnapshotOk(before, w', applied, symbol) {
      assert LatestOk(before, w, r, symbol) && PriceOk(before, w, r, symbol);
      assert SnapshotOk(before, w, applied, symbol);
    }
  }

  lemma SetLatestKeeps(before: Store, w: Writer, w': Writer, r: seq<Job>, applied: seq<TradeEvent>)
    requires KeysOk(before, w, r, applied) && w.phase.BeforeLatest?
    requires var e := w.phase.event;
             w' == w.(store := w.store[LatestTrade(e.symbol) := TradeJson(e)], phase := BeforePrice(e),
                      latestAt := w.latestAt[e.symbol := |r| - 1])
    ensures KeysOk(before, w', r, applied)
  {
    forall symbol ensures LatestOk(before, w', r, symbol) && PriceOk(before, w', r, symbol)
                          && SnapshotOk(before, w', applied, symbol) {
      assert LatestOk(before, w, r, symbol) && PriceOk(before, w, r, symbol);
      assert SnapshotOk(before, w, applied, symbol);
    }
  }

  lemma SetPriceKeeps(before: Store, w: Writer, w': Writer, r: seq<Job>, applied: seq<TradeEvent>)
    requires KeysOk(before, w, r, applied) && w.phase.BeforePrice?
    requires var e := w.phase.event;
             w' == w.(store := w.store[Price(e.symbol) := PriceText(e.price)], phase := BeforeGet(e),
                      priceAt := w.priceAt[e.symbol := |r| - 1], stored := w'.stored)
    ensures KeysOk(before, w', r, applied)
  {
    forall symbol ensures LatestOk(before, w', r, symbol) && PriceOk(before, w', r, symbol)
                          && SnapshotOk(before, w', applied, symbol) {
      assert LatestOk(before, w, r, symbol) && PriceOk(before, w, r, symbol);
      assert SnapshotOk(before, w, applied, symbol);
    }
  }

  lemma SetSnapshotKeeps(before: Store, w: Writer, w': Writer, r: seq<Job>, applied: seq<TradeEvent>)
    requires KeysOk(before, w, r, applied) && w.phase.BeforeSnapshot?
    requires var e := w.phase.event;
             w' == w.(store := w.store[Snapshot(e.symbol) := BookJson(w.phase.book)], phase := WriterIdle,
                      snapshotAt := w.snapshotAt[e.symbol := w.phase.asOf])
    ensures KeysOk(before, w', r, applied)
  {
    forall symbol ensures LatestOk(before, w', r, symbol) && PriceOk(before, w', r, symbol)
                          && SnapshotOk(before, w', applied, symbol) {
      assert LatestOk(before, w, r, symbol) && PriceOk(before, w, r, symbol);
      assert SnapshotOk(before, w, applied, symbol);
    }
  }

  /** The snapshot the writer reads is the book after what the keeper has applied by now. */
  lemma ReadBookFact(before: Store, s: State, symbol: Symbol)
    requires Inv(before, s) && Snapshots.Inv(s) && symbol in s.keeper.data
    ensures var applied := Events(AppliedTrades(s));
            && BookAfter(applied, |applied|, symbol, s.keeper.data[symbol])
            && (symbol in s.writer.snapshotAt ==> s.writer.snapshotAt[symbol] <= |applied|)
  {
    var applied := Events(AppliedTrades(s));
    assert applied[..|applied|] == applied;
    assert SnapshotOk(before, s.writer, applied, symbol);
  }

  lemma WriterKeeps(before: Store, s: State, a: WriterStep, t: State)
    requires Inv(before, s) && Snapshots.Inv(s) && WriterDo(s, a) == Some(t)
    ensures Inv(before, t)
  {
    var w, r, applied := s.writer, s.sinks.redis.received, Events(AppliedTrades(s));
    assert Events(AppliedTrades(t)) == applied;
    match w.phase
    case WriterIdle =>
      GrowKeeps(before, w, r, t.sinks.redis.received, applied, applied);
      PhaseOnly(before, w, t.writer, t.sinks.redis.received, applied);
    case BeforeLatest(_) =>
      if a.ok { SetLatestKeeps(before, w, t.writer, r, applied); }
      else { PhaseOnly(before, w, t.writer, r, applied); }
    case BeforePrice(_) =>
      if a.ok { SetPriceKeeps(before, w, t.writer, r, applied); }
      else { PhaseOnly(before, w, t.writer, r, applied); }
    case BeforeGet(event) =>
      if event.symbol in s.keeper.data { ReadBookFact(before, s, event.symbol); }
      PhaseOnly(before, w, t.writer, r, applied);
    case BeforeSnapshot(_, _, _) =>
      if a.ok { SetSnapshotKeeps(before, w, t.writer, r, applied); }
      else { PhaseOnly(before, w, t.writer, r, applied); }
    case WriterGone =>
  }

  lemma StepKeeps(c: Config, before: Store, s: State, step: Step, t: State)
    requires Inv(before, s) && Snapshots.Inv(s) && Do(c, s, step) == Some(t)
    ensures Inv(before, t)
  {
    if step.ByWriter? {
      WriterKeeps(before, s, step.r, t);
    } else {
      Snapshots.StepKeeps(c, s, step, t);
      Frame(c, s, step, t);
      GrowKeeps(before, s.writer, s.sinks.redis.received, t.sinks.redis.received,
                Events(AppliedTrades(s)), Events(AppliedTrades(t)));
    }
  }

  // ------------------------------------------------------------------ stored and failed trades

  /** How many received trades have had their latest-trade and price sets decided. */
  function Decided(w: Writer, r: seq<Job>): nat { |Behind(r, w.phase.BeforeLatest? || w.phase.BeforePrice?)| }

  /** The first n numbers, each in exactly one of the two sets. */
  ghost predicate Parted(a: set<nat>, b: set<nat>, n: nat) {
    (forall i: nat :: i < n <==> i in a || i in b) && forall i :: i in a ==> i !in b
  }

  lemma PartedPush(a: set<nat>, b: set<nat>, n: nat)
    requires Parted(a, b, n)
    ensures Parted(a + {n}, b, n + 1) && Parted(a, b + {n}, n + 1)
  {
  }

  lemma PartedPop(a: set<nat>, b: set<nat>, n: nat)
    requires Parted(a, b, n + 1) && n in a
    ensures Parted(a - {n}, b, n) && |a| == |a - {n}| + 1
  {
    assert a == (a - {n}) + {n};
  }

  lemma PartedSwap(a: set<nat>, b: set<nat>, n: nat)
    requires Parted(a, b, n)
    ensures Parted(b, a, n)
  {
  }

  lemma {:induction false} PartedSize(a: set<nat>, b: set<nat>, n: nat)
    requires Parted(a, b, n)
    ensures |a| + |b| == n
    decreases n
  {
    if n == 0 {
      assert a == {} && b == {};
    } else if n - 1 in a {
      PartedPop(a, b, n - 1);
      PartedSize(a - {n - 1}, b, n - 1);
    } else {
      assert n - 1 in b;
      PartedSwap(a, b, n);
      PartedPop(b, a, n - 1);
      PartedSize(b - {n - 1}, a, n - 1);
    }
  }

  /** Both keys of trade i's symbol show that trade or a later one. */
  ghost predicate Shown(w: Writer, r: seq<Job>, i: nat) {
    && i < |r| && r[i].event.symbol in w.latestAt && i <= w.latestAt[r[i].event.symbol]
    && r[i].event.symbol in w.priceAt && i <= w.priceAt[r[i].event.symbol]
  }

  ghost predicate AllShown(w: Writer, r: seq<Job>) { forall i :: i in w.stored ==> Shown(w, r, i) }

  /** Every decided trade is either stored, and then shown, or failed. */
  ghost predicate Tracked(s: State) {
    var w, r := s.writer, s.sinks.redis.received;
    Parted(w.stored, w.failed, Decided(w, r)) && AllShown(w, r)
  }

  lemma LatestTracks(s: State, ok: bool, t: State)
    requires Tracked(s) && s.writer.phase.BeforeLatest? && s.sinks.redis.received != []
    requires WriterDo(s, SetLatest(ok)) == Some(t)
    ensures Tracked(t)
  {
    var w, r := s.writer, s.sinks.redis.received;
    PartedPush(w.stored, w.failed, |r| - 1);
    assert AllShown(t.writer, r) by {
      assert AllShown(w, r);
    }
  }

  lemma PriceTracks(s: State, ok: bool, t: State)
    requires Tracked(s) && s.writer.phase.BeforePrice? && PhaseOk(s.writer, s.sinks.redis.received, Events(AppliedTrades(s)))
    requires WriterDo(s, SetPrice(ok)) == Some(t)
    ensures Tracked(t)
  {
    var w, r := s.writer, s.sinks.redis.received;
    PartedPush(w.stored, w.failed, |r| - 1);
    assert AllShown(t.writer, r) by {
      assert AllShown(w, r);
    }
  }

  /** The other steps decide nothing; taking a trade only adds one that is not yet decided. */
  lemma OtherWriterStep(s: State, a: WriterStep, t: State)
    requires WriterDo(s, a) == Some(t) && !a.SetLatest? && !a.SetPrice?
    ensures var w, w', r, r' := s.writer, t.writer, s.sinks.redis.received, t.sinks.redis.received;
            && w'.latestAt == w.latestAt && w'.priceAt == w.priceAt && r <= r'
            && w'.stored == w.stored && w'.failed == w.failed && Decided(w', r') == Decided(w, r)
  {
    if !s.writer.phase.WriterIdle? {
      OtherWrite(s.writer, |Written(s)|, s.keeper.data, |AppliedTrades(s)|, a, t.writer);
    }
  }

  lemma OtherWrite(w: Writer, current: nat, data: Books, asOf: nat, a: WriterStep, w': Writer)
    requires WriteDo(w, current, data, asOf, a) == Some(w') && !a.SetLatest? && !a.SetPrice?
    ensures w'.latestAt == w.latestAt && w'.priceAt == w.priceAt && w'.stored == w.stored && w'.failed == w.failed
    ensures !w.phase.BeforeLatest? && !w.phase.BeforePrice? && !w'.phase.BeforeLatest? && !w'.phase.BeforePrice?
  {
  }

  lemma WriterTracks(before: Store, s: State, a: WriterStep, t: State)
    requires Inv(before, s) && Tracked(s) && WriterDo(s, a) == Some(t)
    ensures Tracked(t)
  {
    match a
    case SetLatest(ok) => LatestTracks(s, ok, t);
    case SetPrice(ok) => PriceTracks(s, ok, t);
    case _ =>
      OtherWriterStep(s, a, t);
      assert AllShown(t.writer, t.sinks.redis.received) by {
        assert AllShown(s.writer, s.sinks.redis.received);
      }
  }

  lemma TrackStep(c: Config, before: Store, s: State, step: Step, t: State)
    requires Inv(before, s) && Tracked(s) && Do(c, s, step) == Some(t)
    ensures Tracked(t)
  {
    if step.ByWriter? {
      WriterTracks(before, s, step.r, t);
    } else {
      Frame(c, s, step, t);
    }
  }

  lemma {:induction false} TrackedAlways(c: Config, store: Store, run: Run, s: State)
    requires Exec(c, Init(c, store), run) == Some(s)
    ensures Tracked(s)
  {
    match run
    case Begin =>
    case Then(before, step) =>
      var mid := Exec(c, Init(c, store), before).value;
      TrackedAlways(c, store, before, mid);
      Kept(c, store, before, mid);
      TrackStep(c, store, mid, step, s);
  }

  /** A price comes from a stored trade. */
  ghost predicate PricesStored(w: Writer) {
    forall symbol :: symbol in w.priceAt ==> w.priceAt[symbol] in w.stored
  }

  lemma WriteStoresPrice(w: Writer, current: nat, data: Books, asOf: nat, a: WriterStep, w': Writer)
    requires WriteDo(w, current, data, asOf, a) == Some(w') && PricesStored(w)
    ensures PricesStored(w')
  {
  }

  lemma PriceStep(c: Config, s: State, step: Step, t: State)
    requires PricesStored(s.writer) && Do(c, s, step) == Some(t)
    ensures PricesStored(t.writer)
  {
    if !step.ByWriter? {
      Frame(c, s, step, t);
    } else if !s.writer.phase.WriterIdle? {
      WriteStoresPrice(s.writer, |Written(s)|, s.keeper.data, |AppliedTrades(s)|, step.r, t.writer);
    }
  }

  lemma {:induction false} PricesStoredAlways(c: Config, store: Store, run: Run, s: State)
    requires Exec(c, Init(c, store), run) == Some(s)
    ensures PricesStored(s.writer)
  {
    if run.Then? {
      var mid := Exec(c, Init(c, store), run.before).value;
      PricesStoredAlways(c, store, run.before, mid);
      PriceStep(c, mid, run.step, s);
    }
  }

  lemma {:induction false} Kept(c: Config, store: Store, run: Run, s: State)
    requires Exec(c, Init(c, store), run) == Some(s)
    ensures Inv(store, s) && Snapshots.Inv(s)
  {
    match run
    case Begin =>
    case Then(before, step) =>
      var mid := Exec(c, Init(c, store), before).value;
      Kept(c, store, before, mid);
      Snapshots.StepKeeps(c, mid, step, s);
      StepKeeps(c, store, mid, step, s);
  }

  // ------------------------------------------------------------------ what follows over runs

  /** The symbol's price is that of received trade i and its latest trade is received trade j. */
  ghost predicate Shows(s: State, symbol: Symbol, i: nat, j: nat) {
    PriceIs(s, symbol, i) && LatestIs(s, symbol, j)
  }

  ghost predicate PriceIs(s: State, symbol: Symbol, i: nat) {
    var r := s.sinks.redis.received;
    i < |r| && r[i].event.symbol == symbol && Read(s.writer.store, Price(symbol)) == Some(PriceText(r[i].event.price))
  }

  ghost predicate LatestIs(s: State, symbol: Symbol, j: nat) {
    var r := s.sinks.redis.received;
    j < |r| && r[j].event.symbol == symbol && Read(s.writer.store, LatestTrade(symbol)) == Some(TradeJson(r[j].event))
  }

  ghost predicate Untouched(before: Store, s: State, key: Key) { Read(s.writer.store, key) == Read(before, key) }

  /** A symbol's keys in a process started over `before`: untouched, or only the latest trade set
      anew, or both set anew, the price never from a later trade than the latest; and a snapshot
      that is untouched or the book after some prefix of the applied trades. */
  ghost predicate CoherentOver(before: Store, s: State, symbol: Symbol) {
    && (|| (Untouched(before, s, Price(symbol)) && Untouched(before, s, LatestTrade(symbol)))
        || (Untouched(before, s, Price(symbol)) && exists j :: LatestIs(s, symbol, j))
        || (exists i, j :: i <= j && Shows(s, symbol, i, j)))
    && (|| Untouched(before, s, Snapshot(symbol))
        || exists n: nat, book :: BookAfter(Events(AppliedTrades(s)), n, symbol, book)
                                  && Read(s.writer.store, Snapshot(symbol)) == Some(BookJson(book)))
  }

  /** Coherence over an empty Redis: a price implies a latest trade of the same symbol at or after
      the price's trade in the writer's order, and a stored snapshot is the symbol's book after
      some prefix of the trades its keeper applied. */
  ghost predicate Coherence(s: State, symbol: Symbol) {
    && (Price(symbol) in s.writer.store ==> exists i, j :: i <= j && Shows(s, symbol, i, j))
    && (Snapshot(symbol) in s.writer.store ==>
          exists n: nat, book :: BookAfter(Events(AppliedTrades(s)), n, symbol, book)
                                 && Read(s.writer.store, Snapshot(symbol)) == Some(BookJson(book)))
  }

  lemma CoherentState(before: Store, s: State, symbol: Symbol)
    requires Inv(before, s)
    ensures CoherentOver(before, s, symbol)
  {
    var w, r := s.writer, s.sinks.redis.received;
    assert LatestOk(before, w, r, symbol) && PriceOk(before, w, r, symbol);
    assert SnapshotOk(before, w, Events(AppliedTrades(s)), symbol);
    if symbol in w.latestAt {
      assert LatestIs(s, symbol, w.latestAt[symbol]);
      if symbol in w.priceAt {
        assert Shows(s, symbol, w.priceAt[symbol], w.latestAt[symbol]);
      }
    }
  }

  /** Coherence of a process started over whatever earlier ones left, whatever sets fail. */
  lemma CoherentOverAny(c: Config, before: Store, run: Run, s: State, symbol: Symbol)
    requires Exec(c, Init(c, before), run) == Some(s)
    ensures CoherentOver(before, s, symbol)
  {
    Kept(c, before, run, s);
    CoherentState(before, s, symbol);
  }

  lemma Coherent(c: Config, run: Run, s: State, symbol: Symbol)
    requires Exec(c, Init(c, map[]), run) == Some(s)
    ensures Coherence(s, symbol)
  {
    CoherentOverAny(c, map[], run, s, symbol);
  }

  // ------------------------------------------------------------------ over several processes

  /** One process, from its start to wherever it ends. */
  datatype Process = Process(run: Run, end: State)

  function LeftBy(ps: seq<Process>): Store {
    if ps == [] then map[] else ps[|ps| - 1].end.writer.store
  }

  /** Each process starts over the Redis that its predecessor left. */
  ghost predicate Succession(c: Config, ps: seq<Process>) {
    ps == [] ||
    var earlier, p := ps[..|ps| - 1], ps[|ps| - 1];
    Succession(c, earlier) && Exec(c, Init(c, LeftBy(earlier)), p.run) == Some(p.end)
  }

  ghost predicate Paired(store: Store) {
    forall symbol :: Price(symbol) in store ==> LatestTrade(symbol) in store
  }

  /** Across any number of crashes and restarts, wherever each one resumes and whatever sets fail,
      a price key is never without a latest-trade key. That the latest trade is not behind the
      price is not kept: Witnesses.ReplayFallsBehind. */
  lemma {:induction false} StaysPaired(c: Config, ps: seq<Process>)
    requires Succession(c, ps)
    ensures Paired(LeftBy(ps))
  {
    if ps != [] {
      var earlier, p := ps[..|ps| - 1], ps[|ps| - 1];
      StaysPaired(c, earlier);
      forall symbol | Price(symbol) in p.end.writer.store ensures LatestTrade(symbol) in p.end.writer.store {
        CoherentOverAny(c, LeftBy(earlier), p.run, p.end, symbol);
        PairedHere(LeftBy(earlier), p.end, symbol);
      }
    }
  }

  lemma PairedHere(before: Store, s: State, symbol: Symbol)
    requires Paired(before) && CoherentOver(before, s, symbol) && Price(symbol) in s.writer.store
    ensures LatestTrade(symbol) in s.writer.store
  {
    if Untouched(before, s, Price(symbol)) && Untouched(before, s, LatestTrade(symbol)) {
      assert Price(symbol) in before;
    }
  }

  /** Only the symbol of the trade being written is touched by a step. */
  lemma OnlyItsSymbol(c: Config, s: State, step: Step, t: State, key: Key)
    requires Do(c, s, step) == Some(t)
    requires s.writer.phase.WriterIdle? || s.writer.phase.WriterGone? || s.writer.phase.event.symbol != key.symbol
    ensures Read(t.writer.store, key) == Read(s.writer.store, key)
  {
    if !step.ByWriter? {
      Frame(c, s, step, t);
    } else if !s.writer.phase.WriterIdle? {
      WriteTouches(s.writer, |Written(s)|, s.keeper.data, |AppliedTrades(s)|, step.r, t.writer, key);
    }
  }

  lemma WriteTouches(w: Writer, current: nat, data: Books, asOf: nat, a: WriterStep, w': Writer, key: Key)
    requires WriteDo(w, current, data, asOf, a) == Some(w')
    requires w.phase.WriterIdle? || w.phase.WriterGone? || w.phase.event.symbol != key.symbol
    ensures Read(w'.store, key) == Read(w.store, key)
  {
  }

  lemma SnapshotWrite(w: Writer, current: nat, data: Books, asOf: nat, a: WriterStep, w': Writer, symbol: Symbol)
    requires WriteDo(w, current, data, asOf, a) == Some(w') && symbol in w.snapshotAt
    requires w.phase.BeforeSnapshot? && w.phase.event.symbol == symbol ==> w.snapshotAt[symbol] <= w.phase.asOf
    ensures symbol in w'.snapshotAt && w.snapshotAt[symbol] <= w'.snapshotAt[symbol]
  {
  }

  lemma SnapshotStep(c: Config, before: Store, s: State, step: Step, t: State, symbol: Symbol)
    requires Inv(before, s) && Do(c, s, step) == Some(t) && symbol in s.writer.snapshotAt
    ensures symbol in t.writer.snapshotAt && s.writer.snapshotAt[symbol] <= t.writer.snapshotAt[symbol]
  {
    var w := s.writer;
    if !step.ByWriter? {
      Frame(c, s, step, t);
    } else if !w.phase.WriterIdle? {
      assert PhaseOk(w, s.sinks.redis.received, Events(AppliedTrades(s)));
      SnapshotWrite(w, |Written(s)|, s.keeper.data, |AppliedTrades(s)|, step.r, t.writer, symbol);
    }
  }

  /** From one point of a run to a later one, a symbol's stored snapshot never moves back to a
      shorter prefix of the applied trades. */
  lemma {:induction false} SnapshotsNeverRegress(c: Config, before: Store, s: State, run: Run, t: State, symbol: Symbol)
    requires Inv(before, s) && Snapshots.Inv(s) && Exec(c, s, run) == Some(t) && symbol in s.writer.snapshotAt
    ensures Inv(before, t) && Snapshots.Inv(t)
    ensures symbol in t.writer.snapshotAt && s.writer.snapshotAt[symbol] <= t.writer.snapshotAt[symbol]
  {
    if run.Then? {
      var mid := Exec(c, s, run.before).value;
      SnapshotsNeverRegress(c, before, s, run.before, mid, symbol);
      SnapshotStep(c, before, mid, run.step, t, symbol);
      Snapshots.StepKeeps(c, mid, run.step, t);
      StepKeeps(c, before, mid, run.step, t);
    }
  }
}
