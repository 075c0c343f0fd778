/** At-least-once replay: what Redis holds after any number of crashes and restarts.

    The topic has one log per partition, and all trades of a symbol are in one of them. A life is
    one process: it starts at an offset of each partition over the Redis its predecessors left, and
    ends anywhere, half-written trades included. Histories differ in where a life hands over: in a
    `History` at points below which every trade was stored, in a `MarkHistory` at the end of the
    marks, which is what a commit of the marks amounts to. */
module Replay {
  import opened Trades
  import opened OrderBooks
  import opened Processor
  import opened Commit
  import opened Redis
  import Cons = Conservation
  import Delivery
  import Fifo

  // ------------------------------------------------------------------ runs without a failing set

  ghost predicate SetsSucceed(run: Run) {
    run.Then? ==> SetsSucceed(run.before)
                  && run.step != ByWriter(SetLatest(false)) && run.step != ByWriter(SetPrice(false))
  }

  lemma NoFailWrite(w: Writer, current: nat, data: Books, asOf: nat, a: WriterStep, w': Writer)
    requires WriteDo(w, current, data, asOf, a) == Some(w') && a != SetLatest(false) && a != SetPrice(false)
    ensures w'.failed == w.failed
  {
  }

  lemma NoFailStep(c: Config, s: State, step: Step, t: State)
    requires Do(c, s, step) == Some(t)
    requires step != ByWriter(SetLatest(false)) && step != ByWriter(SetPrice(false))
    ensures t.writer.failed == s.writer.failed
  {
    if !step.ByWriter? {
      Frame(c, s, step, t);
    } else if !s.writer.phase.WriterIdle? {
      NoFailWrite(s.writer, |Written(s)|, s.keeper.data, |AppliedTrades(s)|, step.r, t.writer);
    }
  }

  lemma {:induction false} NothingFails(c: Config, store: Store, run: Run, s: State)
    requires Exec(c, Init(c, store), run) == Some(s) && SetsSucceed(run)
    ensures s.writer.failed == {}
  {
    if run.Then? {
      var mid := Exec(c, Init(c, store), run.before).value;
      NothingFails(c, store, run.before, mid);
      NoFailStep(c, mid, run.step, s);
    }
  }

  /** With no failing set, every write that returned has stored its trade. */
  lemma SucceedingWritesStore(c: Config, store: Store, run: Run, s: State, x: nat)
    requires Exec(c, Init(c, store), run) == Some(s) && SetsSucceed(run) && x < |Written(s)|
    ensures x in s.writer.stored
  {
    NothingFails(c, store, run, s);
    Redis.TrackedAlways(c, store, run, s);
    assert x < Decided(s.writer, s.sinks.redis.received);
  }

  // ------------------------------------------------------------------ the log and its last trades

  predicate TradesIn(log: seq<Record>, i: nat, symbol: Symbol)
    requires i < |log|
  {
    log[i].WellFormed? && log[i].event.symbol == symbol
  }

  /** The position of a symbol's last well-formed record, or -1. */
  function LastTrade(log: seq<Record>, symbol: Symbol): (r: int)
    ensures -1 <= r < |log|
    ensures r >= 0 ==> TradesIn(log, r, symbol)
    ensures forall i :: r < i < |log| ==> !TradesIn(log, i, symbol)
  {
    if log == [] then -1
    else if TradesIn(log, |log| - 1, symbol) then |log| - 1
    else
      var r := LastTrade(log[..|log| - 1], symbol);
      assert forall i :: 0 <= i < |log| - 1 ==> TradesIn(log, i, symbol) == TradesIn(log[..|log| - 1], i, symbol);
      r
  }

  /** The symbol's two keys are those of its last trade in the log; absent if it has none. */
  ghost predicate Settled(c: Config, log: seq<Record>, store: Store, symbol: Symbol) {
    var q := LastTrade(log, symbol);
    if q < 0 then LatestTrade(symbol) !in store && Price(symbol) !in store
    else
      var event := c.enrich(log[q].event);
      && Read(store, LatestTrade(symbol)) == Some(TradeJson(event))
      && Read(store, Price(symbol)) == Some(PriceText(event.price))
  }

  ghost predicate KeepsSymbol(c: Config) {
    forall e {:trigger c.enrich(e)} :: c.enrich(e).symbol == e.symbol
  }

  /** The service's own enricher does. */
  lemma EnricherKeepsSymbol(poolSize: int, fanOutBuffer: int, table: map<Symbol, Market>)
    ensures KeepsSymbol(Configure(poolSize, fanOutBuffer, (e: TradeEvent) => Enrich(table, e)))
  {
    var c := Configure(poolSize, fanOutBuffer, (e: TradeEvent) => Enrich(table, e));
    assert forall e: TradeEvent :: c.enrich(e) == Enrich(table, e);
  }

  /** The logs of the topic, one per partition. */
  type Topic = seq<seq<Record>>

  /** Partition p is the one that holds the symbol's trades. */
  ghost predicate Home(logs: Topic, symbol: Symbol, p: nat) {
    p < |logs|
    && forall r, o :: 0 <= r < |logs| && 0 <= o < |logs[r]| && TradesIn(logs[r], o, symbol) ==> r == p
  }

  // ------------------------------------------------------------------ lives

  datatype Life = Life(offsets: seq<nat>, run: Run, end: State, resumes: seq<nat>)

  ghost predicate IsAt(st: seq<Record>, x: int, p: nat, o: int) {
    0 <= x < |st| && st[x].partition == p && st[x].offset == o
  }

  ghost predicate HasRecord(st: seq<Record>, p: nat, o: int) { exists x :: IsAt(st, x, p, o) }

  ghost predicate InLog(logs: Topic, offsets: seq<nat>, rec: Record)
    requires |offsets| == |logs|
  {
    var p, o := rec.partition, rec.offset;
    p < |logs| && offsets[p] <= o < |logs[p]| && logs[p][o] == rec
  }

  /** The consumer is handed, of each partition, the log from its offset on, in order and without
      omission; the partitions may interleave in any way. */
  ghost predicate FedStream(logs: Topic, offsets: seq<nat>, st: seq<Record>)
    requires |offsets| == |logs|
  {
    && (forall x :: 0 <= x < |st| ==> InLog(logs, offsets, st[x]))
    && (forall x, y :: 0 <= x < y < |st| && st[x].partition == st[y].partition ==> st[x].offset < st[y].offset)
    && (forall x, o: int :: 0 <= x < |st| && offsets[st[x].partition] <= o < st[x].offset ==>
                              HasRecord(st, st[x].partition, o))
  }

  ghost predicate Fed(logs: Topic, l: Life) {
    |l.offsets| == |logs| && FedStream(logs, l.offsets, Stream(l.end.intake))
  }

  /** One process over `store`, whatever sets fail. */
  ghost predicate Ran(c: Config, logs: Topic, store: Store, l: Life) {
    Exec(c, Init(c, store), l.run) == Some(l.end) && Fed(logs, l)
  }

  /** Both keys were set from the record at offset o of partition p. */
  ghost predicate StoredAt(l: Life, p: nat, o: int) {
    exists x :: x in l.end.writer.stored && x < |l.end.sinks.redis.received|
                && IsAt(Stream(l.end.intake), l.end.sinks.redis.received[x].id, p, o)
  }

  /** Below the points where the next life may start, every trade was stored. */
  ghost predicate Covered(logs: Topic, l: Life)
    requires |l.offsets| == |logs|
  {
    && |l.resumes| == |logs|
    && forall p, o: int :: 0 <= p < |logs| && l.offsets[p] <= o < l.resumes[p] ==>
                             o < |logs[p]| && (logs[p][o].WellFormed? ==> StoredAt(l, p, o))
  }

  function StoreAfter(lives: seq<Life>): Store {
    if lives == [] then map[] else lives[|lives| - 1].end.writer.store
  }

  /** Where the life after these starts in partition p, at the latest. */
  function ResumeAfter(lives: seq<Life>, p: nat): nat {
    if lives == [] || p >= |lives[|lives| - 1].resumes| then 0 else lives[|lives| - 1].resumes[p]
  }

  ghost predicate History(c: Config, logs: Topic, lives: seq<Life>) {
    lives == [] ||
    var earlier, l := lives[..|lives| - 1], lives[|lives| - 1];
    && History(c, logs, earlier) && Ran(c, logs, StoreAfter(earlier), l) && Covered(logs, l)
    && forall p :: 0 <= p < |logs| ==> l.offsets[p] <= ResumeAfter(earlier, p)
  }

  // ------------------------------------------------------------------ what a life receives

  /** Where a received trade comes from: a well-formed record handed to the consumer. */
  ghost predicate FromRecord(c: Config, st: seq<Record>, j: Job) {
    j.id < |st| && st[j.id].WellFormed? && j.event == c.enrich(st[j.id].event)
  }

  /** The writer received such trades, in the consumer's order. */
  ghost predicate InOrder(c: Config, st: seq<Record>, r: seq<Job>) {
    Increasing(r) && forall x :: 0 <= x < |r| ==> FromRecord(c, st, r[x])
  }

  /** What is known at the end of a life of a one-worker process. */
  ghost predicate EndFacts(c: Config, logs: Topic, store: Store, l: Life) {
    var s := l.end;
    && Redis.Inv(store, s) && Tracked(s) && Fed(logs, l)
    && InOrder(c, Stream(s.intake), s.sinks.redis.received)
  }

  lemma AcceptedFromRecord(c: Config, s: State, j: Job)
    requires Commit.Inv(s) && j in EnrichAll(c, s.pool.accepted)
    ensures FromRecord(c, Stream(s.intake), j)
  {
    var acc := s.pool.accepted;
    var x :| 0 <= x < |acc| && EnrichAll(c, acc)[x] == j;
    assert IsTrade(Stream(s.intake)[acc[x].id], acc[x].event);
  }

  lemma ReceivedFromRecord(c: Config, s: State, k: Sink, x: nat)
    requires Cons.Inv(c, s) && Commit.Inv(s) && x < |At(s.sinks, k).received|
    ensures FromRecord(c, Stream(s.intake), At(s.sinks, k).received[x])
  {
    Delivery.DistinctIds(c, s, k);
    assert Sent(s, k)[x] == At(s.sinks, k).received[x];
    AcceptedFromRecord(c, s, Sent(s, k)[x]);
  }

  lemma ReceivedInOrder(c: Config, store: Store, run: Run, s: State, k: Sink)
    requires c.poolSize == 1 && Exec(c, Init(c, store), run) == Some(s)
    ensures InOrder(c, Stream(s.intake), At(s.sinks, k).received)
  {
    var r := At(s.sinks, k).received;
    Cons.Conserved(c, store, run, s);
    Commit.Disciplined(c, store, run, s);
    Fifo.OneWorkerNeverReorders(c, store, run, s);
    assert forall x :: 0 <= x < |r| ==> r[x] == Sent(s, k)[x];
    forall x | 0 <= x < |r| ensures FromRecord(c, Stream(s.intake), r[x]) {
      ReceivedFromRecord(c, s, k, x);
    }
  }

  lemma LifeFacts(c: Config, logs: Topic, store: Store, l: Life)
    requires c.poolSize == 1 && Ran(c, logs, store, l)
    ensures EndFacts(c, logs, store, l)
  {
    Redis.Kept(c, store, l.run, l.end);
    Redis.TrackedAlways(c, store, l.run, l.end);
    ReceivedInOrder(c, store, l.run, l.end, ToRedis);
  }

  /** A trade of the symbol comes from its partition, from the symbol's last trade at the latest. */
  lemma FromHome(c: Config, logs: Topic, l: Life, symbol: Symbol, p: nat, j: Job)
    requires KeepsSymbol(c) && Fed(logs, l) && Home(logs, symbol, p)
    requires FromRecord(c, Stream(l.end.intake), j) && j.event.symbol == symbol
    ensures var o := Stream(l.end.intake)[j.id].offset;
            && IsAt(Stream(l.end.intake), j.id, p, o) && l.offsets[p] <= o < |logs[p]|
            && TradesIn(logs[p], o, symbol) && o <= LastTrade(logs[p], symbol)
            && j.event == c.enrich(logs[p][o].event)
  {
    var rec := Stream(l.end.intake)[j.id];
    assert InLog(logs, l.offsets, rec);
    assert TradesIn(logs[rec.partition], rec.offset, symbol);
  }

  lemma LaterOffset(st: seq<Record>, r: seq<Job>, x: nat, i: nat)
    requires forall a, b :: 0 <= a < b < |st| && st[a].partition == st[b].partition ==> st[a].offset < st[b].offset
    requires Increasing(r) && x <= i < |r| && r[x].id < |st| && r[i].id < |st|
    requires st[r[x].id].partition == st[r[i].id].partition
    ensures st[r[x].id].offset <= st[r[i].id].offset
  {
  }

  /** A key stamped at or after the last trade of its symbol comes from that last trade. */
  lemma FromLastTrade(c: Config, logs: Topic, l: Life, r: seq<Job>, symbol: Symbol, p: nat, x: nat, i: nat)
    requires KeepsSymbol(c) && Fed(logs, l) && Home(logs, symbol, p)
    requires InOrder(c, Stream(l.end.intake), r) && x <= i < |r| && r[i].event.symbol == symbol
    requires IsAt(Stream(l.end.intake), r[x].id, p, LastTrade(logs[p], symbol))
    ensures r[i].event == c.enrich(logs[p][LastTrade(logs[p], symbol)].event)
  {
    FromHome(c, logs, l, symbol, p, r[i]);
    LaterOffset(Stream(l.end.intake), r, x, i);
  }

  /** If the life stored the last trade of the symbol, that is what the keys show. */
  lemma SettledHere(c: Config, logs: Topic, store: Store, l: Life, symbol: Symbol, p: nat)
    requires KeepsSymbol(c) && EndFacts(c, logs, store, l) && Home(logs, symbol, p)
    requires LastTrade(logs[p], symbol) >= 0 && StoredAt(l, p, LastTrade(logs[p], symbol))
    ensures Settled(c, logs[p], l.end.writer.store, symbol)
  {
    var w, r, q := l.end.writer, l.end.sinks.redis.received, LastTrade(logs[p], symbol);
    var x :| x in w.stored && x < |r| && IsAt(Stream(l.end.intake), r[x].id, p, q);
    assert FromRecord(c, Stream(l.end.intake), r[x]) && InLog(logs, l.offsets, Stream(l.end.intake)[r[x].id]);
    assert r[x].event.symbol == symbol && Shown(w, r, x);
    assert LatestOk(store, w, r, symbol) && PriceOk(store, w, r, symbol);
    FromLastTrade(c, logs, l, r, symbol, p, x, w.latestAt[symbol]);
    FromLastTrade(c, logs, l, r, symbol, p, x, w.priceAt[symbol]);
  }

  /** A symbol that trades only before the offset is never stamped. */
  lemma NotStamped(c: Config, logs: Topic, store: Store, l: Life, symbol: Symbol, p: nat)
    requires KeepsSymbol(c) && EndFacts(c, logs, store, l) && Home(logs, symbol, p)
    requires LastTrade(logs[p], symbol) < l.offsets[p]
    ensures symbol !in l.end.writer.latestAt && symbol !in l.end.writer.priceAt
  {
    var w, r := l.end.writer, l.end.sinks.redis.received;
    assert LatestOk(store, w, r, symbol) && PriceOk(store, w, r, symbol);
    if symbol in w.latestAt {
      FromHome(c, logs, l, symbol, p, r[w.latestAt[symbol]]);
    }
  }

  /** If the symbol trades only before the life's offset, the life leaves its keys alone. */
  lemma SettledBefore(c: Config, logs: Topic, store: Store, l: Life, symbol: Symbol, p: nat)
    requires KeepsSymbol(c) && EndFacts(c, logs, store, l) && Home(logs, symbol, p)
    requires LastTrade(logs[p], symbol) < l.offsets[p] && Settled(c, logs[p], store, symbol)
    ensures Settled(c, logs[p], l.end.writer.store, symbol)
  {
    var w, r := l.end.writer, l.end.sinks.redis.received;
    NotStamped(c, logs, store, l, symbol, p);
    assert LatestOk(store, w, r, symbol) && PriceOk(store, w, r, symbol);
  }

  // ------------------------------------------------------------------ convergence

  /** After any history, every symbol without a trade at or past the resume point is settled. */
  lemma {:induction false} Progressed(c: Config, logs: Topic, lives: seq<Life>, symbol: Symbol, p: nat)
    requires c.poolSize == 1 && KeepsSymbol(c) && History(c, logs, lives) && Home(logs, symbol, p)
    requires LastTrade(logs[p], symbol) < ResumeAfter(lives, p)
    ensures Settled(c, logs[p], StoreAfter(lives), symbol)
  {
    if lives != [] {
      var earlier, l := lives[..|lives| - 1], lives[|lives| - 1];
      LifeFacts(c, logs, StoreAfter(earlier), l);
      if l.offsets[p] <= LastTrade(logs[p], symbol) {
        SettledHere(c, logs, StoreAfter(earlier), l, symbol, p);
      } else {
        Progressed(c, logs, earlier, symbol, p);
        SettledBefore(c, logs, StoreAfter(earlier), l, symbol, p);
      }
    }
  }

  /** Replay convergence: with one worker, after any finite number of crashes the latest-trade and
      price keys are those of the last trade of each symbol in the log of its partition. */
  lemma Converges(c: Config, logs: Topic, lives: seq<Life>, symbol: Symbol, p: nat)
    requires c.poolSize == 1 && KeepsSymbol(c) && History(c, logs, lives) && Home(logs, symbol, p)
    requires ResumeAfter(lives, p) == |logs[p]|
    ensures Settled(c, logs[p], StoreAfter(lives), symbol)
  {
    Progressed(c, logs, lives, symbol, p);
  }

  /** So any two histories agree on both keys, one with crashes and one without in particular. */
  lemma CrashesLeaveNoTrace(c: Config, logs: Topic, crashing: seq<Life>, clean: seq<Life>, symbol: Symbol, p: nat)
    requires c.poolSize == 1 && KeepsSymbol(c) && Home(logs, symbol, p)
    requires History(c, logs, crashing) && ResumeAfter(crashing, p) == |logs[p]|
    requires History(c, logs, clean) && ResumeAfter(clean, p) == |logs[p]|
    ensures Read(StoreAfter(crashing), LatestTrade(symbol)) == Read(StoreAfter(clean), LatestTrade(symbol))
    ensures Read(StoreAfter(crashing), Price(symbol)) == Read(StoreAfter(clean), Price(symbol))
  {
    Converges(c, logs, crashing, symbol, p);
    Converges(c, logs, clean, symbol, p);
  }

  // ------------------------------------------------------------------ resuming at the marks

  /** The marks of partition p end right before offset `to`; there are none if it is `from`. */
  ghost predicate MarksEnd(i: Intake, p: nat, from: nat, to: nat) {
    && from <= to
    && (forall m :: m in i.marked && m < |i.dispatched| && i.dispatched[m].partition == p ==> i.dispatched[m].offset < to)
    && (from < to ==> exists m :: m in i.marked && IsAt(i.dispatched, m, p, to - 1))
  }

  /** Each life starts where the marks of its predecessor end, partition by partition. */
  ghost predicate MarkHistory(c: Config, logs: Topic, lives: seq<Life>) {
    lives == [] ||
    var earlier, l := lives[..|lives| - 1], lives[|lives| - 1];
    && MarkHistory(c, logs, earlier) && Ran(c, logs, StoreAfter(earlier), l) && HandsOver(logs, l)
    && forall p :: 0 <= p < |logs| ==> l.offsets[p] == ResumeAfter(earlier, p)
  }

  ghost predicate HandsOver(logs: Topic, l: Life) {
    && |l.offsets| == |logs| && |l.resumes| == |logs|
    && forall p :: 0 <= p < |logs| ==> MarksEnd(l.end.intake, p, l.offsets[p], l.resumes[p])
  }

  lemma MarkHistoryPush(c: Config, logs: Topic, earlier: seq<Life>, l: Life)
    requires MarkHistory(c, logs, earlier) && Ran(c, logs, StoreAfter(earlier), l) && HandsOver(logs, l)
    requires forall p :: 0 <= p < |logs| ==> l.offsets[p] == ResumeAfter(earlier, p)
    ensures MarkHistory(c, logs, earlier + [l])
  {
    assert (earlier + [l])[..|earlier|] == earlier;
  }

  /** The life moves partition p past offset o. */
  ghost predicate Passes(l: Life, p: nat, o: int) {
    p < |l.offsets| && p < |l.resumes| && l.offsets[p] <= o < l.resumes[p]
  }

  /** And without having stored the trade there. */
  ghost predicate SkippedAt(l: Life, p: nat, o: int) {
    exists m :: m in Delivery.Skipped(l.end) && IsAt(l.end.intake.dispatched, m, p, o)
  }

  ghost predicate KeptBy(l: Life, p: nat, o: int) { Passes(l, p, o) && !SkippedAt(l, p, o) }

  /** A passed record was dispatched, and a record of its partition at or after it is marked. */
  lemma PassedRecord(logs: Topic, l: Life, p: nat, o: int) returns (x: nat)
    requires Fed(logs, l) && Commit.Inv(l.end) && p < |logs| && |l.resumes| == |logs| && Passes(l, p, o)
    requires MarksEnd(l.end.intake, p, l.offsets[p], l.resumes[p])
    ensures IsAt(l.end.intake.dispatched, x, p, o) && Delivery.Passed(l.end.intake, x)
    ensures o < |logs[p]| && l.end.intake.dispatched[x] == logs[p][o]
  {
    var i, st := l.end.intake, Stream(l.end.intake);
    var m :| m in i.marked && IsAt(i.dispatched, m, p, l.resumes[p] - 1);
    assert st[m] == i.dispatched[m] && InLog(logs, l.offsets, st[m]);
    if o == l.resumes[p] - 1 {
      x := m;
    } else {
      assert HasRecord(st, p, o);
      x :| IsAt(st, x, p, o);
      assert x < m;
    }
    assert InLog(logs, l.offsets, st[x]);
  }

  lemma KeptIsStored(logs: Topic, l: Life, symbol: Symbol, p: nat, o: int)
    requires Fed(logs, l) && Commit.Inv(l.end) && p < |logs| && |l.resumes| == |logs| && KeptBy(l, p, o)
    requires MarksEnd(l.end.intake, p, l.offsets[p], l.resumes[p])
    requires 0 <= o < |logs[p]| && TradesIn(logs[p], o, symbol)
    ensures StoredAt(l, p, o)
  {
    var r := l.end.sinks.redis.received;
    var x := PassedRecord(logs, l, p, o);
    assert x !in Delivery.Skipped(l.end);
    assert x in Delivery.StoredIds(l.end);
    var t :| t in l.end.writer.stored && t < |r| && r[t].id == x;
    assert Stream(l.end.intake)[x] == l.end.intake.dispatched[x];
  }

  lemma {:induction false} ResumesGrow(c: Config, logs: Topic, lives: seq<Life>, i: nat, p: nat)
    requires MarkHistory(c, logs, lives) && i < |lives| && p < |logs|
    ensures |lives[i].resumes| == |logs| && lives[i].resumes[p] <= ResumeAfter(lives, p)
  {
    if i < |lives| - 1 {
      ResumesGrow(c, logs, lives[..|lives| - 1], i, p);
    }
  }

  /** A symbol is settled if some life passed its last trade without skipping it. */
  lemma {:induction false} KeptSettles(c: Config, logs: Topic, lives: seq<Life>, symbol: Symbol, p: nat, i: nat)
    requires c.poolSize == 1 && KeepsSymbol(c) && MarkHistory(c, logs, lives) && Home(logs, symbol, p)
    requires LastTrade(logs[p], symbol) >= 0 && i < |lives| && KeptBy(lives[i], p, LastTrade(logs[p], symbol))
    ensures Settled(c, logs[p], StoreAfter(lives), symbol)
  {
    var earlier, l := lives[..|lives| - 1], lives[|lives| - 1];
    LifeFacts(c, logs, StoreAfter(earlier), l);
    if i == |lives| - 1 {
      Commit.Disciplined(c, StoreAfter(earlier), l.run, l.end);
      KeptIsStored(logs, l, symbol, p, LastTrade(logs[p], symbol));
      SettledHere(c, logs, StoreAfter(earlier), l, symbol, p);
    } else {
      assert earlier[i] == lives[i];
      KeptSettles(c, logs, earlier, symbol, p, i);
      ResumesGrow(c, logs, earlier, i, p);
      SettledBefore(c, logs, StoreAfter(earlier), l, symbol, p);
    }
  }

  /** A symbol that never trades is settled: nobody sets its keys. */
  lemma {:induction false} SilentSettles(c: Config, logs: Topic, lives: seq<Life>, symbol: Symbol, p: nat)
    requires c.poolSize == 1 && KeepsSymbol(c) && MarkHistory(c, logs, lives) && Home(logs, symbol, p)
    requires LastTrade(logs[p], symbol) < 0
    ensures Settled(c, logs[p], StoreAfter(lives), symbol)
  {
    if lives != [] {
      var earlier, l := lives[..|lives| - 1], lives[|lives| - 1];
      LifeFacts(c, logs, StoreAfter(earlier), l);
      SilentSettles(c, logs, earlier, symbol, p);
      SettledBefore(c, logs, StoreAfter(earlier), l, symbol, p);
    }
  }

  /** The price comes from trade t that this life stored. */
  ghost predicate PriceFrom(l: Life, symbol: Symbol, t: nat, value: Value) {
    var r := l.end.sinks.redis.received;
    t in l.end.writer.stored && t < |r| && r[t].event.symbol == symbol && value == PriceText(r[t].event.price)
  }

  /** A price key comes from a trade that some life stored, whatever the pool. */
  lemma {:induction false} PriceOrigin(c: Config, logs: Topic, lives: seq<Life>, symbol: Symbol) returns (i: nat, t: nat)
    requires MarkHistory(c, logs, lives) && Price(symbol) in StoreAfter(lives)
    ensures i < |lives| && PriceFrom(lives[i], symbol, t, StoreAfter(lives)[Price(symbol)])
  {
    var earlier, l := lives[..|lives| - 1], lives[|lives| - 1];
    Redis.Kept(c, StoreAfter(earlier), l.run, l.end);
    Redis.PricesStoredAlways(c, StoreAfter(earlier), l.run, l.end);
    assert PriceOk(StoreAfter(earlier), l.end.writer, l.end.sinks.redis.received, symbol);
    if symbol in l.end.writer.priceAt {
      i, t := |lives| - 1, l.end.writer.priceAt[symbol];
    } else {
      i, t := PriceOrigin(c, logs, earlier, symbol);
    }
  }

  /** No life ends with a trade of the symbol enqueued and not marked. */
  ghost predicate NoneInSubmit(lives: seq<Life>, symbol: Symbol) {
    forall i :: 0 <= i < |lives| ==> SubmitsOther(lives[i].end.intake, symbol)
  }

  predicate SubmitsOther(i: Intake, symbol: Symbol) {
    Delivery.InSubmit(i) && i.phase.rest != [] ==> !TradesIn(i.phase.rest, 0, symbol)
  }

  /** Among the symbol's trades only the last one has its price. */
  ghost predicate LastPriceUnique(c: Config, log: seq<Record>, symbol: Symbol) {
    var q := LastTrade(log, symbol);
    forall o :: 0 <= o < |log| && TradesIn(log, o, symbol) && o != q ==>
                  c.enrich(log[o].event).price != c.enrich(log[q].event).price
  }

  lemma {:induction false} RanIn(c: Config, logs: Topic, lives: seq<Life>, i: nat)
    requires MarkHistory(c, logs, lives) && i < |lives|
    ensures Ran(c, logs, StoreAfter(lives[..i]), lives[i]) && HandsOver(logs, lives[i])
    decreases |lives|
  {
    if i < |lives| - 1 {
      RanIn(c, logs, lives[..|lives| - 1], i);
      assert lives[..|lives| - 1][..i] == lives[..i];
    }
  }

  /** A stored trade that is not in Submit is marked: its life passed it, and did not skip it. */
  lemma StoredIsKept(c: Config, logs: Topic, l: Life, symbol: Symbol, p: nat, t: nat)
    requires Fed(logs, l) && Commit.Inv(l.end) && KeepsSymbol(c) && Home(logs, symbol, p) && |l.resumes| == |logs|
    requires MarksEnd(l.end.intake, p, l.offsets[p], l.resumes[p]) && SubmitsOther(l.end.intake, symbol)
    requires t in l.end.writer.stored && t < |l.end.sinks.redis.received|
    requires var j := l.end.sinks.redis.received[t];
             j.event.symbol == symbol && FromRecord(c, Stream(l.end.intake), j) && j.id in Delivery.Ids(l.end.pool.accepted)
    ensures KeptBy(l, p, Stream(l.end.intake)[l.end.sinks.redis.received[t].id].offset)
  {
    var i, st, j := l.end.intake, Stream(l.end.intake), l.end.sinks.redis.received[t];
    FromHome(c, logs, l, symbol, p, j);
    Delivery.MarkedOrSubmitting(l.end, j.id);
    assert Delivery.InSubmit(i) ==> st[|i.dispatched|] == i.phase.rest[0];
    assert j.id in Delivery.StoredIds(l.end);
    forall m | IsAt(i.dispatched, m, p, st[j.id].offset) ensures m == j.id {
      assert st[m] == i.dispatched[m];
    }
  }

  /** A settled symbol's last trade was passed by some life without being skipped. */
  lemma SettledWasKept(c: Config, logs: Topic, lives: seq<Life>, symbol: Symbol, p: nat) returns (i: nat)
    requires KeepsSymbol(c) && MarkHistory(c, logs, lives) && Home(logs, symbol, p) && NoneInSubmit(lives, symbol)
    requires LastTrade(logs[p], symbol) >= 0 && LastPriceUnique(c, logs[p], symbol)
    requires Settled(c, logs[p], StoreAfter(lives), symbol)
    ensures i < |lives| && KeptBy(lives[i], p, LastTrade(logs[p], symbol))
  {
    var t: nat;
    i, t := PriceOrigin(c, logs, lives, symbol);
    var l := lives[i];
    RanIn(c, logs, lives, i);
    Cons.Conserved(c, StoreAfter(lives[..i]), l.run, l.end);
    Commit.Disciplined(c, StoreAfter(lives[..i]), l.run, l.end);
    ReceivedFromRecord(c, l.end, ToRedis, t);
    ReceivedAccepted(c, l.end, t);
    FromHome(c, logs, l, symbol, p, l.end.sinks.redis.received[t]);
    StoredIsKept(c, logs, l, symbol, p, t);
  }

  lemma ReceivedAccepted(c: Config, s: State, t: nat)
    requires Cons.Inv(c, s) && Commit.Inv(s) && t < |s.sinks.redis.received|
    ensures s.sinks.redis.received[t].id in Delivery.Ids(s.pool.accepted)
  {
    Delivery.IdsAtReceived(c, s, {t});
    assert s.sinks.redis.received[t].id in Delivery.IdsAt(s.sinks.redis.received, {t});
  }

  /** Resuming at the marks, exactly. With one worker and whatever sets fail, a symbol ends settled
      if and only if it never trades, or some life moved its partition past its last trade and did
      not skip it: neither refused it below a later mark, nor left it under way, nor failed to set
      one of its keys. */
  lemma MarksSettleExactly(c: Config, logs: Topic, lives: seq<Life>, symbol: Symbol, p: nat)
    requires c.poolSize == 1 && KeepsSymbol(c) && MarkHistory(c, logs, lives) && Home(logs, symbol, p)
    requires NoneInSubmit(lives, symbol)
    requires LastTrade(logs[p], symbol) >= 0 ==> LastPriceUnique(c, logs[p], symbol)
    ensures Settled(c, logs[p], StoreAfter(lives), symbol) <==>
              LastTrade(logs[p], symbol) < 0
              || exists i :: 0 <= i < |lives| && KeptBy(lives[i], p, LastTrade(logs[p], symbol))
  {
    var q := LastTrade(logs[p], symbol);
    if q < 0 {
      SilentSettles(c, logs, lives, symbol, p);
    } else if Settled(c, logs[p], StoreAfter(lives), symbol) {
      var i := SettledWasKept(c, logs, lives, symbol, p);
    } else if i :| 0 <= i < |lives| && KeptBy(lives[i], p, q) {
      KeptSettles(c, logs, lives, symbol, p, i);
    }
  }
}
