/** The order books of a restarted process. They start empty, so what a process knows of a symbol is
    what it was handed since its own offset. */
module Restarts {
  import opened Trades
  import opened OrderBooks
  import opened Processor
  import opened Commit
  import opened Redis
  import opened Replay
  import Cons = Conservation
  import Progress
  import Snapshots

  // ------------------------------------------------------------------ last hits in a log

  predicate Hits(c: Config, rec: Record, f: TradeEvent -> bool) { rec.WellFormed? && f(c.enrich(rec.event)) }

  /** The position of the last record whose enriched trade satisfies f, or -1. */
  function LastHit(c: Config, log: seq<Record>, f: TradeEvent -> bool): (r: int)
    ensures -1 <= r < |log|
    ensures r >= 0 ==> Hits(c, log[r], f)
    ensures forall i :: r < i < |log| ==> !Hits(c, log[i], f)
  {
    if log == [] then -1
    else if Hits(c, log[|log| - 1], f) then |log| - 1
    else LastHit(c, log[..|log| - 1], f)
  }

  /** The trade is not lost to a process that starts at `to` instead of `from`. */
  predicate KeptAcross(h: int, from: int, to: int) { h < from || h >= to }

  ghost predicate BooksKept(c: Config, log: seq<Record>, symbol: Symbol, from: int, to: int) {
    && KeptAcross(LastHit(c, log, OfSymbol(symbol)), from, to)
    && KeptAcross(LastHit(c, log, OnSide(symbol, Buy)), from, to)
    && KeptAcross(LastHit(c, log, OnSide(symbol, Sell)), from, to)
  }

  // ------------------------------------------------------------------ a life that has caught up

  /** Partition p has been dispatched to its end, and everything submitted has been processed. */
  ghost predicate CaughtUp(c: Config, logs: Topic, store: Store, l: Life, p: nat) {
    && Ran(c, logs, store, l) && !l.end.cancelled && Progress.Drained(l.end) && p < |logs|
    && forall o: int :: l.offsets[p] <= o < |logs[p]| ==> HasRecord(l.end.intake.dispatched, p, o)
  }

  ghost predicate Selects(f: TradeEvent -> bool, symbol: Symbol) { forall e :: f(e) ==> e.symbol == symbol }

  /** The keeper was given the trade of every dispatched well-formed record. */
  lemma Delivered(c: Config, s: State, x: nat) returns (t: nat)
    requires Cons.Inv(c, s) && Commit.Inv(s) && Progress.Drained(s) && !s.cancelled
    requires x < |s.intake.dispatched| && s.intake.dispatched[x].WellFormed?
    ensures t < |s.sinks.book.received| && s.sinks.book.received[t].id == x
    ensures s.sinks.book.received[t].event == c.enrich(s.intake.dispatched[x].event)
  {
    var acc, r := s.pool.accepted, s.sinks.book.received;
    Progress.DrainedDelivers(c, s, ToBook);
    assert HasId(acc, x);
    var a :| 0 <= a < |acc| && acc[a].id == x;
    assert IsTrade(Stream(s.intake)[x], acc[a].event) && Stream(s.intake)[x] == s.intake.dispatched[x];
    var j := EnrichAll(c, acc)[a];
    assert j in multiset(EnrichAll(c, acc));
    assert j in multiset(r);
    t :| 0 <= t < |r| && r[t] == j;
  }

  /** What is known of a life that has caught up. */
  ghost predicate BookFacts(c: Config, logs: Topic, l: Life) {
    var s := l.end;
    && Fed(logs, l) && Cons.Inv(c, s) && Commit.Inv(s)
    && InOrder(c, Stream(s.intake), s.sinks.book.received)
    && s.keeper.data == Fold(map[], Events(s.sinks.book.received))
  }

  lemma CaughtUpFacts(c: Config, logs: Topic, store: Store, l: Life, p: nat)
    requires c.poolSize == 1 && CaughtUp(c, logs, store, l, p)
    ensures BookFacts(c, logs, l)
  {
    Cons.Conserved(c, store, l.run, l.end);
    Commit.Disciplined(c, store, l.run, l.end);
    ReceivedInOrder(c, store, l.run, l.end, ToBook);
    Snapshots.Kept(c, store, l.run, l.end);
  }

  /** A trade of the symbol that the keeper got is a hit at or after the offset. */
  lemma HitAt(c: Config, logs: Topic, l: Life, symbol: Symbol, p: nat, f: TradeEvent -> bool, i: nat)
    requires BookFacts(c, logs, l) && KeepsSymbol(c) && Home(logs, symbol, p) && Selects(f, symbol)
    requires i < |l.end.sinks.book.received| && f(l.end.sinks.book.received[i].event)
    ensures var j := l.end.sinks.book.received[i];
            var o := Stream(l.end.intake)[j.id].offset;
            && IsAt(Stream(l.end.intake), j.id, p, o) && l.offsets[p] <= o <= LastHit(c, logs[p], f)
            && j.event == c.enrich(logs[p][o].event)
  {
    var j := l.end.sinks.book.received[i];
    FromHome(c, logs, l, symbol, p, j);
    assert Hits(c, logs[p][Stream(l.end.intake)[j.id].offset], f);
  }

  /** The keeper got the trade of every well-formed record of the partition from the offset on. */
  lemma HitDelivered(c: Config, logs: Topic, store: Store, l: Life, p: nat, o: nat) returns (t: nat)
    requires BookFacts(c, logs, l) && CaughtUp(c, logs, store, l, p)
    requires l.offsets[p] <= o < |logs[p]| && logs[p][o].WellFormed?
    ensures t < |l.end.sinks.book.received| && l.end.sinks.book.received[t].event == c.enrich(logs[p][o].event)
    ensures IsAt(Stream(l.end.intake), l.end.sinks.book.received[t].id, p, o)
  {
    var dispatched, st := l.end.intake.dispatched, Stream(l.end.intake);
    assert HasRecord(dispatched, p, o);
    var x :| IsAt(dispatched, x, p, o);
    assert st[x] == dispatched[x] && InLog(logs, l.offsets, st[x]);
    t := Delivered(c, l.end, x);
  }

  /** The last hit among what the keeper got is the last hit in the log, if the life got that far back. */
  lemma LastReceived(c: Config, logs: Topic, store: Store, l: Life, symbol: Symbol, p: nat, f: TradeEvent -> bool)
    requires BookFacts(c, logs, l) && CaughtUp(c, logs, store, l, p)
    requires KeepsSymbol(c) && Home(logs, symbol, p) && Selects(f, symbol)
    ensures var ev, h := Events(l.end.sinks.book.received), LastHit(c, logs[p], f);
            && (Last(ev, f) >= 0 <==> h >= l.offsets[p])
            && (h >= l.offsets[p] ==> ev[Last(ev, f)] == c.enrich(logs[p][h].event))
  {
    var r, st, h := l.end.sinks.book.received, Stream(l.end.intake), LastHit(c, logs[p], f);
    var ev := Events(r);
    var i := Last(ev, f);
    if i >= 0 && h < l.offsets[p] {
      HitAt(c, logs, l, symbol, p, f, i);
    }
    if h >= l.offsets[p] {
      var t := HitDelivered(c, logs, store, l, p, h);
      assert f(ev[t]);
      HitAt(c, logs, l, symbol, p, f, i);
      LaterOffset(st, r, t, i);
    }
  }

  // ------------------------------------------------------------------ two lives

  /** Two processes that have caught up, one started at an earlier offset than the other. */
  ghost predicate Pair(c: Config, logs: Topic, one: Store, l: Life, two: Store, m: Life, symbol: Symbol, p: nat) {
    && CaughtUp(c, logs, one, l, p) && BookFacts(c, logs, l) && CaughtUp(c, logs, two, m, p) && BookFacts(c, logs, m)
    && KeepsSymbol(c) && Home(logs, symbol, p) && l.offsets[p] <= m.offsets[p]
  }

  lemma SameTop(c: Config, logs: Topic, one: Store, l: Life, two: Store, m: Life, symbol: Symbol, p: nat, side: Side)
    requires Pair(c, logs, one, l, two, m, symbol, p)
    ensures TopLevel(Events(l.end.sinks.book.received), symbol, side) == TopLevel(Events(m.end.sinks.book.received), symbol, side)
            <==> KeptAcross(LastHit(c, logs[p], OnSide(symbol, side)), l.offsets[p], m.offsets[p])
  {
    LastReceived(c, logs, one, l, symbol, p, OnSide(symbol, side));
    LastReceived(c, logs, two, m, symbol, p, OnSide(symbol, side));
  }

  lemma SameExpectation(c: Config, logs: Topic, one: Store, l: Life, two: Store, m: Life, symbol: Symbol, p: nat)
    requires Pair(c, logs, one, l, two, m, symbol, p)
    ensures ExpectedBook(Events(l.end.sinks.book.received), symbol) == ExpectedBook(Events(m.end.sinks.book.received), symbol)
            <==> BooksKept(c, logs[p], symbol, l.offsets[p], m.offsets[p])
  {
    var a, b := Events(l.end.sinks.book.received), Events(m.end.sinks.book.received);
    LastReceived(c, logs, one, l, symbol, p, OfSymbol(symbol));
    LastReceived(c, logs, two, m, symbol, p, OfSymbol(symbol));
    SameTop(c, logs, one, l, two, m, symbol, p, Buy);
    SameTop(c, logs, one, l, two, m, symbol, p, Sell);
    SideNeedsSymbol(a, symbol, Buy);
    SideNeedsSymbol(a, symbol, Sell);
    SideNeedsSymbol(b, symbol, Buy);
    SideNeedsSymbol(b, symbol, Sell);
  }

  /** Two processes over the same topic, each caught up, have the same book of a symbol exactly when
      the symbol's last trade, last buy and last sell are all before the earlier start or not before
      the later one. */
  lemma RestartedBooksExactly(c: Config, logs: Topic, one: Store, l: Life, two: Store, m: Life, symbol: Symbol, p: nat)
    requires c.poolSize == 1 && KeepsSymbol(c) && Home(logs, symbol, p)
    requires CaughtUp(c, logs, one, l, p) && CaughtUp(c, logs, two, m, p) && l.offsets[p] <= m.offsets[p]
    ensures Find(l.end.keeper.data, symbol) == Find(m.end.keeper.data, symbol)
            <==> BooksKept(c, logs[p], symbol, l.offsets[p], m.offsets[p])
  {
    CaughtUpFacts(c, logs, one, l, p);
    CaughtUpFacts(c, logs, two, m, p);
    FoldMeaning(Events(l.end.sinks.book.received), symbol);
    FoldMeaning(Events(m.end.sinks.book.received), symbol);
    SameExpectation(c, logs, one, l, two, m, symbol, p);
  }

  // ------------------------------------------------------------------ the stored snapshots

  /** The stored snapshot was read after the symbol's last trade had been applied. */
  ghost predicate FreshSnapshot(s: State, symbol: Symbol) {
    symbol in s.writer.snapshotAt
    && Last(Events(s.sinks.book.received), OfSymbol(symbol)) < s.writer.snapshotAt[symbol]
  }

  lemma LastOfPrefix(events: seq<TradeEvent>, n: nat, f: TradeEvent -> bool)
    requires n <= |events| && Last(events, f) < n
    ensures Last(events[..n], f) == Last(events, f)
  {
    var i := Last(events, f);
    if i >= 0 {
      LastAt(events[..n], f, i);
    }
  }

  lemma SamePrefixBook(events: seq<TradeEvent>, n: nat, symbol: Symbol)
    requires n <= |events| && Last(events, OfSymbol(symbol)) < n
    ensures ExpectedBook(events[..n], symbol) == ExpectedBook(events, symbol)
  {
    SideNeedsSymbol(events, symbol, Buy);
    SideNeedsSymbol(events, symbol, Sell);
    LastOfPrefix(events, n, OfSymbol(symbol));
    LastOfPrefix(events, n, OnSide(symbol, Buy));
    LastOfPrefix(events, n, OnSide(symbol, Sell));
  }

  /** Such a snapshot is the current book. */
  lemma FreshIsCurrent(before: Store, s: State, symbol: Symbol)
    requires Redis.Inv(before, s) && s.keeper.phase.KeeperIdle? && FreshSnapshot(s, symbol)
    requires s.keeper.data == Fold(map[], Events(s.sinks.book.received))
    ensures symbol in s.keeper.data
    ensures Read(s.writer.store, Snapshot(symbol)) == Some(BookJson(s.keeper.data[symbol]))
  {
    var ev, n := Events(s.sinks.book.received), s.writer.snapshotAt[symbol];
    assert AppliedTrades(s) == s.sinks.book.received;
    assert SnapshotOk(before, s.writer, ev, symbol);
    SamePrefixBook(ev, n, symbol);
    FoldMeaning(ev, symbol);
    FoldMeaning(ev[..n], symbol);
  }

  /** So the order-book key after a restart equals the one before exactly under the same condition. */
  lemma RestartedSnapshotExactly(c: Config, logs: Topic, one: Store, l: Life, two: Store, m: Life, symbol: Symbol, p: nat)
    requires c.poolSize == 1 && KeepsSymbol(c) && Home(logs, symbol, p)
    requires CaughtUp(c, logs, one, l, p) && CaughtUp(c, logs, two, m, p) && l.offsets[p] <= m.offsets[p]
    requires FreshSnapshot(l.end, symbol) && FreshSnapshot(m.end, symbol)
    ensures Read(l.end.writer.store, Snapshot(symbol)) == Read(m.end.writer.store, Snapshot(symbol))
            <==> BooksKept(c, logs[p], symbol, l.offsets[p], m.offsets[p])
  {
    CaughtUpFacts(c, logs, one, l, p);
    CaughtUpFacts(c, logs, two, m, p);
    Redis.Kept(c, one, l.run, l.end);
    Redis.Kept(c, two, m.run, m.end);
    FreshIsCurrent(one, l.end, symbol);
    FreshIsCurrent(two, m.end, symbol);
    RestartedBooksExactly(c, logs, one, l, two, m, symbol, p);
  }
}
