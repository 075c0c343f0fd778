/** The order books as readers see them while the single keeper goroutine updates them. */
module Snapshots {
  import opened Trades
  import opened OrderBooks
  import opened Processor

  /** Although Apply is a Get and a later Update, the map is always the fold over a prefix of the
      received trades, and the book the keeper read is still the current one. */
  ghost predicate KeeperOk(k: Keeper, r: seq<Job>, applied: seq<Job>) {
    && k.data == Fold(map[], Events(applied))
    && (k.phase.KeeperHas? || k.phase.KeeperRead? ==>
          r != [] && k.phase.event == r[|r| - 1].event)
    && (k.phase.KeeperRead? ==> k.phase.book == BookOf(k.data, k.phase.event.symbol))
  }

  ghost predicate Inv(s: State) { KeeperOk(s.keeper, s.sinks.book.received, AppliedTrades(s)) }

  lemma FoldPush(js: seq<Job>, j: Job)
    ensures Fold(map[], Events(js + [j])) == Applied(Fold(map[], Events(js)), j.event)
  {
    assert Events(js + [j]) == Events(js) + [j.event];
    assert (Events(js) + [j.event])[..|js|] == Events(js);
  }

  lemma UpdateKeeps(k: Keeper, r: seq<Job>)
    requires r != [] && k.phase.KeeperRead? && KeeperOk(k, r, r[..|r| - 1])
    ensures k.data[k.phase.event.symbol := ApplyTo(k.phase.book, k.phase.event)] == Fold(map[], Events(r))
  {
    var n := |r| - 1;
    assert r == r[..n] + [r[n]];
    FoldPush(r[..n], r[n]);
  }

  lemma KeeperKeeps(s: State, a: KeeperStep, t: State)
    requires Inv(s) && KeeperDo(s, a) == Some(t)
    ensures Inv(t)
    ensures AppliedTrades(s) <= AppliedTrades(t)
    ensures s.sinks.book.received <= t.sinks.book.received
  {
    var k, r := s.keeper, s.sinks.book.received;
    if k.phase.KeeperRead? {
      UpdateKeeps(k, r);
    } else {
      assert AppliedTrades(t) == AppliedTrades(s);
    }
  }

  lemma OthersKeep(s: State, t: State)
    requires Inv(s) && t.keeper == s.keeper && t.sinks.book.received == s.sinks.book.received
    ensures Inv(t) && AppliedTrades(s) == AppliedTrades(t)
  {
  }

  lemma StepKeeps(c: Config, s: State, step: Step, t: State)
    requires Inv(s) && Do(c, s, step) == Some(t)
    ensures Inv(t)
    ensures AppliedTrades(s) <= AppliedTrades(t)
    ensures s.sinks.book.received <= t.sinks.book.received
  {
    if step.ByKeeper? {
      KeeperKeeps(s, step.k, t);
    } else {
      Frame(c, s, step, t);
      OthersKeep(s, t);
    }
  }

  lemma {:induction false} Kept(c: Config, store: Store, run: Run, s: State)
    requires Exec(c, Init(c, store), run) == Some(s)
    ensures Inv(s)
  {
    match run
    case Begin =>
    case Then(before, step) =>
      var mid := Exec(c, Init(c, store), before).value;
      Kept(c, store, before, mid);
      StepKeeps(c, mid, step, s);
  }

  /** From one point of a run to a later one the applied prefix only grows. */
  lemma {:induction false} Grows(c: Config, s: State, run: Run, t: State)
    requires Inv(s) && Exec(c, s, run) == Some(t)
    ensures Inv(t)
    ensures AppliedTrades(s) <= AppliedTrades(t)
    ensures s.sinks.book.received <= t.sinks.book.received
  {
    if run.Then? {
      var mid := Exec(c, s, run.before).value;
      Grows(c, s, run.before, mid);
      StepKeeps(c, mid, run.step, t);
    }
  }

  /** Linearizability of reads. A Get at state s, and one at any later state t, each return the
      book left by a prefix of the trades received; the second prefix extends the first. */
  lemma Linearizable(c: Config, store: Store, run: Run, s: State, more: Run, t: State, symbol: Symbol)
    requires Exec(c, Init(c, store), run) == Some(s) && Exec(c, s, more) == Some(t)
    ensures AppliedTrades(s) <= AppliedTrades(t) <= t.sinks.book.received
    ensures |s.sinks.book.received| <= |AppliedTrades(s)| + 1
    ensures Find(s.keeper.data, symbol) == ExpectedBook(Events(AppliedTrades(s)), symbol)
    ensures Find(t.keeper.data, symbol) == ExpectedBook(Events(AppliedTrades(t)), symbol)
  {
    Kept(c, store, run, s);
    Grows(c, s, more, t);
    FoldMeaning(Events(AppliedTrades(s)), symbol);
    FoldMeaning(Events(AppliedTrades(t)), symbol);
  }
}
