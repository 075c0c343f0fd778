/** The main results, over every run of the service from a fresh start. */
module Pipeline {
  import opened Trades
  import opened Processor
  import opened Conservation
  import opened Progress
  import Commit
  import Delivery
  import Fifo
  import Redis

  /** Some run of a process started over `store` ends in s. */
  ghost predicate Reachable(c: Config, store: Store, s: State) {
    exists run :: Exec(c, Init(c, store), run) == Some(s)
  }

  ghost predicate AllInv(c: Config, s: State) { Conservation.Inv(c, s) && Commit.Inv(s) && Alive(s) }

  lemma ReachableInv(c: Config, store: Store, s: State)
    requires Reachable(c, store, s)
    ensures AllInv(c, s)
  {
    var run :| Exec(c, Init(c, store), run) == Some(s);
    Conserved(c, store, run, s);
    Commit.Disciplined(c, store, run, s);
    StaysAlive(c, store, run, s);
  }

  /** Conservation, trade by trade. */
  lemma EveryTradeAccounted(c: Config, store: Store, s: State, x: nat)
    requires Reachable(c, store, s) && x < |s.pool.accepted|
    ensures Delivery.Accounted(c, s, Enriched(c, s.pool.accepted[x]))
  {
    ReachableInv(c, store, s);
    Delivery.AccountedOnce(c, s, x);
  }

  /** Capacities, delivery lag, skew between sinks and the at-risk window before cancellation. */
  lemma WindowsBeforeCancellation(c: Config, store: Store, s: State, k: Sink, l: Sink)
    requires Reachable(c, store, s) && !s.cancelled
    ensures Delivery.Windowed(c, s, k, l)
    ensures |Delivery.AtRisk(s)| <= 2 * c.poolSize + c.bufferSize + 1
  {
    ReachableInv(c, store, s);
    Delivery.Windows(c, s, k, l);
    Delivery.AtRiskWindow(c, s);
  }

  /** What a restart at the end of the marks skips, exactly, in every reachable state. So unless a
      trade is enqueued and not marked yet, a commit of the marks is safe if and only if nothing is
      on the way to Redis or abandoned before it, no set has failed and none is being made, and no
      refused trade lies below a mark of its partition. */
  lemma RestartSkips(c: Config, store: Store, s: State)
    requires Reachable(c, store, s)
    ensures Delivery.LostCount(s) && Delivery.AtRiskCount(s) && Delivery.SkippedCount(s)
    ensures Delivery.Skipped(s) == Delivery.Lost(s) + Delivery.RefusedBelow(s.intake)
    ensures !Delivery.InSubmit(s.intake) ==>
              (Delivery.Skipped(s) == {} <==>
                 Delivery.UnderWay(s.pool, s.sinks.redis) == 0 && s.writer.failed == {}
                 && !s.writer.phase.BeforeLatest? && !s.writer.phase.BeforePrice?
                 && Delivery.RefusedBelow(s.intake) == {})
  {
    ReachableInv(c, store, s);
    var run :| Exec(c, Init(c, store), run) == Some(s);
    Redis.Kept(c, store, run, s);
    Redis.TrackedAlways(c, store, run, s);
    Delivery.LostExactly(c, store, s);
    Delivery.SkippedExactly(c, store, s);
    Delivery.AtRiskExactly(c, s);
  }

  /** For any pool, a sink has been sent a permutation of the dequeued prefix, less at most
      poolSize trades still in workers' hands. */
  lemma PermutedPrefix(c: Config, store: Store, s: State, k: Sink)
    requires Reachable(c, store, s) && !s.cancelled
    ensures |s.pool.jobs| <= |s.pool.accepted|
    ensures multiset(Sent(s, k)) <= multiset(Fifo.Dequeued(c, s.pool))
    ensures |Fifo.Dequeued(c, s.pool)| <= |Sent(s, k)| + c.poolSize
  {
    ReachableInv(c, store, s);
    Fifo.SentPermutesPrefix(c, s, k);
  }

  /** Before cancellation no reachable state is stuck, and while any trade is under way some
      step that moves trades onwards is enabled. */
  lemma NeverDeadlocks(c: Config, store: Store, s: State)
    requires Sized(c) && Reachable(c, store, s) && !s.cancelled
    ensures exists step :: Enabled(c, s, step) && !step.Cancel? && (!Drained(s) ==> Internal(step))
  {
    ReachableInv(c, store, s);
    var step := DeadlockFree(c, s);
  }

  /** Once submissions stop: every schedule of the remaining steps has at most Measure(s) of them,
      and where none is left, everything is drained and each receiver has got exactly the enriched
      accepted trades. */
  lemma DrainsCompletely(c: Config, store: Store, s: State, run: Run, t: State)
    requires Sized(c) && Reachable(c, store, s) && !s.cancelled
    requires Exec(c, s, run) == Some(t) && AllInternal(run)
    ensures Length(run) <= Measure(s)
    ensures (forall step :: Internal(step) ==> !Enabled(c, t, step)) ==>
              Drained(t)
              && forall k :: multiset(At(t.sinks, k).received) == multiset(EnrichAll(c, s.pool.accepted))
  {
    ReachableInv(c, store, s);
    DrainBounded(c, s, run, t);
    if forall step :: Internal(step) ==> !Enabled(c, t, step) {
      DrainCompletes(c, s, run, t);
    }
  }

  /** And from every reachable state before cancellation such a schedule exists. */
  lemma CanDrain(c: Config, store: Store, s: State) returns (run: Run, t: State)
    requires Sized(c) && Reachable(c, store, s) && !s.cancelled
    ensures Exec(c, s, run) == Some(t) && AllInternal(run) && Drained(t)
  {
    ReachableInv(c, store, s);
    run, t := DrainExists(c, s, Begin, s);
  }

  /** Shutdown: after cancellation every schedule is finite, and a state with no step left to take
      has every goroutine returned. */
  lemma ShutsDown(c: Config, store: Store, s: State, run: Run, t: State)
    requires Sized(c) && Reachable(c, store, s) && s.cancelled
    requires Exec(c, s, run) == Some(t) && NoCancel(run)
    ensures Length(run) <= Measure(s)
    ensures (forall step: Step :: !step.Cancel? ==> !Enabled(c, t, step)) ==> AllGone(t)
  {
    ReachableInv(c, store, s);
    ShutdownBounded(c, s, run, t);
    KeepsAll(c, s, run, t);
    if !AllGone(t) {
      var step := ShutdownCompletes(c, t);
    }
  }

  // ------------------------------------------------------------------ what the sinks are given

  /** The trade as decoded from the record, with the notional multiplied out and the market looked up:
      the zero market on a miss. */
  ghost predicate EnrichedFrom(table: map<Symbol, Market>, decoded: TradeEvent, given: TradeEvent) {
    && given.(notional := decoded.notional, market := decoded.market) == decoded
    && given.notional == decoded.price * decoded.quantity
    && given.market == if decoded.symbol in table then table[decoded.symbol] else Market("", "", "")
  }

  /** With the service's enricher every trade that any sink receives, in every run, is the trade of the
      record at its position in the consumer's stream, enriched. */
  lemma ServiceEnriches(poolSize: int, fanOutBuffer: int, table: map<Symbol, Market>, store: Store,
                        run: Run, s: State, k: Sink, x: nat)
    requires var c := Configure(poolSize, fanOutBuffer, (e: TradeEvent) => Enrich(table, e));
             Exec(c, Init(c, store), run) == Some(s)
    requires x < |At(s.sinks, k).received|
    ensures var j := At(s.sinks, k).received[x];
            && j.id < |Commit.Stream(s.intake)| && Commit.Stream(s.intake)[j.id].WellFormed?
            && EnrichedFrom(table, Commit.Stream(s.intake)[j.id].event, j.event)
  {
    var c := Configure(poolSize, fanOutBuffer, (e: TradeEvent) => Enrich(table, e));
    Conserved(c, store, run, s);
    Commit.Disciplined(c, store, run, s);
    ReceivedEnriched(c, s, k, x);
  }

  lemma ReceivedEnriched(c: Config, s: State, k: Sink, x: nat)
    requires Conservation.Inv(c, s) && Commit.Inv(s) && x < |At(s.sinks, k).received|
    ensures var j := At(s.sinks, k).received[x];
            && j.id < |Commit.Stream(s.intake)| && Commit.Stream(s.intake)[j.id].WellFormed?
            && j.event == c.enrich(Commit.Stream(s.intake)[j.id].event)
  {
    var acc, j := s.pool.accepted, At(s.sinks, k).received[x];
    Delivery.DistinctIds(c, s, k);
    assert Sent(s, k)[x] == j;
    var a :| 0 <= a < |acc| && EnrichAll(c, acc)[a] == j;
    assert Commit.IsTrade(Commit.Stream(s.intake)[acc[a].id], acc[a].event);
  }
}
