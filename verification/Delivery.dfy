/** What conservation and the commit discipline say about single trades, counts and capacities. */
module Delivery {
  import opened Trades
  import opened Processor
  import opened Conservation
  import Commit
  import Redis

  // ------------------------------------------------------------------ identities

  lemma {:induction false} CountIncreasing(js: seq<Job>, j: Job)
    requires Commit.Increasing(js)
    ensures Count(js, j) <= 1
  {
    if js != [] {
      var n := |js| - 1;
      CountIncreasing(js[..n], j);
      assert js == js[..n] + [js[n]];
      CountPush(js[..n], js[n], j);
      if js[n] == j {
        assert j !in js[..n];
      }
    }
  }

  lemma {:induction false} SumBelow(ws: seq<Worker>, f: Worker -> nat, g: Worker -> nat, w: Worker)
    requires w in ws && f(w) < g(w)
    requires forall x :: x in ws ==> f(x) <= g(x)
    ensures Sum(ws, f) < Sum(ws, g)
  {
    var n := |ws| - 1;
    if w in ws[..n] {
      SumBelow(ws[..n], f, g, w);
    } else {
      SumAtMost(ws[..n], f, g);
    }
  }

  /** No sink is sent a trade more often than it was accepted. */
  lemma SentAtMostAccepted(c: Config, s: State, k: Sink, j: Job)
    requires Inv(c, s)
    ensures Count(Sent(s, k), j) <= Count(EnrichAll(c, s.pool.accepted), j)
  {
    var p := s.pool;
    assert SinkInv(p, k, Sent(s, k));
    assert SinkBalanced(p, k, Sent(s, k), j) && Balanced(c, p, j);
    SumAtMost(p.workers, HoldsPast(j, k), Holds(j));
    SumAtMost(p.abandoned, HoldsPast(j, k), Holds(j));
  }

  lemma AcceptedOnce(c: Config, s: State, j: Job)
    requires Commit.Inv(s)
    ensures Count(EnrichAll(c, s.pool.accepted), j) <= 1
  {
    CountIncreasing(EnrichAll(c, s.pool.accepted), j);
  }

  /** A trade that left its worker with all three sinks behind it is finished. */
  lemma FinishedWhenEverywhere(c: Config, s: State, j: Job)
    requires Inv(c, s) && Sum(s.pool.workers, Holds(j)) == 0
    requires Count(EnrichAll(c, s.pool.accepted), j) <= 1
    requires forall k :: Count(Sent(s, k), j) > 0
    ensures Count(s.pool.finished, j) > 0
  {
    var p := s.pool;
    forall k ensures Count(p.finished, j) + Sum(p.abandoned, HoldsPast(j, k)) > 0 {
      assert SinkInv(p, k, Sent(s, k));
      assert SinkBalanced(p, k, Sent(s, k), j);
      SumAtMost(p.workers, HoldsPast(j, k), Holds(j));
    }
    if Count(p.finished, j) == 0 {
      assert Balanced(c, p, j);
      SumAtMost(p.abandoned, HoldsPast(j, ToBook), Holds(j));
      assert Count(p.finished, j) + Sum(p.abandoned, HoldsPast(j, ToBook)) > 0;
      MissedSomewhere(p, j);
    }
  }

  lemma FinishedIsEverywhere(c: Config, s: State, j: Job, k: Sink)
    requires Inv(c, s) && Count(s.pool.finished, j) > 0
    ensures Count(Sent(s, k), j) > 0
  {
    assert SinkInv(s.pool, k, Sent(s, k));
    assert SinkBalanced(s.pool, k, Sent(s, k), j);
  }

  /** Trade j is in exactly one of the job channel, a worker's hands, the finished and the
      abandoned trades; no sink is sent it twice; it is finished exactly when all three sinks have
      it and no worker still holds it; and it is not abandoned before cancellation. */
  ghost predicate Accounted(c: Config, s: State, j: Job) {
    var p := s.pool;
    && Count(EnrichAll(c, p.jobs), j) + Sum(p.workers, Holds(j))
       + Count(p.finished, j) + Sum(p.abandoned, Holds(j)) == 1
    && (forall k :: Count(Sent(s, k), j) <= 1)
    && (Count(p.finished, j) == 1 <==>
          (forall k :: Count(Sent(s, k), j) == 1) && Sum(p.workers, Holds(j)) == 0)
    && (!s.cancelled ==> Sum(p.abandoned, Holds(j)) == 0)
  }

  /** Every accepted trade is accounted for, enriched. */
  lemma AccountedOnce(c: Config, s: State, x: nat)
    requires Inv(c, s) && Commit.Inv(s) && x < |s.pool.accepted|
    ensures Accounted(c, s, Enriched(c, s.pool.accepted[x]))
  {
    var p, j := s.pool, Enriched(c, s.pool.accepted[x]);
    AcceptedOnce(c, s, j);
    assert EnrichAll(c, p.accepted)[x] == j && Balanced(c, p, j);
    forall k ensures Count(Sent(s, k), j) <= 1 {
      SentAtMostAccepted(c, s, k, j);
    }
    if Count(p.finished, j) == 1 {
      forall k ensures Count(Sent(s, k), j) == 1 {
        FinishedIsEverywhere(c, s, j, k);
      }
    } else if (forall k :: Count(Sent(s, k), j) == 1) && Sum(p.workers, Holds(j)) == 0 {
      FinishedWhenEverywhere(c, s, j);
    }
  }

  /** A trade in a worker's hands has been sent once to each sink behind it, and to no other. */
  lemma HeldOnce(c: Config, s: State, w: nat, k: Sink)
    requires Inv(c, s) && Commit.Inv(s) && w < |s.pool.workers| && s.pool.workers[w].Publishing?
    ensures Count(Sent(s, k), s.pool.workers[w].job) == One(k !in s.pool.workers[w].pending)
  {
    var p := s.pool;
    var j, without := p.workers[w].job, p.workers[w := Idle];
    AcceptedOnce(c, s, j);
    assert Balanced(c, p, j) && SinkInv(p, k, Sent(s, k));
    assert SinkBalanced(p, k, Sent(s, k), j);
    SumPut(p.workers, w, Idle, Holds(j));
    SumPut(p.workers, w, Idle, HoldsPast(j, k));
    SumAtMost(without, HoldsPast(j, k), Holds(j));
    SumAtMost(p.abandoned, HoldsPast(j, k), Holds(j));
  }

  /** An abandoned trade is missing from some sink. */
  lemma MissedSomewhere(p: Pool, j: Job)
    requires Sum(p.abandoned, Holds(j)) == 1
    requires forall w :: w in p.abandoned ==> w.Publishing? && w.pending != {}
    ensures exists k :: Sum(p.abandoned, HoldsPast(j, k)) == 0
  {
    SumZero(p.abandoned, Holds(j));
    var i :| 0 <= i < |p.abandoned| && Holds(j)(p.abandoned[i]) != 0;
    var w := p.abandoned[i];
    var k :| k in w.pending;
    SumBelow(p.abandoned, HoldsPast(j, k), Holds(j), w);
  }

  // ------------------------------------------------------------------ windows before cancellation

  /** Capacities hold, at most 2*poolSize accepted trades have not reached sink k, and the counts of
      k and l differ by at most poolSize (sent) and poolSize plus bufferSize (received). */
  ghost predicate Windowed(c: Config, s: State, k: Sink, l: Sink) {
    && |s.pool.jobs| <= c.poolSize && |At(s.sinks, k).queue| <= c.bufferSize
    && |Sent(s, k)| <= |s.pool.accepted| <= |Sent(s, k)| + 2 * c.poolSize
    && |Sent(s, k)| - |Sent(s, l)| <= c.poolSize
    && |At(s.sinks, k).received| - |At(s.sinks, l).received| <= c.poolSize + c.bufferSize
  }

  lemma Windows(c: Config, s: State, k: Sink, l: Sink)
    requires Inv(c, s) && !s.cancelled
    ensures Windowed(c, s, k, l)
  {
    var p := s.pool;
    assert SinkInv(p, k, Sent(s, k)) && SinkInv(p, l, Sent(s, l));
    BusyBounds(p.workers, k);
    BusyBounds(p.workers, l);
  }

  // ------------------------------------------------------------------ what a restart would skip

  /** Marked trades outside `done`. */
  function Outstanding(i: Intake, done: set<nat>): set<nat> {
    set m | m in i.marked && m < |i.dispatched| && i.dispatched[m].WellFormed? && m !in done
  }

  /** The trades whose latest-trade and price keys were set, and those where one of the sets failed. */
  function IdsAt(js: seq<Job>, at: set<nat>): set<nat> { set i | i in at && i < |js| :: js[i].id }

  function StoredIds(s: State): set<nat> { IdsAt(s.sinks.redis.received, s.writer.stored) }

  /** Marked, but not both keys were set from the trade. */
  function Lost(s: State): set<nat> { Outstanding(s.intake, StoredIds(s)) }

  /** Marked, but the Redis write has not returned, with an error or without. */
  function AtRisk(s: State): set<nat> { Outstanding(s.intake, Ids(Written(s))) }

  /** A commit of the marks moves its partition past record x: some record of the partition, x
      itself or a later one, is marked. */
  predicate Passed(i: Intake, x: nat)
    requires x < |i.dispatched|
  {
    exists y :: x <= y < |i.dispatched| && y in i.marked && i.dispatched[y].partition == i.dispatched[x].partition
  }

  /** What a restart at the end of the marks skips: trades that the commit passes, marked or
      refused, of which not both keys were set. */
  ghost function Skipped(s: State): set<nat> {
    var i := s.intake;
    set x | 0 <= x < |i.dispatched| && i.dispatched[x].WellFormed? && Passed(i, x) && x !in StoredIds(s)
  }

  /** Refused trades with a later mark in their partition. */
  ghost function RefusedBelow(i: Intake): set<nat> {
    set x | 0 <= x < |i.dispatched| && i.dispatched[x].WellFormed? && x !in i.marked && Passed(i, x)
  }

  /** The trade in hand is in the job channel, its record not marked yet. */
  predicate InSubmit(i: Intake) { i.phase.Dispatching? && i.phase.enqueued }

  function Ids(js: seq<Job>): set<nat> { set j | j in js :: j.id }

  lemma {:induction false} IdsCount(js: seq<Job>)
    ensures |Ids(js)| <= |js|
    ensures (forall a, b :: 0 <= a < b < |js| ==> js[a].id != js[b].id) ==> |Ids(js)| == |js|
  {
    if js != [] {
      var n := |js| - 1;
      IdsCount(js[..n]);
      assert js == js[..n] + [js[n]];
      assert Ids(js) == Ids(js[..n]) + {js[n].id};
    }
  }

  lemma {:induction false} CountTwice(js: seq<Job>, a: nat, b: nat)
    requires a < b < |js| && js[a] == js[b]
    ensures Count(js, js[b]) >= 2
  {
    assert js == js[..b] + ([js[b]] + js[b + 1..]);
    assert js[a] in js[..b];
  }

  /** Two trades in one sink never share an identity. */
  lemma DistinctIds(c: Config, s: State, k: Sink)
    requires Inv(c, s) && Commit.Inv(s)
    ensures forall a :: 0 <= a < |Sent(s, k)| ==> Sent(s, k)[a] in EnrichAll(c, s.pool.accepted)
    ensures forall a, b :: 0 <= a < b < |Sent(s, k)| ==> Sent(s, k)[a].id != Sent(s, k)[b].id
  {
    var sent, all := Sent(s, k), EnrichAll(c, s.pool.accepted);
    forall a | 0 <= a < |sent| ensures sent[a] in all && Count(sent, sent[a]) <= 1 {
      SentAtMostAccepted(c, s, k, sent[a]);
      AcceptedOnce(c, s, sent[a]);
    }
    forall a, b | 0 <= a < b < |sent| ensures sent[a].id != sent[b].id {
      if sent[a].id == sent[b].id {
        SameIdSameJob(all, sent[a], sent[b]);
        CountTwice(sent, a, b);
      }
    }
  }

  lemma SameIdSameJob(js: seq<Job>, x: Job, y: Job)
    requires Commit.Increasing(js) && x in js && y in js && x.id == y.id
    ensures x == y
  {
    var a :| 0 <= a < |js| && js[a] == x;
    var b :| 0 <= b < |js| && js[b] == y;
    if a < b || b < a {
      assert false;
    }
  }

  /** The worker still owes its trade to sink k. */
  function Owing(k: Sink): Worker -> nat { (w: Worker) => One(w.Publishing? && k in w.pending) }

  lemma {:induction false} SumOwing(ws: seq<Worker>, k: Sink)
    ensures Sum(ws, Busy()) == Sum(ws, BusyPast(k)) + Sum(ws, Owing(k))
  {
    if ws != [] {
      SumOwing(ws[..|ws| - 1], k);
    }
  }

  /** The identities at the given positions of the Redis sink: as many as positions, all accepted. */
  lemma IdsAtReceived(c: Config, s: State, at: set<nat>)
    requires Inv(c, s) && Commit.Inv(s) && forall i :: i in at ==> i < |s.sinks.redis.received|
    ensures |IdsAt(s.sinks.redis.received, at)| == |at|
    ensures IdsAt(s.sinks.redis.received, at) <= Ids(s.pool.accepted)
  {
    var r, sent := s.sinks.redis.received, Sent(s, ToRedis);
    DistinctIds(c, s, ToRedis);
    assert forall i :: 0 <= i < |r| ==> r[i] == sent[i];
    IdsAtSize(r, at);
    forall i | i in at ensures r[i].id in Ids(s.pool.accepted) {
      assert sent[i] in EnrichAll(c, s.pool.accepted);
      AcceptedId(c, s.pool.accepted, r[i]);
    }
  }

  lemma AcceptedId(c: Config, acc: seq<Job>, j: Job)
    requires j in EnrichAll(c, acc)
    ensures j.id in Ids(acc)
  {
    var x :| 0 <= x < |acc| && EnrichAll(c, acc)[x] == j;
    assert acc[x] in acc;
  }

  lemma {:induction false} IdsAtSize(js: seq<Job>, at: set<nat>)
    requires forall i :: i in at ==> i < |js|
    requires forall a, b :: 0 <= a < b < |js| ==> js[a].id != js[b].id
    ensures |IdsAt(js, at)| == |at|
    decreases |at|
  {
    if at != {} {
      var i :| i in at;
      IdsAtSize(js, at - {i});
      assert IdsAt(js, at) == IdsAt(js, at - {i}) + {js[i].id};
    }
  }

  /** The written trades are among the accepted ones, each with its own identity. */
  lemma WrittenIds(c: Config, s: State)
    requires Inv(c, s) && Commit.Inv(s)
    ensures |Ids(Written(s))| == |Written(s)| && Ids(Written(s)) <= Ids(s.pool.accepted)
  {
    var written := Written(s);
    DistinctIds(c, s, ToRedis);
    assert forall a :: 0 <= a < |written| ==> written[a] == Sent(s, ToRedis)[a];
    IdsCount(written);
    forall id | id in Ids(written) ensures id in Ids(s.pool.accepted) {
      var a :| 0 <= a < |written| && written[a].id == id;
      assert Sent(s, ToRedis)[a] in EnrichAll(c, s.pool.accepted);
      AcceptedId(c, s.pool.accepted, written[a]);
    }
  }

  /** The marked trades, and the one being submitted, are the accepted ones. */
  lemma MarkedOrSubmitting(s: State, m: nat)
    requires Commit.Inv(s)
    ensures m in Ids(s.pool.accepted) <==>
              m in Outstanding(s.intake, {}) || (InSubmit(s.intake) && m == |s.intake.dispatched|)
  {
    var acc, i := s.pool.accepted, s.intake;
    if m in Ids(acc) {
      var x :| 0 <= x < |acc| && acc[x].id == m;
      assert Commit.HasId(acc, m) && Commit.IsTrade(Commit.Stream(i)[m], acc[x].event);
    }
    if m in Outstanding(i, {}) || (InSubmit(i) && m == |i.dispatched|) {
      var x :| 0 <= x < |acc| && acc[x].id == m;
      assert acc[x] in acc;
    }
  }

  /** The trade being submitted, unless it is done. */
  function Submitting(i: Intake, done: set<nat>): set<nat> {
    if InSubmit(i) && |i.dispatched| !in done then {|i.dispatched|} else {}
  }

  lemma NotDone(s: State, done: set<nat>)
    requires Commit.Inv(s)
    ensures Ids(s.pool.accepted) - done == Outstanding(s.intake, done) + Submitting(s.intake, done)
  {
    forall m: nat ensures m in Ids(s.pool.accepted) - done <==>
                            m in Outstanding(s.intake, done) + Submitting(s.intake, done) {
      MarkedOrSubmitting(s, m);
    }
  }

  /** How many marked trades are not done: the accepted ones that are not, less the one in Submit. */
  lemma OutstandingSize(s: State, done: set<nat>)
    requires Commit.Inv(s) && done <= Ids(s.pool.accepted)
    ensures |Outstanding(s.intake, done)| + One(InSubmit(s.intake) && |s.intake.dispatched| !in done)
              == |s.pool.accepted| - |done|
  {
    IdsCount(s.pool.accepted);
    NotDone(s, done);
    SizesAdd(Ids(s.pool.accepted), done, Outstanding(s.intake, done), Submitting(s.intake, done));
  }

  lemma SizesAdd(all: set<nat>, done: set<nat>, open: set<nat>, more: set<nat>)
    requires done <= all && all - done == open + more && open !! more
    ensures |open| + |more| == |all| - |done|
  {
    assert |all - done| == |all| - |done|;
  }

  /** The trades on the way to Redis: queued, owed by a worker or given up with it owed, or in the
      Redis sink. */
  function UnderWay(p: Pool, redis: Channel): nat {
    |p.jobs| + Sum(p.workers, Owing(ToRedis)) + Sum(p.abandoned, Owing(ToRedis)) + |redis.queue|
  }

  /** The accepted trades that the Redis writer has not received are those under way. */
  lemma NotReceived(c: Config, s: State)
    requires Inv(c, s)
    ensures |s.pool.accepted| - |s.sinks.redis.received| == UnderWay(s.pool, s.sinks.redis)
  {
    assert SinkInv(s.pool, ToRedis, Sent(s, ToRedis));
    SumOwing(s.pool.workers, ToRedis);
    SumOwing(s.pool.abandoned, ToRedis);
  }

  /** The size of the lost set, as a sum over where trades are. */
  ghost predicate LostCount(s: State) {
    var w := s.writer;
    |Lost(s)| + One(InSubmit(s.intake) && |s.intake.dispatched| !in StoredIds(s)) ==
      UnderWay(s.pool, s.sinks.redis) + |w.failed| + One(w.phase.BeforeLatest? || w.phase.BeforePrice?)
  }

  /** The size of the skipped set, likewise. */
  ghost predicate SkippedCount(s: State) {
    var w := s.writer;
    |Skipped(s)| + One(InSubmit(s.intake) && |s.intake.dispatched| !in StoredIds(s)) ==
      UnderWay(s.pool, s.sinks.redis) + |w.failed| + One(w.phase.BeforeLatest? || w.phase.BeforePrice?)
      + |RefusedBelow(s.intake)|
  }

  /** The size of the at-risk set, likewise. */
  ghost predicate AtRiskCount(s: State) {
    |AtRisk(s)| + One(InSubmit(s.intake) && |s.intake.dispatched| !in Ids(Written(s))) ==
      UnderWay(s.pool, s.sinks.redis) + (|s.sinks.redis.received| - |Written(s)|)
  }

  /** How many marked trades do not have both keys set, in every state, cancelled or not: the trades
      under way, those whose set failed and the one being set, except the trade that is enqueued
      and not marked yet. */
  lemma LostExactly(c: Config, before: Store, s: State)
    requires Inv(c, s) && Commit.Inv(s) && Redis.Inv(before, s) && Redis.Tracked(s)
    ensures LostCount(s)
  {
    var w, r := s.writer, s.sinks.redis.received;
    assert Redis.PhaseOk(w, r, Events(AppliedTrades(s)));
    Redis.PartedSize(w.stored, w.failed, Redis.Decided(w, r));
    IdsAtReceived(c, s, w.stored);
    OutstandingSize(s, StoredIds(s));
    NotReceived(c, s);
  }

  /** Skipped are the lost trades, which are marked, and the refused ones below a mark. */
  lemma SkippedSplit(s: State)
    requires Commit.Inv(s) && StoredIds(s) <= Ids(s.pool.accepted)
    ensures Skipped(s) == Lost(s) + RefusedBelow(s.intake) && Lost(s) !! RefusedBelow(s.intake)
  {
    var i := s.intake;
    forall x | 0 <= x < |i.dispatched| && i.dispatched[x].WellFormed? && x !in i.marked
      ensures x !in StoredIds(s) {
      MarkedOrSubmitting(s, x);
    }
    forall x | x in Lost(s) ensures x in Skipped(s) {
      assert Passed(i, x);
    }
  }

  /** What a restart at the end of the marks skips, exactly, in every state: the lost trades and the
      refused ones below a mark of their partition. */
  lemma SkippedExactly(c: Config, before: Store, s: State)
    requires Inv(c, s) && Commit.Inv(s) && Redis.Inv(before, s) && Redis.Tracked(s)
    ensures SkippedCount(s) && Skipped(s) == Lost(s) + RefusedBelow(s.intake)
  {
    LostExactly(c, before, s);
    IdsAtReceived(c, s, s.writer.stored);
    SkippedSplit(s);
  }

  lemma AtRiskExactly(c: Config, s: State)
    requires Inv(c, s) && Commit.Inv(s)
    ensures AtRiskCount(s)
  {
    WrittenIds(c, s);
    OutstandingSize(s, Ids(Written(s)));
    NotReceived(c, s);
  }

  /** Before cancellation at most 2*poolSize + bufferSize + 1 marked trades await their write. */
  lemma AtRiskWindow(c: Config, s: State)
    requires Inv(c, s) && Commit.Inv(s) && !s.cancelled
    ensures |AtRisk(s)| <= 2 * c.poolSize + c.bufferSize + 1
  {
    AtRiskExactly(c, s);
    NotReceived(c, s);
    Windows(c, s, ToRedis, ToRedis);
  }
}
