/** When the marks of a partition can end up with a gap, so that committing the last of them skips a
    record. Offsets are committed per partition, so only records of one partition matter to each
    other. */
module Gaps {
  import opened Trades
  import opened Processor
  import Commit
  import Delivery
  import opened Progress
  import opened Pipeline

  /** No unmarked record precedes a marked one of its partition. */
  ghost predicate GapFree(i: Intake) {
    forall x, y :: 0 <= x < y < |i.dispatched| && y in i.marked
                   && i.dispatched[x].partition == i.dispatched[y].partition ==>
                     x in i.marked
  }

  /** A gap is a refused trade that a commit of the marks passes. */
  lemma GapIsRefusal(s: State)
    requires Commit.Inv(s)
    ensures GapFree(s.intake) <==> Delivery.RefusedBelow(s.intake) == {}
  {
    var i := s.intake;
    if !GapFree(i) {
      var x, y :| 0 <= x < y < |i.dispatched| && i.dispatched[x].partition == i.dispatched[y].partition
                  && y in i.marked && x !in i.marked;
      assert Delivery.Passed(i, x) && x in Delivery.RefusedBelow(i);
    }
  }

  ghost predicate MarksBelow(i: Intake) { forall x :: x in i.marked ==> x < |i.dispatched| }

  predicate Polls(step: Step) { step.ByConsumer? && step.c.Poll? }

  /** The consumer polls no further batch. */
  predicate NoPoll(run: Run) { run.Then? ==> !Polls(run.step) && NoPoll(run.before) }

  /** Some well-formed record of the batch is not enqueued yet and has a later one of its partition. */
  predicate Skippable(rest: seq<Record>, enqueued: bool) {
    exists i, j :: 0 <= i < j < |rest| && SkippedBy(rest, enqueued, i, j)
  }

  predicate SkippedBy(rest: seq<Record>, enqueued: bool, i: nat, j: nat)
    requires i < j < |rest|
  {
    rest[i].WellFormed? && !(i == 0 && enqueued) && rest[j].partition == rest[i].partition
  }

  /** A run without a further poll leads from s to a gap. */
  ghost predicate GapAhead(c: Config, s: State) {
    exists run, t :: Exec(c, s, run) == Some(t) && NoPoll(run) && !GapFree(t.intake)
  }

  // ------------------------------------------------------------------ no gap without a skippable record

  /** Every dispatched record of a partition that is still to come is marked. */
  ghost predicate MarkedWhereOpen(i: Intake, rest: seq<Record>) {
    forall x, j :: 0 <= x < |i.dispatched| && 0 <= j < |rest|
                   && i.dispatched[x].partition == rest[j].partition ==>
                     x in i.marked
  }

  /** The marks have no gap, and the rest of the batch cannot make one. */
  ghost predicate Safe(i: Intake) {
    && GapFree(i) && MarksBelow(i) && !i.phase.Fetched?
    && (i.phase.Dispatching? ==>
          MarkedWhereOpen(i, i.phase.rest) && !Skippable(i.phase.rest, i.phase.enqueued))
  }

  lemma SkippableTail(rest: seq<Record>, enqueued: bool)
    requires rest != [] && Skippable(rest[1..], false)
    ensures Skippable(rest, enqueued)
  {
    var i, j :| 0 <= i < j < |rest[1..]| && SkippedBy(rest[1..], false, i, j);
    assert SkippedBy(rest, enqueued, i + 1, j + 1);
  }

  lemma EnqueuedSkips(rest: seq<Record>)
    requires Skippable(rest, true)
    ensures Skippable(rest, false)
  {
    var i, j :| 0 <= i < j < |rest| && SkippedBy(rest, true, i, j);
    assert SkippedBy(rest, false, i, j);
  }

  /** The record at the head leaves dispatch: marked, or refused with none of its partition to come. */
  lemma AdvanceSafe(i: Intake, mark: bool)
    requires Safe(i) && i.phase.Dispatching? && i.phase.rest != []
    requires !mark ==> i.phase.rest[0].WellFormed? && !i.phase.enqueued
    ensures Safe(Advance(i, mark))
  {
    var rest, next := i.phase.rest, Advance(i, mark);
    if Skippable(rest[1..], false) {
      SkippableTail(rest, i.phase.enqueued);
    }
    forall x, j | 0 <= x < |next.dispatched| && 0 <= j < |rest| - 1
                  && next.dispatched[x].partition == rest[1..][j].partition
      ensures x in next.marked {
      assert rest[1..][j] == rest[j + 1];
      if x == |i.dispatched| && !mark {
        assert SkippedBy(rest, false, 0, j + 1);
      }
    }
  }

  lemma ConsumerSafe(c: Config, s: State, a: ConsumerStep, t: State)
    requires Safe(s.intake) && ConsumerDo(c, s, a) == Some(t) && !a.Poll?
    ensures Safe(t.intake)
  {
    if a == Mark || a == SkipMalformed || a == Refuse {
      AdvanceSafe(s.intake, a != Refuse);
    } else if a == Submit && Skippable(s.intake.phase.rest, true) {
      EnqueuedSkips(s.intake.phase.rest);
    }
  }

  lemma {:induction false} StaysSafe(c: Config, s: State, run: Run, t: State)
    requires Safe(s.intake) && Exec(c, s, run) == Some(t) && NoPoll(run)
    ensures Safe(t.intake)
  {
    if run.Then? {
      var mid := Exec(c, s, run.before).value;
      StaysSafe(c, s, run.before, mid);
      if run.step.ByConsumer? {
        ConsumerSafe(c, mid, run.step.c, t);
      } else {
        Frame(c, mid, run.step, t);
      }
    }
  }

  // ------------------------------------------------------------------ a gap with one

  /** A run without a poll, one step longer. */
  lemma Extend(c: Config, start: State, run: Run, s: State, step: Step) returns (more: Run, t: State)
    requires Exec(c, start, run) == Some(s) && NoPoll(run) && Do(c, s, step).Some? && !Polls(step)
    ensures Exec(c, start, more) == Some(t) && NoPoll(more) && Do(c, s, step) == Some(t)
  {
    more, t := Then(run, step), Do(c, s, step).value;
  }

  /** Between two records after cancellation, with room in the job channel. */
  predicate Ready(s: State, rest: seq<Record>) {
    s.cancelled && s.intake.phase == Dispatching(rest, false) && s.pool.jobs == []
  }

  /** After cancellation the record at the head can leave dispatch without its trade being enqueued. */
  lemma Drop(c: Config, start: State, sofar: Run, s: State, rest: seq<Record>) returns (run: Run, t: State)
    requires Exec(c, start, sofar) == Some(s) && NoPoll(sofar) && Ready(s, rest) && rest != []
    ensures Exec(c, start, run) == Some(t) && NoPoll(run) && Ready(t, rest[1..])
    ensures t.intake.dispatched == s.intake.dispatched + [rest[0]]
    ensures t.intake.marked == if rest[0].Malformed? then s.intake.marked + {|s.intake.dispatched|} else s.intake.marked
  {
    run, t := Extend(c, start, sofar, s, ByConsumer(if rest[0].Malformed? then SkipMalformed else Refuse));
  }

  /** And if there is room, marked. */
  lemma Pass(c: Config, start: State, sofar: Run, s: State, rest: seq<Record>) returns (run: Run, t: State)
    requires c.poolSize > 0 && Exec(c, start, sofar) == Some(s) && NoPoll(sofar) && Ready(s, rest) && rest != []
    ensures Exec(c, start, run) == Some(t) && NoPoll(run)
    ensures t.intake.dispatched == s.intake.dispatched + [rest[0]]
    ensures t.intake.marked == s.intake.marked + {|s.intake.dispatched|}
  {
    if rest[0].Malformed? {
      run, t := Extend(c, start, sofar, s, ByConsumer(SkipMalformed));
    } else {
      run, t := Extend(c, start, sofar, s, ByConsumer(Submit));
      run, t := Extend(c, start, run, t, ByConsumer(Mark));
    }
  }

  /** With record x unmarked, dropping what comes before rest[j] and passing that leaves a gap. */
  lemma {:induction false} GapTo(c: Config, start: State, sofar: Run, s: State, rest: seq<Record>, x: nat, j: nat)
    requires c.poolSize > 0 && Exec(c, start, sofar) == Some(s) && NoPoll(sofar) && Ready(s, rest) && j < |rest|
    requires x < |s.intake.dispatched| && x !in s.intake.marked
    requires s.intake.dispatched[x].partition == rest[j].partition
    ensures GapAhead(c, start)
    decreases j
  {
    if j == 0 {
      var n := |s.intake.dispatched|;
      var run, t := Pass(c, start, sofar, s, rest);
      assert t.intake.dispatched[n] == rest[0] && n in t.intake.marked && x !in t.intake.marked;
      assert !GapFree(t.intake);
    } else {
      var run, t := Drop(c, start, sofar, s, rest);
      GapTo(c, start, run, t, rest[1..], x, j - 1);
    }
  }

  /** Everything up to rest[i] is dropped, rest[i] among it. */
  lemma {:induction false} GapFromBatch(c: Config, start: State, sofar: Run, s: State, rest: seq<Record>, i: nat, j: nat)
    requires c.poolSize > 0 && Exec(c, start, sofar) == Some(s) && NoPoll(sofar) && Ready(s, rest)
    requires MarksBelow(s.intake) && i < j < |rest| && SkippedBy(rest, false, i, j)
    ensures GapAhead(c, start)
    decreases i
  {
    var run, t := Drop(c, start, sofar, s, rest);
    if i == 0 {
      GapTo(c, start, run, t, rest[1..], |s.intake.dispatched|, j - 1);
    } else {
      assert SkippedBy(rest[1..], false, i - 1, j - 1);
      GapFromBatch(c, start, run, t, rest[1..], i - 1, j - 1);
    }
  }

  lemma {:induction false} InternalNoPoll(first: Run, run: Run)
    requires NoPoll(first) && AllInternal(run)
    ensures NoPoll(Append(first, run))
  {
    if run.Then? {
      InternalNoPoll(first, run.before);
    }
  }

  /** The job channel can be emptied without a poll, and the context then cancelled, leaving the
      intake as it is. */
  lemma MakeReady(c: Config, start: State, sofar: Run, s: State) returns (run: Run, t: State)
    requires Sized(c) && AllInv(c, s) && !s.cancelled && Exec(c, start, sofar) == Some(s) && NoPoll(sofar)
    requires s.intake.phase.Dispatching? && !s.intake.phase.enqueued
    ensures Exec(c, start, run) == Some(t) && NoPoll(run) && t.intake == s.intake && Ready(t, s.intake.phase.rest)
  {
    var more: Run;
    more, t := DrainExists(c, s, Begin, s);
    DrainBounded(c, s, more, t);
    ExecAppend(c, start, sofar, s, more, t);
    InternalNoPoll(sofar, more);
    run, t := Extend(c, start, Append(sofar, more), t, Cancel);
  }

  lemma GapFromNext(c: Config, start: State, sofar: Run, s: State, rest: seq<Record>, i: nat, j: nat)
    requires Sized(c) && AllInv(c, s) && !s.cancelled && Exec(c, start, sofar) == Some(s) && NoPoll(sofar)
    requires s.intake.phase == Dispatching(rest, false) && i < j < |rest| && SkippedBy(rest, false, i, j)
    ensures GapAhead(c, start)
  {
    var run, t := MakeReady(c, start, sofar, s);
    GapFromBatch(c, start, run, t, rest, i, j);
  }

  lemma GapFromHere(c: Config, s: State)
    requires Sized(c) && AllInv(c, s) && !s.cancelled && s.intake.phase.Dispatching?
    requires Skippable(s.intake.phase.rest, s.intake.phase.enqueued)
    ensures GapAhead(c, s)
  {
    var rest, enqueued := s.intake.phase.rest, s.intake.phase.enqueued;
    var i, j :| 0 <= i < j < |rest| && SkippedBy(rest, enqueued, i, j);
    if enqueued {
      assert SkippedBy(rest[1..], false, i - 1, j - 1);
      var run, t := Extend(c, s, Begin, s, ByConsumer(Mark));
      KeepsAll(c, s, run, t);
      GapFromNext(c, s, run, t, rest[1..], i - 1, j - 1);
    } else {
      GapFromNext(c, s, Begin, s, rest, i, j);
    }
  }

  /** Inside a batch before cancellation, a gap can still arise from this batch if and only if some
      well-formed record in it is not enqueued yet and has a later one of its partition. */
  lemma GapPossibleExactly(c: Config, store: Store, s: State)
    requires Sized(c) && Reachable(c, store, s) && !s.cancelled && s.intake.phase.Dispatching?
    ensures GapAhead(c, s) <==> Skippable(s.intake.phase.rest, s.intake.phase.enqueued)
  {
    ReachableInv(c, store, s);
    if Skippable(s.intake.phase.rest, s.intake.phase.enqueued) {
      GapFromHere(c, s);
    } else if GapAhead(c, s) {
      var run, t :| Exec(c, s, run) == Some(t) && NoPoll(run) && !GapFree(t.intake);
      StaysSafe(c, s, run, t);
    }
  }
}
