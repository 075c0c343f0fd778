/** Which records the consumer marks for commit, over whole runs. */
module Commit {
  import opened Trades
  import opened Processor

  /** The records handed to dispatch so far, followed by the rest of the batch in hand. */
  function Stream(i: Intake): seq<Record> {
    i.dispatched + if i.phase.Dispatching? then i.phase.rest else []
  }

  /** The identity the next accepted trade will get, at the earliest. */
  function NextId(i: Intake): nat {
    |i.dispatched| + if i.phase.Dispatching? && i.phase.enqueued then 1 else 0
  }

  ghost predicate Increasing(js: seq<Job>) {
    forall a, b :: 0 <= a < b < |js| ==> js[a].id < js[b].id
  }

  ghost predicate HasId(js: seq<Job>, id: nat) { exists x :: 0 <= x < |js| && js[x].id == id }

  predicate IsTrade(rec: Record, event: TradeEvent) { rec.WellFormed? && rec.event == event }

  /** Accepted trades are well-formed records of the stream, in stream order. */
  ghost predicate FromStream(i: Intake, accepted: seq<Job>) {
    && Increasing(accepted)
    && (forall x :: 0 <= x < |accepted| ==>
          accepted[x].id < NextId(i) && accepted[x].id < |Stream(i)|
          && IsTrade(Stream(i)[accepted[x].id], accepted[x].event))
    && (i.phase.Dispatching? && i.phase.enqueued ==>
          i.phase.rest != [] && HasId(accepted, |i.dispatched|))
  }

  /** A dispatched record is marked exactly when it is malformed or its trade was accepted. */
  ghost predicate MarksExact(i: Intake, accepted: seq<Job>) {
    && (forall m :: m in i.marked ==> m < |i.dispatched|)
    && (forall m :: 0 <= m < |i.dispatched| ==>
          (m in i.marked <==> i.dispatched[m].Malformed? || HasId(accepted, m)))
  }

  /** Before cancellation every dispatched record is marked: the marks are the dispatched prefix. */
  ghost predicate PrefixMarked(s: State) {
    !s.cancelled ==> forall m :: 0 <= m < |s.intake.dispatched| ==> m in s.intake.marked
  }

  ghost predicate Inv(s: State) {
    && FromStream(s.intake, s.pool.accepted)
    && MarksExact(s.intake, s.pool.accepted)
    && PrefixMarked(s)
  }

  lemma AdvanceKeeps(i: Intake, accepted: seq<Job>, mark: bool)
    requires FromStream(i, accepted) && MarksExact(i, accepted)
    requires i.phase.Dispatching? && i.phase.rest != []
    requires mark <==> i.phase.rest[0].Malformed? || HasId(accepted, |i.dispatched|)
    ensures FromStream(Advance(i, mark), accepted) && MarksExact(Advance(i, mark), accepted)
  {
    assert Stream(Advance(i, mark)) == Stream(i);
  }

  lemma SubmitKeeps(i: Intake, accepted: seq<Job>, event: TradeEvent)
    requires FromStream(i, accepted) && MarksExact(i, accepted)
    requires i.phase.Dispatching? && i.phase.rest != [] && !i.phase.enqueued
    requires IsTrade(i.phase.rest[0], event)
    ensures var j := Job(|i.dispatched|, event);
            var i' := i.(phase := Dispatching(i.phase.rest, true));
            FromStream(i', accepted + [j]) && MarksExact(i', accepted + [j])
  {
    var j := Job(|i.dispatched|, event);
    var now := accepted + [j];
    var i' := i.(phase := Dispatching(i.phase.rest, true));
    assert Stream(i') == Stream(i);
    assert now[|accepted|] == j;
    forall m | 0 <= m < |i.dispatched| ensures HasId(now, m) <==> HasId(accepted, m) {
      if HasId(accepted, m) {
        var x :| 0 <= x < |accepted| && accepted[x].id == m;
        assert now[x].id == m;
      }
    }
  }

  /** A trade that is not enqueued has no accepted job of its number yet. */
  lemma ConsumerKeeps(c: Config, s: State, a: ConsumerStep, t: State)
    requires Inv(s) && ConsumerDo(c, s, a) == Some(t)
    ensures Inv(t)
  {
    var i := s.intake;
    if a.SkipMalformed? || a.Mark? || a.Refuse? {
      AdvanceKeeps(i, s.pool.accepted, !a.Refuse?);
    } else if a.Submit? {
      SubmitKeeps(i, s.pool.accepted, i.phase.rest[0].event);
    } else if a.CheckContext? || a.EndBatch? || a.Poll? {
      assert i.dispatched <= Stream(t.intake);
    }
  }

  lemma StepKeeps(c: Config, s: State, step: Step, t: State)
    requires Inv(s) && Do(c, s, step) == Some(t)
    ensures Inv(t)
  {
    if step.ByConsumer? {
      ConsumerKeeps(c, s, step.c, t);
    } else {
      Frame(c, s, step, t);
    }
  }

  /** Commit discipline over every run. */
  lemma {:induction false} Disciplined(c: Config, store: Store, run: Run, s: State)
    requires Exec(c, Init(c, store), run) == Some(s)
    ensures Inv(s)
    ensures !s.cancelled ==> forall m: nat :: m in s.intake.marked <==> m < |s.intake.dispatched|
  {
    match run
    case Begin =>
    case Then(before, step) =>
      var mid := Exec(c, Init(c, store), before).value;
      Disciplined(c, store, before, mid);
      StepKeeps(c, mid, step, s);
  }

  /** The consumer can no longer mark or submit: it returned, or its poll returned too late. */
  ghost predicate TooLate(s: State) {
    s.intake.phase.Stopped? || (s.intake.phase.Fetched? && s.cancelled)
  }

  lemma LateStep(c: Config, s: State, step: Step, t: State)
    requires TooLate(s) && Do(c, s, step) == Some(t)
    ensures TooLate(t)
    ensures t.intake.marked == s.intake.marked && t.pool.accepted == s.pool.accepted
  {
  }

  /** A batch polled when the context is already done marks and submits nothing, ever after. */
  lemma {:induction false} LateBatchMarksNothing(c: Config, s: State, run: Run, t: State)
    requires TooLate(s) && Exec(c, s, run) == Some(t)
    ensures TooLate(t)
    ensures t.intake.marked == s.intake.marked && t.pool.accepted == s.pool.accepted
  {
    if run.Then? {
      var mid := Exec(c, s, run.before).value;
      LateBatchMarksNothing(c, s, run.before, mid);
      LateStep(c, mid, run.step, t);
    }
  }
}
