/** What one goroutine's loop makes of a schedule, as a function: at each of its turns the others take
    their steps, and then the goroutine takes the step that its code is at, with the select case that
    the turn picks, if that step is enabled. */
module Schedules {
  import opened Trades
  import opened Processor
  import Commit

  /** Which case a select takes: a send of Publish, its other send or receive, the done case; or the
      goroutine is not scheduled at all in this turn. */
  datatype Pick = Into(sink: Sink) | Go | Done | Wait

  /** One turn: what the others do first, the case picked, what a poll returns, whether a set succeeds. */
  datatype Turn = Turn(others: seq<Step>, pick: Pick, batch: seq<Record>, ok: bool)

  datatype Owner = TheWorker(w: nat) | TheConsumer | TheKeeper | TheWriter | TheBroadcaster

  predicate Mine(o: Owner, step: Step) {
    match o
    case TheWorker(w) => step.ByWorker? && step.w == w
    case TheConsumer => step.ByConsumer?
    case TheKeeper => step.ByKeeper?
    case TheWriter => step.ByWriter?
    case TheBroadcaster => step.ByBroadcaster?
  }

  /** What the others cannot change under a goroutine's feet. */
  ghost predicate Keeps(o: Owner, s: State, t: State) {
    && (s.cancelled ==> t.cancelled) && |t.pool.workers| == |s.pool.workers|
    && match o
       case TheWorker(w) => w < |s.pool.workers| ==> t.pool.workers[w] == s.pool.workers[w]
       case TheConsumer => t.intake == s.intake && t.pool.accepted == s.pool.accepted
       case TheKeeper => t.keeper == s.keeper && t.sinks.book.received == s.sinks.book.received
       case TheWriter => t.writer == s.writer && t.sinks.redis.received == s.sinks.redis.received
       case TheBroadcaster => t.broadcasting == s.broadcasting
  }

  /** The step, or nothing if it is not enabled. */
  function Try(c: Config, s: State, step: Step): (t: State)
    ensures Do(c, s, step).Some? ==> Do(c, s, step) == Some(t)
    ensures Do(c, s, step).None? ==> t == s
  {
    match Do(c, s, step)
    case Some(t) => t
    case None => s
  }

  lemma OthersKeep(c: Config, o: Owner, s: State, step: Step)
    requires !Mine(o, step)
    ensures Keeps(o, s, Try(c, s, step))
  {
    if Do(c, s, step).Some? {
      Frame(c, s, step, Try(c, s, step));
    }
  }

  /** The steps of the others in order, those of them that are enabled. */
  function Others(c: Config, o: Owner, s: State, steps: seq<Step>): State
    decreases |steps|
  {
    if steps == [] then s
    else Others(c, o, if Mine(o, steps[0]) then s else Try(c, s, steps[0]), steps[1..])
  }

  /** The step that the goroutine's code is at; a select has only the cases its code gives it. */
  function Own(o: Owner, s: State, turn: Turn): Option<Step> {
    if turn.pick.Wait? then None
    else match o
      case TheWorker(w) =>
        if w >= |s.pool.workers| then None
        else (
          match s.pool.workers[w]
          case Exited => None
          case Idle => if turn.pick.Go? then Some(ByWorker(w, Dequeue))
                       else if turn.pick.Done? then Some(ByWorker(w, Exit))
                       else None
          case Publishing(_, pending) =>
            if pending == {} then Some(ByWorker(w, Finish))
            else if turn.pick.Into? then Some(ByWorker(w, Send(turn.pick.sink)))
            else if turn.pick.Done? then Some(ByWorker(w, Abandon))
            else None)
      case TheConsumer => (
        match s.intake.phase
        case Polling => Some(ByConsumer(Poll(turn.batch)))
        case Fetched(_) => Some(ByConsumer(CheckContext))
        case Stopped => None
        case Dispatching(rest, enqueued) =>
          if rest == [] then Some(ByConsumer(EndBatch))
          else if enqueued then Some(ByConsumer(Mark))
          else if rest[0].Malformed? then Some(ByConsumer(SkipMalformed))
          else if turn.pick.Go? then Some(ByConsumer(Submit))
          else if turn.pick.Done? then Some(ByConsumer(Refuse))
          else None)
      case TheKeeper => (
        match s.keeper.phase
        case KeeperIdle => if turn.pick.Go? then Some(ByKeeper(TakeUpdate))
                           else if turn.pick.Done? then Some(ByKeeper(StopKeeper))
                           else None
        case KeeperHas(_) => Some(ByKeeper(GetBook))
        case KeeperRead(_, _) => Some(ByKeeper(UpdateBook))
        case KeeperGone => None)
      case TheWriter => (
        match s.writer.phase
        case WriterIdle => if turn.pick.Go? then Some(ByWriter(TakeWrite))
                           else if turn.pick.Done? then Some(ByWriter(StopWriter))
                           else None
        case BeforeLatest(_) => Some(ByWriter(SetLatest(turn.ok)))
        case BeforePrice(_) => Some(ByWriter(SetPrice(turn.ok)))
        case BeforeGet(_) => Some(ByWriter(ReadBook))
        case BeforeSnapshot(_, _, _) => Some(ByWriter(SetSnapshot(turn.ok)))
        case WriterGone => None)
      case TheBroadcaster =>
        if !s.broadcasting then None
        else if turn.pick.Go? then Some(ByBroadcaster(TakeBroadcast))
        else if turn.pick.Done? then Some(ByBroadcaster(StopBroadcaster))
        else None
  }

  function Moved(c: Config, o: Owner, s: State, turn: Turn): State {
    match Own(o, s, turn)
    case Some(step) => Try(c, s, step)
    case None => s
  }

  /** Where the goroutine and the others are after these turns. */
  function Play(c: Config, o: Owner, s: State, turns: seq<Turn>): State
    decreases |turns|
  {
    if turns == [] then s
    else Play(c, o, Moved(c, o, Others(c, o, s, turns[0].others), turns[0]), turns[1..])
  }

  /** The goroutine has returned. */
  ghost predicate Gone(o: Owner, s: State) {
    match o
    case TheWorker(w) => w < |s.pool.workers| && s.pool.workers[w] == Exited
    case TheConsumer => s.intake.phase == Stopped
    case TheKeeper => s.keeper.phase == KeeperGone
    case TheWriter => s.writer.phase == WriterGone
    case TheBroadcaster => !s.broadcasting
  }

  // ------------------------------------------------------------------ a loop can take every step

  const BARE := Turn([], Wait, [], true)

  /** Every enabled step of a goroutine is the one its code is at, under some pick: the loop takes it. */
  lemma OwnComplete(c: Config, o: Owner, s: State, step: Step) returns (turn: Turn)
    requires Commit.Inv(s) && Mine(o, step) && Do(c, s, step).Some?
    ensures turn.others == [] && Own(o, s, turn) == Some(step)
    ensures Do(c, s, step) == Some(Play(c, o, s, [turn]))
  {
    match step
    case ByWorker(w, a) =>
      turn := BARE.(pick := if a.Send? then Into(a.sink) else if a.Exit? || a.Abandon? then Done else Go);
    case ByConsumer(a) =>
      turn := BARE.(pick := if a.Refuse? then Done else Go, batch := if a.Poll? then a.batch else []);
    case ByKeeper(a) => turn := BARE.(pick := if a.StopKeeper? then Done else Go);
    case ByWriter(a) =>
      turn := BARE.(pick := if a.StopWriter? then Done else Go, ok := if a.SetLatest? || a.SetPrice? || a.SetSnapshot? then a.ok else true);
    case ByBroadcaster(a) => turn := BARE.(pick := if a.StopBroadcaster? then Done else Go);
    assert Play(c, o, s, [turn]) == Moved(c, o, s, turn);
  }

  lemma {:induction false} PlayOn(c: Config, o: Owner, s: State, turns: seq<Turn>, turn: Turn)
    ensures Play(c, o, s, turns + [turn]) == Play(c, o, Play(c, o, s, turns), [turn])
    decreases |turns|
  {
    if turns == [] {
      assert turns + [turn] == [turn];
    } else {
      var next := Moved(c, o, Others(c, o, s, turns[0].others), turns[0]);
      PlayOn(c, o, next, turns[1..], turn);
      assert (turns + [turn])[1..] == turns[1..] + [turn];
    }
  }

  /** A step of the others, with the goroutine not scheduled. */
  lemma OtherTurn(c: Config, o: Owner, s: State, step: Step)
    requires !Mine(o, step)
    ensures Play(c, o, s, [BARE.(others := [step])]) == Try(c, s, step)
  {
    var turn := BARE.(others := [step]);
    assert Others(c, o, s, [step]) == Try(c, s, step);
    assert Own(o, Try(c, s, step), turn) == None;
  }

  /** Every run of the machine is played by every goroutine's loop under some turns. */
  lemma {:induction false} PlaysEveryRun(c: Config, o: Owner, s: State, run: Run, t: State) returns (turns: seq<Turn>)
    requires Commit.Inv(s) && Exec(c, s, run) == Some(t)
    ensures Play(c, o, s, turns) == t && Commit.Inv(t)
  {
    turns := [];
    if run.Then? {
      var mid := Exec(c, s, run.before).value;
      turns := PlaysEveryRun(c, o, s, run.before, mid);
      Commit.StepKeeps(c, mid, run.step, t);
      var turn := BARE.(others := [run.step]);
      if Mine(o, run.step) {
        turn := OwnComplete(c, o, mid, run.step);
      } else {
        OtherTurn(c, o, mid, run.step);
      }
      PlayOn(c, o, s, turns, turn);
      turns := turns + [turn];
    }
  }

  // ------------------------------------------------------------------ what the consumer dispatches

  /** The batches that these turns give the consumer in time: for each poll the batch of its turn, if
      the look at the context that follows does not find it done. `last` is the batch of the turn at
      which the poll in hand was made. */
  function InTime(c: Config, s: State, turns: seq<Turn>, last: seq<Record>): seq<Record>
    decreases |turns|
  {
    if turns == [] then []
    else
      var turn := turns[0];
      var at := Others(c, TheConsumer, s, turn.others);
      var next := Moved(c, TheConsumer, at, turn);
      if turn.pick.Wait? then InTime(c, next, turns[1..], last)
      else if at.intake.phase.Polling? then InTime(c, next, turns[1..], turn.batch)
      else if at.intake.phase.Fetched? && !at.cancelled then last + InTime(c, next, turns[1..], [])
      else InTime(c, next, turns[1..], last)
  }

  lemma {:induction false} OthersKeepAll(c: Config, o: Owner, s: State, steps: seq<Step>)
    ensures Keeps(o, s, Others(c, o, s, steps))
    decreases |steps|
  {
    if steps != [] {
      var next := if Mine(o, steps[0]) then s else Try(c, s, steps[0]);
      if !Mine(o, steps[0]) {
        OthersKeep(c, o, s, steps[0]);
      }
      OthersKeepAll(c, o, next, steps[1..]);
    }
  }

  /** Only the look at the context adds to the stream, and only a poll leads to it. */
  lemma StreamTries(c: Config, s: State, a: ConsumerStep)
    ensures var t := Try(c, s, ByConsumer(a));
            && Commit.Stream(t.intake) == Commit.Stream(s.intake) +
                 (if a.CheckContext? && s.intake.phase.Fetched? && !s.cancelled then s.intake.phase.batch else [])
            && (a.Poll? && s.intake.phase.Polling? ==> t.intake.phase == Fetched(a.batch))
            && (!a.Poll? && t.intake.phase.Fetched? ==> t == s)
  {
  }

  /** One turn of the consumer adds to its stream what it found in time. */
  lemma StreamMoves(c: Config, s: State, turn: Turn)
    ensures var t := Moved(c, TheConsumer, s, turn);
            Commit.Stream(t.intake) == Commit.Stream(s.intake) +
              if !turn.pick.Wait? && s.intake.phase.Fetched? && !s.cancelled then s.intake.phase.batch else []
    ensures !turn.pick.Wait? && s.intake.phase.Polling? ==>
              Moved(c, TheConsumer, s, turn).intake.phase == Fetched(turn.batch)
    ensures turn.pick.Wait? || !s.intake.phase.Polling? ==>
              (Moved(c, TheConsumer, s, turn).intake.phase.Fetched? ==> turn.pick.Wait?)
    ensures turn.pick.Wait? ==> Moved(c, TheConsumer, s, turn) == s
  {
    var step := Own(TheConsumer, s, turn);
    if step.Some? {
      StreamTries(c, s, step.value.c);
      assert Moved(c, TheConsumer, s, turn) == Try(c, s, step.value);
    }
  }

  /** What has been handed to dispatch, or waits in the batch, is what was polled in time, in order. */
  lemma {:induction false} ConsumerStream(c: Config, s: State, turns: seq<Turn>, last: seq<Record>)
    requires s.intake.phase.Fetched? ==> s.intake.phase.batch == last
    ensures Commit.Stream(Play(c, TheConsumer, s, turns).intake) == Commit.Stream(s.intake) + InTime(c, s, turns, last)
    decreases |turns|
  {
    if turns != [] {
      var turn := turns[0];
      var at := Others(c, TheConsumer, s, turn.others);
      var next := Moved(c, TheConsumer, at, turn);
      OthersKeepAll(c, TheConsumer, s, turn.others);
      StreamMoves(c, at, turn);
      var handed := if turn.pick.Wait? then last else if at.intake.phase.Polling? then turn.batch
                  else if at.intake.phase.Fetched? && !at.cancelled then [] else last;
      ConsumerStream(c, next, turns[1..], handed);
    }
  }
}
