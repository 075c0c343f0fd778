/** shared/kafka/lag_cache.go: the cached lag reading, its refresh loop and its health verdict.
    Time is integer nanoseconds; ZERO_TIME is the zero time.Time, which marks "never read". */
module LagCaches {
  import opened Trades
  import opened Retry
  import opened Lag

  const ZERO_TIME := 0
  const DEFAULT_INTERVAL := 10 * SECOND
  const STALE_MULTIPLE := 3
  const REFRESH_TIMEOUT := 5 * SECOND

  /** One finished refresh: a reading stamped with the clock, or an error. */
  datatype Outcome = Success(lag: ConsumerLag, at: int) | Failure(err: string)

  datatype Snap = Snap(lag: ConsumerLag, asOf: int, err: Option<string>, failures: nat)

  const NO_SNAP := Snap(NO_LAG, ZERO_TIME, None, 0)

  // ------------------------------------------------------------------ the cache as a function of history

  function LastSuccess(h: seq<Outcome>): (r: int)
    ensures -1 <= r < |h|
    ensures r >= 0 ==> h[r].Success?
    ensures forall i :: r < i < |h| ==> h[i].Failure?
  {
    if h == [] then -1
    else if h[|h| - 1].Success? then |h| - 1
    else LastSuccess(h[..|h| - 1])
  }

  /** What the cache must hold after h: the last success, the last outcome's error, and the
      number of failures since. */
  function After(h: seq<Outcome>): Snap {
    var i := LastSuccess(h);
    Snap(if i < 0 then NO_LAG else h[i].lag,
         if i < 0 then ZERO_TIME else h[i].at,
         if h != [] && h[|h| - 1].Failure? then Some(h[|h| - 1].err) else None,
         |h| - 1 - i)
  }

  lemma AfterPush(h: seq<Outcome>, o: Outcome)
    ensures After(h + [o]) ==
              if o.Success? then Snap(o.lag, o.at, None, 0)
              else Snap(After(h).lag, After(h).asOf, Some(o.err), After(h).failures + 1)
  {
    assert (h + [o])[..|h|] == h;
  }

  /** The clock never shows the zero time. */
  ghost predicate Stamped(h: seq<Outcome>) {
    forall i :: 0 <= i < |h| && h[i].Success? ==> h[i].at > ZERO_TIME
  }

  /** Why a check fails, if it does. */
  datatype Verdict = Healthy | NotConfigured | NoReading | Stale | NoMembers

  /** The verdict from the history alone. */
  function Health(h: seq<Outcome>, now: int, staleAfter: int): Verdict {
    var i := LastSuccess(h);
    if i < 0 then NoReading
    else if now - h[i].at > staleAfter then Stale
    else if Stalled(h[i].lag) then NoMembers
    else Healthy
  }

  // ------------------------------------------------------------------ jitter

  /** What a draw u takes of a whole, truncated. */
  function Share(u: real, whole: real): int { (u * whole).Floor }

  /** The interval less a fifth, plus a random part of two fifths; both are truncated. */
  function Jitter(d: nat, u: real): int {
    var spread := d as real * 0.2;
    d - spread.Floor + Share(u, 2.0 * spread)
  }

  function JitterMin(d: nat): int { d - d / 5 }

  /** The draw is below one, so a whole two fifths are never added. */
  function JitterMax(d: nat): int { if d == 0 then 0 else JitterMin(d) + (2 * d - 1) / 5 }

  lemma FloorOfFifths(n: nat, x: real)
    requires x == n as real * 0.2
    ensures x.Floor == n / 5
  {
    assert n == 5 * (n / 5) + n % 5;
    assert (n / 5) as real <= x < (n / 5) as real + 1.0;
  }

  lemma Scaled(u: real, whole: real, x: real)
    requires 0.0 <= u < 1.0 && whole > 0.0 && x == u * whole
    ensures 0.0 <= x < whole
  {
    assert (1.0 - u) * whole == whole - x;
  }

  lemma FloorBelow(d: nat, x: real)
    requires d > 0 && 0.0 <= x < d as real * 0.4
    ensures 0 <= x.Floor <= (2 * d - 1) / 5
  {
    assert 5.0 * x.Floor as real < (2 * d) as real;
    assert 5 * x.Floor < 2 * d;
  }

  lemma ShareBounds(d: nat, u: real, whole: real)
    requires 0.0 <= u < 1.0 && whole == d as real * 0.4
    ensures JitterMin(d) <= JitterMin(d) + Share(u, whole) <= JitterMax(d)
  {
    var x := u * whole;
    if d > 0 {
      Scaled(u, whole, x);
      FloorBelow(d, x);
    }
  }

  lemma JitterBounds(d: nat, u: real)
    requires 0.0 <= u < 1.0
    ensures JitterMin(d) <= Jitter(d, u) <= JitterMax(d)
  {
    FloorOfFifths(d, d as real * 0.2);
    ShareBounds(d, u, 2.0 * (d as real * 0.2));
  }

  /** The draw that takes exactly `extra` of two fifths of d. */
  lemma DrawFor(d: nat, extra: nat, whole: real) returns (u: real)
    requires 5 * extra < 2 * d && whole == d as real * 0.4
    ensures 0.0 <= u < 1.0 && Share(u, whole) == extra
  {
    u := extra as real / whole;
    assert u * whole == extra as real;
    Fraction(extra as real, whole, u);
  }

  lemma Fraction(x: real, whole: real, u: real)
    requires 0.0 <= x < whole && u * whole == x
    ensures 0.0 <= u < 1.0
  {
  }

  /** The jittered interval takes exactly the values between its bounds. */
  lemma JitterExactly(d: nat, v: int)
    ensures (exists u :: 0.0 <= u < 1.0 && Jitter(d, u) == v) <==> JitterMin(d) <= v <= JitterMax(d)
  {
    if u :| 0.0 <= u < 1.0 && Jitter(d, u) == v {
      JitterBounds(d, u);
    }
    if JitterMin(d) <= v <= JitterMax(d) {
      if d == 0 {
        JitterBounds(0, 0.0);
        assert Jitter(0, 0.0) == v;
      } else {
        var u := DrawFor(d, v - JitterMin(d), 2.0 * (d as real * 0.2));
        FloorOfFifths(d, d as real * 0.2);
        assert Jitter(d, u) == v;
      }
    }
  }

  // ------------------------------------------------------------------ laps of the refresh loop

  /** One turn of Run: how long the read took, what it gave, and the wait after it. */
  datatype Lap = Lap(read: int, result: Result<ConsumerLag>, delay: int)

  /** When lap n starts, if lap 0 starts at t0. */
  function StartOf(t0: int, laps: seq<Lap>): int {
    if laps == [] then t0
    else StartOf(t0, laps[..|laps| - 1]) + laps[|laps| - 1].read + laps[|laps| - 1].delay
  }

  function OutcomeOf(start: int, lap: Lap): Outcome {
    match lap.result
    case Ok(lag) => Success(lag, start + lap.read)
    case Err(e) => Failure(e)
  }

  function Outcomes(t0: int, laps: seq<Lap>): (h: seq<Outcome>)
    ensures |h| == |laps|
  {
    if laps == [] then []
    else Outcomes(t0, laps[..|laps| - 1]) + [OutcomeOf(StartOf(t0, laps[..|laps| - 1]), laps[|laps| - 1])]
  }

  /** A lap that Run can take after the given number of consecutive failures. */
  ghost predicate LegalLap(interval: nat, failures: nat, lap: Lap) {
    && 0 <= lap.read <= REFRESH_TIMEOUT
    && if lap.result.Ok? then JitterMin(interval) <= lap.delay <= JitterMax(interval)
       else 0 <= lap.delay <= Ceiling(DEFAULT_BASE, DEFAULT_MAX, failures)
  }

  ghost predicate Legal(t0: int, interval: nat, laps: seq<Lap>) {
    laps == [] ||
    var earlier := laps[..|laps| - 1];
    && Legal(t0, interval, earlier)
    && LegalLap(interval, After(Outcomes(t0, earlier)).failures, laps[|laps| - 1])
  }

  lemma TimePush(t0: int, laps: seq<Lap>, lap: Lap)
    ensures Outcomes(t0, laps + [lap]) == Outcomes(t0, laps) + [OutcomeOf(StartOf(t0, laps), lap)]
    ensures StartOf(t0, laps + [lap]) == StartOf(t0, laps) + lap.read + lap.delay
  {
    assert (laps + [lap])[..|laps|] == laps;
  }

  lemma LapPush(t0: int, interval: nat, laps: seq<Lap>, lap: Lap)
    requires Legal(t0, interval, laps) && LegalLap(interval, After(Outcomes(t0, laps)).failures, lap)
    ensures Legal(t0, interval, laps + [lap])
    ensures Outcomes(t0, laps + [lap]) == Outcomes(t0, laps) + [OutcomeOf(StartOf(t0, laps), lap)]
    ensures StartOf(t0, laps + [lap]) == StartOf(t0, laps) + lap.read + lap.delay
  {
    TimePush(t0, laps, lap);
    assert (laps + [lap])[..|laps|] == laps;
  }

  /** What the environment decides about a lap: the read, the jitter's draw, the backoff's draw. */
  datatype Tick = Tick(read: int, result: Result<ConsumerLag>, draw: real, roll: nat)

  ghost predicate TickOk(tick: Tick) { 0 <= tick.read <= REFRESH_TIMEOUT && 0.0 <= tick.draw < 1.0 }

  ghost predicate TicksOk(ticks: seq<Tick>) { forall i :: 0 <= i < |ticks| ==> TickOk(ticks[i]) }

  function BackoffCap(failures: nat): (r: nat)
    ensures r == Ceiling(DEFAULT_BASE, DEFAULT_MAX, failures)
  {
    DefaultsSound();
    SoundBound(DEFAULT_BASE, DEFAULT_MAX, failures);
    Ceiling(DEFAULT_BASE, DEFAULT_MAX, failures)
  }

  /** The jitter is a field of the cache, Jitter unless another one is injected. */
  type Jitters = (nat, real) -> int

  ghost predicate Forward(jitter: Jitters) {
    forall d, u :: 0.0 <= u < 1.0 ==> jitter(d, u) >= 0
  }

  lemma JitterForward()
    ensures Forward(Jitter)
  {
    forall d: nat, u: real | 0.0 <= u < 1.0 ensures Jitter(d, u) >= 0 {
      JitterBounds(d, u);
    }
  }

  /** The lap that the environment's decisions make after the given number of failures. */
  function LapOf(jitter: Jitters, interval: nat, failures: nat, tick: Tick): Lap {
    Lap(tick.read, tick.result,
        if tick.result.Ok? then jitter(interval, tick.draw) else Draw(tick.roll, BackoffCap(failures)))
  }

  /** The loop head: the laps so far, their outcomes, and the time. */
  datatype Head = Head(laps: seq<Lap>, history: seq<Outcome>, clock: int)

  function Onward(jitter: Jitters, interval: nat, h: Head, tick: Tick): Head {
    var lap := LapOf(jitter, interval, After(h.history).failures, tick);
    Head(h.laps + [lap], h.history + [OutcomeOf(h.clock, lap)], h.clock + lap.read + lap.delay)
  }

  /** The loop head that the environment's decisions lead to. */
  function HeadAfter(t0: int, jitter: Jitters, interval: nat, ticks: seq<Tick>): Head {
    if ticks == [] then Head([], [], t0)
    else Onward(jitter, interval, HeadAfter(t0, jitter, interval, ticks[..|ticks| - 1]), ticks[|ticks| - 1])
  }

  lemma HeadPush(t0: int, jitter: Jitters, interval: nat, ticks: seq<Tick>, tick: Tick)
    ensures HeadAfter(t0, jitter, interval, ticks + [tick]) ==
              Onward(jitter, interval, HeadAfter(t0, jitter, interval, ticks), tick)
  {
    assert (ticks + [tick])[..|ticks|] == ticks;
  }

  /** Its history and time are those of its laps. */
  lemma {:induction false} HeadMeaning(t0: int, jitter: Jitters, interval: nat, ticks: seq<Tick>)
    ensures var h := HeadAfter(t0, jitter, interval, ticks);
            |h.laps| == |ticks| && h.history == Outcomes(t0, h.laps) && h.clock == StartOf(t0, h.laps)
  {
    if ticks != [] {
      var n := |ticks| - 1;
      var earlier := HeadAfter(t0, jitter, interval, ticks[..n]);
      HeadMeaning(t0, jitter, interval, ticks[..n]);
      TimePush(t0, earlier.laps, LapOf(jitter, interval, After(earlier.history).failures, ticks[n]));
    }
  }

  function LapsOf(t0: int, jitter: Jitters, interval: nat, ticks: seq<Tick>): seq<Lap> {
    HeadAfter(t0, jitter, interval, ticks).laps
  }

  /** The environment's decisions are possible ones and make these laps. */
  ghost predicate Makes(t0: int, jitter: Jitters, interval: nat, ticks: seq<Tick>, laps: seq<Lap>) {
    TicksOk(ticks) && LapsOf(t0, jitter, interval, ticks) == laps
  }

  lemma MakesPush(t0: int, jitter: Jitters, interval: nat, ticks: seq<Tick>, laps: seq<Lap>, tick: Tick)
    requires Makes(t0, jitter, interval, ticks, laps) && TickOk(tick)
    ensures Makes(t0, jitter, interval, ticks + [tick],
                  laps + [LapOf(jitter, interval, After(Outcomes(t0, laps)).failures, tick)])
  {
    HeadMeaning(t0, jitter, interval, ticks);
    HeadPush(t0, jitter, interval, ticks, tick);
  }

  lemma LapOfLegal(interval: nat, failures: nat, tick: Tick)
    requires TickOk(tick)
    ensures LegalLap(interval, failures, LapOf(Jitter, interval, failures, tick))
  {
    JitterBounds(interval, tick.draw);
  }

  lemma {:induction false} LapsLegal(t0: int, interval: nat, ticks: seq<Tick>)
    requires TicksOk(ticks)
    ensures Legal(t0, interval, LapsOf(t0, Jitter, interval, ticks))
  {
    if ticks != [] {
      var n := |ticks| - 1;
      var earlier := HeadAfter(t0, Jitter, interval, ticks[..n]);
      var failures := After(earlier.history).failures;
      LapsLegal(t0, interval, ticks[..n]);
      HeadMeaning(t0, Jitter, interval, ticks[..n]);
      LapOfLegal(interval, failures, ticks[n]);
      LapPush(t0, interval, earlier.laps, LapOf(Jitter, interval, failures, ticks[n]));
    }
  }

  /** The decisions that make a legal lap. */
  lemma TickFor(interval: nat, failures: nat, lap: Lap) returns (tick: Tick)
    requires LegalLap(interval, failures, lap)
    ensures TickOk(tick) && LapOf(Jitter, interval, failures, tick) == lap
  {
    if lap.result.Ok? {
      JitterExactly(interval, lap.delay);
      var u :| 0.0 <= u < 1.0 && Jitter(interval, u) == lap.delay;
      tick := Tick(lap.read, lap.result, u, 0);
    } else {
      tick := Tick(lap.read, lap.result, 0.0, lap.delay);
    }
  }

  lemma TickMore(t0: int, interval: nat, ticks: seq<Tick>, laps: seq<Lap>, lap: Lap) returns (more: seq<Tick>)
    requires Makes(t0, Jitter, interval, ticks, laps)
    requires LegalLap(interval, After(Outcomes(t0, laps)).failures, lap)
    ensures Makes(t0, Jitter, interval, more, laps + [lap])
  {
    var tick := TickFor(interval, After(Outcomes(t0, laps)).failures, lap);
    MakesPush(t0, Jitter, interval, ticks, laps, tick);
    more := ticks + [tick];
  }

  lemma {:induction false} TicksFor(t0: int, interval: nat, laps: seq<Lap>) returns (ticks: seq<Tick>)
    requires Legal(t0, interval, laps)
    ensures Makes(t0, Jitter, interval, ticks, laps)
    decreases |laps|
  {
    if laps == [] {
      ticks := [];
    } else {
      var earlier, lap := laps[..|laps| - 1], laps[|laps| - 1];
      ticks := TicksFor(t0, interval, earlier);
      ticks := TickMore(t0, interval, ticks, earlier, lap);
      assert laps == earlier + [lap];
    }
  }

  /** The laps that the loop can take are exactly the legal ones. */
  lemma LegalExactly(t0: int, interval: nat, laps: seq<Lap>)
    ensures Legal(t0, interval, laps) <==> exists ticks :: Makes(t0, Jitter, interval, ticks, laps)
  {
    if Legal(t0, interval, laps) {
      var ticks := TicksFor(t0, interval, laps);
    }
    if ticks :| Makes(t0, Jitter, interval, ticks, laps) {
      LapsLegal(t0, interval, ticks);
    }
  }

  // ------------------------------------------------------------------ the cache

  class LagCache {
    const interval: nat
    const staleAfter: nat
    const jitter: Jitters
    var snapshot: Option<Snap>
    ghost var history: seq<Outcome>

    ghost predicate Valid()
      reads this
    {
      && staleAfter == STALE_MULTIPLE * interval && interval > 0
      && Stamped(history)
      && (snapshot.None? ==> history == [])
      && (snapshot.Some? ==> snapshot.value == After(history))
    }

    constructor (interval: int)
      ensures Valid() && history == []
      ensures this.interval == if interval <= 0 then DEFAULT_INTERVAL else interval
      ensures this.interval == (if interval <= 0 then 10_000_000_000 else interval) && staleAfter == 3 * this.interval
      ensures jitter == Jitter && Forward(jitter)
    {
      var i: nat := if interval <= 0 then DEFAULT_INTERVAL else interval;
      this.interval, this.staleAfter := i, i * STALE_MULTIPLE;
      jitter := Jitter;
      snapshot, history := None, [];
      JitterForward();
    }

    method Snapshot() returns (s: Snap)
      requires Valid()
      ensures s == After(history)
    {
      match snapshot {
        case None => return NO_SNAP;
        case Some(v) => return v;
      }
    }

    /** refresh, with the read's result and the clock after it: a failure keeps the last good
        reading and counts; a success replaces it and clears the count. */
    method Refresh(result: Result<ConsumerLag>, now: int) returns (failed: bool)
      requires Valid() && now > ZERO_TIME
      modifies this
      ensures Valid() && failed == result.Err?
      ensures history == old(history) + [OutcomeOf(now, Lap(0, result, 0))]
      ensures result.Ok? ==> snapshot == Some(Snap(result.value, now, None, 0))
      ensures result.Err? ==>
                snapshot == Some(Snap(After(old(history)).lag, After(old(history)).asOf, Some(result.error),
                                      After(old(history)).failures + 1))
    {
      var previous := Snapshot();
      AfterPush(history, OutcomeOf(now, Lap(0, result, 0)));
      match result {
        case Err(e) =>
          snapshot := Some(Snap(previous.lag, previous.asOf, Some(e), previous.failures + 1));
        case Ok(lag) =>
          snapshot := Some(Snap(lag, now, None, 0));
      }
      history := history + [OutcomeOf(now, Lap(0, result, 0))];
      failed := result.Err?;
    }

    method Age(now: int) returns (age: int, ok: bool)
      requires Valid()
      ensures ok <==> LastSuccess(history) >= 0
      ensures ok ==> age == now - history[LastSuccess(history)].at
    {
      var s := Snapshot();
      if s.asOf == ZERO_TIME {
        return 0, false;
      }
      return now - s.asOf, true;
    }

    /** Check reads only the snapshot, yet its verdict is the history's: healthy exactly when some
        refresh succeeded, the last success is at most staleAfter old and not stalled, whatever
        failed after it. */
    method Check(now: int) returns (v: Verdict)
      requires Valid()
      ensures v == Health(history, now, staleAfter)
      ensures v == NoReading <==> forall i :: 0 <= i < |history| ==> history[i].Failure?
      ensures v == Stale <==>
                exists i :: 0 <= i < |history| && history[i].Success?
                            && (forall j :: i < j < |history| ==> history[j].Failure?)
                            && now - history[i].at > staleAfter
      ensures v == NoMembers <==>
                exists i :: 0 <= i < |history| && history[i].Success?
                            && (forall j :: i < j < |history| ==> history[j].Failure?)
                            && now - history[i].at <= staleAfter && Stalled(history[i].lag)
      ensures v == Healthy <==>
                exists i :: 0 <= i < |history| && history[i].Success?
                            && (forall j :: i < j < |history| ==> history[j].Failure?)
                            && now - history[i].at <= staleAfter && !Stalled(history[i].lag)
    {
      var s := Snapshot();
      if s.asOf == ZERO_TIME {
        return NoReading;
      }
      var age := now - s.asOf;
      if age > staleAfter {
        return Stale;
      }
      if Stalled(s.lag) {
        return NoMembers;
      }
      return Healthy;
    }

    /** The backoff has the default settings and counts the consecutive failures. */
    ghost predicate InStep(backoff: Backoff)
      reads this, backoff
    {
      && Valid() && backoff.base == DEFAULT_BASE && backoff.max == DEFAULT_MAX
      && backoff.attempt == After(history).failures
    }

    /** One turn of the loop, from the head with the laps so far. */
    method Turn(ghost laps: seq<Lap>, clock: int, tick: Tick, backoff: Backoff) returns (lap: Lap)
      requires InStep(backoff) && Forward(jitter) && clock > ZERO_TIME && TickOk(tick)
      modifies this, backoff
      ensures InStep(backoff) && lap.read + lap.delay >= 0
      ensures Head(laps + [lap], history, clock + lap.read + lap.delay) ==
                Onward(jitter, interval, Head(laps, old(history), clock), tick)
    {
      var delay := jitter(interval, tick.draw);
      DefaultsSound();
      AfterPush(history, OutcomeOf(clock + tick.read, Lap(0, tick.result, 0)));
      var failed := Refresh(tick.result, clock + tick.read);
      if failed {
        delay := backoff.Next(tick.roll);
      } else {
        backoff.Reset();
      }
      lap := Lap(tick.read, tick.result, delay);
    }

    /** The refresh loop over a finite number of uncancelled laps starting at t0. At every loop
        head the backoff's attempt count equals the consecutive failures, and the laps, the
        history and the time are those that the environment's decisions lead to. */
    method Run(t0: int, ticks: seq<Tick>) returns (laps: seq<Lap>, clock: int, backoff: Backoff)
      requires Valid() && Forward(jitter) && history == [] && t0 > ZERO_TIME && TicksOk(ticks)
      modifies this
      ensures fresh(backoff) && InStep(backoff)
      ensures Head(laps, history, clock) == HeadAfter(t0, jitter, interval, ticks)
    {
      backoff := new Backoff(DEFAULT_BASE, DEFAULT_MAX, DEFAULT_RESET_AFTER);
      laps, clock := [], t0;
      for i := 0 to |ticks|
        invariant fresh(backoff) && InStep(backoff) && clock >= t0
        invariant Head(laps, history, clock) == HeadAfter(t0, jitter, interval, ticks[..i])
      {
        HeadPush(t0, jitter, interval, ticks[..i], ticks[i]);
        assert ticks[..i] + [ticks[i]] == ticks[..i + 1];
        var lap := Turn(laps, clock, ticks[i], backoff);
        laps, clock := laps + [lap], clock + lap.read + lap.delay;
      }
      assert ticks[..|ticks|] == ticks;
    }
  }

  /** A nil cache answers instead of panicking. */
  method CheckOf(cache: LagCache?, now: int) returns (v: Verdict)
    requires cache != null ==> cache.Valid()
    ensures v == if cache == null then NotConfigured else Health(cache.history, now, cache.staleAfter)
  {
    if cache == null {
      return NotConfigured;
    }
    v := cache.Check(now);
  }

  // ------------------------------------------------------------------ how old a reading can get

  /** The longest time from a success to the start of the lap after f failures: one jittered
      interval, then for each failure a read timeout and a backoff ceiling. */
  function Reach(interval: nat, f: nat): int {
    if f == 0 then JitterMax(interval)
    else Reach(interval, f - 1) + REFRESH_TIMEOUT + Ceiling(DEFAULT_BASE, DEFAULT_MAX, f - 1)
  }

  /** The largest age of a reading while at most k consecutive refreshes fail. */
  function MaxAge(interval: nat, k: nat): int { Reach(interval, k) + REFRESH_TIMEOUT }

  /** The same bound in closed form: 1.2 intervals, k + 1 read timeouts, and the k backoff
      ceilings min(2^i s, 30 s). */
  lemma {:induction false} MaxAgeFormula(interval: nat, k: nat)
    ensures MaxAge(interval, k) ==
              JitterMax(interval) + (k + 1) * REFRESH_TIMEOUT + CeilingSum(DEFAULT_BASE, DEFAULT_MAX, k)
  {
    if k > 0 {
      MaxAgeFormula(interval, k - 1);
      OneMore(k, REFRESH_TIMEOUT);
    }
  }

  lemma OneMore(k: int, x: int)
    ensures (k + 1) * x == k * x + x
  {
  }

  lemma DefaultCeiling(k: nat)
    ensures Ceiling(DEFAULT_BASE, DEFAULT_MAX, k) == Min(SECOND * Pow2(k), 30 * SECOND)
  {
    SmallMaxNeverOverflows(DEFAULT_BASE, DEFAULT_MAX);
    CeilingAt(DEFAULT_BASE, DEFAULT_MAX, k);
  }

  lemma {:induction false} ReachGrows(interval: nat, i: nat, j: nat)
    requires i <= j
    ensures Reach(interval, i) <= Reach(interval, j)
  {
    if i < j {
      ReachGrows(interval, i, j - 1);
      SmallMaxNeverOverflows(DEFAULT_BASE, DEFAULT_MAX);
      CeilingMonotone(DEFAULT_BASE, DEFAULT_MAX, j - 1, j - 1);
    }
  }

  lemma {:induction false} SinceSuccess(t0: int, interval: nat, laps: seq<Lap>)
    requires Legal(t0, interval, laps) && LastSuccess(Outcomes(t0, laps)) >= 0
    ensures StartOf(t0, laps) - After(Outcomes(t0, laps)).asOf
              <= Reach(interval, After(Outcomes(t0, laps)).failures)
  {
    var n := |laps| - 1;
    var earlier, lap := laps[..n], laps[n];
    AfterPush(Outcomes(t0, earlier), OutcomeOf(StartOf(t0, earlier), lap));
    if lap.result.Err? {
      SinceSuccess(t0, interval, earlier);
    }
  }

  /** Staleness bound: as long as the laps so far end in at most k failures, at every time until
      the read in flight has returned the last good reading is at most MaxAge old. */
  lemma AgeBound(t0: int, interval: nat, laps: seq<Lap>, k: nat, now: int)
    requires Legal(t0, interval, laps) && Within(t0, laps, k, now)
    ensures now - After(Outcomes(t0, laps)).asOf <= MaxAge(interval, k)
  {
    SinceSuccess(t0, interval, laps);
    ReachGrows(interval, After(Outcomes(t0, laps)).failures, k);
  }

  // ------------------------------------------------------------------ when staleness is impossible

  /** After the laps so far, at time `now`, a success has been seen and at most k failures since,
      and the read in flight, if any, has not outlasted its timeout. */
  ghost predicate Within(t0: int, laps: seq<Lap>, k: nat, now: int) {
    && LastSuccess(Outcomes(t0, laps)) >= 0 && After(Outcomes(t0, laps)).failures <= k
    && now <= StartOf(t0, laps) + REFRESH_TIMEOUT
  }

  /** In no run of the loop, whatever the environment decides, does a time at which the laps so
      far end in at most k failures find the last good reading stale. */
  ghost predicate NeverStale(interval: nat, k: nat) {
    forall t0, ticks, now {:trigger Within(t0, LapsOf(t0, Jitter, interval, ticks), k, now)} ::
      t0 > ZERO_TIME && TicksOk(ticks) && Within(t0, LapsOf(t0, Jitter, interval, ticks), k, now) ==>
        Health(Outcomes(t0, LapsOf(t0, Jitter, interval, ticks)), now, STALE_MULTIPLE * interval) != Stale
  }

  /** Laps that take as long as they may: a success, then n failed refreshes. */
  function Slowest(interval: nat, n: nat): seq<Lap> {
    if n == 0 then [Lap(0, Ok(NO_LAG), JitterMax(interval))]
    else Slowest(interval, n - 1) + [SlowFailure(n)]
  }

  function SlowFailure(n: nat): Lap
    requires n > 0
  {
    Lap(REFRESH_TIMEOUT, Err(""), Ceiling(DEFAULT_BASE, DEFAULT_MAX, n - 1))
  }

  /** `laps` is a success at t0 followed by n failures that takes the longest possible. */
  ghost predicate Slow(t0: int, interval: nat, n: nat, laps: seq<Lap>) {
    var h := Outcomes(t0, laps);
    && Legal(t0, interval, laps) && |laps| == n + 1 && LastSuccess(h) == 0 && h[0].at == t0
    && StartOf(t0, laps) - t0 == Reach(interval, n)
  }

  lemma SlowStart(t0: int, interval: nat)
    ensures Slow(t0, interval, 0, Slowest(interval, 0))
  {
    var first := Lap(0, Ok(NO_LAG), JitterMax(interval));
    LapPush(t0, interval, [], first);
    assert Slowest(interval, 0) == [] + [first];
  }

  lemma StillFirst(h: seq<Outcome>)
    requires LastSuccess(h) == 0
    ensures LastSuccess(h + [Failure("")]) == 0
  {
    assert (h + [Failure("")])[..|h|] == h;
  }

  lemma SlowerStill(t0: int, interval: nat, n: nat, laps: seq<Lap>)
    requires n > 0 && Slow(t0, interval, n - 1, laps)
    ensures Slow(t0, interval, n, laps + [SlowFailure(n)])
  {
    SmallMaxNeverOverflows(DEFAULT_BASE, DEFAULT_MAX);
    CeilingMonotone(DEFAULT_BASE, DEFAULT_MAX, n - 1, n - 1);
    LapPush(t0, interval, laps, SlowFailure(n));
    StillFirst(Outcomes(t0, laps));
  }

  lemma {:induction false} SlowestLaps(t0: int, interval: nat, n: nat)
    ensures Slow(t0, interval, n, Slowest(interval, n))
  {
    if n == 0 {
      SlowStart(t0, interval);
    } else {
      SlowestLaps(t0, interval, n - 1);
      SlowerStill(t0, interval, n, Slowest(interval, n - 1));
    }
  }

  /** The age bound is attained, for every interval and every number of failures, by a run of the
      loop. */
  lemma AgeBoundTight(interval: nat, k: nat) returns (ticks: seq<Tick>)
    ensures var laps := LapsOf(1, Jitter, interval, ticks);
            var h := Outcomes(1, laps);
            && TicksOk(ticks) && LastSuccess(h) >= 0 && After(h).failures == k
            && StartOf(1, laps) + REFRESH_TIMEOUT - After(h).asOf == MaxAge(interval, k)
  {
    SlowestLaps(1, interval, k);
    ticks := TicksFor(1, interval, Slowest(interval, k));
  }

  /** Up to k failed refreshes in a row can never make a check report a stale reading if and only
      if the largest age for k failures fits into three intervals. */
  lemma NeverStaleExactly(interval: nat, k: nat)
    ensures NeverStale(interval, k) <==> MaxAge(interval, k) <= STALE_MULTIPLE * interval
  {
    if MaxAge(interval, k) <= STALE_MULTIPLE * interval {
      forall t0, ticks, now | t0 > ZERO_TIME && TicksOk(ticks) && Within(t0, LapsOf(t0, Jitter, interval, ticks), k, now)
        ensures Health(Outcomes(t0, LapsOf(t0, Jitter, interval, ticks)), now, STALE_MULTIPLE * interval) != Stale {
        LapsLegal(t0, interval, ticks);
        AgeBound(t0, interval, LapsOf(t0, Jitter, interval, ticks), k, now);
      }
    } else {
      var ticks := AgeBoundTight(interval, k);
      var laps := LapsOf(1, Jitter, interval, ticks);
      var now := StartOf(1, laps) + REFRESH_TIMEOUT;
      assert Within(1, laps, k, now);
      assert Health(Outcomes(1, laps), now, STALE_MULTIPLE * interval) == Stale;
    }
  }

  lemma DefaultAges()
    ensures MaxAge(DEFAULT_INTERVAL, 2) == STALE_MULTIPLE * DEFAULT_INTERVAL - 1
    ensures MaxAge(DEFAULT_INTERVAL, 3) > STALE_MULTIPLE * DEFAULT_INTERVAL
  {
    DefaultCeiling(0);
    DefaultCeiling(1);
    DefaultCeiling(2);
    assert Pow2(0) == 1 && Pow2(1) == 2 && Pow2(2) == 4;
    var reach2 := Reach(DEFAULT_INTERVAL, 2);
    assert reach2 == Reach(DEFAULT_INTERVAL, 1) + REFRESH_TIMEOUT + Ceiling(DEFAULT_BASE, DEFAULT_MAX, 1);
    assert Reach(DEFAULT_INTERVAL, 3) == reach2 + REFRESH_TIMEOUT + Ceiling(DEFAULT_BASE, DEFAULT_MAX, 2);
  }

  /** With the default ten seconds, two failed refreshes in a row are always absorbed, up to one
      nanosecond below the limit of 30 s, and three are not. */
  lemma DefaultAbsorbsTwo(k: nat)
    ensures NeverStale(DEFAULT_INTERVAL, k) <==> k <= 2
  {
    DefaultAges();
    NeverStaleExactly(DEFAULT_INTERVAL, k);
    if k <= 2 {
      ReachGrows(DEFAULT_INTERVAL, k, 2);
    } else {
      ReachGrows(DEFAULT_INTERVAL, 3, k);
    }
  }

  /** The multiple of three does not protect short intervals: at two seconds a reading can go
      stale with no refresh failing at all, because one read may take five seconds. */
  lemma ShortIntervalFlaps()
    ensures !NeverStale(2 * SECOND, 0)
  {
    NeverStaleExactly(2 * SECOND, 0);
  }
}
