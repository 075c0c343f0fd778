/** shared/retry: jittered exponential backoff in 64-bit nanoseconds, and the reconnect loop. */
module Retry {

  const SECOND := 1_000_000_000
  const DEFAULT_BASE := 1 * SECOND
  const DEFAULT_MAX := 30 * SECOND
  const DEFAULT_RESET_AFTER := 120 * SECOND

  const TWO62 := 0x4000_0000_0000_0000
  const TWO63 := 0x8000_0000_0000_0000
  const TWO64 := 0x1_0000_0000_0000_0000

  predicate IsInt64(d: int) { -TWO63 <= d < TWO63 }

  /** int64 doubling, wrapping around. */
  function Doubled(d: int): int
    requires IsInt64(d)
  {
    if 2 * d >= TWO63 then 2 * d - TWO64 else if 2 * d < -TWO63 then 2 * d + TWO64 else 2 * d
  }

  function Min(a: int, b: int): int { if a <= b then a else b }

  function Pow2(n: nat): (p: nat)
    ensures p >= 1
  {
    if n == 0 then 1 else 2 * Pow2(n - 1)
  }

  /** The early-exit doubling loop as the machine runs it, overflow included. */
  function Climb(d: int, max: int, attempt: nat): (r: int)
    requires IsInt64(d) && IsInt64(max)
    ensures IsInt64(r)
    decreases attempt
  {
    if attempt == 0 || d >= max then d else Climb(Doubled(d), max, attempt - 1)
  }

  function Ceiling(base: int, max: int, attempt: nat): (r: int)
    requires IsInt64(base) && IsInt64(max)
    ensures IsInt64(r) && r <= max
  {
    Min(Climb(base, max, attempt), max)
  }

  /** Some doubling on the way to max starts from 2^62 or more, and so leaves int64. */
  ghost predicate Overflows(base: int, max: int) {
    exists i: nat :: TWO62 <= base * Pow2(i) < max
  }

  lemma {:induction false} Pow2Monotone(i: nat, j: nat)
    requires i <= j
    ensures Pow2(i) <= Pow2(j)
  {
    if i < j {
      Pow2Monotone(i, j - 1);
    }
  }

  lemma ScaleMonotone(base: nat, i: nat, j: nat)
    requires i <= j
    ensures base * Pow2(i) <= base * Pow2(j)
    ensures base * Pow2(i + 1) == 2 * (base * Pow2(i))
  {
    Pow2Monotone(i, j);
    assert base * Pow2(i) <= base * Pow2(j) by {
      MulMonotone(base, Pow2(i), Pow2(j));
    }
  }

  lemma MulMonotone(b: nat, x: nat, y: nat)
    requires x <= y
    ensures b * x <= b * y
  {
    assert b * y == b * x + b * (y - x);
  }

  /** From the i-th doubling on, without overflow the loop reaches base * 2^(i + left), capped. */
  lemma {:induction false} ClimbClosed(base: nat, max: int, i: nat, left: nat)
    requires IsInt64(base) && IsInt64(max) && !Overflows(base, max)
    requires IsInt64(base * Pow2(i))
    ensures Min(Climb(base * Pow2(i), max, left), max) == Min(base * Pow2(i + left), max)
    decreases left
  {
    var d := base * Pow2(i);
    ScaleMonotone(base, i, i + left);
    if left > 0 && d < max {
      assert d < TWO62;
      assert Doubled(d) == base * Pow2(i + 1);
      ClimbClosed(base, max, i + 1, left - 1);
      assert i + 1 + (left - 1) == i + left;
    }
  }

  /** Up to the first overflowing doubling the loop climbs exactly. */
  lemma {:induction false} ClimbTo(base: nat, max: int, n: nat, i: nat)
    requires IsInt64(base) && IsInt64(max)
    requires TWO62 <= base * Pow2(n) < max && i <= n
    ensures IsInt64(base * Pow2(n - i))
    ensures Climb(base * Pow2(n - i), max, i + 1) == Doubled(base * Pow2(n))
    decreases i
  {
    ScaleMonotone(base, n - i, n);
    if i == 0 {
      assert Climb(Doubled(base * Pow2(n)), max, 0) == Doubled(base * Pow2(n));
    } else {
      FirstSmall(base, max, n, i);
      ClimbTo(base, max, n, i - 1);
    }
  }

  /** Before the last position every value is small enough to double. */
  lemma FirstSmall(base: nat, max: int, n: nat, i: nat)
    requires IsInt64(max) && TWO62 <= base * Pow2(n) < max && 0 < i <= n
    ensures base * Pow2(n - i) < TWO62 && 2 * (base * Pow2(n - i)) == base * Pow2(n - i + 1)
  {
    ScaleMonotone(base, n - i, n - 1);
    ScaleMonotone(base, n - 1, n);
    assert n - 1 + 1 == n;
  }

  lemma CeilingAt(base: nat, max: int, attempt: nat)
    requires IsInt64(base) && IsInt64(max) && !Overflows(base, max)
    ensures Ceiling(base, max, attempt) == Min(base * Pow2(attempt), max)
  {
    assert base * Pow2(0) == base;
    ClimbClosed(base, max, 0, attempt);
  }

  /** Closed form. For a non-negative base the ceiling is min(base * 2^attempt, max) for every
      attempt count if and only if no doubling below max overflows. */
  lemma CeilingClosedForm(base: nat, max: int)
    requires IsInt64(base) && IsInt64(max)
    ensures (forall attempt: nat :: Ceiling(base, max, attempt) == Min(base * Pow2(attempt), max))
            <==> !Overflows(base, max)
  {
    if !Overflows(base, max) {
      forall attempt: nat ensures Ceiling(base, max, attempt) == Min(base * Pow2(attempt), max) {
        CeilingAt(base, max, attempt);
      }
    } else {
      var n: nat :| TWO62 <= base * Pow2(n) < max;
      ClimbTo(base, max, n, n);
      ScaleMonotone(base, n, n + 1);
      assert base * Pow2(0) == base;
      assert Climb(base, max, n + 1) == Doubled(base * Pow2(n)) < 0;
      assert Ceiling(base, max, n + 1) < 0 < Min(base * Pow2(n + 1), max);
    }
  }

  /** A cap of at most 2^62 ns, some 146 years, never overflows. */
  lemma SmallMaxNeverOverflows(base: int, max: int)
    requires max <= TWO62
    ensures !Overflows(base, max)
  {
  }

  /** The ceiling never decreases from one attempt to the next. */
  lemma CeilingMonotone(base: nat, max: int, i: nat, j: nat)
    requires IsInt64(base) && IsInt64(max) && !Overflows(base, max) && i <= j
    ensures Ceiling(base, max, i) <= Ceiling(base, max, j)
    ensures max >= 0 ==> 0 <= Ceiling(base, max, i)
  {
    CeilingAt(base, max, i);
    CeilingAt(base, max, j);
    ScaleMonotone(base, i, j);
  }

  // ------------------------------------------------------------------ the mutable sequence

  /** Settings under which every delay is well defined, said of the settings alone. */
  ghost predicate Sound(base: int, max: int) {
    && IsInt64(base) && IsInt64(max) && 0 <= base && 0 <= max
    && !Overflows(base, max) && (base == 0 || max < TWO63 - 1)
  }

  /** The bound handed to the random source, ceiling + 1, is a positive int64. */
  predicate BoundOk(base: int, max: int, attempt: nat)
    requires IsInt64(base) && IsInt64(max)
  {
    0 < Ceiling(base, max, attempt) + 1 < TWO63
  }

  lemma {:induction false} Pow2Exceeds(n: nat)
    ensures Pow2(n) > n
  {
    if n > 0 {
      Pow2Exceeds(n - 1);
    }
  }

  lemma SoundBound(base: nat, max: nat, attempt: nat)
    requires Sound(base, max)
    ensures BoundOk(base, max, attempt)
  {
    CeilingAt(base, max, attempt);
    MulMonotone(base, 0, Pow2(attempt));
  }

  /** Below the largest cap, doubling a positive value passes through the overflowing range. */
  lemma {:induction false} DoublesInto(base: nat, i: nat)
    requires 0 < base * Pow2(i) < TWO63 - 1
    ensures Overflows(base, TWO63 - 1)
    decreases TWO63 - base * Pow2(i)
  {
    if base * Pow2(i) < TWO62 {
      ScaleMonotone(base, i, i + 1);
      DoublesInto(base, i + 1);
    }
  }

  /** So the largest cap goes with a positive base only if they are equal; the first attempt fails. */
  lemma LargestCapFails(base: nat, max: nat)
    requires IsInt64(base) && base > 0 && max == TWO63 - 1 && !Overflows(base, max)
    ensures base == max && !BoundOk(base, max, 0)
  {
    assert base * Pow2(0) == base;
    if base < max {
      DoublesInto(base, 0);
    }
    assert Climb(base, max, 0) == base;
  }

  lemma AttemptFits(base: nat, n: nat, max: int)
    requires IsInt64(max) && 0 < base * Pow2(n) < max
    ensures n + 1 < TWO63
  {
    Pow2Exceeds(n);
    AtLeastOnce(base, Pow2(n));
  }

  lemma AtLeastOnce(x: nat, y: nat)
    requires x * y > 0
    ensures y <= x * y
  {
    assert x * y == y + (x - 1) * y;
  }

  lemma OverflowFails(base: nat, max: int)
    requires IsInt64(base) && IsInt64(max) && Overflows(base, max)
    ensures exists attempt: nat :: attempt < TWO63 && !BoundOk(base, max, attempt)
  {
    var n: nat :| TWO62 <= base * Pow2(n) < max;
    AttemptFits(base, n, max);
    ClimbTo(base, max, n, n);
    assert base * Pow2(0) == base;
    assert Climb(base, max, n + 1) == Doubled(base * Pow2(n)) < -1;
    assert !BoundOk(base, max, n + 1);
  }

  /** The random source is handed a positive int64 at every attempt that an int64 counts, if and
      only if the settings are sound; otherwise some attempt hands it a non-positive one, where it
      panics. */
  lemma DelaysDefinedExactly(base: int, max: int)
    requires IsInt64(base) && IsInt64(max)
    ensures (forall attempt: nat :: attempt < TWO63 ==> BoundOk(base, max, attempt)) <==> Sound(base, max)
  {
    if Sound(base, max) {
      forall attempt: nat ensures BoundOk(base, max, attempt) {
        SoundBound(base, max, attempt);
      }
    } else if base < 0 || max < 0 {
      assert Climb(base, max, 0) == base;
      assert !BoundOk(base, max, 0);
    } else if Overflows(base, max) {
      OverflowFails(base, max);
    } else {
      LargestCapFails(base, max);
    }
  }

  /** The value in [0, d] that a draw picks: `roll`, where it lies in the range. */
  function Draw(roll: nat, d: nat): (r: nat)
    ensures r <= d
    ensures roll <= d ==> r == roll
  {
    if roll <= d then roll else d
  }

  class Backoff {
    const base: int
    const max: int
    const resetAfter: int
    var attempt: nat

    constructor (base: int, max: int, resetAfter: int)
      ensures this.base == base && this.max == max && this.resetAfter == resetAfter && attempt == 0
    {
      this.base, this.max, this.resetAfter := base, max, resetAfter;
      attempt := 0;
    }

    /** The doubling loop. On sound settings it is exact and every value stays inside int64. */
    method CurrentCeiling() returns (d: int)
      requires IsInt64(base) && IsInt64(max)
      ensures d == Ceiling(base, max, attempt)
      ensures base >= 0 && !Overflows(base, max) ==> d == Min(base * Pow2(attempt), max)
    {
      d := base;
      var i := 0;
      while i < attempt && d < max
        invariant 0 <= i <= attempt && IsInt64(d)
        invariant Climb(d, max, attempt - i) == Climb(base, max, attempt)
      {
        d := Doubled(d);
        i := i + 1;
      }
      d := Min(d, max);
      if base >= 0 && !Overflows(base, max) {
        CeilingAt(base, max, attempt);
      }
    }

    /** The jittered delay of this failure, picked by `roll`. */
    method Next(roll: nat) returns (delay: int)
      requires Sound(base, max)
      modifies this
      ensures attempt == old(attempt) + 1
      ensures BoundOk(base, max, old(attempt))
      ensures delay == Draw(roll, Ceiling(base, max, old(attempt)))
    {
      var d := CurrentCeiling();
      SoundBound(base, max, attempt);
      attempt := attempt + 1;
      delay := Draw(roll, d);
    }

    method Observe(uptime: int)
      modifies this
      ensures attempt == if uptime >= resetAfter then 0 else old(attempt)
    {
      if uptime >= resetAfter {
        attempt := 0;
      }
    }

    method Reset()
      modifies this
      ensures attempt == 0
    {
      attempt := 0;
    }
  }

  // ------------------------------------------------------------------ WithBackoff

  /** The index of the last session that lasted resetAfter, or -1. */
  function LastLong(uptimes: seq<int>, resetAfter: int): (r: int)
    ensures -1 <= r < |uptimes|
    ensures r >= 0 ==> uptimes[r] >= resetAfter
    ensures forall i :: r < i < |uptimes| ==> uptimes[i] < resetAfter
  {
    if uptimes == [] then -1
    else if uptimes[|uptimes| - 1] >= resetAfter then |uptimes| - 1
    else LastLong(uptimes[..|uptimes| - 1], resetAfter)
  }

  /** Sessions since and including the last long one; all of them if none was long. */
  function AttemptAfter(uptimes: seq<int>, resetAfter: int): nat {
    var i := LastLong(uptimes, resetAfter);
    |uptimes| - if i < 0 then 0 else i
  }

  lemma AttemptPush(uptimes: seq<int>, uptime: int, resetAfter: int)
    ensures AttemptAfter(uptimes + [uptime], resetAfter) ==
              (if uptime >= resetAfter then 0 else AttemptAfter(uptimes, resetAfter)) + 1
  {
    assert (uptimes + [uptime])[..|uptimes|] == uptimes;
  }

  /** The attempts counted before the wait that follows session k. */
  function AttemptsBefore(uptimes: seq<int>, k: nat, resetAfter: int): nat
    requires k < |uptimes|
  {
    AttemptAfter(uptimes[..k + 1], resetAfter) - 1
  }

  lemma AttemptsBeforePrefix(uptimes: seq<int>, n: nat, resetAfter: int)
    requires n <= |uptimes|
    ensures forall k :: 0 <= k < n ==> AttemptsBefore(uptimes[..n], k, resetAfter) == AttemptsBefore(uptimes, k, resetAfter)
  {
    forall k | 0 <= k < n
      ensures AttemptsBefore(uptimes[..n], k, resetAfter) == AttemptsBefore(uptimes, k, resetAfter) {
      assert uptimes[..n][..k + 1] == uptimes[..k + 1];
    }
  }

  /** The wait after each session is within the ceiling of the attempts before it. */
  ghost predicate WaitsWithin(uptimes: seq<int>, delays: seq<int>, base: int, max: int, resetAfter: int)
    requires IsInt64(base) && IsInt64(max)
  {
    && |delays| == |uptimes|
    && forall k :: 0 <= k < |delays| ==>
         0 <= delays[k] <= Ceiling(base, max, AttemptsBefore(uptimes, k, resetAfter))
  }

  /** The wait after each session is the draw from its ceiling. */
  ghost predicate WaitsDrawn(uptimes: seq<int>, rolls: seq<nat>, delays: seq<int>, base: int, max: int, resetAfter: int)
    requires Sound(base, max)
  {
    && |delays| == |uptimes| == |rolls|
    && forall k :: 0 <= k < |delays| ==>
         var attempt := AttemptsBefore(uptimes, k, resetAfter);
         BoundOk(base, max, attempt) && delays[k] == Draw(rolls[k], Ceiling(base, max, attempt))
  }

  lemma DefaultsSound()
    ensures Sound(DEFAULT_BASE, DEFAULT_MAX)
  {
    SmallMaxNeverOverflows(DEFAULT_BASE, DEFAULT_MAX);
  }

  lemma WaitsPush(uptimes: seq<int>, uptime: int, rolls: seq<nat>, roll: nat, delays: seq<int>, delay: int,
                  base: int, max: int, resetAfter: int)
    requires Sound(base, max) && WaitsDrawn(uptimes, rolls, delays, base, max, resetAfter)
    requires var attempt := AttemptAfter(uptimes + [uptime], resetAfter) - 1;
             attempt >= 0 && BoundOk(base, max, attempt) && delay == Draw(roll, Ceiling(base, max, attempt))
    ensures WaitsDrawn(uptimes + [uptime], rolls + [roll], delays + [delay], base, max, resetAfter)
  {
    var n, now := |uptimes|, uptimes + [uptime];
    assert now[..n] == uptimes && now[..n + 1] == now;
    AttemptsBeforePrefix(now, n, resetAfter);
  }

  /** The reconnect loop over a finite prefix of uncancelled sessions. */
  method WithBackoff(uptimes: seq<int>, rolls: seq<nat>) returns (b: Backoff, delays: seq<int>)
    requires |rolls| == |uptimes|
    ensures fresh(b) && b.attempt == AttemptAfter(uptimes, DEFAULT_RESET_AFTER)
    ensures b.base == 1_000_000_000 && b.max == 30_000_000_000 && b.resetAfter == 120_000_000_000
    ensures Sound(DEFAULT_BASE, DEFAULT_MAX)
    ensures WaitsDrawn(uptimes, rolls, delays, DEFAULT_BASE, DEFAULT_MAX, DEFAULT_RESET_AFTER)
  {
    b := new Backoff(DEFAULT_BASE, DEFAULT_MAX, DEFAULT_RESET_AFTER);
    delays := [];
    DefaultsSound();
    for i := 0 to |uptimes|
      invariant fresh(b)
      invariant b.base == DEFAULT_BASE && b.max == DEFAULT_MAX && b.resetAfter == DEFAULT_RESET_AFTER
      invariant b.attempt == AttemptAfter(uptimes[..i], DEFAULT_RESET_AFTER)
      invariant WaitsDrawn(uptimes[..i], rolls[..i], delays, DEFAULT_BASE, DEFAULT_MAX, DEFAULT_RESET_AFTER)
    {
      AttemptPush(uptimes[..i], uptimes[i], DEFAULT_RESET_AFTER);
      assert uptimes[..i] + [uptimes[i]] == uptimes[..i + 1] && rolls[..i] + [rolls[i]] == rolls[..i + 1];
      b.Observe(uptimes[i]);
      var delay := b.Next(rolls[i]);
      WaitsPush(uptimes[..i], uptimes[i], rolls[..i], rolls[i], delays, delay,
                DEFAULT_BASE, DEFAULT_MAX, DEFAULT_RESET_AFTER);
      delays := delays + [delay];
    }
    assert uptimes[..|uptimes|] == uptimes && rolls[..|uptimes|] == rolls;
  }

  /** The waits that some draws produce are exactly those within the ceilings. */
  lemma WaitsExactly(uptimes: seq<int>, delays: seq<int>, base: nat, max: nat, resetAfter: int)
    requires Sound(base, max)
    ensures WaitsWithin(uptimes, delays, base, max, resetAfter) <==>
              exists rolls :: WaitsDrawn(uptimes, rolls, delays, base, max, resetAfter)
  {
    if WaitsWithin(uptimes, delays, base, max, resetAfter) {
      var rolls: seq<nat> := seq(|delays|, k requires 0 <= k < |delays| => delays[k]);
      forall k | 0 <= k < |delays|
        ensures BoundOk(base, max, AttemptsBefore(uptimes, k, resetAfter)) {
        SoundBound(base, max, AttemptsBefore(uptimes, k, resetAfter));
      }
      assert WaitsDrawn(uptimes, rolls, delays, base, max, resetAfter);
    }
  }

  function Total(delays: seq<int>): int {
    if delays == [] then 0 else Total(delays[..|delays| - 1]) + delays[|delays| - 1]
  }

  /** The sum of the first k ceilings. */
  function CeilingSum(base: int, max: int, k: nat): int
    requires IsInt64(base) && IsInt64(max)
  {
    if k == 0 then 0 else CeilingSum(base, max, k - 1) + Ceiling(base, max, k - 1)
  }

  lemma SplitProducts(base: int, p: int, max: int, k: int)
    ensures base * (2 * p - 1) == base * (p - 1) + base * p
    ensures k * max == (k - 1) * max + max
  {
  }

  /** One more ceiling, over plain numbers. */
  lemma OneMoreCeiling(base: nat, p: nat, max: nat, k: int, sum: int, ceiling: int)
    requires sum <= base * (p - 1) && sum <= (k - 1) * max
    requires ceiling <= base * p && ceiling <= max
    ensures sum + ceiling <= base * (2 * p - 1) && sum + ceiling <= k * max
  {
    SplitProducts(base, p, max, k);
  }

  lemma {:induction false} CeilingSumBound(base: nat, max: nat, k: nat)
    requires Sound(base, max)
    ensures CeilingSum(base, max, k) <= base * (Pow2(k) - 1)
    ensures CeilingSum(base, max, k) <= k * max
  {
    if k > 0 {
      CeilingSumBound(base, max, k - 1);
      CeilingAt(base, max, k - 1);
      OneMoreCeiling(base, Pow2(k - 1), max, k, CeilingSum(base, max, k - 1), Ceiling(base, max, k - 1));
    }
  }

  lemma {:induction false} TotalWithin(uptimes: seq<int>, delays: seq<int>, base: nat, max: nat, resetAfter: int)
    requires Sound(base, max) && WaitsWithin(uptimes, delays, base, max, resetAfter)
    requires forall i :: 0 <= i < |uptimes| ==> uptimes[i] < resetAfter
    ensures Total(delays) <= CeilingSum(base, max, |delays|)
  {
    if delays != [] {
      var n := |delays| - 1;
      AttemptsBeforePrefix(uptimes, n, resetAfter);
      TotalWithin(uptimes[..n], delays[..n], base, max, resetAfter);
      assert uptimes[..n + 1] == uptimes;
      assert LastLong(uptimes, resetAfter) == -1;
    }
  }

  /** Waits of which each takes its whole ceiling. */
  function LongestWaits(base: int, max: int, k: nat): (delays: seq<int>)
    requires IsInt64(base) && IsInt64(max)
    ensures |delays| == k && forall i :: 0 <= i < k ==> delays[i] == Ceiling(base, max, i)
  {
    seq(k, i requires 0 <= i < k => Ceiling(base, max, i))
  }

  lemma {:induction false} LongestSum(base: int, max: int, k: nat)
    requires IsInt64(base) && IsInt64(max)
    ensures Total(LongestWaits(base, max, k)) == CeilingSum(base, max, k)
  {
    if k > 0 {
      LongestSum(base, max, k - 1);
      assert LongestWaits(base, max, k)[..k - 1] == LongestWaits(base, max, k - 1);
    }
  }

  lemma ShortAttempts(uptimes: seq<int>, resetAfter: int, k: nat)
    requires k < |uptimes| && forall i :: 0 <= i < |uptimes| ==> uptimes[i] < resetAfter
    ensures AttemptsBefore(uptimes, k, resetAfter) == k
  {
    assert LastLong(uptimes[..k + 1], resetAfter) < 0;
  }

  /** The sum of the ceilings is what short sessions can wait in all. */
  lemma LongestTotal(uptimes: seq<int>, base: nat, max: nat, resetAfter: int)
    requires Sound(base, max) && forall i :: 0 <= i < |uptimes| ==> uptimes[i] < resetAfter
    ensures WaitsWithin(uptimes, LongestWaits(base, max, |uptimes|), base, max, resetAfter)
    ensures Total(LongestWaits(base, max, |uptimes|)) == CeilingSum(base, max, |uptimes|)
  {
    LongestSum(base, max, |uptimes|);
    forall k | 0 <= k < |uptimes|
      ensures 0 <= Ceiling(base, max, k) == Ceiling(base, max, AttemptsBefore(uptimes, k, resetAfter)) {
      ShortAttempts(uptimes, resetAfter, k);
      SoundBound(base, max, k);
    }
  }

  /** k consecutive short sessions from a fresh start wait at most min(base*(2^k - 1), k*max) in all. */
  lemma ShortSessionsWait(uptimes: seq<int>, delays: seq<int>, base: nat, max: nat, resetAfter: int)
    requires Sound(base, max) && WaitsWithin(uptimes, delays, base, max, resetAfter)
    requires forall i :: 0 <= i < |uptimes| ==> uptimes[i] < resetAfter
    ensures Total(delays) <= Min(base * (Pow2(|delays|) - 1), |delays| * max)
  {
    TotalWithin(uptimes, delays, base, max, resetAfter);
    CeilingSumBound(base, max, |delays|);
  }
}
