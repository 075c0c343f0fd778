/** shared/httpserver: concurrent dependency checks and the health report built from them. */
module HealthReports {
  import opened Trades

  /** A registered checker, with what its Check and Details return when they run. */
  datatype Checker = Checker(name: string, err: Option<string>, detail: Option<string>)

  datatype CheckResult = CheckResult(name: string, err: Option<string>, detail: Option<string>)

  const NO_RESULT := CheckResult("", None, None)

  /** The checker's result: its name, what its Check returned, and its detail if it has one. */
  predicate IsResult(r: CheckResult, c: Checker) { r.name == c.name && r.err == c.err && r.detail == c.detail }

  // ------------------------------------------------------------------ runChecks

  /** How many goroutines have not returned: a goroutine takes two turns, running its check and
      writing its slot. */
  function Unfinished(turns: seq<nat>): nat {
    if turns == [] then 0
    else Unfinished(turns[..|turns| - 1]) + if turns[|turns| - 1] < 2 then 1 else 0
  }

  lemma {:induction false} UnfinishedPut(turns: seq<nat>, i: nat, n: nat)
    requires i < |turns|
    ensures Unfinished(turns[i := n]) + (if turns[i] < 2 then 1 else 0) == Unfinished(turns) + if n < 2 then 1 else 0
  {
    var last := |turns| - 1;
    if i == last {
      assert turns[i := n][..last] == turns[..last];
    } else {
      UnfinishedPut(turns[..last], i, n);
      assert turns[i := n][..last] == turns[..last][i := n];
    }
  }

  lemma {:induction false} UnfinishedZero(turns: seq<nat>)
    ensures Unfinished(turns) == 0 <==> forall i :: 0 <= i < |turns| ==> turns[i] >= 2
    ensures Unfinished(turns) <= |turns|
    ensures (forall i :: 0 <= i < |turns| ==> turns[i] == 0) ==> Unfinished(turns) == |turns|
  {
    if turns != [] {
      UnfinishedZero(turns[..|turns| - 1]);
    }
  }

  /** How often goroutine i is scheduled. */
  function Scheduled(schedule: seq<nat>, i: nat): nat {
    if schedule == [] then 0
    else Scheduled(schedule[..|schedule| - 1], i) + if schedule[|schedule| - 1] == i then 1 else 0
  }

  /** After these turns each goroutine has its own result locally from its first turn on, and in
      its slot from its second. */
  ghost predicate SlotsOk(checkers: seq<Checker>, turns: seq<nat>, local: seq<CheckResult>, slots: seq<CheckResult>) {
    && |turns| == |local| == |slots| == |checkers|
    && forall i :: 0 <= i < |checkers| ==>
         && (turns[i] >= 1 ==> IsResult(local[i], checkers[i]))
         && if turns[i] >= 2 then IsResult(slots[i], checkers[i]) else slots[i] == NO_RESULT
  }

  ghost predicate CountsTurns(turns: seq<nat>, schedule: seq<nat>) {
    forall i :: 0 <= i < |turns| ==> turns[i] == Scheduled(schedule, i)
  }

  lemma CountsStart(turns: seq<nat>, schedule: seq<nat>)
    requires forall i :: 0 <= i < |turns| ==> turns[i] == 0
    ensures CountsTurns(turns, schedule[..0])
  {
  }

  lemma CountsNext(turns: seq<nat>, schedule: seq<nat>, t: nat)
    requires t < |schedule| && CountsTurns(turns, schedule[..t])
    ensures var g := schedule[t];
            CountsTurns(if g < |turns| then turns[g := turns[g] + 1] else turns, schedule[..t + 1])
  {
    assert schedule[..t + 1][..t] == schedule[..t];
  }

  /** At the end of the schedule the slots are as promised, and the counter says who is left. */
  lemma AtTheEnd(checkers: seq<Checker>, schedule: seq<nat>, turns: seq<nat>, local: seq<CheckResult>, slots: seq<CheckResult>)
    requires SlotsOk(checkers, turns, local, slots) && CountsTurns(turns, schedule[..|schedule|])
    ensures forall i :: 0 <= i < |checkers| ==>
              if Scheduled(schedule, i) >= 2 then
                slots[i].name == checkers[i].name && slots[i].err == checkers[i].err
                && slots[i].detail == checkers[i].detail
              else slots[i] == CheckResult("", None, None)
    ensures Unfinished(turns) == 0 <==> forall i :: 0 <= i < |checkers| ==> Scheduled(schedule, i) >= 2
  {
    assert schedule[..|schedule|] == schedule;
    UnfinishedZero(turns);
  }

  /** One turn of goroutine g: its check, or the write to its slot and wg.Done. */
  method Turn(checkers: seq<Checker>, g: nat, results: array<CheckResult>, local: seq<CheckResult>, turns: seq<nat>, wg: nat)
    returns (local': seq<CheckResult>, wg': nat)
    requires g < |checkers| && SlotsOk(checkers, turns, local, results[..]) && wg == Unfinished(turns)
    modifies results
    ensures SlotsOk(checkers, turns[g := turns[g] + 1], local', results[..])
    ensures wg' == Unfinished(turns[g := turns[g] + 1])
  {
    local', wg' := local, wg;
    UnfinishedPut(turns, g, turns[g] + 1);
    if turns[g] == 0 {
      local' := local[g := CheckResult(checkers[g].name, checkers[g].err, checkers[g].detail)];
    } else if turns[g] == 1 {
      results[g] := local[g];
      wg' := wg - 1;
    }
  }

  /** runChecks under an arbitrary schedule of its goroutines. Every slot holds its own checker's
      result as soon as that goroutine has had its two turns, and the zero value until then: no
      result is lost, misplaced or overwritten. Wait returns exactly when all have returned. */
  method RunChecks(checkers: seq<Checker>, schedule: seq<nat>) returns (results: array<CheckResult>, waited: bool)
    ensures fresh(results) && results.Length == |checkers|
    ensures forall i :: 0 <= i < |checkers| ==>
              if Scheduled(schedule, i) >= 2 then
                results[i].name == checkers[i].name && results[i].err == checkers[i].err
                && results[i].detail == checkers[i].detail
              else results[i] == CheckResult("", None, None)
    ensures waited <==> forall i :: 0 <= i < |checkers| ==> Scheduled(schedule, i) >= 2
  {
    var n := |checkers|;
    results := new CheckResult[n](_ => NO_RESULT);
    var local: seq<CheckResult> := seq(n, _ => NO_RESULT);
    var turns: seq<nat> := seq(n, _ => 0);
    UnfinishedZero(turns);
    CountsStart(turns, schedule);
    assert SlotsOk(checkers, turns, local, results[..]);
    var wg := n;
    for t := 0 to |schedule|
      invariant fresh(results) && results.Length == n == |turns|
      invariant wg == Unfinished(turns) && CountsTurns(turns, schedule[..t])
      invariant SlotsOk(checkers, turns, local, results[..])
    {
      var g := schedule[t];
      CountsNext(turns, schedule, t);
      if g < n {
        local, wg := Turn(checkers, g, results, local, turns, wg);
        turns := turns[g := turns[g] + 1];
      }
    }
    AtTheEnd(checkers, schedule, turns, local, results[..]);
    waited := wg == 0;
  }

  // ------------------------------------------------------------------ handleHealth

  /** Index of the last result under this name (and, if asked, with a detail), or -1. */
  function LastNamed(results: seq<CheckResult>, name: string, detailed: bool): (r: int)
    ensures -1 <= r < |results|
    ensures r >= 0 ==> Named(results[r], name, detailed)
    ensures forall i :: r < i < |results| ==> !Named(results[i], name, detailed)
  {
    if results == [] then -1
    else if Named(results[|results| - 1], name, detailed) then |results| - 1
    else LastNamed(results[..|results| - 1], name, detailed)
  }

  predicate Named(r: CheckResult, name: string, detailed: bool) {
    r.name == name && (detailed ==> r.detail.Some?)
  }

  /** What a result puts under its name: its detail, or else its error's text or "ok". */
  function Shown(r: CheckResult, detailed: bool): (text: string)
    requires detailed ==> r.detail.Some?
    ensures !detailed && r.err.Some? ==> text == r.err.value
    ensures !detailed && r.err.None? ==> text == "ok"
    ensures detailed ==> text == r.detail.value
  {
    if detailed then r.detail.value else if r.err.Some? then r.err.value else "ok"
  }

  /** A map that shows, per name, the last such result. */
  ghost predicate ShowsLast(shown: map<string, string>, results: seq<CheckResult>, detailed: bool) {
    forall name: string ::
      var i := LastNamed(results, name, detailed);
      (name in shown <==> i >= 0) && (i >= 0 ==> shown[name] == Shown(results[i], detailed))
  }

  /** The same per result: the last one of its name is shown, and nothing else is. */
  ghost predicate ReportsLast(shown: map<string, string>, results: seq<CheckResult>, detailed: bool) {
    && (forall i :: 0 <= i < |results| && IsLast(results, i, detailed) ==>
          results[i].name in shown
          && (detailed ==> Some(shown[results[i].name]) == results[i].detail)
          && (!detailed ==> shown[results[i].name] == if results[i].err.Some? then results[i].err.value else "ok"))
    && forall name :: name in shown ==> exists i :: 0 <= i < |results| && IsLast(results, i, detailed) && results[i].name == name
  }

  /** No later result has the name (and, if asked, a detail). */
  predicate IsLast(results: seq<CheckResult>, i: nat, detailed: bool)
    requires i < |results|
  {
    (detailed ==> results[i].detail.Some?)
    && forall j :: i < j < |results| ==> !(results[j].name == results[i].name && (detailed ==> results[j].detail.Some?))
  }

  lemma LastReported(shown: map<string, string>, results: seq<CheckResult>, detailed: bool)
    requires ShowsLast(shown, results, detailed)
    ensures ReportsLast(shown, results, detailed)
  {
    forall i | 0 <= i < |results| && IsLast(results, i, detailed)
      ensures LastNamed(results, results[i].name, detailed) == i {
      assert Named(results[i], results[i].name, detailed);
    }
    forall name | name in shown
      ensures exists i :: 0 <= i < |results| && IsLast(results, i, detailed) && results[i].name == name {
      var i := LastNamed(results, name, detailed);
      assert forall j :: i < j < |results| ==> !Named(results[j], name, detailed);
      assert IsLast(results, i, detailed);
    }
  }

  lemma ShowsNext(shown: map<string, string>, results: seq<CheckResult>, i: nat)
    requires i < |results| && ShowsLast(shown, results[..i], false)
    ensures ShowsLast(shown[results[i].name := Shown(results[i], false)], results[..i + 1], false)
  {
    assert results[..i + 1][..i] == results[..i];
  }

  lemma DetailNext(shown: map<string, string>, results: seq<CheckResult>, i: nat)
    requires i < |results| && ShowsLast(shown, results[..i], true)
    ensures ShowsLast(if results[i].detail.Some? then shown[results[i].name := results[i].detail.value] else shown,
                      results[..i + 1], true)
  {
    assert results[..i + 1][..i] == results[..i];
  }

  /** The report: ok, with status 200, exactly when every result is without error, even where
      several share a name and the map can show only the last of them. */
  method HandleHealth(results: seq<CheckResult>)
    returns (ok: bool, code: int, checks: map<string, string>, details: Option<map<string, string>>)
    ensures ok <==> forall i :: 0 <= i < |results| ==> results[i].err.None?
    ensures code == if ok then 200 else 503
    ensures ReportsLast(checks, results, false)
    ensures details.None? <==> forall i :: 0 <= i < |results| ==> results[i].detail.None?
    ensures details.Some? ==> ReportsLast(details.value, results, true)
  {
    ok, checks := true, map[];
    var found: map<string, string> := map[];
    for i := 0 to |results|
      invariant ok <==> forall j :: 0 <= j < i ==> results[j].err.None?
      invariant ShowsLast(checks, results[..i], false)
      invariant ShowsLast(found, results[..i], true)
    {
      var r := results[i];
      ShowsNext(checks, results, i);
      DetailNext(found, results, i);
      if r.err.Some? {
        ok := false;
        checks := checks[r.name := r.err.value];
      } else {
        checks := checks[r.name := "ok"];
      }
      if r.detail.Some? {
        found := found[r.name := r.detail.value];
      }
    }
    assert results[..|results|] == results;
    LastReported(checks, results, false);
    LastReported(found, results, true);
    EmptyExactly(found, results);
    details := if found == map[] then None else Some(found);
    code := if ok then 200 else 503;
  }

  lemma EmptyExactly(found: map<string, string>, results: seq<CheckResult>)
    requires ShowsLast(found, results, true)
    ensures found == map[] <==> forall i :: 0 <= i < |results| ==> results[i].detail.None?
  {
    if i :| 0 <= i < |results| && results[i].detail.Some? {
      assert LastNamed(results, results[i].name, true) >= i;
      assert results[i].name in found;
    } else {
      forall name: string ensures name !in found {
        assert LastNamed(results, name, true) < 0;
      }
    }
  }

  /** The results that the checkers' goroutines leave. */
  ghost predicate Left(results: seq<CheckResult>, checkers: seq<Checker>) {
    |results| == |checkers|
    && forall i :: 0 <= i < |checkers| ==>
         results[i].name == checkers[i].name && results[i].err == checkers[i].err && results[i].detail == checkers[i].detail
  }

  /** No later checker has the name (and, if asked, a detail). */
  predicate LastChecker(checkers: seq<Checker>, i: nat, detailed: bool)
    requires i < |checkers|
  {
    (detailed ==> checkers[i].detail.Some?)
    && forall j :: i < j < |checkers| ==> !(checkers[j].name == checkers[i].name && (detailed ==> checkers[j].detail.Some?))
  }

  /** Under each name the last checker of that name is shown, with its error's text or "ok" (or, if
      details are asked for, its detail); and the names are the checkers'. */
  ghost predicate ShowsCheckers(shown: map<string, string>, checkers: seq<Checker>, detailed: bool) {
    && (forall i :: 0 <= i < |checkers| && LastChecker(checkers, i, detailed) ==>
          checkers[i].name in shown
          && (detailed ==> Some(shown[checkers[i].name]) == checkers[i].detail)
          && (!detailed ==> shown[checkers[i].name] == if checkers[i].err.Some? then checkers[i].err.value else "ok"))
    && forall name :: name in shown ==> exists i :: 0 <= i < |checkers| && LastChecker(checkers, i, detailed) && checkers[i].name == name
  }

  lemma SameLast(results: seq<CheckResult>, checkers: seq<Checker>, i: nat, detailed: bool)
    requires Left(results, checkers) && i < |checkers|
    ensures IsLast(results, i, detailed) <==> LastChecker(checkers, i, detailed)
  {
    if LastChecker(checkers, i, detailed) {
      assert forall j :: i < j < |results| ==> results[j].name == checkers[j].name && results[j].detail == checkers[j].detail;
    }
    if IsLast(results, i, detailed) {
      assert forall j :: i < j < |checkers| ==> checkers[j].name == results[j].name && checkers[j].detail == results[j].detail;
    }
  }

  lemma ReportIsCheckers(shown: map<string, string>, results: seq<CheckResult>, checkers: seq<Checker>, detailed: bool)
    requires Left(results, checkers) && ReportsLast(shown, results, detailed)
    ensures ShowsCheckers(shown, checkers, detailed)
  {
    forall i | 0 <= i < |checkers| ensures IsLast(results, i, detailed) <==> LastChecker(checkers, i, detailed) {
      SameLast(results, checkers, i, detailed);
    }
    forall name | name in shown
      ensures exists i :: 0 <= i < |checkers| && LastChecker(checkers, i, detailed) && checkers[i].name == name {
      var i :| 0 <= i < |results| && IsLast(results, i, detailed) && results[i].name == name;
      assert LastChecker(checkers, i, detailed);
    }
  }

  /** /health end to end: under every schedule that lets each goroutine finish, the report is ok
      exactly when every registered checker passed, and it shows the checkers. */
  method Health(checkers: seq<Checker>, schedule: seq<nat>)
    returns (ok: bool, code: int, checks: map<string, string>, details: Option<map<string, string>>)
    requires forall i :: 0 <= i < |checkers| ==> Scheduled(schedule, i) >= 2
    ensures ok <==> forall i :: 0 <= i < |checkers| ==> checkers[i].err.None?
    ensures code == if ok then 200 else 503
    ensures ShowsCheckers(checks, checkers, false)
    ensures details.None? <==> forall i :: 0 <= i < |checkers| ==> checkers[i].detail.None?
    ensures details.Some? ==> ShowsCheckers(details.value, checkers, true)
  {
    var results, waited := RunChecks(checkers, schedule);
    ghost var all := results[..];
    assert Left(all, checkers);
    ok, code, checks, details := HandleHealth(results[..]);
    ReportIsCheckers(checks, all, checkers, false);
    if details.Some? {
      ReportIsCheckers(details.value, all, checkers, true);
    }
  }
}
