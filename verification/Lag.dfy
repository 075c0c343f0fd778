/** shared/kafka/lag.go: one reading of a consumer group's lag. */
module Lag {
  import opened Trades

  datatype Result<+T> = Ok(value: T) | Err(error: string)

  datatype MemberLag = MemberLag(lag: int, err: Option<string>)

  datatype PartitionLag = PartitionLag(partition: int, lag: int, error: string)

  datatype ConsumerLag = ConsumerLag(group: string, topic: string, state: string, members: nat,
                                     total: int, partitions: seq<PartitionLag>)

  datatype Described = Described(state: string, members: nat, err: Option<string>,
                                 lag: map<string, map<int, MemberLag>>)

  const NO_LAG := ConsumerLag("", "", "", 0, 0, [])

  predicate Stalled(l: ConsumerLag) { l.members == 0 && l.total > 0 }

  /** The entry of its partition: the lag as computed, and the error's text, empty if there is none. */
  predicate IsEntry(x: PartitionLag, m: map<int, MemberLag>) {
    && x.partition in m && x.lag == m[x.partition].lag
    && x.error == (if m[x.partition].err.Some? then m[x.partition].err.value else "")
  }

  /** What a partition adds to the total: nothing when its lag could not be computed. */
  function Known(m: MemberLag): (n: int)
    ensures m.err.None? ==> n == m.lag
    ensures m.err.Some? ==> n == 0
  {
    if m.err.None? then m.lag else 0
  }

  ghost predicate Ascending(ps: seq<PartitionLag>) {
    forall i, j :: 0 <= i < j < |ps| ==> ps[i].partition < ps[j].partition
  }

  /** Every element is the entry of its partition in the coordinator's answer. */
  predicate Entries(ps: seq<PartitionLag>, m: map<int, MemberLag>) {
    forall i :: 0 <= i < |ps| ==> IsEntry(ps[i], m)
  }

  function Total(ps: seq<PartitionLag>, m: map<int, MemberLag>): int
    requires Entries(ps, m)
  {
    if ps == [] then 0 else Known(m[ps[0].partition]) + Total(ps[1..], m)
  }

  const TWO63: int := 0x8000_0000_0000_0000
  const TWO64: int := 0x1_0000_0000_0000_0000

  /** int64 arithmetic wraps around. */
  function Wrap(x: int): int { (x + TWO63) % TWO64 - TWO63 }

  lemma WrapAdds(x: int, y: int)
    ensures Wrap(Wrap(x) + y) == Wrap(x + y)
  {
    var q := (x + TWO63) / TWO64;
    assert Wrap(x) == x - q * TWO64;
    assert (x + y + TWO63 - q * TWO64) % TWO64 == (x + y + TWO63) % TWO64;
  }

  ghost predicate Covers(ps: seq<PartitionLag>, keys: set<int>) {
    forall p :: p in keys <==> exists i :: 0 <= i < |ps| && ps[i].partition == p
  }

  /** A reading of m, said without an order of traversal: the entries of m in ascending partition
      order, each once, and their error-free sum as an int64. */
  ghost predicate Reads(ps: seq<PartitionLag>, total: int, m: map<int, MemberLag>) {
    Ascending(ps) && Entries(ps, m) && Covers(ps, m.Keys) && total == Wrap(Total(ps, m))
  }

  /** There is only one reading of a map, so no traversal order can show. */
  lemma {:induction false} ReadingUnique(ps: seq<PartitionLag>, t: int, qs: seq<PartitionLag>, u: int, m: map<int, MemberLag>)
    requires Reads(ps, t, m) && Reads(qs, u, m)
    ensures ps == qs && t == u
    decreases |ps|
  {
    SameLength(ps, qs, m);
    SameLength(qs, ps, m);
    forall i | 0 <= i < |ps| ensures ps[i] == qs[i] {
      SameAt(ps, qs, m, i);
    }
    assert ps == qs;
  }

  /** Position i of one ascending covering sequence is not above position i of another. */
  lemma {:induction false} NotAbove(ps: seq<PartitionLag>, qs: seq<PartitionLag>, m: map<int, MemberLag>, i: nat)
    requires Ascending(ps) && Ascending(qs) && Covers(ps, m.Keys) && Covers(qs, m.Keys)
    requires i < |qs|
    ensures i < |ps| && ps[i].partition <= qs[i].partition
  {
    assert qs[i].partition in m.Keys;
    var x :| 0 <= x < |ps| && ps[x].partition == qs[i].partition;
    if i > 0 {
      NotAbove(ps, qs, m, i - 1);
      assert ps[i - 1].partition <= qs[i - 1].partition < qs[i].partition;
      assert x > i - 1;
    }
  }

  lemma SameLength(ps: seq<PartitionLag>, qs: seq<PartitionLag>, m: map<int, MemberLag>)
    requires Ascending(ps) && Ascending(qs) && Covers(ps, m.Keys) && Covers(qs, m.Keys)
    ensures |qs| <= |ps|
  {
    if qs != [] {
      NotAbove(ps, qs, m, |qs| - 1);
    }
  }

  lemma SameAt(ps: seq<PartitionLag>, qs: seq<PartitionLag>, m: map<int, MemberLag>, i: nat)
    requires Ascending(ps) && Ascending(qs) && Covers(ps, m.Keys) && Covers(qs, m.Keys)
    requires Entries(ps, m) && Entries(qs, m) && i < |ps| && i < |qs|
    ensures ps[i] == qs[i]
  {
    NotAbove(ps, qs, m, i);
    NotAbove(qs, ps, m, i);
  }

  // ------------------------------------------------------------------ the sort

  function Insert(x: PartitionLag, ps: seq<PartitionLag>): (r: seq<PartitionLag>)
    ensures multiset(r) == multiset(ps) + multiset{x}
  {
    if ps == [] || x.partition < ps[0].partition then [x] + ps
    else
      assert ps == [ps[0]] + ps[1..];
      [ps[0]] + Insert(x, ps[1..])
  }

  function Sorted(ps: seq<PartitionLag>): (r: seq<PartitionLag>)
    ensures multiset(r) == multiset(ps)
  {
    if ps == [] then []
    else
      assert ps == [ps[0]] + ps[1..];
      Insert(ps[0], Sorted(ps[1..]))
  }

  ghost predicate NotIn(p: int, ps: seq<PartitionLag>) {
    forall i :: 0 <= i < |ps| ==> ps[i].partition != p
  }

  lemma {:induction false} InsertAscending(x: PartitionLag, ps: seq<PartitionLag>)
    requires Ascending(ps) && NotIn(x.partition, ps)
    ensures Ascending(Insert(x, ps))
  {
    if ps != [] && ps[0].partition < x.partition {
      InsertAscending(x, ps[1..]);
      var rest := Insert(x, ps[1..]);
      forall i | 0 <= i < |rest| ensures ps[0].partition < rest[i].partition {
        assert rest[i] in multiset(ps[1..]) + multiset{x};
      }
    }
  }

  lemma {:induction false} InsertTotal(x: PartitionLag, ps: seq<PartitionLag>, m: map<int, MemberLag>)
    requires Entries(ps, m) && IsEntry(x, m)
    ensures Entries(Insert(x, ps), m) && Total(Insert(x, ps), m) == Known(m[x.partition]) + Total(ps, m)
  {
    var r := Insert(x, ps);
    if ps == [] || x.partition < ps[0].partition {
      assert r[1..] == ps;
    } else {
      InsertTotal(x, ps[1..], m);
      assert r[1..] == Insert(x, ps[1..]) && r[0] == ps[0];
    }
  }

  ghost predicate DistinctPartitions(ps: seq<PartitionLag>) {
    forall i, j :: 0 <= i < j < |ps| ==> ps[i].partition != ps[j].partition
  }

  lemma {:induction false} SortedNotIn(p: int, ps: seq<PartitionLag>)
    requires NotIn(p, ps)
    ensures NotIn(p, Sorted(ps))
  {
    var r := Sorted(ps);
    forall i | 0 <= i < |r| ensures r[i].partition != p {
      assert r[i] in multiset(ps);
    }
  }

  lemma {:induction false} SortedKeeps(ps: seq<PartitionLag>, m: map<int, MemberLag>)
    requires Entries(ps, m) && DistinctPartitions(ps)
    ensures Ascending(Sorted(ps)) && Entries(Sorted(ps), m) && Total(Sorted(ps), m) == Total(ps, m)
  {
    if ps != [] {
      SortedKeeps(ps[1..], m);
      SortedNotIn(ps[0].partition, ps[1..]);
      InsertAscending(ps[0], Sorted(ps[1..]));
      InsertTotal(ps[0], Sorted(ps[1..]), m);
    }
  }

  lemma SortedCovers(ps: seq<PartitionLag>, keys: set<int>)
    requires Covers(ps, keys)
    ensures Covers(Sorted(ps), keys)
  {
    var r := Sorted(ps);
    forall p ensures p in keys <==> exists i :: 0 <= i < |r| && r[i].partition == p {
      if p in keys {
        var i :| 0 <= i < |ps| && ps[i].partition == p;
        assert ps[i] in multiset(r);
      }
      if i :| 0 <= i < |r| && r[i].partition == p {
        assert r[i] in multiset(ps);
      }
    }
  }

  /** x goes after the n elements that are not above it; those behind it move up by one. */
  lemma {:induction false} InsertPlace(x: PartitionLag, ps: seq<PartitionLag>, n: nat, k: nat)
    requires n <= |ps| && (n < |ps| ==> x.partition < ps[n].partition)
    requires forall i :: 0 <= i < n ==> ps[i].partition <= x.partition
    requires k <= |ps|
    ensures |Insert(x, ps)| == |ps| + 1
    ensures Insert(x, ps)[k] == if k < n then ps[k] else if k == n then x else ps[k - 1]
    decreases n
  {
    if n > 0 {
      InsertPlace(x, ps[1..], n - 1, if k == 0 then 0 else k - 1);
    }
  }

  lemma Placed(x: PartitionLag, ps: seq<PartitionLag>, n: nat, r: seq<PartitionLag>)
    requires n <= |ps| && (n < |ps| ==> x.partition < ps[n].partition)
    requires forall i :: 0 <= i < n ==> ps[i].partition <= x.partition
    requires |r| == |ps| + 1 && r[n] == x
    requires forall k :: 0 <= k < n ==> r[k] == ps[k]
    requires forall k :: n < k < |r| ==> r[k] == ps[k - 1]
    ensures r == Insert(x, ps)
  {
    InsertPlace(x, ps, n, 0);
    forall k | 0 <= k < |r| ensures r[k] == Insert(x, ps)[k] {
      InsertPlace(x, ps, n, k);
    }
  }

  /** Element i has moved up to position j, past elements that are not above it. */
  ghost predicate Sifted(was: seq<PartitionLag>, now: seq<PartitionLag>, i: nat, j: nat) {
    && |was| == |now| && i <= j < |now| && now[j] == was[i]
    && (forall k :: 0 <= k < i ==> now[k] == was[k])
    && (forall k :: i <= k < j ==> now[k] == was[k + 1] && now[k].partition <= was[i].partition)
    && (forall k :: j < k < |now| ==> now[k] == was[k])
  }

  method Sift(a: array<PartitionLag>, i: nat) returns (j: nat)
    requires i < a.Length
    modifies a
    ensures Sifted(old(a[..]), a[..], i, j)
    ensures j + 1 < a.Length ==> a[j].partition < a[j + 1].partition
  {
    j := i;
    while j + 1 < a.Length && a[j + 1].partition <= a[j].partition
      invariant Sifted(old(a[..]), a[..], i, j)
    {
      a[j], a[j + 1] := a[j + 1], a[j];
      j := j + 1;
    }
  }

  lemma SiftedInserts(was: seq<PartitionLag>, now: seq<PartitionLag>, i: nat, j: nat)
    requires Sifted(was, now, i, j) && (j + 1 < |now| ==> now[j].partition < now[j + 1].partition)
    ensures now[..i] == was[..i] && now[i..] == Insert(was[i], was[i + 1..])
  {
    var ps, r := was[i + 1..], now[i..];
    forall k | 0 <= k < j - i ensures r[k] == ps[k] && ps[k].partition <= was[i].partition {
      assert r[k] == now[i + k];
    }
    Placed(was[i], ps, j - i, r);
  }

  /** From position i on the elements are sorted; those before are untouched. */
  ghost predicate SortedFrom(was: seq<PartitionLag>, now: seq<PartitionLag>, i: nat) {
    |was| == |now| && i <= |now| && now[..i] == was[..i] && now[i..] == Sorted(was[i..])
  }

  lemma SortStep(was: seq<PartitionLag>, now: seq<PartitionLag>, next: seq<PartitionLag>, i: nat, j: nat)
    requires SortedFrom(was, now, i + 1) && Sifted(now, next, i, j)
    requires j + 1 < |next| ==> next[j].partition < next[j + 1].partition
    ensures SortedFrom(was, next, i)
  {
    SiftedInserts(now, next, i, j);
    assert now[i] == now[..i + 1][i] == was[..i + 1][i] == was[i];
    assert now[..i] == now[..i + 1][..i] == was[..i + 1][..i] == was[..i];
    assert was[i..][1..] == was[i + 1..];
  }

  /** The sort of the entries, in place: each is moved into its place among those after it. */
  method SortInPlace(a: array<PartitionLag>)
    modifies a
    ensures a[..] == Sorted(old(a[..]))
  {
    var i := a.Length;
    while i > 0
      invariant 0 <= i <= a.Length && SortedFrom(old(a[..]), a[..], i)
    {
      i := i - 1;
      ghost var now := a[..];
      var j := Sift(a, i);
      SortStep(old(a[..]), now, a[..], i, j);
    }
    assert a[..][0..] == a[..] && old(a[..])[0..] == old(a[..]);
  }

  // ------------------------------------------------------------------ the aggregation loop

  /** The aggregation loop: the map is traversed in an arbitrary order, entries are appended and
      the error-free lags added up; then the entries are sorted in place. */
  method Aggregate(m: map<int, MemberLag>) returns (ps: seq<PartitionLag>, total: int)
    ensures Reads(ps, total, m)
  {
    ps, total := [], 0;
    var rest: set<int> := m.Keys;
    while rest != {}
      invariant rest <= m.Keys && Entries(ps, m) && DistinctPartitions(ps)
      invariant Covers(ps, m.Keys - rest)
      invariant total == Wrap(Total(ps, m))
      decreases rest
    {
      NonEmpty(rest);
      var p :| p in rest;
      var entry := PartitionLag(p, m[p].lag, if m[p].err.Some? then m[p].err.value else "");
      CoversPush(ps, m.Keys - rest, entry);
      TotalPush(ps, entry, m);
      WrapAdds(Total(ps, m), m[p].lag);
      if m[p].err.None? {
        total := Wrap(total + m[p].lag);
      }
      ps := ps + [entry];
      rest := rest - {p};
      assert m.Keys - rest == (m.Keys - (rest + {p})) + {p};
    }
    assert m.Keys - rest == m.Keys;
    SortedKeeps(ps, m);
    SortedCovers(ps, m.Keys);
    ps := SortSlice(ps);
  }

  method SortSlice(ps: seq<PartitionLag>) returns (r: seq<PartitionLag>)
    ensures r == Sorted(ps)
  {
    var slice := new PartitionLag[|ps|](i requires 0 <= i < |ps| => ps[i]);
    assert slice[..] == ps;
    SortInPlace(slice);
    r := slice[..];
  }

  lemma NonEmpty(s: set<int>)
    requires s != {}
    ensures exists p :: p in s
  {
    if forall p :: p !in s { assert false; }
  }

  lemma CoversPush(ps: seq<PartitionLag>, keys: set<int>, x: PartitionLag)
    requires Covers(ps, keys)
    ensures Covers(ps + [x], keys + {x.partition})
    ensures x.partition !in keys ==> NotIn(x.partition, ps)
  {
    var r := ps + [x];
    forall p ensures p in keys + {x.partition} <==> exists i :: 0 <= i < |r| && r[i].partition == p {
      if p in keys {
        var i :| 0 <= i < |ps| && ps[i].partition == p;
        assert r[i].partition == p;
      }
      if p == x.partition {
        assert r[|ps|].partition == p;
      }
    }
  }

  lemma {:induction false} TotalPush(ps: seq<PartitionLag>, x: PartitionLag, m: map<int, MemberLag>)
    requires Entries(ps, m) && IsEntry(x, m)
    ensures Entries(ps + [x], m) && Total(ps + [x], m) == Total(ps, m) + Known(m[x.partition])
  {
    if ps == [] {
      assert (ps + [x])[1..] == [];
    } else {
      TotalPush(ps[1..], x, m);
      assert (ps + [x])[1..] == ps[1..] + [x];
    }
  }

  // ------------------------------------------------------------------ Stalled

  lemma {:induction false} TotalPositive(ps: seq<PartitionLag>, m: map<int, MemberLag>)
    requires Entries(ps, m)
    requires forall i :: 0 <= i < |ps| ==> Known(m[ps[i].partition]) >= 0
    ensures Total(ps, m) >= 0
    ensures Total(ps, m) > 0 <==> exists i :: 0 <= i < |ps| && Known(m[ps[i].partition]) > 0
  {
    if ps != [] {
      TotalPositive(ps[1..], m);
      if Total(ps[1..], m) > 0 {
        var i :| 0 <= i < |ps[1..]| && Known(m[ps[1..][i].partition]) > 0;
        assert ps[i + 1] == ps[1..][i];
      }
      if i :| 0 <= i < |ps| && Known(m[ps[i].partition]) > 0 && i > 0 {
        assert ps[1..][i - 1] == ps[i];
      }
    }
  }

  /** Some partition with a computed lag is behind. */
  ghost predicate SomeBehind(m: map<int, MemberLag>) {
    exists p :: p in m && m[p].err.None? && m[p].lag > 0
  }

  lemma BehindPositive(l: ConsumerLag, m: map<int, MemberLag>)
    requires Reads(l.partitions, l.total, m)
    requires forall p :: p in m && m[p].err.None? ==> m[p].lag >= 0
    ensures Total(l.partitions, m) >= 0
    ensures Total(l.partitions, m) > 0 <==> SomeBehind(m)
  {
    TotalPositive(l.partitions, m);
    if p :| p in m && m[p].err.None? && m[p].lag > 0 {
      assert p in m.Keys;
      var i :| 0 <= i < |l.partitions| && l.partitions[i].partition == p;
      assert Known(m[l.partitions[i].partition]) > 0;
    }
  }

  /** Given non-negative computed lags: as long as their sum fits an int64, a reading is stalled
      exactly when the group has no members and some partition is behind; and that equivalence
      fails exactly when the group has no members and the sum wraps to a value that is not
      positive. */
  lemma StalledExactly(l: ConsumerLag, m: map<int, MemberLag>)
    requires Reads(l.partitions, l.total, m)
    requires forall p :: p in m && m[p].err.None? ==> m[p].lag >= 0
    ensures Total(l.partitions, m) < TWO63 ==> (Stalled(l) <==> l.members == 0 && SomeBehind(m))
    ensures var sum := Total(l.partitions, m) % TWO64;
            (Stalled(l) <==> l.members == 0 && SomeBehind(m)) <==>
              l.members > 0 || Total(l.partitions, m) == 0 || 0 < sum < TWO63
  {
    BehindPositive(l, m);
  }

  /** A group without members and with two partitions behind can look healthy. */
  lemma WrappedTotalHides() returns (l: ConsumerLag, m: map<int, MemberLag>)
    ensures Reads(l.partitions, l.total, m) && SomeBehind(m) && l.members == 0 && !Stalled(l)
    ensures forall p :: p in m ==> m[p].err.None? && 0 <= m[p].lag < TWO63
  {
    var most := MemberLag(TWO63 - 1, None);
    m := map[0 := most, 1 := most];
    var ps := [PartitionLag(0, TWO63 - 1, ""), PartitionLag(1, TWO63 - 1, "")];
    assert ps[1..] == [PartitionLag(1, TWO63 - 1, "")] && ps[1..][1..] == [];
    assert Total(ps[1..], m) == TWO63 - 1 + Total([], m);
    l := ConsumerLag("", "", "", 0, Wrap(Total(ps, m)), ps);
    assert 0 in m && m[0].lag > 0;
    assert ps[0].partition == 0 && ps[1].partition == 1;
  }

  // ------------------------------------------------------------------ ReadLag

  lemma EmptyReading(ps: seq<PartitionLag>, total: int)
    requires Reads(ps, total, map[])
    ensures ps == [] && total == 0
  {
    ReadingUnique(ps, total, [], 0, map[]);
  }

  /** ReadLag with the coordinator's answer as a parameter: the error cases in the code's order, and
      otherwise the one reading of the topic's partitions, none where the answer does not mention the
      topic. So with non-negative lags whose sum fits an int64 the reading is stalled exactly when the
      group has no members and some partition of the topic with a computed lag is behind. */
  method ReadLag(configured: bool, answer: Result<map<string, Described>>, group: string, topic: string)
    returns (r: Result<ConsumerLag>)
    ensures r.Ok? <==> configured && answer.Ok? && group in answer.value && answer.value[group].err.None?
    ensures r.Ok? ==>
              var d := answer.value[group];
              r.value.(total := 0, partitions := []) == ConsumerLag(group, topic, d.state, d.members, 0, [])
    ensures r.Ok? && topic in answer.value[group].lag ==>
              var m := answer.value[group].lag[topic];
              && Reads(r.value.partitions, r.value.total, m)
              && ((forall p :: p in m && m[p].err.None? ==> m[p].lag >= 0) && Total(r.value.partitions, m) < TWO63 ==>
                    (Stalled(r.value) <==> answer.value[group].members == 0
                                           && exists p :: p in m && m[p].err.None? && m[p].lag > 0))
    ensures r.Ok? && topic in answer.value[group].lag ==>
              var m, ps := answer.value[group].lag[topic], r.value.partitions;
              && (forall i, j :: 0 <= i < j < |ps| ==> ps[i].partition < ps[j].partition)
              && (forall p :: p in m <==> exists i :: 0 <= i < |ps| && ps[i].partition == p)
              && forall i :: 0 <= i < |ps| ==>
                   ps[i].partition in m && ps[i].lag == m[ps[i].partition].lag
                   && ps[i].error == if m[ps[i].partition].err.Some? then m[ps[i].partition].err.value else ""
    ensures r.Ok? && topic !in answer.value[group].lag ==>
              r.value.partitions == [] && r.value.total == 0 && !Stalled(r.value)
    ensures !configured ==> r == Err("kafka lag: reader not configured")
    ensures configured && answer.Err? ==> r == Err(answer.error)
    ensures configured && answer.Ok? && group !in answer.value ==> r == Err("kafka lag: group not found")
    ensures configured && answer.Ok? && group in answer.value && answer.value[group].err.Some? ==>
              r == Err(answer.value[group].err.value)
  {
    if !configured {
      return Err("kafka lag: reader not configured");
    }
    if answer.Err? {
      return Err(answer.error);
    }
    if group !in answer.value {
      return Err("kafka lag: group not found");
    }
    var d := answer.value[group];
    if d.err.Some? {
      return Err(d.err.value);
    }
    var m: map<int, MemberLag> := if topic in d.lag then d.lag[topic] else map[];
    var ps, total := Aggregate(m);
    r := Ok(ConsumerLag(group, topic, d.state, d.members, total, ps));
    if topic !in d.lag {
      EmptyReading(ps, total);
    } else if forall p :: p in m && m[p].err.None? ==> m[p].lag >= 0 {
      StalledExactly(r.value, m);
    }
  }
}
