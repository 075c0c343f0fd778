/** services/ingestion-service: the configured symbols, normalised and deduplicated. */
module Symbols {

  /** The inputs after trimming and lower-casing, which `norm` stands for. */
  function Normalised(input: seq<string>, norm: string -> string): (r: seq<string>)
    ensures |r| == |input| && forall i :: 0 <= i < |input| ==> r[i] == norm(input[i])
  {
    seq(|input|, i requires 0 <= i < |input| => norm(input[i]))
  }

  /** The non-empty strings in order of first occurrence. */
  function Firsts(ss: seq<string>): seq<string> {
    if ss == [] then []
    else
      var rest, last := ss[..|ss| - 1], ss[|ss| - 1];
      Firsts(rest) + if last == "" || last in rest then [] else [last]
  }

  function FirstIndex(ss: seq<string>, x: string): (i: nat)
    requires x in ss
    ensures i < |ss| && ss[i] == x && x !in ss[..i]
  {
    if ss[0] == x then 0
    else
      assert ss == [ss[0]] + ss[1..];
      var i := 1 + FirstIndex(ss[1..], x);
      assert ss[..i] == [ss[0]] + ss[1..][..i - 1];
      i
  }

  lemma FirstIndexUnique(ss: seq<string>, x: string, i: nat)
    requires i < |ss| && ss[i] == x && x !in ss[..i]
    ensures FirstIndex(ss, x) == i
  {
    var j := FirstIndex(ss, x);
    forall k | 0 <= k < i ensures ss[k] != x {
      assert ss[..i][k] == ss[k];
    }
    forall k | 0 <= k < j ensures ss[k] != x {
      assert ss[..j][k] == ss[k];
    }
  }

  /** The result's set is exactly the non-empty strings. */
  lemma {:induction false} FirstsSet(ss: seq<string>, x: string)
    ensures x in Firsts(ss) <==> x in ss && x != ""
  {
    if ss != [] {
      var rest, last := ss[..|ss| - 1], ss[|ss| - 1];
      FirstsSet(rest, x);
      assert ss == rest + [last];
    }
  }

  /** It has no duplicates, and its order is that of the first occurrences. */
  lemma {:induction false} FirstsOrdered(ss: seq<string>, a: nat, b: nat)
    requires a < b < |Firsts(ss)|
    ensures Firsts(ss)[a] in ss && Firsts(ss)[b] in ss
    ensures Firsts(ss)[a] != Firsts(ss)[b]
    ensures FirstIndex(ss, Firsts(ss)[a]) < FirstIndex(ss, Firsts(ss)[b])
  {
    var n := |ss| - 1;
    var rest, last := ss[..n], ss[n];
    var x, y := Firsts(ss)[a], Firsts(ss)[b];
    assert ss == rest + [last];
    FirstsSet(ss, x);
    FirstsSet(ss, y);
    if b < |Firsts(rest)| {
      FirstsOrdered(rest, a, b);
      SameFirst(rest, last, x);
      SameFirst(rest, last, y);
    } else {
      FirstsSet(rest, x);
      assert Firsts(rest)[a] == x;
      SameFirst(rest, last, x);
      FirstIndexUnique(ss, y, n);
    }
  }

  lemma SameFirst(rest: seq<string>, last: string, x: string)
    requires x in rest
    ensures FirstIndex(rest + [last], x) == FirstIndex(rest, x)
  {
    var i := FirstIndex(rest, x);
    assert (rest + [last])[..i] == rest[..i];
    FirstIndexUnique(rest + [last], x, i);
  }

  ghost predicate Clean(ss: seq<string>) {
    (forall i :: 0 <= i < |ss| ==> ss[i] != "") && forall i, j :: 0 <= i < j < |ss| ==> ss[i] != ss[j]
  }

  lemma {:induction false} FirstsOfClean(ss: seq<string>)
    requires Clean(ss)
    ensures Firsts(ss) == ss
  {
    if ss != [] {
      FirstsOfClean(ss[..|ss| - 1]);
    }
  }

  lemma FirstsClean(ss: seq<string>)
    ensures Clean(Firsts(ss))
  {
    forall i | 0 <= i < |Firsts(ss)| ensures Firsts(ss)[i] != "" {
      FirstsSet(ss, Firsts(ss)[i]);
    }
    forall i, j | 0 <= i < j < |Firsts(ss)| ensures Firsts(ss)[i] != Firsts(ss)[j] {
      FirstsOrdered(ss, i, j);
    }
  }

  /** Normalising twice changes nothing, for every idempotent normaliser. */
  lemma TwiceIsOnce(input: seq<string>, norm: string -> string)
    requires forall s :: norm(norm(s)) == norm(s)
    ensures var once := Firsts(Normalised(input, norm));
            Firsts(Normalised(once, norm)) == once
  {
    var ns := Normalised(input, norm);
    var once := Firsts(ns);
    forall i | 0 <= i < |once| ensures norm(once[i]) == once[i] {
      FirstsSet(ns, once[i]);
      var j :| 0 <= j < |ns| && ns[j] == once[i];
      assert once[i] == norm(input[j]);
    }
    assert Normalised(once, norm) == once;
    FirstsClean(ns);
    FirstsOfClean(once);
  }

  /** The dedup loop with its seen-set. */
  method NormalizeSymbols(input: seq<string>, norm: string -> string) returns (out: seq<string>)
    ensures out == Firsts(Normalised(input, norm))
    ensures Clean(out)
    ensures forall x :: x in out <==> x != "" && exists i :: 0 <= i < |input| && norm(input[i]) == x
  {
    ghost var ns := Normalised(input, norm);
    var seen: set<string> := {};
    out := [];
    for i := 0 to |input|
      invariant out == Firsts(ns[..i])
      invariant forall x :: x in seen <==> x in ns[..i] && x != ""
    {
      var sym := norm(input[i]);
      assert ns[..i + 1] == ns[..i] + [sym] && ns[..i + 1][..i] == ns[..i];
      if sym == "" {
        continue;
      }
      if sym in seen {
        continue;
      }
      seen := seen + {sym};
      out := out + [sym];
    }
    assert ns[..|input|] == ns;
    FirstsClean(ns);
    forall x ensures x in out <==> x != "" && exists i :: 0 <= i < |input| && norm(input[i]) == x {
      FirstsSet(ns, x);
      if x in ns {
        var j :| 0 <= j < |ns| && ns[j] == x;
        assert norm(input[j]) == x;
      }
      if i :| 0 <= i < |input| && norm(input[i]) == x {
        assert ns[i] == x;
      }
    }
  }
}
