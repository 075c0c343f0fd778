/** RedisWriter.Write as imperative code, against the ordered sets it may make and against the
    writer of the step machine. */
module RedisWriters {
  import opened Trades
  import opened OrderBooks
  import opened Processor

  /** The sets of one Write, in order; the snapshot only if the symbol has a book. */
  function Sets(event: TradeEvent, book: Option<Book>): seq<(Key, Value)> {
    [(LatestTrade(event.symbol), TradeJson(event)), (Price(event.symbol), PriceText(event.price))]
    + (if book.Some? then [(Snapshot(event.symbol), BookJson(book.value))] else [])
  }

  function SetAll(store: Store, sets: seq<(Key, Value)>): Store
    decreases |sets|
  {
    if sets == [] then store else SetAll(store[sets[0].0 := sets[0].1], sets[1..])
  }

  /** How many leading calls succeed. */
  function Succeeding(oks: seq<bool>): (n: nat)
    ensures n <= |oks| && (forall i :: 0 <= i < n ==> oks[i]) && (n < |oks| ==> !oks[n])
  {
    if oks == [] || !oks[0] then 0 else 1 + Succeeding(oks[1..])
  }

  /** The sets that take effect: those before the first failure. */
  function Effective(event: TradeEvent, book: Option<Book>, oks: seq<bool>): seq<(Key, Value)>
    requires |oks| == 3
  {
    var all := Sets(event, book);
    all[..Succeeding(oks[..|all|])]
  }

  class RedisWriter {
    var store: Store
    const books: OrderBookStore?

    constructor (store: Store, books: OrderBookStore?)
      ensures this.store == store && this.books == books
    {
      this.store := store;
      this.books := books;
    }

    ghost function BookFor(symbol: Symbol): Option<Book>
      reads this, books
    {
      if books == null then None else Find(books.data, symbol)
    }

    /** oks are the outcomes of the three sets. An error is returned exactly when a set that was
        attempted failed, and then no later key was touched. */
    method Write(event: TradeEvent, oks: seq<bool>) returns (failed: bool)
      requires |oks| == 3
      modifies this`store
      ensures store == SetAll(old(store), Effective(event, BookFor(event.symbol), oks))
      ensures failed <==> |Effective(event, BookFor(event.symbol), oks)| < |Sets(event, BookFor(event.symbol))|
    {
      ghost var book := BookFor(event.symbol);
      ghost var all := Sets(event, book);
      ghost var before := store;
      SetAllUnfolds(before, all);
      SucceedingThree(oks, |all|);
      if !oks[0] {
        return true;
      }
      store := store[LatestTrade(event.symbol) := TradeJson(event)];
      if !oks[1] {
        return true;
      }
      store := store[Price(event.symbol) := PriceText(event.price)];
      if books == null {
        return false;
      }
      var current, ok := books.Get(event.symbol);
      if !ok {
        return false;
      }
      if !oks[2] {
        return true;
      }
      store := store[Snapshot(event.symbol) := BookJson(current)];
      return false;
    }
  }

  lemma SucceedingThree(oks: seq<bool>, n: nat)
    requires |oks| == 3 && 2 <= n <= 3
    ensures Succeeding(oks[..n]) ==
              if !oks[0] then 0 else if !oks[1] then 1 else if n == 2 || !oks[2] then 2 else 3
  {
    var m := Succeeding(oks[..n]);
    assert forall i :: 0 <= i < n ==> oks[..n][i] == oks[i];
  }

  lemma SetAllUnfolds(store: Store, all: seq<(Key, Value)>)
    requires 2 <= |all| <= 3
    ensures SetAll(store, all[..0]) == store
    ensures SetAll(store, all[..1]) == store[all[0].0 := all[0].1]
    ensures SetAll(store, all[..2]) == store[all[0].0 := all[0].1][all[1].0 := all[1].1]
    ensures |all| == 3 ==>
              SetAll(store, all[..3]) == store[all[0].0 := all[0].1][all[1].0 := all[1].1][all[2].0 := all[2].1]
  {
    var one := store[all[0].0 := all[0].1];
    assert all[..1][1..] == [] && all[..2][1..] == [all[1]] && [all[1]][1..] == [];
    assert SetAll(one, [all[1]]) == one[all[1].0 := all[1].1];
    if |all| == 3 {
      var two := one[all[1].0 := all[1].1];
      assert all[..3][1..] == [all[1], all[2]] && [all[1], all[2]][1..] == [all[2]] && [all[2]][1..] == [];
      assert SetAll(two, [all[2]]) == two[all[2].0 := all[2].1];
    }
  }

  /** The machine's writer, stepped through one trade with the same outcomes and no interleaving,
      ends idle with the same store as Write. */
  lemma WriteMatchesMachine(w: Writer, event: TradeEvent, n: nat, data: Books, asOf: nat, oks: seq<bool>)
    requires |oks| == 3 && w.phase == BeforeLatest(event)
    ensures var w1 := WriteDo(w, n, data, asOf, SetLatest(oks[0])).value;
            var w2 := if w1.phase.WriterIdle? then w1 else WriteDo(w1, n, data, asOf, SetPrice(oks[1])).value;
            var w3 := if w2.phase.WriterIdle? then w2 else WriteDo(w2, n, data, asOf, ReadBook).value;
            var w4 := if w3.phase.WriterIdle? then w3 else WriteDo(w3, n, data, asOf, SetSnapshot(oks[2])).value;
            w4.phase.WriterIdle? && w4.store == SetAll(w.store, Effective(event, Find(data, event.symbol), oks))
  {
    var all := Sets(event, Find(data, event.symbol));
    SetAllUnfolds(w.store, all);
    SucceedingThree(oks, |all|);
  }
}
