/** The in-memory order books: what a sequence of applied trades leaves behind. */
module OrderBooks {
  import opened Trades

  type Books = map<Symbol, Book>

  const NO_BOOK := Book("", [], [], 0)

  function BookOf(data: Books, symbol: Symbol): Book {
    if symbol in data then data[symbol] else NO_BOOK
  }

  /** One trade on one book: a buy replaces the asks, a sell the bids. */
  function ApplyTo(book: Book, event: TradeEvent): Book {
    var level := Level(event.price, event.quantity);
    var touched := book.(symbol := event.symbol, lastUpdate := event.eventTime);
    match event.side
    case Buy => touched.(asks := [level])
    case Sell => touched.(bids := [level])
    case Other => touched
  }

  function Applied(data: Books, event: TradeEvent): Books {
    data[event.symbol := ApplyTo(BookOf(data, event.symbol), event)]
  }

  function Fold(data: Books, events: seq<TradeEvent>): Books {
    if events == [] then data
    else Applied(Fold(data, events[..|events| - 1]), events[|events| - 1])
  }

  /** Index of the last event satisfying p, or -1. */
  function Last(events: seq<TradeEvent>, p: TradeEvent -> bool): (r: int)
    ensures -1 <= r < |events|
    ensures r >= 0 ==> p(events[r])
    ensures forall i :: r < i < |events| ==> !p(events[i])
  {
    if events == [] then -1
    else if p(events[|events| - 1]) then |events| - 1
    else Last(events[..|events| - 1], p)
  }

  function OfSymbol(symbol: Symbol): TradeEvent -> bool { (e: TradeEvent) => e.symbol == symbol }

  function OnSide(symbol: Symbol, side: Side): TradeEvent -> bool {
    (e: TradeEvent) => e.symbol == symbol && e.side == side
  }

  /** The side of a book after `events`: the level of the last trade on that side, if any. */
  function TopLevel(events: seq<TradeEvent>, symbol: Symbol, side: Side): seq<Level> {
    var i := Last(events, OnSide(symbol, side));
    if i < 0 then [] else [Level(events[i].price, events[i].quantity)]
  }

  /** The book a reader should see after `events`, said without replaying them. */
  function ExpectedBook(events: seq<TradeEvent>, symbol: Symbol): Option<Book> {
    var i := Last(events, OfSymbol(symbol));
    if i < 0 then None
    else Some(Book(symbol, TopLevel(events, symbol, Sell), TopLevel(events, symbol, Buy),
                   events[i].eventTime))
  }

  function Find(data: Books, symbol: Symbol): Option<Book> {
    if symbol in data then Some(data[symbol]) else None
  }

  /** Replaying trades one by one leaves exactly the expected book for every symbol. */
  lemma {:induction false} FoldMeaning(events: seq<TradeEvent>, symbol: Symbol)
    ensures Find(Fold(map[], events), symbol) == ExpectedBook(events, symbol)
  {
    if events != [] {
      FoldMeaning(events[..|events| - 1], symbol);
    }
  }

  lemma {:induction false} LastAt(events: seq<TradeEvent>, p: TradeEvent -> bool, i: nat)
    requires i < |events| && p(events[i])
    requires forall k :: i < k < |events| ==> !p(events[k])
    ensures Last(events, p) == i
  {
    var r := Last(events, p);
    assert r >= i;
  }

  /** The last match of a log is the last match of the log with any suffix replayed. */
  lemma {:induction false} LastOfReplay(events: seq<TradeEvent>, from: nat, p: TradeEvent -> bool)
    requires from <= |events|
    ensures var again := events + events[from..];
            var i, j := Last(events, p), Last(again, p);
            (i < 0 <==> j < 0) && (i >= 0 ==> again[j] == events[i])
  {
    var again := events + events[from..];
    var i := Last(events, p);
    forall k | |events| <= k < |again| ensures again[k] == events[from + k - |events|] {}
    if i < 0 {
      assert Last(again, p) < 0;
    } else if i < from {
      LastAt(again, p, i);
    } else {
      LastAt(again, p, |events| + i - from);
    }
  }

  /** Within one process, replaying any suffix of the trades changes no book. */
  lemma ReplayIdempotent(events: seq<TradeEvent>, from: nat)
    requires from <= |events|
    ensures Fold(map[], events + events[from..]) == Fold(map[], events)
  {
    var again := events + events[from..];
    var x, y := Fold(map[], again), Fold(map[], events);
    forall symbol: Symbol ensures Find(x, symbol) == Find(y, symbol) {
      FoldMeaning(events, symbol);
      FoldMeaning(again, symbol);
      LastOfReplay(events, from, OfSymbol(symbol));
      LastOfReplay(events, from, OnSide(symbol, Buy));
      LastOfReplay(events, from, OnSide(symbol, Sell));
    }
    SameBooks(x, y);
  }

  lemma SameBooks(x: Books, y: Books)
    requires forall symbol: Symbol :: Find(x, symbol) == Find(y, symbol)
    ensures x == y
  {
    forall symbol: Symbol ensures symbol in x <==> symbol in y {
      assert Find(x, symbol) == Find(y, symbol);
    }
    forall symbol | symbol in x ensures x[symbol] == y[symbol] {
      assert Find(x, symbol) == Find(y, symbol);
    }
  }

  lemma {:induction false} LastOfSuffix(events: seq<TradeEvent>, from: nat, p: TradeEvent -> bool)
    requires from <= |events|
    ensures Last(events[from..], p) == if Last(events, p) >= from then Last(events, p) - from else -1
  {
    var i := Last(events, p);
    forall k | 0 <= k < |events| - from ensures events[from..][k] == events[from + k] {}
    if i >= from {
      LastAt(events[from..], p, i - from);
    } else {
      assert Last(events[from..], p) < 0;
    }
  }

  /** The last event satisfying p, if there is one, is not lost when the books restart at `from`. */
  predicate Kept(events: seq<TradeEvent>, from: nat, p: TradeEvent -> bool) {
    Last(events, p) < 0 || Last(events, p) >= from
  }

  lemma {:induction false} RestartedExpectation(events: seq<TradeEvent>, from: nat, symbol: Symbol)
    requires from <= |events|
    ensures ExpectedBook(events[from..], symbol) == ExpectedBook(events, symbol) <==>
              Kept(events, from, OfSymbol(symbol)) && Kept(events, from, OnSide(symbol, Buy))
              && Kept(events, from, OnSide(symbol, Sell))
  {
    LastOfSuffix(events, from, OfSymbol(symbol));
    var i := Last(events, OfSymbol(symbol));
    if i >= from {
      SideKept(events, from, symbol, Buy);
      SideKept(events, from, symbol, Sell);
      assert events[from..][i - from] == events[i];
    } else {
      assert ExpectedBook(events[from..], symbol) == None;
      SideNeedsSymbol(events, symbol, Buy);
      SideNeedsSymbol(events, symbol, Sell);
    }
  }

  /** Across a restart the books start empty: a process that resumes at `from` has the same book
      for a symbol exactly when the symbol's last trade, last buy and last sell all lie at or after
      `from`, where they exist. */
  lemma RestartedBookExactly(events: seq<TradeEvent>, from: nat, symbol: Symbol)
    requires from <= |events|
    ensures Find(Fold(map[], events[from..]), symbol) == Find(Fold(map[], events), symbol) <==>
              Kept(events, from, OfSymbol(symbol)) && Kept(events, from, OnSide(symbol, Buy))
              && Kept(events, from, OnSide(symbol, Sell))
  {
    FoldMeaning(events, symbol);
    FoldMeaning(events[from..], symbol);
    RestartedExpectation(events, from, symbol);
  }

  lemma SideKept(events: seq<TradeEvent>, from: nat, symbol: Symbol, side: Side)
    requires from <= |events|
    ensures TopLevel(events[from..], symbol, side) == TopLevel(events, symbol, side) <==>
              Kept(events, from, OnSide(symbol, side))
  {
    LastOfSuffix(events, from, OnSide(symbol, side));
  }

  lemma SideNeedsSymbol(events: seq<TradeEvent>, symbol: Symbol, side: Side)
    ensures Last(events, OnSide(symbol, side)) <= Last(events, OfSymbol(symbol))
  {
    var i := Last(events, OnSide(symbol, side));
    if i >= 0 {
      assert OfSymbol(symbol)(events[i]);
    }
  }

  /** The mutex-guarded store. Apply is a Get followed by a separate Update. */
  class OrderBookStore {
    var data: Books

    constructor ()
      ensures data == map[]
    {
      data := map[];
    }

    method Get(symbol: Symbol) returns (book: Book, ok: bool)
      ensures ok <==> symbol in data
      ensures book == BookOf(data, symbol)
    {
      ok := symbol in data;
      book := if ok then data[symbol] else NO_BOOK;
    }

    method Update(symbol: Symbol, book: Book)
      modifies this
      ensures data == old(data)[symbol := book]
    {
      data := data[symbol := book];
    }

    method Apply(event: TradeEvent)
      modifies this
      ensures data == Applied(old(data), event)
    {
      var book, _ := Get(event.symbol);
      book := book.(symbol := event.symbol, lastUpdate := event.eventTime);
      var level := Level(event.price, event.quantity);
      match event.side {
        case Buy => book := book.(asks := [level]);
        case Sell => book := book.(bids := [level]);
        case Other =>
      }
      Update(event.symbol, book);
    }

    /** The receive loop over the trades it takes before it stops. */
    method Run(updates: seq<TradeEvent>)
      modifies this
      ensures data == Fold(old(data), updates)
      ensures old(data) == map[] ==>
                forall symbol: Symbol :: Find(data, symbol) == ExpectedBook(updates, symbol)
    {
      for i := 0 to |updates|
        invariant data == Fold(old(data), updates[..i])
      {
        Apply(updates[i]);
        assert updates[..i + 1][..i] == updates[..i];
      }
      assert updates[..|updates|] == updates;
      if old(data) == map[] {
        forall symbol: Symbol ensures Find(data, symbol) == ExpectedBook(updates, symbol) {
          FoldMeaning(updates, symbol);
        }
      }
    }
  }

  /** Why one writer matters: two interleaved Applies can lose one of the two updates. */
  lemma TwoWritersLoseAnUpdate(buy: TradeEvent, sell: TradeEvent)
    requires buy.side == Buy && sell.side == Sell && buy.symbol == sell.symbol
    ensures var data: Books := map[];
            var first, second := BookOf(data, buy.symbol), BookOf(data, sell.symbol);
            var racy := data[buy.symbol := ApplyTo(first, buy)][sell.symbol := ApplyTo(second, sell)];
            racy != Fold(data, [buy, sell]) && racy != Fold(data, [sell, buy])
  {
    var data: Books := map[];
    assert [buy, sell][..1] == [buy] && [sell, buy][..1] == [sell];
    assert Fold(data, [buy]) == Applied(data, buy) && Fold(data, [sell]) == Applied(data, sell);
    assert Fold(data, [buy, sell])[buy.symbol].asks != [];
    assert Fold(data, [sell, buy])[buy.symbol].asks != [];
  }
}
