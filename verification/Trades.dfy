/** The trade event, the order book and the enrichment step between pool and fan-out. */
module Trades {

  datatype Option<+T> = None | Some(value: T)

  type Symbol = string

  /** `Other` is any decoded side that is neither BUY nor SELL. */
  datatype Side = Buy | Sell | Other

  datatype Market = Market(baseAsset: string, quoteAsset: string, exchange: string)

  datatype TradeEvent = TradeEvent(
    symbol: Symbol, price: real, quantity: real, side: Side, tradeId: int,
    notional: real, market: Market, isWhale: bool, eventTime: int, ingestTime: int)

  datatype Level = Level(price: real, quantity: real)

  datatype Book = Book(symbol: Symbol, bids: seq<Level>, asks: seq<Level>, lastUpdate: int)

  const NO_MARKET := Market("", "", "")

  /** A metadata miss yields the zero-value market: the trade is forwarded, not dropped. */
  function Lookup(table: map<Symbol, Market>, symbol: Symbol): Market {
    if symbol in table then table[symbol] else NO_MARKET
  }

  /** The enricher's map: it touches the notional and the market, nothing else. */
  function Enrich(table: map<Symbol, Market>, event: TradeEvent): (r: TradeEvent)
    ensures r.(notional := event.notional, market := event.market) == event
    ensures r.notional == event.price * event.quantity
    ensures event.symbol in table ==> r.market == table[event.symbol]
    ensures event.symbol !in table ==> r.market == NO_MARKET
  {
    event.(notional := event.price * event.quantity, market := Lookup(table, event.symbol))
  }
}
