/** The exchange types and the recording mock of src/exchange/mod.rs, in the
    generation that file declares: holdings named `fiat`/`coin`, orders naming a
    `bid_currency` and an `ask_currency`, and `place_market_order` returning `Result<()>`. */
module Exchange {
  import opened Common

  /** One holding: a currency name and an amount (`f64` in the source). */
  datatype Asset = Asset(name: string, amount: real)

  /** The holdings of an account; either side may be absent. */
  datatype Assets = Assets(fiat: Option<Asset>, coin: Option<Asset>)

  /** `Assets::default()`: nothing held. */
  const NoAssets := Assets(None, None)

  /** One price level of an order book: the price and the amount offered there. */
  datatype Order = Order(price: real, amount: real)

  /** The order book of one instrument: bids best (highest) first, asks best (lowest) first. */
  datatype Pair = Pair(id: Uuid, bidOrders: seq<Order>, askOrders: seq<Order>)

  datatype OrderType = Buy | Sell

  datatype MarketOrder = MarketOrder(bidCurrency: string, askCurrency: string, orderType: OrderType, amount: real)

  /** The test double for an exchange: it reports the holdings it was built with and
      records every order placed on it. */
  class MockExchange {
    var assets: Assets
    var recordedOrders: seq<MarketOrder>

    /** `MockExchange::new`: the given holdings, no order recorded yet. */
    constructor (assets: Assets)
      ensures this.assets == assets
      ensures recordedOrders == []
    {
      this.assets := assets;
      recordedOrders := [];
    }

    /** Records `order` at the end of the list and always succeeds. */
    method PlaceMarketOrder(order: MarketOrder) returns (r: Result<()>)
      modifies this`recordedOrders
      ensures r == Ok(())
      ensures recordedOrders == old(recordedOrders) + [order]
    {
      recordedOrders := recordedOrders + [order];
      r := Ok(());
    }

    /** The holdings given at construction; nothing changes. */
    method FetchAssets() returns (r: Result<Assets>)
      ensures r == Ok(assets)
    {
      r := Ok(assets);
    }
  }

  /** The tests of src/exchange/mod.rs, replayed against the model. */
  method MockExchangeScenario()
  {
    var given := Assets(Some(Asset("USD", 50.0)), None);
    var exchange := new MockExchange(given);
    var fetched := exchange.FetchAssets();
    assert fetched == Ok(given);
    var order := MarketOrder("EUR", "BTC", Buy, 50.0);
    var placed := exchange.PlaceMarketOrder(order);
    assert placed.Ok? && exchange.recordedOrders == [order];
    fetched := exchange.FetchAssets();
    assert fetched == Ok(given);
  }
}

/** The exchange types as src/exchange/simulation.rs and src/exchange/trade.rs use
    them: holdings named `quote`/`base`, orders carrying the correlation id of the
    message that caused them, and an exchange fee option. The version of
    src/exchange/mod.rs in the repository declares the older generation modelled in
    module `Exchange`; these definitions follow the field names of their uses. */
module ExchangeApi {
  import opened Common
  import Exchange

  datatype Assets = Assets(quote: Option<Exchange.Asset>, base: Option<Exchange.Asset>)

  datatype MarketOrder = MarketOrder(
    base: string,
    quote: string,
    orderType: Exchange.OrderType,
    amount: real,
    correlationId: Uuid)

  /** `ExchangeOptions`; only the fee is read. */
  datatype ExchangeOptions = ExchangeOptions(fee: real)
}
