/** The trader actor of src/exchange/trade.rs: a Buy or Sell signal becomes at most
    one market order for the whole of the relevant holding, and a successful order
    is reported as a `Bought` or `Sold` event. The exchange is the simulated one of
    src/exchange/simulation.rs. */
module Trade {
  import opened Common
  import Exchange
  import opened ExchangeApi
  import Messaging
  import Simulation

  /** The currencies every order of the trader names. */
  const BaseCurrency: string := "BTC"
  const QuoteCurrency: string := "USDT"

  /** The first half of `execute`: the market order for the whole of `asset`, placed
      only when the asset is held with a positive amount. */
  function OrderFor(asset: Option<Exchange.Asset>, orderType: Exchange.OrderType, correlationId: Uuid): (o: Option<MarketOrder>)
    ensures o.Some? <==> asset.Some? && asset.value.amount > 0.0
    ensures o.Some? ==> o.value.amount == asset.value.amount
    ensures o.Some? ==> o.value.orderType == orderType && o.value.correlationId == correlationId
    ensures o.Some? ==> o.value.base == BaseCurrency && o.value.quote == QuoteCurrency
  {
    if asset.Some? && asset.value.amount > 0.0 then
      Some(MarketOrder(BaseCurrency, QuoteCurrency, orderType, asset.value.amount, correlationId))
    else None
  }

  /** The event reporting a filled order: `Bought` for a buy, `Sold` for a sell,
      carrying the amount the exchange returned and the order's currencies. */
  function Report(order: MarketOrder, amount: real): (m: Messaging.MsgData)
    ensures order.orderType == Exchange.Buy <==> m.Bought?
    ensures order.orderType == Exchange.Sell <==> m.Sold?
    ensures m.Bought? || m.Sold?
    ensures m.fill.amount == amount && m.fill.quote == order.quote && m.fill.base == order.base
  {
    var fill := Messaging.Fill(amount, order.quote, order.base);
    match order.orderType
    case Buy => Messaging.Bought(fill)
    case Sell => Messaging.Sold(fill)
  }

  /** The outcome of one message: the actor's result and the exchange's holdings after it. */
  datatype Outcome = Outcome(output: Result<seq<Messaging.MsgData>>, assets: Assets)

  /** `execute` against a simulated exchange with the given price table, fee and holdings. */
  function ExecuteOutcome(prices: map<Uuid, real>, fee: real, assets: Assets, asset: Option<Exchange.Asset>,
                          orderType: Exchange.OrderType, correlationId: Uuid): Outcome
  {
    match OrderFor(asset, orderType, correlationId)
    case None => Outcome(Ok([]), assets)
    case Some(order) =>
      var placed := Simulation.Place(prices, fee, assets, order);
      match placed.result
      case Err(e) => Outcome(Err(e), placed.assets)
      case Ok(amount) => Outcome(Ok([Report(order, amount)]), placed.assets)
  }

  /** `Trader::act` as a function of the exchange's state: a Buy spends the quote
      holding, a Sell the base holding, and any other message does nothing. */
  function ActOutcome(prices: map<Uuid, real>, fee: real, assets: Assets, msg: Messaging.Msg): (out: Outcome)
    ensures !msg.data.Buy? && !msg.data.Sell? ==> out == Outcome(Ok([]), assets)
    ensures out.output.Ok? ==> |out.output.value| <= 1
  {
    match msg.data
    case Buy => ExecuteOutcome(prices, fee, assets, assets.quote, Exchange.Buy, msg.metadata.correlationId)
    case Sell => ExecuteOutcome(prices, fee, assets, assets.base, Exchange.Sell, msg.metadata.correlationId)
    case _ => Outcome(Ok([]), assets)
  }

  /** The asset a signal spends. */
  function Spent(assets: Assets, signal: Messaging.MsgData): Option<Exchange.Asset>
  {
    if signal.Buy? then assets.quote else assets.base
  }

  /** Without a positive holding of the asset a signal spends, nothing is ordered:
      the output is empty and the holdings stay as they were. */
  lemma NothingToSpend(prices: map<Uuid, real>, fee: real, assets: Assets, msg: Messaging.Msg)
    requires msg.data.Buy? || msg.data.Sell?
    requires Spent(assets, msg.data).None? || Spent(assets, msg.data).value.amount <= 0.0
    ensures ActOutcome(prices, fee, assets, msg) == Outcome(Ok([]), assets)
  {
  }

  /** A Buy with a positive USDT holding `q` buys at the live price of the message's
      correlation id and reports `Bought` with the amount bought; the BTC holding
      becomes that amount and the USDT holding 0. */
  lemma BuySpendsQuote(prices: map<Uuid, real>, fee: real, assets: Assets, msg: Messaging.Msg)
    requires msg.data.Buy?
    requires assets.quote.Some? && assets.quote.value.amount > 0.0
    requires msg.metadata.correlationId in prices
    ensures var bought := assets.quote.value.amount * (1.0 - fee) * prices[msg.metadata.correlationId];
            ActOutcome(prices, fee, assets, msg) ==
              Outcome(Ok([Messaging.Bought(Messaging.Fill(bought, QuoteCurrency, BaseCurrency))]),
                      Simulation.Holdings(Exchange.Buy, bought))
  {
    var bought := assets.quote.value.amount * (1.0 - fee) * prices[msg.metadata.correlationId];
    var order := OrderFor(assets.quote, Exchange.Buy, msg.metadata.correlationId).value;
    var placed := Simulation.Place(prices, fee, assets, order);
    assert placed.result.Ok?;
    assert placed.result.value == bought;
    assert Report(order, bought) == Messaging.Bought(Messaging.Fill(bought, QuoteCurrency, BaseCurrency));
    assert ActOutcome(prices, fee, assets, msg).output.value == [Report(order, bought)];
  }

  /** A Sell with a positive BTC holding sells it at the live price of the message's
      correlation id and reports `Sold` with the amount received; the USDT holding
      becomes that amount and the BTC holding 0. */
  lemma SellSpendsBase(prices: map<Uuid, real>, fee: real, assets: Assets, msg: Messaging.Msg)
    requires msg.data.Sell?
    requires assets.base.Some? && assets.base.value.amount > 0.0
    requires msg.metadata.correlationId in prices
    ensures var out := ActOutcome(prices, fee, assets, msg);
            out.output.Ok? && |out.output.value| == 1 && out.output.value[0].Sold? &&
            out.output.value[0].fill.quote == QuoteCurrency && out.output.value[0].fill.base == BaseCurrency &&
            out.assets == Simulation.Holdings(Exchange.Sell, out.output.value[0].fill.amount)
    ensures var out := ActOutcome(prices, fee, assets, msg);
            var price := prices[msg.metadata.correlationId];
            price > 0.0 ==> out.output.value[0].fill.amount * price == assets.base.value.amount * (1.0 - fee)
  {
    var order := OrderFor(assets.base, Exchange.Sell, msg.metadata.correlationId).value;
    var placed := Simulation.Place(prices, fee, assets, order);
    assert placed.result.Ok?;
  }

  /** A failing order is propagated as the actor's error. */
  lemma UnknownCorrelationFails(prices: map<Uuid, real>, fee: real, assets: Assets, msg: Messaging.Msg)
    requires msg.data.Buy? || msg.data.Sell?
    requires Spent(assets, msg.data).Some? && Spent(assets, msg.data).value.amount > 0.0
    requires msg.metadata.correlationId !in prices
    ensures ActOutcome(prices, fee, assets, msg).output.Err?
  {
    if msg.data.Buy? {
      var order := OrderFor(assets.quote, Exchange.Buy, msg.metadata.correlationId).value;
      assert Simulation.Place(prices, fee, assets, order).result.Err?;
    } else {
      var order := OrderFor(assets.base, Exchange.Sell, msg.metadata.correlationId).value;
      assert Simulation.Place(prices, fee, assets, order).result.Err?;
    }
  }

  /** `execute`: places the order `OrderFor` gives, if any, and reports its result. */
  method Execute(exchange: Simulation.SimulatedExchange, asset: Option<Exchange.Asset>,
                 orderType: Exchange.OrderType, correlationId: Uuid) returns (r: Result<seq<Messaging.MsgData>>)
    modifies exchange
    ensures Outcome(r, exchange.assets)
         == ExecuteOutcome(exchange.prices, exchange.options.fee, old(exchange.assets), asset, orderType, correlationId)
  {
    if asset.Some? {
      if asset.value.amount > 0.0 {
        var order := MarketOrder(BaseCurrency, QuoteCurrency, orderType, asset.value.amount, correlationId);
        assert OrderFor(asset, orderType, correlationId) == Some(order);
        var placed := exchange.PlaceMarketOrder(order);
        assert Simulation.Place(exchange.prices, exchange.options.fee, old(exchange.assets), order).result == placed;
        match placed {
          case Err(e) =>
            r := Err(e);
          case Ok(amount) =>
            r := Ok([Report(order, amount)]);
        }
        return;
      }
    }
    r := Ok([]);
  }

  /** `Trader`: an actor holding the exchange it trades on. */
  class Trader {
    const exchange: Simulation.SimulatedExchange

    constructor (exchange: Simulation.SimulatedExchange)
      ensures this.exchange == exchange
    {
      this.exchange := exchange;
    }

    /** `Trader::act`: fetches the holdings and, on Buy or Sell, executes an order for
        the whole quote or base holding under the message's correlation id. */
    method Act(msg: Messaging.Msg) returns (r: Result<seq<Messaging.MsgData>>)
      modifies exchange
      ensures Outcome(r, exchange.assets)
           == ActOutcome(exchange.prices, exchange.options.fee, old(exchange.assets), msg)
    {
      match msg.data
      case Buy =>
        var assets := exchange.FetchAssets();
        r := Execute(exchange, assets.value.quote, Exchange.Buy, msg.metadata.correlationId);
      case Sell =>
        var assets := exchange.FetchAssets();
        r := Execute(exchange, assets.value.base, Exchange.Sell, msg.metadata.correlationId);
      case _ =>
        r := Ok([]);
    }
  }

  /** `should_buy_max_amount_of_quote` and the empty-holding cases, against the
      simulated exchange at price 1 without fee. */
  method TraderScenario()
  {
    var live := Simulation.LivePrice(1.0, 3);
    var exchange := new Simulation.SimulatedExchange([live], Assets(Some(Exchange.Asset("USDT", 40.0)), None), ExchangeOptions(0.0));
    var trader := new Trader(exchange);
    var buy := Messaging.Msg(Messaging.Buy, Messaging.DefaultMetaData.(correlationId := 3));
    var r := trader.Act(buy);
    BuySpendsQuote(exchange.prices, 0.0, Assets(Some(Exchange.Asset("USDT", 40.0)), None), buy);
    assert r == Ok([Messaging.Bought(Messaging.Fill(40.0, "USDT", "BTC"))]);

    var again := trader.Act(buy);
    assert again == Ok([]);

    var other := trader.Act(Messaging.WithData(Messaging.Shutdown));
    assert other == Ok([]);
  }
}
