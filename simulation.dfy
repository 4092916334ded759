/** The back-testing exchange of src/exchange/simulation.rs: it replays a recorded
    event stream, prices each market order at the live price that caused it, and
    swaps the whole holding between USDT and BTC. */
module Simulation {
  import opened Common
  import Exchange
  import opened ExchangeApi
  import Messaging

  /** Whether event `i` is a live price carrying correlation id `id`. */
  predicate PricedAt(events: seq<Messaging.Msg>, i: int, id: Uuid)
  {
    0 <= i < |events| && events[i].data.LivePriceUpdated? && events[i].metadata.correlationId == id
  }

  /** The price table the constructor's loop builds: every live price is filed under
      its message's correlation id, a later one replacing an earlier one. */
  function PriceTable(events: seq<Messaging.Msg>): map<Uuid, real>
  {
    if events == [] then map[]
    else
      var table := PriceTable(events[..|events| - 1]);
      var last := events[|events| - 1];
      if last.data.LivePriceUpdated? then table[last.metadata.correlationId := last.data.priceUpdated.price]
      else table
  }

  /** An id has a price exactly when some live price event carries it; events of
      other kinds never contribute. */
  lemma {:induction false} PriceTableDomain(events: seq<Messaging.Msg>, id: Uuid)
    ensures id in PriceTable(events) <==> exists i :: PricedAt(events, i, id)
  {
    if events != [] {
      var init := events[..|events| - 1];
      PriceTableDomain(init, id);
      if exists i :: PricedAt(init, i, id) {
        var i :| PricedAt(init, i, id);
        assert init[i] == events[i];
        assert PricedAt(events, i, id);
      }
      if exists i :: PricedAt(events, i, id) {
        var i :| PricedAt(events, i, id);
        if i < |init| {
          assert init[i] == events[i];
          assert PricedAt(init, i, id);
        }
      }
      if PricedAt(events, |events| - 1, id) {
        assert id in PriceTable(events);
      }
    }
  }

  /** The price filed under an id is that of the last live price event carrying it. */
  lemma {:induction false} PriceTableLastWins(events: seq<Messaging.Msg>, i: nat, id: Uuid)
    requires PricedAt(events, i, id)
    requires forall j :: i < j < |events| ==> !PricedAt(events, j, id)
    ensures id in PriceTable(events)
    ensures PriceTable(events)[id] == events[i].data.priceUpdated.price
  {
    var init := events[..|events| - 1];
    if i < |events| - 1 {
      assert !PricedAt(events, |events| - 1, id);
      assert init[i] == events[i];
      assert PricedAt(init, i, id);
      forall j | i < j < |init|
        ensures !PricedAt(init, j, id)
      {
        assert init[j] == events[j];
        assert !PricedAt(events, j, id);
      }
      PriceTableLastWins(init, i, id);
    }
  }

  /** What placing an order yields: the amount returned and the holdings afterwards. */
  datatype Placement = Placement(result: Result<real>, assets: Assets)

  /** The holdings after an order: a buy leaves USDT empty and BTC holding the amount
      bought; a sell leaves USDT holding the amount sold and BTC empty. */
  function Holdings(orderType: Exchange.OrderType, amount: real): (a: Assets)
    ensures a.quote.Some? && a.quote.value.name == "USDT"
    ensures a.base.Some? && a.base.value.name == "BTC"
    ensures orderType == Exchange.Buy ==> a.quote.value.amount == 0.0 && a.base.value.amount == amount
    ensures orderType == Exchange.Sell ==> a.quote.value.amount == amount && a.base.value.amount == 0.0
  {
    match orderType
    case Buy => Assets(Some(Exchange.Asset("USDT", 0.0)), Some(Exchange.Asset("BTC", amount)))
    case Sell => Assets(Some(Exchange.Asset("USDT", amount)), Some(Exchange.Asset("BTC", 0.0)))
  }

  /** `place_market_order` as a function of the price table, the fee and the prior
      holdings. An unknown correlation id makes the source panic ("unknown correlation
      id"); here it is an `Err` that leaves the holdings as they were. */
  function Place(prices: map<Uuid, real>, fee: real, assets: Assets, order: MarketOrder): (p: Placement)
    ensures p.result.Err? <==> order.correlationId !in prices
    ensures p.result.Err? ==> p.assets == assets
    ensures p.result.Ok? ==> p.assets == Holdings(order.orderType, p.result.value)
    ensures p.result.Ok? && order.orderType == Exchange.Buy ==>
      p.result.value == order.amount * (1.0 - fee) * prices[order.correlationId]
    ensures p.result.Ok? && order.orderType == Exchange.Sell && prices[order.correlationId] > 0.0 ==>
      p.result.value * prices[order.correlationId] == order.amount * (1.0 - fee)
    ensures p.result.Ok? && order.orderType == Exchange.Sell && prices[order.correlationId] <= 0.0 ==>
      p.result.value == 0.0
  {
    if order.correlationId !in prices then Placement(Err("unknown correlation id"), assets)
    else
      var price := prices[order.correlationId];
      var amount := order.amount * (1.0 - fee);
      match order.orderType
      case Buy =>
        Placement(Ok(amount * price), Holdings(Exchange.Buy, amount * price))
      case Sell =>
        var sold := if price > 0.0 then amount / price else 0.0;
        Placement(Ok(sold), Holdings(Exchange.Sell, sold))
  }

  /** Both holdings are overwritten: what is held after a successful order does not
      depend on what was held before it. */
  lemma PlaceIgnoresHoldings(prices: map<Uuid, real>, fee: real, before1: Assets, before2: Assets, order: MarketOrder)
    ensures Place(prices, fee, before1, order).result == Place(prices, fee, before2, order).result
    ensures order.correlationId in prices ==>
      Place(prices, fee, before1, order).assets == Place(prices, fee, before2, order).assets
  {
  }

  /** Buying with `q` USDT and then selling all the BTC bought, both priced by the
      same positive live price, returns `q` less the fee taken twice. */
  lemma BuyThenSell(prices: map<Uuid, real>, fee: real, assets: Assets, q: real, id: Uuid)
    requires id in prices && prices[id] > 0.0
    ensures var bought := Place(prices, fee, assets, MarketOrder("BTC", "USDT", Exchange.Buy, q, id));
            var sold := Place(prices, fee, bought.assets,
                              MarketOrder("BTC", "USDT", Exchange.Sell, bought.result.value, id));
            sold.result == Ok(q * (1.0 - fee) * (1.0 - fee)) &&
            sold.assets == Holdings(Exchange.Sell, q * (1.0 - fee) * (1.0 - fee))
  {
    var x := q * (1.0 - fee) * (1.0 - fee);
    var bought := Place(prices, fee, assets, MarketOrder("BTC", "USDT", Exchange.Buy, q, id));
    assert bought.result.Ok?;
    assert bought.result.value == q * (1.0 - fee) * prices[id];
    assert q * (1.0 - fee) * prices[id] * (1.0 - fee) == x * prices[id];
    assert (x * prices[id]) / prices[id] == x;
    var sold := Place(prices, fee, bought.assets, MarketOrder("BTC", "USDT", Exchange.Sell, bought.result.value, id));
    assert sold.result.Ok?;
    assert sold.result.value == x;
  }

  /** The simulated exchange. Only the holdings change after construction. */
  class SimulatedExchange {
    const eventStream: seq<Messaging.Msg>
    var assets: Assets
    const prices: map<Uuid, real>
    const options: ExchangeOptions

    /** `SimulatedExchange::new`: keeps the events and holdings and builds the price
        table in one pass over the events. */
    constructor (eventStream: seq<Messaging.Msg>, assets: Assets, options: ExchangeOptions)
      ensures this.eventStream == eventStream
      ensures this.assets == assets
      ensures this.options == options
      ensures prices == PriceTable(eventStream)
    {
      var table: map<Uuid, real> := map[];
      for i := 0 to |eventStream|
        invariant table == PriceTable(eventStream[..i])
      {
        var event := eventStream[i];
        if event.data.LivePriceUpdated? {
          table := table[event.metadata.correlationId := event.data.priceUpdated.price];
        }
        assert eventStream[..i + 1][..i] == eventStream[..i];
      }
      assert eventStream[..|eventStream|] == eventStream;
      this.eventStream := eventStream;
      this.assets := assets;
      prices := table;
      this.options := options;
    }

    /** `event_stream`: the events given at construction, unchanged and in order. */
    method EventStream() returns (events: seq<Messaging.Msg>)
      ensures events == eventStream
    {
      events := eventStream;
    }

    /** `fetch_assets`: the current holdings; nothing changes. */
    method FetchAssets() returns (r: Result<Assets>)
      ensures r == Ok(assets)
    {
      r := Ok(assets);
    }

    /** `place_market_order`: deducts the fee from the order amount, converts at the
        price filed under the order's correlation id, and overwrites both holdings. */
    method PlaceMarketOrder(order: MarketOrder) returns (r: Result<real>)
      modifies this`assets
      ensures Placement(r, assets) == Place(prices, options.fee, old(assets), order)
    {
      if order.correlationId !in prices {
        return Err("unknown correlation id");
      }
      var price := prices[order.correlationId];
      var amount := order.amount * (1.0 - options.fee);
      match order.orderType
      case Buy =>
        amount := amount * price;
        assets := assets.(quote := Some(Exchange.Asset("USDT", 0.0)));
        assets := assets.(base := Some(Exchange.Asset("BTC", amount)));
        r := Ok(amount);
        assert assets == Holdings(Exchange.Buy, amount);
        assert Place(prices, options.fee, old(assets), order).result.value == amount;
      case Sell =>
        amount := if price > 0.0 then amount / price else 0.0;
        assets := assets.(quote := Some(Exchange.Asset("USDT", amount)));
        assets := assets.(base := Some(Exchange.Asset("BTC", 0.0)));
        r := Ok(amount);
        assert assets == Holdings(Exchange.Sell, amount);
        assert Place(prices, options.fee, old(assets), order).result.value == amount;
    }
  }

  /** A live price event with the given correlation id. */
  function LivePrice(price: real, id: Uuid): Messaging.Msg
  {
    Messaging.Msg(
      Messaging.LivePriceUpdated(Messaging.PriceUpdated(NilUuid, "BTC/USDT", 0, price)),
      Messaging.DefaultMetaData.(correlationId := id))
  }

  /** The amount tests of src/exchange/simulation.rs, replayed against the model. */
  method PlaceMarketOrderScenario()
  {
    var usdt := Assets(Some(Exchange.Asset("USDT", 40.0)), None);
    var btc := Assets(None, Some(Exchange.Asset("BTC", 40.0)));

    var exchange := new SimulatedExchange([LivePrice(0.5, 0)], usdt, ExchangeOptions(0.0));
    var r := exchange.PlaceMarketOrder(MarketOrder("BTC", "USDT", Exchange.Buy, 40.0, 0));
    assert r == Ok(20.0);
    var held := exchange.FetchAssets();
    assert held == Ok(Assets(Some(Exchange.Asset("USDT", 0.0)), Some(Exchange.Asset("BTC", 20.0))));

    exchange := new SimulatedExchange([LivePrice(0.5, 0)], btc, ExchangeOptions(0.0));
    r := exchange.PlaceMarketOrder(MarketOrder("BTC", "USDT", Exchange.Sell, 40.0, 0));
    assert r == Ok(80.0);

    exchange := new SimulatedExchange([LivePrice(0.5, 0)], btc, ExchangeOptions(0.2));
    r := exchange.PlaceMarketOrder(MarketOrder("BTC", "USDT", Exchange.Sell, 40.0, 0));
    assert r == Ok(64.0);

    exchange := new SimulatedExchange([LivePrice(0.7, 0), LivePrice(1.0, 1)], usdt, ExchangeOptions(0.0));
    r := exchange.PlaceMarketOrder(MarketOrder("BTC", "USDT", Exchange.Buy, 40.0, 0));
    assert r == Ok(28.0);

    exchange := new SimulatedExchange([LivePrice(0.0, 0)], usdt, ExchangeOptions(0.0));
    r := exchange.PlaceMarketOrder(MarketOrder("BTC", "USDT", Exchange.Sell, 40.0, 0));
    assert r == Ok(0.0);

    r := exchange.PlaceMarketOrder(MarketOrder("BTC", "USDT", Exchange.Sell, 40.0, 7));
    assert r.Err?;
  }
}
