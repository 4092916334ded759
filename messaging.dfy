/** The messages of the actor pipeline (src/messaging/message.rs), together with
    the `Bought`/`Sold` events and their `Order` payload that src/exchange/trade.rs
    emits. */
module Messaging {
  import opened Common
  import Exchange

  /** A price observation: `datetime` is an `i128` of milliseconds. */
  datatype PriceUpdated = PriceUpdated(id: Uuid, pairId: string, datetime: int, price: real)

  /** The `Order` payload of `Bought`/`Sold`: the amount the exchange returned and the
      currencies of the market order. */
  datatype Fill = Fill(amount: real, quote: string, base: string)

  datatype MsgData =
    | LivePriceUpdated(priceUpdated: PriceUpdated)
    | AveragePriceUpdated(priceUpdated: PriceUpdated)
    | OrderExecuted(order: Exchange.MarketOrder)
    | Buy
    | Sell
    | Bought(fill: Fill)
    | Sold(fill: Fill)
    | Shutdown

  /** `created` is a `u128` timestamp. */
  datatype MsgMetaData = MsgMetaData(id: Uuid, created: nat, correlationId: Uuid, causationId: Uuid)

  /** `MsgMetaData::default()`: nil identifiers, time 0. */
  const DefaultMetaData := MsgMetaData(NilUuid, 0, NilUuid, NilUuid)

  datatype Msg = Msg(data: MsgData, metadata: MsgMetaData)

  /** `Msg::with_data`: a message carrying `data` and default metadata, so its
      correlation id is the nil UUID. */
  function WithData(data: MsgData): (m: Msg)
    ensures m.data == data
    ensures m.metadata.correlationId == NilUuid && m.metadata.causationId == NilUuid
  {
    Msg(data, DefaultMetaData)
  }
}

/** The message enum of the first pipeline generation (`crate::messages`), which
    the aggregators under src/processors consume. Its module is not part of this model; the variants
    follow their uses there. */
module Messages {
  import Messaging

  datatype Msg =
    | LivePriceUpdated(priceUpdated: Messaging.PriceUpdated)
    | AveragePriceUpdated(priceUpdated: Messaging.PriceUpdated)
    | Buy
    | Sell
    | Shutdown

  /** `PriceUpdated::default()`: nil id, empty pair id, time 0, price 0. */
  const DefaultPrice := Messaging.PriceUpdated(0, "", 0, 0.0)
}
