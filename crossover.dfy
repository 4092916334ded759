/** The decision shared by the two simple-crossover detectors
    (src/strategy/simple_crossover.rs and src/processors/simple_crossover.rs). */
module CrossoverRule {
  import opened Common

  datatype Signal = BuySignal | SellSignal

  /** The signal for a new live price: with a previous live price and an average
      both known, Buy when the price has strictly crossed the average upwards, Sell
      when strictly downwards, nothing otherwise (also when either side only
      touches the average). */
  function Crossing(latestLive: Option<real>, latestAverage: Option<real>, price: real): (s: Option<Signal>)
    ensures s == Some(BuySignal) <==>
      latestLive.Some? && latestAverage.Some? && latestLive.value < latestAverage.value < price
    ensures s == Some(SellSignal) <==>
      latestLive.Some? && latestAverage.Some? && price < latestAverage.value < latestLive.value
  {
    if latestLive.Some? && latestAverage.Some? then
      var live, avg := latestLive.value, latestAverage.value;
      if price > avg && live < avg then Some(BuySignal)
      else if price < avg && live > avg then Some(SellSignal)
      else None
    else None
  }

  /** The signals a detector emits over a run of live prices while the average
      stays at `average`. */
  function Signals(latestLive: Option<real>, average: real, prices: seq<real>): seq<Signal>
    decreases |prices|
  {
    if prices == [] then []
    else
      var now := Crossing(latestLive, Some(average), prices[0]);
      (if now.Some? then [now.value] else []) + Signals(Some(prices[0]), average, prices[1..])
  }

  /** From a live price above the average the next signal can only be a Sell, from
      one below it only a Buy, as long as no price equals the average. */
  lemma {:induction false} NextSignal(live: real, average: real, prices: seq<real>)
    requires live != average
    requires forall i :: 0 <= i < |prices| ==> prices[i] != average
    requires Signals(Some(live), average, prices) != []
    ensures Signals(Some(live), average, prices)[0] == if live > average then SellSignal else BuySignal
    decreases |prices|
  {
    var now := Crossing(Some(live), Some(average), prices[0]);
    if now.None? {
      NextSignal(prices[0], average, prices[1..]);
    }
  }

  /** No two consecutive signals are the same. */
  predicate Alternates(s: seq<Signal>)
  {
    forall k :: 0 <= k < |s| - 1 ==> s[k] != s[k + 1]
  }

  /** With a fixed average that no price touches, Buy and Sell alternate. */
  lemma {:induction false} SignalsAlternate(latestLive: Option<real>, average: real, prices: seq<real>)
    requires latestLive.Some? ==> latestLive.value != average
    requires forall i :: 0 <= i < |prices| ==> prices[i] != average
    ensures Alternates(Signals(latestLive, average, prices))
    decreases |prices|
  {
    if prices != [] {
      var now := Crossing(latestLive, Some(average), prices[0]);
      var rest := Signals(Some(prices[0]), average, prices[1..]);
      SignalsAlternate(Some(prices[0]), average, prices[1..]);
      assert Alternates(rest);
      var s := Signals(latestLive, average, prices);
      assert s == (if now.Some? then [now.value] else []) + rest;
      forall k | 0 <= k < |s| - 1
        ensures s[k] != s[k + 1]
      {
        if now.None? {
          assert s[k] == rest[k] && s[k + 1] == rest[k + 1];
          assert rest[k] != rest[k + 1];
        } else if k == 0 {
          NextSignal(prices[0], average, prices[1..]);
          assert s[0] == now.value && s[1] == rest[0];
          if now == Some(BuySignal) {
            assert prices[0] > average;
          } else {
            assert now == Some(SellSignal) && prices[0] < average;
          }
          assert now.value != rest[0];
        } else {
          assert s[k] == rest[k - 1] && s[k + 1] == rest[k];
          assert rest[k - 1] != rest[k];
        }
      }
    }
  }
}

/** `SimpleCrossover` of src/strategy/simple_crossover.rs, an actor on `Msg`s. */
module StrategyCrossover {
  import opened Common
  import opened CrossoverRule
  import Messaging

  /** The messages a signal is emitted as. */
  function SignalData(s: Option<Signal>): (out: seq<Messaging.MsgData>)
    ensures |out| <= 1
    ensures s == Some(BuySignal) <==> out == [Messaging.Buy]
    ensures s == Some(SellSignal) <==> out == [Messaging.Sell]
  {
    match s
    case None => []
    case Some(BuySignal) => [Messaging.Buy]
    case Some(SellSignal) => [Messaging.Sell]
  }

  class SimpleCrossover {
    var latestAverage: Option<real>
    var latestLive: Option<real>

    /** `SimpleCrossover::new`: neither price known. */
    constructor ()
      ensures latestAverage == None && latestLive == None
    {
      latestAverage := None;
      latestLive := None;
    }

    /** `act`: a live price is judged against the previous live price and the
        average and then becomes the latest live price; an average price is stored;
        anything else is ignored. It never fails. */
    method Act(msg: Messaging.Msg) returns (r: Result<seq<Messaging.MsgData>>)
      modifies this
      ensures msg.data.LivePriceUpdated? ==>
        r == Ok(SignalData(Crossing(old(latestLive), old(latestAverage), msg.data.priceUpdated.price))) &&
        latestLive == Some(msg.data.priceUpdated.price) && latestAverage == old(latestAverage)
      ensures msg.data.AveragePriceUpdated? ==>
        r == Ok([]) && latestAverage == Some(msg.data.priceUpdated.price) && latestLive == old(latestLive)
      ensures !msg.data.LivePriceUpdated? && !msg.data.AveragePriceUpdated? ==>
        r == Ok([]) && latestAverage == old(latestAverage) && latestLive == old(latestLive)
    {
      var res: seq<Messaging.MsgData>;
      match msg.data {
        case LivePriceUpdated(e) =>
          var result: seq<Messaging.MsgData> := [];
          if latestLive.Some? && latestAverage.Some? {
            var live, avg := latestLive.value, latestAverage.value;
            if e.price > avg && live < avg {
              result := [Messaging.Buy];
            } else if e.price < avg && live > avg {
              result := [Messaging.Sell];
            }
          }
          latestLive := Some(e.price);
          res := result;
        case AveragePriceUpdated(e) =>
          latestAverage := Some(e.price);
          res := [];
        case _ =>
          res := [];
      }
      r := Ok(res);
    }
  }

  /** The actor tests: an average, a live price below it, a live price above it
      emit [Buy] on the crossing only; a further price on the same side emits nothing. */
  method StrategyCrossoverScenario()
  {
    var actor := new SimpleCrossover();
    var r := actor.Act(Messaging.WithData(Messaging.AveragePriceUpdated(Messaging.PriceUpdated(NilUuid, "pair_id", 0, 2.0))));
    assert r == Ok([]);
    r := actor.Act(Messaging.WithData(Messaging.LivePriceUpdated(Messaging.PriceUpdated(NilUuid, "pair_id", 0, 1.0))));
    assert r == Ok([]);
    r := actor.Act(Messaging.WithData(Messaging.LivePriceUpdated(Messaging.PriceUpdated(NilUuid, "pair_id", 1000, 3.0))));
    assert r == Ok([Messaging.Buy]);
    r := actor.Act(Messaging.WithData(Messaging.LivePriceUpdated(Messaging.PriceUpdated(NilUuid, "pair_id", 2000, 4.0))));
    assert r == Ok([]);
    r := actor.Act(Messaging.WithData(Messaging.LivePriceUpdated(Messaging.PriceUpdated(NilUuid, "pair_id", 3000, 1.0))));
    assert r == Ok([Messaging.Sell]);
  }
}

/** `SimpleCrossover` of src/processors/simple_crossover.rs, the aggregator twin of
    the strategy above, on the first-generation messages. */
module ProcessorCrossover {
  import opened Common
  import opened CrossoverRule
  import Messages

  /** The messages a signal is emitted as. */
  function SignalMessages(s: Option<Signal>): (out: seq<Messages.Msg>)
    ensures |out| <= 1
    ensures s == Some(BuySignal) <==> out == [Messages.Buy]
    ensures s == Some(SellSignal) <==> out == [Messages.Sell]
  {
    match s
    case None => []
    case Some(BuySignal) => [Messages.Buy]
    case Some(SellSignal) => [Messages.Sell]
  }

  class SimpleCrossover {
    var latestAverage: Option<real>
    var latestLive: Option<real>

    constructor ()
      ensures latestAverage == None && latestLive == None
    {
      latestAverage := None;
      latestLive := None;
    }

    /** `aggregate`: the same decision and updates as the strategy's `act`, without
        a `Result`. */
    method Aggregate(msg: Messages.Msg) returns (out: seq<Messages.Msg>)
      modifies this
      ensures msg.LivePriceUpdated? ==>
        out == SignalMessages(Crossing(old(latestLive), old(latestAverage), msg.priceUpdated.price)) &&
        latestLive == Some(msg.priceUpdated.price) && latestAverage == old(latestAverage)
      ensures msg.AveragePriceUpdated? ==>
        out == [] && latestAverage == Some(msg.priceUpdated.price) && latestLive == old(latestLive)
      ensures !msg.LivePriceUpdated? && !msg.AveragePriceUpdated? ==>
        out == [] && latestAverage == old(latestAverage) && latestLive == old(latestLive)
    {
      match msg {
        case LivePriceUpdated(e) =>
          var result: seq<Messages.Msg> := [];
          if latestLive.Some? && latestAverage.Some? {
            var live, avg := latestLive.value, latestAverage.value;
            if e.price > avg && live < avg {
              result := [Messages.Buy];
            } else if e.price < avg && live > avg {
              result := [Messages.Sell];
            }
          }
          latestLive := Some(e.price);
          out := result;
        case AveragePriceUpdated(e) =>
          latestAverage := Some(e.price);
          out := [];
        case _ =>
          out := [];
      }
    }
  }
}
