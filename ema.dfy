/** `SlidingAverage` of src/strategy/sliding_average.rs: an exponential moving
    average of the live prices, with smoothing 2/(n+1), that is emitted only once n
    prices have warmed it up. */
module StrategySlidingAverage {
  import opened Common
  import Messaging

  /** `u16` values are taken modulo this. */
  const U16Modulus: nat := 65536

  /** One step of the average: the first price seeds it, and every later price moves
      it by 2/(n+1) of the distance to that price. */
  function EmaStep(latestAverage: Option<real>, price: real, minPricePoints: nat): (average: real)
    ensures latestAverage.None? ==> average == price
    ensures latestAverage.Some? ==>
      (average - latestAverage.value) * (minPricePoints as real + 1.0) == 2.0 * (price - latestAverage.value)
  {
    var previous := if latestAverage.Some? then latestAverage.value else price;
    var factor := 2.0 / (minPricePoints + 1) as real;
    assert factor * (minPricePoints as real + 1.0) == 2.0;
    (price - previous) * factor + previous
  }

  /** With at least one price point in the window the smoothing factor is at most 1,
      so the new average lies between the previous one and the price. */
  lemma EmaBetween(previous: real, price: real, minPricePoints: nat)
    requires minPricePoints >= 1
    ensures var average := EmaStep(Some(previous), price, minPricePoints);
            (previous <= average <= price) || (price <= average <= previous)
  {
    var average := EmaStep(Some(previous), price, minPricePoints);
    var n := minPricePoints as real + 1.0;
    assert (average - previous) * n == 2.0 * (price - previous);
    if price >= previous {
      assert (average - previous) * n >= 0.0;
      assert average >= previous;
      assert (average - previous) * n <= (price - previous) * n;
    } else {
      assert (average - previous) * n <= 0.0;
      assert average <= previous;
      assert (average - previous) * n >= (price - previous) * n;
    }
  }

  /** The state `act` updates: the running average and the warm-up counter. */
  datatype EmaState = EmaState(latestAverage: Option<real>, counted: nat)

  /** The new state and the emitted messages. */
  datatype Acted = Acted(state: EmaState, output: seq<Messaging.MsgData>)

  /** `act` on a state: every live price updates the average; it is emitted once the
      counter has reached `minPricePoints`, and until then the counter grows by one. */
  function ActOn(s: EmaState, minPricePoints: nat, msg: Messaging.Msg): (a: Acted)
    ensures |a.output| <= 1
    ensures |a.output| == 1 <==> msg.data.LivePriceUpdated? && s.counted >= minPricePoints
    ensures !msg.data.LivePriceUpdated? ==> a.state == s
    ensures msg.data.LivePriceUpdated? ==>
      a.state.latestAverage == Some(EmaStep(s.latestAverage, msg.data.priceUpdated.price, minPricePoints))
    ensures msg.data.LivePriceUpdated? ==>
      a.state.counted == (if s.counted >= minPricePoints then s.counted else s.counted + 1)
    ensures |a.output| == 1 ==>
      && a.state.latestAverage.Some?
      && a.output[0] == Messaging.AveragePriceUpdated(Messaging.PriceUpdated(
           NilUuid, msg.data.priceUpdated.pairId, msg.data.priceUpdated.datetime, a.state.latestAverage.value))
  {
    match msg.data
    case LivePriceUpdated(e) =>
      var average := EmaStep(s.latestAverage, e.price, minPricePoints);
      if s.counted >= minPricePoints then
        Acted(EmaState(Some(average), s.counted),
              [Messaging.AveragePriceUpdated(Messaging.PriceUpdated(NilUuid, e.pairId, e.datetime, average))])
      else Acted(EmaState(Some(average), s.counted + 1), [])
    case _ => Acted(s, [])
  }

  /** `act` over a run of messages, the outputs concatenated. */
  function ActAll(s: EmaState, minPricePoints: nat, msgs: seq<Messaging.Msg>): Acted
    decreases |msgs|
  {
    if msgs == [] then Acted(s, [])
    else
      var first := ActOn(s, minPricePoints, msgs[0]);
      var rest := ActAll(first.state, minPricePoints, msgs[1..]);
      Acted(rest.state, first.output + rest.output)
  }

  /** Warm-up: over `k` live prices, starting with the counter at `c <= n`, the
      counter ends at min(c + k, n) and exactly max(0, k - (n - c)) averages are
      emitted; from a fresh actor the first n prices emit nothing and every later
      one emits one average. */
  lemma {:induction false} WarmUp(s: EmaState, minPricePoints: nat, msgs: seq<Messaging.Msg>)
    requires s.counted <= minPricePoints
    requires forall i :: 0 <= i < |msgs| ==> msgs[i].data.LivePriceUpdated?
    ensures ActAll(s, minPricePoints, msgs).state.counted == Min(s.counted + |msgs|, minPricePoints)
    ensures |ActAll(s, minPricePoints, msgs).output|
         == if s.counted + |msgs| <= minPricePoints then 0 else s.counted + |msgs| - minPricePoints
    decreases |msgs|
  {
    if msgs != [] {
      WarmUp(ActOn(s, minPricePoints, msgs[0]).state, minPricePoints, msgs[1..]);
    }
  }

  class SlidingAverage {
    const windowMillis: nat
    var latestAverage: Option<real>
    var countedPricePoints: nat
    const minPricePoints: nat

    /** The counter never passes the number of points it waits for, both `u16`. */
    ghost predicate Valid()
      reads this
    {
      countedPricePoints <= minPricePoints < U16Modulus
    }

    /** `SlidingAverage::new`: waits for window/interval points (integer division,
        truncated to `u16`); the division panics on a zero interval. */
    constructor (intervalMillis: nat, windowMillis: nat)
      requires intervalMillis > 0
      ensures this.windowMillis == windowMillis
      ensures latestAverage == None && countedPricePoints == 0
      ensures minPricePoints == (windowMillis / intervalMillis) % U16Modulus
      ensures windowMillis / intervalMillis < U16Modulus ==>
        minPricePoints * intervalMillis <= windowMillis < (minPricePoints + 1) * intervalMillis
      ensures Valid()
    {
      this.windowMillis := windowMillis;
      latestAverage := None;
      countedPricePoints := 0;
      minPricePoints := (windowMillis / intervalMillis) % U16Modulus;
    }

    /** `act`: as `ActOn` on the actor's fields; it never fails. */
    method Act(msg: Messaging.Msg) returns (r: Result<seq<Messaging.MsgData>>)
      requires Valid()
      modifies this`latestAverage, this`countedPricePoints
      ensures Valid()
      ensures var a := ActOn(EmaState(old(latestAverage), old(countedPricePoints)), minPricePoints, msg);
              r == Ok(a.output) && latestAverage == a.state.latestAverage && countedPricePoints == a.state.counted
    {
      match msg.data {
        case LivePriceUpdated(e) =>
          var previous := if latestAverage.Some? then latestAverage.value else e.price;
          var currentAverage := (e.price - previous) * (2.0 / (minPricePoints + 1) as real) + previous;
          assert currentAverage == EmaStep(latestAverage, e.price, minPricePoints);
          ghost var a := ActOn(EmaState(latestAverage, countedPricePoints), minPricePoints, msg);
          latestAverage := Some(currentAverage);
          if countedPricePoints >= minPricePoints {
            r := Ok([Messaging.AveragePriceUpdated(Messaging.PriceUpdated(NilUuid, e.pairId, e.datetime, currentAverage))]);
            assert a.output == r.value;
          } else {
            countedPricePoints := countedPricePoints + 1;
            r := Ok([]);
            assert a.output == r.value;
          }
        case _ =>
          r := Ok([]);
      }
    }
  }

  function Live(datetime: int, price: real): Messaging.Msg
  {
    Messaging.WithData(Messaging.LivePriceUpdated(Messaging.PriceUpdated(NilUuid, "pair_id", datetime, price)))
  }

  /** `actor_should_calculate_prices_from_given_sliding_window` and
      `actor_should_not_emit_average_price_update_if_window_not_full`. */
  method SlidingAverageScenario()
  {
    var actor := new SlidingAverage(1000, 2000);
    assert actor.minPricePoints == 2;
    var r := actor.Act(Live(0, 1.0));
    assert r == Ok([]);
    r := actor.Act(Live(1000, 2.2));
    assert r == Ok([]);
    assert actor.latestAverage == Some(1.8);
    r := actor.Act(Live(2000, 4.5));
    assert r == Ok([Messaging.AveragePriceUpdated(Messaging.PriceUpdated(NilUuid, "pair_id", 2000, 3.6))]);
  }
}
