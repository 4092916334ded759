/** The time-window buffer that src/processors/sliding_average.rs and
    src/preprocessor/sliding_average.rs both keep: each live price is pushed, the
    points older than the window are dropped with `retain`, and the arithmetic mean
    of what is left is the average. */
module PriceWindow {
  import opened Common
  import Messaging

  datatype TimePricePoint = TimePricePoint(datetime: int, price: real)

  /** The in-place `retain` of the buffer: the points at or after `cutoff`, in order. */
  function Recent(points: seq<TimePricePoint>, cutoff: int): (r: seq<TimePricePoint>)
    ensures |r| <= |points|
  {
    if points == [] then []
    else (if points[0].datetime >= cutoff then [points[0]] else []) + Recent(points[1..], cutoff)
  }

  /** A point is kept exactly when it was buffered and is not older than the cutoff. */
  lemma {:induction false} RecentMembers(points: seq<TimePricePoint>, cutoff: int)
    ensures forall p :: p in Recent(points, cutoff) <==> p in points && p.datetime >= cutoff
  {
    if points != [] {
      RecentMembers(points[1..], cutoff);
      assert points == [points[0]] + points[1..];
    }
  }

  lemma {:induction false} RecentConcat(a: seq<TimePricePoint>, b: seq<TimePricePoint>, cutoff: int)
    ensures Recent(a + b, cutoff) == Recent(a, cutoff) + Recent(b, cutoff)
  {
    if a == [] {
      assert a + b == b;
    } else {
      var head := if a[0].datetime >= cutoff then [a[0]] else [];
      assert (a + b)[0] == a[0];
      assert (a + b)[1..] == a[1..] + b;
      assert Recent(a + b, cutoff) == head + Recent(a[1..] + b, cutoff);
      RecentConcat(a[1..], b, cutoff);
      assert head + (Recent(a[1..], cutoff) + Recent(b, cutoff))
          == (head + Recent(a[1..], cutoff)) + Recent(b, cutoff);
    }
  }

  /** The buffer after a live price at time `datetime` with the given window. */
  function Slide(events: seq<TimePricePoint>, e: Messaging.PriceUpdated, windowMillis: int): seq<TimePricePoint>
  {
    Recent(events + [TimePricePoint(e.datetime, e.price)], e.datetime - windowMillis)
  }

  /** With a non-negative window the new point is always kept, last: the buffer is
      never empty after a live price, and the earlier points are those still recent. */
  lemma NewestKept(events: seq<TimePricePoint>, e: Messaging.PriceUpdated, windowMillis: int)
    requires windowMillis >= 0
    ensures Slide(events, e, windowMillis) == Recent(events, e.datetime - windowMillis) + [TimePricePoint(e.datetime, e.price)]
  {
    var point := TimePricePoint(e.datetime, e.price);
    RecentConcat(events, [point], e.datetime - windowMillis);
    assert [point][1..] == [];
  }

  function Sum(points: seq<TimePricePoint>): real
  {
    if points == [] then 0.0 else points[0].price + Sum(points[1..])
  }

  /** The arithmetic mean of the buffered prices. */
  function Mean(points: seq<TimePricePoint>): real
    requires |points| > 0
  {
    Sum(points) / |points| as real
  }

  lemma {:induction false} SumBounds(points: seq<TimePricePoint>, low: real, high: real)
    requires forall i :: 0 <= i < |points| ==> low <= points[i].price <= high
    ensures |points| as real * low <= Sum(points) <= |points| as real * high
  {
    if points != [] {
      SumBounds(points[1..], low, high);
      assert |points| as real * low == low + |points[1..]| as real * low;
      assert |points| as real * high == high + |points[1..]| as real * high;
    }
  }

  /** The mean lies between the lowest and the highest buffered price. */
  lemma MeanBounds(points: seq<TimePricePoint>, low: real, high: real)
    requires |points| > 0
    requires forall i :: 0 <= i < |points| ==> low <= points[i].price <= high
    ensures low <= Mean(points) <= high
  {
    SumBounds(points, low, high);
    var n := |points| as real;
    var m := Mean(points);
    assert m * n == Sum(points);
  }

  /** The average a live price produces over the buffer: emitted only when the buffer
      holds more than one point, with the event's pair id and datetime and the mean
      of the buffered prices. */
  function AverageUpdate(e: Messaging.PriceUpdated, window: seq<TimePricePoint>): (r: Option<Messaging.PriceUpdated>)
    ensures r.Some? <==> |window| > 1
    ensures r.Some? ==> r.value.pairId == e.pairId && r.value.datetime == e.datetime && r.value.id == NilUuid
    ensures r.Some? ==> r.value.price * |window| as real == Sum(window)
  {
    if |window| > 1 then Some(Messaging.PriceUpdated(NilUuid, e.pairId, e.datetime, Mean(window))) else None
  }
}

/** `SlidingAverageAggregator` of src/processors/sliding_average.rs. */
module ProcessorSlidingAverage {
  import opened Common
  import opened PriceWindow
  import Messaging
  import Messages

  /** The output of an aggregator for an optional average. */
  function AverageMessages(avg: Option<Messaging.PriceUpdated>): (out: seq<Messages.Msg>)
    ensures |out| <= 1
    ensures avg.None? <==> out == []
    ensures avg.Some? ==> out == [Messages.AveragePriceUpdated(avg.value)]
  {
    if avg.Some? then [Messages.AveragePriceUpdated(avg.value)] else []
  }

  /** `aggregate` as a function of the buffer: the new buffer and the output. A
      live price slides the window and yields its average when more than one point
      is buffered; any other message leaves the buffer and yields nothing. */
  function Aggregated(windowMillis: int, events: seq<TimePricePoint>, msg: Messages.Msg): (r: (seq<TimePricePoint>, seq<Messages.Msg>))
    ensures msg.LivePriceUpdated? ==> r.0 == Slide(events, msg.priceUpdated, windowMillis)
    ensures !msg.LivePriceUpdated? ==> r == (events, [])
    ensures r.1 != [] <==> msg.LivePriceUpdated? && |r.0| > 1
    ensures r.1 != [] ==> r.1 == [Messages.AveragePriceUpdated(AverageUpdate(msg.priceUpdated, r.0).value)]
  {
    if msg.LivePriceUpdated? then
      var window := Slide(events, msg.priceUpdated, windowMillis);
      (window, AverageMessages(AverageUpdate(msg.priceUpdated, window)))
    else (events, [])
  }

  class SlidingAverageAggregator {
    const windowMillis: int
    var events: seq<TimePricePoint>

    /** `SlidingAverageAggregator::new`: an empty buffer. */
    constructor (windowMillis: int)
      ensures this.windowMillis == windowMillis && events == []
    {
      this.windowMillis := windowMillis;
      events := [];
    }

    /** `aggregate`: a live price slides the window and yields its average when the
        buffer holds more than one point; any other message changes nothing. */
    method Aggregate(msg: Messages.Msg) returns (out: seq<Messages.Msg>)
      modifies this`events
      ensures msg.LivePriceUpdated? ==>
        events == Slide(old(events), msg.priceUpdated, windowMillis) &&
        out == AverageMessages(AverageUpdate(msg.priceUpdated, events))
      ensures !msg.LivePriceUpdated? ==> out == [] && events == old(events)
      ensures (events, out) == Aggregated(windowMillis, old(events), msg)
    {
      match msg {
        case LivePriceUpdated(e) =>
          events := events + [TimePricePoint(e.datetime, e.price)];
          events := Recent(events, e.datetime - windowMillis);
          if |events| > 1 {
            var sum := Sum(events);
            var avg := Messaging.PriceUpdated(NilUuid, e.pairId, e.datetime, sum / |events| as real);
            out := [Messages.AveragePriceUpdated(avg)];
          } else {
            out := [];
          }
        case _ =>
          out := [];
      }
    }
  }

  function Live(datetime: int, price: real): Messages.Msg
  {
    Messages.LivePriceUpdated(Messaging.PriceUpdated(NilUuid, "", datetime, price))
  }

  /** `aggr_should_calculate_prices_from_given_sliding_window`: prices 1, 2, 3 one
      second apart in a one-second window average to 1.5 and then 2.5. */
  method SlidingAverageAggregatorScenario()
  {
    var aggregator := new SlidingAverageAggregator(1000);
    var out := aggregator.Aggregate(Live(0, 1.0));
    assert out == [];
    var p0, p1, p2 := TimePricePoint(0, 1.0), TimePricePoint(1000, 2.0), TimePricePoint(2000, 3.0);
    assert aggregator.events == [p0];
    assert [p0, p1][1..] == [p1] && [p1, p2][1..] == [p2] && [p1][1..] == [] && [p2][1..] == [];
    out := aggregator.Aggregate(Live(1000, 2.0));
    NewestKept([p0], Live(1000, 2.0).priceUpdated, 1000);
    assert aggregator.events == [p0, p1];
    assert Sum([p1]) == 2.0 && Sum([p0, p1]) == 3.0;
    assert AverageUpdate(Live(1000, 2.0).priceUpdated, [p0, p1]).value.price == 1.5;
    assert out == [Messages.AveragePriceUpdated(Messaging.PriceUpdated(NilUuid, "", 1000, 1.5))];
    out := aggregator.Aggregate(Live(2000, 3.0));
    NewestKept([p0, p1], Live(2000, 3.0).priceUpdated, 1000);
    assert aggregator.events == [p1, p2];
    assert Sum([p2]) == 3.0 && Sum([p1, p2]) == 5.0;
    assert AverageUpdate(Live(2000, 3.0).priceUpdated, [p1, p2]).value.price == 2.5;
    assert out == [Messages.AveragePriceUpdated(Messaging.PriceUpdated(NilUuid, "", 2000, 2.5))];
  }
}
