/** The processor of src/preprocessor/sliding_average.rs: a stage whose loop keeps
    the time-window buffer itself. For each live price it sends the window's mean
    (when more than one point is buffered) and then, unless it is a filter, the
    event itself; a Shutdown ends the loop. */
module Preprocessor {
  import opened Common
  import opened PriceWindow
  import Messaging
  import Messages
  import Processors
  import ProcessorSlidingAverage

  /** The preprocessor's own event type. Its `PriceUpdated` has the fields of
      `Messaging.PriceUpdated`, with an `i64` datetime. */
  datatype Event =
    | LivePriceUpdated(priceUpdated: Messaging.PriceUpdated)
    | AveragePriceUpdated(priceUpdated: Messaging.PriceUpdated)
    | Shutdown

  /** The buffer after the loop, everything sent, and how the loop ended. */
  datatype Outcome = Outcome(events: seq<TimePricePoint>, output: seq<Event>, ending: Processors.Ending)

  /** The average sent for an optional mean. */
  function AverageEvents(avg: Option<Messaging.PriceUpdated>): (out: seq<Event>)
    ensures avg.None? <==> out == []
    ensures avg.Some? ==> out == [AveragePriceUpdated(avg.value)]
  {
    if avg.Some? then [AveragePriceUpdated(avg.value)] else []
  }

  /** One turn of the loop for an event other than Shutdown. */
  function Step(isFilter: bool, windowMillis: int, events: seq<TimePricePoint>, e: Event): (seq<TimePricePoint>, seq<Event>)
  {
    var forwarded := if isFilter then [] else [e];
    match e
    case LivePriceUpdated(p) =>
      var window := Slide(events, p, windowMillis);
      (window, AverageEvents(AverageUpdate(p, window)) + forwarded)
    case _ => (events, forwarded)
  }

  /** `Processor::start` on a finite input. */
  function Run(isFilter: bool, windowMillis: int, events: seq<TimePricePoint>, input: seq<Event>): Outcome
    decreases |input|
  {
    if input == [] then Outcome(events, [], Processors.InputExhausted)
    else if input[0].Shutdown? then Outcome(events, [], Processors.ShutdownReceived)
    else
      var step := Step(isFilter, windowMillis, events, input[0]);
      var rest := Run(isFilter, windowMillis, step.0, input[1..]);
      Outcome(rest.events, step.1 + rest.output, rest.ending)
  }

  /** The events the loop handles: those before the first Shutdown. */
  function Handled(input: seq<Event>): (p: seq<Event>)
    ensures |p| <= |input| && p == input[..|p|]
    ensures forall i :: 0 <= i < |p| ==> !p[i].Shutdown?
    ensures |p| < |input| ==> input[|p|].Shutdown?
  {
    if input == [] || input[0].Shutdown? then []
    else [input[0]] + Handled(input[1..])
  }

  /** A Shutdown ends the loop: nothing is sent for it and nothing after it is read. */
  lemma {:induction false} StopsAtShutdown(isFilter: bool, windowMillis: int, events: seq<TimePricePoint>,
                                           a: seq<Event>, b: seq<Event>)
    requires forall i :: 0 <= i < |a| ==> !a[i].Shutdown?
    ensures Run(isFilter, windowMillis, events, a + [Shutdown] + b) == Run(isFilter, windowMillis, events, a + [Shutdown])
    ensures Run(isFilter, windowMillis, events, a + [Shutdown]).ending == Processors.ShutdownReceived
    decreases |a|
  {
    if a == [] {
      assert a + [Shutdown] + b == [Shutdown] + b;
      assert a + [Shutdown] == [Shutdown];
    } else {
      assert (a + [Shutdown] + b)[0] == a[0] && (a + [Shutdown])[0] == a[0];
      assert (a + [Shutdown] + b)[1..] == a[1..] + [Shutdown] + b;
      assert (a + [Shutdown])[1..] == a[1..] + [Shutdown];
      StopsAtShutdown(isFilter, windowMillis, Step(isFilter, windowMillis, events, a[0]).0, a[1..], b);
    }
  }

  predicate OnlyAverages(out: seq<Event>)
  {
    forall i :: 0 <= i < |out| ==> out[i].AveragePriceUpdated?
  }

  /** A filter sends only averages. */
  lemma {:induction false} FilterSendsOnlyAverages(windowMillis: int, events: seq<TimePricePoint>, input: seq<Event>)
    ensures OnlyAverages(Run(true, windowMillis, events, input).output)
    decreases |input|
  {
    if input != [] && !input[0].Shutdown? {
      var step := Step(true, windowMillis, events, input[0]);
      FilterSendsOnlyAverages(windowMillis, step.0, input[1..]);
      var rest := Run(true, windowMillis, step.0, input[1..]).output;
      assert OnlyAverages(step.1);
      assert Run(true, windowMillis, events, input).output == step.1 + rest;
    }
  }

  /** Filtering changes neither the buffer nor the ending; without it every handled
      event is sent as well, one more message each. */
  lemma {:induction false} FilterDropsForwarded(windowMillis: int, events: seq<TimePricePoint>, input: seq<Event>)
    ensures var filtered := Run(true, windowMillis, events, input);
            var forwarding := Run(false, windowMillis, events, input);
            filtered.events == forwarding.events && filtered.ending == forwarding.ending &&
            |forwarding.output| == |filtered.output| + |Handled(input)|
    decreases |input|
  {
    if input != [] && !input[0].Shutdown? {
      FilterDropsForwarded(windowMillis, Step(true, windowMillis, events, input[0]).0, input[1..]);
    }
  }

  /** Without filtering, a live price's average (if any) is sent before the price
      itself, and the price is sent even when no average is. */
  lemma AverageBeforeForwarded(windowMillis: int, events: seq<TimePricePoint>, p: Messaging.PriceUpdated, rest: seq<Event>)
    ensures var window := Slide(events, p, windowMillis);
            var out := Run(false, windowMillis, events, [LivePriceUpdated(p)] + rest).output;
            if |window| > 1 then
              |out| >= 2 && out[0] == AveragePriceUpdated(AverageUpdate(p, window).value) && out[1] == LivePriceUpdated(p)
            else
              |out| >= 1 && out[0] == LivePriceUpdated(p)
  {
    assert ([LivePriceUpdated(p)] + rest)[1..] == rest;
  }

  /** Non-live events never change the buffer. */
  lemma {:induction false} OnlyLivePricesMoveTheWindow(isFilter: bool, windowMillis: int, events: seq<TimePricePoint>,
                                                       input: seq<Event>)
    requires forall i :: 0 <= i < |input| ==> !input[i].LivePriceUpdated?
    ensures Run(isFilter, windowMillis, events, input).events == events
    decreases |input|
  {
    if input != [] && !input[0].Shutdown? {
      OnlyLivePricesMoveTheWindow(isFilter, windowMillis, events, input[1..]);
    }
  }

  /** The event as a first-generation message. */
  function AsMsg(e: Event): Messages.Msg
  {
    match e
    case LivePriceUpdated(p) => Messages.LivePriceUpdated(p)
    case AveragePriceUpdated(p) => Messages.AveragePriceUpdated(p)
    case Shutdown => Messages.Shutdown
  }

  function AsMsgs(events: seq<Event>): (msgs: seq<Messages.Msg>)
    ensures |msgs| == |events|
    ensures forall i :: 0 <= i < |events| ==> msgs[i] == AsMsg(events[i])
  {
    if events == [] then [] else [AsMsg(events[0])] + AsMsgs(events[1..])
  }

  lemma {:induction false} AsMsgsConcat(a: seq<Event>, b: seq<Event>)
    ensures AsMsgs(a + b) == AsMsgs(a) + AsMsgs(b)
  {
    assert AsMsgs(a + b) == AsMsgs(a) + AsMsgs(b) by {
      assert forall i :: 0 <= i < |a + b| ==> AsMsgs(a + b)[i] == (AsMsgs(a) + AsMsgs(b))[i];
    }
  }

  /** The aggregator of src/processors/sliding_average.rs as a stage function. */
  function SlidingAverageAggregate(windowMillis: int): (seq<TimePricePoint>, Messages.Msg) -> (seq<TimePricePoint>, seq<Messages.Msg>)
  {
    (events: seq<TimePricePoint>, msg: Messages.Msg) => ProcessorSlidingAverage.Aggregated(windowMillis, events, msg)
  }

  /** The two generations agree: filtering, this processor sends exactly what the
      generic stage of src/processors/mod.rs sends with the sliding-average
      aggregator, and keeps the same buffer. */
  lemma {:induction false} AgreesWithAggregatorStage(windowMillis: int, events: seq<TimePricePoint>, input: seq<Event>)
    ensures var own := Run(true, windowMillis, events, input);
            var stage := Processors.Run(SlidingAverageAggregate(windowMillis), true, events, AsMsgs(input));
            AsMsgs(own.output) == stage.output && own.events == stage.state && own.ending == stage.ending
    decreases |input|
  {
    if input != [] {
      var msgs := AsMsgs(input);
      assert msgs[0] == AsMsg(input[0]);
      assert msgs[1..] == AsMsgs(input[1..]);
      if !input[0].Shutdown? {
        var step := Step(true, windowMillis, events, input[0]);
        AgreesWithAggregatorStage(windowMillis, step.0, input[1..]);
        var rest := Run(true, windowMillis, step.0, input[1..]);
        AsMsgsConcat(step.1, rest.output);
        var produced := SlidingAverageAggregate(windowMillis)(events, msgs[0]);
        assert produced.0 == step.0;
        assert AsMsgs(step.1) == produced.1;
      }
    }
  }

  class Processor {
    const isFilter: bool
    const windowMillis: int
    var events: seq<TimePricePoint>

    constructor (isFilter: bool, windowMillis: int)
      ensures this.isFilter == isFilter && this.windowMillis == windowMillis && events == []
    {
      this.isFilter := isFilter;
      this.windowMillis := windowMillis;
      events := [];
    }

    /** `start`: the loop `Run` describes, sending event by event. */
    method Start(input: seq<Event>) returns (output: seq<Event>, ending: Processors.Ending)
      modifies this`events
      ensures Run(isFilter, windowMillis, old(events), input) == Outcome(events, output, ending)
    {
      output := [];
      var i := 0;
      while i < |input|
        invariant 0 <= i <= |input|
        invariant Run(isFilter, windowMillis, old(events), input)
               == Run(isFilter, windowMillis, events, input[i..]).(output := output + Run(isFilter, windowMillis, events, input[i..]).output)
      {
        var e := input[i];
        RunAt(isFilter, windowMillis, events, input, i);
        if e.Shutdown? {
          ending := Processors.ShutdownReceived;
          assert output + [] == output;
          return;
        }
        ghost var before := output;
        var sent := Handle(e);
        output := output + sent;
        assert before + (sent + Run(isFilter, windowMillis, events, input[i + 1..]).output)
            == output + Run(isFilter, windowMillis, events, input[i + 1..]).output;
        i := i + 1;
      }
      ending := Processors.InputExhausted;
      assert output + [] == output;
    }

    /** One turn of the loop for an event other than Shutdown: the buffer is pushed
        and pruned in place, and the average and the forwarded event are sent. */
    method Handle(e: Event) returns (sent: seq<Event>)
      requires !e.Shutdown?
      modifies this`events
      ensures events == Step(isFilter, windowMillis, old(events), e).0
      ensures sent == Step(isFilter, windowMillis, old(events), e).1
    {
      sent := [];
      match e {
        case LivePriceUpdated(p) =>
          events := events + [TimePricePoint(p.datetime, p.price)];
          events := Recent(events, p.datetime - windowMillis);
          if |events| > 1 {
            var avg := Messaging.PriceUpdated(NilUuid, p.pairId, p.datetime, Sum(events) / |events| as real);
            sent := sent + [AveragePriceUpdated(avg)];
          }
          assert events == Slide(old(events), p, windowMillis);
          assert sent == AverageEvents(AverageUpdate(p, events));
        case _ =>
      }
      if !isFilter {
        sent := sent + [e];
      }
    }
  }

  /** One turn of the loop, at position `i` of the input. */
  lemma RunAt(isFilter: bool, windowMillis: int, events: seq<TimePricePoint>, input: seq<Event>, i: nat)
    requires i < |input|
    ensures input[i].Shutdown? ==> Run(isFilter, windowMillis, events, input[i..]) == Outcome(events, [], Processors.ShutdownReceived)
    ensures !input[i].Shutdown? ==>
      var step := Step(isFilter, windowMillis, events, input[i]);
      var rest := Run(isFilter, windowMillis, step.0, input[i + 1..]);
      Run(isFilter, windowMillis, events, input[i..]) == rest.(output := step.1 + rest.output)
  {
    assert input[i..][0] == input[i] && input[i..][1..] == input[i + 1..];
  }

  function Live(datetime: int, price: real): Event
  {
    LivePriceUpdated(Messaging.PriceUpdated(NilUuid, "pair_id", datetime, price))
  }

  /** `processor_should_exit_if_shutdown_received`,
      `processor_should_output_events_if_not_filtered` and
      `processor_should_emit_average_price_update`. */
  method PreprocessorScenario()
  {
    var processor := new Processor(false, 0);
    var output, ending := processor.Start([Shutdown]);
    assert output == [] && ending == Processors.ShutdownReceived;

    var zero := Live(0, 0.0);
    processor := new Processor(false, 0);
    output, ending := processor.Start([zero, Shutdown]);
    assert [zero, Shutdown][1..] == [Shutdown];
    assert Slide([], zero.priceUpdated, 0) == [TimePricePoint(0, 0.0)];
    assert output == [zero];

    var p0, p1 := TimePricePoint(0, 1.0), TimePricePoint(1000, 2.0);
    var e0, e1 := Live(0, 1.0), Live(1000, 2.0);
    assert [e0, e1, Shutdown][1..] == [e1, Shutdown] && [e1, Shutdown][1..] == [Shutdown];
    assert [p0, p1][1..] == [p1] && [p1][1..] == [];
    NewestKept([], e0.priceUpdated, 1000);
    NewestKept([p0], e1.priceUpdated, 1000);
    assert Slide([p0], e1.priceUpdated, 1000) == [p0, p1];
    assert Sum([p1]) == 2.0 && Sum([p0, p1]) == 3.0;
    assert AverageUpdate(e1.priceUpdated, [p0, p1]).value.price == 1.5;
    assert Run(true, 1000, [p0], [e1, Shutdown]).output
        == [AveragePriceUpdated(Messaging.PriceUpdated(NilUuid, "pair_id", 1000, 1.5))];
    processor := new Processor(true, 1000);
    output, ending := processor.Start([e0, e1, Shutdown]);
    assert output == [AveragePriceUpdated(Messaging.PriceUpdated(NilUuid, "pair_id", 1000, 1.5))];
  }
}
