/** The pipeline stage of src/processors/mod.rs: it reads messages until a
    Shutdown, hands each one to its aggregator and sends the message itself (unless
    it is a filter) followed by what the aggregator produced. The channels are an
    input sequence and an output sequence; the aggregator is a state-transition
    function over its own state. */
module Processors {
  import Messages

  /** How the loop ended: a Shutdown was received, or the input ran out (where the
      source would block on `recv`). */
  datatype Ending = ShutdownReceived | InputExhausted

  /** The aggregator's final state, everything sent, and how the loop ended. */
  datatype Stage<S> = Stage(state: S, output: seq<Messages.Msg>, ending: Ending)

  /** What is sent for one message: the message itself first unless filtering, then
      what the aggregator produced. */
  function Sent(isFilter: bool, msg: Messages.Msg, produced: seq<Messages.Msg>): (out: seq<Messages.Msg>)
  {
    if isFilter then produced else [msg] + produced
  }

  /** `Processor::start` on a finite input. */
  function Run<S>(aggregate: (S, Messages.Msg) -> (S, seq<Messages.Msg>), isFilter: bool, state: S,
                  input: seq<Messages.Msg>): Stage<S>
    decreases |input|
  {
    if input == [] then Stage(state, [], InputExhausted)
    else if input[0].Shutdown? then Stage(state, [], ShutdownReceived)
    else
      var step := aggregate(state, input[0]);
      var rest := Run(aggregate, isFilter, step.0, input[1..]);
      Stage(rest.state, Sent(isFilter, input[0], step.1) + rest.output, rest.ending)
  }

  /** The messages the loop handles: those before the first Shutdown. */
  function Processed(input: seq<Messages.Msg>): (p: seq<Messages.Msg>)
    ensures |p| <= |input| && p == input[..|p|]
    ensures forall i :: 0 <= i < |p| ==> !p[i].Shutdown?
    ensures |p| < |input| ==> input[|p|].Shutdown?
  {
    if input == [] || input[0].Shutdown? then []
    else [input[0]] + Processed(input[1..])
  }

  /** The loop ends on a Shutdown exactly when the input holds one. */
  lemma {:induction false} EndsAtShutdown<S>(aggregate: (S, Messages.Msg) -> (S, seq<Messages.Msg>), isFilter: bool,
                                             state: S, input: seq<Messages.Msg>)
    ensures Run(aggregate, isFilter, state, input).ending == ShutdownReceived <==>
            exists i :: 0 <= i < |input| && input[i].Shutdown?
    decreases |input|
  {
    if input != [] && !input[0].Shutdown? {
      var step := aggregate(state, input[0]);
      EndsAtShutdown(aggregate, isFilter, step.0, input[1..]);
      if exists i :: 0 <= i < |input| && input[i].Shutdown? {
        var i :| 0 <= i < |input| && input[i].Shutdown?;
        assert input[1..][i - 1].Shutdown?;
      }
      if exists i :: 0 <= i < |input[1..]| && input[1..][i].Shutdown? {
        var i :| 0 <= i < |input[1..]| && input[1..][i].Shutdown?;
        assert input[i + 1].Shutdown?;
      }
    }
  }

  /** Once the loop has ended on a prefix, whatever follows it is never read. */
  lemma {:induction false} IgnoresAfterEnd<S>(aggregate: (S, Messages.Msg) -> (S, seq<Messages.Msg>), isFilter: bool,
                                              state: S, a: seq<Messages.Msg>, b: seq<Messages.Msg>)
    requires Run(aggregate, isFilter, state, a).ending == ShutdownReceived
    ensures Run(aggregate, isFilter, state, a + b) == Run(aggregate, isFilter, state, a)
    decreases |a|
  {
    assert a != [];
    assert (a + b)[0] == a[0];
    if !a[0].Shutdown? {
      assert (a + b)[1..] == a[1..] + b;
      IgnoresAfterEnd(aggregate, isFilter, aggregate(state, a[0]).0, a[1..], b);
    }
  }

  /** The output is the in-order concatenation of the per-message outputs: running
      over `a` and then over `b` from the state `a` left is running over `a + b`. */
  lemma {:induction false} RunConcat<S>(aggregate: (S, Messages.Msg) -> (S, seq<Messages.Msg>), isFilter: bool,
                                        state: S, a: seq<Messages.Msg>, b: seq<Messages.Msg>)
    requires Run(aggregate, isFilter, state, a).ending == InputExhausted
    ensures var first := Run(aggregate, isFilter, state, a);
            var second := Run(aggregate, isFilter, first.state, b);
            Run(aggregate, isFilter, state, a + b) == Stage(second.state, first.output + second.output, second.ending)
    decreases |a|
  {
    if a == [] {
      assert a + b == b;
    } else {
      var step := aggregate(state, a[0]);
      assert (a + b)[0] == a[0];
      assert (a + b)[1..] == a[1..] + b;
      RunConcat(aggregate, isFilter, step.0, a[1..], b);
      var rest := Run(aggregate, isFilter, step.0, a[1..]);
      var second := Run(aggregate, isFilter, rest.state, b);
      assert Sent(isFilter, a[0], step.1) + (rest.output + second.output)
          == (Sent(isFilter, a[0], step.1) + rest.output) + second.output;
    }
  }

  /** A filter sees the same aggregator states and ends the same way; it only drops
      the forwarded messages, one per handled message. */
  lemma {:induction false} FilterDropsForwarded<S>(aggregate: (S, Messages.Msg) -> (S, seq<Messages.Msg>),
                                                   state: S, input: seq<Messages.Msg>)
    ensures var filtered := Run(aggregate, true, state, input);
            var forwarding := Run(aggregate, false, state, input);
            filtered.state == forwarding.state && filtered.ending == forwarding.ending &&
            |forwarding.output| == |filtered.output| + |Processed(input)|
    decreases |input|
  {
    if input != [] && !input[0].Shutdown? {
      FilterDropsForwarded(aggregate, aggregate(state, input[0]).0, input[1..]);
    }
  }

  class Processor<S> {
    const isFilter: bool
    const aggregate: (S, Messages.Msg) -> (S, seq<Messages.Msg>)
    var aggregator: S

    constructor (isFilter: bool, aggregate: (S, Messages.Msg) -> (S, seq<Messages.Msg>), aggregator: S)
      ensures this.isFilter == isFilter && this.aggregate == aggregate && this.aggregator == aggregator
    {
      this.isFilter := isFilter;
      this.aggregate := aggregate;
      this.aggregator := aggregator;
    }

    /** `start`: the loop `Run` describes, sending message by message. */
    method Start(input: seq<Messages.Msg>) returns (output: seq<Messages.Msg>, ending: Ending)
      modifies this`aggregator
      ensures Run(aggregate, isFilter, old(aggregator), input) == Stage(aggregator, output, ending)
    {
      output := [];
      var i := 0;
      while i < |input|
        invariant 0 <= i <= |input|
        invariant Run(aggregate, isFilter, old(aggregator), input)
               == Run(aggregate, isFilter, aggregator, input[i..]).(output := output + Run(aggregate, isFilter, aggregator, input[i..]).output)
      {
        var e := input[i];
        RunAt(aggregate, isFilter, aggregator, input, i);
        if e.Shutdown? {
          ending := ShutdownReceived;
          assert output + [] == output;
          return;
        }
        var step := aggregate(aggregator, e);
        aggregator := step.0;
        var msgs := step.1;
        if !isFilter {
          msgs := [e] + msgs;
        }
        ghost var before := output;
        output := Send(output, msgs);
        assert before + (msgs + Run(aggregate, isFilter, aggregator, input[i + 1..]).output)
            == output + Run(aggregate, isFilter, aggregator, input[i + 1..]).output;
        i := i + 1;
      }
      ending := InputExhausted;
      assert output + [] == output;
    }
  }

  /** One turn of the loop, at position `i` of the input. */
  lemma RunAt<S>(aggregate: (S, Messages.Msg) -> (S, seq<Messages.Msg>), isFilter: bool, state: S,
                 input: seq<Messages.Msg>, i: nat)
    requires i < |input|
    ensures input[i].Shutdown? ==> Run(aggregate, isFilter, state, input[i..]) == Stage(state, [], ShutdownReceived)
    ensures !input[i].Shutdown? ==>
      var step := aggregate(state, input[i]);
      var rest := Run(aggregate, isFilter, step.0, input[i + 1..]);
      Run(aggregate, isFilter, state, input[i..]) == rest.(output := Sent(isFilter, input[i], step.1) + rest.output)
  {
    assert input[i..][0] == input[i] && input[i..][1..] == input[i + 1..];
  }

  /** Sends `msgs` one by one after what was already sent. */
  method Send(sent: seq<Messages.Msg>, msgs: seq<Messages.Msg>) returns (output: seq<Messages.Msg>)
    ensures output == sent + msgs
  {
    output := sent;
    for j := 0 to |msgs|
      invariant output == sent + msgs[..j]
    {
      output := output + [msgs[j]];
    }
    assert msgs[..|msgs|] == msgs;
  }

  /** The mock aggregator of the tests: a live price yields one default average. */
  function MockAggregate(state: int, msg: Messages.Msg): (int, seq<Messages.Msg>)
  {
    if msg.LivePriceUpdated? then (state, [Messages.AveragePriceUpdated(Messages.DefaultPrice)]) else (state, [])
  }

  /** `processor_should_exit_if_shutdown_received`,
      `processor_should_output_input_events_if_not_filtered` and
      `processor_should_not_output_input_events_if_filtered`. */
  method ProcessorScenario()
  {
    var live := Messages.LivePriceUpdated(Messages.DefaultPrice);
    var average := Messages.AveragePriceUpdated(Messages.DefaultPrice);
    var processor := new Processor(false, MockAggregate, 0);
    var output, ending := processor.Start([Messages.Shutdown]);
    assert output == [] && ending == ShutdownReceived;

    processor := new Processor(false, MockAggregate, 0);
    output, ending := processor.Start([live, Messages.Shutdown]);
    assert [live, Messages.Shutdown][1..] == [Messages.Shutdown];
    assert output == [live, average];

    processor := new Processor(true, MockAggregate, 0);
    output, ending := processor.Start([live, Messages.Shutdown]);
    assert output == [average];
  }
}
