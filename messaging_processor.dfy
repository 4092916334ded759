/** The pipeline stage of src/messaging/processor.rs: like the stage of
    src/processors/mod.rs, but over `Msg`s with metadata and with an actor that can
    fail, in which case the loop stops at once and returns the error. */
module MessagingProcessor {
  import Messaging

  /** What the actor does with one message: a new state and the messages it
      produced, or an error. */
  datatype Acted<S> = Acted(state: S, produced: seq<Messaging.Msg>) | ActFailed(error: string)

  /** How the loop ended: `Ok(())` after a Shutdown, the actor's error, or the input
      ran out (where the source would block on `recv`). */
  datatype Ending = ShutdownReceived | Failed(error: string) | InputExhausted

  datatype Stage<S> = Stage(state: S, output: seq<Messaging.Msg>, ending: Ending)

  function Sent(isFilter: bool, msg: Messaging.Msg, produced: seq<Messaging.Msg>): seq<Messaging.Msg>
  {
    if isFilter then produced else [msg] + produced
  }

  /** `Processor::start` on a finite input. A failing message sends nothing and
      leaves the actor's state as it was before it. */
  function Run<S>(act: (S, Messaging.Msg) -> Acted<S>, isFilter: bool, state: S, input: seq<Messaging.Msg>): Stage<S>
    decreases |input|
  {
    if input == [] then Stage(state, [], InputExhausted)
    else if input[0].data.Shutdown? then Stage(state, [], ShutdownReceived)
    else match act(state, input[0])
      case ActFailed(error) => Stage(state, [], Failed(error))
      case Acted(next, produced) =>
        var rest := Run(act, isFilter, next, input[1..]);
        Stage(rest.state, Sent(isFilter, input[0], produced) + rest.output, rest.ending)
  }

  /** An actor error ends the loop with that error, and what the loop sent is
      exactly what it sent for the messages before the failing one. */
  lemma {:induction false} FailureStops<S>(act: (S, Messaging.Msg) -> Acted<S>, isFilter: bool, state: S,
                                           a: seq<Messaging.Msg>, m: Messaging.Msg, b: seq<Messaging.Msg>)
    requires Run(act, isFilter, state, a).ending == InputExhausted
    requires !m.data.Shutdown?
    requires act(Run(act, isFilter, state, a).state, m).ActFailed?
    ensures var first := Run(act, isFilter, state, a);
            Run(act, isFilter, state, a + [m] + b)
              == Stage(first.state, first.output, Failed(act(first.state, m).error))
    decreases |a|
  {
    if a == [] {
      assert a + [m] + b == [m] + b;
    } else {
      var next := act(state, a[0]);
      assert (a + [m] + b)[0] == a[0];
      assert (a + [m] + b)[1..] == a[1..] + [m] + b;
      FailureStops(act, isFilter, next.state, a[1..], m, b);
    }
  }

  /** Once the loop has ended on a prefix (Shutdown or error), nothing after it is read. */
  lemma {:induction false} IgnoresAfterEnd<S>(act: (S, Messaging.Msg) -> Acted<S>, isFilter: bool, state: S,
                                              a: seq<Messaging.Msg>, b: seq<Messaging.Msg>)
    requires Run(act, isFilter, state, a).ending != InputExhausted
    ensures Run(act, isFilter, state, a + b) == Run(act, isFilter, state, a)
    decreases |a|
  {
    assert a != [];
    assert (a + b)[0] == a[0];
    if !a[0].data.Shutdown? && act(state, a[0]).Acted? {
      assert (a + b)[1..] == a[1..] + b;
      IgnoresAfterEnd(act, isFilter, act(state, a[0]).state, a[1..], b);
    }
  }

  /** The output is the in-order concatenation of the per-message outputs. */
  lemma {:induction false} RunConcat<S>(act: (S, Messaging.Msg) -> Acted<S>, isFilter: bool, state: S,
                                        a: seq<Messaging.Msg>, b: seq<Messaging.Msg>)
    requires Run(act, isFilter, state, a).ending == InputExhausted
    ensures var first := Run(act, isFilter, state, a);
            var second := Run(act, isFilter, first.state, b);
            Run(act, isFilter, state, a + b) == Stage(second.state, first.output + second.output, second.ending)
    decreases |a|
  {
    if a == [] {
      assert a + b == b;
    } else {
      var next := act(state, a[0]);
      assert (a + b)[0] == a[0];
      assert (a + b)[1..] == a[1..] + b;
      RunConcat(act, isFilter, next.state, a[1..], b);
      var rest := Run(act, isFilter, next.state, a[1..]);
      var second := Run(act, isFilter, rest.state, b);
      assert Sent(isFilter, a[0], next.produced) + (rest.output + second.output)
          == (Sent(isFilter, a[0], next.produced) + rest.output) + second.output;
    }
  }

  /** The number of messages the actor handled successfully before the loop ended. */
  function Handled<S>(act: (S, Messaging.Msg) -> Acted<S>, state: S, input: seq<Messaging.Msg>): nat
    decreases |input|
  {
    if input == [] || input[0].data.Shutdown? then 0
    else match act(state, input[0])
      case ActFailed(_) => 0
      case Acted(next, _) => 1 + Handled(act, next, input[1..])
  }

  /** A filter reaches the same actor state and the same ending; it sends exactly one
      message less for every message the actor handled. */
  lemma {:induction false} FilterDropsForwarded<S>(act: (S, Messaging.Msg) -> Acted<S>, state: S, input: seq<Messaging.Msg>)
    ensures var filtered := Run(act, true, state, input);
            var forwarding := Run(act, false, state, input);
            filtered.state == forwarding.state && filtered.ending == forwarding.ending &&
            |forwarding.output| == |filtered.output| + Handled(act, state, input)
    decreases |input|
  {
    if input != [] && !input[0].data.Shutdown? && act(state, input[0]).Acted? {
      FilterDropsForwarded(act, act(state, input[0]).state, input[1..]);
    }
  }

  class Processor<S> {
    const isFilter: bool
    const act: (S, Messaging.Msg) -> Acted<S>
    var actor: S

    constructor (isFilter: bool, act: (S, Messaging.Msg) -> Acted<S>, actor: S)
      ensures this.isFilter == isFilter && this.act == act && this.actor == actor
    {
      this.isFilter := isFilter;
      this.act := act;
      this.actor := actor;
    }

    /** `start`: the loop `Run` describes; `?` returns the actor's error at once. */
    method Start(input: seq<Messaging.Msg>) returns (output: seq<Messaging.Msg>, ending: Ending)
      modifies this`actor
      ensures Run(act, isFilter, old(actor), input) == Stage(actor, output, ending)
    {
      output := [];
      var i := 0;
      while i < |input|
        invariant 0 <= i <= |input|
        invariant Run(act, isFilter, old(actor), input)
               == Run(act, isFilter, actor, input[i..]).(output := output + Run(act, isFilter, actor, input[i..]).output)
      {
        var e := input[i];
        RunAt(act, isFilter, actor, input, i);
        if e.data.Shutdown? {
          ending := ShutdownReceived;
          assert output + [] == output;
          return;
        }
        var acted := act(actor, e);
        if acted.ActFailed? {
          ending := Failed(acted.error);
          assert output + [] == output;
          return;
        }
        actor := acted.state;
        var msgs := acted.produced;
        if !isFilter {
          msgs := [e] + msgs;
        }
        ghost var before := output;
        output := Send(output, msgs);
        assert before + (msgs + Run(act, isFilter, actor, input[i + 1..]).output)
            == output + Run(act, isFilter, actor, input[i + 1..]).output;
        i := i + 1;
      }
      ending := InputExhausted;
      assert output + [] == output;
    }
  }

  /** One turn of the loop, at position `i` of the input. */
  lemma RunAt<S>(act: (S, Messaging.Msg) -> Acted<S>, isFilter: bool, state: S, input: seq<Messaging.Msg>, i: nat)
    requires i < |input|
    ensures input[i].data.Shutdown? ==> Run(act, isFilter, state, input[i..]) == Stage(state, [], ShutdownReceived)
    ensures !input[i].data.Shutdown? && act(state, input[i]).ActFailed? ==>
      Run(act, isFilter, state, input[i..]) == Stage(state, [], Failed(act(state, input[i]).error))
    ensures !input[i].data.Shutdown? && act(state, input[i]).Acted? ==>
      var acted := act(state, input[i]);
      var rest := Run(act, isFilter, acted.state, input[i + 1..]);
      Run(act, isFilter, state, input[i..]) == rest.(output := Sent(isFilter, input[i], acted.produced) + rest.output)
  {
    assert input[i..][0] == input[i] && input[i..][1..] == input[i + 1..];
  }

  /** Sends `msgs` one by one after what was already sent. */
  method Send(sent: seq<Messaging.Msg>, msgs: seq<Messaging.Msg>) returns (output: seq<Messaging.Msg>)
    ensures output == sent + msgs
  {
    output := sent;
    for j := 0 to |msgs|
      invariant output == sent + msgs[..j]
    {
      output := output + [msgs[j]];
    }
    assert msgs[..|msgs|] == msgs;
  }

  /** The mock actor of the tests: every message yields one default average. */
  function MockAct(state: int, msg: Messaging.Msg): Acted<int>
  {
    Acted(state, [Messaging.WithData(Messaging.AveragePriceUpdated(Messaging.PriceUpdated(0, "", 0, 0.0)))])
  }

  /** The processor tests, and an actor error stopping the loop before the Shutdown. */
  method MessagingProcessorScenario()
  {
    var live := Messaging.WithData(Messaging.LivePriceUpdated(Messaging.PriceUpdated(0, "", 0, 0.0)));
    var average := Messaging.WithData(Messaging.AveragePriceUpdated(Messaging.PriceUpdated(0, "", 0, 0.0)));
    var shutdown := Messaging.WithData(Messaging.Shutdown);
    assert [live, shutdown][1..] == [shutdown];

    var processor := new Processor(false, MockAct, 0);
    var output, ending := processor.Start([shutdown]);
    assert output == [] && ending == ShutdownReceived;

    processor := new Processor(false, MockAct, 0);
    output, ending := processor.Start([live, shutdown]);
    assert output == [live, average] && ending == ShutdownReceived;

    processor := new Processor(true, MockAct, 0);
    output, ending := processor.Start([live, shutdown]);
    assert output == [average];

    var failing := new Processor(false, (s: int, m: Messaging.Msg) => ActFailed("exchange unavailable"), 0);
    output, ending := failing.Start([live, shutdown]);
    assert output == [] && ending == Failed("exchange unavailable");
  }
}
