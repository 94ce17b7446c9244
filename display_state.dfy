/**
 * The display reducer: a pure state machine that folds display events into
 * four per-stage panels, with append-versus-replace semantics and the
 * routing of output-stage status pings into the status panel.
 */
module DisplayState {
  import opened DisplayEvent

  /** One per-stage accumulator. */
  datatype Panel = Panel(format: Format, content: string)

  /** The four panels, one per stage, always all present. */
  datatype Panels = Panels(searching: Panel, thinking: Panel, output: Panel, status: Panel) {
    /** `panels[stage]` */
    function Get(s: Stage): Panel {
      match s
      case Searching => searching
      case Thinking => thinking
      case Output => output
      case Status => status
    }

    /** `{...panels, [stage]: p}` */
    function Set(s: Stage, p: Panel): (r: Panels)
      ensures r.Get(s) == p
      ensures forall t :: t != s ==> r.Get(t) == Get(t)
    {
      match s
      case Searching => this.(searching := p)
      case Thinking => this.(thinking := p)
      case Output => this.(output := p)
      case Status => this.(status := p)
    }
  }

  datatype State = State(stage: Stage, panels: Panels)

  datatype Action = Reset | Apply(event: DisplayEvent)

  /** `createInitialDisplayState` */
  function InitialState(): (r: State)
    ensures r.stage == Stage.Status
    ensures forall s :: r.panels.Get(s).content == ""
    ensures forall s :: r.panels.Get(s).format == if s == Output then Text else Format.Status
  {
    State(Stage.Status, Panels(Panel(Format.Status, ""), Panel(Format.Status, ""),
                               Panel(Text, ""), Panel(Format.Status, "")))
  }

  /** An output-stage event in status format: routed to the status panel. */
  predicate IsStatusPing(e: DisplayEvent) {
    e.stage == Output && e.format == Format.Status
  }

  /** The panel an event writes. */
  function Target(e: DisplayEvent): Stage {
    if IsStatusPing(e) then Stage.Status else e.stage
  }

  /** The format the written panel has afterwards. */
  function WrittenFormat(e: DisplayEvent): Format {
    if IsStatusPing(e) then Format.Status else e.format
  }

  /**
   * `displayReducer`. `reset` yields the initial state whatever the input.
   * An event makes its stage the active one, writes exactly one panel and
   * leaves the other three as they were. A status ping leaves the output
   * panel alone and appends to (delta) or replaces the status panel, whose
   * format stays status. Any other event appends to its own panel exactly
   * when it is a delta in the panel's current format, and replaces it
   * (taking the event's format) otherwise.
   */
  function Reduce(state: State, action: Action): (r: State)
    ensures action.Reset? ==> r == InitialState()
    ensures action.Apply? ==> r.stage == action.event.stage
    ensures action.Apply? ==> forall s :: s != Target(action.event) ==> r.panels.Get(s) == state.panels.Get(s)
    ensures action.Apply? && IsStatusPing(action.event) ==>
              && r.panels.output == state.panels.output
              && r.panels.status.format == Format.Status
              && r.panels.status.content == if action.event.delta
                                            then state.panels.status.content + action.event.content
                                            else action.event.content
    ensures action.Apply? && !IsStatusPing(action.event) ==>
              var old_ := state.panels.Get(action.event.stage);
              var new_ := r.panels.Get(action.event.stage);
              && new_.format == action.event.format
              && (action.event.delta && old_.format == action.event.format ==>
                    new_.content == old_.content + action.event.content)
              && (!action.event.delta || old_.format != action.event.format ==>
                    new_.content == action.event.content)
  {
    match action
    case Reset => InitialState()
    case Apply(e) =>
      if IsStatusPing(e) then
        var current := state.panels.status;
        var next := Panel(Format.Status, if e.delta then current.content + e.content else e.content);
        State(e.stage, state.panels.Set(Stage.Status, next))
      else
        var current := state.panels.Get(e.stage);
        var sameFormat := current.format == e.format;
        var next := Panel(e.format, if e.delta && sameFormat then current.content + e.content else e.content);
        State(e.stage, state.panels.Set(e.stage, next))
  }

  /** One event applied. */
  function Step(state: State, e: DisplayEvent): State {
    Reduce(state, Apply(e))
  }

  /** The events applied one at a time, in order. */
  function ReduceAll(state: State, events: seq<DisplayEvent>): State
    decreases |events|
  {
    if events == [] then state else ReduceAll(Step(state, events[0]), events[1..])
  }

  /** Folding a batch equals folding its two halves one after the other. */
  lemma {:induction false} ReduceAllConcat(state: State, a: seq<DisplayEvent>, b: seq<DisplayEvent>)
    ensures ReduceAll(state, a + b) == ReduceAll(ReduceAll(state, a), b)
    decreases |a|
  {
    if a != [] {
      assert (a + b)[0] == a[0] && (a + b)[1..] == a[1..] + b;
      ReduceAllConcat(Step(state, a[0]), a[1..], b);
    } else {
      assert a + b == b;
    }
  }

  /** Folding one more event is one more step. */
  lemma ReduceAllSnoc(state: State, events: seq<DisplayEvent>, e: DisplayEvent)
    ensures ReduceAll(state, events + [e]) == Step(ReduceAll(state, events), e)
  {
    ReduceAllConcat(state, events, [e]);
    assert ReduceAll(ReduceAll(state, events), [e]) == ReduceAll(Step(ReduceAll(state, events), e), []);
  }

  /** A panel no event of the batch writes comes out of the fold unchanged. */
  lemma {:induction false} ReduceAllLeavesOtherPanels(state: State, events: seq<DisplayEvent>, t: Stage)
    requires forall i :: 0 <= i < |events| ==> Target(events[i]) != t
    ensures ReduceAll(state, events).panels.Get(t) == state.panels.Get(t)
    decreases |events|
  {
    if events != [] {
      ReduceAllLeavesOtherPanels(Step(state, events[0]), events[1..], t);
    }
  }

  /** After a non-empty batch the active stage is the last event's stage; an empty batch changes nothing. */
  lemma {:induction false} ReduceAllStage(state: State, events: seq<DisplayEvent>)
    ensures events == [] ==> ReduceAll(state, events) == state
    ensures events != [] ==> ReduceAll(state, events).stage == events[|events| - 1].stage
    decreases |events|
  {
    if |events| > 1 {
      ReduceAllStage(Step(state, events[0]), events[1..]);
    }
  }

  /** The contents of a batch of events, concatenated. */
  function Contents(events: seq<DisplayEvent>): string
    decreases |events|
  {
    if events == [] then "" else events[0].content + Contents(events[1..])
  }

  /**
   * Streaming law: deltas that all write panel `t` in the format it already
   * has accumulate — the panel ends with its old content followed by all
   * fragments in arrival order.
   */
  lemma {:induction false} ReduceAllAccumulatesDeltas(state: State, events: seq<DisplayEvent>, t: Stage)
    requires forall i :: 0 <= i < |events| ==>
               Target(events[i]) == t && events[i].delta && WrittenFormat(events[i]) == state.panels.Get(t).format
    ensures ReduceAll(state, events).panels.Get(t) ==
              Panel(state.panels.Get(t).format, state.panels.Get(t).content + Contents(events))
    decreases |events|
  {
    if events != [] {
      var next := Step(state, events[0]);
      assert next.panels.Get(t) == Panel(state.panels.Get(t).format, state.panels.Get(t).content + events[0].content);
      ReduceAllAccumulatesDeltas(next, events[1..], t);
      assert state.panels.Get(t).content + Contents(events)
          == state.panels.Get(t).content + events[0].content + Contents(events[1..]);
    }
  }

  /**
   * A non-delta event is a fresh start for the panel it writes: whatever
   * came before, the panel holds exactly that event's content in its written format.
   */
  lemma ReplacementForgetsHistory(state: State, events: seq<DisplayEvent>, e: DisplayEvent)
    requires !e.delta
    ensures ReduceAll(state, events + [e]).panels.Get(Target(e)) == Panel(WrittenFormat(e), e.content)
  {
    ReduceAllSnoc(state, events, e);
  }

  /**
   * The completion scenario: two output deltas "Hel" and "lo" followed by the
   * completion sentinel leave "Hello" in the output panel and the sentinel's
   * text in the status panel, with output the active stage.
   */
  lemma CompletionScenario()
    ensures var events := [DisplayEvent(Output, Text, "Hel", true), DisplayEvent(Output, Text, "lo", true),
                           DisplayEvent(Output, Format.Status, "Output complete.", false)];
            var r := ReduceAll(InitialState(), events);
            r.panels.output == Panel(Text, "Hello") && r.panels.status.content == "Output complete."
            && r.stage == Output
  {
    var e1 := DisplayEvent(Output, Text, "Hel", true);
    var e2 := DisplayEvent(Output, Text, "lo", true);
    var e3 := DisplayEvent(Output, Format.Status, "Output complete.", false);
    var s1 := Step(InitialState(), e1);
    var s2 := Step(s1, e2);
    assert s2.panels.output == Panel(Text, "Hello");
    assert ReduceAll(InitialState(), [e1, e2, e3]) == ReduceAll(s1, [e2, e3]);
    assert ReduceAll(s1, [e2, e3]) == ReduceAll(s2, [e3]);
  }
}
