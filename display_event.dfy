/**
 * The display-event protocol: the typed increments of agent output carried
 * by the chat stream, their structural validation, parsing from a stream
 * payload, and the priority dispatcher to per-(stage, format) handlers.
 */
module DisplayEvent {
  import opened Base
  import opened Js

  /** The conceptual phase of agent processing that produced a fragment. */
  datatype Stage = Searching | Thinking | Output | Status

  /** How a fragment is to be rendered. */
  datatype Format = Text | Markdown | Code | Status

  /** One increment of agent output; its `type` discriminator is always "display". */
  datatype DisplayEvent = DisplayEvent(stage: Stage, format: Format, content: string, delta: bool)

  function StageName(s: Stage): string {
    match s
    case Searching => "searching"
    case Thinking => "thinking"
    case Output => "output"
    case Status => "status"
  }

  function FormatName(f: Format): string {
    match f
    case Text => "text"
    case Markdown => "markdown"
    case Code => "code"
    case Status => "status"
  }

  /** Membership in the fixed stage set, as the stage it names. */
  function StageOf(name: string): (r: Option<Stage>)
    ensures r.Some? <==> name in {"searching", "thinking", "output", "status"}
    ensures r.Some? ==> StageName(r.value) == name
    ensures forall s: Stage :: StageName(s) == name ==> r == Some(s)
  {
    if name == "searching" then Some(Searching)
    else if name == "thinking" then Some(Thinking)
    else if name == "output" then Some(Output)
    else if name == "status" then Some(Stage.Status)
    else None
  }

  /** Membership in the fixed format set, as the format it names. */
  function FormatOf(name: string): (r: Option<Format>)
    ensures r.Some? <==> name in {"text", "markdown", "code", "status"}
    ensures r.Some? ==> FormatName(r.value) == name
    ensures forall f: Format :: FormatName(f) == name ==> r == Some(f)
  {
    if name == "text" then Some(Text)
    else if name == "markdown" then Some(Markdown)
    else if name == "code" then Some(Code)
    else if name == "status" then Some(Format.Status)
    else None
  }

  /** `typeof record.stage === 'string' && displayStages.has(record.stage)` */
  predicate IsStageValue(v: Value) {
    v.Str? && StageOf(v.s).Some?
  }

  /** `typeof record.format === 'string' && displayFormats.has(record.format)` */
  predicate IsFormatValue(v: Value) {
    v.Str? && FormatOf(v.s).Some?
  }

  /**
   * `isDisplayEvent`: a chain of early rejections. It holds exactly when the
   * value is an object whose `type` is "display", whose stage and format are
   * in their fixed sets, whose `content` is a string and whose `delta` a boolean.
   */
  function IsDisplayEvent(v: Value): (ok: bool)
    ensures !IsObject(v) ==> !ok
    ensures ok <==> && v.Obj?
                    && Get(v, "type") == Str("display")
                    && IsStageValue(Get(v, "stage"))
                    && IsFormatValue(Get(v, "format"))
                    && Get(v, "content").Str?
                    && Get(v, "delta").Bool?
  {
    if !Truthy(v) || !IsObject(v) then false
    else if Get(v, "type") != Str("display") then false
    else if !IsStageValue(Get(v, "stage")) then false
    else if !IsFormatValue(Get(v, "format")) then false
    else if !Get(v, "content").Str? then false
    else if !Get(v, "delta").Bool? then false
    else true
  }

  /** The validated value read as a typed event. */
  function ToEvent(v: Value): DisplayEvent
    requires IsDisplayEvent(v)
  {
    DisplayEvent(StageOf(Get(v, "stage").s).value, FormatOf(Get(v, "format").s).value,
                 Get(v, "content").s, Get(v, "delta").b)
  }

  /** The wire shape of an event: `{"type":"display","stage":…,"format":…,"content":…,"delta":…}`. */
  function EventToValue(e: DisplayEvent): Value {
    Obj(map["type" := Str("display"), "stage" := Str(StageName(e.stage)),
            "format" := Str(FormatName(e.format)), "content" := Str(e.content),
            "delta" := Bool(e.delta)])
  }

  /** The wire shape of every event is accepted and reads back as the same event. */
  lemma WireShapeRoundTrip(e: DisplayEvent)
    ensures IsDisplayEvent(EventToValue(e))
    ensures ToEvent(EventToValue(e)) == e
  {
    var v := EventToValue(e);
    assert Get(v, "stage") == Str(StageName(e.stage));
    assert Get(v, "format") == Str(FormatName(e.format));
  }

  /**
   * An accepted value agrees with the typed event read from it on all five
   * protocol fields: the typed event is the value itself, minus any extra fields.
   */
  lemma AcceptedValueIsItsEvent(v: Value)
    requires IsDisplayEvent(v)
    ensures forall k :: k in {"type", "stage", "format", "content", "delta"} ==>
              Get(v, k) == Get(EventToValue(ToEvent(v)), k)
  {
    var e := ToEvent(v);
    assert StageName(e.stage) == Get(v, "stage").s;
    assert FormatName(e.format) == Get(v, "format").s;
  }

  /**
   * The value `parseDisplayEvent` validates. A string payload, whatever it
   * holds, goes through `JSON.parse` (here the oracle `parse`, None standing
   * for a thrown SyntaxError, which the source turns into null); any other
   * payload is taken as it is.
   */
  function ParsedPayload(payload: Value, parse: string -> Option<Value>): Value {
    if payload.Str? then parse(payload.s).GetOr(Null) else payload
  }

  /** `parseDisplayEvent`: never fails; null (None) unless the parsed value validates. */
  function ParseDisplayEvent(payload: Value, parse: string -> Option<Value>): (r: Option<DisplayEvent>)
    ensures payload.Str? && parse(payload.s).None? ==> r.None?
    ensures payload.Str? && parse(payload.s).Some? ==> (r.Some? <==> IsDisplayEvent(parse(payload.s).value))
    ensures !payload.Str? ==> (r.Some? <==> IsDisplayEvent(payload))
    ensures r.Some? ==> forall k :: k in {"type", "stage", "format", "content", "delta"} ==>
              Get(ParsedPayload(payload, parse), k) == Get(EventToValue(r.value), k)
  {
    var parsed := ParsedPayload(payload, parse);
    if !IsDisplayEvent(parsed) then None
    else
      AcceptedValueIsItsEvent(parsed);
      Some(ToEvent(parsed))
  }

  /**
   * The encoding of every event parses back to that event (given a `JSON.parse`
   * that reads it back), whether it arrives as text or already decoded.
   */
  lemma ParseOfWireShape(e: DisplayEvent, json: string, parse: string -> Option<Value>)
    requires parse(json) == Some(EventToValue(e))
    ensures ParseDisplayEvent(Str(json), parse) == Some(e)
    ensures ParseDisplayEvent(EventToValue(e), parse) == Some(e)
  {
    WireShapeRoundTrip(e);
  }

  /** Which handlers a caller registered, keyed as in `DisplayEventDispatchHandlers`. */
  datatype Handlers = Handlers(any: bool, stage: set<Stage>, format: set<Format>,
                               stageFormat: set<(Stage, Format)>)

  /** One handler invocation, each receiving the dispatched event. */
  datatype Call = AnyCall | StageFormatCall(Stage, Format) | StageCall(Stage) | FormatCall(Format)

  /** The handlers after `any`: the most specific registered one, if any. */
  function SpecificCall(e: DisplayEvent, h: Handlers): seq<Call> {
    if (e.stage, e.format) in h.stageFormat then [StageFormatCall(e.stage, e.format)]
    else if e.stage in h.stage then [StageCall(e.stage)]
    else if e.format in h.format then [FormatCall(e.format)]
    else []
  }

  /**
   * `dispatchDisplayEvent`: the sequence of handler calls. `any` first when
   * registered; then at most one of stageFormat > stage > format.
   */
  function Dispatch(e: DisplayEvent, h: Handlers): (calls: seq<Call>)
    ensures h.any <==> AnyCall in calls
    ensures h.any ==> calls[0] == AnyCall
    ensures |calls| <= 2 && (|calls| == 2 ==> h.any)
    ensures StageFormatCall(e.stage, e.format) in calls <==> (e.stage, e.format) in h.stageFormat
    ensures StageCall(e.stage) in calls <==> (e.stage, e.format) !in h.stageFormat && e.stage in h.stage
    ensures FormatCall(e.format) in calls <==>
              (e.stage, e.format) !in h.stageFormat && e.stage !in h.stage && e.format in h.format
    ensures forall c :: c in calls ==>
              c in {AnyCall, StageFormatCall(e.stage, e.format), StageCall(e.stage), FormatCall(e.format)}
  {
    (if h.any then [AnyCall] else []) + SpecificCall(e, h)
  }

  /** Registering `any` only puts its call in front of the others. */
  lemma AnyHandlerPrepends(e: DisplayEvent, h: Handlers)
    ensures Dispatch(e, h.(any := true)) == [AnyCall] + Dispatch(e, h.(any := false))
  {
  }

  /**
   * The most specific handler shadows the others: with a handler for the
   * event's stage and format, the stage and format handlers are never reached.
   */
  lemma StageFormatHandlerShadows(e: DisplayEvent, h: Handlers)
    requires (e.stage, e.format) in h.stageFormat
    ensures Dispatch(e, h) == Dispatch(e, h.(stage := {}, format := {}))
    ensures Dispatch(e, h) == (if h.any then [AnyCall] else []) + [StageFormatCall(e.stage, e.format)]
  {
  }
}
