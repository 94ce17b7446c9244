/**
 * How one chat message is rendered: which display panel an agent message
 * shows, which renderer each format uses, which stages carry a label, and
 * what the message body falls back to without a display.
 */
module ChatMessage {
  import opened Base
  import opened DisplayEvent
  import opened DisplayState

  /** Who wrote a message. */
  datatype Role = User | Agent

  /** The three ways text is drawn. */
  datatype Renderer = MarkdownBlock | CodeBlock | TextBlock

  /** `renderByFormat`: markdown and code have their own renderers; text and status are plain text. */
  function RenderByFormat(f: Format): (r: Renderer)
    ensures r == MarkdownBlock <==> f == Markdown
    ensures r == CodeBlock <==> f == Code
    ensures r == TextBlock <==> f in {Text, Format.Status}
  {
    match f
    case Markdown => MarkdownBlock
    case Code => CodeBlock
    case Text => TextBlock
    case Status => TextBlock
  }

  /** `stageLabel`, the caption of each stage. */
  function StageCaption(s: Stage): string {
    match s
    case Searching => "检索中"
    case Thinking => "思考中"
    case Output => "回答中"
    case Status => "状态"
  }

  /** The caption shown above a panel: only the searching and thinking stages have one. */
  function ShownStageLabel(s: Stage): (r: Option<string>)
    ensures r.Some? <==> s in {Searching, Thinking}
    ensures r == Some("检索中") <==> s == Searching
    ensures r == Some("思考中") <==> s == Thinking
  {
    if s == Searching || s == Thinking then Some(StageCaption(s)) else None
  }

  /**
   * `displayPanel`: nothing without a display. On the output stage the output
   * panel when it has content, else the status panel when it has content,
   * else the empty output panel; on any other stage that stage's own panel.
   */
  function SelectPanel(display: Option<State>): (r: Option<Panel>)
    ensures display.None? <==> r.None?
    ensures display.Some? && display.value.stage != Output ==> r == Some(display.value.panels.Get(display.value.stage))
    ensures display.Some? && display.value.stage == Output ==>
              var p := display.value.panels;
              && (p.output.content != "" ==> r == Some(p.output))
              && (p.output.content == "" && p.status.content != "" ==> r == Some(p.status))
              && (p.output.content == "" && p.status.content == "" ==> r == Some(p.output))
    ensures r.Some? && r.value.content == "" ==>
              display.value.stage == Output || r.value == display.value.panels.Get(display.value.stage)
  {
    if display.None? then None
    else
      var d := display.value;
      if d.stage == Output then
        if d.panels.output.content != "" then Some(d.panels.output)
        else if d.panels.status.content != "" then Some(d.panels.status)
        else Some(d.panels.output)
      else Some(d.panels.Get(d.stage))
  }

  /** What fills a block: rendered text, or the `...` placeholder. */
  datatype View = Rendered(renderer: Renderer, text: string) | Placeholder

  /** What a message shows as its body. */
  datatype Body = PanelBody(caption: Option<string>, view: View) | PlainBody(view: View)

  /**
   * The body of a message: an agent message with a display shows its
   * selected panel (placeholder when empty) under the stage label; a
   * streaming agent message without one shows its text (placeholder when
   * empty); everything else is the content as markdown.
   */
  function MessageBody(role: Role, content: string, isStreaming: bool, display: Option<State>): (r: Body)
    ensures r.PanelBody? <==> role == Agent && display.Some?
    ensures r.PanelBody? ==>
              && r.caption == ShownStageLabel(display.value.stage)
              && var p := SelectPanel(display).value;
                 r.view == if p.content == "" then Placeholder else Rendered(RenderByFormat(p.format), p.content)
    ensures r.view == Placeholder ==> role == Agent && (display.Some? || content == "")
    ensures !(role == Agent && (display.Some? || isStreaming)) ==> r == PlainBody(Rendered(MarkdownBlock, content))
    ensures role == Agent && display.None? && isStreaming ==>
              r == PlainBody(if content == "" then Placeholder else Rendered(TextBlock, content))
  {
    var panel := SelectPanel(display);
    if role == Agent && panel.Some? then
      var p := panel.value;
      PanelBody(ShownStageLabel(display.value.stage),
                if p.content != "" then Rendered(RenderByFormat(p.format), p.content) else Placeholder)
    else if role == Agent && isStreaming then
      PlainBody(if content != "" then Rendered(TextBlock, content) else Placeholder)
    else PlainBody(Rendered(MarkdownBlock, content))
  }

  /**
   * A status ping that replaces the status text becomes visible while the
   * output panel is still empty: the message shows it as plain text.
   */
  lemma StatusPingShownBeforeOutput(s: State, e: DisplayEvent)
    requires IsStatusPing(e) && !e.delta && e.content != "" && s.panels.output.content == ""
    ensures SelectPanel(Some(Step(s, e))) == Some(Panel(Format.Status, e.content))
    ensures MessageBody(Agent, "", true, Some(Step(s, e))) == PanelBody(None, Rendered(TextBlock, e.content))
  {
    var r := Step(s, e);
    assert r.panels.Get(Output) == s.panels.Get(Output);
  }

  /**
   * Once the output panel has content, status pings no longer change what
   * the message shows: the output panel stays on screen.
   */
  lemma StatusPingHiddenAfterOutput(s: State, e: DisplayEvent)
    requires IsStatusPing(e) && s.panels.output.content != ""
    ensures SelectPanel(Some(Step(s, e))) == Some(s.panels.output)
  {
    var r := Step(s, e);
    assert r.panels.Get(Output) == s.panels.Get(Output);
  }

  /** The streamed answer of the completion scenario is what the message finally shows, as plain text. */
  lemma CompletedAnswerShown()
    ensures var events := [DisplayEvent(Output, Text, "Hel", true), DisplayEvent(Output, Text, "lo", true),
                           DisplayEvent(Output, Format.Status, "Output complete.", false)];
            MessageBody(Agent, "Hello", false, Some(ReduceAll(InitialState(), events)))
              == PanelBody(None, Rendered(TextBlock, "Hello"))
  {
    CompletionScenario();
  }
}
