/**
 * The chat transport: the two small REST helpers and the hand-rolled
 * `text/event-stream` interpreter inside `streamChat`.
 *
 * The interpreter follows the event-stream format of the WHATWG HTML Living
 * Standard (section 9.2.6, "Interpreting an event stream") with its own
 * deviations, all kept here: `id:` and `retry:` lines are ignored, the
 * `event:` value is trimmed, the type is lower-cased at dispatch, and a frame
 * with a type but no data is still dispatched. Line endings are normalised
 * per chunk, so a CR LF pair split across two chunks counts as two line ends.
 *
 * The callbacks the stream invokes are recorded, in order, in a log.
 */
module ChatApi {
  import opened Base
  import opened Js
  import opened DisplayEvent

  /** `clampLimit(limit = 10)`: the page size sent to the server. */
  function ClampLimit(limit: Option<int>): (r: int)
    ensures 1 <= r <= 50
    ensures limit.None? ==> r == 10
    ensures limit.Some? && 1 <= limit.value <= 50 ==> r == limit.value
    ensures limit.Some? && limit.value < 1 ==> r == 1
    ensures limit.Some? && limit.value > 50 ==> r == 50
  {
    var l := limit.GetOr(10);
    var atLeastOne := if l < 1 then 1 else l;
    if atLeastOne > 50 then 50 else atLeastOne
  }

  /**
   * `unwrapResponse`: rejects (with the server's message, else the fallback)
   * exactly when the envelope carries a non-zero code; otherwise yields
   * `data`, absent when the envelope or its data is absent.
   */
  function UnwrapResponse(response: Option<BaseResponse>, fallback: string): (r: Result<Option<Value>, string>)
    ensures r.Err? <==> RejectsCode(response)
    ensures r.Err? ==> r.error == OrElse(response.value.message, fallback)
    ensures r.Err? && fallback != "" ==> r.error != ""
    ensures r.Ok? && response.None? ==> r.value.None?
    ensures r.Ok? && response.Some? ==> r.value == response.value.data
  {
    if RejectsCode(response) then Err(OrElse(response.value.message, fallback))
    else if response.Some? then Ok(response.value.data)
    else Ok(None)
  }

  // ---------------------------------------------------------------------
  // Line endings and line splitting
  // ---------------------------------------------------------------------

  /** `s.replace(/\r\n/g, '\n')` */
  function CollapseCrLf(s: string): (r: string)
    ensures '\r' !in s ==> r == s
    decreases |s|
  {
    if |s| >= 2 && s[0] == '\r' && s[1] == '\n' then "\n" + CollapseCrLf(s[2..])
    else if s == [] then []
    else [s[0]] + CollapseCrLf(s[1..])
  }

  /** `s.replace(/\r/g, '\n')` */
  function CrToLf(s: string): (r: string)
    ensures |r| == |s| && '\r' !in r
    ensures forall i :: 0 <= i < |s| ==> r[i] == if s[i] == '\r' then '\n' else s[i]
    ensures '\r' !in s ==> r == s
  {
    seq(|s|, i requires 0 <= i < |s| => if s[i] == '\r' then '\n' else s[i])
  }

  /** The normalisation applied to the buffer after each chunk: CR LF, then any lone CR, become LF. */
  function Normalize(s: string): (r: string)
    ensures '\r' !in r
    ensures '\r' !in s ==> r == s
  {
    CrToLf(CollapseCrLf(s))
  }

  /** Lines each followed by LF, concatenated. */
  function Terminated(lines: seq<string>): string
    decreases |lines|
  {
    if lines == [] then "" else lines[0] + "\n" + Terminated(lines[1..])
  }

  /**
   * The line-slicing loop: the complete lines of `s` (without their LF), in
   * order, and the unterminated remainder that stays in the buffer.
   */
  function SplitLines(s: string): (r: (seq<string>, string))
    ensures '\n' !in r.1
    decreases |s|
  {
    var i := IndexOf(s, '\n');
    if i == -1 then ([], s)
    else
      var rest := SplitLines(s[i + 1..]);
      ([s[..i]] + rest.0, rest.1)
  }

  /** A string without LF is all remainder. */
  lemma SplitWithoutBreak(s: string)
    requires '\n' !in s
    ensures SplitLines(s) == ([], s)
  {
    assert IndexOf(s, '\n') == -1;
  }

  /** A string with LF at position `i` and none before splits off its first `i` characters as a line. */
  lemma SplitAtFirstBreak(s: string, i: nat)
    requires i < |s| && s[i] == '\n' && '\n' !in s[..i]
    ensures SplitLines(s) == ([s[..i]] + SplitLines(s[i + 1..]).0, SplitLines(s[i + 1..]).1)
  {
    var j := IndexOf(s, '\n');
    assert forall k :: 0 <= k < i ==> s[..i][k] == s[k];
    assert s[i] in s;
    assert forall k :: 0 <= k < j ==> s[..j][k] == s[k];
    assert j == i;
  }

  /** A string is its part before an LF, the LF, and its part after. */
  lemma BreakAt(s: string, i: nat)
    requires i < |s| && s[i] == '\n'
    ensures s == s[..i] + "\n" + s[i + 1..]
  {
    assert s[..i + 1] == s[..i] + [s[i]];
    assert s == s[..i + 1] + s[i + 1..];
  }

  /** Nothing is lost: the lines, each given back its LF, followed by the remainder, are the input. */
  lemma {:induction false} SplitLinesReassembles(s: string)
    ensures s == Terminated(SplitLines(s).0) + SplitLines(s).1
    decreases |s|
  {
    var i := IndexOf(s, '\n');
    if i == -1 {
      ReassembleNoBreak(s);
    } else {
      SplitAtFirstBreak(s, i);
      var rest := SplitLines(s[i + 1..]);
      SplitLinesReassembles(s[i + 1..]);
      ReassembleStep(s, i, rest.0, rest.1);
    }
  }

  lemma ReassembleStep(s: string, i: nat, ls: seq<string>, r: string)
    requires i < |s| && s[i] == '\n'
    requires s[i + 1..] == Terminated(ls) + r
    ensures s == Terminated([s[..i]] + ls) + r
  {
    TerminatedCons(s[..i], ls);
    BreakAt(s, i);
  }

  lemma ReassembleNoBreak(s: string)
    requires '\n' !in s
    ensures s == Terminated(SplitLines(s).0) + SplitLines(s).1
  {
    SplitWithoutBreak(s);
    assert Terminated([]) + s == s;
  }

  lemma TerminatedCons(l: string, ls: seq<string>)
    ensures Terminated([l] + ls) == l + "\n" + Terminated(ls)
  {
    assert ([l] + ls)[0] == l && ([l] + ls)[1..] == ls;
  }

  /** The remainder is a suffix of the input, so it holds no character the input lacks. */
  lemma SplitRestIsSuffix(s: string, c: char)
    requires c !in s
    ensures c !in SplitLines(s).1
  {
    var r := SplitLines(s);
    SplitLinesReassembles(s);
    assert r.1 == s[|Terminated(r.0)|..];
  }

  lemma BreakInPrefix(s: string, t: string, i: nat)
    requires i < |s| && s[i] == '\n' && '\n' !in s[..i]
    ensures (s + t)[i] == '\n' && (s + t)[..i] == s[..i] && (s + t)[i + 1..] == s[i + 1..] + t
  {
  }

  lemma ConsAssoc<T>(a: T, xs: seq<T>, ys: seq<T>)
    ensures ([a] + xs) + ys == [a] + (xs + ys)
  {
  }

  /** Splitting `s + t` splits `s`, then carries its remainder into `t`. */
  lemma {:induction false} SplitLinesAppend(s: string, t: string)
    ensures var (ls, rest) := SplitLines(s);
            SplitLines(s + t) == (ls + SplitLines(rest + t).0, SplitLines(rest + t).1)
    decreases |s|
  {
    var i := IndexOf(s, '\n');
    if i == -1 {
      SplitWithoutBreak(s);
      assert [] + SplitLines(s + t).0 == SplitLines(s + t).0;
    } else {
      SplitAtFirstBreak(s, i);
      BreakInPrefix(s, t, i);
      SplitAtFirstBreak(s + t, i);
      SplitLinesAppend(s[i + 1..], t);
      var (ls1, rest1) := SplitLines(s[i + 1..]);
      ConsAssoc(s[..i], ls1, SplitLines(rest1 + t).0);
    }
  }

  /** A line without LF, terminated, splits off as exactly that line. */
  lemma SplitOneLine(l: string, t: string)
    requires '\n' !in l
    ensures SplitLines(l + "\n" + t) == ([l] + SplitLines(t).0, SplitLines(t).1)
  {
    var s := l + "\n" + t;
    assert s[..|l|] == l;
    SplitAtFirstBreak(s, |l|);
    assert s[|l| + 1..] == t;
  }

  /** The complete lines of a prefix are a prefix of the complete lines. */
  lemma {:induction false} SplitLinesOfPrefix(s: string, k: nat)
    requires k <= |s|
    ensures SplitLines(s[..k]).0 <= SplitLines(s).0
    decreases |s|
  {
    var i := IndexOf(s, '\n');
    if i == -1 || k <= i {
      PrefixWithoutBreak(s, k, i);
      SplitWithoutBreak(s[..k]);
    } else {
      SplitLinesOfPrefix(s[i + 1..], k - i - 1);
      PrefixLinesStep(s, k, i);
    }
  }

  /** The inductive step: both sides split off the same first line. */
  lemma PrefixLinesStep(s: string, k: nat, i: nat)
    requires i < k <= |s| && s[i] == '\n' && '\n' !in s[..i]
    requires SplitLines(s[i + 1..][..k - i - 1]).0 <= SplitLines(s[i + 1..]).0
    ensures SplitLines(s[..k]).0 <= SplitLines(s).0
  {
    ConsPrefix(s[..i], SplitLines(s[i + 1..][..k - i - 1]).0, SplitLines(s[i + 1..]).0);
    SplitAtFirstBreak(s, i);
    SplitPrefixAtBreak(s, k, i);
  }

  lemma PrefixWithoutBreak(s: string, k: nat, i: int)
    requires k <= |s|
    requires (i == -1 && '\n' !in s) || (0 <= i && k <= i < |s| && '\n' !in s[..i])
    ensures '\n' !in s[..k]
  {
    assert forall j :: 0 <= j < k ==> s[..k][j] == s[j];
    assert i != -1 ==> forall j :: 0 <= j < k ==> s[j] == s[..i][j];
  }

  /** A prefix that reaches past the first LF splits off the same first line. */
  lemma SplitPrefixAtBreak(s: string, k: nat, i: nat)
    requires i < k <= |s| && s[i] == '\n' && '\n' !in s[..i]
    ensures SplitLines(s[..k]).0 == [s[..i]] + SplitLines(s[i + 1..][..k - i - 1]).0
  {
    PrefixKeepsBreak(s, k, i);
    SplitAtFirstBreak(s[..k], i);
  }

  lemma PrefixKeepsBreak(s: string, k: nat, i: nat)
    requires i < k <= |s| && s[i] == '\n' && '\n' !in s[..i]
    ensures s[..k][i] == '\n' && s[..k][..i] == s[..i] && '\n' !in s[..k][..i]
    ensures s[..k][i + 1..] == s[i + 1..][..k - i - 1]
  {
  }

  lemma ConsPrefix<T>(a: T, xs: seq<T>, ys: seq<T>)
    requires xs <= ys
    ensures [a] + xs <= [a] + ys
  {
  }

  // ---------------------------------------------------------------------
  // Frames and dispatch
  // ---------------------------------------------------------------------

  /** Why a stream ended with `onError`. */
  datatype StreamError = BadStatus(status: int) | NoBody | ReadFailure

  /** One callback invocation: `onEvent(event)`, `onComplete()` or `onError(err)`. */
  datatype Emission = EventOut(event: DisplayEvent) | Completed | Failed(error: StreamError)

  /** The pending frame: `currentEventType` and `currentDataLines`. */
  datatype Frame = Frame(eventType: Option<string>, dataLines: seq<string>)

  /** What line processing touches: the abort flag, the pending frame and the callback log. */
  datatype Core = Core(aborted: bool, frame: Frame, log: seq<Emission>)

  /** Where the reading coroutine stands: awaiting the response, reading the body, or returned. */
  datatype Phase = Connecting | Reading | Ended

  datatype Machine = Machine(phase: Phase, buffer: string, core: Core)

  /** The state `streamChat` starts in. */
  function Start(): Machine {
    Machine(Connecting, "", Core(false, Frame(None, []), []))
  }

  /** `lines.join('\n')`: the lines with an LF between each two. */
  function JoinLines(lines: seq<string>): (r: string)
    ensures lines == [] ==> r == ""
    ensures |lines| == 1 ==> r == lines[0]
    decreases |lines|
  {
    if lines == [] then "" else if |lines| == 1 then lines[0] else lines[0] + "\n" + JoinLines(lines[1..])
  }

  /** Joined lines followed by one more LF are the lines, each terminated by LF. */
  lemma {:induction false} JoinLinesTerminated(lines: seq<string>)
    requires lines != []
    ensures JoinLines(lines) + "\n" == Terminated(lines)
    decreases |lines|
  {
    if |lines| > 1 {
      JoinLinesTerminated(lines[1..]);
      assert JoinLines(lines) + "\n" == lines[0] + "\n" + (JoinLines(lines[1..]) + "\n");
    }
  }

  /** Joining LF-free data lines loses nothing: splitting the joined text at LF gives the lines back. */
  lemma JoinSplitRoundTrip(lines: seq<string>)
    requires lines != []
    requires forall i :: 0 <= i < |lines| ==> '\n' !in lines[i]
    ensures SplitLines(JoinLines(lines) + "\n") == (lines, "")
  {
    JoinLinesTerminated(lines);
    assert Terminated(lines) + "" == JoinLines(lines) + "\n";
    SplitTerminated(lines, "");
  }

  /** The lower-cased event type, empty when none was set. */
  function FrameType(f: Frame): string {
    ToLower(f.eventType.GetOr(""))
  }

  /** The joined data lines. */
  function FrameData(f: Frame): string {
    JoinLines(f.dataLines)
  }

  /** What a dispatch does besides clearing the frame. */
  datatype Action = Silent | Emit(event: DisplayEvent) | CompleteAndAbort

  /** The callbacks an action makes: none, `onEvent(e)`, or `onComplete()`. */
  function Callbacks(a: Action): (r: seq<Emission>)
    ensures |r| <= 1
  {
    match a
    case Silent => []
    case Emit(e) => [EventOut(e)]
    case CompleteAndAbort => [Completed]
  }

  /**
   * The decision taken by `dispatchCurrentEvent`. An empty frame does
   * nothing. A type other than "display" is a control frame: "end" and
   * "done" complete the stream, anything else is dropped. The payload
   * `[DONE]` completes the stream. Any other payload becomes `onEvent`
   * exactly when it parses and validates as a display event, and is dropped
   * silently otherwise.
   */
  function Decide(f: Frame, decode: string -> Option<DisplayEvent>): (a: Action)
    ensures FrameType(f) == "" && FrameData(f) == "" ==> a == Silent
    ensures FrameType(f) !in {"", "display"} ==>
              !a.Emit? && (a == CompleteAndAbort <==> FrameType(f) in {"end", "done"})
    ensures (&& FrameType(f) in {"", "display"} && !(FrameType(f) == "" && FrameData(f) == "")
             && FrameData(f) != "[DONE]" && decode(FrameData(f)).None?) ==> a == Silent
    ensures a.Emit? <==> && FrameType(f) in {"", "display"}
                         && (FrameType(f) != "" || FrameData(f) != "")
                         && FrameData(f) != "[DONE]"
                         && decode(FrameData(f)).Some?
    ensures a.Emit? ==> decode(FrameData(f)) == Some(a.event)
  {
    var eventType := FrameType(f);
    var data := FrameData(f);
    if eventType == "" && data == "" then Silent
    else if eventType != "" && eventType != "display" then
      if eventType == "end" || eventType == "done" then CompleteAndAbort else Silent
    else if data == "[DONE]" then CompleteAndAbort
    else match decode(data)
      case Some(e) => Emit(e)
      case None => Silent
  }

  /**
   * The frames that complete the stream: exactly the control types end and
   * done, and the `[DONE]` marker in a display or untyped frame.
   */
  lemma CompletingFrames(f: Frame, decode: string -> Option<DisplayEvent>)
    ensures Decide(f, decode) == CompleteAndAbort <==>
              FrameType(f) in {"end", "done"} || (FrameType(f) in {"", "display"} && FrameData(f) == "[DONE]")
  {
  }

  /**
   * The decoder applied to a frame's data: `JSON.parse` (None when it
   * throws), then the display-event check; a failed parse and a failed
   * check both drop the frame.
   */
  function Decoder(parse: string -> Option<Value>): string -> Option<DisplayEvent> {
    s => ParseDisplayEvent(Str(s), parse)
  }

  /** The decoder reads back the wire shape of an event, and gives nothing for text `JSON.parse` rejects. */
  lemma DecoderReadsWireShape(e: DisplayEvent, json: string, bad: string, parse: string -> Option<Value>)
    requires parse(json) == Some(EventToValue(e))
    ensures Decoder(parse)(json) == Some(e)
    ensures parse(bad).None? ==> Decoder(parse)(bad).None?
  {
    ParseOfWireShape(e, json, parse);
  }

  /** The event type is compared case-insensitively. */
  lemma EventTypeCaseInsensitive(t: string, lines: seq<string>, decode: string -> Option<DisplayEvent>)
    ensures Decide(Frame(Some(t), lines), decode) == Decide(Frame(Some(ToLower(t)), lines), decode)
  {
    assert ToLower(ToLower(t)) == ToLower(t);
  }

  /**
   * `dispatchCurrentEvent`: the frame is always cleared; the decision adds at
   * most one callback; only a completion sets the abort flag.
   */
  function DispatchFrame(c: Core, decode: string -> Option<DisplayEvent>): (r: Core)
    ensures r.frame == Frame(None, [])
    ensures r.aborted <==> c.aborted || Decide(c.frame, decode) == CompleteAndAbort
    ensures r.log == c.log + Callbacks(Decide(c.frame, decode))
  {
    var a := Decide(c.frame, decode);
    Core(c.aborted || a == CompleteAndAbort, Frame(None, []), c.log + Callbacks(a))
  }

  /** The value of a `data:` line: the text after the colon, minus at most one leading space. */
  function DataValue(rawLine: string): (r: string)
    requires StartsWith(rawLine, "data:")
    ensures rawLine == "data:" + r || rawLine == "data: " + r
    ensures StartsWith(rawLine, "data: ") <==> rawLine == "data: " + r
  {
    var part := rawLine[5..];
    DataValueSplit(rawLine, part);
    if StartsWith(part, " ") then part[1..] else part
  }

  lemma DataValueSplit(rawLine: string, part: string)
    requires StartsWith(rawLine, "data:") && part == rawLine[5..]
    ensures rawLine == "data:" + part
    ensures StartsWith(part, " ") ==> rawLine == "data: " + part[1..] && StartsWith(rawLine, "data: ")
    ensures !StartsWith(part, " ") ==> !StartsWith(rawLine, "data: ") && rawLine != "data: " + part
  {
    assert rawLine == rawLine[..5] + part;
    if StartsWith(part, " ") {
      assert part == " " + part[1..];
      assert rawLine[..6] == "data: ";
    } else if |rawLine| >= 6 {
      assert rawLine[..6][5] == part[0];
    }
  }

  /**
   * One line of the stream. An empty line dispatches the pending frame; a
   * line starting with ':' is a comment; `event:` sets the pending type to
   * its trimmed value; `data:` appends its value to the pending data; every
   * other line (`id:`, `retry:`, garbage) is ignored.
   */
  function HandleLine(c: Core, rawLine: string, decode: string -> Option<DisplayEvent>): (r: Core)
    ensures rawLine == "" ==> r == DispatchFrame(c, decode)
    ensures rawLine != "" ==> r.aborted == c.aborted && r.log == c.log
    ensures StartsWith(rawLine, "event:") ==> r.frame == Frame(Some(Trim(rawLine[6..])), c.frame.dataLines)
    ensures StartsWith(rawLine, "data:") ==> r.frame == Frame(c.frame.eventType, c.frame.dataLines + [DataValue(rawLine)])
    ensures rawLine != "" && !StartsWith(rawLine, "event:") && !StartsWith(rawLine, "data:") ==> r == c
  {
    if rawLine == "" then DispatchFrame(c, decode)
    else if StartsWith(rawLine, ":") then
      assert rawLine[0] == ':';
      assert !StartsWith(rawLine, "event:") && !StartsWith(rawLine, "data:");
      c
    else if StartsWith(rawLine, "event:") then c.(frame := c.frame.(eventType := Some(Trim(rawLine[6..]))))
    else if !StartsWith(rawLine, "data:") then c
    else c.(frame := c.frame.(dataLines := c.frame.dataLines + [DataValue(rawLine)]))
  }

  /** The lines, handled one at a time in order. */
  function HandleLines(c: Core, lines: seq<string>, decode: string -> Option<DisplayEvent>): Core
    decreases |lines|
  {
    if lines == [] then c else HandleLines(HandleLine(c, lines[0], decode), lines[1..], decode)
  }

  lemma {:induction false} HandleLinesConcat(c: Core, a: seq<string>, b: seq<string>, decode: string -> Option<DisplayEvent>)
    ensures HandleLines(c, a + b, decode) == HandleLines(HandleLines(c, a, decode), b, decode)
    decreases |a|
  {
    if a == [] {
      assert a + b == b;
    } else {
      assert (a + b)[0] == a[0] && (a + b)[1..] == a[1..] + b;
      HandleLinesConcat(HandleLine(c, a[0], decode), a[1..], b, decode);
    }
  }

  /** Without a blank line nothing is dispatched: no callback, no abort. */
  lemma {:induction false} HandleLinesWithoutBlank(c: Core, lines: seq<string>, decode: string -> Option<DisplayEvent>)
    requires forall i :: 0 <= i < |lines| ==> lines[i] != ""
    ensures HandleLines(c, lines, decode).log == c.log
    ensures HandleLines(c, lines, decode).aborted == c.aborted
    decreases |lines|
  {
    if lines != [] {
      HandleLinesWithoutBlank(HandleLine(c, lines[0], decode), lines[1..], decode);
    }
  }

  /** The callback log only ever grows. */
  lemma {:induction false} HandleLinesExtendsLog(c: Core, lines: seq<string>, decode: string -> Option<DisplayEvent>)
    ensures |c.log| <= |HandleLines(c, lines, decode).log|
    ensures HandleLines(c, lines, decode).log[..|c.log|] == c.log
    ensures c.aborted ==> HandleLines(c, lines, decode).aborted
    decreases |lines|
  {
    if lines != [] {
      var c1 := HandleLine(c, lines[0], decode);
      HandleLinesExtendsLog(c1, lines[1..], decode);
      var r := HandleLines(c1, lines[1..], decode);
      assert r.log[..|c.log|] == r.log[..|c1.log|][..|c.log|];
    }
  }

  // ---------------------------------------------------------------------
  // The reading coroutine, step by step
  // ---------------------------------------------------------------------

  /** `close()` (or a completion's `controller.abort()`): only raises the abort flag. */
  function CloseSpec(m: Machine): Machine {
    m.(core := m.core.(aborted := true))
  }

  /**
   * The response arrives. Aborted before it: the fetch rejects with an
   * AbortError, swallowed. A non-OK status or a missing body: `onError`,
   * and the coroutine returns. Otherwise reading begins.
   */
  function RespondSpec(m: Machine, ok: bool, status: int, hasBody: bool): (r: Machine)
    requires m.phase == Connecting
    ensures r.phase != Connecting
    ensures r.phase == Reading <==> !m.core.aborted && ok && hasBody
    ensures |m.core.log| <= |r.core.log| && Completed !in r.core.log[|m.core.log|..]
    ensures !m.core.aborted && !ok ==> r.core.log == m.core.log + [Failed(BadStatus(status))]
    ensures !m.core.aborted && ok && !hasBody ==> r.core.log == m.core.log + [Failed(NoBody)]
    ensures m.core.aborted ==> r.core.log == m.core.log
    ensures r.phase == Reading ==> r.core == m.core && r.buffer == m.buffer
  {
    if m.core.aborted then m.(phase := Ended)
    else if !ok then m.(phase := Ended, core := m.core.(log := m.core.log + [Failed(BadStatus(status))]))
    else if !hasBody then m.(phase := Ended, core := m.core.(log := m.core.log + [Failed(NoBody)]))
    else m.(phase := Reading)
  }

  /** The buffer's complete lines handled, the remainder kept. */
  function DrainSpec(m: Machine, decode: string -> Option<DisplayEvent>): Machine {
    var (lines, rest) := SplitLines(m.buffer);
    Machine(m.phase, rest, HandleLines(m.core, lines, decode))
  }

  /**
   * A decoded chunk arrives. After an abort the read rejects (AbortError,
   * swallowed) and the coroutine returns without a callback. Otherwise the
   * chunk is appended, line endings are normalised, and every complete line
   * is handled; the buffer keeps the unterminated rest, free of line breaks.
   */
  function FeedSpec(m: Machine, chunk: string, decode: string -> Option<DisplayEvent>): (r: Machine)
    requires m.phase == Reading
    ensures m.core.aborted ==> r == m.(phase := Ended)
    ensures !m.core.aborted ==> r.phase == Reading && '\n' !in r.buffer && '\r' !in r.buffer
    ensures |m.core.log| <= |r.core.log| && r.core.log[..|m.core.log|] == m.core.log
  {
    if m.core.aborted then m.(phase := Ended)
    else
      var r := DrainSpec(m.(buffer := Normalize(m.buffer + chunk)), decode);
      HandleLinesExtendsLog(m.core, SplitLines(Normalize(m.buffer + chunk)).0, decode);
      SplitRestIsSuffix(Normalize(m.buffer + chunk), '\r');
      r
  }

  /**
   * The read reports the end of the body. A non-empty remainder is handled
   * as if it ended with LF, one final dispatch runs, and `onComplete` is
   * called. The abort flag is not consulted: an abort only makes a read fail
   * while the body is still open, so a body that had been received in full
   * before a completion or a `close()` still ends here, and calls back.
   */
  function FinishSpec(m: Machine, decode: string -> Option<DisplayEvent>): (r: Machine)
    requires m.phase == Reading
    ensures r.phase == Ended
    ensures |m.core.log| < |r.core.log| && r.core.log[..|m.core.log|] == m.core.log
    ensures r.core.log[|r.core.log| - 1] == Completed
    ensures r.core.frame == Frame(None, [])
    ensures m.buffer == "" ==> var d := DispatchFrame(m.core, decode);
                                r == Machine(Ended, "", d.(log := d.log + [Completed]))
  {
    var tail := if |m.buffer| > 0 then DrainSpec(m.(buffer := m.buffer + "\n"), decode) else m;
    HandleLinesExtendsLog(m.core, SplitLines(m.buffer + "\n").0, decode);
    var c := DispatchFrame(tail.core, decode);
    Machine(Ended, tail.buffer, c.(log := c.log + [Completed]))
  }

  /**
   * The end of body as the cancellation contract of `close()` intends it:
   * once aborted, nothing more is called back; otherwise as `FinishSpec`.
   */
  function GuardedFinishSpec(m: Machine, decode: string -> Option<DisplayEvent>): (r: Machine)
    requires m.phase == Reading
    ensures r.phase == Ended
    ensures m.core.aborted ==> r.core == m.core
    ensures !m.core.aborted ==> r == FinishSpec(m, decode)
  {
    if m.core.aborted then m.(phase := Ended) else FinishSpec(m, decode)
  }

  /**
   * A read fails. When aborted, the failure is the AbortError and is
   * swallowed; otherwise `onError` is called once. Never `onComplete`.
   */
  function FailSpec(m: Machine): (r: Machine)
    requires m.phase != Ended
    ensures r.phase == Ended && r.buffer == m.buffer && r.core.frame == m.core.frame
    ensures m.core.aborted ==> r.core.log == m.core.log
    ensures !m.core.aborted ==> r.core.log == m.core.log + [Failed(ReadFailure)]
  {
    m.(phase := Ended, core := m.core.(log := if m.core.aborted then m.core.log else m.core.log + [Failed(ReadFailure)]))
  }

  // ---------------------------------------------------------------------
  // Properties of the interpreter
  // ---------------------------------------------------------------------

  /**
   * Chunk independence for input without CR: feeding two chunks one after
   * the other is feeding their concatenation, provided the first chunk did
   * not complete (and so abort) the stream.
   */
  lemma ChunkIndependence(m: Machine, c1: string, c2: string, decode: string -> Option<DisplayEvent>)
    requires m.phase == Reading
    requires '\r' !in m.buffer && '\r' !in c1 && '\r' !in c2
    requires !FeedSpec(m, c1, decode).core.aborted
    ensures FeedSpec(FeedSpec(m, c1, decode), c2, decode) == FeedSpec(m, c1 + c2, decode)
  {
    var b1 := m.buffer + c1;
    CrFreeConcat(m.buffer, c1, c2);
    var (l1, r1) := SplitLines(b1);
    SplitRestIsSuffix(b1, '\r');
    SplitLinesAppend(b1, c2);
    HandleLinesConcat(m.core, l1, SplitLines(r1 + c2).0, decode);
  }

  lemma CrFreeConcat(b: string, c1: string, c2: string)
    requires '\r' !in b && '\r' !in c1 && '\r' !in c2
    ensures Normalize(b + c1) == b + c1
    ensures Normalize(b + (c1 + c2)) == (b + c1) + c2
    ensures '\r' !in (b + c1) && forall r :: '\r' !in r ==> Normalize(r + c2) == r + c2
  {
    assert b + (c1 + c2) == (b + c1) + c2;
    forall r | '\r' !in r
      ensures Normalize(r + c2) == r + c2
    {
      assert '\r' !in r + c2;
    }
  }

  // Helpers for evaluating the interpreter on given text. Each keeps one
  // step of the evaluation in a small proof of its own.

  lemma TerminatedHead(ls: seq<string>, rest: string)
    requires ls != []
    ensures Terminated(ls) + rest == ls[0] + "\n" + (Terminated(ls[1..]) + rest)
  {
  }

  /**
   * Splitting inverts `Terminated`: LF-free lines, each given back its LF
   * and followed by an LF-free rest, split into exactly those lines and that rest.
   */
  lemma {:induction false} SplitTerminated(ls: seq<string>, rest: string)
    requires forall i :: 0 <= i < |ls| ==> '\n' !in ls[i]
    requires '\n' !in rest
    ensures SplitLines(Terminated(ls) + rest) == (ls, rest)
    decreases |ls|
  {
    if ls == [] {
      SplitWithoutBreak(rest);
      assert Terminated(ls) + rest == rest;
    } else {
      TerminatedHead(ls, rest);
      SplitOneLine(ls[0], Terminated(ls[1..]) + rest);
      SplitTerminated(ls[1..], rest);
      assert [ls[0]] + ls[1..] == ls;
    }
  }

  lemma TerminatedThree(a: string, b: string, c: string)
    ensures Terminated([a, b, c]) + "" == a + "\n" + b + "\n" + c + "\n"
  {
    var ls := [a, b, c];
    assert ls[1..] == [b, c] && ls[1..][1..] == [c];
    TerminatedHead(ls, "");
    TerminatedHead([b, c], "");
    TerminatedHead([c], "");
  }

  lemma TerminatedFour(a: string, b: string, c: string, d: string)
    ensures Terminated([a, b, c, d]) + "" == a + "\n" + b + "\n" + c + "\n" + d + "\n"
  {
    var ls := [a, b, c, d];
    assert ls[1..] == [b, c, d];
    TerminatedHead(ls, "");
    TerminatedThree(b, c, d);
  }

  /** A chunk whose normalised buffer is known lines plus a rest: those lines are handled, the rest is kept. */
  lemma FeedLines(m: Machine, chunk: string, ls: seq<string>, rest: string, decode: string -> Option<DisplayEvent>)
    requires m.phase == Reading && !m.core.aborted
    requires Normalize(m.buffer + chunk) == Terminated(ls) + rest
    requires forall i :: 0 <= i < |ls| ==> '\n' !in ls[i]
    requires '\n' !in rest
    ensures FeedSpec(m, chunk, decode) == Machine(Reading, rest, HandleLines(m.core, ls, decode))
  {
    SplitTerminated(ls, rest);
  }

  lemma HandleLinesCons(c: Core, l: string, ls: seq<string>, decode: string -> Option<DisplayEvent>)
    ensures HandleLines(c, [l] + ls, decode) == HandleLines(HandleLine(c, l, decode), ls, decode)
  {
    assert ([l] + ls)[0] == l && ([l] + ls)[1..] == ls;
  }

  lemma HandleSingleLine(c: Core, l: string, decode: string -> Option<DisplayEvent>)
    ensures HandleLines(c, [l], decode) == HandleLine(c, l, decode)
  {
    HandleLinesCons(c, l, [], decode);
  }

  lemma HandleLinesThree(c: Core, a: string, b: string, d: string, decode: string -> Option<DisplayEvent>)
    ensures HandleLines(c, [a, b, d], decode) == HandleLine(HandleLine(HandleLine(c, a, decode), b, decode), d, decode)
  {
    assert [a, b, d] == [a] + [b, d] && [b, d] == [b] + [d];
    HandleLinesCons(c, a, [b, d], decode);
    var c1 := HandleLine(c, a, decode);
    HandleLinesCons(c1, b, [d], decode);
    HandleSingleLine(HandleLine(c1, b, decode), d, decode);
  }

  lemma HandleLinesFour(c: Core, a: string, b: string, d: string, e: string, decode: string -> Option<DisplayEvent>)
    ensures HandleLines(c, [a, b, d, e], decode)
         == HandleLine(HandleLine(HandleLine(HandleLine(c, a, decode), b, decode), d, decode), e, decode)
  {
    assert [a, b, d, e] == [a] + [b, d, e];
    HandleLinesCons(c, a, [b, d, e], decode);
    HandleLinesThree(HandleLine(c, a, decode), b, d, e, decode);
  }

  /** `event:` followed by a value sets the pending type to the trimmed value. */
  lemma EventLine(c: Core, v: string, decode: string -> Option<DisplayEvent>)
    ensures HandleLine(c, "event:" + v, decode) == c.(frame := Frame(Some(Trim(v)), c.frame.dataLines))
  {
    var line := "event:" + v;
    assert line[..6] == "event:" && line[6..] == v;
    assert line[0] == 'e';
  }

  /** `data: ` followed by a value not starting with a space appends that value. */
  lemma DataLine(c: Core, v: string, decode: string -> Option<DisplayEvent>)
    requires !StartsWith(v, " ")
    ensures HandleLine(c, "data: " + v, decode) == c.(frame := Frame(c.frame.eventType, c.frame.dataLines + [v]))
  {
    var line := "data: " + v;
    assert line[..5] == "data:" && line[5..] == " " + v;
    assert line[0] == 'd';
    assert !StartsWith(line, ":") && !StartsWith(line, "event:");
    assert (" " + v)[1..] == v;
  }

  /** A word padded by one space on the left trims back to itself. */
  lemma TrimPadded(w: string)
    requires w != [] && !IsTrimmable(w[0]) && !IsTrimmable(w[|w| - 1])
    ensures Trim(" " + w) == w
  {
    assert (" " + w)[1..] == w;
    assert TrimStart(" " + w) == w;
  }

  /** Text without upper-case ASCII letters is its own lower case. */
  lemma LowerOfLower(s: string)
    requires forall i :: 0 <= i < |s| ==> !('A' <= s[i] <= 'Z')
    ensures ToLower(s) == s
  {
  }

  /** The event types the lemmas below use: lower case, trimmed, free of line breaks. */
  lemma Keyword(t: string)
    requires t in {"end", "done", "display"}
    ensures Trim(" " + t) == t && ToLower(t) == t && '\n' !in t && '\r' !in t
  {
    KeywordTrim(t);
    KeywordChars(t);
    LowerOfLower(t);
  }

  lemma KeywordTrim(t: string)
    requires t in {"end", "done", "display"}
    ensures Trim(" " + t) == t
  {
    assert t[0] in "edn";
    assert t[|t| - 1] in "edy";
    TrimPadded(t);
  }

  lemma KeywordChars(t: string)
    requires t in {"end", "done", "display"}
    ensures forall i :: 0 <= i < |t| ==> 'a' <= t[i] <= 'z'
  {
  }

  /** The line `event: t` sets the pending type to `t`. */
  lemma KeywordLine(c: Core, t: string, decode: string -> Option<DisplayEvent>)
    requires t in {"end", "done", "display"}
    ensures '\n' !in "event: " + t && '\r' !in "event: " + t
    ensures HandleLine(c, "event: " + t, decode) == c.(frame := Frame(Some(t), c.frame.dataLines))
  {
    KeywordLineChars(t);
    KeywordTrim(t);
    EventLine(c, " " + t, decode);
    EventPrefix(t);
  }

  lemma KeywordLineChars(t: string)
    requires t in {"end", "done", "display"}
    ensures '\n' !in "event: " + t && '\r' !in "event: " + t
  {
    KeywordChars(t);
    assert forall i :: 0 <= i < |"event: " + t| ==> ("event: " + t)[i] != '\n' && ("event: " + t)[i] != '\r';
  }

  lemma EventPrefix(t: string)
    ensures "event: " + t == "event:" + (" " + t)
  {
  }

  /**
   * A value of an `event:` line that names a completing control frame: once
   * trimmed and lower-cased it is "end" or "done" (so " End" and "DONE" count).
   */
  predicate ControlWord(t: string) {
    '\n' !in t && '\r' !in t && ToLower(Trim(" " + t)) in {"end", "done"}
  }

  lemma ControlWordsEndAndDone()
    ensures ControlWord("end") && ControlWord("done")
  {
    Keyword("end");
    Keyword("done");
  }

  /** An `event:` line naming a completing control frame. */
  predicate ControlLine(line: string) {
    StartsWith(line, "event:") && ToLower(Trim(line[6..])) in {"end", "done"}
  }

  /** `event: t` is a control line, free of line breaks, when `t` is a control word. */
  lemma ControlLineOf(t: string)
    requires ControlWord(t)
    ensures ControlLine("event: " + t) && '\n' !in "event: " + t && '\r' !in "event: " + t
  {
    var line := "event: " + t;
    EventLineParts(t);
    assert Trim(line[6..]) == Trim(" " + t);
  }

  /** `event: t` starts with `event:`, continues with ` t`, and adds no line break to `t`. */
  lemma EventLineParts(t: string)
    ensures ("event: " + t)[..6] == "event:" && ("event: " + t)[6..] == " " + t
    ensures '\n' !in "event: " && '\r' !in "event: "
  {
    assert forall i :: 0 <= i < |"event: "| ==> "event: "[i] != '\n' && "event: "[i] != '\r';
  }

  /** A pending control frame without data completes the stream. */
  lemma ControlFrame(c: Core, w: string, decode: string -> Option<DisplayEvent>)
    requires ToLower(w) in {"end", "done"}
    requires c.frame == Frame(Some(w), [])
    ensures DispatchFrame(c, decode) == Core(true, Frame(None, []), c.log + [Completed])
  {
    assert FrameType(c.frame) == ToLower(w);
    assert FrameType(c.frame) != "" && FrameType(c.frame) != "display";
    assert FrameData(c.frame) == "";
    assert Decide(c.frame, decode) == CompleteAndAbort;
  }

  /** A pending frame with one data line `v`, typed "display" or untyped, and no sentinel. */
  lemma DataFrame(c: Core, v: string, decode: string -> Option<DisplayEvent>)
    requires c.frame == Frame(Some("display"), [v]) || (c.frame == Frame(None, [v]) && v != "")
    requires v != "[DONE]"
    ensures DispatchFrame(c, decode) ==
            match decode(v)
            case Some(e) => Core(c.aborted, Frame(None, []), c.log + [EventOut(e)])
            case None => Core(c.aborted, Frame(None, []), c.log)
  {
    if c.frame.eventType.Some? {
      Keyword("display");
    }
    assert FrameType(c.frame) in {"", "display"};
    assert FrameData(c.frame) == v;
  }

  // ---------------------------------------------------------------------
  // Properties of the interpreter on given streams
  // ---------------------------------------------------------------------

  /** A reader with an empty buffer and no pending frame, not closed: where every frame starts. */
  predicate Fresh(m: Machine) {
    m.phase == Reading && !m.core.aborted && m.buffer == "" && m.core.frame == Frame(None, [])
  }

  /**
   * Chunk dependence with CR LF: a data line ended by CR LF completes the
   * stream on "[DONE]" when the CR and the LF arrive in two chunks (the CR
   * is normalised alone, then the LF reads as a blank line), but not when
   * they arrive together.
   */
  lemma CrLfSplitAcrossChunks(m: Machine, decode: string -> Option<DisplayEvent>)
    requires Fresh(m)
    ensures FeedSpec(FeedSpec(m, "data: [DONE]" + "\r", decode), "\n", decode).core.log == m.core.log + [Completed]
    ensures FeedSpec(m, "data: [DONE]" + "\r\n", decode).core.log == m.core.log
  {
    SplitCrLfCompletes(m, decode);
    JoinedCrLfIsPending(m, decode);
  }

  lemma SplitCrLfCompletes(m: Machine, decode: string -> Option<DisplayEvent>)
    requires Fresh(m)
    ensures FeedSpec(FeedSpec(m, "data: [DONE]" + "\r", decode), "\n", decode).core.log == m.core.log + [Completed]
  {
    var line := "data: [DONE]";
    var pending := m.core.(frame := Frame(None, ["[DONE]"]));
    SentinelLine(line, m.core, decode);
    assert [] + ["[DONE]"] == ["[DONE]"];
    assert HandleLines(m.core, [line], decode) == pending;
    LoneCrChunk(m, line, decode);
    assert FeedSpec(m, line + "\r", decode) == Machine(Reading, "", pending);
    BlankLineAfterSentinel(pending, decode);
  }

  lemma JoinedCrLfIsPending(m: Machine, decode: string -> Option<DisplayEvent>)
    requires Fresh(m)
    ensures FeedSpec(m, "data: [DONE]" + "\r\n", decode).core.log == m.core.log
  {
    var line := "data: [DONE]";
    SentinelLine(line, m.core, decode);
    CrLfChunk(m, line, decode);
  }

  /** A lone LF fed after a pending "[DONE]" frame reads as a blank line and completes the stream. */
  lemma BlankLineAfterSentinel(pending: Core, decode: string -> Option<DisplayEvent>)
    requires !pending.aborted && pending.frame == Frame(None, ["[DONE]"])
    ensures FeedSpec(Machine(Reading, "", pending), "\n", decode).core.log == pending.log + [Completed]
  {
    OneBlankLine();
    FeedWholeLines(Machine(Reading, "", pending), "\n", [""], decode);
    HandleSingleLine(pending, "", decode);
    assert FrameData(pending.frame) == "[DONE]";
    assert Decide(pending.frame, decode) == CompleteAndAbort;
  }

  lemma OneBlankLine()
    ensures Terminated([""]) == "\n" && '\r' !in "\n"
    ensures forall i :: 0 <= i < |[""]| ==> '\n' !in [""][i]
  {
    assert [""][1..] == [];
  }

  lemma SentinelLine(line: string, c: Core, decode: string -> Option<DisplayEvent>)
    requires line == "data: [DONE]"
    ensures '\r' !in line && '\n' !in line
    ensures HandleLines(c, [line], decode) == c.(frame := Frame(c.frame.eventType, c.frame.dataLines + ["[DONE]"]))
  {
    SentinelParts();
    DataLine(c, "[DONE]", decode);
    HandleSingleLine(c, line, decode);
  }

  lemma SentinelParts()
    ensures "data: [DONE]" == "data: " + "[DONE]" && !StartsWith("[DONE]", " ")
    ensures '\r' !in "data: [DONE]" && '\n' !in "data: [DONE]"
  {
    assert "[DONE]"[0] == '[';
  }

  lemma LoneCrChunk(m: Machine, line: string, decode: string -> Option<DisplayEvent>)
    requires m.phase == Reading && !m.core.aborted && m.buffer == ""
    requires '\r' !in line && '\n' !in line
    ensures FeedSpec(m, line + "\r", decode) == Machine(Reading, "", HandleLines(m.core, [line], decode))
  {
    NormalizeLoneCr(line);
    assert m.buffer + (line + "\r") == line + "\r";
    assert line + "\n" == Terminated([line]) + "";
    FeedLines(m, line + "\r", [line], "", decode);
  }

  lemma CrLfChunk(m: Machine, line: string, decode: string -> Option<DisplayEvent>)
    requires m.phase == Reading && !m.core.aborted && m.buffer == ""
    requires '\r' !in line && '\n' !in line
    ensures FeedSpec(m, line + "\r\n", decode) == Machine(Reading, "", HandleLines(m.core, [line], decode))
  {
    NormalizeCrLf(line);
    assert m.buffer + (line + "\r\n") == line + "\r\n";
    assert line + "\n" == Terminated([line]) + "";
    FeedLines(m, line + "\r\n", [line], "", decode);
  }

  lemma {:induction false} NormalizeLoneCr(p: string)
    requires '\r' !in p
    ensures Normalize(p + "\r") == p + "\n"
  {
    CollapseLoneCr(p);
    assert CrToLf(p + "\r") == p + "\n";
  }

  lemma {:induction false} CollapseLoneCr(p: string)
    requires '\r' !in p
    ensures CollapseCrLf(p + "\r") == p + "\r"
    decreases |p|
  {
    if p == [] {
      assert CollapseCrLf("\r") == ['\r'] + CollapseCrLf([]);
    } else {
      var s := p + "\r";
      assert s[0] == p[0] != '\r';
      assert s[1..] == p[1..] + "\r";
      assert CollapseCrLf(s) == [p[0]] + CollapseCrLf(s[1..]);
      CollapseLoneCr(p[1..]);
      assert [p[0]] + (p[1..] + "\r") == s;
    }
  }

  lemma {:induction false} NormalizeCrLf(p: string)
    requires '\r' !in p
    ensures Normalize(p + "\r\n") == p + "\n"
  {
    CollapseCrLfEnd(p);
  }

  lemma {:induction false} CollapseCrLfEnd(p: string)
    requires '\r' !in p
    ensures CollapseCrLf(p + "\r\n") == p + "\n"
    decreases |p|
  {
    if p == [] {
      assert CollapseCrLf("\r\n") == "\n" + CollapseCrLf([]);
    } else {
      var s := p + "\r\n";
      assert s[0] == p[0] != '\r';
      assert s[1..] == p[1..] + "\r\n";
      assert CollapseCrLf(s) == [p[0]] + CollapseCrLf(s[1..]);
      CollapseCrLfEnd(p[1..]);
      assert [p[0]] + (p[1..] + "\n") == p + "\n";
    }
  }

  /**
   * No suppression after completion: two control frames in one chunk both
   * call `onComplete`; the abort only stops the next read.
   */
  lemma CompletionIsNotExclusive(m: Machine, t1: string, t2: string, decode: string -> Option<DisplayEvent>)
    requires Fresh(m)
    requires ControlWord(t1) && ControlWord(t2)
    ensures var l1 := "event: " + t1;
            var l2 := "event: " + t2;
            FeedSpec(m, l1 + "\n\n" + l2 + "\n\n", decode).core.log == m.core.log + [Completed, Completed]
  {
    var l1 := "event: " + t1;
    var l3 := "event: " + t2;
    ControlLineOf(t1);
    ControlLineOf(t2);
    ControlPairLines(m.core, l1, l3, decode);
    var text := l1 + "\n\n" + l3 + "\n\n";
    FourLines(l1, l3, text);
    FeedWholeLines(m, text, [l1, "", l3, ""], decode);
  }

  /** Two lines, each followed by a blank line, are four terminated lines. */
  lemma FourLines(a: string, c: string, text: string)
    requires '\r' !in a && '\r' !in c && '\n' !in a && '\n' !in c
    requires text == a + "\n\n" + c + "\n\n"
    ensures '\r' !in text && text == Terminated([a, "", c, ""])
    ensures forall i :: 0 <= i < |[a, "", c, ""]| ==> '\n' !in [a, "", c, ""][i]
  {
    TerminatedFour(a, "", c, "");
    var n := "\n\n";
    assert n == "\n" + "" + "\n";
    assert text == a + n + c + n;
    assert a + n + c + n == a + "\n" + "" + "\n" + c + "\n" + "" + "\n";
  }

  /** A CR-free text of whole lines, fed to a reader with an empty buffer: exactly those lines are handled. */
  lemma FeedWholeLines(m: Machine, text: string, ls: seq<string>, decode: string -> Option<DisplayEvent>)
    requires m.phase == Reading && !m.core.aborted && m.buffer == ""
    requires '\r' !in text && text == Terminated(ls)
    requires forall i :: 0 <= i < |ls| ==> '\n' !in ls[i]
    ensures FeedSpec(m, text, decode) == Machine(Reading, "", HandleLines(m.core, ls, decode))
  {
    assert m.buffer + text == text;
    assert Normalize(m.buffer + text) == Terminated(ls) + "";
    FeedLines(m, text, ls, "", decode);
  }

  lemma ControlPairLines(c0: Core, l1: string, l2: string, decode: string -> Option<DisplayEvent>)
    requires c0.frame == Frame(None, [])
    requires ControlLine(l1) && ControlLine(l2)
    ensures HandleLines(c0, [l1, "", l2, ""], decode).log == c0.log + [Completed, Completed]
  {
    var c2 := Core(true, Frame(None, []), c0.log + [Completed]);
    ControlLineDispatch(c0, l1, decode);
    ControlLineDispatch(c2, l2, decode);
    TwoDispatchedFrames(c0, l1, l2, c2, decode);
  }

  /** Two frames, each a line and a blank line, that each complete the stream log two completions. */
  lemma TwoDispatchedFrames(c0: Core, l1: string, l2: string, c2: Core, decode: string -> Option<DisplayEvent>)
    requires DispatchFrame(HandleLine(c0, l1, decode), decode) == c2
    requires DispatchFrame(HandleLine(c2, l2, decode), decode).log == c2.log + [Completed]
    requires c2.log == c0.log + [Completed]
    ensures HandleLines(c0, [l1, "", l2, ""], decode).log == c0.log + [Completed, Completed]
  {
    HandleLinesFour(c0, l1, "", l2, "", decode);
    var c3 := HandleLine(c2, l2, decode);
    assert HandleLine(HandleLine(c0, l1, decode), "", decode) == c2;
    assert HandleLine(c3, "", decode).log == c2.log + [Completed];
    CompletedTwice(c0.log);
  }

  lemma CompletedTwice(log: seq<Emission>)
    ensures log + [Completed] + [Completed] == log + [Completed, Completed]
  {
  }

  /** A control line and the blank line after it complete the stream. */
  lemma ControlLines(c0: Core, line: string, decode: string -> Option<DisplayEvent>)
    requires c0.frame == Frame(None, [])
    requires ControlLine(line)
    ensures HandleLines(c0, [line, ""], decode) == Core(true, Frame(None, []), c0.log + [Completed])
  {
    var c1 := HandleLine(c0, line, decode);
    ControlLineDispatch(c0, line, decode);
    HandleLinesCons(c0, line, [""], decode);
    HandleSingleLine(c1, "", decode);
  }

  /** A control line, then a dispatch, completes the stream. */
  lemma ControlLineDispatch(c: Core, line: string, decode: string -> Option<DisplayEvent>)
    requires c.frame == Frame(None, [])
    requires ControlLine(line)
    ensures DispatchFrame(HandleLine(c, line, decode), decode) == Core(true, Frame(None, []), c.log + [Completed])
  {
    var c1 := HandleLine(c, line, decode);
    assert c1 == c.(frame := Frame(Some(Trim(line[6..])), []));
    ControlFrame(c1, Trim(line[6..]), decode);
  }

  /** One terminated line splits into just that line. */
  lemma SplitSingleLine(l: string)
    requires '\n' !in l
    ensures SplitLines(l + "\n") == ([l], "")
  {
    assert l + "\n" == Terminated([l]) + "";
    SplitTerminated([l], "");
  }

  /**
   * A control frame left unterminated in the buffer at end of body
   * completes the stream during the tail pass, and `onComplete` is called
   * once more after it.
   */
  lemma TailCompletionCompletesTwice(m: Machine, t: string, decode: string -> Option<DisplayEvent>)
    requires m.phase == Reading && !m.core.aborted && m.core.frame == Frame(None, [])
    requires ControlWord(t)
    requires m.buffer == "event: " + t
    ensures FinishSpec(m, decode).core.log == m.core.log + [Completed, Completed]
  {
    ControlLineOf(t);
    TailControlLine(m, decode);
  }

  lemma TailControlLine(m: Machine, decode: string -> Option<DisplayEvent>)
    requires m.phase == Reading && !m.core.aborted && m.core.frame == Frame(None, [])
    requires ControlLine(m.buffer) && '\n' !in m.buffer
    ensures FinishSpec(m, decode).core.log == m.core.log + [Completed, Completed]
  {
    FinishOneLine(m, decode);
    ControlLineDispatch(m.core, m.buffer, decode);
  }

  /** A remainder that is one unterminated line is handled as that line, then dispatched, then completed. */
  lemma FinishOneLine(m: Machine, decode: string -> Option<DisplayEvent>)
    requires m.phase == Reading && !m.core.aborted && m.buffer != "" && '\n' !in m.buffer
    ensures var c := DispatchFrame(HandleLine(m.core, m.buffer, decode), decode);
            FinishSpec(m, decode) == Machine(Ended, "", c.(log := c.log + [Completed]))
  {
    SplitSingleLine(m.buffer);
    HandleSingleLine(m.core, m.buffer, decode);
  }

  /**
   * Cancellation while the body is open: once closed, a chunk read or a
   * failed read calls nothing back, and reading stops.
   */
  lemma ClosedStreamIsSilent(m: Machine, chunk: string, decode: string -> Option<DisplayEvent>)
    requires m.phase == Reading
    ensures FeedSpec(CloseSpec(m), chunk, decode).core.log == m.core.log
    ensures FeedSpec(CloseSpec(m), chunk, decode).phase == Ended
    ensures FailSpec(CloseSpec(m)).core.log == m.core.log
  {
  }

  /**
   * Closing does not silence the end of the body: when the read reports
   * `done` after `close()`, `onComplete` is still called.
   */
  lemma EndOfBodyAfterCloseCompletes(m: Machine, decode: string -> Option<DisplayEvent>)
    requires m.phase == Reading
    ensures var r := FinishSpec(CloseSpec(m), decode);
            |r.core.log| > |m.core.log| && r.core.log[|r.core.log| - 1] == Completed
  {
  }

  /**
   * A stream whose last frame completes it calls `onComplete` twice: once
   * for the control frame, and once more when the read then reports the end
   * of the body.
   */
  lemma CompletionThenEndOfBody(m: Machine, t: string, decode: string -> Option<DisplayEvent>)
    requires Fresh(m)
    requires ControlWord(t)
    ensures var f := FeedSpec(m, "event: " + t + "\n\n", decode);
            f.phase == Reading && FinishSpec(f, decode).core.log == m.core.log + [Completed, Completed]
  {
    ControlLineOf(t);
    ControlLineThenEndOfBody(m, "event: " + t, decode);
  }

  lemma ControlLineThenEndOfBody(m: Machine, l: string, decode: string -> Option<DisplayEvent>)
    requires Fresh(m)
    requires ControlLine(l) && '\n' !in l && '\r' !in l
    ensures var f := FeedSpec(m, l + "\n\n", decode);
            f.phase == Reading && FinishSpec(f, decode).core.log == m.core.log + [Completed, Completed]
  {
    var f := ControlChunk(m, l, decode);
    EmptyFinish(f, decode);
  }

  /** A control line and a blank line, fed to a fresh reader, complete it and leave nothing pending. */
  lemma ControlChunk(m: Machine, l: string, decode: string -> Option<DisplayEvent>) returns (f: Machine)
    requires Fresh(m)
    requires ControlLine(l) && '\n' !in l && '\r' !in l
    ensures f == FeedSpec(m, l + "\n\n", decode)
    ensures f == Machine(Reading, "", Core(true, Frame(None, []), m.core.log + [Completed]))
  {
    f := FeedSpec(m, l + "\n\n", decode);
    TwoLines(l, l + "\n\n");
    FeedWholeLines(m, l + "\n\n", [l, ""], decode);
    ControlLines(m.core, l, decode);
  }

  lemma TwoLines(a: string, text: string)
    requires '\r' !in a && '\n' !in a && text == a + "\n\n"
    ensures '\r' !in text && text == Terminated([a, ""])
    ensures forall i :: 0 <= i < |[a, ""]| ==> '\n' !in [a, ""][i]
  {
    assert [a, ""][1..] == [""];
    assert [""][1..] == [];
  }

  /** With an empty buffer and nothing pending, the end of the body only calls `onComplete`. */
  lemma EmptyFinish(m: Machine, decode: string -> Option<DisplayEvent>)
    requires m.phase == Reading && m.buffer == "" && m.core.frame == Frame(None, [])
    ensures FinishSpec(m, decode).core.log == m.core.log + [Completed]
  {
    assert FrameType(m.core.frame) == "" && FrameData(m.core.frame) == "";
  }

  /**
   * A data frame still pending when the body ends, after its last line but
   * without the blank line, is dispatched by the final dispatch: `onEvent`,
   * then `onComplete`.
   */
  lemma PendingFrameAtEndOfBody(m: Machine, e: DisplayEvent, json: string, decode: string -> Option<DisplayEvent>)
    requires m.phase == Reading && m.buffer == "" && m.core.frame == Frame(None, [json])
    requires json != "" && json != "[DONE]" && decode(json) == Some(e)
    ensures FinishSpec(m, decode).core.log == m.core.log + [EventOut(e), Completed]
  {
    DataFrame(m.core, json, decode);
  }

  /**
   * The intended end of body keeps the cancellation contract: once closed,
   * no read, end of body or failure calls back.
   */
  lemma GuardedClosedStreamIsSilent(m: Machine, chunk: string, decode: string -> Option<DisplayEvent>)
    requires m.phase == Reading
    ensures FeedSpec(CloseSpec(m), chunk, decode).core.log == m.core.log
    ensures GuardedFinishSpec(CloseSpec(m), decode).core.log == m.core.log
    ensures FailSpec(CloseSpec(m)).core.log == m.core.log
  {
  }

  /** With the intended end of body, a stream whose last frame completes it calls `onComplete` once. */
  lemma GuardedCompletionCompletesOnce(m: Machine, t: string, decode: string -> Option<DisplayEvent>)
    requires Fresh(m)
    requires ControlWord(t)
    ensures var f := FeedSpec(m, "event: " + t + "\n\n", decode);
            f.phase == Reading && GuardedFinishSpec(f, decode).core.log == m.core.log + [Completed]
  {
    ControlLineOf(t);
    var f := ControlChunk(m, "event: " + t, decode);
  }

  /**
   * At end of body, a non-empty remainder is handled exactly as if one more
   * chunk "\n" had arrived, followed by a final dispatch and `onComplete`.
   */
  lemma FinishAsIfNewlineTerminated(m: Machine, decode: string -> Option<DisplayEvent>)
    requires m.phase == Reading && !m.core.aborted
    requires m.buffer != [] && '\r' !in m.buffer
    ensures var f := FeedSpec(m, "\n", decode);
            var d := DispatchFrame(f.core, decode);
            FinishSpec(m, decode) == Machine(Ended, f.buffer, d.(log := d.log + [Completed]))
  {
    assert Normalize(m.buffer + "\n") == m.buffer + "\n";
  }

  /**
   * Malformed-frame tolerance: a frame whose data does not decode is dropped,
   * and the well-formed frame after it still reaches `onEvent`, once.
   */
  lemma MalformedFrameIsDropped(m: Machine, e: DisplayEvent, bad: string, json: string, decode: string -> Option<DisplayEvent>)
    requires Fresh(m)
    requires decode(bad).None? && decode(json) == Some(e)
    requires '\n' !in bad && '\r' !in bad && bad != "" && bad != "[DONE]" && !StartsWith(bad, " ")
    requires '\n' !in json && '\r' !in json && json != "" && json != "[DONE]" && !StartsWith(json, " ")
    ensures var l1 := "data: " + bad;
            var l2 := "data: " + json;
            FeedSpec(m, l1 + "\n\n" + l2 + "\n\n", decode).core.log == m.core.log + [EventOut(e)]
  {
    var l1 := "data: " + bad;
    var l3 := "data: " + json;
    MalformedThenWellFormedLines(m.core, e, bad, json, decode);
    DataLinePlain(bad);
    DataLinePlain(json);
    var text := l1 + "\n\n" + l3 + "\n\n";
    FourLines(l1, l3, text);
    FeedWholeLines(m, text, [l1, "", l3, ""], decode);
  }

  lemma MalformedThenWellFormedLines(c0: Core, e: DisplayEvent, bad: string, json: string, decode: string -> Option<DisplayEvent>)
    requires c0.frame == Frame(None, [])
    requires decode(bad).None? && decode(json) == Some(e)
    requires bad != "" && bad != "[DONE]" && !StartsWith(bad, " ")
    requires json != "" && json != "[DONE]" && !StartsWith(json, " ")
    ensures HandleLines(c0, ["data: " + bad, "", "data: " + json, ""], decode).log == c0.log + [EventOut(e)]
  {
    var l1 := "data: " + bad;
    var l3 := "data: " + json;
    DataLine(c0, bad, decode);
    var c1 := HandleLine(c0, l1, decode);
    DataFrame(c1, bad, decode);
    var c2 := HandleLine(c1, "", decode);
    assert c2 == c0;
    DataLine(c2, json, decode);
    var c3 := HandleLine(c2, l3, decode);
    DataFrame(c3, json, decode);
    HandleLinesFour(c0, l1, "", l3, "", decode);
  }

  lemma DataLinePlain(v: string)
    requires '\n' !in v && '\r' !in v
    ensures '\n' !in "data: " + v && '\r' !in "data: " + v
  {
  }

  /** The display frame of the round-trip lemma below, as a buffer of three terminated lines. */
  lemma DisplayFrameText(l1: string, l2: string, text: string)
    requires l1 == "event: display" && '\r' !in l2 && '\n' !in l2
    requires text == l1 + "\n" + l2 + "\n\n"
    ensures '\n' !in l1 && '\r' !in text
    ensures text == Terminated([l1, l2, ""])
    ensures forall i :: 0 <= i < |[l1, l2, ""]| ==> '\n' !in [l1, l2, ""][i]
  {
    KeywordLineChars("display");
    assert l1 == "event: " + "display";
    ThreeLinesText(l1, l2, text);
  }

  /** Two lines and a blank line, LF-terminated, are three terminated lines. */
  lemma ThreeLinesText(a: string, b: string, text: string)
    requires '\n' !in a && '\r' !in a && '\n' !in b && '\r' !in b
    requires text == a + "\n" + b + "\n\n"
    ensures '\r' !in text && text == Terminated([a, b, ""])
    ensures forall i :: 0 <= i < |[a, b, ""]| ==> '\n' !in [a, b, ""][i]
  {
    TerminatedThree(a, b, "");
    assert text == a + "\n" + b + "\n" + "" + "\n";
  }

  /**
   * The round trip of the event-stream format: a display frame carrying the
   * encoding of an event, fed in two chunks split at any position, yields
   * exactly one `onEvent`, with that event.
   */
  lemma DisplayFrameAnySplit(m: Machine, e: DisplayEvent, json: string, k: nat, decode: string -> Option<DisplayEvent>)
    requires Fresh(m)
    requires decode(json) == Some(e)
    requires '\n' !in json && '\r' !in json && json != "[DONE]" && !StartsWith(json, " ")
    requires k <= |"event: display\n" + "data: " + json + "\n\n"|
    ensures var text := "event: display\n" + "data: " + json + "\n\n";
            FeedSpec(FeedSpec(m, text[..k], decode), text[k..], decode).core.log == m.core.log + [EventOut(e)]
  {
    var l1 := "event: display";
    var l2 := "data: " + json;
    var text := "event: display\n" + "data: " + json + "\n\n";
    assert text == l1 + "\n" + l2 + "\n\n";
    DataLinePlain(json);
    DisplayFrameText(l1, l2, text);
    DisplayFrameInTwo(m, e, json, l1, l2, text, k, decode);
  }

  lemma DisplayFrameInTwo(m: Machine, e: DisplayEvent, json: string, l1: string, l2: string, text: string, k: nat,
                          decode: string -> Option<DisplayEvent>)
    requires Fresh(m)
    requires decode(json) == Some(e)
    requires json != "[DONE]" && !StartsWith(json, " ")
    requires l1 == "event: display" && l2 == "data: " + json && '\n' !in l2
    requires '\r' !in text && text == Terminated([l1, l2, ""])
    requires forall i :: 0 <= i < |[l1, l2, ""]| ==> '\n' !in [l1, l2, ""][i]
    requires k <= |text|
    ensures FeedSpec(FeedSpec(m, text[..k], decode), text[k..], decode).core.log == m.core.log + [EventOut(e)]
  {
    WholeDisplayFrame(m, e, json, l1, l2, text, decode);
    if k < |text| {
      assert l2 != "" && l1 != "";
      PrefixOfDisplayFrame(m, l1, l2, text, k, decode);
    } else {
      assert text[..k] == text;
    }
    SplitFeed(m, text, k, decode);
  }

  /**
   * The same round trip with the stream's own decoder: whatever `JSON.parse`
   * reads back as the wire shape of an event arrives as that event.
   */
  lemma EventStreamRoundTrip(m: Machine, e: DisplayEvent, json: string, k: nat, parse: string -> Option<Value>)
    requires Fresh(m)
    requires parse(json) == Some(EventToValue(e))
    requires '\n' !in json && '\r' !in json && json != "[DONE]" && !StartsWith(json, " ")
    requires k <= |"event: display\n" + "data: " + json + "\n\n"|
    ensures var text := "event: display\n" + "data: " + json + "\n\n";
            var decode := Decoder(parse);
            FeedSpec(FeedSpec(m, text[..k], decode), text[k..], decode).core.log == m.core.log + [EventOut(e)]
  {
    DecoderReadsWireShape(e, json, json, parse);
    DisplayFrameAnySplit(m, e, json, k, Decoder(parse));
  }

  /** Feeding a CR-free text in two pieces is feeding it whole, when the first piece does not complete the stream. */
  lemma SplitFeed(m: Machine, text: string, k: nat, decode: string -> Option<DisplayEvent>)
    requires m.phase == Reading && '\r' !in m.buffer && '\r' !in text && k <= |text|
    requires !FeedSpec(m, text[..k], decode).core.aborted
    ensures FeedSpec(FeedSpec(m, text[..k], decode), text[k..], decode) == FeedSpec(m, text, decode)
  {
    CrFreePieces(text, k);
    ChunkIndependence(m, text[..k], text[k..], decode);
  }

  lemma CrFreePieces(text: string, k: nat)
    requires '\r' !in text && k <= |text|
    ensures '\r' !in text[..k] && '\r' !in text[k..] && text[..k] + text[k..] == text
  {
    assert forall i :: 0 <= i < k ==> text[..k][i] == text[i];
    assert forall i :: 0 <= i < |text| - k ==> text[k..][i] == text[k + i];
  }

  /** The whole display frame, fed at once, calls `onEvent` once and does not complete. */
  lemma WholeDisplayFrame(m: Machine, e: DisplayEvent, json: string, l1: string, l2: string, text: string, decode: string -> Option<DisplayEvent>)
    requires Fresh(m)
    requires decode(json) == Some(e)
    requires json != "[DONE]" && !StartsWith(json, " ")
    requires l1 == "event: display" && l2 == "data: " + json
    requires '\r' !in text && text == Terminated([l1, l2, ""])
    requires forall i :: 0 <= i < |[l1, l2, ""]| ==> '\n' !in [l1, l2, ""][i]
    ensures FeedSpec(m, text, decode).core == Core(false, Frame(None, []), m.core.log + [EventOut(e)])
  {
    DisplayFrameLines(m.core, e, json, l1, l2, decode);
    FeedWholeLines(m, text, [l1, l2, ""], decode);
  }

  lemma DisplayFrameLines(c0: Core, e: DisplayEvent, json: string, l1: string, l2: string, decode: string -> Option<DisplayEvent>)
    requires !c0.aborted && c0.frame == Frame(None, [])
    requires decode(json) == Some(e)
    requires json != "[DONE]" && !StartsWith(json, " ")
    requires l1 == "event: display" && l2 == "data: " + json
    ensures HandleLines(c0, [l1, l2, ""], decode) == Core(false, Frame(None, []), c0.log + [EventOut(e)])
  {
    assert l1 == "event: " + "display";
    KeywordLine(c0, "display", decode);
    DisplayFrameAfterType(c0, e, json, l1, l2, decode);
  }

  /** The data line and the blank line of the display frame, once the type line has been handled. */
  lemma DisplayFrameAfterType(c0: Core, e: DisplayEvent, json: string, l1: string, l2: string, decode: string -> Option<DisplayEvent>)
    requires !c0.aborted && c0.frame == Frame(None, [])
    requires HandleLine(c0, l1, decode) == c0.(frame := Frame(Some("display"), []))
    requires decode(json) == Some(e)
    requires json != "[DONE]" && !StartsWith(json, " ")
    requires l2 == "data: " + json
    ensures HandleLines(c0, [l1, l2, ""], decode) == Core(false, Frame(None, []), c0.log + [EventOut(e)])
  {
    var c1 := HandleLine(c0, l1, decode);
    DataLine(c1, json, decode);
    var c2 := HandleLine(c1, l2, decode);
    assert [] + [json] == [json];
    assert c2 == c0.(frame := Frame(Some("display"), [json]));
    DataFrame(c2, json, decode);
    assert HandleLine(c2, "", decode) == Core(false, Frame(None, []), c0.log + [EventOut(e)]);
    HandleLinesThree(c0, l1, l2, "", decode);
  }

  /** A proper prefix of the display frame holds no blank line, so it calls nothing and does not complete. */
  lemma PrefixOfDisplayFrame(m: Machine, l1: string, l2: string, text: string, k: nat, decode: string -> Option<DisplayEvent>)
    requires m.phase == Reading && !m.core.aborted && m.buffer == ""
    requires l1 != "" && l2 != "" && '\n' !in l1 && '\n' !in l2
    requires text == Terminated([l1, l2, ""]) && '\r' !in text
    requires k < |text|
    ensures !FeedSpec(m, text[..k], decode).core.aborted
  {
    var pl := SplitLines(text[..k]).0;
    PrefixLines(l1, l2, text, k);
    HandleLinesWithoutBlank(m.core, pl, decode);
    CrFreePrefix(text, k);
  }

  lemma CrFreePrefix(text: string, k: nat)
    requires '\r' !in text && k <= |text|
    ensures Normalize("" + text[..k]) == text[..k]
  {
    assert "" + text[..k] == text[..k];
    assert forall i :: 0 <= i < k ==> text[..k][i] == text[i];
  }

  /** The complete lines of a proper prefix of the frame are among its first two. */
  lemma PrefixLines(l1: string, l2: string, text: string, k: nat)
    requires l1 != "" && l2 != "" && '\n' !in l1 && '\n' !in l2
    requires text == Terminated([l1, l2, ""]) && '\r' !in text
    requires k < |text|
    ensures forall i :: 0 <= i < |SplitLines(text[..k]).0| ==> SplitLines(text[..k]).0[i] != ""
  {
    var ls := [l1, l2, ""];
    assert forall i :: 0 <= i < |ls| ==> '\n' !in ls[i];
    SplitTerminated(ls, "");
    assert Terminated(ls) + "" == text;
    SplitLinesOfPrefix(text, k);
    ProperPrefixLosesLines(text, k, ls);
    ProperPrefixOfFrameLines(SplitLines(text[..k]).0, l1, l2);
  }

  /** A proper prefix of `[l1, l2, ""]` with non-blank `l1` and `l2` holds no blank line. */
  lemma ProperPrefixOfFrameLines(pl: seq<string>, l1: string, l2: string)
    requires l1 != "" && l2 != ""
    requires pl <= [l1, l2, ""] && pl != [l1, l2, ""]
    ensures forall i :: 0 <= i < |pl| ==> pl[i] != ""
  {
    var ls := [l1, l2, ""];
    assert |pl| < 3;
    assert forall i :: 0 <= i < |pl| ==> pl[i] == ls[i];
  }

  /** A proper prefix of whole lines cannot split into all of them. */
  lemma ProperPrefixLosesLines(text: string, k: nat, ls: seq<string>)
    requires text == Terminated(ls) && k < |text|
    ensures SplitLines(text[..k]).0 != ls
  {
    SplitLinesReassembles(text[..k]);
  }

  // ---------------------------------------------------------------------
  // The stream object
  // ---------------------------------------------------------------------

  /**
   * The state of one `streamChat` call: the coroutine's phase, the abort
   * flag of its controller, the rolling text buffer, the pending frame, and
   * the log of callbacks made so far. `parse` stands for `JSON.parse`, and
   * frames are decoded with `Decoder(parse)`.
   */
  class SseStream {
    const parse: string -> Option<Value>
    var phase: Phase
    var aborted: bool
    var buffer: string
    var currentEventType: Option<string>
    var currentDataLines: seq<string>
    var log: seq<Emission>

    function State(): Machine
      reads this
    {
      Machine(phase, buffer, Core(aborted, Frame(currentEventType, currentDataLines), log))
    }

    constructor (parse: string -> Option<Value>)
      ensures this.parse == parse && State() == Start()
    {
      this.parse := parse;
      phase := Connecting;
      aborted := false;
      buffer := "";
      currentEventType := None;
      currentDataLines := [];
      log := [];
    }

    /** The handle's `close()`: aborts the controller; calling it again changes nothing. */
    method Close()
      modifies this
      ensures State() == CloseSpec(old(State()))
    {
      aborted := true;
    }

    method Respond(ok: bool, status: int, hasBody: bool)
      requires phase == Connecting
      modifies this
      ensures State() == RespondSpec(old(State()), ok, status, hasBody)
    {
      if aborted {
        phase := Ended;
      } else if !ok {
        log := log + [Failed(BadStatus(status))];
        phase := Ended;
      } else if !hasBody {
        log := log + [Failed(NoBody)];
        phase := Ended;
      } else {
        phase := Reading;
      }
    }

    /** `completeAndAbort` */
    method CompleteAndAbort()
      modifies this
      ensures State() == old(State()).(core := old(State()).core.(aborted := true, log := old(log) + [Completed]))
    {
      log := log + [Completed];
      aborted := true;
    }

    /** `dispatchCurrentEvent` */
    method DispatchCurrentEvent()
      modifies this
      ensures State() == old(State()).(core := DispatchFrame(old(State()).core, Decoder(parse)))
    {
      var eventType := ToLower(currentEventType.GetOr(""));
      var data := JoinLines(currentDataLines);
      currentEventType := None;
      currentDataLines := [];
      if eventType == "" && data == "" {
        return;
      }
      if eventType != "" && eventType != "display" {
        if eventType == "end" || eventType == "done" {
          CompleteAndAbort();
        }
        return;
      }
      if data == "[DONE]" {
        CompleteAndAbort();
        return;
      }
      var parsed := ParseDisplayEvent(Str(data), parse);
      if parsed.Some? {
        log := log + [EventOut(parsed.value)];
      }
    }

    /** The body of the line loop, for one raw line. */
    method ProcessLine(rawLine: string)
      modifies this
      ensures State() == old(State()).(core := HandleLine(old(State()).core, rawLine, Decoder(parse)))
    {
      if rawLine == "" {
        DispatchCurrentEvent();
        return;
      }
      if StartsWith(rawLine, ":") {
        return;
      }
      if StartsWith(rawLine, "event:") {
        currentEventType := Some(Trim(rawLine[6..]));
        return;
      }
      if !StartsWith(rawLine, "data:") {
        return;
      }
      var dataPart := rawLine[5..];
      if StartsWith(dataPart, " ") {
        dataPart := dataPart[1..];
      }
      currentDataLines := currentDataLines + [dataPart];
    }

    /** The line loop: slice the buffer at each LF and handle the line before it. */
    method DrainLines()
      modifies this
      ensures State() == DrainSpec(old(State()), Decoder(parse))
    {
      ghost var target := DrainSpec(State(), Decoder(parse));
      while true
        invariant DrainSpec(State(), Decoder(parse)) == target
        decreases |buffer|
      {
        var newlineIndex := IndexOf(buffer, '\n');
        if newlineIndex == -1 {
          break;
        }
        var rawLine := buffer[..newlineIndex];
        SplitAtFirstBreak(buffer, newlineIndex);
        buffer := buffer[newlineIndex + 1..];
        ProcessLine(rawLine);
      }
    }

    /** One decoded chunk from the reader. */
    method Feed(chunk: string)
      requires phase == Reading
      modifies this
      ensures State() == FeedSpec(old(State()), chunk, Decoder(parse))
    {
      if aborted {
        phase := Ended;
        return;
      }
      buffer := buffer + chunk;
      buffer := Normalize(buffer);
      DrainLines();
    }

    /** The reader reports the end of the body. */
    method Finish()
      requires phase == Reading
      modifies this
      ensures State() == FinishSpec(old(State()), Decoder(parse))
    {
      if |buffer| > 0 {
        buffer := buffer + "\n";
        DrainLines();
      }
      DispatchCurrentEvent();
      log := log + [Completed];
      phase := Ended;
    }

    /** A failed fetch or read. */
    method Fail()
      requires phase != Ended
      modifies this
      ensures State() == FailSpec(old(State()))
    {
      if !aborted {
        log := log + [Failed(ReadFailure)];
      }
      phase := Ended;
    }
  }
}
