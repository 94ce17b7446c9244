/**
 * The chat page: the field-fallback rules that turn server message records
 * into conversation messages, the move-to-front of the session list, and the
 * orchestrator that buffers streamed display events, flushes them through
 * the display reducer once per animation frame, and finalises the turn on
 * the completion sentinel, on completion and on error.
 */
module ChatPage {
  import opened Base
  import opened Js
  import opened DisplayEvent
  import opened DisplayState
  import opened ChatMessage

  // ---------------------------------------------------------------------
  // Record normalisers
  // ---------------------------------------------------------------------

  /** The host functions the normalisers call, as oracles. */
  datatype Oracles = Oracles(
    /** `JSON.stringify(v)` (its `String(v)` fallback included). */
    stringify: Value -> string,
    /** `JSON.stringify(v, null, 2)` (its `String(v)` fallback included). */
    prettyPrint: Value -> string,
    /** `String(v)` */
    show: Value -> string,
    /** `formatClockTime(v)` for a present value. */
    formatClock: Value -> string)

  /** Where `a ?? b ?? … ?? z` stops: the first value that is neither null nor undefined, else the last. */
  function PresentIndex(vs: seq<Value>): (k: nat)
    requires |vs| > 0
    ensures k < |vs|
    ensures forall j :: 0 <= j < k ==> Nullish(vs[j])
    ensures k < |vs| - 1 ==> !Nullish(vs[k])
    decreases |vs|
  {
    if |vs| == 1 || !Nullish(vs[0]) then 0
    else
      var k := PresentIndex(vs[1..]);
      assert forall j :: 0 <= j < |vs| - 1 ==> vs[1..][j] == vs[j + 1];
      k + 1
  }

  /** `a ?? b ?? … ?? z`: the first value that is neither null nor undefined, else the last one. */
  function FirstPresent(vs: seq<Value>): (r: Value)
    requires |vs| > 0
    ensures Nullish(r) <==> forall i :: 0 <= i < |vs| ==> Nullish(vs[i])
    ensures Nullish(r) ==> r == vs[|vs| - 1]
    ensures !Nullish(vs[0]) ==> r == vs[0]
    ensures |vs| > 1 && Nullish(vs[0]) && !Nullish(vs[1]) ==> r == vs[1]
    ensures !Nullish(r) ==> exists i :: 0 <= i < |vs| && r == vs[i] && forall j :: 0 <= j < i ==> Nullish(vs[j])
  {
    vs[PresentIndex(vs)]
  }

  /** A reference to a source document shown under an answer. */
  datatype Source = Source(title: string, href: Option<string>)

  /** `String(v)`, which is the string itself for a string. */
  function ToText(v: Value, o: Oracles): string {
    if v.Str? then v.s else o.show(v)
  }

  /**
   * One item of `normalizeSources`: a non-empty string is a title; an object
   * takes the first present of `title`/`name`/`sourceName`/`fileName` as its
   * title and is dropped when that is falsy, and keeps the first present of
   * `href`/`url` only when it is a string; anything else is dropped.
   */
  function SourceOf(item: Value, o: Oracles): (r: Option<Source>)
    ensures !Truthy(item) || item.Num? || item.Bool? ==> r.None?
    ensures item.Str? && item.s != "" ==> r == Some(Source(item.s, None))
    ensures IsObject(item) ==>
              var title := FirstPresent([Get(item, "title"), Get(item, "name"), Get(item, "sourceName"), Get(item, "fileName")]);
              var href := FirstPresent([Get(item, "href"), Get(item, "url")]);
              && (r.Some? <==> Truthy(title))
              && (r.Some? ==> r.value.title == ToText(title, o) && (r.value.href.Some? <==> href.Str?)
                              && (href.Str? ==> r.value.href == Some(href.s)))
  {
    if !Truthy(item) then None
    else if item.Str? then Some(Source(item.s, None))
    else if IsObject(item) then
      var title := FirstPresent([Get(item, "title"), Get(item, "name"), Get(item, "sourceName"), Get(item, "fileName")]);
      if !Truthy(title) then None
      else
        var href := FirstPresent([Get(item, "href"), Get(item, "url")]);
        Some(Source(ToText(title, o), if href.Str? then Some(href.s) else None))
    else None
  }

  /** `items.map(…).filter(Boolean)`: the kept sources, in order. */
  function KeptSources(items: seq<Value>, o: Oracles): (r: seq<Source>)
    ensures |r| <= |items|
    ensures r == [] <==> forall j :: 0 <= j < |items| ==> SourceOf(items[j], o).None?
    decreases |items|
  {
    if items == [] then []
    else
      var rest := KeptSources(items[1..], o);
      match SourceOf(items[0], o)
      case Some(s) => [s] + rest
      case None => rest
  }

  /** Mapping and filtering distribute over concatenation. */
  lemma {:induction false} KeptSourcesAppend(a: seq<Value>, b: seq<Value>, o: Oracles)
    ensures KeptSources(a + b, o) == KeptSources(a, o) + KeptSources(b, o)
    decreases |a|
  {
    if a != [] {
      assert (a + b)[0] == a[0] && (a + b)[1..] == a[1..] + b;
      KeptSourcesAppend(a[1..], b, o);
    } else {
      assert a + b == b;
    }
  }

  /** A list of non-empty titles is kept whole, each as a source without a link. */
  lemma {:induction false} TitlesKept(items: seq<Value>, o: Oracles)
    requires forall i :: 0 <= i < |items| ==> items[i].Str? && items[i].s != ""
    ensures KeptSources(items, o) == seq(|items|, i requires 0 <= i < |items| => Source(items[i].s, None))
    decreases |items|
  {
    if items != [] {
      TitlesKept(items[1..], o);
    }
  }

  /**
   * `normalizeSources`: undefined for a non-array and for an array from
   * which nothing is kept; otherwise the kept sources in order.
   */
  function NormalizeSources(value: Value, o: Oracles): (r: Option<seq<Source>>)
    ensures !value.Arr? ==> r.None?
    ensures value.Arr? && KeptSources(value.items, o) != [] ==> r == Some(KeptSources(value.items, o))
    ensures value.Arr? && KeptSources(value.items, o) == [] ==> r.None?
    ensures r.Some? ==> |r.value| > 0
  {
    if !value.Arr? then None
    else
      var mapped := KeptSources(value.items, o);
      if |mapped| > 0 then Some(mapped) else None
  }

  /** `[…].find((value) => typeof value === 'string')`, as an index (-1 when there is none). */
  function FirstStringIndex(vs: seq<Value>): (i: int)
    ensures -1 <= i < |vs|
    ensures i >= 0 ==> vs[i].Str?
    ensures forall j :: 0 <= j < |vs| && (i == -1 || j < i) ==> !vs[j].Str?
    decreases |vs|
  {
    if vs == [] then -1
    else if vs[0].Str? then 0
    else
      var k := FirstStringIndex(vs[1..]);
      assert forall j :: 0 <= j < |vs| - 1 ==> vs[1..][j] == vs[j + 1];
      if k == -1 then -1 else k + 1
  }

  const UserWords: set<string> := {"user", "human", "client"}
  const AgentWords: set<string> := {"assistant", "agent", "ai", "bot", "system"}

  /**
   * The lower-cased role word of a record: the first string among `role`,
   * `messageRole`, `senderRole` and `type`, when it is not empty.
   */
  function RoleWord(record: Value): (w: Option<string>)
    ensures Get(record, "role").Str? ==>
              w == if Get(record, "role").s == "" then None else Some(ToLower(Get(record, "role").s))
  {
    var fields := [Get(record, "role"), Get(record, "messageRole"), Get(record, "senderRole"), Get(record, "type")];
    var i := FirstStringIndex(fields);
    if i == -1 || fields[i].s == "" then None else Some(ToLower(fields[i].s))
  }

  /**
   * `resolveRole`: a user word (any case) makes a user message and an agent
   * word an agent message; otherwise `isUser === true` makes a user message
   * and everything else an agent message.
   */
  function ResolveRole(record: Value): (r: Role)
    ensures RoleWord(record).Some? && RoleWord(record).value in UserWords ==> r == User
    ensures RoleWord(record).Some? && RoleWord(record).value in AgentWords ==> r == Agent
    ensures RoleWord(record).None? || RoleWord(record).value !in UserWords + AgentWords ==>
              (r == User <==> Get(record, "isUser") == Bool(true))
  {
    var word := RoleWord(record);
    if word.Some? && word.value in UserWords then User
    else if word.Some? && word.value in AgentWords then Agent
    else if Get(record, "isUser") == Bool(true) then User
    else Agent
  }

  /** The fields `resolveContent` reads, in priority order. */
  function ContentFields(record: Value): seq<Value> {
    [Get(record, "content"), Get(record, "message"), Get(record, "text"), Get(record, "answer"), Get(record, "reply")]
  }

  /**
   * `resolveContent`: the first present of `content`/`message`/`text`/
   * `answer`/`reply`; a string as it is, nothing as "", anything else serialised.
   */
  function ResolveContent(record: Value, o: Oracles): (r: string)
    ensures Get(record, "content").Str? ==> r == Get(record, "content").s
    ensures Nullish(Get(record, "content")) && Get(record, "message").Str? ==> r == Get(record, "message").s
    ensures (forall i :: 0 <= i < 5 ==> Nullish(ContentFields(record)[i])) ==> r == ""
    ensures var raw := FirstPresent(ContentFields(record));
            && (raw.Str? ==> r == raw.s)
            && (!Nullish(raw) && !raw.Str? ==> r == o.stringify(raw))
  {
    var raw := FirstPresent(ContentFields(record));
    if raw.Str? then raw.s
    else if Nullish(raw) then ""
    else o.stringify(raw)
  }

  /** `resolveTimestamp`: the first present of `messageAt`/`createdAt`/`createTime`/`timestamp`, clock-formatted. */
  function ResolveTimestamp(record: Value, o: Oracles): (r: Option<string>)
    ensures var fields := [Get(record, "messageAt"), Get(record, "createdAt"), Get(record, "createTime"), Get(record, "timestamp")];
            && (r.None? <==> forall i :: 0 <= i < 4 ==> Nullish(fields[i]))
            && (!Nullish(fields[0]) ==> r == Some(o.formatClock(fields[0])))
  {
    var raw := FirstPresent([Get(record, "messageAt"), Get(record, "createdAt"), Get(record, "createTime"), Get(record, "timestamp")]);
    if Nullish(raw) then None else Some(o.formatClock(raw))
  }

  /** `resolveMessageId`: the first present of `id`/`messageId`/`chatMessageId`/`msgId`. */
  function ResolveMessageId(record: Value): (r: Value)
    ensures var fields := [Get(record, "id"), Get(record, "messageId"), Get(record, "chatMessageId"), Get(record, "msgId")];
            && (!Nullish(fields[0]) ==> r == fields[0])
            && (Nullish(r) <==> forall i :: 0 <= i < 4 ==> Nullish(fields[i]))
            && (!Nullish(r) ==> exists i :: 0 <= i < 4 && r == fields[i] && forall j :: 0 <= j < i ==> Nullish(fields[j]))
            && (Nullish(r) ==> r == fields[3])
  {
    FirstPresent([Get(record, "id"), Get(record, "messageId"), Get(record, "chatMessageId"), Get(record, "msgId")])
  }

  /** A message of the conversation (`ConversationMessage`); an absent `isStreaming` is false. */
  datatype Message = Message(id: Value, role: Role, content: string, timestamp: Option<string>,
                             sources: Option<seq<Source>>, isStreaming: bool, display: Option<State>)

  /** `mapMessageRecord`: a server record as a settled message, without a display. */
  function MapMessageRecord(record: Value, o: Oracles): (r: Message)
    ensures !r.isStreaming && r.display.None?
    ensures r.role == ResolveRole(record) && r.content == ResolveContent(record, o)
    ensures r.sources.Some? ==> |r.sources.value| > 0
  {
    Message(ResolveMessageId(record), ResolveRole(record), ResolveContent(record, o), ResolveTimestamp(record, o),
            NormalizeSources(FirstPresent([Get(record, "sources"), Get(record, "sourceList"), Get(record, "refs")]), o),
            false, None)
  }

  /** `records.map(mapMessageRecord)` */
  function MapRecords(records: seq<Value>, o: Oracles): (r: seq<Message>)
    ensures |r| == |records|
    ensures forall i :: 0 <= i < |r| ==> r[i] == MapMessageRecord(records[i], o)
  {
    seq(|records|, i requires 0 <= i < |records| => MapMessageRecord(records[i], o))
  }

  // ---------------------------------------------------------------------
  // Sessions
  // ---------------------------------------------------------------------

  /** A conversation in the session list (`ChatSessionRecord`). */
  datatype Session = Session(chatId: string, title: Option<string>, lastMessageAt: Option<string>,
                             createdAt: Option<string>)

  /** `findIndex((session) => session.chatId === chatId)` */
  function FindSessionIndex(sessions: seq<Session>, chatId: string): (i: int)
    ensures -1 <= i < |sessions|
    ensures i >= 0 ==> sessions[i].chatId == chatId
    ensures forall j :: 0 <= j < |sessions| && (i == -1 || j < i) ==> sessions[j].chatId != chatId
    decreases |sessions|
  {
    if sessions == [] then -1
    else if sessions[0].chatId == chatId then 0
    else
      var j := FindSessionIndex(sessions[1..], chatId);
      assert forall k :: 0 <= k < |sessions| - 1 ==> sessions[1..][k] == sessions[k + 1];
      if j == -1 then -1 else j + 1
  }

  /** The chat ids of a session list, in order. */
  function ChatIds(sessions: seq<Session>): (r: seq<string>)
    ensures |r| == |sessions| && forall i :: 0 <= i < |r| ==> r[i] == sessions[i].chatId
  {
    seq(|sessions|, i requires 0 <= i < |sessions| => sessions[i].chatId)
  }

  /**
   * `bumpSession`'s update: the first session with the id moves to the front
   * stamped with `now`; the others keep their relative order; the same ids
   * remain. An unknown id leaves the list as it is.
   */
  function Bumped(sessions: seq<Session>, chatId: string, now: string): (r: seq<Session>)
    ensures |r| == |sessions|
    ensures FindSessionIndex(sessions, chatId) == -1 ==> r == sessions
    ensures FindSessionIndex(sessions, chatId) >= 0 ==>
              var i := FindSessionIndex(sessions, chatId);
              && r[0] == sessions[i].(lastMessageAt := Some(now))
              && r[1..] == sessions[..i] + sessions[i + 1..]
  {
    var i := FindSessionIndex(sessions, chatId);
    if i == -1 then sessions
    else
      [sessions[i].(lastMessageAt := Some(now))] + sessions[..i] + sessions[i + 1..]
  }

  /** A bump reorders the list: the same chat ids remain, as many times each. */
  lemma BumpedKeepsIds(sessions: seq<Session>, chatId: string, now: string)
    ensures multiset(ChatIds(Bumped(sessions, chatId, now))) == multiset(ChatIds(sessions))
  {
    var i := FindSessionIndex(sessions, chatId);
    if i >= 0 {
      MovedKeepsIds(sessions, i, sessions[i].(lastMessageAt := Some(now)));
    }
  }

  /** Moving one session to the front, restamped, keeps the chat ids. */
  lemma MovedKeepsIds(sessions: seq<Session>, i: nat, x: Session)
    requires i < |sessions| && x.chatId == sessions[i].chatId
    ensures multiset(ChatIds([x] + sessions[..i] + sessions[i + 1..])) == multiset(ChatIds(sessions))
  {
    var before, after := sessions[..i], sessions[i + 1..];
    assert [x] + sessions[..i] + sessions[i + 1..] == [x] + (before + after);
    IdsOfMoved(x, before, after);
    IdsAroundIndex(sessions, i);
    MovedToFront(x.chatId, ChatIds(before), ChatIds(after));
  }

  lemma IdsOfMoved(x: Session, before: seq<Session>, after: seq<Session>)
    ensures ChatIds([x] + (before + after)) == [x.chatId] + (ChatIds(before) + ChatIds(after))
  {
    ChatIdsAppend([x], before + after);
    ChatIdsAppend(before, after);
  }

  lemma IdsAroundIndex(sessions: seq<Session>, i: nat)
    requires i < |sessions|
    ensures ChatIds(sessions) == ChatIds(sessions[..i]) + ([sessions[i].chatId] + ChatIds(sessions[i + 1..]))
  {
    assert sessions == sessions[..i] + ([sessions[i]] + sessions[i + 1..]);
    ChatIdsAppend(sessions[..i], [sessions[i]] + sessions[i + 1..]);
    ChatIdsAppend([sessions[i]], sessions[i + 1..]);
  }

  lemma ChatIdsAppend(a: seq<Session>, b: seq<Session>)
    ensures ChatIds(a + b) == ChatIds(a) + ChatIds(b)
  {
  }

  lemma MovedToFront<T>(x: T, a: seq<T>, b: seq<T>)
    ensures multiset([x] + (a + b)) == multiset(a + ([x] + b))
  {
  }

  /** After a bump the session is found at the front. */
  lemma BumpedToFront(sessions: seq<Session>, chatId: string, now: string)
    requires FindSessionIndex(sessions, chatId) >= 0
    ensures FindSessionIndex(Bumped(sessions, chatId, now), chatId) == 0
    ensures Bumped(sessions, chatId, now)[0].lastMessageAt == Some(now)
  {
  }

  /** Bumping the session already at the front only restamps it. */
  lemma BumpAtFront(sessions: seq<Session>, chatId: string, now: string)
    requires |sessions| > 0 && sessions[0].chatId == chatId
    ensures Bumped(sessions, chatId, now) == [sessions[0].(lastMessageAt := Some(now))] + sessions[1..]
  {
    assert sessions[..0] == [];
  }

  /** Bumping the same session twice is one bump with the later time: the order is settled after the first. */
  lemma BumpTwice(sessions: seq<Session>, chatId: string, t1: string, t2: string)
    ensures Bumped(Bumped(sessions, chatId, t1), chatId, t2) == Bumped(sessions, chatId, t2)
  {
    var i := FindSessionIndex(sessions, chatId);
    if i >= 0 {
      var once := Bumped(sessions, chatId, t1);
      BumpAtFront(once, chatId, t2);
      var direct := Bumped(sessions, chatId, t2);
      assert direct == [direct[0]] + direct[1..];
    }
  }

  // ---------------------------------------------------------------------
  // Flushing display events into the last message
  // ---------------------------------------------------------------------

  /** The `for … of events` loop of a flush: the events folded through the reducer in FIFO order. */
  method FoldEvents(start: State, events: seq<DisplayEvent>) returns (display: State)
    ensures display == ReduceAll(start, events)
  {
    display := start;
    var i := 0;
    while i < |events|
      invariant 0 <= i <= |events|
      invariant display == ReduceAll(start, events[..i])
    {
      ReduceAllSnoc(start, events[..i], events[i]);
      assert events[..i + 1] == events[..i] + [events[i]];
      display := Reduce(display, Apply(events[i]));
      i := i + 1;
    }
    assert events[..|events|] == events;
  }

  /** The message after a flush: its display folded forward, its content the active panel's. */
  function Flushed(last: Message, events: seq<DisplayEvent>, finalize: bool, clock: string): (m: Message)
    ensures m.display == Some(ReduceAll(last.display.GetOr(InitialState()), events))
    ensures m.content == m.display.value.panels.Get(m.display.value.stage).content
    ensures m.isStreaming == !finalize
    ensures m.timestamp == if finalize then Some(clock) else last.timestamp
    ensures m.(content := last.content, display := last.display, isStreaming := last.isStreaming,
               timestamp := last.timestamp) == last
  {
    var display := ReduceAll(last.display.GetOr(InitialState()), events);
    last.(content := display.panels.Get(display.stage).content, display := Some(display),
          timestamp := if finalize then Some(clock) else last.timestamp, isStreaming := !finalize)
  }

  /**
   * The message update of `flushPendingDisplayEvents`: only the last message
   * changes, and only when it is an agent message.
   */
  function FlushMessages(messages: seq<Message>, events: seq<DisplayEvent>, finalize: bool, clock: string)
    : (r: seq<Message>)
    ensures |r| == |messages|
    ensures forall i :: 0 <= i < |messages| - 1 ==> r[i] == messages[i]
    ensures messages == [] || messages[|messages| - 1].role != Agent ==> r == messages
    ensures messages != [] && messages[|messages| - 1].role == Agent ==>
              r[|r| - 1] == Flushed(messages[|messages| - 1], events, finalize, clock)
  {
    if |messages| == 0 then messages
    else if messages[|messages| - 1].role != Agent then messages
    else messages[|messages| - 1 := Flushed(messages[|messages| - 1], events, finalize, clock)]
  }

  /**
   * Animation-frame batching does not change what is shown: flushing a
   * buffer in two frames leaves the last message as one flush of the whole
   * buffer does.
   */
  lemma FlushBatchesCompose(messages: seq<Message>, a: seq<DisplayEvent>, b: seq<DisplayEvent>,
                            finalize: bool, clock1: string, clock2: string)
    ensures FlushMessages(FlushMessages(messages, a, false, clock1), b, finalize, clock2)
         == FlushMessages(messages, a + b, finalize, clock2)
  {
    if messages != [] && messages[|messages| - 1].role == Agent {
      var last := messages[|messages| - 1];
      ReduceAllConcat(last.display.GetOr(InitialState()), a, b);
      var once := FlushMessages(messages, a, false, clock1);
      assert once[|once| - 1].role == Agent;
      var left := FlushMessages(once, b, finalize, clock2);
      var right := FlushMessages(messages, a + b, finalize, clock2);
      assert left[|left| - 1] == right[|right| - 1];
      assert forall i :: 0 <= i < |left| ==> left[i] == right[i];
    }
  }

  // ---------------------------------------------------------------------
  // The orchestrator
  // ---------------------------------------------------------------------

  /** What the page asks of the outside world. */
  datatype Effect =
    | StreamClosed
    | HydrationFetch(chatId: string)
    | FallbackFetch(chatId: string, message: string)
    | Notice(text: string)

  /** The page state the handlers read and write (state fields and refs together). */
  datatype Page = Page(
    activeChatId: Option<string>,
    messages: seq<Message>,
    sessions: seq<Session>,
    draft: string,
    pending: seq<DisplayEvent>,
    scheduledFor: Option<string>,
    isStreaming: bool,
    streamOpen: bool,
    receivedDisplayEvent: bool,
    hydrationInFlight: bool,
    effects: seq<Effect>)

  /** A scheduled flush is always for the active conversation. */
  predicate Coherent(p: Page) {
    p.scheduledFor.Some? ==> p.scheduledFor == p.activeChatId
  }

  /** The completion sentinel: output stage, status format, not a delta, content "Output complete.". */
  predicate IsOutputComplete(e: DisplayEvent) {
    e == DisplayEvent(Output, Format.Status, "Output complete.", false)
  }

  /** `closeStream`: the stream is closed, the buffer dropped, a scheduled frame cancelled, streaming over. */
  function CloseSpec(p: Page): (r: Page)
    ensures r.pending == [] && r.scheduledFor.None? && !r.isStreaming && !r.streamOpen
    ensures r.effects == p.effects + if p.streamOpen then [StreamClosed] else []
    ensures r.(pending := p.pending, scheduledFor := p.scheduledFor, isStreaming := p.isStreaming,
               streamOpen := p.streamOpen, effects := p.effects) == p
    ensures Coherent(r)
  {
    p.(effects := p.effects + (if p.streamOpen then [StreamClosed] else []), streamOpen := false,
       pending := [], scheduledFor := None, isStreaming := false)
  }

  /**
   * `flushPendingDisplayEvents({chatId, finalize})`. Every flush empties the
   * buffer. For a conversation that is no longer active, or with nothing
   * buffered and no finalisation, the messages stay as they are; otherwise
   * the buffer is folded into the last message.
   */
  function FlushSpec(p: Page, chatId: string, finalize: bool, clock: string): (r: Page)
    ensures r.pending == []
    ensures r.(pending := p.pending, messages := p.messages) == p
    ensures p.activeChatId != Some(chatId) ==> r.messages == p.messages
    ensures p.pending == [] && !finalize ==> r == p
    ensures p.activeChatId == Some(chatId) && (p.pending != [] || finalize) ==>
              r.messages == FlushMessages(p.messages, p.pending, finalize, clock)
    ensures Coherent(p) ==> Coherent(r)
  {
    if p.activeChatId != Some(chatId) then p.(pending := [])
    else if p.pending == [] && !finalize then p
    else p.(pending := [], messages := FlushMessages(p.messages, p.pending, finalize, clock))
  }

  /** `hydrateLatestMessageFromServer`, up to its request: skipped while one is in flight. */
  function HydrationStartSpec(p: Page, chatId: string): (r: Page)
    ensures r.hydrationInFlight
    ensures p.hydrationInFlight ==> r == p
    ensures !p.hydrationInFlight ==> r == p.(hydrationInFlight := true, effects := p.effects + [HydrationFetch(chatId)])
  {
    if p.hydrationInFlight then p else p.(hydrationInFlight := true, effects := p.effects + [HydrationFetch(chatId)])
  }

  /** The index of the last message of a role, or -1. */
  function LastIndexOf(messages: seq<Message>, role: Role): (i: int)
    ensures -1 <= i < |messages|
    ensures i >= 0 ==> messages[i].role == role
    ensures forall j :: i < j < |messages| ==> messages[j].role != role
    decreases |messages|
  {
    if messages == [] then -1
    else if messages[|messages| - 1].role == role then |messages| - 1
    else LastIndexOf(messages[..|messages| - 1], role)
  }

  /** The backward loop over the messages that finds the last agent message. */
  method LastAgentIndex(messages: seq<Message>) returns (index: int)
    ensures index == LastIndexOf(messages, Agent)
  {
    var i := |messages| - 1;
    while i >= 0
      invariant -1 <= i < |messages|
      invariant LastIndexOf(messages, Agent) == LastIndexOf(messages[..i + 1], Agent)
    {
      if messages[i].role == Agent {
        return i;
      }
      assert messages[..i + 1][..i] == messages[..i];
      i := i - 1;
    }
    return -1;
  }

  /**
   * The merge rule of hydration, for a fetched page of messages with an
   * agent message in it: for the active conversation the last local agent
   * message is replaced by the server's last agent message, settled and
   * without a display; a conversation without local agent messages takes
   * the fetched page; anything else is left as it is.
   */
  function HydrateMessages(prev: seq<Message>, mapped: seq<Message>, isActive: bool): (r: seq<Message>)
    requires LastIndexOf(mapped, Agent) >= 0
    ensures !isActive ==> r == prev
    ensures isActive && LastIndexOf(prev, Agent) == -1 ==> r == mapped
    ensures isActive && LastIndexOf(prev, Agent) >= 0 ==>
              var i := LastIndexOf(prev, Agent);
              && |r| == |prev|
              && r[i] == mapped[LastIndexOf(mapped, Agent)].(isStreaming := false, display := None)
              && forall j :: 0 <= j < |prev| && j != i ==> r[j] == prev[j]
  {
    var server := mapped[LastIndexOf(mapped, Agent)];
    if !isActive then prev
    else if |prev| == 0 then mapped
    else
      var i := LastIndexOf(prev, Agent);
      if i == -1 then mapped
      else prev[i := server.(isStreaming := false, display := None)]
  }

  /**
   * The end of hydration: a failed request or a page without an agent
   * message changes nothing but the in-flight flag; otherwise the merge rule
   * applies against the conversation active at that moment.
   */
  function HydrationEndSpec(p: Page, chatId: string, records: Option<seq<Value>>, o: Oracles): (r: Page)
    ensures !r.hydrationInFlight
    ensures r.(hydrationInFlight := p.hydrationInFlight, messages := p.messages) == p
    ensures records.None? || p.activeChatId != Some(chatId) ==> r.messages == p.messages
    ensures Coherent(p) ==> Coherent(r)
  {
    if records.None? then p.(hydrationInFlight := false)
    else
      var mapped := MapRecords(records.value, o);
      if LastIndexOf(mapped, Agent) == -1 then p.(hydrationInFlight := false)
      else p.(messages := HydrateMessages(p.messages, mapped, p.activeChatId == Some(chatId)), hydrationInFlight := false)
  }

  /**
   * `onEvent` of the stream of `chatId`. An event for a conversation that is
   * no longer active is ignored. Otherwise it is buffered; the sentinel then
   * cancels the frame, flushes with finalisation, closes the stream and asks
   * for hydration; any other event schedules a frame unless one is scheduled.
   */
  function OnEventSpec(p: Page, chatId: string, e: DisplayEvent, clock: string): (r: Page)
    ensures p.activeChatId != Some(chatId) ==> r == p
    ensures p.activeChatId == Some(chatId) && !IsOutputComplete(e) ==>
              r == p.(receivedDisplayEvent := true, pending := p.pending + [e],
                      scheduledFor := if p.scheduledFor.Some? then p.scheduledFor else Some(chatId))
    ensures p.activeChatId == Some(chatId) && IsOutputComplete(e) ==>
              && r.pending == [] && r.scheduledFor.None? && !r.isStreaming && !r.streamOpen
              && r.receivedDisplayEvent && r.hydrationInFlight
              && (!p.hydrationInFlight ==> HydrationFetch(chatId) in r.effects)
              && r.messages == FlushMessages(p.messages, p.pending + [e], true, clock)
    ensures Coherent(p) ==> Coherent(r)
  {
    if p.activeChatId != Some(chatId) then p
    else
      var q := p.(receivedDisplayEvent := true, pending := p.pending + [e]);
      if IsOutputComplete(e) then
        HydrationStartSpec(CloseSpec(FlushSpec(q.(scheduledFor := None), chatId, true, clock)), chatId)
      else if q.scheduledFor.Some? then q
      else q.(scheduledFor := Some(chatId))
  }

  /** The scheduled animation frame fires: it clears its handle and flushes without finalising. */
  function RunScheduledSpec(p: Page, clock: string): (r: Page)
    ensures r.scheduledFor.None?
    ensures p.scheduledFor.None? ==> r == p.(scheduledFor := None)
    ensures p.scheduledFor.Some? ==> r == FlushSpec(p.(scheduledFor := None), p.scheduledFor.value, false, clock)
    ensures Coherent(p) ==> Coherent(r)
  {
    if p.scheduledFor.None? then p
    else FlushSpec(p.(scheduledFor := None), p.scheduledFor.value, false, clock)
  }

  /**
   * `onComplete` (with `failed` false) and `onError` (with `failed` true):
   * streaming stops, the frame is cancelled, a finalising flush runs and the
   * stream handle is dropped; an error, or a completion that never delivered
   * a display event, asks for the one-shot fallback.
   */
  function StreamEndSpec(p: Page, chatId: string, message: string, failed: bool, clock: string): (r: Page)
    ensures !r.isStreaming && r.scheduledFor.None? && !r.streamOpen && r.pending == []
    ensures r.messages == FlushSpec(p.(isStreaming := false, scheduledFor := None), chatId, true, clock).messages
    ensures |r.effects| >= |p.effects| && r.effects[..|p.effects|] == p.effects
    ensures (FallbackFetch(chatId, message) in r.effects[|p.effects|..]) <==> failed || !p.receivedDisplayEvent
    ensures r.receivedDisplayEvent == p.receivedDisplayEvent && r.activeChatId == p.activeChatId
    ensures Coherent(r)
  {
    var f := FlushSpec(p.(isStreaming := false, scheduledFor := None), chatId, true, clock).(streamOpen := false);
    var notices := EndNotices(failed, f.receivedDisplayEvent, chatId, message);
    var r := f.(effects := f.effects + notices);
    assert r.effects[|p.effects|..] == notices;
    r
  }

  /**
   * A turn that produced no display event and whose stream calls
   * `onComplete` twice (a completing last frame, then the end of the body)
   * asks for the one-shot answer twice.
   */
  lemma RepeatedCompletionFallsBackTwice(p: Page, chatId: string, message: string, clock: string)
    requires !p.receivedDisplayEvent
    ensures var r1 := StreamEndSpec(p, chatId, message, false, clock);
            var r2 := StreamEndSpec(r1, chatId, message, false, clock);
            && FallbackFetch(chatId, message) in r1.effects[|p.effects|..]
            && FallbackFetch(chatId, message) in r2.effects[|r1.effects|..]
            && r2.effects[..|p.effects|] == p.effects
  {
    var r1 := StreamEndSpec(p, chatId, message, false, clock);
    var r2 := StreamEndSpec(r1, chatId, message, false, clock);
    assert r2.effects[..|p.effects|] == r2.effects[..|r1.effects|][..|p.effects|];
  }

  /** What the end of a stream reports: the error and the fallback, the warning and the fallback, or nothing. */
  function EndNotices(failed: bool, received: bool, chatId: string, message: string): seq<Effect> {
    if failed then [Notice("SSE 连接中断，尝试使用一次性接口"), FallbackFetch(chatId, message)]
    else if !received then [Notice("未收到流式响应，尝试改用非流式接口"), FallbackFetch(chatId, message)]
    else []
  }

  /** The message of the agent turn while it streams. */
  function AgentPlaceholder(): Message {
    Message(Undefined, Agent, "", Some("生成中"), None, true, Some(InitialState()))
  }

  /** How `ensureSession` settled: a conversation id, no conversation, or an error message. */
  datatype SessionOutcome = SessionReady(chatId: string) | NoSession | SessionFailed(message: string)

  /**
   * `handleSend`. Refused with a notice when chatting is not possible;
   * ignored for a blank message; otherwise a running stream is closed, and
   * once a conversation is ready the user message and a streaming agent
   * placeholder are appended, the buffer and frame are reset, the session is
   * bumped and a stream is open.
   */
  function SendSpec(p: Page, canChat: bool, isActivating: bool, message: string, session: SessionOutcome,
                    clock: string, now: string): (r: Page)
    ensures !canChat ==> r.messages == p.messages && r.streamOpen == p.streamOpen
    ensures canChat && Trim(message) == "" ==> r == p
    ensures canChat && Trim(message) != "" && session.SessionReady? ==>
              && r.activeChatId == Some(session.chatId)
              && r.messages == p.messages + [Message(Undefined, User, message, Some(clock), None, false, None),
                                              AgentPlaceholder()]
              && r.pending == [] && r.scheduledFor.None? && r.isStreaming && r.streamOpen
              && !r.receivedDisplayEvent && r.draft == ""
              && r.sessions == Bumped(p.sessions, session.chatId, now)
    ensures canChat && Trim(message) != "" && session.SessionFailed? ==> r.draft == message
    ensures Coherent(p) ==> Coherent(r)
  {
    if !canChat then
      p.(effects := p.effects + [Notice(if isActivating then "正在同步团队，请稍后重试" else "请先选择团队再开始对话")])
    else if Trim(message) == "" then p
    else
      SessionSpec(if p.isStreaming && p.streamOpen then CloseSpec(p) else p, message, session, clock, now)
  }

  /** `handleSend` once `ensureSession` settled. */
  function SessionSpec(p: Page, message: string, session: SessionOutcome, clock: string, now: string): (r: Page)
    ensures Coherent(p) ==> Coherent(r)
  {
    match session
    case SessionFailed(text) =>
      p.(draft := message, effects := p.effects + [Notice(if text != "" then text else "团队同步失败")])
    case NoSession => p
    case SessionReady(chatId) => TurnSpec(p, chatId, message, clock, now)
  }

  /** The part of `handleSend` after a conversation is ready: the turn begins. */
  function TurnSpec(p: Page, chatId: string, message: string, clock: string, now: string): (r: Page)
    ensures Coherent(r)
  {
    p.(activeChatId := Some(chatId),
       messages := p.messages + [Message(Undefined, User, message, Some(clock), None, false, None),
                                 AgentPlaceholder()],
       draft := "", receivedDisplayEvent := false, pending := [], scheduledFor := None,
       sessions := Bumped(p.sessions, chatId, now), isStreaming := true, streamOpen := true)
  }

  /** `handleSelectSession`: switching to another conversation closes the stream and clears the messages. */
  function SelectSpec(p: Page, chatId: string): (r: Page)
    ensures chatId == "" || Some(chatId) == p.activeChatId ==> r == p
    ensures chatId != "" && Some(chatId) != p.activeChatId ==>
              && r.activeChatId == Some(chatId) && r.messages == [] && r.pending == []
              && r.scheduledFor.None? && !r.streamOpen && !r.isStreaming
    ensures Coherent(p) ==> Coherent(r)
  {
    if chatId == "" || Some(chatId) == p.activeChatId then p
    else CloseSpec(p).(activeChatId := Some(chatId), messages := [])
  }

  /**
   * `fallbackOnce` once its request settled (`response` None when it
   * failed): the answer replaces the last message when that is an agent
   * message, settled and without a display, and the session is bumped.
   */
  function FallbackSpec(p: Page, chatId: string, response: Option<Value>, o: Oracles, clock: string, now: string)
    : (r: Page)
    ensures response.None? ==> r == p.(effects := p.effects + [Notice("聊天接口调用失败")])
    ensures response.Some? ==>
              r == p.(messages := SettleLastAgent(p.messages, AnswerText(response.value, o), clock),
                      sessions := Bumped(p.sessions, chatId, now))
    ensures response.Some? ==>
              && |r.messages| == |p.messages|
              && r.sessions == Bumped(p.sessions, chatId, now)
              && (forall i :: 0 <= i < |p.messages| - 1 ==> r.messages[i] == p.messages[i])
              && (p.messages != [] && p.messages[|p.messages| - 1].role == Agent ==>
                    var m := r.messages[|r.messages| - 1];
                    && m.content == AnswerText(response.value, o)
                    && m.display.None? && !m.isStreaming && m.timestamp == Some(clock))
    ensures Coherent(p) ==> Coherent(r)
  {
    if response.None? then p.(effects := p.effects + [Notice("聊天接口调用失败")])
    else
      p.(messages := SettleLastAgent(p.messages, AnswerText(response.value, o), clock),
         sessions := Bumped(p.sessions, chatId, now))
  }

  /** The text of a one-shot answer: a string as it is, anything else pretty-printed. */
  function AnswerText(response: Value, o: Oracles): string {
    if response.Str? then response.s else o.prettyPrint(response)
  }

  /** The last message, when it is the agent's, takes the final text and stops streaming; nothing else changes. */
  function SettleLastAgent(messages: seq<Message>, content: string, clock: string): (r: seq<Message>)
    ensures |r| == |messages|
    ensures forall i :: 0 <= i < |messages| - 1 ==> r[i] == messages[i]
    ensures messages != [] && messages[|messages| - 1].role == Agent ==>
              r[|r| - 1] == messages[|messages| - 1].(content := content, display := None,
                                                        timestamp := Some(clock), isStreaming := false)
    ensures messages == [] || messages[|messages| - 1].role != Agent ==> r == messages
  {
    if |messages| == 0 || messages[|messages| - 1].role != Agent then messages
    else messages[|messages| - 1 := messages[|messages| - 1].(content := content, display := None,
                                                             timestamp := Some(clock), isStreaming := false)]
  }

  /**
   * The sentinel settles the turn in one step: after the streamed deltas and
   * the sentinel, the agent message holds the accumulated answer, no longer
   * streams, and hydration has been asked for.
   */
  lemma SentinelSettlesTurn(p: Page, chatId: string, events: seq<DisplayEvent>, clock: string)
    requires p.activeChatId == Some(chatId) && p.pending == [] && !p.hydrationInFlight
    requires p.messages != [] && p.messages[|p.messages| - 1].role == Agent
    requires forall i :: 0 <= i < |events| ==> !IsOutputComplete(events[i])
    ensures var sentinel := DisplayEvent(Output, Format.Status, "Output complete.", false);
            var r := OnEventSpec(RunEvents(p, chatId, events, clock), chatId, sentinel, clock);
            && |r.messages| == |p.messages|
            && var last := r.messages[|r.messages| - 1];
            && last.display == Some(ReduceAll(p.messages[|p.messages| - 1].display.GetOr(InitialState()),
                                              events + [sentinel]))
            && !last.isStreaming && last.timestamp == Some(clock)
            && !r.streamOpen && r.pending == [] && HydrationFetch(chatId) in r.effects
  {
    var sentinel := DisplayEvent(Output, Format.Status, "Output complete.", false);
    RunEventsBuffers(p, chatId, events, clock);
    var q := RunEvents(p, chatId, events, clock);
    assert q.pending + [sentinel] == events + [sentinel];
    var r := OnEventSpec(q, chatId, sentinel, clock);
    assert r.messages == FlushMessages(p.messages, events + [sentinel], true, clock);
  }

  /** Non-sentinel events of the active conversation, delivered without any frame firing. */
  function RunEvents(p: Page, chatId: string, events: seq<DisplayEvent>, clock: string): Page
    decreases |events|
  {
    if events == [] then p else RunEvents(OnEventSpec(p, chatId, events[0], clock), chatId, events[1..], clock)
  }

  /** Until a frame fires, events of the active conversation only accumulate in the buffer, in order. */
  lemma {:induction false} RunEventsBuffers(p: Page, chatId: string, events: seq<DisplayEvent>, clock: string)
    requires p.activeChatId == Some(chatId)
    requires forall i :: 0 <= i < |events| ==> !IsOutputComplete(events[i])
    ensures var r := RunEvents(p, chatId, events, clock);
            && r.pending == p.pending + events
            && r.messages == p.messages && r.activeChatId == p.activeChatId
            && r.hydrationInFlight == p.hydrationInFlight && r.effects == p.effects
            && r.streamOpen == p.streamOpen
            && (events != [] ==> r.scheduledFor == if p.scheduledFor.Some? then p.scheduledFor else Some(chatId))
    decreases |events|
  {
    if events != [] {
      var q := OnEventSpec(p, chatId, events[0], clock);
      RunEventsBuffers(q, chatId, events[1..], clock);
      assert p.pending + events == (p.pending + [events[0]]) + events[1..];
    }
  }

  /** The chat page's handlers over its state, updated in place. */
  class ChatOrchestrator {
    const oracles: Oracles
    var activeChatId: Option<string>
    var messages: seq<Message>
    var sessions: seq<Session>
    var draft: string
    var pending: seq<DisplayEvent>
    var scheduledFor: Option<string>
    var isStreaming: bool
    var streamOpen: bool
    var receivedDisplayEvent: bool
    var hydrationInFlight: bool
    var effects: seq<Effect>

    function State(): Page
      reads this
    {
      Page(activeChatId, messages, sessions, draft, pending, scheduledFor, isStreaming, streamOpen,
           receivedDisplayEvent, hydrationInFlight, effects)
    }

    /** A fresh page: no conversation, nothing buffered or scheduled. */
    constructor (oracles: Oracles)
      ensures State() == Page(None, [], [], "", [], None, false, false, false, false, [])
      ensures Coherent(State()) && this.oracles == oracles
    {
      this.oracles := oracles;
      activeChatId := None;
      messages := [];
      sessions := [];
      draft := "";
      pending := [];
      scheduledFor := None;
      isStreaming := false;
      streamOpen := false;
      receivedDisplayEvent := false;
      hydrationInFlight := false;
      effects := [];
    }

    method CloseStream()
      modifies this
      ensures State() == CloseSpec(old(State()))
    {
      if streamOpen {
        effects := effects + [StreamClosed];
      }
      streamOpen := false;
      pending := [];
      scheduledFor := None;
      isStreaming := false;
    }

    method BumpSession(chatId: string, now: string)
      modifies this
      ensures State() == old(State()).(sessions := Bumped(old(sessions), chatId, now))
    {
      var i := FindSessionIndex(sessions, chatId);
      if i != -1 {
        sessions := [sessions[i].(lastMessageAt := Some(now))] + sessions[..i] + sessions[i + 1..];
      }
    }

    method Flush(chatId: string, finalize: bool, clock: string)
      modifies this
      ensures State() == FlushSpec(old(State()), chatId, finalize, clock)
    {
      if activeChatId != Some(chatId) {
        pending := [];
        return;
      }
      var events := pending;
      pending := [];
      if |events| == 0 && !finalize {
        return;
      }
      if |messages| == 0 {
        return;
      }
      var lastIndex := |messages| - 1;
      var last := messages[lastIndex];
      if last.role != Agent {
        return;
      }
      var display := FoldEvents(last.display.GetOr(InitialState()), events);
      var active := display.panels.Get(display.stage);
      messages := messages[lastIndex := last.(content := active.content, display := Some(display),
                                              timestamp := if finalize then Some(clock) else last.timestamp,
                                              isStreaming := !finalize)];
    }

    method StartHydration(chatId: string)
      modifies this
      ensures State() == HydrationStartSpec(old(State()), chatId)
    {
      if hydrationInFlight {
        return;
      }
      hydrationInFlight := true;
      effects := effects + [HydrationFetch(chatId)];
    }

    method EndHydration(chatId: string, records: Option<seq<Value>>)
      modifies this
      ensures State() == HydrationEndSpec(old(State()), chatId, records, oracles)
    {
      if records.Some? {
        var mapped := MapRecords(records.value, oracles);
        if LastIndexOf(mapped, Agent) != -1 {
          MergeHydrated(chatId, mapped);
        }
      }
      hydrationInFlight := false;
    }

    /** The `setMessages` updater of hydration, with its backward search for the last agent message. */
    method MergeHydrated(chatId: string, mapped: seq<Message>)
      requires LastIndexOf(mapped, Agent) >= 0
      modifies this
      ensures State() == old(State()).(messages := HydrateMessages(old(messages), mapped, old(activeChatId) == Some(chatId)))
    {
      if activeChatId != Some(chatId) {
        return;
      }
      if |messages| == 0 {
        messages := mapped;
        return;
      }
      var i := LastAgentIndex(messages);
      if i == -1 {
        messages := mapped;
      } else {
        messages := messages[i := mapped[LastIndexOf(mapped, Agent)].(isStreaming := false, display := None)];
      }
    }

    method OnEvent(chatId: string, e: DisplayEvent, clock: string)
      modifies this
      ensures State() == OnEventSpec(old(State()), chatId, e, clock)
    {
      if activeChatId != Some(chatId) {
        return;
      }
      receivedDisplayEvent := true;
      pending := pending + [e];
      if IsOutputComplete(e) {
        scheduledFor := None;
        Flush(chatId, true, clock);
        CloseStream();
        StartHydration(chatId);
        return;
      }
      if scheduledFor.Some? {
        return;
      }
      scheduledFor := Some(chatId);
    }

    method RunScheduled(clock: string)
      modifies this
      ensures State() == RunScheduledSpec(old(State()), clock)
    {
      if scheduledFor.Some? {
        var chatId := scheduledFor.value;
        scheduledFor := None;
        Flush(chatId, false, clock);
      }
    }

    method OnComplete(chatId: string, message: string, clock: string)
      modifies this
      ensures State() == StreamEndSpec(old(State()), chatId, message, false, clock)
    {
      isStreaming := false;
      scheduledFor := None;
      Flush(chatId, true, clock);
      streamOpen := false;
      effects := effects + EndNotices(false, receivedDisplayEvent, chatId, message);
    }

    method OnError(chatId: string, message: string, clock: string)
      modifies this
      ensures State() == StreamEndSpec(old(State()), chatId, message, true, clock)
    {
      isStreaming := false;
      scheduledFor := None;
      Flush(chatId, true, clock);
      streamOpen := false;
      effects := effects + EndNotices(true, receivedDisplayEvent, chatId, message);
    }

    method Send(canChat: bool, isActivating: bool, message: string, session: SessionOutcome, clock: string, now: string)
      modifies this
      ensures State() == SendSpec(old(State()), canChat, isActivating, message, session, clock, now)
    {
      if !canChat {
        effects := effects + [Notice(if isActivating then "正在同步团队，请稍后重试" else "请先选择团队再开始对话")];
        return;
      }
      if Trim(message) == "" {
        return;
      }
      if isStreaming && streamOpen {
        CloseStream();
      }
      SessionSettled(message, session, clock, now);
    }

    method SessionSettled(message: string, session: SessionOutcome, clock: string, now: string)
      modifies this
      ensures State() == SessionSpec(old(State()), message, session, clock, now)
    {
      match session {
        case SessionFailed(text) =>
          draft := message;
          effects := effects + [Notice(if text != "" then text else "团队同步失败")];
        case NoSession =>
        case SessionReady(chatId) =>
          BeginTurn(chatId, message, clock, now);
      }
    }

    method BeginTurn(chatId: string, message: string, clock: string, now: string)
      modifies this
      ensures State() == TurnSpec(old(State()), chatId, message, clock, now)
    {
      activeChatId := Some(chatId);
      messages := messages + [Message(Undefined, User, message, Some(clock), None, false, None),
                              AgentPlaceholder()];
      draft := "";
      receivedDisplayEvent := false;
      pending := [];
      scheduledFor := None;
      BumpSession(chatId, now);
      isStreaming := true;
      streamOpen := true;
    }

    method SelectSession(chatId: string)
      modifies this
      ensures State() == SelectSpec(old(State()), chatId)
    {
      if chatId == "" || Some(chatId) == activeChatId {
        return;
      }
      CloseStream();
      activeChatId := Some(chatId);
      messages := [];
    }

    method ApplyFallback(chatId: string, response: Option<Value>, clock: string, now: string)
      modifies this
      ensures State() == FallbackSpec(old(State()), chatId, response, oracles, clock, now)
    {
      if response.None? {
        effects := effects + [Notice("聊天接口调用失败")];
        return;
      }
      var content := AnswerText(response.value, oracles);
      SettleLastMessage(content, clock);
      BumpSession(chatId, now);
    }

    method SettleLastMessage(content: string, clock: string)
      modifies this
      ensures State() == old(State()).(messages := SettleLastAgent(old(messages), content, clock))
    {
      if |messages| > 0 && messages[|messages| - 1].role == Agent {
        var lastIndex := |messages| - 1;
        messages := messages[lastIndex := messages[lastIndex].(content := content, display := None,
                                                               timestamp := Some(clock), isStreaming := false)];
      }
    }
  }
}
