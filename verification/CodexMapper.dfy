/** The Codex runner's event mapper: backend events in, session messages out. */
module CodexMapper {
  import opened Whitespace
  import opened Wrappers

  /** A completed or started item. The name, input and result of a tool item are its
      projection; `Untold` stands for the item kinds that have none. */
  datatype Item =
    | AgentMessage(text: string)
    | Tool(id: string, name: string, input: string, result: string, isError: bool)
    | Untold

  datatype Event =
    | ThreadStarted(thread: string)
    | ItemStarted(item: Item)
    | ItemCompleted(item: Item)
    | TurnCompleted(usage: nat)
    | TurnFailed(message: string)
    | ErrorEvent(message: string)

  datatype Message =
    | Init(session: string)
    | Text(content: string)
    | ToolUse(id: string, name: string, input: string)
    | ToolResult(id: string, content: string, isError: bool)
    | Success(content: string, usage: nat)
    | Failure(error: string, usage: nat)

  const DEFAULT_SUCCESS := "Codex session completed successfully"
  const DEFAULT_FAILURE := "Codex execution failed"

  datatype Mapper = Mapper(
    messages: seq<Message>,
    hasInit: bool,
    pending: Option<Message>,
    lastText: Option<string>,
    usage: nat,
    errors: seq<string>,
    emitted: set<string>)

  const FRESH := Mapper([], false, None, None, 0, [], {})

  function Push(m: Mapper, msg: Message): Mapper {
    m.(messages := m.messages + [msg])
  }

  function EmitInit(m: Mapper, session: string): Mapper {
    if m.hasInit then m else Push(m.(hasInit := true), Init(session))
  }

  function EmitText(m: Mapper, text: string): Mapper {
    if Blank(text) then m else Push(m.(lastText := Some(Trim(text))), Text(Trim(text)))
  }

  function EmitTool(m: Mapper, t: Item, includeResult: bool): Mapper {
    if !t.Tool? then m else
      var m1 := if t.id in m.emitted then m
        else Push(m, ToolUse(t.id, t.name, t.input)).(emitted := m.emitted + {t.id});
      if includeResult then Push(m1, ToolResult(t.id, t.result, t.isError)).(emitted := m1.emitted - {t.id})
      else m1
  }

  /** `lastAssistantText` or the stock sentence. */
  function SuccessText(last: Option<string>): string {
    if last.Some? && last.value != "" then last.value else DEFAULT_SUCCESS
  }

  /** A given message, else the last error, else the stock sentence; "" counts as none. */
  function FailureText(message: string, last: Option<string>): string {
    if message != "" then message
    else if last.Some? && last.value != "" then last.value else DEFAULT_FAILURE
  }

  function Last(s: seq<string>): Option<string> {
    if s == [] then None else Some(s[|s| - 1])
  }

  function Handle(m: Mapper, e: Event): Mapper {
    match e
    case ThreadStarted(t) => EmitInit(m, t)
    case ItemCompleted(i) => if i.AgentMessage? then EmitText(m, i.text) else EmitTool(m, i, true)
    case ItemStarted(i) => EmitTool(m, i, false)
    case TurnCompleted(u) => m.(usage := u, pending := Some(Success(SuccessText(m.lastText), u)))
    case TurnFailed(t) =>
      var text := FailureText(t, Last(m.errors));
      m.(errors := m.errors + [text], pending := Some(Failure(text, m.usage)))
    case ErrorEvent(t) => m.(errors := m.errors + [t])
  }

  function Feed(m: Mapper, es: seq<Event>): Mapper {
    if es == [] then m else Handle(Feed(m, es[..|es| - 1]), es[|es| - 1])
  }

  function Finalize(m: Mapper, session: string, caught: Option<string>, stopped: bool): Mapper {
    var m1 := EmitInit(m, session);
    var m2 := if caught.Some? && !stopped then m1.(errors := m1.errors + [caught.value]) else m1;
    var m3 := if m2.pending.Some? || stopped then m2 else
      m2.(pending := Some(if caught.Some? then Failure(FailureText("", Last(m2.errors)), m2.usage)
                          else Success(SuccessText(m2.lastText), m2.usage)));
    if m3.pending.Some? then Push(m3, m3.pending.value).(pending := None) else m3
  }

  // ---------- the mapper's fields ----------

  class CodexEventMapper {
    var messages: seq<Message>
    var hasInitMessage: bool
    var pendingResultMessage: Option<Message>
    var lastAssistantText: Option<string>
    var lastUsage: nat
    var errorMessages: seq<string>
    var emittedToolUseIds: set<string>
    /** What the owner's `emitMessage` was called with. */
    var delivered: seq<Message>

    ghost function View(): Mapper
      reads this
    {
      Mapper(messages, hasInitMessage, pendingResultMessage, lastAssistantText, lastUsage, errorMessages,
             emittedToolUseIds)
    }

    /** Every message put on the list since `before` was also delivered, in the same order. */
    ghost predicate DeliveredSince(before: seq<Message>, sent: seq<Message>)
      reads this
    {
      |before| <= |messages| && messages[..|before|] == before && delivered == sent + messages[|before|..]
    }

    constructor ()
      ensures View() == FRESH && delivered == []
    {
      messages, hasInitMessage, pendingResultMessage := [], false, None;
      lastAssistantText, lastUsage, errorMessages, emittedToolUseIds := None, 0, [], {};
      delivered := [];
    }

    method Reset()
      modifies this
      ensures View() == FRESH && delivered == old(delivered)
    {
      messages := [];
      hasInitMessage := false;
      pendingResultMessage := None;
      lastAssistantText := None;
      lastUsage := 0;
      errorMessages := [];
      emittedToolUseIds := {};
    }

    method PushAndEmit(message: Message)
      modifies this`messages, this`delivered
      ensures View() == Push(old(View()), message)
      ensures delivered == old(delivered) + [message]
    {
      messages := messages + [message];
      delivered := delivered + [message];
    }

    method EmitSystemInitMessage(session: string)
      modifies this
      ensures View() == EmitInit(old(View()), session)
      ensures DeliveredSince(old(messages), old(delivered))
    {
      if hasInitMessage {
        return;
      }
      hasInitMessage := true;
      PushAndEmit(Init(session));
    }

    method EmitAssistantMessage(text: string)
      modifies this
      ensures View() == EmitText(old(View()), text)
      ensures DeliveredSince(old(messages), old(delivered))
    {
      var normalized := Trim(text);
      if normalized == "" {
        return;
      }
      lastAssistantText := Some(normalized);
      PushAndEmit(Text(normalized));
    }

    method EmitToolMessagesForItem(item: Item, includeResult: bool)
      modifies this
      ensures View() == EmitTool(old(View()), item, includeResult)
      ensures DeliveredSince(old(messages), old(delivered))
    {
      if !item.Tool? {
        return;
      }
      if item.id !in emittedToolUseIds {
        PushAndEmit(ToolUse(item.id, item.name, item.input));
        emittedToolUseIds := emittedToolUseIds + {item.id};
      }
      if !includeResult {
        return;
      }
      PushAndEmit(ToolResult(item.id, item.result, item.isError));
      emittedToolUseIds := emittedToolUseIds - {item.id};
    }

    method HandleEvent(event: Event)
      modifies this
      ensures View() == Handle(old(View()), event)
      ensures DeliveredSince(old(messages), old(delivered))
    {
      match event
      case ThreadStarted(thread) => EmitSystemInitMessage(thread);
      case ItemCompleted(item) =>
        if item.AgentMessage? {
          EmitAssistantMessage(item.text);
        } else {
          EmitToolMessagesForItem(item, true);
        }
      case ItemStarted(item) => EmitToolMessagesForItem(item, false);
      case TurnCompleted(usage) =>
        lastUsage := usage;
        pendingResultMessage := Some(Success(SuccessText(lastAssistantText), lastUsage));
      case TurnFailed(text) =>
        var message := FailureText(text, Last(errorMessages));
        errorMessages := errorMessages + [message];
        pendingResultMessage := Some(Failure(message, lastUsage));
      case ErrorEvent(message) =>
        errorMessages := errorMessages + [message];
    }

    method FinalizeRun(session: string, caughtError: Option<string>, wasStopped: bool) returns (all: seq<Message>)
      modifies this
      ensures View() == Finalize(old(View()), session, caughtError, wasStopped)
      ensures all == messages && DeliveredSince(old(messages), old(delivered))
    {
      if !hasInitMessage {
        EmitSystemInitMessage(session);
      }
      if caughtError.Some? && !wasStopped {
        errorMessages := errorMessages + [caughtError.value];
      }
      if pendingResultMessage.None? && !wasStopped {
        pendingResultMessage := Some(
          if caughtError.Some? then Failure(FailureText("", Last(errorMessages)), lastUsage)
          else Success(SuccessText(lastAssistantText), lastUsage));
      }
      if pendingResultMessage.Some? {
        PushAndEmit(pendingResultMessage.value);
        pendingResultMessage := None;
      }
      all := messages;
    }
  }

  // ---------- brackets ----------

  datatype Call = Call(name: string, input: string)

  predicate Names(m: Message, id: string) {
    (m.ToolUse? || m.ToolResult?) && m.id == id
  }

  /** The tool use that a result for `id` would answer after `ms`, if one is open. */
  function OpenCall(ms: seq<Message>, id: string): Option<Call> {
    if ms == [] then None else
      var m := ms[|ms| - 1];
      if !Names(m, id) then OpenCall(ms[..|ms| - 1], id)
      else if m.ToolUse? then Some(Call(m.name, m.input)) else None
  }

  /** A use may come only when its id is closed, a result only when its id is open. */
  predicate Admits(ms: seq<Message>, m: Message) {
    (m.ToolUse? ==> OpenCall(ms, m.id).None?) && (m.ToolResult? ==> OpenCall(ms, m.id).Some?)
  }

  predicate WellBracketed(ms: seq<Message>) {
    ms == [] || (WellBracketed(ms[..|ms| - 1]) && Admits(ms[..|ms| - 1], ms[|ms| - 1]))
  }

  lemma OpenCallSnoc(ms: seq<Message>, m: Message, id: string)
    ensures OpenCall(ms + [m], id) ==
            if !Names(m, id) then OpenCall(ms, id)
            else if m.ToolUse? then Some(Call(m.name, m.input)) else None
  {
    assert (ms + [m])[..|ms|] == ms;
  }

  lemma BracketSnoc(ms: seq<Message>, m: Message)
    ensures WellBracketed(ms + [m]) <==> WellBracketed(ms) && Admits(ms, m)
  {
    assert (ms + [m])[..|ms|] == ms;
    hide Admits;
  }

  /** `emittedToolUseIds` is exactly the set of open calls, and the list is bracketed. */
  ghost predicate Bracketed(m: Mapper) {
    && WellBracketed(m.messages)
    && forall id :: id in m.emitted <==> OpenCall(m.messages, id).Some?
  }

  lemma PushKeeps(m: Mapper, msg: Message)
    requires Bracketed(m) && !msg.ToolUse? && !msg.ToolResult?
    ensures Bracketed(Push(m, msg))
  {
    BracketSnoc(m.messages, msg);
    forall id ensures OpenCall(m.messages + [msg], id) == OpenCall(m.messages, id) {
      OpenCallSnoc(m.messages, msg, id);
    }
    hide OpenCall, WellBracketed;
  }

  lemma UseKeeps(m: Mapper, id: string, name: string, input: string)
    requires Bracketed(m) && id !in m.emitted
    ensures Bracketed(Push(m, ToolUse(id, name, input)).(emitted := m.emitted + {id}))
  {
    var msg := ToolUse(id, name, input);
    BracketSnoc(m.messages, msg);
    forall i ensures OpenCall(m.messages + [msg], i).Some? <==> (i == id || OpenCall(m.messages, i).Some?) {
      OpenCallSnoc(m.messages, msg, i);
    }
    hide OpenCall, WellBracketed;
  }

  lemma ResultKeeps(m: Mapper, id: string, content: string, isError: bool)
    requires Bracketed(m) && id in m.emitted
    ensures Bracketed(Push(m, ToolResult(id, content, isError)).(emitted := m.emitted - {id}))
  {
    var msg := ToolResult(id, content, isError);
    BracketSnoc(m.messages, msg);
    forall i ensures OpenCall(m.messages + [msg], i).Some? <==> (i != id && OpenCall(m.messages, i).Some?) {
      OpenCallSnoc(m.messages, msg, i);
    }
    hide OpenCall, WellBracketed;
  }

  lemma ToolKeeps(m: Mapper, t: Item, includeResult: bool)
    requires Bracketed(m)
    ensures Bracketed(EmitTool(m, t, includeResult))
  {
    if t.Tool? {
      var m1 := m;
      if t.id !in m.emitted {
        UseKeeps(m, t.id, t.name, t.input);
        m1 := Push(m, ToolUse(t.id, t.name, t.input)).(emitted := m.emitted + {t.id});
      }
      ResultKeeps(m1, t.id, t.result, t.isError);
    }
    hide Bracketed;
  }

  lemma HandleKeeps(m: Mapper, e: Event)
    requires Bracketed(m)
    ensures Bracketed(Handle(m, e))
  {
    match e
    case ThreadStarted(t) => PushKeeps(m.(hasInit := true), Init(t));
    case ItemCompleted(i) =>
      if i.AgentMessage? {
        PushKeeps(m.(lastText := Some(Trim(i.text))), Text(Trim(i.text)));
      } else {
        ToolKeeps(m, i, true);
      }
    case ItemStarted(i) => ToolKeeps(m, i, false);
    case _ =>
  }

  /** For every event sequence the emitted list is bracketed and the id set is exactly
      the open calls. */
  lemma {:induction false} FeedBracketed(es: seq<Event>)
    ensures Bracketed(Feed(FRESH, es))
  {
    if es != [] {
      FeedBracketed(es[..|es| - 1]);
      HandleKeeps(Feed(FRESH, es[..|es| - 1]), es[|es| - 1]);
      hide Bracketed, Handle;
    }
  }

  function Uses(ms: seq<Message>, id: string): nat {
    if ms == [] then 0 else
      Uses(ms[..|ms| - 1], id) + if ms[|ms| - 1].ToolUse? && ms[|ms| - 1].id == id then 1 else 0
  }

  function Results(ms: seq<Message>, id: string): nat {
    if ms == [] then 0 else
      Results(ms[..|ms| - 1], id) + if ms[|ms| - 1].ToolResult? && ms[|ms| - 1].id == id then 1 else 0
  }

  /** At each prefix, uses exceed results by one while a call is open and by none else. */
  lemma {:induction false} BracketCounts(ms: seq<Message>, k: nat, id: string)
    requires WellBracketed(ms) && k <= |ms|
    ensures Uses(ms[..k], id) == Results(ms[..k], id) + if OpenCall(ms[..k], id).Some? then 1 else 0
    decreases |ms| + k
  {
    if k < |ms| {
      assert ms[..|ms| - 1][..k] == ms[..k];
      BracketCounts(ms[..|ms| - 1], k, id);
    } else if k > 0 {
      assert ms[..k] == ms;
      assert ms[..|ms| - 1][..k - 1] == ms[..|ms| - 1];
      BracketCounts(ms[..|ms| - 1], k - 1, id);
    }
  }

  // ---------- what is listed ----------

  /** The call is open as the events tell it: its last item event was a start. */
  predicate Pending(es: seq<Event>, id: string) {
    exists k :: 0 <= k < |es| && es[k].ItemStarted? && es[k].item.Tool? && es[k].item.id == id
      && forall j :: k < j < |es| ==>
           !((es[j].ItemStarted? || es[j].ItemCompleted?) && es[j].item.Tool? && es[j].item.id == id)
  }

  /** What an event puts on the list, behind those that came before it. */
  function Said(before: seq<Event>, e: Event): seq<Message> {
    match e
    case ThreadStarted(t) => if exists k :: 0 <= k < |before| && before[k].ThreadStarted? then [] else [Init(t)]
    case ItemStarted(Tool(id, name, input, _, _)) => if Pending(before, id) then [] else [ToolUse(id, name, input)]
    case ItemCompleted(Tool(id, name, input, result, isError)) =>
      (if Pending(before, id) then [] else [ToolUse(id, name, input)]) + [ToolResult(id, result, isError)]
    case ItemCompleted(AgentMessage(text)) => if Trim(text) == "" then [] else [Text(Trim(text))]
    case _ => []
  }

  function Listed(es: seq<Event>): seq<Message> {
    if es == [] then [] else Listed(es[..|es| - 1]) + Said(es[..|es| - 1], es[|es| - 1])
  }

  predicate IsFor(e: Event, id: string) {
    (e.ItemStarted? || e.ItemCompleted?) && e.item.Tool? && e.item.id == id
  }

  lemma {:induction false} PendingSnoc(es: seq<Event>, e: Event, id: string)
    ensures Pending(es + [e], id) <==> if IsFor(e, id) then e.ItemStarted? else Pending(es, id)
  {
    var all := es + [e];
    if IsFor(e, id) {
      if e.ItemStarted? {
        assert all[|es|] == e;
      } else {
        assert IsFor(all[|es|], id) && !all[|es|].ItemStarted?;
      }
    } else {
      if k :| 0 <= k < |es| && es[k].ItemStarted? && es[k].item.Tool? && es[k].item.id == id
              && forall j :: k < j < |es| ==> !IsFor(es[j], id) {
        assert all[k] == es[k];
        forall j | k < j < |all| ensures !IsFor(all[j], id) {
          assert all[j] == if j < |es| then es[j] else e;
        }
      }
      if k :| 0 <= k < |all| && all[k].ItemStarted? && all[k].item.Tool? && all[k].item.id == id
              && forall j :: k < j < |all| ==> !IsFor(all[j], id) {
        assert k < |es| && all[k] == es[k];
        forall j | k < j < |es| ensures !IsFor(es[j], id) {
          assert all[j] == es[j];
        }
      }
    }
  }

  lemma {:induction false} StartedSomewhere(es: seq<Event>)
    ensures Started(es) <==> exists k :: 0 <= k < |es| && es[k].ThreadStarted?
  {
    if es != [] {
      var front := es[..|es| - 1];
      StartedSomewhere(front);
      if k :| 0 <= k < |es| && es[k].ThreadStarted? && k < |es| - 1 {
        assert front[k].ThreadStarted?;
      }
      if Started(front) {
        var k :| 0 <= k < |front| && front[k].ThreadStarted?;
        assert es[k].ThreadStarted?;
      }
    }
  }

  /** Each event lists what it says: the first init, a use for a tool item whose id is closed,
      the result of a completed one with its own content and flag, the trimmed text of an
      agent message that is not blank; and nothing else is listed. */
  lemma {:induction false} EventLists(es: seq<Event>, e: Event)
    ensures Feed(FRESH, []).messages == []
    ensures Feed(FRESH, es + [e]).messages ==
            Feed(FRESH, es).messages +
            match e
            case ThreadStarted(t) => if exists k :: 0 <= k < |es| && es[k].ThreadStarted? then [] else [Init(t)]
            case ItemStarted(Tool(id, name, input, _, _)) => if Pending(es, id) then [] else [ToolUse(id, name, input)]
            case ItemCompleted(Tool(id, name, input, result, isError)) =>
              (if Pending(es, id) then [] else [ToolUse(id, name, input)]) + [ToolResult(id, result, isError)]
            case ItemCompleted(AgentMessage(text)) => if Trim(text) == "" then [] else [Text(Trim(text))]
            case _ => []
  {
    var m := Feed(FRESH, es);
    assert (es + [e])[..|es|] == es;
    FeedRemembers(es);
    StartedSomewhere(es);
    FeedPending(es);
    assert m.hasInit <==> Started(es);
    assert Feed(FRESH, es + [e]) == Handle(m, e);
    hide Feed, Trim, Pending, Remembers, Handle, Started;
    HandleSays(m, es, e);
  }

  lemma {:induction false} ToolSays(m: Mapper, t: Item, includeResult: bool)
    requires t.Tool?
    ensures EmitTool(m, t, includeResult).messages ==
            m.messages + ((if t.id in m.emitted then [] else [ToolUse(t.id, t.name, t.input)])
                          + if includeResult then [ToolResult(t.id, t.result, t.isError)] else [])
  {
  }

  lemma {:induction false} HandleSays(m: Mapper, es: seq<Event>, e: Event)
    requires m.hasInit <==> exists k :: 0 <= k < |es| && es[k].ThreadStarted?
    requires forall id :: id in m.emitted <==> Pending(es, id)
    ensures Handle(m, e).messages == m.messages + Said(es, e)
  {
    hide Trim, Pending, SuccessText, FailureText;
    assert m.messages + [] == m.messages;
    if (e.ItemStarted? || e.ItemCompleted?) && e.item.Tool? {
      ToolSays(m, e.item, e.ItemCompleted?);
      assert [ToolUse(e.item.id, e.item.name, e.item.input)] + [] == [ToolUse(e.item.id, e.item.name, e.item.input)];
    }
  }

  lemma {:induction false} FeedPending(es: seq<Event>)
    ensures forall id :: id in Feed(FRESH, es).emitted <==> Pending(es, id)
  {
    if es != [] {
      var front, e := es[..|es| - 1], es[|es| - 1];
      FeedPending(front);
      assert front + [e] == es;
      forall id ensures id in Feed(FRESH, es).emitted <==> Pending(es, id) {
        PendingSnoc(front, e, id);
      }
      hide Pending, Trim, SuccessText, FailureText;
    }
  }

  /** The whole list, from the events alone. */
  lemma {:induction false} FeedLists(es: seq<Event>)
    ensures Feed(FRESH, es).messages == Listed(es)
  {
    if es != [] {
      var front, e := es[..|es| - 1], es[|es| - 1];
      FeedLists(front);
      EventLists(front, e);
      assert front + [e] == es;
      hide Feed, Pending, Trim;
    }
  }

  // ---------- what a run reports ----------

  function LastWords(es: seq<Event>): Option<string> {
    if es == [] then None else
      var e := es[|es| - 1];
      if e.ItemCompleted? && e.item.AgentMessage? && !Blank(e.item.text) then Some(Trim(e.item.text))
      else LastWords(es[..|es| - 1])
  }

  function LastUsage(es: seq<Event>): nat {
    if es == [] then 0 else
      var e := es[|es| - 1];
      if e.TurnCompleted? then e.usage else LastUsage(es[..|es| - 1])
  }

  function LastError(es: seq<Event>): Option<string> {
    if es == [] then None else
      match es[|es| - 1]
      case ErrorEvent(t) => Some(t)
      case TurnFailed(t) => Some(FailureText(t, LastError(es[..|es| - 1])))
      case _ => LastError(es[..|es| - 1])
  }

  /** The last turn end decides, with the words and errors that came before it. */
  function TurnResult(es: seq<Event>): Option<Message> {
    if es == [] then None else
      var before := es[..|es| - 1];
      match es[|es| - 1]
      case TurnCompleted(u) => Some(Success(SuccessText(LastWords(before)), u))
      case TurnFailed(t) => Some(Failure(FailureText(t, LastError(before)), LastUsage(before)))
      case _ => TurnResult(before)
  }

  predicate Started(es: seq<Event>) {
    es != [] && (es[|es| - 1].ThreadStarted? || Started(es[..|es| - 1]))
  }

  function Inits(ms: seq<Message>): nat {
    if ms == [] then 0 else Inits(ms[..|ms| - 1]) + if ms[|ms| - 1].Init? then 1 else 0
  }

  predicate NoResult(ms: seq<Message>) {
    ms == [] || (!ms[|ms| - 1].Success? && !ms[|ms| - 1].Failure? && NoResult(ms[..|ms| - 1]))
  }

  /** The mapper's fields remember exactly what the events so far said. */
  ghost predicate Remembers(m: Mapper, es: seq<Event>) {
    && m.pending == TurnResult(es) && m.lastText == LastWords(es) && m.usage == LastUsage(es)
    && Last(m.errors) == LastError(es) && m.hasInit == Started(es)
    && Inits(m.messages) == (if m.hasInit then 1 else 0) && NoResult(m.messages)
  }

  lemma PushCounts(ms: seq<Message>, m: Message)
    ensures Inits(ms + [m]) == Inits(ms) + if m.Init? then 1 else 0
    ensures NoResult(ms + [m]) <==> NoResult(ms) && !m.Success? && !m.Failure?
  {
    assert (ms + [m])[..|ms|] == ms;
  }

  lemma ItemSnoc(es: seq<Event>, e: Event)
    requires e.ItemStarted? || e.ItemCompleted?
    ensures TurnResult(es + [e]) == TurnResult(es) && LastUsage(es + [e]) == LastUsage(es)
    ensures LastError(es + [e]) == LastError(es) && Started(es + [e]) == Started(es)
    ensures LastWords(es + [e]) ==
            if e.ItemCompleted? && e.item.AgentMessage? && !Blank(e.item.text) then Some(Trim(e.item.text))
            else LastWords(es)
  {
    assert (es + [e])[..|es|] == es;
    hide Blank, Trim;
  }

  lemma {:induction false} ItemRemembers(m: Mapper, es: seq<Event>, e: Event)
    requires Remembers(m, es) && (e.ItemStarted? || e.ItemCompleted?)
    ensures Remembers(Handle(m, e), es + [e])
  {
    ItemSnoc(es, e);
    PushCounts(m.messages, Message.Text(Trim(if e.item.AgentMessage? then e.item.text else "")));
    ToolCounts(m, e.item, e.ItemCompleted?);
    hide Inits, NoResult, Blank, Trim, EmitTool, TurnResult, LastWords, LastUsage, LastError, Started;
  }

  lemma ThreadRemembers(m: Mapper, es: seq<Event>, e: Event)
    requires Remembers(m, es) && e.ThreadStarted?
    ensures Remembers(Handle(m, e), es + [e])
  {
    assert (es + [e])[..|es|] == es;
    PushCounts(m.messages, Init(e.thread));
    hide Inits, NoResult, SuccessText, FailureText, Blank;
  }

  lemma EndSnoc(es: seq<Event>, e: Event)
    requires e.TurnCompleted? || e.TurnFailed? || e.ErrorEvent?
    ensures TurnResult(es + [e]) ==
            if e.TurnCompleted? then Some(Success(SuccessText(LastWords(es)), e.usage))
            else if e.TurnFailed? then Some(Failure(FailureText(e.message, LastError(es)), LastUsage(es)))
            else TurnResult(es)
    ensures LastWords(es + [e]) == LastWords(es) && Started(es + [e]) == Started(es)
    ensures LastUsage(es + [e]) == if e.TurnCompleted? then e.usage else LastUsage(es)
    ensures LastError(es + [e]) ==
            if e.TurnCompleted? then LastError(es)
            else if e.TurnFailed? then Some(FailureText(e.message, LastError(es))) else Some(e.message)
  {
    assert (es + [e])[..|es|] == es;
    hide SuccessText, FailureText, Blank;
  }

  lemma EndRemembers(m: Mapper, es: seq<Event>, e: Event)
    requires Remembers(m, es) && (e.TurnCompleted? || e.TurnFailed? || e.ErrorEvent?)
    ensures Remembers(Handle(m, e), es + [e])
  {
    EndSnoc(es, e);
    hide Inits, NoResult, SuccessText, FailureText, TurnResult, LastWords, LastUsage, LastError, Started;
  }

  lemma {:induction false} HandleRemembers(m: Mapper, es: seq<Event>, e: Event)
    requires Remembers(m, es)
    ensures Remembers(Handle(m, e), es + [e])
  {
    hide *;
    match e
    case ThreadStarted(_) => ThreadRemembers(m, es, e);
    case ItemStarted(_) => ItemRemembers(m, es, e);
    case ItemCompleted(_) => ItemRemembers(m, es, e);
    case _ => EndRemembers(m, es, e);
  }

  lemma ToolCounts(m: Mapper, i: Item, includeResult: bool)
    ensures var t := EmitTool(m, i, includeResult);
            Inits(t.messages) == Inits(m.messages) && (NoResult(t.messages) <==> NoResult(m.messages))
            && t == m.(messages := t.messages, emitted := t.emitted)
  {
    if i.Tool? {
      PushCounts(m.messages, ToolUse(i.id, i.name, i.input));
      PushCounts(m.messages, ToolResult(i.id, i.result, i.isError));
      PushCounts(m.messages + [ToolUse(i.id, i.name, i.input)], ToolResult(i.id, i.result, i.isError));
    }
    hide Inits, NoResult;
  }

  lemma {:induction false} FeedRemembers(es: seq<Event>)
    ensures Remembers(Feed(FRESH, es), es)
  {
    if es != [] {
      var front := es[..|es| - 1];
      FeedRemembers(front);
      HandleRemembers(Feed(FRESH, front), front, es[|es| - 1]);
      assert front + [es[|es| - 1]] == es;
      hide Remembers, Handle;
    }
  }

  /** What `finalize` adds after every event sequence: the one init if no thread started,
      then at most one result, which only a stop before any turn end can leave out. */
  function Ending(es: seq<Event>, caught: Option<string>, stopped: bool): seq<Message> {
    if TurnResult(es).Some? then [TurnResult(es).value]
    else if stopped then []
    else if caught.Some? then [Failure(FailureText(caught.value, None), LastUsage(es))]
    else [Success(SuccessText(LastWords(es)), LastUsage(es))]
  }

  lemma InitKeeps(m: Mapper, session: string)
    ensures var m1 := EmitInit(m, session);
            m1.hasInit && m1 == m.(messages := m1.messages, hasInit := true)
            && m1.messages == m.messages + if m.hasInit then [] else [Init(session)]
  {
  }

  lemma EndingReached(m: Mapper, es: seq<Event>, session: string, caught: Option<string>, stopped: bool)
    requires Remembers(m, es)
    ensures Finalize(m, session, caught, stopped).messages == EmitInit(m, session).messages + Ending(es, caught, stopped)
    ensures forall r :: r in Ending(es, caught, stopped) ==> !r.Init?
    ensures |Ending(es, caught, stopped)| <= 1
  {
    var m1 := EmitInit(m, session);
    InitKeeps(m, session);
    TurnResultIsNoInit(es);
    FailureTextOf(caught, m.errors);
    assert m1.messages + [] == m1.messages;
    hide Inits, NoResult, TurnResult, LastWords, LastUsage, LastError, Started, SuccessText, FailureText, EmitInit;
  }

  lemma {:induction false} TurnResultIsNoInit(es: seq<Event>)
    ensures TurnResult(es).Some? ==> !TurnResult(es).value.Init?
  {
    if es != [] {
      TurnResultIsNoInit(es[..|es| - 1]);
    }
  }

  lemma FailureTextOf(caught: Option<string>, errors: seq<string>)
    ensures caught.Some? ==> FailureText("", Last(errors + [caught.value])) == FailureText(caught.value, None)
  {
  }

  lemma {:induction false} RunReports(es: seq<Event>, session: string, caught: Option<string>, stopped: bool)
    ensures var all := Finalize(Feed(FRESH, es), session, caught, stopped).messages;
            && all == Listed(es) + (if Started(es) then [] else [Init(session)]) + Ending(es, caught, stopped)
            && Inits(all) == 1 && NoResult(Listed(es))
  {
    var m := Feed(FRESH, es);
    FeedLists(es);
    FeedRemembers(es);
    EndingReached(m, es, session, caught, stopped);
    hide Inits, NoResult, TurnResult, LastWords, LastUsage, LastError, Feed, Started, SuccessText, FailureText, Finalize;
    EndingAdds(m, es, session, Ending(es, caught, stopped));
  }

  /** Once a turn has completed, the result to come repeats the last text listed, or says the
      stock sentence if none was; once one has failed, the error is the turn's own, else the
      last reported before, else the stock sentence. */
  lemma {:induction false} TurnEnds(es: seq<Event>, usage: nat, error: string)
    ensures var ms := Feed(FRESH, es).messages;
            var r := Feed(FRESH, es + [TurnCompleted(usage)]).pending;
            && r.Some? && r.value.Success? && r.value.usage == usage
            && (if exists k :: 0 <= k < |ms| && ms[k].Text? then
                  exists k :: 0 <= k < |ms| && ms[k] == Text(r.value.content) && forall j :: k < j < |ms| ==> !ms[j].Text?
                else r.value.content == "Codex session completed successfully")
    ensures var before := Feed(FRESH, es);
            var after := Feed(FRESH, es + [TurnFailed(error)]);
            var last := if before.errors == [] then "" else before.errors[|before.errors| - 1];
            var text := if error != "" then error else if last != "" then last else "Codex execution failed";
            after.pending == Some(Failure(text, before.usage)) && after.errors == before.errors + [text]
    ensures Feed(FRESH, es + [ErrorEvent(error)]).errors == Feed(FRESH, es).errors + [error]
  {
    assert (es + [TurnCompleted(usage)])[..|es|] == es;
    assert (es + [TurnFailed(error)])[..|es|] == es;
    assert (es + [ErrorEvent(error)])[..|es|] == es;
    LastListed(es);
    hide Trim;
  }

  /** What finalizing adds: the init if there was none, and then one result, the pending one
      if a turn ended; else a caught error's, unless the run was stopped. */
  lemma {:induction false} FinalizeAdds(m: Mapper, session: string, caught: Option<string>, stopped: bool)
    ensures var r := Finalize(m, session, caught, stopped);
            r.hasInit && r.pending.None? &&
            r.messages == m.messages + (if m.hasInit then [] else [Init(session)]) +
              if m.pending.Some? then [m.pending.value]
              else if stopped then []
              else if caught.Some? then
                [Failure(if caught.value != "" then caught.value else "Codex execution failed", m.usage)]
              else
                [Success(if m.lastText.Some? && m.lastText.value != "" then m.lastText.value
                         else "Codex session completed successfully", m.usage)]
  {
    InitKeeps(m, session);
    FailureTextOf(caught, m.errors);
    assert forall ms: seq<Message> :: ms + [] == ms;
    hide EmitInit;
  }

  ghost predicate LastTextIs(ms: seq<Message>, last: Option<string>) {
    match last
    case None => forall k :: 0 <= k < |ms| ==> !ms[k].Text?
    case Some(t) => t != "" && exists k :: 0 <= k < |ms| && ms[k] == Text(t) && forall j :: k < j < |ms| ==> !ms[j].Text?
  }

  lemma {:induction false} LastTextSnoc(ms: seq<Message>, last: Option<string>, m: Message)
    requires LastTextIs(ms, last)
    ensures LastTextIs(ms + [m], if m.Text? && m.content != "" then Some(m.content) else last) || m == Text("")
  {
    var all := ms + [m];
    if m.Text? {
      assert all[|ms|] == m;
    } else if last.Some? {
      var k :| 0 <= k < |ms| && ms[k] == Text(last.value) && forall j :: k < j < |ms| ==> !ms[j].Text?;
      assert all[k] == ms[k];
      forall j | k < j < |all| ensures !all[j].Text? {
        assert all[j] == if j < |ms| then ms[j] else m;
      }
    }
  }

  lemma {:induction false} LastListed(es: seq<Event>)
    ensures var m := Feed(FRESH, es); LastTextIs(m.messages, m.lastText)
  {
    if es != [] {
      var m, e := Feed(FRESH, es[..|es| - 1]), es[|es| - 1];
      LastListed(es[..|es| - 1]);
      hide LastTextIs, Trim, SuccessText, FailureText;
      match e
      case ThreadStarted(t) => LastTextSnoc(m.messages, m.lastText, Init(t));
      case ItemCompleted(AgentMessage(t)) => LastTextSnoc(m.messages, m.lastText, Text(Trim(t)));
      case ItemStarted(Tool(id, name, input, _, _)) => LastTextSnoc(m.messages, m.lastText, ToolUse(id, name, input));
      case ItemCompleted(Tool(id, name, input, content, isError)) =>
        LastTextSnoc(m.messages, m.lastText, ToolUse(id, name, input));
        LastTextSnoc(m.messages, m.lastText, ToolResult(id, content, isError));
        LastTextSnoc(m.messages + [ToolUse(id, name, input)], m.lastText, ToolResult(id, content, isError));
      case _ =>
    }
  }

  lemma EndingAdds(m: Mapper, es: seq<Event>, session: string, ending: seq<Message>)
    requires Remembers(m, es) && |ending| <= 1 && forall r :: r in ending ==> !r.Init?
    ensures EmitInit(m, session).messages + ending
         == m.messages + (if Started(es) then [] else [Init(session)]) + ending
    ensures Inits(EmitInit(m, session).messages + ending) == 1
  {
    var ms := EmitInit(m, session).messages;
    InitKeeps(m, session);
    PushCounts(m.messages, Init(session));
    hide Inits, NoResult, TurnResult, LastWords, LastUsage, LastError, Started, EmitInit, Last;
    assert ms == m.messages + if Started(es) then [] else [Init(session)];
    assert Inits(ms) == 1 by {
      if m.hasInit {
        assert m.messages + [] == m.messages;
      }
    }
    hide Remembers;
    if ending == [] {
      assert ms + ending == ms;
    } else {
      PushCounts(ms, ending[0]);
      assert ending == [ending[0]];
      assert ending[0] in ending;
    }
  }
}
