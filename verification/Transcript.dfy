/** The one-behind text buffer of a session: which assistant texts are recorded, in what
    order and as what, for every stream of messages. */
module Transcript {
  import opened Wrappers
  import opened Whitespace

  // ---------- messages and entries ----------

  /** A missing or empty tool id counts as none, as in the source. */
  datatype Message =
    | User(content: string, toolUseId: string)
    | Assistant(content: string, toolUseId: string)

  /** `text` is the result's own text, `wakeup` the friendly rendering of a scheduled
      wake-up when the runner reports one, `failure` the text of an error result. */
  datatype Result = Result(isError: bool, text: string, wakeup: Option<string>, failure: string)

  datatype Entry =
    | UserEntry(content: string, toolUseId: string)
    | ToolEntry(content: string, toolUseId: string)
    | Thought(content: string)
    | Response(content: string, isError: bool)

  datatype Buffers = Buffers(
    lastBody: Option<string>,
    lastIsTool: bool,
    buffered: Option<string>,
    stop: bool,
    entries: seq<Entry>)

  function Record(b: Buffers, e: Entry): Buffers {
    b.(entries := b.entries + [e])
  }

  function Flush(b: Buffers): Buffers {
    match b.buffered
    case None => b
    case Some(t) =>
      var c := b.(buffered := None);
      if Blank(t) then c else Record(c, Thought(t))
  }

  function Handle(b: Buffers, m: Message): Buffers {
    match m
    case User(c, id) => Record(b, UserEntry(c, id))
    case Assistant(c, id) =>
      var b1 := if c != "" then b.(lastBody := Some(c), lastIsTool := id != "") else b;
      var b2 := Flush(b1);
      if id != "" then Record(b2, ToolEntry(c, id))
      else if !Blank(c) then b2.(buffered := Some(c)) else b2
  }

  /** What a result posts; nothing when blank. */
  function ResultContent(b: Buffers, r: Result): string {
    if r.isError then
      if Blank(r.failure) then "Session ended unexpectedly." else Trim(r.failure)
    else if b.lastIsTool then (if r.wakeup.Some? then r.wakeup.value else Trim(r.text))
    else if b.lastBody.Some? then Trim(b.lastBody.value) else Trim(r.text)
  }

  function Finish(b: Buffers, r: Result): Buffers {
    var c := b.(buffered := None);
    if c.stop then c.(stop := false)
    else
      var content := ResultContent(c, r);
      var d := c.(lastBody := None, lastIsTool := false);
      if Blank(content) then d else Record(d, Response(content, r.isError))
  }

  function HandleAll(b: Buffers, ms: seq<Message>): Buffers {
    if ms == [] then b else Handle(HandleAll(b, ms[..|ms| - 1]), ms[|ms| - 1])
  }

  function Turn(b: Buffers, ms: seq<Message>, r: Result): Buffers {
    Finish(HandleAll(b, ms), r)
  }

  // ---------- the manager's fields ----------

  class SessionTranscript {
    var lastAssistantBody: Option<string>
    var lastAssistantBodyIsToolInput: bool
    var bufferedAssistantEntry: Option<string>
    var stopRequested: bool
    var entries: seq<Entry>

    ghost function View(): Buffers
      reads this
    {
      Buffers(lastAssistantBody, lastAssistantBodyIsToolInput, bufferedAssistantEntry, stopRequested, entries)
    }

    constructor ()
      ensures View() == Buffers(None, false, None, false, [])
    {
      lastAssistantBody, lastAssistantBodyIsToolInput := None, false;
      bufferedAssistantEntry, stopRequested, entries := None, false, [];
    }

    method SyncEntry(e: Entry)
      modifies this`entries
      ensures View() == Record(old(View()), e)
    {
      entries := entries + [e];
    }

    method FlushBufferedAssistant()
      modifies this
      ensures View() == Flush(old(View()))
    {
      if bufferedAssistantEntry.None? {
        return;
      }
      var buffered := bufferedAssistantEntry.value;
      bufferedAssistantEntry := None;
      if Blank(buffered) {
        return;
      }
      SyncEntry(Thought(buffered));
    }

    method ProcessMessage(m: Message)
      modifies this
      ensures View() == Handle(old(View()), m)
    {
      match m
      case User(content, id) =>
        SyncEntry(UserEntry(content, id));
      case Assistant(content, id) =>
        if content != "" {
          lastAssistantBody := Some(content);
          lastAssistantBodyIsToolInput := id != "";
        }
        FlushBufferedAssistant();
        if id != "" {
          SyncEntry(ToolEntry(content, id));
        } else if !Blank(content) {
          bufferedAssistantEntry := Some(content);
        }
    }

    method ProcessResult(r: Result)
      modifies this
      ensures View() == Finish(old(View()), r)
    {
      bufferedAssistantEntry := None;
      if stopRequested {
        stopRequested := false;
        return;
      }
      var bufferedAssistant := lastAssistantBody;
      var bufferedIsToolInput := lastAssistantBodyIsToolInput;
      lastAssistantBody := None;
      lastAssistantBodyIsToolInput := false;
      var content;
      if r.isError {
        content := Trim(r.failure);
        if content == "" {
          content := "Session ended unexpectedly.";
        }
      } else if bufferedIsToolInput {
        content := if r.wakeup.Some? then r.wakeup.value else Trim(r.text);
      } else {
        content := Trim(if bufferedAssistant.Some? then bufferedAssistant.value else r.text);
      }
      if Blank(content) {
        return;
      }
      SyncEntry(Response(content, r.isError));
    }
  }

  // ---------- what a turn records ----------

  /** The assistant side of a transcript: user entries aside. */
  function Spoken(es: seq<Entry>): seq<Entry> {
    if es == [] then [] else
      Spoken(es[..|es| - 1]) + if es[|es| - 1].UserEntry? then [] else [es[|es| - 1]]
  }

  /** Each assistant message once, in order: tool calls, and texts that are not blank. */
  function Said(ms: seq<Message>): seq<Entry> {
    if ms == [] then [] else
      Said(ms[..|ms| - 1]) +
      match ms[|ms| - 1]
      case User(_, _) => []
      case Assistant(c, id) => if id != "" then [ToolEntry(c, id)] else if Blank(c) then [] else [Thought(c)]
  }

  /** The last assistant message that had content at all. */
  function LastContent(ms: seq<Message>): Option<Message> {
    if ms == [] then None else
      var m := ms[|ms| - 1];
      if m.Assistant? && m.content != "" then Some(m) else LastContent(ms[..|ms| - 1])
  }

  /** The text of the last assistant message, unless that was a tool call or blank. */
  function Pending(ms: seq<Message>): Option<string> {
    if ms == [] then None else
      match ms[|ms| - 1]
      case User(_, _) => Pending(ms[..|ms| - 1])
      case Assistant(c, id) => if id == "" && !Blank(c) then Some(c) else None
  }

  /** What is said before the last assistant message, and that message if a tool call. */
  function Settled(ms: seq<Message>): seq<Entry> {
    if ms == [] then [] else
      match ms[|ms| - 1]
      case User(_, _) => Settled(ms[..|ms| - 1])
      case Assistant(_, id) => if id == "" then Said(ms[..|ms| - 1]) else Said(ms)
  }

  function Thoughts(t: Option<string>): seq<Entry> {
    if t.Some? then [Thought(t.value)] else []
  }

  lemma {:induction false} SaidIsSettled(ms: seq<Message>)
    ensures Said(ms) == Settled(ms) + Thoughts(Pending(ms))
  {
    if ms != [] {
      SaidIsSettled(ms[..|ms| - 1]);
      hide Blank;
    }
  }

  lemma SpokenSnoc(es: seq<Entry>, e: Entry)
    ensures Spoken(es + [e]) == Spoken(es) + if e.UserEntry? then [] else [e]
  {
    assert (es + [e])[..|es|] == es;
  }

  /** `c` is reached from `b` by `ms`: all but a last text has been recorded, that text is
      in the buffer, and the last body is the last content. */
  ghost predicate OneBehind(b: Buffers, ms: seq<Message>, c: Buffers) {
    && Spoken(c.entries) == Spoken(b.entries) + Settled(ms)
    && c.buffered == Pending(ms)
    && c.stop == b.stop
    && (match LastContent(ms)
        case None => c.lastBody == b.lastBody && c.lastIsTool == b.lastIsTool
        case Some(m) => c.lastBody == Some(m.content) && c.lastIsTool == (m.toolUseId != ""))
  }

  lemma {:induction false} PendingNotBlank(ms: seq<Message>)
    ensures Pending(ms).Some? ==> !Blank(Pending(ms).value) && LastContent(ms) == Some(Assistant(Pending(ms).value, ""))
  {
    if ms != [] {
      PendingNotBlank(ms[..|ms| - 1]);
      assert Blank("");
    }
  }

  lemma FlushKeeps(c: Buffers)
    requires c.buffered.Some? ==> !Blank(c.buffered.value)
    ensures Flush(c).buffered.None? && Spoken(Flush(c).entries) == Spoken(c.entries) + Thoughts(c.buffered)
    ensures Flush(c) == c.(buffered := None, entries := Flush(c).entries)
  {
    if c.buffered.Some? {
      SpokenSnoc(c.entries, Thought(c.buffered.value));
    } else {
      assert Spoken(c.entries) + [] == Spoken(c.entries);
    }
  }

  lemma UserStep(b: Buffers, ms: seq<Message>, c: Buffers, m: Message)
    requires OneBehind(b, ms, c) && m.User?
    ensures OneBehind(b, ms + [m], Handle(c, m))
  {
    SpokenSnoc(c.entries, UserEntry(m.content, m.toolUseId));
    assert (ms + [m])[..|ms|] == ms;
    assert Spoken(c.entries) + [] == Spoken(c.entries);
  }

  lemma AssistantSnoc(ms: seq<Message>, c: string, id: string)
    ensures var m := Assistant(c, id);
            && Settled(ms + [m]) == Said(ms) + (if id == "" then [] else [ToolEntry(c, id)])
            && Pending(ms + [m]) == (if id == "" && !Blank(c) then Some(c) else None)
            && LastContent(ms + [m]) == if c != "" then Some(m) else LastContent(ms)
  {
    assert (ms + [Assistant(c, id)])[..|ms|] == ms;
    hide Blank;
  }

  /** After the flush of an assistant message everything said before is recorded. */
  lemma Flushed(b: Buffers, ms: seq<Message>, c: Buffers)
    requires Spoken(c.entries) == Spoken(b.entries) + Settled(ms) && c.buffered == Pending(ms)
    ensures Spoken(Flush(c).entries) == Spoken(b.entries) + Said(ms)
    ensures Flush(c) == c.(buffered := None, entries := Flush(c).entries)
  {
    PendingNotBlank(ms);
    SaidIsSettled(ms);
    FlushKeeps(c);
    hide *;
    assert Spoken(b.entries) + (Settled(ms) + Thoughts(Pending(ms)))
        == Spoken(b.entries) + Settled(ms) + Thoughts(Pending(ms));
  }

  lemma {:induction false} AssistantStep(b: Buffers, ms: seq<Message>, c: Buffers, m: Message)
    requires OneBehind(b, ms, c) && m.Assistant?
    ensures OneBehind(b, ms + [m], Handle(c, m))
  {
    hide Blank, Flush, Spoken, Said, Settled, Pending, LastContent;
    var content, id := m.content, m.toolUseId;
    var c1 := if content != "" then c.(lastBody := Some(content), lastIsTool := id != "") else c;
    var f := Flush(c1);
    Flushed(b, ms, c1);
    AssistantSnoc(ms, content, id);
    if id != "" {
      SpokenSnoc(f.entries, ToolEntry(content, id));
      assert Spoken(b.entries) + (Said(ms) + [ToolEntry(content, id)])
          == Spoken(b.entries) + Said(ms) + [ToolEntry(content, id)];
    } else {
      assert Said(ms) + [] == Said(ms);
    }
  }

  /** The recording lags one text behind, for every stream of messages. */
  lemma {:induction false} HandledOneBehind(b: Buffers, ms: seq<Message>)
    requires b.buffered.None?
    ensures OneBehind(b, ms, HandleAll(b, ms))
  {
    if ms == [] {
      assert Spoken(b.entries) + [] == Spoken(b.entries);
    } else {
      var front, m := ms[..|ms| - 1], ms[|ms| - 1];
      HandledOneBehind(b, front);
      if m.User? {
        UserStep(b, front, HandleAll(b, front), m);
      } else {
        AssistantStep(b, front, HandleAll(b, front), m);
      }
      assert front + [m] == ms;
      hide OneBehind, Handle;
    }
  }

  // ---------- whole turns ----------

  /** The response of a turn: the last content if it was a text, trimmed; after a tool
      call the wake-up rendering or the result's own text, never the tool's input. */
  function TurnResponse(b: Buffers, ms: seq<Message>, r: Result): string {
    if r.isError then
      if Blank(r.failure) then "Session ended unexpectedly." else Trim(r.failure)
    else
      var (body, tool) := match LastContent(ms)
        case None => (b.lastBody, b.lastIsTool)
        case Some(m) => (Some(m.content), m.toolUseId != "");
      if tool then (if r.wakeup.Some? then r.wakeup.value else Trim(r.text))
      else if body.Some? then Trim(body.value) else Trim(r.text)
  }

  function Posted(content: string, isError: bool): seq<Entry> {
    if Blank(content) then [] else [Response(content, isError)]
  }

  lemma FinishRecords(h: Buffers, r: Result)
    ensures var c := Finish(h, r);
            && Spoken(c.entries) == Spoken(h.entries) + (if h.stop then [] else Posted(ResultContent(h, r), r.isError))
            && c.buffered.None? && !c.stop
            && c.lastBody == (if h.stop then h.lastBody else None)
            && c.lastIsTool == (h.stop && h.lastIsTool)
  {
    assert ResultContent(h.(buffered := None), r) == ResultContent(h, r);
    assert Spoken(h.entries) + [] == Spoken(h.entries);
    SpokenSnoc(h.entries, Response(ResultContent(h, r), r.isError));
    hide ResultContent, Blank, Spoken;
  }

  /** Everything a turn adds, for every stream of messages and every result: what was
      said, less a text still waiting at the end, and then the response. After a stop
      there is no response, so a waiting text is lost, and the last body stays behind. */
  lemma {:induction false} TurnRecords(b: Buffers, ms: seq<Message>, r: Result)
    requires b.buffered.None?
    ensures var c := Turn(b, ms, r);
            && Spoken(c.entries) == Spoken(b.entries) + Settled(ms)
                 + (if b.stop then [] else Posted(TurnResponse(b, ms, r), r.isError))
            && c.buffered.None? && !c.stop
            && (!b.stop ==> c.lastBody.None? && !c.lastIsTool)
            && (b.stop && LastContent(ms).Some? ==> c.lastBody == Some(LastContent(ms).value.content))
  {
    var h := HandleAll(b, ms);
    HandledOneBehind(b, ms);
    FinishRecords(h, r);
    assert ResultContent(h, r) == TurnResponse(b, ms, r);
    hide *;
    assert Turn(b, ms, r) == Finish(h, r) by {
      TurnIs(b, ms, r);
    }
    assert Spoken(h.entries) == Spoken(b.entries) + Settled(ms) && h.stop == b.stop
        && (LastContent(ms).Some? ==> h.lastBody == Some(LastContent(ms).value.content)) by {
      OneBehindIs(b, ms, h);
    }
  }

  lemma TurnIs(b: Buffers, ms: seq<Message>, r: Result)
    ensures Turn(b, ms, r) == Finish(HandleAll(b, ms), r)
  {
  }

  lemma OneBehindIs(b: Buffers, ms: seq<Message>, c: Buffers)
    requires OneBehind(b, ms, c)
    ensures Spoken(c.entries) == Spoken(b.entries) + Settled(ms) && c.stop == b.stop
    ensures LastContent(ms).Some? ==> c.lastBody == Some(LastContent(ms).value.content)
  {
  }

  predicate AllHaveContent(ms: seq<Message>) {
    forall k :: 0 <= k < |ms| && ms[k].Assistant? ==> ms[k].content != ""
  }

  predicate Clean(b: Buffers) {
    b.lastBody.None? && !b.lastIsTool && b.buffered.None? && !b.stop
  }

  lemma {:induction false} ContentLast(ms: seq<Message>)
    requires AllHaveContent(ms)
    ensures LastContent(ms).Some? && LastContent(ms).value.toolUseId == "" && !Blank(LastContent(ms).value.content)
            ==> Pending(ms) == Some(LastContent(ms).value.content)
  {
    if ms != [] && ms[|ms| - 1].User? {
      ContentLast(ms[..|ms| - 1]);
    }
  }

  /** The response when no text is waiting: a wake-up or the result's own text, and
      nothing at all when the last content is a text, which can only be a blank one. */
  function Closing(ms: seq<Message>, r: Result): seq<Entry> {
    match LastContent(ms)
    case None => Posted(Trim(r.text), false)
    case Some(m) =>
      if m.toolUseId == "" then []
      else Posted(if r.wakeup.Some? then r.wakeup.value else Trim(r.text), false)
  }

  /** Exactly once: from clean buffers, in a turn whose assistant messages all have
      content and that ends in a good result, each text that is not blank is recorded once,
      in order: the last message as the response, every other one as a thought. */
  lemma {:induction false} ExactlyOnce(b: Buffers, ms: seq<Message>, r: Result)
    requires Clean(b) && AllHaveContent(ms) && !r.isError
    ensures Said(ms) == Settled(ms) + Thoughts(Pending(ms))
    ensures Spoken(Turn(b, ms, r).entries) == Spoken(b.entries) + Settled(ms)
              + match Pending(ms)
                case Some(t) => [Response(Trim(t), false)]
                case None => Closing(ms, r)
    ensures Clean(Turn(b, ms, r))
  {
    SaidIsSettled(ms);
    TurnRecords(b, ms, r);
    ContentLast(ms);
    PendingNotBlank(ms);
    TrimTwice(match LastContent(ms) case None => "" case Some(m) => m.content);
    hide Said, Settled, Pending, LastContent, Turn, Trim, Blank, Spoken;
  }

  // ---------- one message and one result, spelled out ----------

  /** What one message adds: a user entry; or the text that waited, if any, and the tool
      call, or else the new text waits. Any content is remembered as the last. */
  lemma {:induction false} MessageRecords(b: Buffers, content: string, id: string)
    ensures Handle(b, User(content, id)) == b.(entries := b.entries + [UserEntry(content, id)])
    ensures var waited := if b.buffered.Some? && Trim(b.buffered.value) != "" then [Thought(b.buffered.value)] else [];
            var c := Handle(b, Assistant(content, id));
            && c.entries == b.entries + waited + (if id != "" then [ToolEntry(content, id)] else [])
            && c.buffered == (if id == "" && Trim(content) != "" then Some(content) else None)
            && c.lastBody == (if content != "" then Some(content) else b.lastBody)
            && c.lastIsTool == (if content != "" then id != "" else b.lastIsTool) && c.stop == b.stop
  {
    assert b.entries + [] == b.entries;
    hide Trim;
  }

  /** What a result adds: nothing after a stop, which it uses up; else the error's text, or
      after a tool call the wake-up or the result's own text, or the last text, trimmed. */
  lemma {:induction false} ResultRecords(b: Buffers, r: Result)
    ensures var c := Finish(b, r);
            var said := if r.isError then
                          if Trim(r.failure) == "" then "Session ended unexpectedly." else Trim(r.failure)
                        else if b.lastIsTool then if r.wakeup.Some? then r.wakeup.value else Trim(r.text)
                        else if b.lastBody.Some? then Trim(b.lastBody.value) else Trim(r.text);
            && c.buffered == None && !c.stop
            && c.lastBody == (if b.stop then b.lastBody else None) && c.lastIsTool == (b.stop && b.lastIsTool)
            && c.entries == b.entries + if b.stop || Trim(said) == "" then [] else [Response(said, r.isError)]
  {
    assert b.entries + [] == b.entries;
    hide Trim;
  }

  function UserEntries(es: seq<Entry>): seq<Entry> {
    if es == [] then [] else
      UserEntries(es[..|es| - 1]) + if es[|es| - 1].UserEntry? then [es[|es| - 1]] else []
  }

  /** Each user message is recorded, once and in order, whatever comes between. */
  lemma {:induction false} UsersRecorded(b: Buffers, ms: seq<Message>, m: Message)
    ensures UserEntries(HandleAll(b, ms + [m]).entries) ==
            UserEntries(HandleAll(b, ms).entries) + if m.User? then [UserEntry(m.content, m.toolUseId)] else []
  {
    var h := HandleAll(b, ms);
    assert (ms + [m])[..|ms|] == ms;
    MessageRecords(h, m.content, m.toolUseId);
    var waited := if h.buffered.Some? && Trim(h.buffered.value) != "" then [Thought(h.buffered.value)] else [];
    var tool := if m.toolUseId != "" then [ToolEntry(m.content, m.toolUseId)] else [];
    assert h.entries + [] == h.entries && (h.entries + waited) + [] == h.entries + waited;
    assert UserEntries(h.entries) + [] == UserEntries(h.entries);
    hide Handle, HandleAll, Trim;
    if m.User? {
      UserSnoc(h.entries, UserEntry(m.content, m.toolUseId));
    } else {
      if waited != [] {
        UserSnoc(h.entries, waited[0]);
      }
      if tool != [] {
        UserSnoc(h.entries + waited, tool[0]);
      }
    }
  }

  lemma {:induction false} UserSnoc(es: seq<Entry>, e: Entry)
    ensures UserEntries(es + [e]) == UserEntries(es) + if e.UserEntry? then [e] else []
  {
    assert (es + [e])[..|es|] == es;
  }

  // ---------- when a text is shown twice ----------

  /** The last content is a text that is not blank, but an assistant message without
      content follows it: the flush records the text, and the response repeats it. */
  predicate Repeats(ms: seq<Message>) {
    Pending(ms).None? && match LastContent(ms)
      case None => false
      case Some(m) => m.toolUseId == "" && !Blank(m.content)
  }

  /** The texts a transcript shows, trimmed, whether as thoughts or as responses. */
  function Shown(es: seq<Entry>): seq<string> {
    if es == [] then [] else
      Shown(es[..|es| - 1]) +
      match es[|es| - 1]
      case Thought(c) => [Trim(c)]
      case Response(c, _) => [Trim(c)]
      case _ => []
  }

  lemma {:induction false} ShownConcat(a: seq<Entry>, b: seq<Entry>)
    ensures Shown(a + b) == Shown(a) + Shown(b)
  {
    if b == [] {
      assert a + b == a;
    } else {
      assert (a + b)[..|a + b| - 1] == a + b[..|b| - 1];
      ShownConcat(a, b[..|b| - 1]);
      hide Trim;
    }
  }

  lemma OneShown(e: Entry)
    requires e.Thought? || e.Response?
    ensures Shown([e]) == [Trim(e.content)]
  {
    assert [e][..0] == [];
  }

  /** What a good turn that ends in a text adds to the transcript's texts. */
  lemma {:induction false} TurnShows(b: Buffers, ms: seq<Message>, r: Result)
    requires Clean(b) && !r.isError && LastContent(ms).Some? && LastContent(ms).value.toolUseId == ""
    ensures var text := LastContent(ms).value.content;
            Shown(Spoken(Turn(b, ms, r).entries))
            == Shown(Spoken(b.entries)) + Shown(Settled(ms)) + if Blank(text) then [] else [Trim(text)]
  {
    var text := LastContent(ms).value.content;
    TurnRecords(b, ms, r);
    TrimTwice(text);
    var response := Posted(Trim(text), false);
    assert TurnResponse(b, ms, r) == Trim(text);
    OneShown(Response(Trim(text), false));
    ShownConcat(Spoken(b.entries) + Settled(ms), response);
    ShownConcat(Spoken(b.entries), Settled(ms));
    hide Settled, LastContent, Turn, Trim, TurnResponse, Blank, Spoken;
  }

  /** Whatever the messages: when the last content is a text, the turn shows every text
      exactly once, in order, if and only if no empty message follows that text. */
  lemma {:induction false} OnceExactly(b: Buffers, ms: seq<Message>, r: Result)
    requires Clean(b) && !r.isError && LastContent(ms).Some? && LastContent(ms).value.toolUseId == ""
    ensures Shown(Spoken(Turn(b, ms, r).entries)) == Shown(Spoken(b.entries)) + Shown(Said(ms)) <==> !Repeats(ms)
  {
    TurnShows(b, ms, r);
    SaidShows(ms);
    PendingNotBlank(ms);
    hide *;
    var text := LastContent(ms).value.content;
    var before, settled := Shown(Spoken(b.entries)), Shown(Settled(ms));
    RepeatsIs(ms);
    if Pending(ms).Some? {
      assert before + (settled + [Trim(text)]) == before + settled + [Trim(text)];
    } else {
      assert settled + [] == settled && before + settled + [] == before + settled;
      if Repeats(ms) {
        assert |before + settled + [Trim(text)]| == |before + settled| + 1;
      }
    }
  }

  lemma RepeatsIs(ms: seq<Message>)
    requires LastContent(ms).Some? && LastContent(ms).value.toolUseId == ""
    ensures Repeats(ms) <==> Pending(ms).None? && !Blank(LastContent(ms).value.content)
  {
  }

  lemma SaidShows(ms: seq<Message>)
    ensures Shown(Said(ms)) == Shown(Settled(ms)) + if Pending(ms).Some? then [Trim(Pending(ms).value)] else []
  {
    SaidIsSettled(ms);
    ShownConcat(Settled(ms), Thoughts(Pending(ms)));
    if Pending(ms).Some? {
      OneShown(Thought(Pending(ms).value));
    }
    hide Settled, Said, Pending, Trim;
  }
}
