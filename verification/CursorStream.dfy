/** The Cursor runner's event stream: text deltas coalesced, tool calls framed, one init
    and one result around them. */
module CursorStream {
  import opened Whitespace
  import opened Wrappers

  datatype Block = TextBlock(text: string) | ToolBlock(id: string, name: string, input: string) | OtherBlock

  datatype Status = Errored(message: string) | Cancelled | Expired | OtherStatus

  datatype Event =
    | System
    | Assistant(blocks: seq<Block>)
    | User(text: string)
    | ToolCall(id: string, running: bool, name: string, input: string, result: string, isError: bool)
    | Thinking
    | StatusEvent(status: Status)
    | Unknown

  datatype Message =
    | Init
    | Text(content: string)
    | UserText(content: string)
    | Use(id: string, name: string, input: string)
    | Result(id: string, content: string, isError: bool)
    | Success(content: string)
    | Failure(error: string)

  const DEFAULT_FAILURE := "Cursor execution failed"
  const DEFAULT_SUCCESS := "Cursor session completed successfully"

  datatype Runner = Runner(
    messages: seq<Message>,
    hasInit: bool,
    buffer: string,
    lastText: Option<string>,
    pending: Option<Message>,
    errors: seq<string>,
    used: set<string>)

  const FRESH := Runner([], false, "", None, None, [], {})

  function Push(r: Runner, m: Message): Runner {
    r.(messages := r.messages + [m])
  }

  function EmitInit(r: Runner): Runner {
    if r.hasInit then r else Push(r.(hasInit := true), Init)
  }

  function Flush(r: Runner): Runner {
    var c := r.(buffer := "");
    if Blank(r.buffer) then c else Push(c.(lastText := Some(r.buffer)), Text(r.buffer))
  }

  function EmitUse(r: Runner, id: string, name: string, input: string): Runner {
    if id in r.used then r else Push(r.(used := r.used + {id}), Use(id, name, input))
  }

  function ResultText(result: string): string {
    if result == "" then "Tool completed" else result
  }

  function HandleBlock(r: Runner, b: Block): Runner {
    match b
    case TextBlock(t) => r.(buffer := r.buffer + t)
    case ToolBlock(id, n, x) => EmitUse(Flush(r), id, n, x)
    case OtherBlock => r
  }

  function HandleBlocks(r: Runner, bs: seq<Block>): Runner {
    if bs == [] then r else HandleBlock(HandleBlocks(r, bs[..|bs| - 1]), bs[|bs| - 1])
  }

  function HandleStatus(r: Runner, s: Status): Runner {
    match s
    case Errored(m) =>
      var text := if m == "" then "Cursor session errored" else m;
      r.(errors := r.errors + [text], pending := Some(Failure(text)))
    case Cancelled => r.(pending := Some(Failure("Cursor session cancelled")))
    case Expired => r.(pending := Some(Failure("Cursor session expired")))
    case OtherStatus => r
  }

  function Handle(r: Runner, e: Event): Runner {
    match e
    case System => EmitInit(r)
    case Assistant(bs) => HandleBlocks(EmitInit(r), bs)
    case User(t) =>
      var c := EmitInit(Flush(r));
      if Blank(t) then c else Push(c, UserText(Trim(t)))
    case ToolCall(id, running, n, x, result, bad) =>
      var c := EmitUse(EmitInit(Flush(r)), id, n, x);
      if running then c else Push(c, Result(id, ResultText(result), bad))
    case Thinking => Flush(r)
    case StatusEvent(s) => HandleStatus(Flush(r), s)
    case Unknown => r
  }

  function Feed(r: Runner, es: seq<Event>): Runner {
    if es == [] then r else Handle(Feed(r, es[..|es| - 1]), es[|es| - 1])
  }

  /** The message of the error, which is the stock one when there is none. */
  function ErrorText(error: Option<string>, errors: seq<string>): string {
    if error.None? then DEFAULT_FAILURE
    else if error.value != "" then error.value
    else LastError(errors)
  }

  function LastError(errors: seq<string>): string {
    if errors != [] && errors[|errors| - 1] != "" then errors[|errors| - 1] else DEFAULT_FAILURE
  }

  function Outcome(r: Runner, error: Option<string>): Message {
    if r.pending.Some? then r.pending.value
    else if error.Some? || r.errors != [] then Failure(ErrorText(error, r.errors))
    else Success(if r.lastText.Some? && r.lastText.value != "" then r.lastText.value else DEFAULT_SUCCESS)
  }

  function Finalize(r: Runner, error: Option<string>): Runner {
    var f := Flush(EmitInit(r));
    Push(f, Outcome(f, error))
  }

  /** How a session goes: an error before the stream begins, in installing the permission
      files or in creating or resuming the agent; or a stream, with the error that ends it. */
  datatype Course = Refused(cause: string) | Streamed(events: seq<Event>, error: Option<string>)

  /** A whole session. `emit("error")` throws when nobody listens for errors. Thrown from
      the finalization after a stream it is caught by `start`, which finalizes again with what
      was thrown; thrown from the finalization in that handler it leaves `start`. */
  function Session(c: Course, listens: bool): Runner {
    match c
    case Refused(cause) => Finalize(FRESH, Some(cause))
    case Streamed(es, error) =>
      var r := Finalize(Feed(EmitInit(FRESH), es), error);
      if listens || (error.None? && r.errors == []) then r
      else Finalize(r, Some(if error.Some? then error.value else LastError(r.errors)))
  }

  // ---------- the runner's fields ----------

  class CursorRunner {
    var messages: seq<Message>
    var hasInitMessage: bool
    var assistantTextBuffer: string
    var lastAssistantText: Option<string>
    var pendingResultMessage: Option<Message>
    var errorMessages: seq<string>
    var emittedToolUseIds: set<string>

    ghost function View(): Runner
      reads this
    {
      Runner(messages, hasInitMessage, assistantTextBuffer, lastAssistantText, pendingResultMessage, errorMessages,
             emittedToolUseIds)
    }

    constructor ()
      ensures View() == FRESH
    {
      messages, hasInitMessage, assistantTextBuffer, lastAssistantText := [], false, "", None;
      pendingResultMessage, errorMessages, emittedToolUseIds := None, [], {};
    }

    method PushMessage(message: Message)
      modifies this`messages
      ensures View() == Push(old(View()), message)
    {
      messages := messages + [message];
    }

    method EmitInitMessage()
      modifies this
      ensures View() == EmitInit(old(View()))
    {
      if hasInitMessage {
        return;
      }
      hasInitMessage := true;
      PushMessage(Init);
    }

    method FlushAssistantTextBuffer()
      modifies this
      ensures View() == Flush(old(View()))
    {
      var text := assistantTextBuffer;
      assistantTextBuffer := "";
      if |Trim(text)| == 0 {
        return;
      }
      lastAssistantText := Some(text);
      PushMessage(Text(text));
    }

    method EmitToolUse(id: string, name: string, input: string)
      modifies this
      ensures View() == EmitUse(old(View()), id, name, input)
    {
      if id in emittedToolUseIds {
        return;
      }
      emittedToolUseIds := emittedToolUseIds + {id};
      PushMessage(Use(id, name, input));
    }

    method HandleAssistantEvent(blocks: seq<Block>)
      modifies this
      ensures View() == HandleBlocks(EmitInit(old(View())), blocks)
    {
      EmitInitMessage();
      for i := 0 to |blocks|
        invariant View() == HandleBlocks(EmitInit(old(View())), blocks[..i])
      {
        assert blocks[..i + 1][..i] == blocks[..i];
        match blocks[i] {
          case TextBlock(text) =>
            if |text| == 0 {
              assert assistantTextBuffer + text == assistantTextBuffer;
              continue;
            }
            assistantTextBuffer := assistantTextBuffer + text;
          case ToolBlock(id, name, input) =>
            FlushAssistantTextBuffer();
            EmitToolUse(id, name, input);
          case OtherBlock =>
        }
      }
      assert blocks[..|blocks|] == blocks;
    }

    method HandleSdkEvent(event: Event)
      modifies this
      ensures View() == Handle(old(View()), event)
    {
      match event {
        case System =>
          EmitInitMessage();
        case Assistant(blocks) =>
          HandleAssistantEvent(blocks);
        case User(text) =>
          FlushAssistantTextBuffer();
          EmitInitMessage();
          var trimmed := Trim(text);
          if trimmed == "" {
            return;
          }
          PushMessage(UserText(trimmed));
        case ToolCall(id, running, name, input, result, isError) =>
          FlushAssistantTextBuffer();
          EmitInitMessage();
          EmitToolUse(id, name, input);
          if running {
            return;
          }
          PushMessage(Result(id, ResultText(result), isError));
        case Thinking =>
          FlushAssistantTextBuffer();
        case StatusEvent(status) =>
          FlushAssistantTextBuffer();
          HandleStatusEvent(status);
        case Unknown =>
      }
    }

    method HandleStatusEvent(status: Status)
      modifies this
      ensures View() == HandleStatus(old(View()), status)
    {
      match status {
        case Errored(m) =>
          var message := if m == "" then "Cursor session errored" else m;
          errorMessages := errorMessages + [message];
          pendingResultMessage := Some(Failure(message));
        case Cancelled =>
          pendingResultMessage := Some(Failure("Cursor session cancelled"));
        case Expired =>
          pendingResultMessage := Some(Failure("Cursor session expired"));
        case OtherStatus =>
      }
    }

    method FinalizeSession(error: Option<string>)
      modifies this
      ensures View() == Finalize(old(View()), error)
    {
      EmitInitMessage();
      FlushAssistantTextBuffer();
      var resultMessage;
      if pendingResultMessage.Some? {
        resultMessage := pendingResultMessage.value;
      } else if error.Some? || |errorMessages| > 0 {
        resultMessage := Failure(ErrorText(error, errorMessages));
      } else {
        resultMessage := Success(
          if lastAssistantText.Some? && lastAssistantText.value != "" then lastAssistantText.value
          else DEFAULT_SUCCESS);
      }
      PushMessage(resultMessage);
    }

    /** `start`, once the session is set up: what is thrown in it is in the course. */
    method Start(course: Course, listens: bool)
      modifies this
      ensures View() == Session(course, listens)
    {
      messages, hasInitMessage, assistantTextBuffer, lastAssistantText := [], false, "", None;
      pendingResultMessage, errorMessages, emittedToolUseIds := None, [], {};
      hide Handle, Finalize;
      match course {
        case Refused(cause) =>
          FinalizeSession(Some(cause));
        case Streamed(events, error) =>
          EmitInitMessage();
          for i := 0 to |events|
            invariant View() == Feed(EmitInit(FRESH), events[..i])
          {
            assert events[..i + 1][..i] == events[..i];
            HandleSdkEvent(events[i]);
          }
          assert events[..|events|] == events;
          FinalizeSession(error);
          if !listens && (error.Some? || |errorMessages| > 0) {
            var thrown := if error.Some? then error.value else LastError(errorMessages);
            FinalizeSession(Some(thrown));
          }
      }
    }
  }

  // ---------- what the output must be, from the events alone ----------

  /** A text delta, or anything that ends a run of deltas, with the messages it brings. */
  datatype Signal = Delta(text: string) | Mark(brings: seq<Message>)

  function BlockSignals(bs: seq<Block>): seq<Signal> {
    if bs == [] then [] else
      BlockSignals(bs[..|bs| - 1]) +
      match bs[|bs| - 1]
      case TextBlock(t) => if t == "" then [] else [Delta(t)]
      case ToolBlock(id, n, x) => [Mark([Use(id, n, x)])]
      case OtherBlock => []
  }

  function EventSignals(e: Event): seq<Signal> {
    match e
    case Assistant(bs) => BlockSignals(bs)
    case User(t) => [Mark(if Blank(t) then [] else [UserText(Trim(t))])]
    case ToolCall(id, running, n, x, result, bad) =>
      [Mark([Use(id, n, x)] + if running then [] else [Result(id, ResultText(result), bad)])]
    case Thinking => [Mark([])]
    case StatusEvent(_) => [Mark([])]
    case _ => []
  }

  function Signals(es: seq<Event>): seq<Signal> {
    if es == [] then [] else Signals(es[..|es| - 1]) + EventSignals(es[|es| - 1])
  }

  /** How many deltas the signals begin with. */
  function RunLength(ss: seq<Signal>): (n: nat)
    ensures n <= |ss|
  {
    if ss == [] || !ss[0].Delta? then 0 else 1 + RunLength(ss[1..])
  }

  function Concat(ss: seq<Signal>): string {
    if ss == [] then "" else (if ss[0].Delta? then ss[0].text else "") + Concat(ss[1..])
  }

  function Chunk(text: string): seq<Message> {
    if Blank(text) then [] else [Text(text)]
  }

  /** Each maximal run of deltas is one text, unless blank; each mark brings its messages. */
  function Plain(ss: seq<Signal>): seq<Message>
    decreases |ss|
  {
    if ss == [] then []
    else if ss[0].Delta? then
      var n := RunLength(ss);
      Chunk(Concat(ss[..n])) + Plain(ss[n..])
    else ss[0].brings + Plain(ss[1..])
  }

  /** Only the first use of each tool id is kept. */
  function FirstUses(ms: seq<Message>, used: set<string>): seq<Message> {
    if ms == [] then []
    else if ms[0].Use? && ms[0].id in used then FirstUses(ms[1..], used)
    else [ms[0]] + FirstUses(ms[1..], if ms[0].Use? then used + {ms[0].id} else used)
  }

  function Verdict(es: seq<Event>): Option<Message> {
    if es == [] then None else
      match es[|es| - 1]
      case StatusEvent(Errored(m)) => Some(Failure(if m == "" then "Cursor session errored" else m))
      case StatusEvent(Cancelled) => Some(Failure("Cursor session cancelled"))
      case StatusEvent(Expired) => Some(Failure("Cursor session expired"))
      case _ => Verdict(es[..|es| - 1])
  }

  function LastText(ms: seq<Message>): Option<string> {
    if ms == [] then None
    else if ms[|ms| - 1].Text? then Some(ms[|ms| - 1].content) else LastText(ms[..|ms| - 1])
  }

  function Ending(es: seq<Event>, error: Option<string>, body: seq<Message>): Message {
    if Verdict(es).Some? then Verdict(es).value
    else if error.Some? then Failure(if error.value != "" then error.value else DEFAULT_FAILURE)
    else Success(if LastText(body).Some? && LastText(body).value != "" then LastText(body).value else DEFAULT_SUCCESS)
  }

  predicate ReportedError(es: seq<Event>) {
    exists k :: 0 <= k < |es| && es[k].StatusEvent? && es[k].status.Errored?
  }

  // ---------- one signal at a time ----------

  datatype Body = Body(messages: seq<Message>, buffer: string, used: set<string>)

  function Emit(b: Body, m: Message): Body {
    if m.Use? && m.id in b.used then b
    else Body(b.messages + [m], b.buffer, if m.Use? then b.used + {m.id} else b.used)
  }

  function EmitAll(b: Body, ms: seq<Message>): Body
    decreases |ms|
  {
    if ms == [] then b else EmitAll(Emit(b, ms[0]), ms[1..])
  }

  function FlushBody(b: Body): Body {
    EmitAll(b.(buffer := ""), Chunk(b.buffer))
  }

  function Step(b: Body, s: Signal): Body {
    match s
    case Delta(t) => b.(buffer := b.buffer + t)
    case Mark(ms) => EmitAll(FlushBody(b), ms)
  }

  function Fold(b: Body, ss: seq<Signal>): Body
    decreases |ss|
  {
    if ss == [] then b else Fold(Step(b, ss[0]), ss[1..])
  }

  lemma {:induction false} FoldConcat(b: Body, x: seq<Signal>, y: seq<Signal>)
    ensures Fold(b, x + y) == Fold(Fold(b, x), y)
    decreases |x|
  {
    if x == [] {
      assert x + y == y;
    } else {
      assert (x + y)[1..] == x[1..] + y;
      FoldConcat(Step(b, x[0]), x[1..], y);
      hide Step;
    }
  }

  function UsesIn(ms: seq<Message>): set<string> {
    if ms == [] then {} else UsesIn(ms[1..]) + if ms[0].Use? then {ms[0].id} else {}
  }

  lemma {:induction false} EmitAllIs(b: Body, ms: seq<Message>)
    ensures EmitAll(b, ms) == Body(b.messages + FirstUses(ms, b.used), b.buffer, b.used + UsesIn(ms))
    decreases |ms|
  {
    if ms == [] {
      assert b.messages + [] == b.messages;
    } else {
      EmitAllIs(Emit(b, ms[0]), ms[1..]);
      var kept := if ms[0].Use? && ms[0].id in b.used then [] else [ms[0]];
      var rest := FirstUses(ms[1..], Emit(b, ms[0]).used);
      assert Emit(b, ms[0]).messages == b.messages + kept;
      assert b.messages + kept + rest == b.messages + (kept + rest);
      assert kept + rest == FirstUses(ms, b.used);
    }
  }

  lemma {:induction false} FirstUsesConcat(x: seq<Message>, y: seq<Message>, used: set<string>)
    ensures FirstUses(x + y, used) == FirstUses(x, used) + FirstUses(y, used + UsesIn(x))
  {
    if x == [] {
      assert x + y == y && used + {} == used;
    } else {
      var next := if x[0].Use? then used + {x[0].id} else used;
      assert (x + y)[1..] == x[1..] + y;
      FirstUsesConcat(x[1..], y, next);
      assert next + UsesIn(x[1..]) == used + UsesIn(x);
      if x[0].Use? && x[0].id in used {
        assert next == used;
      } else {
        var rest, more := FirstUses(x[1..], next), FirstUses(y, used + UsesIn(x));
        assert [x[0]] + (rest + more) == [x[0]] + rest + more;
      }
    }
  }

  /** What is still to come when `text` waits in the buffer before the signals. */
  function PlainFrom(text: string, ss: seq<Signal>): seq<Message> {
    var n := RunLength(ss);
    Chunk(text + Concat(ss[..n])) + Plain(ss[n..])
  }

  lemma NothingWaits(ss: seq<Signal>)
    ensures PlainFrom("", ss) == Plain(ss)
  {
    assert Blank("");
    if ss == [] || !ss[0].Delta? {
      assert ss[..0] == [] && ss[0..] == ss;
    } else {
      assert "" + Concat(ss[..RunLength(ss)]) == Concat(ss[..RunLength(ss)]);
    }
  }

  lemma DeltaFirst(text: string, t: string, rest: seq<Signal>)
    ensures PlainFrom(text, [Delta(t)] + rest) == PlainFrom(text + t, rest)
  {
    var ss := [Delta(t)] + rest;
    assert ss[1..] == rest;
    var n := RunLength(rest);
    assert RunLength(ss) == n + 1;
    assert ss[..n + 1] == [Delta(t)] + rest[..n];
    assert ss[..n + 1][1..] == rest[..n];
    assert ss[n + 1..] == rest[n..];
    assert text + (t + Concat(rest[..n])) == text + t + Concat(rest[..n]);
  }

  lemma MarkFirst(text: string, ms: seq<Message>, rest: seq<Signal>)
    ensures PlainFrom(text, [Mark(ms)] + rest) == Chunk(text) + (ms + PlainFrom("", rest))
  {
    var ss := [Mark(ms)] + rest;
    NothingWaits(rest);
    assert ss[1..] == rest && ss[..0] == [] && ss[0..] == ss;
    assert text + "" == text;
  }

  /** Folding and flushing gives the runs of deltas and the marks, in order. */
  lemma {:induction false} FoldIs(b: Body, ss: seq<Signal>)
    ensures FlushBody(Fold(b, ss)).messages == b.messages + FirstUses(PlainFrom(b.buffer, ss), b.used)
    decreases |ss|
  {
    if ss == [] {
      EmitAllIs(b.(buffer := ""), Chunk(b.buffer));
      assert b.buffer + "" == b.buffer && Chunk(b.buffer) + [] == Chunk(b.buffer);
    } else {
      var rest := ss[1..];
      assert ss == [ss[0]] + rest;
      FoldIs(Step(b, ss[0]), rest);
      match ss[0] {
        case Delta(t) =>
          DeltaFirst(b.buffer, t, rest);
        case Mark(ms) =>
          MarkFirst(b.buffer, ms, rest);
          MarkStep(b, ms, PlainFrom("", rest));
      }
      hide PlainFrom, FirstUses, FlushBody, EmitAll;
    }
  }

  lemma MarkStep(b: Body, ms: seq<Message>, more: seq<Message>)
    ensures var c := EmitAll(FlushBody(b), ms);
            && c.buffer == ""
            && c.messages + FirstUses(more, c.used) == b.messages + FirstUses(Chunk(b.buffer) + (ms + more), b.used)
  {
    var f, chunk := FlushBody(b), Chunk(b.buffer);
    EmitAllIs(b.(buffer := ""), chunk);
    EmitAllIs(f, ms);
    FirstUsesConcat(chunk, ms + more, b.used);
    FirstUsesConcat(ms, more, f.used);
    hide FirstUses, EmitAll, UsesIn, Chunk;
    var x, y, z := FirstUses(chunk, b.used), FirstUses(ms, f.used), FirstUses(more, f.used + UsesIn(ms));
    assert b.messages + x + y + z == b.messages + (x + (y + z));
  }

  // ---------- the runner follows the signals ----------

  /** `r` has said its init and then what `b` has. */
  ghost predicate Follows(r: Runner, b: Body) {
    && r.hasInit && r.messages == [Init] + b.messages && r.buffer == b.buffer && r.used == b.used
    && r.lastText == LastText(b.messages)
  }

  lemma PushFollows(r: Runner, b: Body, m: Message)
    requires Follows(r, b) && !m.Use? && !m.Text?
    ensures Follows(Push(r, m), Emit(b, m))
  {
    assert (b.messages + [m])[..|b.messages|] == b.messages;
    assert [Init] + b.messages + [m] == [Init] + (b.messages + [m]);
  }

  lemma UseFollows(r: Runner, b: Body, id: string, name: string, input: string)
    requires Follows(r, b)
    ensures Follows(EmitUse(r, id, name, input), Emit(b, Use(id, name, input)))
  {
    var m := Use(id, name, input);
    assert (b.messages + [m])[..|b.messages|] == b.messages;
    assert [Init] + b.messages + [m] == [Init] + (b.messages + [m]);
  }

  lemma FlushFollows(r: Runner, b: Body)
    requires Follows(r, b)
    ensures Follows(Flush(r), FlushBody(b))
  {
    var m := Text(b.buffer);
    assert (b.messages + [m])[..|b.messages|] == b.messages;
    assert [Init] + b.messages + [m] == [Init] + (b.messages + [m]);
    assert [m][1..] == [];
    assert EmitAll(b.(buffer := ""), [m]) == Emit(b.(buffer := ""), m);
    hide Blank;
  }

  lemma OneSignal(b: Body, s: Signal)
    ensures Fold(b, [s]) == Step(b, s)
  {
  }

  lemma OneMessage(b: Body, m: Message)
    ensures EmitAll(b, [m]) == Emit(b, m) && EmitAll(b, []) == b
  {
  }

  lemma BlockFollows(r: Runner, b: Body, block: Block)
    requires Follows(r, b)
    ensures Follows(HandleBlock(r, block),
                    Fold(b, match block
                            case TextBlock(t) => if t == "" then [] else [Delta(t)]
                            case ToolBlock(id, n, x) => [Mark([Use(id, n, x)])]
                            case OtherBlock => []))
  {
    match block
    case TextBlock(t) =>
      if t == "" {
        assert r.buffer + t == r.buffer;
      } else {
        OneSignal(b, Delta(t));
      }
    case ToolBlock(id, n, x) =>
      FlushFollows(r, b);
      UseFollows(Flush(r), FlushBody(b), id, n, x);
      OneMessage(FlushBody(b), Use(id, n, x));
      OneSignal(b, Mark([Use(id, n, x)]));
    case OtherBlock =>
  }

  lemma {:induction false} BlocksFollow(r: Runner, b: Body, bs: seq<Block>)
    requires Follows(r, b)
    ensures Follows(HandleBlocks(r, bs), Fold(b, BlockSignals(bs)))
  {
    if bs != [] {
      var front, last := bs[..|bs| - 1], bs[|bs| - 1];
      BlocksFollow(r, b, front);
      BlockFollows(HandleBlocks(r, front), Fold(b, BlockSignals(front)), last);
      FoldConcat(b, BlockSignals(front),
                 match last
                 case TextBlock(t) => if t == "" then [] else [Delta(t)]
                 case ToolBlock(id, n, x) => [Mark([Use(id, n, x)])]
                 case OtherBlock => []);
      hide Follows, HandleBlock, Fold;
    }
  }

  lemma EventFollows(r: Runner, b: Body, e: Event)
    requires Follows(r, b)
    ensures Follows(Handle(r, e), Fold(b, EventSignals(e)))
  {
    FlushFollows(r, b);
    var f, g := Flush(r), FlushBody(b);
    match e
    case System =>
    case Assistant(bs) => BlocksFollow(r, b, bs);
    case User(t) =>
      OneSignal(b, EventSignals(e)[0]);
      OneMessage(g, UserText(Trim(t)));
      PushFollows(f, g, UserText(Trim(t)));
    case ToolCall(id, running, n, x, result, bad) =>
      var use, answer := Use(id, n, x), Result(id, ResultText(result), bad);
      OneSignal(b, EventSignals(e)[0]);
      UseFollows(f, g, id, n, x);
      PushFollows(EmitUse(f, id, n, x), Emit(g, use), answer);
      TwoMessages(g, use, answer);
      OneMessage(g, use);
    case Thinking =>
      OneSignal(b, Mark([]));
      OneMessage(g, Init);
    case StatusEvent(s) =>
      OneSignal(b, Mark([]));
      OneMessage(g, Init);
    case Unknown =>
  }

  lemma TwoMessages(b: Body, m: Message, n: Message)
    ensures EmitAll(b, [m] + [n]) == Emit(Emit(b, m), n)
  {
    assert ([m] + [n])[1..] == [n];
    OneMessage(Emit(b, m), n);
  }

  /** The pending result is the last verdict, and an error without one is impossible. */
  ghost predicate Judged(r: Runner, es: seq<Event>) {
    r.pending == Verdict(es) && (r.errors != [] ==> r.pending.Some?) && (r.errors != [] <==> ReportedError(es))
  }

  lemma {:induction false} BlocksQuiet(r: Runner, bs: seq<Block>)
    ensures HandleBlocks(r, bs).pending == r.pending && HandleBlocks(r, bs).errors == r.errors
  {
    if bs != [] {
      BlocksQuiet(r, bs[..|bs| - 1]);
    }
  }

  lemma ReportedSnoc(es: seq<Event>, e: Event)
    ensures ReportedError(es + [e]) <==> ReportedError(es) || (e.StatusEvent? && e.status.Errored?)
  {
    var all := es + [e];
    assert all[|es|] == e;
    if ReportedError(es) {
      var k :| 0 <= k < |es| && es[k].StatusEvent? && es[k].status.Errored?;
      assert all[k] == es[k];
    }
  }

  /** Only a status event changes the verdict or the errors. */
  lemma EventQuiet(r: Runner, e: Event)
    requires !e.StatusEvent?
    ensures Handle(r, e).pending == r.pending && Handle(r, e).errors == r.errors
  {
    if e.Assistant? {
      BlocksQuiet(EmitInit(r), e.blocks);
    }
    hide Blank, Trim;
  }

  lemma EventJudged(r: Runner, es: seq<Event>, e: Event)
    requires Judged(r, es)
    ensures Judged(Handle(r, e), es + [e])
  {
    assert (es + [e])[..|es|] == es;
    ReportedSnoc(es, e);
    hide ReportedError;
    if e.StatusEvent? {
      assert Flush(r).pending == r.pending && Flush(r).errors == r.errors;
      hide Flush;
    } else {
      EventQuiet(r, e);
      hide Handle;
    }
  }

  lemma FeedStep(es: seq<Event>, e: Event)
    ensures Feed(EmitInit(FRESH), es + [e]) == Handle(Feed(EmitInit(FRESH), es), e)
    ensures Signals(es + [e]) == Signals(es) + EventSignals(e)
  {
    assert (es + [e])[..|es|] == es;
    hide Handle, EventSignals;
  }

  lemma {:induction false} FeedFollows(es: seq<Event>)
    ensures Follows(Feed(EmitInit(FRESH), es), Fold(Body([], "", {}), Signals(es)))
    ensures Judged(Feed(EmitInit(FRESH), es), es)
  {
    if es == [] {
      assert [] + [Init] == [Init] + [];
    } else {
      var front, e := es[..|es| - 1], es[|es| - 1];
      var r, b := Feed(EmitInit(FRESH), front), Fold(Body([], "", {}), Signals(front));
      FeedFollows(front);
      EventFollows(r, b, e);
      EventJudged(r, front, e);
      FoldConcat(Body([], "", {}), Signals(front), EventSignals(e));
      FeedStep(front, e);
      hide *;
      assert front + [e] == es;
    }
  }

  function EventsOf(c: Course): seq<Event> {
    if c.Streamed? then c.events else []
  }

  function ErrorOf(c: Course): Option<string> {
    if c.Streamed? then c.error else Some(c.cause)
  }

  /** The whole output, for every course: one init, then each maximal run of text deltas as
      one message, in order with the tool calls and user texts, then one result; and that
      result a second time if and only if the stream left an error that nobody hears. */
  lemma {:induction false} SessionOutput(c: Course, listens: bool)
    ensures var body := FirstUses(Plain(Signals(EventsOf(c))), {});
            var ending := Ending(EventsOf(c), ErrorOf(c), body);
            Session(c, listens).messages ==
            [Init] + body + [ending] +
            if c.Streamed? && !listens
               && (c.error.Some?
                   || exists k :: 0 <= k < |c.events| && c.events[k].StatusEvent? && c.events[k].status.Errored?)
            then [ending] else []
  {
    hide Session, Signals, Plain, FirstUses, Ending;
    match c {
      case Refused(cause) =>
        RefusedOutput(cause);
        var ending := Ending([], Some(cause), []);
        assert [Init] + [] + [ending] + [] == [Init, ending];
      case Streamed(es, error) =>
        StreamedOutput(es, error, listens);
    }
  }

  lemma RefusedOutput(cause: string)
    ensures FirstUses(Plain(Signals([])), {}) == []
    ensures Session(Refused(cause), false) == Session(Refused(cause), true)
    ensures Session(Refused(cause), true).messages == [Init, Ending([], Some(cause), [])]
  {
    assert Blank("");
  }

  /** What the stream has brought once its last text is flushed. */
  lemma {:induction false} StreamFlushed(es: seq<Event>)
    ensures var r := Feed(EmitInit(FRESH), es);
            var body := FirstUses(Plain(Signals(es)), {});
            && r.hasInit && Judged(r, es) && Flush(r).messages == [Init] + body && Flush(r).lastText == LastText(body)
  {
    var r, b := Feed(EmitInit(FRESH), es), Fold(Body([], "", {}), Signals(es));
    FeedFollows(es);
    FoldIs(Body([], "", {}), Signals(es));
    NothingWaits(Signals(es));
    FlushFollows(r, b);
    hide Feed, Fold, Flush, FlushBody, Plain, Signals, FirstUses, LastText, Judged;
    assert [] + FirstUses(Plain(Signals(es)), {}) == FirstUses(Plain(Signals(es)), {});
  }

  lemma {:induction false} StreamedOutput(es: seq<Event>, error: Option<string>, listens: bool)
    ensures var body := FirstUses(Plain(Signals(es)), {});
            var ending := Ending(es, error, body);
            Session(Streamed(es, error), listens).messages ==
            [Init] + body + [ending] + if !listens && (error.Some? || ReportedError(es)) then [ending] else []
  {
    var r := Feed(EmitInit(FRESH), es);
    var body := FirstUses(Plain(Signals(es)), {});
    StreamFlushed(es);
    FinalizedOnce(r, es, error, body);
    SecondFinalize(r, es, error, body);
    assert r.errors != [] <==> ReportedError(es);
    hide Feed, Flush, Plain, Signals, Finalize, FirstUses, Ending, ReportedError, Judged, LastText, LastError;
    var once := [Init] + body + [Ending(es, error, body)];
    assert once + [] == once;
  }

  lemma FinalizedOnce(r: Runner, es: seq<Event>, error: Option<string>, body: seq<Message>)
    requires r.hasInit && Judged(r, es)
    requires Flush(r).messages == [Init] + body && Flush(r).lastText == LastText(body)
    ensures Finalize(r, error) == Flush(r).(messages := [Init] + body + [Ending(es, error, body)])
  {
    assert Flush(r).pending == r.pending && Flush(r).errors == r.errors && Flush(r).hasInit;
    hide Flush, Verdict, LastText, ReportedError;
  }

  lemma SecondFinalize(r: Runner, es: seq<Event>, error: Option<string>, body: seq<Message>)
    requires r.hasInit && Judged(r, es)
    requires Finalize(r, error) == Flush(r).(messages := [Init] + body + [Ending(es, error, body)])
    requires Flush(r).lastText == LastText(body)
    ensures var f := Finalize(r, error);
            && f.errors == r.errors
            && (error.Some? || r.errors != [] ==>
                 Finalize(f, Some(if error.Some? then error.value else LastError(f.errors))).messages
                 == f.messages + [Ending(es, error, body)])
  {
    var f := Finalize(r, error);
    assert Flush(r).buffer == "" && Flush(r).pending == r.pending && Flush(r).errors == r.errors && Flush(r).hasInit;
    assert Blank("");
    assert Flush(EmitInit(f)) == f;
    hide Flush, Verdict, LastText, ReportedError, EmitInit;
  }

  // ---------- one event, spelled out ----------

  /** What one event puts on the list: the text that waited, unless blank; the init, if it is
      the first; and then a user's text, or the use of a tool whose id is new and the result
      of one that has ended, with its own text unless that is empty. */
  lemma {:induction false} EventAdds(r: Runner, e: Event)
    requires !e.Assistant?
    ensures var waited := if Trim(r.buffer) == "" then [] else [Text(r.buffer)];
            var first := if r.hasInit then [] else [Init];
            var c := Handle(r, e);
            match e
            case System => c.messages == r.messages + first && c.buffer == r.buffer
            case User(t) =>
              c.messages == r.messages + waited + first + (if Trim(t) == "" then [] else [UserText(Trim(t))]) && c.buffer == ""
            case ToolCall(id, running, name, input, result, isError) =>
              && c.messages == r.messages + waited + first + (if id in r.used then [] else [Use(id, name, input)])
                   + (if running then [] else [Result(id, if result == "" then "Tool completed" else result, isError)])
              && c.buffer == "" && c.used == r.used + {id}
            case Thinking => c.messages == r.messages + waited && c.buffer == ""
            case StatusEvent(_) => c.messages == r.messages + waited && c.buffer == ""
            case _ => c == r
  {
    assert forall ms: seq<Message> :: ms + [] == ms;
    hide Trim;
  }

  /** A block of an assistant event: text waits, a tool use comes behind the text that waited. */
  lemma {:induction false} BlockAdds(r: Runner, b: Block)
    ensures var waited := if Trim(r.buffer) == "" then [] else [Text(r.buffer)];
            var c := HandleBlock(r, b);
            match b
            case TextBlock(t) => c.messages == r.messages && c.buffer == r.buffer + t
            case ToolBlock(id, name, input) =>
              c.messages == r.messages + waited + (if id in r.used then [] else [Use(id, name, input)])
              && c.buffer == "" && c.used == r.used + {id}
            case OtherBlock => c == r
    ensures forall bs :: Handle(r, Assistant(bs + [b])) == HandleBlock(Handle(r, Assistant(bs)), b)
    ensures Handle(r, Assistant([])).messages == r.messages + if r.hasInit then [] else [Init]
  {
    assert forall ms: seq<Message> :: ms + [] == ms;
    forall bs ensures Handle(r, Assistant(bs + [b])) == HandleBlock(Handle(r, Assistant(bs)), b) {
      assert (bs + [b])[..|bs|] == bs;
      hide HandleBlock;
    }
    hide Trim;
  }

  /** What a status leaves to be reported, the last one over those before. */
  lemma {:induction false} StatusLeaves(r: Runner, s: Status)
    ensures var c := Handle(r, StatusEvent(s));
            match s
            case Errored(m) =>
              var text := if m == "" then "Cursor session errored" else m;
              c.pending == Some(Failure(text)) && c.errors == r.errors + [text]
            case Cancelled => c.pending == Some(Failure("Cursor session cancelled")) && c.errors == r.errors
            case Expired => c.pending == Some(Failure("Cursor session expired")) && c.errors == r.errors
            case OtherStatus => c.pending == r.pending && c.errors == r.errors
  {
  }

  /** What finalizing adds: the init if there was none, the text that waited, and one result:
      the one a status left, else the error's, else the last text. */
  lemma {:induction false} FinalizeAdds(r: Runner, error: Option<string>)
    ensures var waited := if Trim(r.buffer) == "" then [] else [Text(r.buffer)];
            var first := if r.hasInit then [] else [Init];
            var last := if Trim(r.buffer) == "" then r.lastText else Some(r.buffer);
            var reported := if r.errors == [] then "" else r.errors[|r.errors| - 1];
            Finalize(r, error).messages == r.messages + first + waited +
              [if r.pending.Some? then r.pending.value
               else if error.None? && r.errors == [] then
                 Success(if last.Some? && last.value != "" then last.value else "Cursor session completed successfully")
               else
                 Failure(if error.None? then "Cursor execution failed"
                         else if error.value != "" then error.value
                         else if reported != "" then reported else "Cursor execution failed")]
  {
    assert forall ms: seq<Message> :: ms + [] == ms;
    hide Trim;
  }

  // ---------- framing ----------

  /** Each id is used once, and a result only answers an id already used. */
  predicate Framed(ms: seq<Message>, used: set<string>) {
    ms == [] ||
    (match ms[0]
     case Use(id, _, _) => id !in used && Framed(ms[1..], used + {id})
     case Result(id, _, _) => id in used && Framed(ms[1..], used)
     case _ => Framed(ms[1..], used))
  }

  /** The same with uses that may be repeated. */
  predicate Answered(ms: seq<Message>, used: set<string>) {
    ms == [] ||
    (match ms[0]
     case Use(id, _, _) => Answered(ms[1..], used + {id})
     case Result(id, _, _) => id in used && Answered(ms[1..], used)
     case _ => Answered(ms[1..], used))
  }

  lemma {:induction false} KeptFramed(ms: seq<Message>, used: set<string>)
    requires Answered(ms, used)
    ensures Framed(FirstUses(ms, used), used)
  {
    if ms != [] {
      var m := ms[0];
      if m.Use? && m.id in used {
        assert used + {m.id} == used;
        KeptFramed(ms[1..], used);
      } else {
        var next := if m.Use? then used + {m.id} else used;
        KeptFramed(ms[1..], next);
        assert ([m] + FirstUses(ms[1..], next))[1..] == FirstUses(ms[1..], next);
      }
    }
  }

  lemma {:induction false} AnsweredConcat(x: seq<Message>, y: seq<Message>, used: set<string>)
    requires Answered(x, used) && forall more: set<string> :: used <= more ==> Answered(y, more)
    ensures Answered(x + y, used)
  {
    if x == [] {
      assert x + y == y;
    } else {
      assert (x + y)[1..] == x[1..] + y;
      AnsweredConcat(x[1..], y, if x[0].Use? then used + {x[0].id} else used);
    }
  }

  /** A mark brings nothing, a user text, a use, or a use and its result. */
  predicate Sound(s: Signal) {
    s.Delta? ||
    s.brings == [] || (|s.brings| == 1 && (s.brings[0].Use? || s.brings[0].UserText?)) ||
    (|s.brings| == 2 && s.brings[0].Use? && s.brings[1].Result? && s.brings[0].id == s.brings[1].id)
  }

  predicate AllSound(ss: seq<Signal>) {
    forall s :: s in ss ==> Sound(s)
  }

  lemma {:induction false} BlocksSound(bs: seq<Block>)
    ensures AllSound(BlockSignals(bs))
  {
    if bs != [] {
      BlocksSound(bs[..|bs| - 1]);
    }
  }

  lemma {:induction false} SignalsSound(es: seq<Event>)
    ensures AllSound(Signals(es))
  {
    if es != [] {
      SignalsSound(es[..|es| - 1]);
      var e := es[|es| - 1];
      if e.Assistant? {
        BlocksSound(e.blocks);
      }
    }
  }

  lemma SoundAnswered(s: Signal, used: set<string>)
    requires Sound(s) && s.Mark?
    ensures Answered(s.brings, used)
  {
    if |s.brings| == 2 {
      assert s.brings[1..][1..] == [];
    }
  }

  lemma {:induction false} PlainAnswered(ss: seq<Signal>, used: set<string>)
    requires AllSound(ss)
    ensures Answered(Plain(ss), used)
    decreases |ss|
  {
    if ss != [] {
      var n := if ss[0].Delta? then RunLength(ss) else 1;
      var brings := if ss[0].Delta? then Chunk(Concat(ss[..n])) else ss[0].brings;
      forall more: set<string> | used <= more
        ensures Answered(Plain(ss[n..]), more)
      {
        PlainAnswered(ss[n..], more);
      }
      if ss[0].Mark? {
        SoundAnswered(ss[0], used);
      }
      AnsweredConcat(brings, Plain(ss[n..]), used);
    }
  }

  /** In the output of every session each tool id has at most one use, and every result
      comes after the use it answers. */
  lemma ToolsFramed(es: seq<Event>)
    ensures Framed(FirstUses(Plain(Signals(es)), {}), {})
  {
    SignalsSound(es);
    PlainAnswered(Signals(es), {});
    KeptFramed(Plain(Signals(es)), {});
  }
}
