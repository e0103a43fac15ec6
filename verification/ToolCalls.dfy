/** The session manager's table of tool calls, and its composition with the Codex mapper:
    which call each tool result is rendered under. */
module ToolCalls {
  import opened Wrappers
  import opened CodexMapper

  type Table = map<string, Call>

  /** An empty tool id counts as no id, an empty tool name as "Tool". */
  function Register(t: Table, m: Message): Table {
    if m.ToolUse? && m.id != "" then t[m.id := Call(if m.name == "" then "Tool" else m.name, m.input)]
    else if m.ToolResult? && m.id != "" then t - {m.id}
    else t
  }

  /** The call a tool result is rendered under; `Call("Tool", "")` is the fallback. */
  function Lookup(t: Table, m: Message): Option<Call> {
    if m.ToolResult? && m.id != "" then Some(if m.id in t then t[m.id] else Call("Tool", "")) else None
  }

  function Sync(t: Table, ms: seq<Message>): Table {
    if ms == [] then t else Register(Sync(t, ms[..|ms| - 1]), ms[|ms| - 1])
  }

  class ToolCallTable {
    var toolCallsByToolUseId: Table

    constructor ()
      ensures toolCallsByToolUseId == map[]
    {
      toolCallsByToolUseId := map[];
    }

    /** The table side of recording one message; a tool result yields its call. */
    method SyncEntry(m: Message) returns (rendered: Option<Call>)
      modifies this
      ensures toolCallsByToolUseId == Register(old(toolCallsByToolUseId), m)
      ensures rendered == Lookup(old(toolCallsByToolUseId), m)
      ensures m.ToolUse? && m.id != "" ==>
                toolCallsByToolUseId == old(toolCallsByToolUseId)[m.id := Call(if m.name == "" then "Tool" else m.name, m.input)]
      ensures m.ToolResult? && m.id != "" ==>
                && toolCallsByToolUseId == old(toolCallsByToolUseId) - {m.id}
                && rendered ==
                   Some(if m.id in old(toolCallsByToolUseId) then old(toolCallsByToolUseId)[m.id] else Call("Tool", ""))
      ensures (!m.ToolUse? && !m.ToolResult?) || m.id == "" ==>
                toolCallsByToolUseId == old(toolCallsByToolUseId) && rendered == None
    {
      rendered := None;
      if m.ToolUse? && m.id != "" {
        var toolName := if m.name == "" then "Tool" else m.name;
        toolCallsByToolUseId := toolCallsByToolUseId[m.id := Call(toolName, m.input)];
      } else if m.ToolResult? && m.id != "" {
        var call := Call("Tool", "");
        if m.id in toolCallsByToolUseId {
          call := toolCallsByToolUseId[m.id];
        }
        toolCallsByToolUseId := toolCallsByToolUseId - {m.id};
        rendered := Some(call);
      }
    }
  }

  // ---------- one stream ----------

  function Stored(c: Call): Call {
    if c.name == "" then c.(name := "Tool") else c
  }

  predicate Named(ms: seq<Message>, id: string) {
    ms != [] && (Names(ms[|ms| - 1], id) || Named(ms[..|ms| - 1], id))
  }

  /** For any stream and any table to start from, the table holds exactly the open calls
      of the stream, and what it held before under ids the stream never names. */
  lemma {:induction false} TableIsOpenCalls(t: Table, ms: seq<Message>, id: string)
    requires id != ""
    ensures Named(ms, id) ==> (id in Sync(t, ms) <==> OpenCall(ms, id).Some?)
    ensures OpenCall(ms, id).Some? ==> Named(ms, id) && Sync(t, ms)[id] == Stored(OpenCall(ms, id).value)
    ensures !Named(ms, id) ==> (id in Sync(t, ms) <==> id in t) && (id in t ==> Sync(t, ms)[id] == t[id])
  {
    if ms != [] {
      TableIsOpenCalls(t, ms[..|ms| - 1], id);
    }
  }

  lemma {:induction false} NoEmptyId(t: Table, ms: seq<Message>)
    requires "" !in t
    ensures "" !in Sync(t, ms)
  {
    if ms != [] {
      NoEmptyId(t, ms[..|ms| - 1]);
    }
  }

  /** In a bracketed stream every tool result is rendered under the call it answers. */
  ghost predicate RenderedRight(t: Table, ms: seq<Message>, k: int)
    requires 0 <= k < |ms|
  {
    var m, before := ms[k], ms[..k];
    m.ToolResult? && m.id != "" ==>
      (OpenCall(before, m.id).Some? && Lookup(Sync(t, before), m) == Some(Stored(OpenCall(before, m.id).value)))
  }

  lemma {:induction false} BracketAdmits(ms: seq<Message>, k: nat)
    requires WellBracketed(ms) && k < |ms|
    ensures WellBracketed(ms[..k]) && Admits(ms[..k], ms[k])
  {
    if k < |ms| - 1 {
      BracketAdmits(ms[..|ms| - 1], k);
      assert ms[..|ms| - 1][..k] == ms[..k];
      hide Admits;
    }
  }

  lemma BracketedRendering(t: Table, ms: seq<Message>, k: nat)
    requires WellBracketed(ms) && k < |ms|
    ensures RenderedRight(t, ms, k)
  {
    BracketAdmits(ms, k);
    if ms[k].ToolResult? && ms[k].id != "" {
      TableIsOpenCalls(t, ms[..k], ms[k].id);
    }
    hide Sync, OpenCall, WellBracketed;
  }

  /** Mapper and manager together, for every event sequence fed in order: every result is
      rendered under the name and input of the tool use it answers, and, from an empty
      table, the table's ids are exactly the mapper's `emittedToolUseIds`. */
  lemma {:induction false} MapperFeedsTable(es: seq<Event>)
    ensures var m := Feed(FRESH, es);
            && Sync(map[], m.messages).Keys == m.emitted - {""}
            && forall k :: 0 <= k < |m.messages| ==> RenderedRight(map[], m.messages, k)
  {
    var m := Feed(FRESH, es);
    FeedBracketed(es);
    hide Feed, WellBracketed, Sync, OpenCall, RenderedRight;
    var t: Table := map[];
    forall k | 0 <= k < |m.messages| ensures RenderedRight(t, m.messages, k) {
      BracketedRendering(t, m.messages, k);
    }
    forall id ensures id in Sync(t, m.messages).Keys <==> id in m.emitted - {""} {
      if id == "" {
        NoEmptyId(t, m.messages);
      } else {
        TableIsOpenCalls(t, m.messages, id);
      }
    }
  }

  /** A run after others, whose calls may have been left open in the table: the results
      are still rendered right, but stale ids stay until the new run names them. */
  lemma {:induction false} LaterRun(t: Table, es: seq<Event>)
    ensures var m := Feed(FRESH, es);
            && (forall k :: 0 <= k < |m.messages| ==> RenderedRight(t, m.messages, k))
            && (forall id :: id != "" ==>
                 (id in Sync(t, m.messages) <==> (id in m.emitted || (id in t && !Named(m.messages, id)))))
  {
    var m := Feed(FRESH, es);
    FeedBracketed(es);
    hide Feed, WellBracketed, Sync, OpenCall, RenderedRight, Named;
    forall k | 0 <= k < |m.messages| ensures RenderedRight(t, m.messages, k) {
      BracketedRendering(t, m.messages, k);
    }
    forall id | id != ""
      ensures id in Sync(t, m.messages) <==> (id in m.emitted || (id in t && !Named(m.messages, id)))
    {
      TableIsOpenCalls(t, m.messages, id);
    }
  }

  // ---------- several sessions over one table ----------

  datatype Tagged = Tagged(session: string, message: Message)

  function All(g: seq<Tagged>): seq<Message> {
    if g == [] then [] else All(g[..|g| - 1]) + [g[|g| - 1].message]
  }

  function Own(g: seq<Tagged>, s: string): seq<Message> {
    if g == [] then [] else
      Own(g[..|g| - 1], s) + if g[|g| - 1].session == s then [g[|g| - 1].message] else []
  }

  /** The last message of any session that names the id. */
  function LastNamer(g: seq<Tagged>, id: string): Option<Tagged> {
    if g == [] then None
    else if Names(g[|g| - 1].message, id) then Some(g[|g| - 1])
    else LastNamer(g[..|g| - 1], id)
  }

  lemma {:induction false} NamerDecides(g: seq<Tagged>, id: string)
    ensures OpenCall(All(g), id) ==
            var n := LastNamer(g, id);
            if n.Some? && n.value.message.ToolUse? then Some(Call(n.value.message.name, n.value.message.input)) else None
    ensures LastNamer(g, id).None? <==> !Named(All(g), id)
  {
    if g != [] {
      NamerDecides(g[..|g| - 1], id);
      assert All(g)[..|g| - 1] == All(g[..|g| - 1]) by {
        AllLength(g[..|g| - 1]);
      }
      AllLength(g);
    }
  }

  lemma {:induction false} AllLength(g: seq<Tagged>)
    ensures |All(g)| == |g|
  {
    if g != [] {
      AllLength(g[..|g| - 1]);
    }
  }

  /** A session's own open call is its last own naming message. */
  lemma {:induction false} OwnNamer(g: seq<Tagged>, s: string, id: string)
    ensures LastNamer(g, id).Some? && LastNamer(g, id).value.session == s ==>
              OpenCall(Own(g, s), id) == OpenCall(All(g), id)
    ensures OpenCall(Own(g, s), id).Some? ==> LastNamer(g, id).Some?
  {
    NamerDecides(g, id);
    if g != [] {
      var front, last := g[..|g| - 1], g[|g| - 1];
      OwnNamer(front, s, id);
      NamerDecides(front, id);
      OpenCallSnoc(Own(front, s), last.message, id);
      hide OpenCall, All, Named;
      assert Own(front, s) + [] == Own(front, s);
    }
  }

  /** The table is shared by all sessions. When session `s` reports the result of a call it
      has open, the lookup falls back to "Tool" if and only if the last message naming that
      id, from any session, is another session's result; and it finds the session's own
      call whenever no other session named the id since. */
  lemma SharedTable(g: seq<Tagged>, s: string, id: string)
    requires id != "" && OpenCall(Own(g, s), id).Some?
    ensures LastNamer(g, id).Some?
    ensures var t := Sync(map[], All(g));
            var n := LastNamer(g, id).value;
            && (id !in t <==> n.message.ToolResult? && n.session != s)
            && (n.session == s ==> id in t && t[id] == Stored(OpenCall(Own(g, s), id).value))
  {
    OwnNamer(g, s, id);
    NamerDecides(g, id);
    NamerNames(g, id);
    TableIsOpenCalls(map[], All(g), id);
    hide OpenCall, Sync, All, Own, LastNamer, Named, Stored;
  }

  lemma {:induction false} NamerNames(g: seq<Tagged>, id: string)
    ensures LastNamer(g, id).Some? ==> Names(LastNamer(g, id).value.message, id)
  {
    if g != [] {
      NamerNames(g[..|g| - 1], id);
    }
  }

  /** Two Codex sessions that use the same item id at the same time: each stream is a
      mapper's own, yet the second result is rendered as "Tool". */
  lemma SharedIdsExample()
    ensures var use, result := ToolUse("item_0", "Bash", "ls"), ToolResult("item_0", "ok", false);
            var tool := Tool("item_0", "Bash", "ls", "ok", false);
            var g := [Tagged("a", use), Tagged("b", use), Tagged("a", result)];
            && Feed(FRESH, [ItemStarted(tool), ItemCompleted(tool)]).messages == [use, result]
            && Own(g, "a") == [use, result] && Own(g, "b") == [use]
            && Lookup(Sync(map[], All(g)), result) == Some(Call("Tool", ""))
  {
    var use, result := ToolUse("item_0", "Bash", "ls"), ToolResult("item_0", "ok", false);
    var tool := Tool("item_0", "Bash", "ls", "ok", false);
    OneCommandFed(tool);
    hide Feed;
    var g := [Tagged("a", use), Tagged("b", use), Tagged("a", result)];
    var g1, g2 := [Tagged("a", use)], [Tagged("a", use), Tagged("b", use)];
    assert g[..2] == g2 && g2[..1] == g1 && g1[..0] == [];
    assert Own(g1, "a") == [use] && Own(g1, "b") == [] && All(g1) == [use];
    assert Own(g2, "a") == [use] && Own(g2, "b") == [use] && All(g2) == [use, use];
    assert LastNamer(g, "item_0") == Some(Tagged("a", result));
    NamerDecides(g, "item_0");
    TableIsOpenCalls(map[], All(g), "item_0");
  }

  lemma OneCommandFed(t: Item)
    requires t.Tool?
    ensures Feed(FRESH, [ItemStarted(t), ItemCompleted(t)]).messages
         == [ToolUse(t.id, t.name, t.input), ToolResult(t.id, t.result, t.isError)]
  {
    var es := [ItemStarted(t), ItemCompleted(t)];
    assert es[..1] == [ItemStarted(t)] && [ItemStarted(t)][..0] == [];
    assert Feed(FRESH, []) == FRESH;
    assert Feed(FRESH, [ItemStarted(t)]) == Handle(FRESH, ItemStarted(t));
  }
}
