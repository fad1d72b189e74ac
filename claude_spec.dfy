/** The Claude normaliser as a function of its state: one function per
    handler of `ClaudeCodeNormalizer`, each returning the state after the
    handler ran. The class in claude_normalizer.dfy is proved to follow it. */
module ClaudeSpec {
  import opened JsonValues
  import opened Canonical
  import EventNormalizer

  /** An open content block (`@blocks[idx]`): its type, the accumulated
      text and partial input, and for a tool block its id and name. */
  datatype Block = Block(kind: Json, text: string, inputJson: string, toolUseId: Json, tool: Json)

  /** The instance variables of `ClaudeCodeNormalizer`. */
  datatype State = State(
    events: seq<Event>,
    turnIndex: int,
    sessionStarted: bool,
    sessionId: Json,
    model: Json,
    blocks: map<Json, Block>,
    stopReason: Json,
    usage: Json,
    messageId: Json)

  function Init(): State {
    State([], -1, false, JNull, JNull, map[], JNull, JNull, JNull)
  }

  /** `emit`: append the event, stamped by the clock. */
  function Emit(env: Env, s: State, b: Body): State {
    s.(events := s.events + [Event(Claude, env.clock(|s.events|), b)])
  }

  /** `process`: dispatch on the raw `type`; "ping", "result", "user" and
      unknown types change nothing. */
  function Process(env: Env, s: State, raw: Json): State {
    var t := Get(raw, "type");
    if t == JStr("ping") then s
    else if t == JStr("system") then HandleSystem(env, s, raw)
    else if t == JStr("assistant") then HandleAssistant(env, s, raw)
    else if t == JStr("message_start") then HandleMessageStart(env, s, raw)
    else if t == JStr("content_block_start") then HandleContentBlockStart(env, s, raw)
    else if t == JStr("content_block_delta") then HandleContentBlockDelta(env, s, raw)
    else if t == JStr("content_block_stop") then HandleContentBlockStop(env, s, raw)
    else if t == JStr("message_delta") then HandleMessageDelta(s, raw)
    else if t == JStr("message_stop") then HandleMessageStop(env, s)
    else s
  }

  /** The raw types this normaliser knows: those `process` dispatches on,
      and "ping", "user" and "result", which it accepts and ignores. */
  const EventTypes: set<string> := {
    "system", "ping", "message_start", "content_block_start", "content_block_delta",
    "content_block_stop", "message_delta", "message_stop", "assistant", "user", "result"}

  /** A raw event whose type is not in the vocabulary changes nothing. */
  lemma UnknownTypesIgnored(env: Env, s: State, raw: Json)
    requires !(Get(raw, "type").JStr? && Get(raw, "type").s in EventTypes)
    ensures Process(env, s, raw) == s
  {
  }

  /** Every type of the vocabulary is detected as Claude, whatever else the
      event holds, so `normalize` hands such events to this normaliser. */
  lemma VocabularyDetectedAsClaude(raw: Json)
    requires Get(raw, "type").JStr? && Get(raw, "type").s in EventTypes
    ensures EventNormalizer.DetectSource(raw) == Some(Claude)
  {
    var t := Get(raw, "type").s;
    assert ToS(Get(raw, "type")) == t;
    if t == "message_start" {
      assert OccursAt(t, "message_start", 0);
    } else if t in {"content_block_start", "content_block_delta", "content_block_stop"} {
      assert OccursAt(t, "content_block", 0);
    }
  }

  /** `finalize`. */
  function Finalize(env: Env, s: State): State {
    Emit(env, s, SessionEnd(Some("completed")))
  }

  function HandleSystem(env: Env, s: State, raw: Json): State {
    if s.sessionStarted then s
    else if Get(raw, "subtype") != JStr("init") then s
    else
      var s1 := s.(sessionStarted := true, sessionId := Get(raw, "session_id"), model := Get(raw, "model"));
      Emit(env, s1, SessionStart(s1.sessionId, s1.model))
  }

  function HandleMessageStart(env: Env, s: State, raw: Json): State {
    OpenTurn(env, StartMessage(s, Or(Get(raw, "message"), EmptyObj)))
  }

  /** The per-message reset: next turn index, the message's id, the model
      unless one is known, no open blocks, no stop reason or usage. */
  function StartMessage(s: State, msg: Json): State {
    s.(turnIndex := s.turnIndex + 1, messageId := Get(msg, "id"), model := Or(s.model, Get(msg, "model")),
       blocks := map[], stopReason := JNull, usage := JNull)
  }

  /** The session start if none was emitted yet, then the turn start. */
  function OpenTurn(env: Env, s: State): State {
    var s1 := if s.sessionStarted then s
              else Emit(env, s.(sessionStarted := true), SessionStart(s.sessionId, s.model));
    Emit(env, s1, TurnStart(s1.turnIndex, s1.messageId))
  }

  function HandleContentBlockStart(env: Env, s: State, raw: Json): State {
    var idx := Get(raw, "index");
    var cb := Or(Get(raw, "content_block"), EmptyObj);
    var kind := Get(cb, "type");
    if kind == JStr("tool_use") then
      var s1 := Emit(env, s, ToolStart(s.turnIndex, Get(cb, "id"), EventNormalizer.NormalizeToolName(Get(cb, "name")), EmptyObj));
      s1.(blocks := s1.blocks[idx := Block(kind, "", "", Get(cb, "id"), Get(cb, "name"))])
    else
      s.(blocks := s.blocks[idx := Block(kind, "", "", JNull, JNull)])
  }

  function HandleContentBlockDelta(env: Env, s: State, raw: Json): State {
    var idx := Get(raw, "index");
    var delta := Or(Get(raw, "delta"), EmptyObj);
    if idx !in s.blocks then s
    else
      var block := s.blocks[idx];
      var dt := Get(delta, "type");
      if dt == JStr("text_delta") then
        var piece := Str(Get(delta, "text"));
        Emit(env, s.(blocks := s.blocks[idx := block.(text := block.text + piece)]), MessageDelta(s.turnIndex, piece))
      else if dt == JStr("thinking_delta") then
        var piece := Str(Get(delta, "thinking"));
        Emit(env, s.(blocks := s.blocks[idx := block.(text := block.text + piece)]), ThinkingDelta(s.turnIndex, piece))
      else if dt == JStr("input_json_delta") then
        var piece := Str(Get(delta, "partial_json"));
        Emit(env, s.(blocks := s.blocks[idx := block.(inputJson := block.inputJson + piece)]),
             ToolDelta(s.turnIndex, block.toolUseId, piece))
      else s
  }

  /** The accumulated partial input parsed, or `{}` when parsing fails. */
  function ParsedInput(env: Env, text: string): Json {
    match env.parse(text)
    case Some(v) => v
    case None => EmptyObj
  }

  function HandleContentBlockStop(env: Env, s: State, raw: Json): State {
    var idx := Get(raw, "index");
    if idx !in s.blocks then s
    else
      var block := s.blocks[idx];
      var s1 := s.(blocks := s.blocks - {idx});
      if block.kind == JStr("text") then
        Emit(env, s1, Message(s.turnIndex, block.text))
      else if block.kind == JStr("thinking") then
        Emit(env, s1, Thinking(s.turnIndex, block.text))
      else if block.kind == JStr("tool_use") then
        Emit(env, s1, ToolEnd(s.turnIndex, block.toolUseId, EventNormalizer.NormalizeToolName(block.tool),
                              ParsedInput(env, block.inputJson)))
      else s1
  }

  function HandleMessageDelta(s: State, raw: Json): State {
    var delta := Or(Get(raw, "delta"), EmptyObj);
    s.(stopReason := Get(delta, "stop_reason"), usage := Get(raw, "usage"))
  }

  function HandleMessageStop(env: Env, s: State): State {
    Emit(env, s, TurnEnd(s.turnIndex, Some("completed"), s.stopReason, s.usage))
  }

  function EnsureSessionStarted(env: Env, s: State, raw: Json): State {
    if s.sessionStarted then s
    else
      var s1 := s.(sessionStarted := true, sessionId := Get(raw, "session_id"),
                   model := Or(Get(raw, "model"), Get(Get(raw, "message"), "model")));
      Emit(env, s1, SessionStart(s1.sessionId, s1.model))
  }

  /** `blocks.any? { |b| b["type"] == "tool_use" }`. */
  predicate AnyToolUse(blocks: seq<Json>) {
    exists i :: 0 <= i < |blocks| && Get(blocks[i], "type") == JStr("tool_use")
  }

  function HandleAssistant(env: Env, s: State, raw: Json): State {
    var msg := Or(Get(raw, "message"), EmptyObj);
    var blocks := Items(Or(Get(msg, "content"), JArr([])));
    CloseAssistantTurn(env, EmitBlocks(env, OpenAssistantTurn(env, EnsureSessionStarted(env, s, raw), msg), blocks),
                       msg, blocks)
  }

  /** The model unless one is known, the next turn index, its `turn.start`. */
  function OpenAssistantTurn(env: Env, s: State, msg: Json): State {
    var s1 := s.(model := Or(s.model, Get(msg, "model")), turnIndex := s.turnIndex + 1);
    Emit(env, s1, TurnStart(s1.turnIndex, Get(msg, "id")))
  }

  /** The completed `turn.end` after the blocks. */
  function CloseAssistantTurn(env: Env, s: State, msg: Json, blocks: seq<Json>): State {
    Emit(env, s, TurnEnd(s.turnIndex, Some("completed"), AssistantStopReason(blocks), Get(msg, "usage")))
  }

  /** The stop reason `handle_assistant` reports. */
  function AssistantStopReason(blocks: seq<Json>): Json {
    JStr(if AnyToolUse(blocks) then "tool_use" else "end_turn")
  }

  /** The events of the `blocks.each` loop, block after block. */
  function EmitBlocks(env: Env, s: State, blocks: seq<Json>): State
    decreases |blocks|
  {
    if blocks == [] then s
    else EmitBlock(env, EmitBlocks(env, s, blocks[..|blocks| - 1]), blocks[|blocks| - 1])
  }

  /** One iteration of the loop. */
  function EmitBlock(env: Env, s: State, block: Json): State {
    var kind := Get(block, "type");
    if kind == JStr("text") then
      Emit(env, s, Message(s.turnIndex, Str(Get(block, "text"))))
    else if kind == JStr("thinking") then
      Emit(env, s, Thinking(s.turnIndex, Str(Get(block, "text"))))
    else if kind == JStr("tool_use") then
      var name := EventNormalizer.NormalizeToolName(Or(Get(block, "name"), JStr("unknown")));
      var id := Or(Get(block, "id"), JStr(""));
      var input := Or(Get(block, "input"), EmptyObj);
      Emit(env, Emit(env, s, ToolStart(s.turnIndex, id, name, input)), ToolEnd(s.turnIndex, id, name, input))
    else s
  }

  /** Processing raw events one after another. */
  function ProcessAll(env: Env, s: State, raws: seq<Json>): State
    decreases |raws|
  {
    if raws == [] then s else Process(env, ProcessAll(env, s, raws[..|raws| - 1]), raws[|raws| - 1])
  }

  /** The invariant every handler keeps: the `turn.start` indices emitted so
      far are 0 .. turn_index with no gap, exactly one `session.start` has
      been emitted once the flag is set and none before, no `session.end`
      precedes `finalize`, and every event is tagged "claude". */
  predicate Inv(s: State) {
    && s.turnIndex >= -1
    && TurnStarts(s.events) == Range(s.turnIndex + 1)
    && CountSessionStarts(s.events) == (if s.sessionStarted then 1 else 0)
    && CountSessionEnds(s.events) == 0
    && AllFrom(s.events, Claude)
  }

  /** Emitting an event other than a turn start, session start or session end
      keeps the invariant. */
  lemma EmitOtherKeepsInv(env: Env, s: State, b: Body)
    requires Inv(s) && !b.TurnStart? && !b.SessionStart? && !b.SessionEnd?
    ensures Inv(Emit(env, s, b))
  {
    AppendOne(s.events, Event(Claude, env.clock(|s.events|), b));
  }

  lemma {:induction false} EmitBlocksKeepsInv(env: Env, s: State, blocks: seq<Json>)
    requires Inv(s)
    ensures var r := EmitBlocks(env, s, blocks);
      Inv(r) && r.turnIndex == s.turnIndex && r.sessionStarted == s.sessionStarted
    decreases |blocks|
  {
    if blocks != [] {
      var mid := EmitBlocks(env, s, blocks[..|blocks| - 1]);
      EmitBlocksKeepsInv(env, s, blocks[..|blocks| - 1]);
      var block := blocks[|blocks| - 1];
      var kind := Get(block, "type");
      if kind == JStr("text") {
        EmitOtherKeepsInv(env, mid, Message(mid.turnIndex, Str(Get(block, "text"))));
      } else if kind == JStr("thinking") {
        EmitOtherKeepsInv(env, mid, Thinking(mid.turnIndex, Str(Get(block, "text"))));
      } else if kind == JStr("tool_use") {
        var name := EventNormalizer.NormalizeToolName(Or(Get(block, "name"), JStr("unknown")));
        var id := Or(Get(block, "id"), JStr(""));
        var input := Or(Get(block, "input"), EmptyObj);
        EmitOtherKeepsInv(env, mid, ToolStart(mid.turnIndex, id, name, input));
        EmitOtherKeepsInv(env, Emit(env, mid, ToolStart(mid.turnIndex, id, name, input)), ToolEnd(mid.turnIndex, id, name, input));
      }
    }
  }

  /** Opening a turn: the counter moves on by one and the new index is the
      next one in the sequence of emitted turn starts. */
  lemma EmitTurnStartKeepsInv(env: Env, s: State, mid: Json)
    requires Inv(s.(turnIndex := s.turnIndex - 1)) && s.turnIndex >= 0
    ensures Inv(Emit(env, s, TurnStart(s.turnIndex, mid)))
  {
    AppendOne(s.events, Event(Claude, env.clock(|s.events|), TurnStart(s.turnIndex, mid)));
    RangeNext(s.turnIndex);
  }

  /** Emitting the one `session.start`. */
  lemma EmitSessionStartKeepsInv(env: Env, s: State, sid: Json, model: Json)
    requires Inv(s.(sessionStarted := false)) && s.sessionStarted
    ensures Inv(Emit(env, s, SessionStart(sid, model)))
  {
    AppendOne(s.events, Event(Claude, env.clock(|s.events|), SessionStart(sid, model)));
  }

  lemma EnsureSessionStartedKeepsInv(env: Env, s: State, raw: Json)
    requires Inv(s)
    ensures var r := EnsureSessionStarted(env, s, raw);
      Inv(r) && r.turnIndex == s.turnIndex && r.sessionStarted
  {
    if !s.sessionStarted {
      var s1 := s.(sessionStarted := true, sessionId := Get(raw, "session_id"),
                   model := Or(Get(raw, "model"), Get(Get(raw, "message"), "model")));
      EmitSessionStartKeepsInv(env, s1, s1.sessionId, s1.model);
    }
  }

  lemma HandleAssistantKeepsInv(env: Env, s: State, raw: Json)
    requires Inv(s)
    ensures Inv(HandleAssistant(env, s, raw))
  {
    var s1 := EnsureSessionStarted(env, s, raw);
    EnsureSessionStartedKeepsInv(env, s, raw);
    var msg := Or(Get(raw, "message"), EmptyObj);
    var s2 := s1.(model := Or(s1.model, Get(msg, "model")), turnIndex := s1.turnIndex + 1);
    EmitTurnStartKeepsInv(env, s2, Get(msg, "id"));
    var s3 := OpenAssistantTurn(env, s1, msg);
    var blocks := Items(Or(Get(msg, "content"), JArr([])));
    EmitBlocksKeepsInv(env, s3, blocks);
    var s4 := EmitBlocks(env, s3, blocks);
    EmitOtherKeepsInv(env, s4, TurnEnd(s4.turnIndex, Some("completed"), AssistantStopReason(blocks), Get(msg, "usage")));
  }

  lemma HandleMessageStartKeepsInv(env: Env, s: State, raw: Json)
    requires Inv(s)
    ensures Inv(HandleMessageStart(env, s, raw))
  {
    var msg := Or(Get(raw, "message"), EmptyObj);
    var s1 := s.(turnIndex := s.turnIndex + 1, messageId := Get(msg, "id"), model := Or(s.model, Get(msg, "model")),
                 blocks := map[], stopReason := JNull, usage := JNull);
    if !s1.sessionStarted {
      EmitSessionStartKeepsInv(env, s1.(sessionStarted := true, turnIndex := s.turnIndex), s1.sessionId, s1.model);
    }
    var s2 := if s1.sessionStarted then s1
              else Emit(env, s1.(sessionStarted := true), SessionStart(s1.sessionId, s1.model));
    EmitTurnStartKeepsInv(env, s2, s2.messageId);
  }

  lemma HandleContentBlockDeltaKeepsInv(env: Env, s: State, raw: Json)
    requires Inv(s)
    ensures Inv(HandleContentBlockDelta(env, s, raw))
  {
    var idx := Get(raw, "index");
    var delta := Or(Get(raw, "delta"), EmptyObj);
    if idx in s.blocks {
      var block := s.blocks[idx];
      var dt := Get(delta, "type");
      if dt == JStr("text_delta") {
        var piece := Str(Get(delta, "text"));
        EmitOtherKeepsInv(env, s.(blocks := s.blocks[idx := block.(text := block.text + piece)]), MessageDelta(s.turnIndex, piece));
      } else if dt == JStr("thinking_delta") {
        var piece := Str(Get(delta, "thinking"));
        EmitOtherKeepsInv(env, s.(blocks := s.blocks[idx := block.(text := block.text + piece)]), ThinkingDelta(s.turnIndex, piece));
      } else if dt == JStr("input_json_delta") {
        var piece := Str(Get(delta, "partial_json"));
        EmitOtherKeepsInv(env, s.(blocks := s.blocks[idx := block.(inputJson := block.inputJson + piece)]),
                          ToolDelta(s.turnIndex, block.toolUseId, piece));
      }
    }
  }

  lemma HandleContentBlockStopKeepsInv(env: Env, s: State, raw: Json)
    requires Inv(s)
    ensures Inv(HandleContentBlockStop(env, s, raw))
  {
    var idx := Get(raw, "index");
    if idx in s.blocks {
      var block := s.blocks[idx];
      var s1 := s.(blocks := s.blocks - {idx});
      if block.kind == JStr("text") {
        EmitOtherKeepsInv(env, s1, Message(s.turnIndex, block.text));
      } else if block.kind == JStr("thinking") {
        EmitOtherKeepsInv(env, s1, Thinking(s.turnIndex, block.text));
      } else if block.kind == JStr("tool_use") {
        EmitOtherKeepsInv(env, s1, ToolEnd(s.turnIndex, block.toolUseId, EventNormalizer.NormalizeToolName(block.tool),
                                           ParsedInput(env, block.inputJson)));
      }
    }
  }

  /** Every raw event keeps the invariant. */
  lemma ProcessKeepsInv(env: Env, s: State, raw: Json)
    requires Inv(s)
    ensures Inv(Process(env, s, raw))
  {
    var t := Get(raw, "type");
    if t == JStr("assistant") {
      HandleAssistantKeepsInv(env, s, raw);
    } else if IsBlockType(t) {
      BlockEventsKeepInv(env, s, raw);
    } else {
      MessageEventsKeepInv(env, s, raw);
    }
  }

  /** The three `content_block_*` types of the streamed protocol. */
  predicate IsBlockType(t: Json) {
    t == JStr("content_block_start") || t == JStr("content_block_delta") || t == JStr("content_block_stop")
  }

  lemma BlockEventsKeepInv(env: Env, s: State, raw: Json)
    requires Inv(s) && IsBlockType(Get(raw, "type"))
    ensures Inv(Process(env, s, raw))
  {
    var t := Get(raw, "type");
    if t == JStr("content_block_start") {
      HandleContentBlockStartKeepsInv(env, s, raw);
    } else if t == JStr("content_block_delta") {
      HandleContentBlockDeltaKeepsInv(env, s, raw);
    } else {
      HandleContentBlockStopKeepsInv(env, s, raw);
    }
  }

  lemma HandleContentBlockStartKeepsInv(env: Env, s: State, raw: Json)
    requires Inv(s)
    ensures Inv(HandleContentBlockStart(env, s, raw))
  {
    var cb := Or(Get(raw, "content_block"), EmptyObj);
    if Get(cb, "type") == JStr("tool_use") {
      EmitOtherKeepsInv(env, s, ToolStart(s.turnIndex, Get(cb, "id"), EventNormalizer.NormalizeToolName(Get(cb, "name")), EmptyObj));
    }
  }

  lemma MessageEventsKeepInv(env: Env, s: State, raw: Json)
    requires Inv(s) && Get(raw, "type") != JStr("assistant") && !IsBlockType(Get(raw, "type"))
    ensures Inv(Process(env, s, raw))
  {
    var t := Get(raw, "type");
    if t == JStr("system") {
      if !s.sessionStarted && Get(raw, "subtype") == JStr("init") {
        var s1 := s.(sessionStarted := true, sessionId := Get(raw, "session_id"), model := Get(raw, "model"));
        EmitSessionStartKeepsInv(env, s1, s1.sessionId, s1.model);
      }
    } else if t == JStr("message_start") {
      HandleMessageStartKeepsInv(env, s, raw);
    } else if t == JStr("message_stop") {
      EmitOtherKeepsInv(env, s, TurnEnd(s.turnIndex, Some("completed"), s.stopReason, s.usage));
    }
  }

  /** `finalize` adds exactly one `session.end`, as the last event, and no
      turn start. */
  lemma FinalizeFacts(env: Env, s: State)
    requires Inv(s)
    ensures var r := Finalize(env, s);
      && r.events[..|s.events|] == s.events
      && |r.events| == |s.events| + 1
      && r.events[|s.events|].body == SessionEnd(Some("completed"))
      && CountSessionEnds(r.events) == 1
      && TurnStarts(r.events) == TurnStarts(s.events)
      && CountSessionStarts(r.events) == CountSessionStarts(s.events)
      && AllFrom(r.events, Claude)
  {
    AppendOne(s.events, Event(Claude, env.clock(|s.events|), SessionEnd(Some("completed"))));
  }
}
