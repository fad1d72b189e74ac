/** `ClaudeCodeNormalizer` as a class: its instance variables are fields,
    each handler is a method that updates them in place and is proved to
    leave exactly the state `ClaudeSpec` prescribes. */
module ClaudeNormalizer {
  import opened JsonValues
  import opened Canonical
  import EventNormalizer
  import ClaudeSpec

  class ClaudeCodeNormalizer {
    var events: seq<Event>
    var turnIndex: int
    var sessionStarted: bool
    var sessionId: Json
    var model: Json
    var blocks: map<Json, ClaudeSpec.Block>
    var stopReason: Json
    var usage: Json
    var messageId: Json
    /** The clock and JSON parser the handlers use. */
    const env: Env

    /** The instance variables as one value. */
    function State(): ClaudeSpec.State
      reads this
    {
      ClaudeSpec.State(events, turnIndex, sessionStarted, sessionId, model, blocks, stopReason, usage, messageId)
    }

    ghost predicate Valid()
      reads this
    {
      ClaudeSpec.Inv(State())
    }

    function NormalizerName(): (r: string)
      ensures r == "ClaudeCodeNormalizer"
    {
      "ClaudeCodeNormalizer"
    }

    constructor (env: Env)
      ensures this.env == env
      ensures State() == ClaudeSpec.Init()
      ensures Valid()
    {
      this.env := env;
      events := [];
      turnIndex := -1;
      sessionStarted := false;
      sessionId := JNull;
      model := JNull;
      blocks := map[];
      stopReason := JNull;
      usage := JNull;
      messageId := JNull;
    }

    method Emit(b: Body)
      modifies this
      ensures State() == ClaudeSpec.Emit(env, old(State()), b)
    {
      events := events + [Event(Claude, env.clock(|events|), b)];
    }

    method Process(raw: Json)
      requires Valid()
      modifies this
      ensures State() == ClaudeSpec.Process(env, old(State()), raw)
      ensures Valid()
    {
      ClaudeSpec.ProcessKeepsInv(env, State(), raw);
      var t := Get(raw, "type");
      if t == JStr("ping") {
        return;
      }
      if t == JStr("system") {
        HandleSystem(raw);
      } else if t == JStr("assistant") {
        HandleAssistant(raw);
      } else if t == JStr("message_start") {
        HandleMessageStart(raw);
      } else if t == JStr("content_block_start") {
        HandleContentBlockStart(raw);
      } else if t == JStr("content_block_delta") {
        HandleContentBlockDelta(raw);
      } else if t == JStr("content_block_stop") {
        HandleContentBlockStop(raw);
      } else if t == JStr("message_delta") {
        HandleMessageDelta(raw);
      } else if t == JStr("message_stop") {
        HandleMessageStop(raw);
      }
    }

    method Finalize()
      modifies this
      ensures State() == ClaudeSpec.Finalize(env, old(State()))
    {
      Emit(SessionEnd(Some("completed")));
    }

    method HandleSystem(raw: Json)
      modifies this
      ensures State() == ClaudeSpec.HandleSystem(env, old(State()), raw)
    {
      if sessionStarted {
        return;
      }
      if Get(raw, "subtype") != JStr("init") {
        return;
      }
      sessionStarted := true;
      sessionId := Get(raw, "session_id");
      model := Get(raw, "model");
      Emit(SessionStart(sessionId, model));
    }

    method HandleMessageStart(raw: Json)
      modifies this
      ensures State() == ClaudeSpec.HandleMessageStart(env, old(State()), raw)
    {
      StartMessage(Or(Get(raw, "message"), EmptyObj));
      OpenTurn();
    }

    method StartMessage(msg: Json)
      modifies this
      ensures State() == ClaudeSpec.StartMessage(old(State()), msg)
    {
      turnIndex := turnIndex + 1;
      messageId := Get(msg, "id");
      model := Or(model, Get(msg, "model"));
      blocks := map[];
      stopReason := JNull;
      usage := JNull;
    }

    method OpenTurn()
      modifies this
      ensures State() == ClaudeSpec.OpenTurn(env, old(State()))
    {
      if !sessionStarted {
        sessionStarted := true;
        Emit(SessionStart(sessionId, model));
      }
      Emit(TurnStart(turnIndex, messageId));
    }

    method HandleContentBlockStart(raw: Json)
      modifies this
      ensures State() == ClaudeSpec.HandleContentBlockStart(env, old(State()), raw)
    {
      var idx := Get(raw, "index");
      var cb := Or(Get(raw, "content_block"), EmptyObj);
      var kind := Get(cb, "type");
      var block := ClaudeSpec.Block(kind, "", "", JNull, JNull);
      if kind == JStr("tool_use") {
        block := block.(toolUseId := Get(cb, "id"), tool := Get(cb, "name"));
        Emit(ToolStart(turnIndex, Get(cb, "id"), EventNormalizer.NormalizeToolName(Get(cb, "name")), EmptyObj));
      }
      blocks := blocks[idx := block];
    }

    method HandleContentBlockDelta(raw: Json)
      modifies this
      ensures State() == ClaudeSpec.HandleContentBlockDelta(env, old(State()), raw)
    {
      var idx := Get(raw, "index");
      var delta := Or(Get(raw, "delta"), EmptyObj);
      if idx !in blocks {
        return;
      }
      var block := blocks[idx];
      var dt := Get(delta, "type");
      if dt == JStr("text_delta") {
        var piece := Str(Get(delta, "text"));
        blocks := blocks[idx := block.(text := block.text + piece)];
        Emit(MessageDelta(turnIndex, piece));
      } else if dt == JStr("thinking_delta") {
        var piece := Str(Get(delta, "thinking"));
        blocks := blocks[idx := block.(text := block.text + piece)];
        Emit(ThinkingDelta(turnIndex, piece));
      } else if dt == JStr("input_json_delta") {
        var piece := Str(Get(delta, "partial_json"));
        blocks := blocks[idx := block.(inputJson := block.inputJson + piece)];
        Emit(ToolDelta(turnIndex, block.toolUseId, piece));
      }
    }

    method HandleContentBlockStop(raw: Json)
      modifies this
      ensures State() == ClaudeSpec.HandleContentBlockStop(env, old(State()), raw)
    {
      var idx := Get(raw, "index");
      if idx !in blocks {
        return;
      }
      var block := blocks[idx];
      blocks := blocks - {idx};
      if block.kind == JStr("text") {
        Emit(Message(turnIndex, block.text));
      } else if block.kind == JStr("thinking") {
        Emit(Thinking(turnIndex, block.text));
      } else if block.kind == JStr("tool_use") {
        var input := ClaudeSpec.ParsedInput(env, block.inputJson);
        Emit(ToolEnd(turnIndex, block.toolUseId, EventNormalizer.NormalizeToolName(block.tool), input));
      }
    }

    method HandleMessageDelta(raw: Json)
      modifies this
      ensures State() == ClaudeSpec.HandleMessageDelta(old(State()), raw)
    {
      var delta := Or(Get(raw, "delta"), EmptyObj);
      stopReason := Get(delta, "stop_reason");
      usage := Get(raw, "usage");
    }

    method HandleMessageStop(raw: Json)
      modifies this
      ensures State() == ClaudeSpec.HandleMessageStop(env, old(State()))
    {
      Emit(TurnEnd(turnIndex, Some("completed"), stopReason, usage));
    }

    method EnsureSessionStarted(raw: Json)
      modifies this
      ensures State() == ClaudeSpec.EnsureSessionStarted(env, old(State()), raw)
    {
      if sessionStarted {
        return;
      }
      sessionStarted := true;
      sessionId := Get(raw, "session_id");
      model := Or(Get(raw, "model"), Get(Get(raw, "message"), "model"));
      Emit(SessionStart(sessionId, model));
    }

    method HandleAssistant(raw: Json)
      modifies this
      ensures State() == ClaudeSpec.HandleAssistant(env, old(State()), raw)
    {
      EnsureSessionStarted(raw);
      var msg := Or(Get(raw, "message"), EmptyObj);
      OpenAssistantTurn(msg);
      var content := Items(Or(Get(msg, "content"), JArr([])));
      var usage := Get(msg, "usage");
      EmitAssistantBlocks(content);
      var hasToolUse := ClaudeSpec.AnyToolUse(content);
      Emit(TurnEnd(turnIndex, Some("completed"), JStr(if hasToolUse then "tool_use" else "end_turn"), usage));
    }

    method OpenAssistantTurn(msg: Json)
      modifies this
      ensures State() == ClaudeSpec.OpenAssistantTurn(env, old(State()), msg)
    {
      model := Or(model, Get(msg, "model"));
      turnIndex := turnIndex + 1;
      Emit(TurnStart(turnIndex, Get(msg, "id")));
    }

    /** The `blocks.each` loop of `handle_assistant`. */
    method EmitAssistantBlocks(content: seq<Json>)
      modifies this
      ensures State() == ClaudeSpec.EmitBlocks(env, old(State()), content)
    {
      var i := 0;
      while i < |content|
        invariant 0 <= i <= |content|
        invariant State() == ClaudeSpec.EmitBlocks(env, old(State()), content[..i])
      {
        var block := content[i];
        var kind := Get(block, "type");
        if kind == JStr("text") {
          Emit(Message(turnIndex, Str(Get(block, "text"))));
        } else if kind == JStr("thinking") {
          Emit(Thinking(turnIndex, Str(Get(block, "text"))));
        } else if kind == JStr("tool_use") {
          var name := EventNormalizer.NormalizeToolName(Or(Get(block, "name"), JStr("unknown")));
          var id := Or(Get(block, "id"), JStr(""));
          var input := Or(Get(block, "input"), EmptyObj);
          Emit(ToolStart(turnIndex, id, name, input));
          Emit(ToolEnd(turnIndex, id, name, input));
        }
        assert content[..i + 1][..i] == content[..i];
        i := i + 1;
      }
      assert content[..i] == content;
    }
  }
}
