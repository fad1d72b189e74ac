/** `CodexNormalizer` as a class: its instance variables are fields, each
    handler is a method that updates them in place and is proved to leave
    exactly the state `CodexSpec` prescribes. */
module CodexNormalizer {
  import opened JsonValues
  import opened Canonical
  import EventNormalizer
  import CodexSpec

  class CodexNormalizer {
    var events: seq<Event>
    var turnIndex: int
    var sessionId: Json
    /** The clock the handlers stamp events with. */
    const env: Env

    function State(): CodexSpec.State
      reads this
    {
      CodexSpec.State(events, turnIndex, sessionId)
    }

    ghost predicate Valid()
      reads this
    {
      CodexSpec.Inv(State())
    }

    function NormalizerName(): (r: string)
      ensures r == "CodexNormalizer"
    {
      "CodexNormalizer"
    }

    constructor (env: Env)
      ensures this.env == env
      ensures State() == CodexSpec.Init()
      ensures Valid()
    {
      this.env := env;
      events := [];
      turnIndex := -1;
      sessionId := JNull;
    }

    method Emit(b: Body)
      modifies this
      ensures State() == CodexSpec.Emit(env, old(State()), b)
    {
      events := events + [Event(Codex, env.clock(|events|), b)];
    }

    method Process(raw: Json)
      requires Valid()
      modifies this
      ensures State() == CodexSpec.Process(env, old(State()), raw)
      ensures Valid()
    {
      CodexSpec.ProcessKeepsInv(env, State(), raw);
      var t := Get(raw, "type");
      if t == JStr("thread.started") {
        sessionId := Get(raw, "thread_id");
        Emit(SessionStart(sessionId, Get(raw, "model")));
      } else if t == JStr("turn.started") {
        turnIndex := turnIndex + 1;
        Emit(TurnStart(turnIndex, Get(raw, "message_id")));
      } else if t == JStr("turn.completed") {
        Emit(TurnEnd(turnIndex, Some("completed"), Get(raw, "stop_reason"), Get(raw, "usage")));
      } else if t == JStr("turn.failed") {
        Emit(TurnEnd(turnIndex, Some("failed"), JNull, JNull));
        Emit(Error(Or(Get(raw, "error"), JStr("turn failed"))));
      } else if t == JStr("item.started") {
        HandleItemStarted(raw);
      } else if t == JStr("item.completed") {
        HandleItemCompleted(raw);
      } else if t == JStr("agent_message.content.delta") {
        Emit(MessageDelta(turnIndex, Str(Get(raw, "delta"))));
      } else if t == JStr("reasoning.content.delta") {
        Emit(ThinkingDelta(turnIndex, Str(Get(raw, "delta"))));
      } else if t == JStr("error") {
        Emit(Error(Or(Or(Get(raw, "message"), Get(raw, "error")), JStr("unknown error"))));
      }
    }

    method Finalize()
      modifies this
      ensures State() == CodexSpec.Finalize(env, old(State()))
    {
      Emit(SessionEnd(Some("completed")));
    }

    method HandleItemStarted(raw: Json)
      modifies this
      ensures State() == CodexSpec.HandleItemStarted(env, old(State()), raw)
    {
      var itemType := Or(Get(raw, "item_type"), Get(Get(raw, "item"), "type"));
      if !CodexSpec.IsToolItemType(itemType) {
        return;
      }
      var id := Or(Or(Get(raw, "item_id"), Get(Get(raw, "item"), "id")), JStr(""));
      Emit(ToolStart(turnIndex, id, EventNormalizer.NormalizeToolName(itemType),
                     CodexSpec.ExtractToolInput(Or(Get(raw, "item"), raw))));
    }

    method HandleItemCompleted(raw: Json)
      modifies this
      ensures State() == CodexSpec.HandleItemCompleted(env, old(State()), raw)
    {
      var item := Or(Get(raw, "item"), raw);
      var itemType := Get(item, "type");
      if itemType == JStr("agent_message") {
        Emit(Message(turnIndex, CodexSpec.ExtractText(item)));
      } else if itemType == JStr("reasoning") {
        Emit(Thinking(turnIndex, CodexSpec.ExtractText(item)));
      } else if CodexSpec.IsToolItemType(itemType) {
        Emit(ToolEnd(turnIndex, Or(Get(item, "id"), JStr("")), EventNormalizer.NormalizeToolName(itemType),
                     CodexSpec.ExtractToolInput(item)));
      }
    }
  }
}
