/** The Codex normaliser as a function of its state: one function per
    handler of `CodexNormalizer`, each returning the state after it ran. */
module CodexSpec {
  import opened JsonValues
  import opened Canonical
  import EventNormalizer

  /** The instance variables of `CodexNormalizer`. */
  datatype State = State(events: seq<Event>, turnIndex: int, sessionId: Json)

  function Init(): State {
    State([], -1, JNull)
  }

  /** `emit`: append the event, stamped by the clock. */
  function Emit(env: Env, s: State, b: Body): State {
    s.(events := s.events + [Event(Codex, env.clock(|s.events|), b)])
  }

  /** `process`: dispatch on the raw `type`; other types change nothing. */
  function Process(env: Env, s: State, raw: Json): State {
    var t := Get(raw, "type");
    if t == JStr("thread.started") then
      var s1 := s.(sessionId := Get(raw, "thread_id"));
      Emit(env, s1, SessionStart(s1.sessionId, Get(raw, "model")))
    else if t == JStr("turn.started") then
      var s1 := s.(turnIndex := s.turnIndex + 1);
      Emit(env, s1, TurnStart(s1.turnIndex, Get(raw, "message_id")))
    else if t == JStr("turn.completed") then
      Emit(env, s, TurnEnd(s.turnIndex, Some("completed"), Get(raw, "stop_reason"), Get(raw, "usage")))
    else if t == JStr("turn.failed") then
      var s1 := Emit(env, s, TurnEnd(s.turnIndex, Some("failed"), JNull, JNull));
      Emit(env, s1, Error(Or(Get(raw, "error"), JStr("turn failed"))))
    else if t == JStr("item.started") then HandleItemStarted(env, s, raw)
    else if t == JStr("item.completed") then HandleItemCompleted(env, s, raw)
    else if t == JStr("agent_message.content.delta") then
      Emit(env, s, MessageDelta(s.turnIndex, Str(Get(raw, "delta"))))
    else if t == JStr("reasoning.content.delta") then
      Emit(env, s, ThinkingDelta(s.turnIndex, Str(Get(raw, "delta"))))
    else if t == JStr("error") then
      Emit(env, s, Error(Or(Or(Get(raw, "message"), Get(raw, "error")), JStr("unknown error"))))
    else s
  }

  /** The raw types `process` dispatches on. */
  const EventTypes: set<string> := {
    "thread.started", "turn.started", "turn.completed", "turn.failed", "item.started",
    "item.completed", "agent_message.content.delta", "reasoning.content.delta", "error"}

  /** A raw event whose type is not in the vocabulary changes nothing. */
  lemma UnknownTypesIgnored(env: Env, s: State, raw: Json)
    requires !(Get(raw, "type").JStr? && Get(raw, "type").s in EventTypes)
    ensures Process(env, s, raw) == s
  {
  }

  /** Every type of the vocabulary is detected as Codex unless the event
      also carries a `stream_event` key, which the detector reads as Claude
      first. No Codex type matches a Claude pattern. */
  lemma VocabularyDetectedAsCodex(raw: Json)
    requires Get(raw, "type").JStr? && Get(raw, "type").s in EventTypes
    requires !HasKey(raw, "stream_event")
    ensures EventNormalizer.DetectSource(raw) == Some(Codex)
  {
    var t := Get(raw, "type").s;
    assert ToS(Get(raw, "type")) == t;
    CodexTypeNotClaude(t);
    CodexTypeMatchesCodex(t);
  }

  lemma CodexTypeMatchesCodex(t: string)
    requires t in EventTypes
    ensures EventNormalizer.CodexType(t)
  {
    if t == "agent_message.content.delta" {
      assert OccursAt(t, "delta", 22);
    } else if t == "reasoning.content.delta" {
      assert OccursAt(t, "delta", 18);
    }
  }

  lemma CodexTypeNotClaude(t: string)
    requires t in EventTypes
    ensures !EventNormalizer.ClaudeStreamType(t) && !EventNormalizer.ClaudeConversationType(t)
  {
    if |t| < 13 {
      EventNormalizer.ShortNotClaude(t);
    } else {
      // The only '_' of a long Codex type comes too early for either.
      MisplacedCharExcludes(t, "message_start", 7);
      MisplacedCharExcludes(t, "content_block", 7);
    }
  }

  /** `finalize`. */
  function Finalize(env: Env, s: State): State {
    Emit(env, s, SessionEnd(Some("completed")))
  }

  /** `CODEX_TOOL_ITEM_TYPES.include?(item_type)`. */
  predicate IsToolItemType(itemType: Json) {
    itemType.JStr? && itemType.s in EventNormalizer.CodexToolItemTypes
  }

  /** The item type `item.started` looks at: the flat `item_type`, else the
      nested item's `type`. */
  function StartedItemType(raw: Json): Json {
    Or(Get(raw, "item_type"), Get(Get(raw, "item"), "type"))
  }

  function HandleItemStarted(env: Env, s: State, raw: Json): State {
    var itemType := StartedItemType(raw);
    if !IsToolItemType(itemType) then s
    else
      var id := Or(Or(Get(raw, "item_id"), Get(Get(raw, "item"), "id")), JStr(""));
      Emit(env, s, ToolStart(s.turnIndex, id, EventNormalizer.NormalizeToolName(itemType),
                             ExtractToolInput(Or(Get(raw, "item"), raw))))
  }

  /** The item `item.completed` describes: the nested item, else the event
      itself. */
  function CompletedItem(raw: Json): Json {
    Or(Get(raw, "item"), raw)
  }

  function HandleItemCompleted(env: Env, s: State, raw: Json): State {
    var item := CompletedItem(raw);
    var itemType := Get(item, "type");
    if itemType == JStr("agent_message") then
      Emit(env, s, Message(s.turnIndex, ExtractText(item)))
    else if itemType == JStr("reasoning") then
      Emit(env, s, Thinking(s.turnIndex, ExtractText(item)))
    else if IsToolItemType(itemType) then
      Emit(env, s, ToolEnd(s.turnIndex, Or(Get(item, "id"), JStr("")), EventNormalizer.NormalizeToolName(itemType),
                           ExtractToolInput(item)))
    else s
  }

  /** `extract_text`: a string `text`, else a string `content`, else the
      texts of an array `content` joined, else "". */
  function ExtractText(item: Json): string {
    var content := Get(item, "content");
    if Get(item, "text").JStr? then Get(item, "text").s
    else if content.JStr? then content.s
    else if content.JArr? then JoinTexts(content.items)
    else ""
  }

  /** `c["text"] || ""` for one element of `content`, as `join` renders it. */
  function PartText(part: Json): string {
    ToS(Or(Get(part, "text"), JStr("")))
  }

  /** `content.map { |c| c["text"] || "" }.join`. */
  function JoinTexts(parts: seq<Json>): string
    decreases |parts|
  {
    if parts == [] then "" else JoinTexts(parts[..|parts| - 1]) + PartText(parts[|parts| - 1])
  }

  /** `extract_tool_input`: the item's `input` when it is a hash, else a
      hash holding its `command`, else `{}`. The result is always a hash. */
  function ExtractToolInput(item: Json): (r: Json)
    ensures r.JObj?
    ensures Get(item, "input").JObj? ==> r == Get(item, "input")
    ensures !Get(item, "input").JObj? && Truthy(Get(item, "command")) ==>
      r.fields.Keys == {"command"} && Get(r, "command") == Get(item, "command")
    ensures !Get(item, "input").JObj? && !Truthy(Get(item, "command")) ==> r == EmptyObj
  {
    if Get(item, "input").JObj? then Get(item, "input")
    else if Truthy(Get(item, "command")) then JObj(map["command" := Get(item, "command")])
    else EmptyObj
  }

  /** Processing raw events one after another. */
  function ProcessAll(env: Env, s: State, raws: seq<Json>): State
    decreases |raws|
  {
    if raws == [] then s else Process(env, ProcessAll(env, s, raws[..|raws| - 1]), raws[|raws| - 1])
  }

  /** The invariant every handler keeps: the `turn.start` indices emitted so
      far are 0 .. turn_index, no `session.end` precedes `finalize`, and
      every event is tagged "codex". */
  predicate Inv(s: State) {
    && s.turnIndex >= -1
    && TurnStarts(s.events) == Range(s.turnIndex + 1)
    && CountSessionEnds(s.events) == 0
    && AllFrom(s.events, Codex)
  }

  lemma EmitOtherKeepsInv(env: Env, s: State, b: Body)
    requires Inv(s) && !b.TurnStart? && !b.SessionEnd?
    ensures Inv(Emit(env, s, b))
  {
    AppendOne(s.events, Event(Codex, env.clock(|s.events|), b));
  }

  /** Every raw event keeps the invariant. */
  lemma ProcessKeepsInv(env: Env, s: State, raw: Json)
    requires Inv(s)
    ensures Inv(Process(env, s, raw))
  {
    var t := Get(raw, "type");
    if IsTurnType(t) {
      TurnEventsKeepInv(env, s, raw);
    } else if IsItemType(t) {
      ItemEventsKeepInv(env, s, raw);
    } else {
      OtherEventsKeepInv(env, s, raw);
    }
  }

  /** The thread and turn lifecycle types. */
  predicate IsTurnType(t: Json) {
    t == JStr("thread.started") || t == JStr("turn.started") || t == JStr("turn.completed") || t == JStr("turn.failed")
  }

  predicate IsItemType(t: Json) {
    t == JStr("item.started") || t == JStr("item.completed")
  }

  lemma TurnEventsKeepInv(env: Env, s: State, raw: Json)
    requires Inv(s) && IsTurnType(Get(raw, "type"))
    ensures Inv(Process(env, s, raw))
  {
    var t := Get(raw, "type");
    if t == JStr("thread.started") {
      EmitOtherKeepsInv(env, s.(sessionId := Get(raw, "thread_id")), SessionStart(Get(raw, "thread_id"), Get(raw, "model")));
    } else if t == JStr("turn.started") {
      var s1 := s.(turnIndex := s.turnIndex + 1);
      AppendOne(s1.events, Event(Codex, env.clock(|s1.events|), TurnStart(s1.turnIndex, Get(raw, "message_id"))));
      RangeNext(s1.turnIndex);
    } else if t == JStr("turn.completed") {
      EmitOtherKeepsInv(env, s, TurnEnd(s.turnIndex, Some("completed"), Get(raw, "stop_reason"), Get(raw, "usage")));
    } else {
      EmitOtherKeepsInv(env, s, TurnEnd(s.turnIndex, Some("failed"), JNull, JNull));
      var s1 := Emit(env, s, TurnEnd(s.turnIndex, Some("failed"), JNull, JNull));
      EmitOtherKeepsInv(env, s1, Error(Or(Get(raw, "error"), JStr("turn failed"))));
    }
  }

  lemma ItemEventsKeepInv(env: Env, s: State, raw: Json)
    requires Inv(s) && IsItemType(Get(raw, "type"))
    ensures Inv(Process(env, s, raw))
  {
    HandleItemStartedKeepsInv(env, s, raw);
    HandleItemCompletedKeepsInv(env, s, raw);
  }

  lemma HandleItemStartedKeepsInv(env: Env, s: State, raw: Json)
    requires Inv(s)
    ensures Inv(HandleItemStarted(env, s, raw))
  {
    var itemType := StartedItemType(raw);
    if IsToolItemType(itemType) {
      var id := Or(Or(Get(raw, "item_id"), Get(Get(raw, "item"), "id")), JStr(""));
      EmitOtherKeepsInv(env, s, ToolStart(s.turnIndex, id, EventNormalizer.NormalizeToolName(itemType),
                                          ExtractToolInput(Or(Get(raw, "item"), raw))));
    }
  }

  lemma HandleItemCompletedKeepsInv(env: Env, s: State, raw: Json)
    requires Inv(s)
    ensures Inv(HandleItemCompleted(env, s, raw))
  {
    var item := CompletedItem(raw);
    var itemType := Get(item, "type");
    if itemType == JStr("agent_message") {
      EmitOtherKeepsInv(env, s, Message(s.turnIndex, ExtractText(item)));
    } else if itemType == JStr("reasoning") {
      EmitOtherKeepsInv(env, s, Thinking(s.turnIndex, ExtractText(item)));
    } else if IsToolItemType(itemType) {
      EmitOtherKeepsInv(env, s, ToolEnd(s.turnIndex, Or(Get(item, "id"), JStr("")), EventNormalizer.NormalizeToolName(itemType),
                                        ExtractToolInput(item)));
    }
  }

  lemma OtherEventsKeepInv(env: Env, s: State, raw: Json)
    requires Inv(s) && !IsTurnType(Get(raw, "type")) && !IsItemType(Get(raw, "type"))
    ensures Inv(Process(env, s, raw))
  {
    var t := Get(raw, "type");
    if t == JStr("agent_message.content.delta") {
      EmitOtherKeepsInv(env, s, MessageDelta(s.turnIndex, Str(Get(raw, "delta"))));
    } else if t == JStr("reasoning.content.delta") {
      EmitOtherKeepsInv(env, s, ThinkingDelta(s.turnIndex, Str(Get(raw, "delta"))));
    } else if t == JStr("error") {
      EmitOtherKeepsInv(env, s, Error(Or(Or(Get(raw, "message"), Get(raw, "error")), JStr("unknown error"))));
    }
  }

  /** `finalize` adds exactly one `session.end`, as the last event. */
  lemma FinalizeFacts(env: Env, s: State)
    requires Inv(s)
    ensures var r := Finalize(env, s);
      && r.events[..|s.events|] == s.events
      && |r.events| == |s.events| + 1
      && r.events[|s.events|].body == SessionEnd(Some("completed"))
      && CountSessionEnds(r.events) == 1
      && TurnStarts(r.events) == TurnStarts(s.events)
      && AllFrom(r.events, Codex)
  {
    AppendOne(s.events, Event(Codex, env.clock(|s.events|), SessionEnd(Some("completed"))));
  }
}
