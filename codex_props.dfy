/** What the Codex normaliser promises about the events it emits. */
module CodexProperties {
  import opened JsonValues
  import opened Canonical
  import EventNormalizer
  import opened CodexSpec

  /** Splitting a run of raw events. */
  lemma {:induction false} ProcessAllAppend(env: Env, s: State, a: seq<Json>, b: seq<Json>)
    ensures ProcessAll(env, s, a + b) == ProcessAll(env, ProcessAll(env, s, a), b)
    decreases |b|
  {
    if b == [] {
      assert a + b == a;
    } else {
      assert (a + b)[..|a + b| - 1] == a + b[..|b| - 1];
      ProcessAllAppend(env, s, a, b[..|b| - 1]);
    }
  }

  /** The invariant holds after any sequence of raw events. */
  lemma {:induction false} ProcessAllKeepsInv(env: Env, s: State, raws: seq<Json>)
    requires Inv(s)
    ensures Inv(ProcessAll(env, s, raws))
    decreases |raws|
  {
    if raws != [] {
      ProcessAllKeepsInv(env, s, raws[..|raws| - 1]);
      ProcessKeepsInv(env, ProcessAll(env, s, raws[..|raws| - 1]), raws[|raws| - 1]);
    }
  }

  /** Each raw event emits at most two events and never rewrites earlier ones. */
  lemma ProcessOnlyAppends(env: Env, s: State, raw: Json)
    ensures AppendsAtMostTwo(s, Process(env, s, raw))
  {
    var t := Get(raw, "type");
    if IsTurnType(t) {
      TurnEventsAppend(env, s, raw);
    } else if IsItemType(t) {
      ItemEventsAppend(env, s, raw);
    } else {
      OtherEventsAppend(env, s, raw);
    }
  }

  /** The earlier events are kept and at most two are added. */
  predicate AppendsAtMostTwo(s: State, r: State) {
    s.events <= r.events && |r.events| <= |s.events| + 2
  }

  lemma TurnEventsAppend(env: Env, s: State, raw: Json)
    requires IsTurnType(Get(raw, "type"))
    ensures AppendsAtMostTwo(s, Process(env, s, raw))
  {
  }

  lemma ItemEventsAppend(env: Env, s: State, raw: Json)
    requires IsItemType(Get(raw, "type"))
    ensures AppendsAtMostTwo(s, Process(env, s, raw))
  {
  }

  lemma OtherEventsAppend(env: Env, s: State, raw: Json)
    requires !IsTurnType(Get(raw, "type")) && !IsItemType(Get(raw, "type"))
    ensures AppendsAtMostTwo(s, Process(env, s, raw))
  {
  }

  /** Joining the texts of a content array distributes over concatenation. */
  lemma {:induction false} JoinTextsAppend(a: seq<Json>, b: seq<Json>)
    ensures JoinTexts(a + b) == JoinTexts(a) + JoinTexts(b)
    decreases |b|
  {
    if b == [] {
      assert a + b == a;
    } else {
      var init := b[..|b| - 1];
      assert (a + b)[..|a + b| - 1] == a + init;
      JoinTextsAppend(a, init);
      assert JoinTexts(a + b) == JoinTexts(a + init) + PartText(b[|b| - 1]);
      assert (JoinTexts(a) + JoinTexts(init)) + PartText(b[|b| - 1])
          == JoinTexts(a) + (JoinTexts(init) + PartText(b[|b| - 1]));
    }
  }

  /** A content part `{"text" => t}`. */
  function TextPart(t: string): Json {
    JObj(map["text" := JStr(t)])
  }

  function TextParts(ts: seq<string>): seq<Json> {
    seq(|ts|, i requires 0 <= i < |ts| => TextPart(ts[i]))
  }

  /** The text of a message whose content is a list of text parts is the
      parts' texts joined in order; a part without text contributes "". */
  lemma {:induction false} JoinTextParts(ts: seq<string>)
    ensures JoinTexts(TextParts(ts)) == Concat(ts)
    decreases |ts|
  {
    if ts != [] {
      var init := ts[..|ts| - 1];
      assert TextParts(ts)[..|ts| - 1] == TextParts(init);
      JoinTextParts(init);
      assert Get(TextPart(ts[|ts| - 1]), "text") == JStr(ts[|ts| - 1]);
    }
  }

  lemma PartWithoutText(part: Json)
    requires !Truthy(Get(part, "text"))
    ensures PartText(part) == ""
  {
  }

  /** A message item without a string `text` whose `content` is a list of
      text parts reads as the parts' texts joined in order. */
  lemma ExtractTextOfParts(item: Json, ts: seq<string>)
    requires !Get(item, "text").JStr? && Get(item, "content") == JArr(TextParts(ts))
    ensures ExtractText(item) == Concat(ts)
  {
    JoinTextParts(ts);
  }

  /** `turn.failed` closes the current turn as failed and reports the error
      (or "turn failed") as a second event. */
  lemma TurnFailedShape(env: Env, s: State, raw: Json)
    requires Get(raw, "type") == JStr("turn.failed")
    ensures var r := Process(env, s, raw);
      && r.turnIndex == s.turnIndex
      && Bodies(r.events) == Bodies(s.events)
           + [TurnEnd(s.turnIndex, Some("failed"), JNull, JNull), Error(Or(Get(raw, "error"), JStr("turn failed")))]
  {
    var r := Process(env, s, raw);
    assert r.events == s.events + [r.events[|s.events|], r.events[|s.events| + 1]];
  }

  /** `item.started` emits one `tool.start` exactly when the item is a tool
      item, and changes nothing otherwise. */
  lemma ItemStartedIffTool(env: Env, s: State, raw: Json)
    ensures var r := HandleItemStarted(env, s, raw);
      && (IsToolItemType(StartedItemType(raw)) <==> |r.events| == |s.events| + 1)
      && (IsToolItemType(StartedItemType(raw)) ==> r.events[|s.events|].body.ToolStart?)
      && (!IsToolItemType(StartedItemType(raw)) <==> r == s)
  {
  }

  /** The flat form of `item.started`, with `item_type` and `item_id` on the
      event itself and no nested item: the `tool.start` carries that id, the
      canonical name of that type, and the event's command as its input. */
  lemma FlatItemStarted(env: Env, s: State, itemType: string, id: string, command: string)
    requires itemType in EventNormalizer.CodexToolItemTypes
    ensures var raw := JObj(map["type" := JStr("item.started"), "item_type" := JStr(itemType),
                                "item_id" := JStr(id), "command" := JStr(command)]);
      var r := Process(env, s, raw);
      && r.turnIndex == s.turnIndex
      && Bodies(r.events) == Bodies(s.events)
           + [ToolStart(s.turnIndex, JStr(id), EventNormalizer.NormalizeToolName(JStr(itemType)),
                        JObj(map["command" := JStr(command)]))]
  {
    var raw := JObj(map["type" := JStr("item.started"), "item_type" := JStr(itemType),
                        "item_id" := JStr(id), "command" := JStr(command)]);
    assert Get(raw, "type") == JStr("item.started");
    assert StartedItemType(raw) == JStr(itemType);
    assert Get(raw, "item_id") == JStr(id);
    assert !Truthy(Get(raw, "item")) && !Truthy(Get(raw, "input"));
    assert ExtractToolInput(raw) == JObj(map["command" := JStr(command)]);
    var r := Process(env, s, raw);
    assert r.events == s.events + [r.events[|s.events|]];
  }

  /** `item.completed` emits one event exactly for a message, a reasoning or
      a tool item. */
  lemma ItemCompletedCharacterised(env: Env, s: State, raw: Json)
    ensures var r := HandleItemCompleted(env, s, raw);
      var itemType := Get(CompletedItem(raw), "type");
      && (itemType == JStr("agent_message") <==> |r.events| == |s.events| + 1 && r.events[|s.events|].body.Message?)
      && (itemType == JStr("reasoning") <==> |r.events| == |s.events| + 1 && r.events[|s.events|].body.Thinking?)
      && (IsToolItemType(itemType) <==> |r.events| == |s.events| + 1 && r.events[|s.events|].body.ToolEnd?)
      && (r == s <==> !(itemType in {JStr("agent_message"), JStr("reasoning")} || IsToolItemType(itemType)))
  {
  }

  function ItemEvent(t: string, item: Json): Json {
    JObj(map["type" := JStr(t), "item" := item])
  }

  lemma ItemEventDispatch(env: Env, s: State, item: Json)
    requires Truthy(item)
    ensures Process(env, s, ItemEvent("item.started", item)) == HandleItemStarted(env, s, ItemEvent("item.started", item))
    ensures Process(env, s, ItemEvent("item.completed", item)) == HandleItemCompleted(env, s, ItemEvent("item.completed", item))
    ensures StartedItemType(ItemEvent("item.started", item)) == Get(item, "type")
    ensures CompletedItem(ItemEvent("item.completed", item)) == item
  {
    var raw0 := ItemEvent("item.started", item);
    var raw1 := ItemEvent("item.completed", item);
    assert Get(raw0, "type") == JStr("item.started");
    assert Get(raw0, "item") == item;
    assert !Truthy(Get(raw0, "item_type"));
    assert Get(raw1, "type") == JStr("item.completed");
    assert Get(raw1, "item") == item;
  }

  /** The `item.started` and `item.completed` events of the same tool item
      open and close it consistently: same turn, id, canonical tool name and
      input. */
  lemma ToolItemStartAndEndAgree(env: Env, s: State, item: Json)
    requires Truthy(item) && IsToolItemType(Get(item, "type"))
    ensures var started := Process(env, s, ItemEvent("item.started", item));
      var completed := Process(env, started, ItemEvent("item.completed", item));
      && |started.events| == |s.events| + 1
      && |completed.events| == |started.events| + 1
      && var b0 := started.events[|s.events|].body;
      var b1 := completed.events[|started.events|].body;
      && b0.ToolStart? && b1.ToolEnd?
      && b0.turnIndex == b1.turnIndex == s.turnIndex
      && b0.toolUseId == b1.toolUseId == Or(Get(item, "id"), JStr(""))
      && b0.tool == b1.tool == EventNormalizer.NormalizeToolName(Get(item, "type"))
      && b0.input == b1.input == ExtractToolInput(item)
  {
    ItemEventDispatch(env, s, item);
    var raw0 := ItemEvent("item.started", item);
    assert !Truthy(Get(raw0, "item_id"));
    var started := Process(env, s, raw0);
    ItemEventDispatch(env, started, item);
  }

  /** The `tool.end` a completed tool item emits. */
  lemma ToolItemCompletedBody(env: Env, s: State, item: Json)
    requires Truthy(item) && IsToolItemType(Get(item, "type"))
    ensures var r := Process(env, s, ItemEvent("item.completed", item));
      |r.events| == |s.events| + 1
      && r.events[|s.events|].body
           == ToolEnd(s.turnIndex, Or(Get(item, "id"), JStr("")), EventNormalizer.NormalizeToolName(Get(item, "type")),
                      ExtractToolInput(item))
  {
    ItemEventDispatch(env, s, item);
  }

  /** The command-execution item of the Codex test suite becomes a "bash"
      tool whose input is the command. */
  lemma CommandExecutionExample(env: Env, s: State)
    ensures var item := JObj(map["id" := JStr("item_0"), "type" := JStr("command_execution"),
                                 "command" := JStr("/bin/bash -lc ls")]);
      var r := Process(env, s, ItemEvent("item.completed", item));
      r.events[|s.events|].body == ToolEnd(s.turnIndex, JStr("item_0"), "bash", JObj(map["command" := JStr("/bin/bash -lc ls")]))
  {
    var item := JObj(map["id" := JStr("item_0"), "type" := JStr("command_execution"),
                         "command" := JStr("/bin/bash -lc ls")]);
    assert Get(item, "type") == JStr("command_execution");
    assert IsToolItemType(JStr("command_execution")) by {
      assert EventNormalizer.CodexToolItemTypes[0] == "command_execution";
    }
    ToolItemCompletedBody(env, s, item);
    assert EventNormalizer.NormalizeToolName(JStr("command_execution")) == "bash";
    assert Get(item, "id") == JStr("item_0");
    assert !Get(item, "input").JObj? && Get(item, "command") == JStr("/bin/bash -lc ls");
  }
}
