/** The module-level helpers of the event normaliser: the tool-name
    canonicaliser and the source detector. */
module EventNormalizer {
  import opened JsonValues
  import opened Canonical

  /** Vendor tool identifiers and the canonical names they map to. */
  const ToolNameMap: map<string, string> := map[
    "Bash" := "bash",
    "Read" := "read",
    "Write" := "write",
    "Edit" := "edit",
    "Glob" := "glob",
    "Grep" := "grep",
    "WebSearch" := "web_search",
    "WebFetch" := "web_fetch",
    "command_execution" := "bash",
    "file_change" := "file_change",
    "mcp_tool_call" := "mcp",
    "web_search" := "web_search",
    "todo_list" := "todo_list"
  ]

  /** The Codex item types that describe a tool invocation. */
  const CodexToolItemTypes: seq<string> :=
    ["command_execution", "file_change", "mcp_tool_call", "web_search", "todo_list"]

  /** The canonical names: the values of the table. */
  const CanonicalToolNames: set<string> :=
    {"bash", "read", "write", "edit", "glob", "grep", "web_search", "web_fetch", "file_change", "mcp", "todo_list"}

  /** `normalize_tool_name`: the table entry for a mapped name, otherwise the
      name's `to_s` lower-cased. The result never holds an upper-case letter. */
  function NormalizeToolName(name: Json): (r: string)
    ensures IsLower(r)
  {
    if name.JStr? && name.s in ToolNameMap then
      TableValuesAreCanonical(name.s);
      ToolNameMap[name.s]
    else
      Lower(ToS(name))
  }

  lemma TableValuesAreCanonical(key: string)
    requires key in ToolNameMap
    ensures ToolNameMap[key] in CanonicalToolNames
    ensures IsLower(ToolNameMap[key])
  {
  }

  /** A canonical name is a fixed point: normalising it again changes nothing. */
  lemma CanonicalNamesAreFixed(name: string)
    requires name in CanonicalToolNames
    ensures NormalizeToolName(JStr(name)) == name
  {
    if name !in ToolNameMap {
      LowerOfLower(name);
    }
  }

  lemma LowerOfLower(s: string)
    requires IsLower(s)
    ensures Lower(s) == s
  {
  }

  /** The two vendors' identifiers for the same capability agree, and an
      unmapped name is lower-cased. */
  lemma ToolNameExamples()
    ensures NormalizeToolName(JStr("Bash")) == "bash"
    ensures NormalizeToolName(JStr("command_execution")) == "bash"
    ensures NormalizeToolName(JStr("WebSearch")) == NormalizeToolName(JStr("web_search")) == "web_search"
    ensures NormalizeToolName(JStr("mcp_tool_call")) == "mcp"
    ensures NormalizeToolName(JStr("TodoWrite")) == "todowrite"
    ensures NormalizeToolName(JNull) == ""
  {
    assert "TodoWrite" !in ToolNameMap;
    assert Lower("TodoWrite") == "todowrite";
  }

  /** Line 39: the streaming-protocol markers. */
  predicate ClaudeStreamType(t: string) {
    Includes(t, "message_start") || Includes(t, "content_block") || t == "ping" || t == "system"
    || t == "message_delta" || t == "message_stop"
  }

  /** Line 40: the conversational markers. */
  predicate ClaudeConversationType(t: string) {
    t == "assistant" || t == "user" || t == "result"
  }

  /** Line 43: the Codex namespaces and markers. */
  predicate CodexType(t: string) {
    StartsWith(t, "thread.") || StartsWith(t, "turn.") || StartsWith(t, "item.") || Includes(t, "delta")
    || t == "error"
  }

  /** `detect_source`: first match, Claude tests before Codex tests. */
  function DetectSource(data: Json): Option<Source> {
    var t := ToS(Get(data, "type"));
    if ClaudeStreamType(t) then Some(Claude)
    else if ClaudeConversationType(t) then Some(Claude)
    else if HasKey(data, "stream_event") then Some(Claude)
    else if CodexType(t) then Some(Codex)
    else None
  }

  /** A raw event with only a `type` field. */
  function Typed(t: string): Json {
    JObj(map["type" := JStr(t)])
  }

  /** Detection of an event that carries only a type. */
  lemma DetectTyped(t: string)
    ensures DetectSource(Typed(t)) ==
      if ClaudeStreamType(t) || ClaudeConversationType(t) then Some(Claude)
      else if CodexType(t) then Some(Codex)
      else None
  {
    assert ToS(Get(Typed(t), "type")) == t;
    assert !HasKey(Typed(t), "stream_event");
  }

  /** A type shorter than both streaming substrings and distinct from every
      exact Claude marker is not a Claude type. */
  lemma ShortNotClaude(t: string)
    requires |t| < 13
    requires t !in ["ping", "system", "message_stop", "assistant", "user", "result"]
    ensures !ClaudeStreamType(t) && !ClaudeConversationType(t)
  {
  }

  /** A `system/init` event is Claude. */
  lemma SystemInitIsClaude()
    ensures DetectSource(JObj(map["type" := JStr("system"), "subtype" := JStr("init")])) == Some(Claude)
  {
    assert ToS(Get(JObj(map["type" := JStr("system"), "subtype" := JStr("init")]), "type")) == "system";
  }

  /** The streaming markers are Claude. */
  lemma StreamMarkersAreClaude()
    ensures DetectSource(Typed("message_start")) == Some(Claude)
    ensures DetectSource(Typed("content_block_start")) == Some(Claude)
    ensures DetectSource(Typed("message_stop")) == Some(Claude)
  {
    DetectTyped("message_start");
    assert OccursAt("message_start", "message_start", 0);
    DetectTyped("content_block_start");
    assert OccursAt("content_block_start", "content_block", 0);
    DetectTyped("message_stop");
  }

  /** `message_delta` contains "delta", a Codex pattern, but is Claude
      because the Claude patterns are tested first. */
  lemma MessageDeltaIsClaude()
    ensures CodexType("message_delta") && DetectSource(Typed("message_delta")) == Some(Claude)
  {
    DetectTyped("message_delta");
    assert OccursAt("message_delta", "delta", 8);
  }

  /** The conversational Claude markers are Claude. */
  lemma ClaudeConversationExamples()
    ensures DetectSource(Typed("assistant")) == Some(Claude)
    ensures DetectSource(Typed("user")) == Some(Claude)
    ensures DetectSource(Typed("result")) == Some(Claude)
  {
    DetectTyped("assistant");
    DetectTyped("user");
    DetectTyped("result");
  }

  lemma StartsCodex(t: string, prefix: string)
    requires prefix in ["thread.", "turn.", "item."] && StartsWith(t, prefix)
    ensures CodexType(t)
  {
  }

  /** The Codex namespaces are Codex. */
  lemma CodexNamespacesAreCodex()
    ensures DetectSource(Typed("thread.started")) == Some(Codex)
    ensures DetectSource(Typed("turn.started")) == Some(Codex)
  {
    ThreadStartedNotClaude();
    StartsCodex("thread.started", "thread.");
    DetectTyped("thread.started");
    ShortNotClaude("turn.started");
    StartsCodex("turn.started", "turn.");
    DetectTyped("turn.started");
  }

  /** `item.started` and `error` are Codex. */
  lemma ItemAndErrorAreCodex()
    ensures DetectSource(Typed("item.started")) == Some(Codex)
    ensures DetectSource(Typed("error")) == Some(Codex)
  {
    ShortNotClaude("item.started");
    StartsCodex("item.started", "item.");
    DetectTyped("item.started");
    ShortNotClaude("error");
    DetectTyped("error");
  }

  lemma ThreadStartedNotClaude()
    ensures !ClaudeStreamType("thread.started") && !ClaudeConversationType("thread.started")
  {
    MissingFirstCharExcludes("thread.started", "message_start");
    MissingFirstCharExcludes("thread.started", "content_block");
  }

  /** A type matching no pattern is undetected. */
  lemma UnknownEventUndetected()
    ensures DetectSource(Typed("unknown_event")) == None
  {
    UnknownMatchesNothing();
    DetectTyped("unknown_event");
  }

  lemma UnknownMatchesNothing()
    ensures !ClaudeStreamType("unknown_event") && !ClaudeConversationType("unknown_event")
    ensures !CodexType("unknown_event")
  {
    MissingFirstCharExcludes("unknown_event", "message_start");
    MissingFirstCharExcludes("unknown_event", "content_block");
    MissingFirstCharExcludes("unknown_event", "delta");
    PrefixMismatch("unknown_event", "thread.", 0);
    PrefixMismatch("unknown_event", "turn.", 0);
    PrefixMismatch("unknown_event", "item.", 0);
  }
}
