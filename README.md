# Agent event normalisation and session reconstruction

This project models how the run viewer turns a raw agent log into a session.

A run's log entries come from one of two coding agents. One is Claude Code, which produces stream-JSON messages or complete `assistant` messages. The other is Codex, which produces `thread.*`, `turn.*` and `item.*` events. `EventNormalizer.normalize` does three things:
- it decodes each entry;
- it picks the vendor from the first entry whose type it recognises;
- it feeds every later usable entry to that vendor's normaliser.

Each normaliser is an object whose handlers update its counters and open blocks and append canonical events: `session.start`, `turn.start`, `message.delta`, `tool.start`, `tool.end`, `turn.end`, `error`, `session.end` and so on. `RunsController#build_session` then folds the canonical events into a session hash with turns, texts, tool calls and errors. A final pass marks whatever is still running as interrupted.

Layout:
- `json.dfy` (`JsonValues`): decoded JSON values and the Ruby operations the core uses on them (`[]`, `||`, `to_s`, `downcase`, `include?`, `start_with?`).
- `canonical.dfy` (`Canonical`): the canonical event vocabulary, plus the measures the invariants are stated in (turn-start indices, session start and end counts).
- `event_normalizer.dfy` (`EventNormalizer`): `normalize_tool_name` and `detect_source`.
- `claude_spec.dfy` (`ClaudeSpec`) and `codex_spec.dfy` (`CodexSpec`):
  - each normaliser's state as a value, with one function per handler;
  - the invariant every handler keeps.
- `claude_normalizer.dfy` and `codex_normalizer.dfy`: the normalisers as classes whose fields the handlers update in place. Each method is proved to leave the object in the state the corresponding spec function computes.
- `claude_props.dfy` and `codex_props.dfy`: what a normaliser emits for whole messages, streamed blocks and items.
- `driver.dfy` (`Driver`): the `normalize` loop as a method over the normaliser objects, proved equal to a fold (`Normalized`). `driver_props.dfy` holds the lock-in and well-formedness properties of that fold.
- `session.dfy` (`SessionBuilder`): `build_session` as two loops, proved equal to `Finalize(Fold(events))`. `session_props.dfy` holds the per-event properties of the fold.
- `pipeline.dfy` (`Pipeline`): the two stages composed, as the `show` action composes them.

`JSON.parse` and the wall clock are collaborators outside the core. They are fields of `Canonical.Env`:
- `parse` returns `None` where parsing raises;
- `clock(i)` is the timestamp given to the i-th event a normaliser emits.

## Model

| member | source | states |
|---|---|---|
| EventNormalizer.NormalizeToolName | app/services/event_normalizer.rb:7-29 | a mapped vendor tool name gives its table entry; any other value gives its `to_s` lower-cased; the result never holds an upper-case letter |
| EventNormalizer.TableValuesAreCanonical | app/services/event_normalizer.rb:7-23 | every table entry is one of the canonical names and is lower-case |
| EventNormalizer.CanonicalNamesAreFixed | app/services/event_normalizer.rb:7-29 | normalising a canonical name returns it unchanged |
| EventNormalizer.ToolNameExamples | app/services/event_normalizer.rb:7-29 | "Bash" and "command_execution" both give "bash"; "WebSearch" and "web_search" agree; "mcp_tool_call" gives "mcp"; an unmapped name is lower-cased; nil gives "" |
| EventNormalizer.DetectSource | app/services/event_normalizer.rb:36-45 | `detect_source`: the Claude tests (streaming markers, conversational markers, a `stream_event` key) run before the Codex tests; nil when nothing matches. Its partners are `ClaudeSpec.VocabularyDetectedAsClaude` and `CodexSpec.VocabularyDetectedAsCodex`, which tie it to the types each normaliser handles |
| EventNormalizer.DetectTyped | app/services/event_normalizer.rb:36-45 | detection of an event that has only a type, by the type patterns alone |
| EventNormalizer.SystemInitIsClaude | test/services/event_normalizer_test.rb:4-5 | a `system/init` event is Claude |
| EventNormalizer.StreamMarkersAreClaude | test/services/event_normalizer_test.rb:6-9 | `message_start`, `content_block_start` and `message_stop` are Claude |
| EventNormalizer.MessageDeltaIsClaude | app/services/event_normalizer.rb:39-43 | `message_delta` matches the Codex `delta` pattern but is Claude, because the Claude tests run first |
| EventNormalizer.ClaudeConversationExamples | test/services/event_normalizer_test.rb:19-22 | `assistant`, `user` and `result` are Claude |
| EventNormalizer.CodexNamespacesAreCodex | test/services/event_normalizer_test.rb:12-14 | `thread.started` and `turn.started` are Codex |
| EventNormalizer.ItemAndErrorAreCodex | test/services/event_normalizer_test.rb:15-16 | `item.started` and `error` are Codex |
| EventNormalizer.UnknownEventUndetected | test/services/event_normalizer_test.rb:26-28 | `unknown_event` is not detected |
| ClaudeNormalizer.ClaudeCodeNormalizer.constructor | app/services/event_normalizer.rb:81-91 | the new normaliser has no events, turn index -1, no session, and no open blocks |
| ClaudeNormalizer.ClaudeCodeNormalizer.NormalizerName | app/services/event_normalizer.rb:79 | the name `normalize` reports for a Claude log |
| ClaudeNormalizer.ClaudeCodeNormalizer.Emit | app/services/event_normalizer.rb:31-34 | appends one event stamped by the clock and changes no other field |
| ClaudeNormalizer.ClaudeCodeNormalizer.Process | app/services/event_normalizer.rb:93-117 | the fields afterwards are `ClaudeSpec.Process` of the fields before; the object stays valid |
| ClaudeNormalizer.ClaudeCodeNormalizer.Finalize | app/services/event_normalizer.rb:119-121 | appends a completed `session.end` |
| ClaudeNormalizer.ClaudeCodeNormalizer.HandleSystem | app/services/event_normalizer.rb:125-133 | the new state is `ClaudeSpec.HandleSystem` of the old one |
| ClaudeNormalizer.ClaudeCodeNormalizer.HandleMessageStart | app/services/event_normalizer.rb:135-150 | the new state is `ClaudeSpec.HandleMessageStart` of the old one |
| ClaudeNormalizer.ClaudeCodeNormalizer.StartMessage | app/services/event_normalizer.rb:136-143 | advances the turn and records the message id and model; clears the blocks, stop reason and usage |
| ClaudeNormalizer.ClaudeCodeNormalizer.OpenTurn | app/services/event_normalizer.rb:144-149 | emits `session.start` if none was emitted, then `turn.start` |
| ClaudeNormalizer.ClaudeCodeNormalizer.HandleContentBlockStart | app/services/event_normalizer.rb:152-172 | the new state is `ClaudeSpec.HandleContentBlockStart` of the old one |
| ClaudeNormalizer.ClaudeCodeNormalizer.HandleContentBlockDelta | app/services/event_normalizer.rb:174-204 | the new state is `ClaudeSpec.HandleContentBlockDelta` of the old one |
| ClaudeNormalizer.ClaudeCodeNormalizer.HandleContentBlockStop | app/services/event_normalizer.rb:206-238 | the new state is `ClaudeSpec.HandleContentBlockStop` of the old one |
| ClaudeNormalizer.ClaudeCodeNormalizer.HandleMessageDelta | app/services/event_normalizer.rb:240-244 | records the stop reason and usage |
| ClaudeNormalizer.ClaudeCodeNormalizer.HandleMessageStop | app/services/event_normalizer.rb:246-254 | emits the `turn.end` of the current turn |
| ClaudeNormalizer.ClaudeCodeNormalizer.EnsureSessionStarted | app/services/event_normalizer.rb:256-262 | the new state is `ClaudeSpec.EnsureSessionStarted` of the old one |
| ClaudeNormalizer.ClaudeCodeNormalizer.HandleAssistant | app/services/event_normalizer.rb:264-294 | the new state is `ClaudeSpec.HandleAssistant` of the old one |
| ClaudeNormalizer.ClaudeCodeNormalizer.OpenAssistantTurn | app/services/event_normalizer.rb:268-270 | records the model, advances the turn and emits `turn.start` |
| ClaudeNormalizer.ClaudeCodeNormalizer.EmitAssistantBlocks | app/services/event_normalizer.rb:275-288 | the `each` over the content blocks leaves the state `ClaudeSpec.EmitBlocks` computes |
| ClaudeSpec.Process | app/services/event_normalizer.rb:93-117 | `process`: the dispatch on the raw type to one handler; "ping", "user", "result" and unknown types change nothing. Its partners are `ClaudeSpec.ProcessKeepsInv` and `ClaudeSpec.UnknownTypesIgnored` |
| ClaudeSpec.UnknownTypesIgnored | app/services/event_normalizer.rb:93-117 | a raw event whose type is none of the eleven types the Claude normaliser knows leaves its state unchanged |
| ClaudeSpec.VocabularyDetectedAsClaude | app/services/event_normalizer.rb:36-45 | every type the Claude normaliser dispatches on or knowingly ignores (system, ping, message_start, the three content_block types, message_delta, message_stop, assistant, user, result) is detected as Claude, so `normalize` hands such events to it |
| ClaudeSpec.Finalize | app/services/event_normalizer.rb:119-121 | `finalize`: appends a completed `session.end`; its partner is `ClaudeSpec.FinalizeFacts` |
| ClaudeSpec.HandleSystem | app/services/event_normalizer.rb:125-133 | a `system/init` before the session starts records the session id and model and emits `session.start`; anything else changes nothing. Its partner is `ClaudeProperties.SystemInitOnlyOnce` |
| ClaudeSpec.HandleMessageStart | app/services/event_normalizer.rb:135-150 | `message_start`: the per-message reset, then the session start if needed and the turn start. Its partner is `ClaudeProperties.MessageStartOpensTurn` |
| ClaudeSpec.StartMessage | app/services/event_normalizer.rb:136-143 | the next turn index, the message id, the model unless one is known, no open blocks, stop reason or usage |
| ClaudeSpec.OpenTurn | app/services/event_normalizer.rb:144-149 | `session.start` if none was emitted yet, then `turn.start` |
| ClaudeSpec.HandleContentBlockStart | app/services/event_normalizer.rb:152-172 | opens a block at the index; a tool block also emits `tool.start` with the normalised name and `{}`. Its partners are `ClaudeProperties.ProseBlockFilled` and `ClaudeProperties.ToolBlockFilled` |
| ClaudeSpec.HandleContentBlockDelta | app/services/event_normalizer.rb:174-204 | on an open block, a text, thinking or input delta appends its piece to the block and emits `message.delta`, `thinking.delta` or `tool.delta`; anything else changes nothing. Its partners are `ClaudeProperties.ProseDeltasAccumulate` and `ClaudeProperties.JsonDeltasAccumulate` |
| ClaudeSpec.HandleContentBlockStop | app/services/event_normalizer.rb:206-238 | closes an open block and emits its `message`, `thinking` or `tool.end` with the parsed input (`{}` when it does not parse). Its partner is `ClaudeProperties.BlockStopCharacterised` |
| ClaudeSpec.HandleMessageDelta | app/services/event_normalizer.rb:240-244 | records the stop reason and usage and emits nothing |
| ClaudeSpec.HandleMessageStop | app/services/event_normalizer.rb:246-254 | emits a completed `turn.end` with the recorded stop reason and usage |
| ClaudeSpec.EnsureSessionStarted | app/services/event_normalizer.rb:256-262 | before the session starts, records its id and model and emits `session.start`; its partner is `ClaudeProperties.EnsureSessionStartedBodies` |
| ClaudeSpec.HandleAssistant | app/services/event_normalizer.rb:264-294 | a complete assistant message: session start if needed, turn start, the blocks' events, completed turn end. Its partner is `ClaudeProperties.AssistantTurnShape` |
| ClaudeSpec.EmitBlocks | app/services/event_normalizer.rb:275-288 | the `blocks.each` loop, block after block; its partner is `ClaudeProperties.EmitBlocksBodies` |
| ClaudeSpec.ProcessKeepsInv | app/services/event_normalizer.rb:93-117 | every raw event keeps the invariant: the turn starts emitted are 0..turn_index, there is one `session.start` once the session started and none before, there is no `session.end`, and every event is tagged claude |
| ClaudeSpec.HandleAssistantKeepsInv | app/services/event_normalizer.rb:264-294 | a complete assistant message keeps the invariant |
| ClaudeSpec.HandleMessageStartKeepsInv | app/services/event_normalizer.rb:135-150 | `message_start` keeps the invariant |
| ClaudeSpec.HandleContentBlockStartKeepsInv | app/services/event_normalizer.rb:152-172 | `content_block_start` keeps the invariant |
| ClaudeSpec.HandleContentBlockDeltaKeepsInv | app/services/event_normalizer.rb:174-204 | `content_block_delta` keeps the invariant |
| ClaudeSpec.HandleContentBlockStopKeepsInv | app/services/event_normalizer.rb:206-238 | `content_block_stop` keeps the invariant |
| ClaudeSpec.BlockEventsKeepInv | app/services/event_normalizer.rb:152-238 | the three content-block events keep the invariant |
| ClaudeSpec.MessageEventsKeepInv | app/services/event_normalizer.rb:93-117 | ping, system, message_start, message_delta, message_stop and unknown types keep the invariant |
| ClaudeSpec.EnsureSessionStartedKeepsInv | app/services/event_normalizer.rb:256-262 | afterwards the session has started and the invariant holds |
| ClaudeSpec.EmitBlocksKeepsInv | app/services/event_normalizer.rb:275-288 | the block loop of an assistant message keeps the invariant and the turn |
| ClaudeSpec.FinalizeFacts | app/services/event_normalizer.rb:119-121 | `finalize` keeps the earlier events and adds one last `session.end`; that is the only one, and the turn starts and source tags are unchanged |
| ClaudeProperties.ProcessAllKeepsInv | app/services/event_normalizer.rb:93-117 | the invariant holds after any sequence of raw events |
| ClaudeProperties.EmitBlocksBodies | app/services/event_normalizer.rb:275-288 | the block loop appends exactly the blocks' events in order; the turn and session flag are unchanged |
| ClaudeProperties.EmitBlockBodies | app/services/event_normalizer.rb:276-287 | a text block gives `message`, a thinking block `thinking`, a tool block `tool.start` then `tool.end`, any other block nothing |
| ClaudeProperties.AssistantTurnShape | app/services/event_normalizer.rb:264-294 | an assistant message emits `session.start` only if needed, then `turn.start` with the next index, the blocks' events, and a completed `turn.end` with the stop reason and usage |
| ClaudeProperties.AssistantTurnOpened | app/services/event_normalizer.rb:265-270 | the session start if needed and the turn start, with the next index |
| ClaudeProperties.EnsureSessionStartedBodies | app/services/event_normalizer.rb:256-262 | emits `session.start` with the session id and the model exactly when the session had not started |
| ClaudeProperties.ToolStartIffToolUse | app/services/event_normalizer.rb:275-291 | the blocks give a `tool.start` if and only if one of them is a `tool_use` block |
| ClaudeProperties.ToolStartsArePaired | app/services/event_normalizer.rb:281-286 | each `tool.start` of an assistant message is followed at once by the `tool.end` with the same turn, id, name and input |
| ClaudeProperties.AssistantStopReasonIffTool | app/services/event_normalizer.rb:290-291 | the stop reason is "tool_use" if and only if the turn emitted a `tool.start`, and "end_turn" otherwise |
| ClaudeProperties.ProcessAllAppend | app/services/event_normalizer.rb:93-117 | processing a concatenation processes its parts in order |
| ClaudeProperties.ProseDeltasAccumulate | app/services/event_normalizer.rb:174-194 | text or thinking deltas on an open block each emit their piece as `message.delta` or `thinking.delta` and append it to the block's text |
| ClaudeProperties.DeltaBodiesAt | app/services/event_normalizer.rb:181-194 | the delta events of a prose block are one per piece, in order, each carrying its piece |
| ClaudeProperties.JsonDeltasAccumulate | app/services/event_normalizer.rb:195-202 | input deltas each emit a `tool.delta` with the block's tool id and append the piece to the block's partial input |
| ClaudeProperties.StopStep | app/services/event_normalizer.rb:206-238 | stopping an open text, thinking or tool block closes it and emits its `message`, `thinking` or `tool.end` |
| ClaudeProperties.ProseBlockFilled | app/services/event_normalizer.rb:152-194 | after a text or thinking block's start and deltas, only the deltas were emitted and the block holds the pieces joined |
| ClaudeProperties.StreamedProseBlock | app/services/event_normalizer.rb:152-238 | a streamed text or thinking block emits one delta per piece, then one `message` or `thinking` with all the pieces joined, and is closed |
| ClaudeProperties.StreamedTextBlock | test/services/event_normalizer_test.rb:42-77 | a streamed text block emits one `message.delta` per piece, then one `message` with all the pieces joined, and is closed |
| ClaudeProperties.StreamedThinkingBlock | test/services/event_normalizer_test.rb:101-122 | a streamed thinking block, whose deltas carry their piece under `thinking`, emits one `thinking.delta` per piece, then one `thinking` with all the pieces joined, and is closed |
| ClaudeProperties.ToolBlockFilled | app/services/event_normalizer.rb:152-202 | a tool block's start emits `tool.start` with the normalised name and `{}`; the deltas follow and the block holds the input joined |
| ClaudeProperties.StreamedToolCall | test/services/event_normalizer_test.rb:79-99 | a streamed tool call emits `tool.start`, one `tool.delta` per piece, and `tool.end` with the same id and name and the joined input parsed (`{}` when it does not parse) |
| ClaudeProperties.BlockStopCharacterised | app/services/event_normalizer.rb:206-238 | the block is always removed; one event is emitted exactly when the block was open and is text, thinking or tool_use; nothing is emitted otherwise |
| ClaudeProperties.MessageStartOpensTurn | app/services/event_normalizer.rb:135-150 | advances the turn and clears blocks, stop reason and usage; emits one or two events ending in `turn.start`; keeps exactly one `session.start` |
| ClaudeProperties.SystemInitOnlyOnce | app/services/event_normalizer.rb:125-133 | only an `init` starts the session; a later one changes nothing; there is at most one `session.start` |
| ClaudeProperties.StoppedBlockIsSilent | app/services/event_normalizer.rb:174-238 | after a block is stopped, a delta or stop at its index changes nothing |
| CodexNormalizer.CodexNormalizer.constructor | app/services/event_normalizer.rb:306-310 | a new normaliser has no events and turn index -1 |
| CodexNormalizer.CodexNormalizer.NormalizerName | app/services/event_normalizer.rb:304 | the name `normalize` reports for a Codex log |
| CodexNormalizer.CodexNormalizer.Emit | app/services/event_normalizer.rb:31-34 | appends one event stamped by the clock and changes no other field |
| CodexNormalizer.CodexNormalizer.Process | app/services/event_normalizer.rb:312-350 | the fields afterwards are `CodexSpec.Process` of the fields before; the object stays valid |
| CodexNormalizer.CodexNormalizer.Finalize | app/services/event_normalizer.rb:352-354 | appends a completed `session.end` |
| CodexNormalizer.CodexNormalizer.HandleItemStarted | app/services/event_normalizer.rb:358-369 | the new state is `CodexSpec.HandleItemStarted` of the old one |
| CodexNormalizer.CodexNormalizer.HandleItemCompleted | app/services/event_normalizer.rb:371-393 | the new state is `CodexSpec.HandleItemCompleted` of the old one |
| CodexSpec.Process | app/services/event_normalizer.rb:312-350 | `process`: the dispatch on the raw type; unknown types change nothing. Its partners are `CodexSpec.ProcessKeepsInv` and `CodexSpec.UnknownTypesIgnored` |
| CodexSpec.UnknownTypesIgnored | app/services/event_normalizer.rb:312-350 | a raw event whose type is none of the nine types the Codex normaliser dispatches on leaves its state unchanged |
| CodexSpec.VocabularyDetectedAsCodex | app/services/event_normalizer.rb:36-45 | every type the Codex normaliser dispatches on (thread.started, turn.started, turn.completed, turn.failed, item.started, item.completed, agent_message.content.delta, reasoning.content.delta, error) is detected as Codex, unless the event also has a `stream_event` key; no Codex type matches a Claude test |
| CodexSpec.Finalize | app/services/event_normalizer.rb:352-354 | `finalize`: appends a completed `session.end`; its partner is `CodexSpec.FinalizeFacts` |
| CodexSpec.HandleItemStarted | app/services/event_normalizer.rb:358-369 | a tool item emits `tool.start` with its id, canonical name and input; other items change nothing. Its partner is `CodexProperties.ItemStartedIffTool` |
| CodexSpec.HandleItemCompleted | app/services/event_normalizer.rb:371-393 | an agent message emits `message`, reasoning `thinking`, a tool item a completed `tool.end`; other items change nothing. Its partner is `CodexProperties.ItemCompletedCharacterised` |
| CodexSpec.ExtractText | app/services/event_normalizer.rb:395-401 | `extract_text`: a string `text`, else a string `content`, else the texts of an array `content` joined, else "". Its partners are `CodexProperties.JoinTextParts` and `CodexProperties.ExtractTextOfParts` |
| CodexSpec.ExtractToolInput | app/services/event_normalizer.rb:403-407 | always a hash: the item's `input` if that is a hash, else a hash whose only key is `command`, if the item has a command, else `{}` |
| CodexSpec.ProcessKeepsInv | app/services/event_normalizer.rb:312-350 | every raw event keeps the invariant: the turn starts emitted are 0..turn_index, there is no `session.end`, and every event is tagged codex |
| CodexSpec.TurnEventsKeepInv | app/services/event_normalizer.rb:316-338 | the thread and turn lifecycle events keep the invariant |
| CodexSpec.ItemEventsKeepInv | app/services/event_normalizer.rb:339-342 | item events keep the invariant |
| CodexSpec.HandleItemStartedKeepsInv | app/services/event_normalizer.rb:358-369 | `item.started` keeps the invariant |
| CodexSpec.HandleItemCompletedKeepsInv | app/services/event_normalizer.rb:371-393 | `item.completed` keeps the invariant |
| CodexSpec.OtherEventsKeepInv | app/services/event_normalizer.rb:343-349 | deltas, errors and unknown types keep the invariant |
| CodexSpec.FinalizeFacts | app/services/event_normalizer.rb:352-354 | `finalize` keeps the earlier events and adds one last `session.end`; that is the only one, and the turn starts and source tags are unchanged |
| CodexProperties.ProcessAllAppend | app/services/event_normalizer.rb:312-350 | processing a concatenation processes its parts in order |
| CodexProperties.ProcessAllKeepsInv | app/services/event_normalizer.rb:312-350 | the invariant holds after any sequence of raw events |
| CodexProperties.ProcessOnlyAppends | app/services/event_normalizer.rb:312-350 | each raw event keeps the earlier events and adds at most two |
| CodexProperties.JoinTextsAppend | app/services/event_normalizer.rb:399 | joining a content array's texts distributes over concatenation |
| CodexProperties.JoinTextParts | app/services/event_normalizer.rb:399 | a content array of text parts gives their texts joined in order |
| CodexProperties.ExtractTextOfParts | app/services/event_normalizer.rb:395-401 | an item without a string `text` whose `content` is a list of text parts gives the parts' texts joined in order |
| CodexProperties.TurnFailedShape | app/services/event_normalizer.rb:330-338 | `turn.failed` emits a failed `turn.end` for the current turn, then an `error` with the reason or "turn failed" |
| CodexProperties.ItemStartedIffTool | app/services/event_normalizer.rb:358-369 | emits one `tool.start` if and only if the item is a tool item; changes nothing otherwise |
| CodexProperties.FlatItemStarted | app/services/event_normalizer.rb:358-369 | an `item.started` with `item_type` and `item_id` on the event itself and no nested item emits one `tool.start` with that id, the canonical name of that type, and `{"command" => command}` as input |
| CodexProperties.ItemCompletedCharacterised | app/services/event_normalizer.rb:371-393 | emits `message` exactly for an agent message, `thinking` exactly for reasoning, `tool.end` exactly for a tool item, and nothing otherwise |
| CodexProperties.ItemEventDispatch | app/services/event_normalizer.rb:339-342 | item events reach their handler, which reads the nested item's type and the nested item |
| CodexProperties.ToolItemStartAndEndAgree | app/services/event_normalizer.rb:358-393 | the start and completion of one tool item give `tool.start` and `tool.end` with the same turn, id, canonical name and input |
| CodexProperties.ToolItemCompletedBody | app/services/event_normalizer.rb:383-390 | the `tool.end` of a completed tool item |
| CodexProperties.CommandExecutionExample | test/services/event_normalizer_test.rb:124-155 | a completed command execution becomes a "bash" `tool.end` whose input is the command |
| Driver.Step | app/services/event_normalizer.rb:52-66 | one iteration: an unparsable or unusable entry is skipped; otherwise a normaliser is chosen by `detect_source` if none is yet, and the chosen one processes the entry. Its partners are `DriverProperties.StepDecides` and `DriverProperties.SkipsUnusable` |
| Driver.Run | app/services/event_normalizer.rb:52-66 | the loop over the entries; its partners are `DriverProperties.RunAppend` and `DriverProperties.LockIn` |
| Driver.Normalized | app/services/event_normalizer.rb:47-70 | what `normalize` returns: no events and no name without a normaliser, else the finalized events and the normaliser's name. Its partners are `DriverProperties.NothingDetectedIffEmptyResult` and `DriverProperties.NormalizedWellFormed` |
| Driver.Normalize | app/services/event_normalizer.rb:47-70 | the events and normaliser name returned are those of `Normalized`, the fold of the loop over the entries |
| Driver.Advance | app/services/event_normalizer.rb:52-66 | one iteration: the normaliser object afterwards is in the state `Step` computes; an existing normaliser is kept, and a new one is fresh |
| Driver.Start | app/services/event_normalizer.rb:56-62 | a fresh normaliser of the detected kind, or none |
| Driver.FeedActive | app/services/event_normalizer.rb:65 | the chosen normaliser processes the entry |
| DriverProperties.RunAppend | app/services/event_normalizer.rb:52-66 | the loop over a concatenation is the loop over its parts |
| DriverProperties.ClaudeStaysChosen | app/services/event_normalizer.rb:56-65 | once Claude is chosen it is never replaced, and it processes every later usable entry |
| DriverProperties.CodexStaysChosen | app/services/event_normalizer.rb:56-65 | once Codex is chosen it is never replaced, and it processes every later usable entry |
| DriverProperties.UndecidedIffNothingDetected | app/services/event_normalizer.rb:52-66 | no normaliser is chosen if and only if no entry has a detectable source |
| DriverProperties.StepDecides | app/services/event_normalizer.rb:53-62 | a step stays undecided if and only if it was undecided and the entry's source is not detected |
| DriverProperties.LockIn | app/services/event_normalizer.rb:52-66 | the first entry with a detectable source picks the normaliser; earlier entries are dropped; it and every later usable entry are processed in order |
| DriverProperties.SkipsUnusable | app/services/event_normalizer.rb:53-54 | unparsable strings, non-hashes and empty hashes are skipped in every state |
| DriverProperties.RunKeepsInv | app/services/event_normalizer.rb:52-66 | the chosen normaliser's state satisfies its invariant |
| DriverProperties.NothingDetectedIffEmptyResult | app/services/event_normalizer.rb:48-69 | no events and no name if and only if no entry has a detectable source; the empty input gives no events and no name |
| DriverProperties.NormalizedWellFormed | app/services/event_normalizer.rb:68-69 | with a normaliser chosen, the last event is the only `session.end`, which is completed; turn starts are numbered 0, 1, 2, ... without gaps; every event has the chosen source; a Claude log has at most one `session.start` |
| SessionBuilder.Slot | app/controllers/runs_controller.rb:83 | Ruby array indexing: an index in range, or a negative one counting from the end, reaches a position; any other index reaches none |
| SessionBuilder.FindTool | app/controllers/runs_controller.rb:114 | the position of the first tool with the id, or none exactly when no tool has it |
| SessionBuilder.Apply | app/controllers/runs_controller.rb:60-143 | the per-event dispatch of `build_session`; its partners are the `SessionProperties` lemmas, one per event type |
| SessionBuilder.Fold | app/controllers/runs_controller.rb:59-144 | the events applied in order from the empty running session; its partner is `SessionProperties.TurnsMirrorTurnStarts` |
| SessionBuilder.Finalize | app/controllers/runs_controller.rb:146-150 | the interruption pass; its partner is `SessionProperties.FinalizeInterrupts` |
| SessionBuilder.BuildSession | app/controllers/runs_controller.rb:47-153 | the result is the interruption pass after the fold of the events; no turn is left running; a running session has an end time |
| SessionBuilder.FoldEvents | app/controllers/runs_controller.rb:59-144 | the loop computes `Fold(events)` |
| SessionBuilder.ApplyEvent | app/controllers/runs_controller.rb:60-143 | the dispatch computes `Apply` for every event type |
| SessionBuilder.ApplyText | app/controllers/runs_controller.rb:82-96 | the four text events compute `Apply` |
| SessionBuilder.ApplyTool | app/controllers/runs_controller.rb:98-120 | `tool.start` and `tool.end` compute `Apply` |
| SessionBuilder.InterruptRunning | app/controllers/runs_controller.rb:146-150 | the interruption pass: no turn is left running; a running session has an end time |
| SessionProperties.TurnStartAppendsOneTurn | app/controllers/runs_controller.rb:67-80 | `turn.start` appends one running turn with empty texts, tools and errors, and changes nothing else |
| SessionProperties.MissingTurnChangesNothing | app/controllers/runs_controller.rb:82-129 | an event whose turn index reaches no turn changes nothing |
| SessionProperties.AddressedTurnOnly | app/controllers/runs_controller.rb:82-129 | an event that addresses a turn changes that turn only |
| SessionProperties.TextEvents | app/controllers/runs_controller.rb:82-96 | deltas append to the turn's message or thinking text; full events replace it |
| SessionProperties.ToolStartAppendsTool | app/controllers/runs_controller.rb:98-109 | `tool.start` appends one running tool to the addressed turn |
| SessionProperties.ToolEndCompletesFirstMatch | app/controllers/runs_controller.rb:111-120 | `tool.end` completes the first tool with the id, setting its input, status and end time; the other tools are unchanged |
| SessionProperties.UnmatchedToolEndDropped | app/controllers/runs_controller.rb:111-120 | a `tool.end` with no matching tool changes nothing |
| SessionProperties.TurnEndSetsFourFields | app/controllers/runs_controller.rb:122-129 | `turn.end` sets status (default "completed"), stop reason, usage and end time |
| SessionProperties.ErrorAttribution | app/controllers/runs_controller.rb:131-138 | an error goes to the last turn if it is running, else to the session; exactly one list grows, by this entry, and the new session is the old one with only that list extended |
| SessionProperties.SessionEndSetsStatus | app/controllers/runs_controller.rb:140-142 | `session.end` sets the session's status (default "completed") and end time, and changes no turn and no error |
| SessionProperties.OnlySessionEndSetsStatus | app/controllers/runs_controller.rb:60-142 | no other event changes the session's status or end time |
| SessionProperties.FoldAfterSessionEnd | app/controllers/runs_controller.rb:59-144 | after the fold, the status and end time are those the last `session.end` set |
| SessionProperties.LastSessionEndDecides | app/controllers/runs_controller.rb:140-150 | the built session's status is the last `session.end`'s status (default "completed") and its end time is that event's timestamp; the interruption pass leaves both alone |
| SessionProperties.NoSessionEndInterrupted | app/controllers/runs_controller.rb:140-150 | without a `session.end` the fold leaves the session running with no end time, and the built session is interrupted |
| SessionProperties.ApplyKeepsTurnIndices | app/controllers/runs_controller.rb:61-142 | only `turn.start` changes the number of turns or their indices |
| SessionProperties.TurnsMirrorTurnStarts | app/controllers/runs_controller.rb:59-144 | the session's turns are the `turn.start` events in order, with their indices |
| SessionProperties.FinalizeInterrupts | app/controllers/runs_controller.rb:146-150 | running turns become interrupted and nothing else about a turn changes; the session is interrupted exactly when it was running without an end time; only the turns and the status can change |
| Pipeline.SessionOf | app/controllers/runs_controller.rb:9-15 | the session the run page shows: `build_session` of `normalize`'s events |
| Pipeline.TurnsAreNumberedByPosition | app/controllers/runs_controller.rb:9-15 | the reconstructed turns are numbered 0, 1, 2, ..., so each turn index reaches the turn it was emitted in |
| Pipeline.SessionStatusOfLog | app/controllers/runs_controller.rb:9-15 | a log with a detected source gives a completed session with an end time; a log without one gives an interrupted, empty session |
| Pipeline.NoTurnLeftRunning | app/controllers/runs_controller.rb:9-15 | no turn of the displayed session is running |

## Left out

- The command-line entry point (app/services/event_normalizer.rb:413-448): it reads files and prints, which is I/O.
- `JSON.parse` and `Time.now.utc.iso8601(3)` are parameters (`Env.parse`, `Env.clock`); their behaviour is not modelled. A parse error is `None`.
- Numbers are integers; JSON floats are not modelled.
- `h["key"]` on a value that is not a hash is modelled as nil. Ruby would raise, or index a string or array.
- `to_s` of an array or a hash is modelled as "" rather than Ruby's inspection text. This matters to `normalize_tool_name` and `detect_source` given such a value, and to `extract_text` (below).
- CodexSpec.ExtractText: a `content` part whose `text` is an array or a hash contributes "". Ruby's `join` would flatten a nested array into its elements' texts and render a hash by its inspection text.
- ClaudeSpec.HandleAssistant: a message `content` that is truthy but not an array is read as no blocks, so the model emits `turn.start` and a completed `turn.end` with "end_turn". Ruby raises in `blocks.each` or `blocks.any?` for any such value except an empty hash, and `normalize` fails with it; the model has no error path there.
- Text fields that are not strings (a delta, a block text, a content `text`) are modelled as "". Ruby would keep the value, or raise on `<<`.
- `downcase` is modelled on ASCII letters only.
- Strings are values. Ruby's in-place `<<` on shared strings, and any aliasing between emitted events and the normaliser's blocks, are not modelled. In particular, app/services/event_normalizer.rb:1 freezes string literals, so the `""` fallbacks at lines 278, 280 and 400 are frozen. A `message` or `thinking` event carrying one of them, followed by a delta to the same turn, makes `build_session`'s `<<` (app/controllers/runs_controller.rb:84 and :92) raise FrozenError. An example is a Codex `item.completed` agent message with no text or content, then an `agent_message.content.delta` in the same turn. `SessionBuilder.Apply` appends instead.
- A nil `raw_data_array` is modelled as the empty sequence, which gives the same result.
- Only `build_session` is modelled from runs_controller.rb. The other actions, the other controllers, the job, the helpers, the models and the database are not part of this model.
- EventNormalizer.NormalizeToolName: proved to return lower-case text, and canonical names are fixed points. It is not idempotent in general: "Command_Execution" gives "command_execution", which normalises to "bash".
- Timestamps are carried through unchanged, but no property constrains the clock.
