/** What the Claude normaliser promises about the events it emits: the
    invariant holds along any run, streamed blocks are reassembled, and a
    complete assistant message becomes one well-formed turn. */
module ClaudeProperties {
  import opened JsonValues
  import opened Canonical
  import EventNormalizer
  import opened ClaudeSpec

  /** Splitting a run of raw events. */
  lemma {:induction false} ProcessAllAppend(env: Env, s: State, a: seq<Json>, b: seq<Json>)
    ensures ProcessAll(env, s, a + b) == ProcessAll(env, ProcessAll(env, s, a), b)
    decreases |b|
  {
    if b == [] {
      assert a + b == a;
    } else {
      assert (a + b)[..|a + b| - 1] == a + b[..|b| - 1];
      ProcessAllAppend(env, s, a, b[..|b| - 1]);
    }
  }

  /** The last raw event of a run is processed after the others. */
  lemma ProcessAllSnoc(env: Env, s: State, raws: seq<Json>, raw: Json)
    ensures ProcessAll(env, s, raws + [raw]) == Process(env, ProcessAll(env, s, raws), raw)
  {
    assert (raws + [raw])[..|raws|] == raws;
  }

  /** The invariant holds after any sequence of raw events. */
  lemma {:induction false} ProcessAllKeepsInv(env: Env, s: State, raws: seq<Json>)
    requires Inv(s)
    ensures Inv(ProcessAll(env, s, raws))
    decreases |raws|
  {
    if raws != [] {
      ProcessAllKeepsInv(env, s, raws[..|raws| - 1]);
      ProcessKeepsInv(env, ProcessAll(env, s, raws[..|raws| - 1]), raws[|raws| - 1]);
    }
  }

  lemma BodiesAppend(a: seq<Event>, b: seq<Event>)
    ensures Bodies(a + b) == Bodies(a) + Bodies(b)
  {
  }

  /** The bodies of an extended event list. */
  lemma BodiesExtend(a: seq<Event>, b: seq<Event>)
    requires a <= b
    ensures Bodies(b) == Bodies(a) + Bodies(b[|a|..])
  {
    assert b == a + b[|a|..];
    BodiesAppend(a, b[|a|..]);
  }

  /** The events a block of a complete assistant message contributes. */
  function BlockBodies(turn: int, block: Json): seq<Body> {
    var kind := Get(block, "type");
    if kind == JStr("text") then [Message(turn, Str(Get(block, "text")))]
    else if kind == JStr("thinking") then [Thinking(turn, Str(Get(block, "text")))]
    else if kind == JStr("tool_use") then
      var name := EventNormalizer.NormalizeToolName(Or(Get(block, "name"), JStr("unknown")));
      var id := Or(Get(block, "id"), JStr(""));
      var input := Or(Get(block, "input"), EmptyObj);
      [ToolStart(turn, id, name, input), ToolEnd(turn, id, name, input)]
    else []
  }

  /** The events of all the blocks, in order. */
  function AllBlockBodies(turn: int, blocks: seq<Json>): seq<Body>
    decreases |blocks|
  {
    if blocks == [] then []
    else AllBlockBodies(turn, blocks[..|blocks| - 1]) + BlockBodies(turn, blocks[|blocks| - 1])
  }

  /** One iteration of the block loop appends exactly the block's events. */
  lemma EmitBlockBodies(env: Env, s: State, block: Json)
    ensures var r := EmitBlock(env, s, block);
      && s.events <= r.events
      && Bodies(r.events[|s.events|..]) == BlockBodies(s.turnIndex, block)
      && r.turnIndex == s.turnIndex
      && r.sessionStarted == s.sessionStarted
  {
  }

  /** The block loop appends exactly the blocks' events and changes neither
      the turn nor the session flag. */
  lemma {:induction false} EmitBlocksBodies(env: Env, s: State, blocks: seq<Json>)
    ensures var r := EmitBlocks(env, s, blocks);
      && s.events <= r.events
      && Bodies(r.events) == Bodies(s.events) + AllBlockBodies(s.turnIndex, blocks)
      && r.turnIndex == s.turnIndex
      && r.sessionStarted == s.sessionStarted
    decreases |blocks|
  {
    if blocks != [] {
      var init := blocks[..|blocks| - 1];
      EmitBlocksBodies(env, s, init);
      var mid := EmitBlocks(env, s, init);
      EmitBlockBodies(env, mid, blocks[|blocks| - 1]);
      BodiesExtend(mid.events, EmitBlocks(env, s, blocks).events);
    }
  }

  predicate HasToolStart(bs: seq<Body>) {
    exists k :: 0 <= k < |bs| && bs[k].ToolStart?
  }

  lemma HasToolStartAppend(a: seq<Body>, b: seq<Body>)
    ensures HasToolStart(a + b) <==> HasToolStart(a) || HasToolStart(b)
  {
    if HasToolStart(a + b) {
      var k :| 0 <= k < |a + b| && (a + b)[k].ToolStart?;
      if k < |a| {
        assert a[k].ToolStart?;
      } else {
        assert b[k - |a|].ToolStart?;
      }
    }
    if HasToolStart(a) {
      var k :| 0 <= k < |a| && a[k].ToolStart?;
      assert (a + b)[k].ToolStart?;
    }
    if HasToolStart(b) {
      var k :| 0 <= k < |b| && b[k].ToolStart?;
      assert (a + b)[|a| + k].ToolStart?;
    }
  }

  lemma AnyToolUseLast(blocks: seq<Json>)
    requires blocks != []
    ensures AnyToolUse(blocks) <==>
      AnyToolUse(blocks[..|blocks| - 1]) || Get(blocks[|blocks| - 1], "type") == JStr("tool_use")
  {
    var init := blocks[..|blocks| - 1];
    if AnyToolUse(blocks) {
      var i :| 0 <= i < |blocks| && Get(blocks[i], "type") == JStr("tool_use");
      if i < |init| {
        assert Get(init[i], "type") == JStr("tool_use");
      }
    }
    if AnyToolUse(init) {
      var i :| 0 <= i < |init| && Get(init[i], "type") == JStr("tool_use");
      assert Get(blocks[i], "type") == JStr("tool_use");
    }
  }

  /** A block list yields a `tool.start` exactly when one of its blocks is
      a `tool_use` block. */
  lemma {:induction false} ToolStartIffToolUse(turn: int, blocks: seq<Json>)
    ensures HasToolStart(AllBlockBodies(turn, blocks)) <==> AnyToolUse(blocks)
    decreases |blocks|
  {
    if blocks != [] {
      var init := blocks[..|blocks| - 1];
      var last := blocks[|blocks| - 1];
      ToolStartIffToolUse(turn, init);
      AnyToolUseLast(blocks);
      HasToolStartAppend(AllBlockBodies(turn, init), BlockBodies(turn, last));
      assert HasToolStart(BlockBodies(turn, last)) <==> Get(last, "type") == JStr("tool_use") by {
        if Get(last, "type") == JStr("tool_use") {
          assert BlockBodies(turn, last)[0].ToolStart?;
        }
      }
    } else {
      assert !AnyToolUse(blocks);
    }
  }

  /** Every `tool.start` is immediately followed by the matching `tool.end`:
      same turn, id, tool name and input. */
  predicate Paired(bs: seq<Body>) {
    forall k :: 0 <= k < |bs| && bs[k].ToolStart? ==>
      k + 1 < |bs| && bs[k + 1] == ToolEnd(bs[k].turnIndex, bs[k].toolUseId, bs[k].tool, bs[k].input)
  }

  lemma PairedAppend(a: seq<Body>, b: seq<Body>)
    requires Paired(a) && Paired(b)
    ensures Paired(a + b)
  {
    forall k | 0 <= k < |a + b| && (a + b)[k].ToolStart?
      ensures k + 1 < |a + b| && (a + b)[k + 1] == ToolEnd((a + b)[k].turnIndex, (a + b)[k].toolUseId, (a + b)[k].tool, (a + b)[k].input)
    {
      if k < |a| {
        assert a[k].ToolStart?;
      } else {
        assert b[k - |a|].ToolStart?;
      }
    }
  }

  /** The tool calls of a complete assistant message come in start/end pairs. */
  lemma {:induction false} ToolStartsArePaired(turn: int, blocks: seq<Json>)
    ensures Paired(AllBlockBodies(turn, blocks))
    decreases |blocks|
  {
    if blocks != [] {
      ToolStartsArePaired(turn, blocks[..|blocks| - 1]);
      PairedAppend(AllBlockBodies(turn, blocks[..|blocks| - 1]), BlockBodies(turn, blocks[|blocks| - 1]));
    }
  }

  /** The `session.start` `ensure_session_started` contributes. */
  function SessionPrefix(s: State, raw: Json): seq<Body> {
    if s.sessionStarted then []
    else [SessionStart(Get(raw, "session_id"), Or(Get(raw, "model"), Get(Get(raw, "message"), "model")))]
  }

  lemma EnsureSessionStartedBodies(env: Env, s: State, raw: Json)
    ensures var r := EnsureSessionStarted(env, s, raw);
      && Bodies(r.events) == Bodies(s.events) + SessionPrefix(s, raw)
      && r.turnIndex == s.turnIndex && r.sessionStarted
  {
    if !s.sessionStarted {
      var r := EnsureSessionStarted(env, s, raw);
      BodiesAppend(s.events, [r.events[|s.events|]]);
      assert r.events == s.events + [r.events[|s.events|]];
    }
  }

  /** A complete assistant message is one turn: a `session.start` first if
      none was emitted yet, then a `turn.start` with the next index, the
      blocks' events, and a completed `turn.end`. */
  lemma AssistantTurnShape(env: Env, s: State, raw: Json)
    ensures var r := HandleAssistant(env, s, raw);
      var msg := Or(Get(raw, "message"), EmptyObj);
      var blocks := Items(Or(Get(msg, "content"), JArr([])));
      var turn := s.turnIndex + 1;
      && r.turnIndex == turn
      && r.sessionStarted
      && Bodies(r.events) == Bodies(s.events) + SessionPrefix(s, raw) + [TurnStart(turn, Get(msg, "id"))]
           + AllBlockBodies(turn, blocks)
           + [TurnEnd(turn, Some("completed"), AssistantStopReason(blocks), Get(msg, "usage"))]
  {
    var msg := Or(Get(raw, "message"), EmptyObj);
    var s3 := OpenAssistantTurn(env, EnsureSessionStarted(env, s, raw), msg);
    AssistantTurnOpened(env, s, raw);
    var blocks := Items(Or(Get(msg, "content"), JArr([])));
    EmitBlocksBodies(env, s3, blocks);
    var s4 := EmitBlocks(env, s3, blocks);
    EmitBodies(env, s4, TurnEnd(s4.turnIndex, Some("completed"), AssistantStopReason(blocks), Get(msg, "usage")));
  }

  /** The session start if needed and the turn start. */
  lemma AssistantTurnOpened(env: Env, s: State, raw: Json)
    ensures var msg := Or(Get(raw, "message"), EmptyObj);
      var r := OpenAssistantTurn(env, EnsureSessionStarted(env, s, raw), msg);
      && r.turnIndex == s.turnIndex + 1
      && r.sessionStarted
      && Bodies(r.events) == Bodies(s.events) + SessionPrefix(s, raw) + [TurnStart(s.turnIndex + 1, Get(msg, "id"))]
  {
    var s1 := EnsureSessionStarted(env, s, raw);
    EnsureSessionStartedBodies(env, s, raw);
    var msg := Or(Get(raw, "message"), EmptyObj);
    EmitBodies(env, s1.(model := Or(s1.model, Get(msg, "model")), turnIndex := s1.turnIndex + 1),
               TurnStart(s1.turnIndex + 1, Get(msg, "id")));
  }

  /** `emit` appends its body and touches nothing else. */
  lemma EmitBodies(env: Env, s: State, b: Body)
    ensures var r := Emit(env, s, b);
      Bodies(r.events) == Bodies(s.events) + [b] && r == s.(events := r.events)
  {
    BodiesAppend(s.events, [Event(Claude, env.clock(|s.events|), b)]);
  }

  /** The turn's stop reason is "tool_use" exactly when the turn emitted a
      `tool.start`, and "end_turn" otherwise; its tool calls are paired. */
  lemma AssistantStopReasonIffTool(turn: int, blocks: seq<Json>)
    ensures AssistantStopReason(blocks) == JStr("tool_use") <==> HasToolStart(AllBlockBodies(turn, blocks))
    ensures AssistantStopReason(blocks) == JStr("end_turn") <==> !HasToolStart(AllBlockBodies(turn, blocks))
    ensures Paired(AllBlockBodies(turn, blocks))
  {
    ToolStartIffToolUse(turn, blocks);
    ToolStartsArePaired(turn, blocks);
  }

  // Raw streaming events for one content block.

  /** The two kinds of prose block, which share one handler path: the
      visible reply ("text") and extended thinking ("thinking"). */
  datatype Prose = Reply | Reasoning

  /** The block's `content_block.type`. */
  function BlockKind(p: Prose): string {
    match p
    case Reply => "text"
    case Reasoning => "thinking"
  }

  /** The `type` of the block's deltas. */
  function DeltaKind(p: Prose): string {
    match p
    case Reply => "text_delta"
    case Reasoning => "thinking_delta"
  }

  /** The key a delta's piece is read from. */
  function DeltaKey(p: Prose): string {
    match p
    case Reply => "text"
    case Reasoning => "thinking"
  }

  /** The event one delta emits. */
  function DeltaBody(p: Prose, turn: int, piece: string): Body {
    match p
    case Reply => MessageDelta(turn, piece)
    case Reasoning => ThinkingDelta(turn, piece)
  }

  /** The event the block's stop emits. */
  function FinalBody(p: Prose, turn: int, text: string): Body {
    match p
    case Reply => Message(turn, text)
    case Reasoning => Thinking(turn, text)
  }

  function BlockStartRaw(idx: int, kind: string): Json {
    JObj(map["type" := JStr("content_block_start"), "index" := JNum(idx),
             "content_block" := JObj(map["type" := JStr(kind)])])
  }

  function ToolBlockStartRaw(idx: int, id: string, name: string): Json {
    JObj(map["type" := JStr("content_block_start"), "index" := JNum(idx),
             "content_block" := JObj(map["type" := JStr("tool_use"), "id" := JStr(id), "name" := JStr(name)])])
  }

  function ProseDeltaRaw(idx: int, p: Prose, piece: string): Json {
    JObj(map["type" := JStr("content_block_delta"), "index" := JNum(idx),
             "delta" := JObj(map["type" := JStr(DeltaKind(p)), DeltaKey(p) := JStr(piece)])])
  }

  function JsonDeltaRaw(idx: int, piece: string): Json {
    JObj(map["type" := JStr("content_block_delta"), "index" := JNum(idx),
             "delta" := JObj(map["type" := JStr("input_json_delta"), "partial_json" := JStr(piece)])])
  }

  function BlockStopRaw(idx: int): Json {
    JObj(map["type" := JStr("content_block_stop"), "index" := JNum(idx)])
  }

  /** One prose delta event per piece. */
  function ProseDeltas(idx: int, p: Prose, pieces: seq<string>): seq<Json>
    decreases |pieces|
  {
    if pieces == [] then [] else ProseDeltas(idx, p, pieces[..|pieces| - 1]) + [ProseDeltaRaw(idx, p, pieces[|pieces| - 1])]
  }

  /** One `input_json_delta` event per piece. */
  function JsonDeltas(idx: int, pieces: seq<string>): seq<Json>
    decreases |pieces|
  {
    if pieces == [] then [] else JsonDeltas(idx, pieces[..|pieces| - 1]) + [JsonDeltaRaw(idx, pieces[|pieces| - 1])]
  }

  /** The delta bodies of the pieces. */
  function DeltaBodies(turn: int, p: Prose, pieces: seq<string>): seq<Body>
    decreases |pieces|
  {
    if pieces == [] then [] else DeltaBodies(turn, p, pieces[..|pieces| - 1]) + [DeltaBody(p, turn, pieces[|pieces| - 1])]
  }

  /** The k-th delta body carries the k-th piece. */
  lemma {:induction false} DeltaBodiesAt(turn: int, p: Prose, pieces: seq<string>)
    ensures |DeltaBodies(turn, p, pieces)| == |pieces|
    ensures forall k :: 0 <= k < |pieces| ==> DeltaBodies(turn, p, pieces)[k] == DeltaBody(p, turn, pieces[k])
    decreases |pieces|
  {
    if pieces != [] {
      DeltaBodiesAt(turn, p, pieces[..|pieces| - 1]);
    }
  }

  /** The `tool.delta` bodies of the pieces. */
  function ToolDeltas(turn: int, id: Json, pieces: seq<string>): seq<Body>
    decreases |pieces|
  {
    if pieces == [] then [] else ToolDeltas(turn, id, pieces[..|pieces| - 1]) + [ToolDelta(turn, id, pieces[|pieces| - 1])]
  }

  lemma ProseDeltaStep(env: Env, s: State, idx: int, p: Prose, piece: string)
    requires JNum(idx) in s.blocks
    ensures var b := s.blocks[JNum(idx)];
      Process(env, s, ProseDeltaRaw(idx, p, piece))
        == Emit(env, s.(blocks := s.blocks[JNum(idx) := b.(text := b.text + piece)]), DeltaBody(p, s.turnIndex, piece))
  {
    var raw := ProseDeltaRaw(idx, p, piece);
    assert Get(raw, "type") == JStr("content_block_delta");
    assert Get(raw, "index") == JNum(idx);
    var delta := Get(raw, "delta");
    match p
    case Reply =>
      assert Get(delta, "type") == JStr("text_delta");
      assert Get(delta, "text") == JStr(piece);
    case Reasoning =>
      assert Get(delta, "type") == JStr("thinking_delta");
      assert Get(delta, "thinking") == JStr(piece);
  }

  lemma JsonDeltaStep(env: Env, s: State, idx: int, piece: string)
    requires JNum(idx) in s.blocks
    ensures var b := s.blocks[JNum(idx)];
      Process(env, s, JsonDeltaRaw(idx, piece))
        == Emit(env, s.(blocks := s.blocks[JNum(idx) := b.(inputJson := b.inputJson + piece)]), ToolDelta(s.turnIndex, b.toolUseId, piece))
  {
    var raw := JsonDeltaRaw(idx, piece);
    assert Get(raw, "type") == JStr("content_block_delta");
    assert Get(raw, "index") == JNum(idx);
    assert Get(Get(raw, "delta"), "type") == JStr("input_json_delta");
  }

  /** Prose deltas for an open block each emit their piece (as
      `message.delta` or `thinking.delta`) and append it to the block's
      text. */
  lemma {:induction false} ProseDeltasAccumulate(env: Env, s: State, idx: int, p: Prose, pieces: seq<string>)
    requires JNum(idx) in s.blocks
    ensures var r := ProcessAll(env, s, ProseDeltas(idx, p, pieces));
      var b := s.blocks[JNum(idx)];
      && r.turnIndex == s.turnIndex
      && r.blocks == s.blocks[JNum(idx) := b.(text := b.text + Concat(pieces))]
      && Bodies(r.events) == Bodies(s.events) + DeltaBodies(s.turnIndex, p, pieces)
    decreases |pieces|
  {
    var b := s.blocks[JNum(idx)];
    if pieces == [] {
      assert b.text + Concat(pieces) == b.text;
      assert b.(text := b.text) == b;
    } else {
      ProseDeltasAccumulate(env, s, idx, p, pieces[..|pieces| - 1]);
      ProseDeltasNext(env, s, idx, p, pieces);
    }
  }

  lemma ProseDeltasNext(env: Env, s: State, idx: int, p: Prose, pieces: seq<string>)
    requires JNum(idx) in s.blocks && pieces != []
    requires var b := s.blocks[JNum(idx)];
      var init := pieces[..|pieces| - 1];
      var mid := ProcessAll(env, s, ProseDeltas(idx, p, init));
      && mid.turnIndex == s.turnIndex
      && mid.blocks == s.blocks[JNum(idx) := b.(text := b.text + Concat(init))]
      && Bodies(mid.events) == Bodies(s.events) + DeltaBodies(s.turnIndex, p, init)
    ensures var r := ProcessAll(env, s, ProseDeltas(idx, p, pieces));
      var b := s.blocks[JNum(idx)];
      && r.turnIndex == s.turnIndex
      && r.blocks == s.blocks[JNum(idx) := b.(text := b.text + Concat(pieces))]
      && Bodies(r.events) == Bodies(s.events) + DeltaBodies(s.turnIndex, p, pieces)
  {
    var mid := ProcessAll(env, s, ProseDeltas(idx, p, pieces[..|pieces| - 1]));
    ProcessAllSnoc(env, s, ProseDeltas(idx, p, pieces[..|pieces| - 1]), ProseDeltaRaw(idx, p, pieces[|pieces| - 1]));
    ProseDeltaStep(env, mid, idx, p, pieces[|pieces| - 1]);
    ProseDeltaExtends(env, s, mid, idx, p, pieces);
  }

  lemma ProseDeltaExtends(env: Env, s: State, mid: State, idx: int, p: Prose, pieces: seq<string>)
    requires JNum(idx) in s.blocks && pieces != []
    requires var b := s.blocks[JNum(idx)];
      var init := pieces[..|pieces| - 1];
      && mid.turnIndex == s.turnIndex
      && mid.blocks == s.blocks[JNum(idx) := b.(text := b.text + Concat(init))]
      && Bodies(mid.events) == Bodies(s.events) + DeltaBodies(s.turnIndex, p, init)
    ensures var piece := pieces[|pieces| - 1];
      var mb := mid.blocks[JNum(idx)];
      var r := Emit(env, mid.(blocks := mid.blocks[JNum(idx) := mb.(text := mb.text + piece)]), DeltaBody(p, mid.turnIndex, piece));
      var b := s.blocks[JNum(idx)];
      && r.turnIndex == s.turnIndex
      && r.blocks == s.blocks[JNum(idx) := b.(text := b.text + Concat(pieces))]
      && Bodies(r.events) == Bodies(s.events) + DeltaBodies(s.turnIndex, p, pieces)
  {
    var init := pieces[..|pieces| - 1];
    var piece := pieces[|pieces| - 1];
    var b := s.blocks[JNum(idx)];
    assert b.text + Concat(init) + piece == b.text + Concat(pieces);
    var e := Event(Claude, env.clock(|mid.events|), DeltaBody(p, s.turnIndex, piece));
    BodiesAppend(mid.events, [e]);
  }

  /** Input deltas for an open block each emit a `tool.delta` carrying the
      block's tool id and append the piece to the block's partial input. */
  lemma {:induction false} JsonDeltasAccumulate(env: Env, s: State, idx: int, pieces: seq<string>)
    requires JNum(idx) in s.blocks
    ensures var r := ProcessAll(env, s, JsonDeltas(idx, pieces));
      var b := s.blocks[JNum(idx)];
      && r.turnIndex == s.turnIndex
      && r.blocks == s.blocks[JNum(idx) := b.(inputJson := b.inputJson + Concat(pieces))]
      && Bodies(r.events) == Bodies(s.events) + ToolDeltas(s.turnIndex, b.toolUseId, pieces)
    decreases |pieces|
  {
    var b := s.blocks[JNum(idx)];
    if pieces == [] {
      assert b.inputJson + Concat(pieces) == b.inputJson;
      assert b.(inputJson := b.inputJson) == b;
    } else {
      var init := pieces[..|pieces| - 1];
      var piece := pieces[|pieces| - 1];
      JsonDeltasAccumulate(env, s, idx, init);
      JsonDeltasNext(env, s, idx, pieces);
    }
  }

  lemma JsonDeltasNext(env: Env, s: State, idx: int, pieces: seq<string>)
    requires JNum(idx) in s.blocks && pieces != []
    requires var b := s.blocks[JNum(idx)];
      var init := pieces[..|pieces| - 1];
      var mid := ProcessAll(env, s, JsonDeltas(idx, init));
      && mid.turnIndex == s.turnIndex
      && mid.blocks == s.blocks[JNum(idx) := b.(inputJson := b.inputJson + Concat(init))]
      && Bodies(mid.events) == Bodies(s.events) + ToolDeltas(s.turnIndex, b.toolUseId, init)
    ensures var r := ProcessAll(env, s, JsonDeltas(idx, pieces));
      var b := s.blocks[JNum(idx)];
      && r.turnIndex == s.turnIndex
      && r.blocks == s.blocks[JNum(idx) := b.(inputJson := b.inputJson + Concat(pieces))]
      && Bodies(r.events) == Bodies(s.events) + ToolDeltas(s.turnIndex, b.toolUseId, pieces)
  {
    var mid := ProcessAll(env, s, JsonDeltas(idx, pieces[..|pieces| - 1]));
    ProcessAllSnoc(env, s, JsonDeltas(idx, pieces[..|pieces| - 1]), JsonDeltaRaw(idx, pieces[|pieces| - 1]));
    JsonDeltaStep(env, mid, idx, pieces[|pieces| - 1]);
    JsonDeltaExtends(env, s, mid, idx, pieces);
  }

  lemma JsonDeltaExtends(env: Env, s: State, mid: State, idx: int, pieces: seq<string>)
    requires JNum(idx) in s.blocks && pieces != []
    requires var b := s.blocks[JNum(idx)];
      var init := pieces[..|pieces| - 1];
      && mid.turnIndex == s.turnIndex
      && mid.blocks == s.blocks[JNum(idx) := b.(inputJson := b.inputJson + Concat(init))]
      && Bodies(mid.events) == Bodies(s.events) + ToolDeltas(s.turnIndex, b.toolUseId, init)
    ensures var piece := pieces[|pieces| - 1];
      var mb := mid.blocks[JNum(idx)];
      var r := Emit(env, mid.(blocks := mid.blocks[JNum(idx) := mb.(inputJson := mb.inputJson + piece)]),
                    ToolDelta(mid.turnIndex, mb.toolUseId, piece));
      var b := s.blocks[JNum(idx)];
      && r.turnIndex == s.turnIndex
      && r.blocks == s.blocks[JNum(idx) := b.(inputJson := b.inputJson + Concat(pieces))]
      && Bodies(r.events) == Bodies(s.events) + ToolDeltas(s.turnIndex, b.toolUseId, pieces)
  {
    var init := pieces[..|pieces| - 1];
    var piece := pieces[|pieces| - 1];
    var b := s.blocks[JNum(idx)];
    assert b.inputJson + Concat(init) + piece == b.inputJson + Concat(pieces);
    var e := Event(Claude, env.clock(|mid.events|), ToolDelta(s.turnIndex, b.toolUseId, piece));
    BodiesAppend(mid.events, [e]);
  }

  lemma ProcessOne(env: Env, s: State, raw: Json)
    ensures ProcessAll(env, s, [raw]) == Process(env, s, raw)
  {
    assert [raw][..0] == [];
  }

  lemma ProseStartStep(env: Env, s: State, idx: int, p: Prose)
    ensures Process(env, s, BlockStartRaw(idx, BlockKind(p)))
      == s.(blocks := s.blocks[JNum(idx) := Block(JStr(BlockKind(p)), "", "", JNull, JNull)])
  {
    var raw := BlockStartRaw(idx, BlockKind(p));
    assert Get(raw, "type") == JStr("content_block_start");
    assert Get(raw, "index") == JNum(idx);
    assert Get(Get(raw, "content_block"), "type") == JStr(BlockKind(p));
    assert BlockKind(p) != "tool_use";
  }

  lemma ToolStartStep(env: Env, s: State, idx: int, id: string, name: string)
    ensures Process(env, s, ToolBlockStartRaw(idx, id, name))
      == Emit(env, s, ToolStart(s.turnIndex, JStr(id), EventNormalizer.NormalizeToolName(JStr(name)), EmptyObj))
           .(blocks := s.blocks[JNum(idx) := Block(JStr("tool_use"), "", "", JStr(id), JStr(name))])
  {
    var raw := ToolBlockStartRaw(idx, id, name);
    assert Get(raw, "type") == JStr("content_block_start");
    assert Get(raw, "index") == JNum(idx);
    var cb := Get(raw, "content_block");
    assert Get(cb, "type") == JStr("tool_use");
    assert Get(cb, "id") == JStr(id);
    assert Get(cb, "name") == JStr(name);
  }

  /** The stop of an open block that emits: the block is closed and its
      event is emitted. */
  lemma StopStep(env: Env, s: State, idx: int)
    requires JNum(idx) in s.blocks
    requires s.blocks[JNum(idx)].kind in {JStr("text"), JStr("thinking"), JStr("tool_use")}
    ensures var b := s.blocks[JNum(idx)];
      var body := if b.kind == JStr("text") then Message(s.turnIndex, b.text)
                  else if b.kind == JStr("thinking") then Thinking(s.turnIndex, b.text)
                  else ToolEnd(s.turnIndex, b.toolUseId, EventNormalizer.NormalizeToolName(b.tool), ParsedInput(env, b.inputJson));
      Process(env, s, BlockStopRaw(idx)) == Emit(env, s.(blocks := s.blocks - {JNum(idx)}), body)
  {
    assert Get(BlockStopRaw(idx), "type") == JStr("content_block_stop");
    assert Get(BlockStopRaw(idx), "index") == JNum(idx);
  }

  /** A prose block's start and deltas: nothing but the deltas is emitted
      and the block holds the pieces joined. */
  lemma ProseBlockFilled(env: Env, s: State, idx: int, p: Prose, pieces: seq<string>)
    ensures var r := ProcessAll(env, s, [BlockStartRaw(idx, BlockKind(p))] + ProseDeltas(idx, p, pieces));
      && r.turnIndex == s.turnIndex
      && JNum(idx) in r.blocks && r.blocks[JNum(idx)] == Block(JStr(BlockKind(p)), Concat(pieces), "", JNull, JNull)
      && Bodies(r.events) == Bodies(s.events) + DeltaBodies(s.turnIndex, p, pieces)
  {
    var start := BlockStartRaw(idx, BlockKind(p));
    ProcessOne(env, s, start);
    ProseStartStep(env, s, idx, p);
    var s1 := Process(env, s, start);
    ProcessAllAppend(env, s, [start], ProseDeltas(idx, p, pieces));
    ProseDeltasAccumulate(env, s1, idx, p, pieces);
    assert "" + Concat(pieces) == Concat(pieces);
  }

  /** A streamed prose block: its start emits nothing, each delta emits its
      piece, and its stop emits one `message` (or `thinking`) holding all
      the pieces joined in order, and closes the block. */
  lemma StreamedProseBlock(env: Env, s: State, idx: int, p: Prose, pieces: seq<string>)
    ensures var r := ProcessAll(env, s, [BlockStartRaw(idx, BlockKind(p))] + ProseDeltas(idx, p, pieces) + [BlockStopRaw(idx)]);
      && JNum(idx) !in r.blocks
      && Bodies(r.events) == Bodies(s.events)
           + DeltaBodies(s.turnIndex, p, pieces)
           + [FinalBody(p, s.turnIndex, Concat(pieces))]
  {
    var filled := [BlockStartRaw(idx, BlockKind(p))] + ProseDeltas(idx, p, pieces);
    ProseBlockFilled(env, s, idx, p, pieces);
    var s2 := ProcessAll(env, s, filled);
    ProcessAllAppend(env, s, filled, [BlockStopRaw(idx)]);
    ProcessOne(env, s2, BlockStopRaw(idx));
    StopStep(env, s2, idx);
    EmitBodies(env, s2.(blocks := s2.blocks - {JNum(idx)}), FinalBody(p, s.turnIndex, Concat(pieces)));
  }

  /** A streamed text block: one `message.delta` per piece, carrying that
      piece, then one `message` with the pieces joined. */
  lemma StreamedTextBlock(env: Env, s: State, idx: int, pieces: seq<string>)
    ensures var r := ProcessAll(env, s, [BlockStartRaw(idx, "text")] + ProseDeltas(idx, Reply, pieces) + [BlockStopRaw(idx)]);
      var deltas := DeltaBodies(s.turnIndex, Reply, pieces);
      && JNum(idx) !in r.blocks
      && Bodies(r.events) == Bodies(s.events) + deltas + [Message(s.turnIndex, Concat(pieces))]
      && |deltas| == |pieces|
      && forall k :: 0 <= k < |pieces| ==> deltas[k] == MessageDelta(s.turnIndex, pieces[k])
  {
    StreamedProseBlock(env, s, idx, Reply, pieces);
    DeltaBodiesAt(s.turnIndex, Reply, pieces);
  }

  /** A streamed thinking block: one `thinking.delta` per piece, carrying
      that piece, then one `thinking` with the pieces joined. */
  lemma StreamedThinkingBlock(env: Env, s: State, idx: int, pieces: seq<string>)
    ensures var r := ProcessAll(env, s, [BlockStartRaw(idx, "thinking")] + ProseDeltas(idx, Reasoning, pieces) + [BlockStopRaw(idx)]);
      var deltas := DeltaBodies(s.turnIndex, Reasoning, pieces);
      && JNum(idx) !in r.blocks
      && Bodies(r.events) == Bodies(s.events) + deltas + [Thinking(s.turnIndex, Concat(pieces))]
      && |deltas| == |pieces|
      && forall k :: 0 <= k < |pieces| ==> deltas[k] == ThinkingDelta(s.turnIndex, pieces[k])
  {
    StreamedProseBlock(env, s, idx, Reasoning, pieces);
    DeltaBodiesAt(s.turnIndex, Reasoning, pieces);
  }

  /** A tool block's start and input deltas: `tool.start` then the deltas,
      and the block holds the pieces joined. */
  lemma ToolBlockFilled(env: Env, s: State, idx: int, id: string, name: string, pieces: seq<string>)
    ensures var r := ProcessAll(env, s, [ToolBlockStartRaw(idx, id, name)] + JsonDeltas(idx, pieces));
      && r.turnIndex == s.turnIndex
      && JNum(idx) in r.blocks
      && r.blocks[JNum(idx)] == Block(JStr("tool_use"), "", Concat(pieces), JStr(id), JStr(name))
      && Bodies(r.events) == Bodies(s.events)
           + [ToolStart(s.turnIndex, JStr(id), EventNormalizer.NormalizeToolName(JStr(name)), EmptyObj)]
           + ToolDeltas(s.turnIndex, JStr(id), pieces)
  {
    var start := ToolBlockStartRaw(idx, id, name);
    var tool := EventNormalizer.NormalizeToolName(JStr(name));
    ProcessOne(env, s, start);
    ToolStartStep(env, s, idx, id, name);
    EmitBodies(env, s, ToolStart(s.turnIndex, JStr(id), tool, EmptyObj));
    var s1 := Process(env, s, start);
    ProcessAllAppend(env, s, [start], JsonDeltas(idx, pieces));
    JsonDeltasAccumulate(env, s1, idx, pieces);
    assert "" + Concat(pieces) == Concat(pieces);
  }

  /** A streamed tool call: `tool.start` with the normalised name and an
      empty input, one `tool.delta` per piece, then `tool.end` with the same
      id and name and the joined pieces parsed (`{}` when they do not parse). */
  lemma StreamedToolCall(env: Env, s: State, idx: int, id: string, name: string, pieces: seq<string>)
    ensures var r := ProcessAll(env, s, [ToolBlockStartRaw(idx, id, name)] + JsonDeltas(idx, pieces) + [BlockStopRaw(idx)]);
      var tool := EventNormalizer.NormalizeToolName(JStr(name));
      && JNum(idx) !in r.blocks
      && Bodies(r.events) == Bodies(s.events)
           + [ToolStart(s.turnIndex, JStr(id), tool, EmptyObj)]
           + ToolDeltas(s.turnIndex, JStr(id), pieces)
           + [ToolEnd(s.turnIndex, JStr(id), tool, ParsedInput(env, Concat(pieces)))]
  {
    var filled := [ToolBlockStartRaw(idx, id, name)] + JsonDeltas(idx, pieces);
    var tool := EventNormalizer.NormalizeToolName(JStr(name));
    ToolBlockFilled(env, s, idx, id, name, pieces);
    var s2 := ProcessAll(env, s, filled);
    ProcessAllAppend(env, s, filled, [BlockStopRaw(idx)]);
    ProcessOne(env, s2, BlockStopRaw(idx));
    StopStep(env, s2, idx);
    EmitBodies(env, s2.(blocks := s2.blocks - {JNum(idx)}), ToolEnd(s.turnIndex, JStr(id), tool, ParsedInput(env, Concat(pieces))));
  }

  /** `content_block_stop` always closes the block, and emits one event
      exactly when the block was open and of a kind that produces one. */
  lemma BlockStopCharacterised(env: Env, s: State, raw: Json)
    ensures var r := HandleContentBlockStop(env, s, raw);
      var idx := Get(raw, "index");
      && r.blocks == s.blocks - {idx}
      && r.turnIndex == s.turnIndex
      && s.events <= r.events
      && (|r.events| == |s.events| + 1 <==>
            idx in s.blocks && s.blocks[idx].kind in {JStr("text"), JStr("thinking"), JStr("tool_use")})
      && (|r.events| == |s.events| <==>
            !(idx in s.blocks && s.blocks[idx].kind in {JStr("text"), JStr("thinking"), JStr("tool_use")}))
  {
    var idx := Get(raw, "index");
    if idx !in s.blocks {
      assert s.blocks - {idx} == s.blocks;
    }
  }

  /** `message_start` opens the next turn: the open blocks and the stop
      reason and usage of the previous message are cleared, a
      `session.start` is emitted only if none was, and the last event is the
      turn start. */
  lemma MessageStartOpensTurn(env: Env, s: State, raw: Json)
    requires Inv(s)
    ensures var r := HandleMessageStart(env, s, raw);
      && r.turnIndex == s.turnIndex + 1
      && r.blocks == map[] && r.stopReason == JNull && r.usage == JNull
      && r.sessionStarted
      && |r.events| == |s.events| + (if s.sessionStarted then 1 else 2)
      && r.events[|r.events| - 1].body == TurnStart(r.turnIndex, Get(Or(Get(raw, "message"), EmptyObj), "id"))
      && CountSessionStarts(r.events) == 1
  {
    HandleMessageStartKeepsInv(env, s, raw);
  }

  /** A second `system/init` is ignored once the session has started. */
  lemma SystemInitOnlyOnce(env: Env, s: State, raw: Json)
    requires Inv(s)
    ensures var r := HandleSystem(env, s, raw);
      && r.sessionStarted == (s.sessionStarted || Get(raw, "subtype") == JStr("init"))
      && (s.sessionStarted ==> r == s)
      && CountSessionStarts(r.events) == (if r.sessionStarted then 1 else 0)
  {
    if !s.sessionStarted && Get(raw, "subtype") == JStr("init") {
      var s1 := s.(sessionStarted := true, sessionId := Get(raw, "session_id"), model := Get(raw, "model"));
      EmitSessionStartKeepsInv(env, s1, s1.sessionId, s1.model);
    }
  }

  /** Once a block is stopped, a later delta or stop at its index is
      ignored. */
  lemma StoppedBlockIsSilent(env: Env, s: State, stop: Json, later: Json)
    requires Get(later, "index") == Get(stop, "index")
    requires Get(later, "type") in {JStr("content_block_delta"), JStr("content_block_stop")}
    ensures var r := HandleContentBlockStop(env, s, stop);
      Process(env, r, later) == r
  {
    var r := HandleContentBlockStop(env, s, stop);
    assert Get(stop, "index") !in r.blocks;
    assert r.blocks - {Get(later, "index")} == r.blocks;
  }
}
