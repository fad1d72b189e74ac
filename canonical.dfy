/** The canonical event vocabulary both normalisers emit and the session
    reconstructor consumes, with the measures the invariants are stated in. */
module Canonical {
  import opened JsonValues

  /** Which vendor normaliser produced an event (`"source"`). */
  datatype Source = Claude | Codex

  function SourceName(src: Source): string {
    match src
    case Claude => "claude"
    case Codex => "codex"
  }

  /** One constructor per wire type tag; the fields are the type-specific
      keys of the emitted hash. `status` is optional because the
      reconstructor defaults a missing one to "completed". */
  datatype Body =
    | SessionStart(sessionId: Json, model: Json)
    | SessionEnd(status: Option<string>)
    | TurnStart(turnIndex: int, messageId: Json)
    | TurnEnd(turnIndex: int, status: Option<string>, stopReason: Json, usage: Json)
    | Message(turnIndex: int, text: string)
    | MessageDelta(turnIndex: int, text: string)
    | Thinking(turnIndex: int, text: string)
    | ThinkingDelta(turnIndex: int, text: string)
    | ToolStart(turnIndex: int, toolUseId: Json, tool: string, input: Json)
    | ToolDelta(turnIndex: int, toolUseId: Json, partialJson: string)
    | ToolEnd(turnIndex: int, toolUseId: Json, tool: string, input: Json)
    | Error(message: Json)

  /** The `"type"` tag each body is emitted under. */
  function TypeTag(b: Body): string {
    match b
    case SessionStart(_, _) => "session.start"
    case SessionEnd(_) => "session.end"
    case TurnStart(_, _) => "turn.start"
    case TurnEnd(_, _, _, _) => "turn.end"
    case Message(_, _) => "message"
    case MessageDelta(_, _) => "message.delta"
    case Thinking(_, _) => "thinking"
    case ThinkingDelta(_, _) => "thinking.delta"
    case ToolStart(_, _, _, _) => "tool.start"
    case ToolDelta(_, _, _) => "tool.delta"
    case ToolEnd(_, _, _, _) => "tool.end"
    case Error(_) => "error"
  }

  /** An emitted event: the common attributes and the typed body. */
  datatype Event = Event(source: Source, ts: string, body: Body)

  /** The collaborators the core calls but does not own: `JSON.parse`
      (`None` where it raises) and the wall clock, read once per emission
      (`clock(i)` is the timestamp of the i-th emitted event). */
  datatype Env = Env(parse: string -> Option<Json>, clock: nat -> string)

  function Bodies(es: seq<Event>): seq<Body> {
    seq(|es|, i requires 0 <= i < |es| => es[i].body)
  }

  /** The `turn_index` values of the `turn.start` events, in emission order. */
  function TurnStarts(es: seq<Event>): seq<int>
    decreases |es|
  {
    if es == [] then []
    else
      var e := es[|es| - 1];
      TurnStarts(es[..|es| - 1]) + (if e.body.TurnStart? then [e.body.turnIndex] else [])
  }

  function CountSessionStarts(es: seq<Event>): nat
    decreases |es|
  {
    if es == [] then 0
    else CountSessionStarts(es[..|es| - 1]) + (if es[|es| - 1].body.SessionStart? then 1 else 0)
  }

  function CountSessionEnds(es: seq<Event>): nat
    decreases |es|
  {
    if es == [] then 0
    else CountSessionEnds(es[..|es| - 1]) + (if es[|es| - 1].body.SessionEnd? then 1 else 0)
  }

  /** 0, 1, ..., n - 1. */
  function Range(n: nat): seq<int> {
    seq(n, i => i)
  }

  predicate AllFrom(es: seq<Event>, src: Source) {
    forall i :: 0 <= i < |es| ==> es[i].source == src
  }

  /** How each measure changes when one event is emitted. */
  lemma AppendOne(es: seq<Event>, e: Event)
    ensures TurnStarts(es + [e]) == TurnStarts(es) + (if e.body.TurnStart? then [e.body.turnIndex] else [])
    ensures CountSessionStarts(es + [e]) == CountSessionStarts(es) + (if e.body.SessionStart? then 1 else 0)
    ensures CountSessionEnds(es + [e]) == CountSessionEnds(es) + (if e.body.SessionEnd? then 1 else 0)
  {
    assert (es + [e])[..|es|] == es;
  }

  lemma RangeNext(n: nat)
    ensures Range(n + 1) == Range(n) + [n]
  {
    assert Range(n + 1)[..n] == Range(n);
  }
}
