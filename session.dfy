/** `RunsController#build_session`: the fold of a canonical event list into
    a session of turns and tool calls, followed by the pass that marks
    whatever is still running as interrupted. */
module SessionBuilder {
  import opened JsonValues
  import opened Canonical

  datatype ToolCall = ToolCall(
    toolUseId: Json,
    tool: string,
    input: Json,
    status: string,
    startedAt: string,
    endedAt: Option<string>)

  datatype ErrorEntry = ErrorEntry(message: Json, ts: string)

  datatype Turn = Turn(
    turnIndex: int,
    messageId: Json,
    status: string,
    thinkingText: string,
    messageText: string,
    tools: seq<ToolCall>,
    stopReason: Json,
    usage: Json,
    errors: seq<ErrorEntry>,
    startedAt: string,
    endedAt: Option<string>)

  datatype Session = Session(
    source: Option<string>,
    sessionId: Json,
    model: Json,
    status: string,
    turns: seq<Turn>,
    errors: seq<ErrorEntry>,
    startedAt: Option<string>,
    endedAt: Option<string>)

  /** The session hash before the first event. */
  function Initial(): Session {
    Session(None, JNull, JNull, "running", [], [], None, None)
  }

  /** The turn a `turn.start` appends. */
  function NewTurn(turnIndex: int, messageId: Json, ts: string): Turn {
    Turn(turnIndex, messageId, "running", "", "", [], JNull, JNull, [], ts, None)
  }

  /** Ruby's `array[i]` on an array of length n: the position it reads, a
      negative index counting from the end, or none when out of range. */
  function Slot(n: nat, i: int): (r: Option<nat>)
    ensures r.Some? ==> r.value < n
    ensures r.Some? <==> -(n as int) <= i < n
    ensures 0 <= i < n ==> r == Some(i as nat)
  {
    if 0 <= i < n then Some(i as nat)
    else if -(n as int) <= i < 0 then Some((n + i) as nat)
    else None
  }

  /** `tools.find { |t| t[:tool_use_id] == id }`: the position of the first
      tool with that id. */
  function FindTool(tools: seq<ToolCall>, id: Json): (r: Option<nat>)
    ensures r.Some? ==>
      r.value < |tools| && tools[r.value].toolUseId == id && forall j :: 0 <= j < r.value ==> tools[j].toolUseId != id
    ensures r.None? <==> forall j :: 0 <= j < |tools| ==> tools[j].toolUseId != id
    decreases |tools|
  {
    if tools == [] then None
    else if tools[0].toolUseId == id then Some(0)
    else
      match FindTool(tools[1..], id)
      case None => None
      case Some(k) => Some(k + 1)
  }

  /** The effect of one event on the session (the body of `events.each`). */
  function Apply(s: Session, e: Event): Session {
    match e.body
    case SessionStart(sid, model) =>
      s.(source := Some(SourceName(e.source)), sessionId := sid, model := model, startedAt := Some(e.ts))
    case TurnStart(ti, mid) =>
      s.(turns := s.turns + [NewTurn(ti, mid, e.ts)])
    case MessageDelta(ti, text) =>
      (match Slot(|s.turns|, ti)
       case None => s
       case Some(k) => s.(turns := s.turns[k := s.turns[k].(messageText := s.turns[k].messageText + text)]))
    case Message(ti, text) =>
      (match Slot(|s.turns|, ti)
       case None => s
       case Some(k) => s.(turns := s.turns[k := s.turns[k].(messageText := text)]))
    case ThinkingDelta(ti, text) =>
      (match Slot(|s.turns|, ti)
       case None => s
       case Some(k) => s.(turns := s.turns[k := s.turns[k].(thinkingText := s.turns[k].thinkingText + text)]))
    case Thinking(ti, text) =>
      (match Slot(|s.turns|, ti)
       case None => s
       case Some(k) => s.(turns := s.turns[k := s.turns[k].(thinkingText := text)]))
    case ToolStart(ti, id, tool, input) =>
      (match Slot(|s.turns|, ti)
       case None => s
       case Some(k) =>
         var call := ToolCall(id, tool, input, "running", e.ts, None);
         s.(turns := s.turns[k := s.turns[k].(tools := s.turns[k].tools + [call])]))
    case ToolEnd(ti, id, _, input) =>
      (match Slot(|s.turns|, ti)
       case None => s
       case Some(k) =>
         var tools := s.turns[k].tools;
         match FindTool(tools, id)
         case None => s
         case Some(m) =>
           var done := tools[m].(input := input, status := "completed", endedAt := Some(e.ts));
           s.(turns := s.turns[k := s.turns[k].(tools := tools[m := done])]))
    case TurnEnd(ti, status, stopReason, usage) =>
      (match Slot(|s.turns|, ti)
       case None => s
       case Some(k) =>
         var t := s.turns[k];
         s.(turns := s.turns[k := t.(status := status.GetOr("completed"), stopReason := stopReason, usage := usage,
                                     endedAt := Some(e.ts))]))
    case Error(message) =>
      var entry := ErrorEntry(message, e.ts);
      if |s.turns| > 0 && s.turns[|s.turns| - 1].status == "running" then
        var k := |s.turns| - 1;
        s.(turns := s.turns[k := s.turns[k].(errors := s.turns[k].errors + [entry])])
      else
        s.(errors := s.errors + [entry])
    case SessionEnd(status) =>
      s.(status := status.GetOr("completed"), endedAt := Some(e.ts))
    case ToolDelta(_, _, _) => s
  }

  /** The session after the events, in order. */
  function Fold(events: seq<Event>): Session
    decreases |events|
  {
    if events == [] then Initial() else Apply(Fold(events[..|events| - 1]), events[|events| - 1])
  }

  function InterruptTurn(t: Turn): Turn {
    if t.status == "running" then t.(status := "interrupted") else t
  }

  /** The interruption pass. */
  function Finalize(s: Session): Session {
    s.(turns := seq(|s.turns|, i requires 0 <= i < |s.turns| => InterruptTurn(s.turns[i])),
       status := if s.status == "running" && s.endedAt.None? then "interrupted" else s.status)
  }

  /** `build_session`. */
  method BuildSession(events: seq<Event>) returns (session: Session)
    ensures session == Finalize(Fold(events))
    ensures forall i :: 0 <= i < |session.turns| ==> session.turns[i].status != "running"
    ensures session.status == "running" ==> session.endedAt.Some?
  {
    session := FoldEvents(events);
    session := InterruptRunning(session);
  }

  /** The `events.each` loop. */
  method FoldEvents(events: seq<Event>) returns (session: Session)
    ensures session == Fold(events)
  {
    session := Initial();
    var i := 0;
    while i < |events|
      invariant 0 <= i <= |events|
      invariant session == Fold(events[..i])
    {
      assert events[..i + 1][..i] == events[..i];
      session := ApplyEvent(session, events[i]);
      i := i + 1;
    }
    assert events[..i] == events;
  }

  /** The `case event["type"]` dispatch. */
  method ApplyEvent(s: Session, e: Event) returns (session: Session)
    ensures session == Apply(s, e)
  {
    if e.body.MessageDelta? || e.body.Message? || e.body.ThinkingDelta? || e.body.Thinking? {
      session := ApplyText(s, e);
    } else if e.body.ToolStart? || e.body.ToolEnd? {
      session := ApplyTool(s, e);
    } else {
      session := s;
      match e.body {
        case SessionStart(sid, model) =>
          session := session.(source := Some(SourceName(e.source)), sessionId := sid, model := model,
                              startedAt := Some(e.ts));
        case TurnStart(ti, mid) =>
          session := session.(turns := session.turns + [NewTurn(ti, mid, e.ts)]);
        case TurnEnd(ti, status, stopReason, usage) =>
          var slot := Slot(|session.turns|, ti);
          if slot.Some? {
            var k := slot.value;
            session := session.(turns := session.turns[k := session.turns[k].(status := status.GetOr("completed"),
                                stopReason := stopReason, usage := usage, endedAt := Some(e.ts))]);
          }
        case Error(message) =>
          var entry := ErrorEntry(message, e.ts);
          if |session.turns| > 0 && session.turns[|session.turns| - 1].status == "running" {
            var k := |session.turns| - 1;
            session := session.(turns := session.turns[k := session.turns[k].(errors := session.turns[k].errors + [entry])]);
          } else {
            session := session.(errors := session.errors + [entry]);
          }
        case SessionEnd(status) =>
          session := session.(status := status.GetOr("completed"), endedAt := Some(e.ts));
        case ToolDelta(_, _, _) =>
      }
    }
  }

  /** The four text events: append to or replace the addressed turn's text. */
  method ApplyText(s: Session, e: Event) returns (session: Session)
    requires e.body.MessageDelta? || e.body.Message? || e.body.ThinkingDelta? || e.body.Thinking?
    ensures session == Apply(s, e)
  {
    session := s;
    var slot := Slot(|session.turns|, e.body.turnIndex);
    if slot.Some? {
      var k := slot.value;
      var turn := session.turns[k];
      match e.body {
        case MessageDelta(_, text) =>
          turn := turn.(messageText := turn.messageText + text);
        case Message(_, text) =>
          turn := turn.(messageText := text);
        case ThinkingDelta(_, text) =>
          turn := turn.(thinkingText := turn.thinkingText + text);
        case Thinking(_, text) =>
          turn := turn.(thinkingText := text);
      }
      session := session.(turns := session.turns[k := turn]);
    }
  }

  /** `tool.start` appends a running call to the addressed turn; `tool.end`
      completes that turn's first call with the same id. */
  method ApplyTool(s: Session, e: Event) returns (session: Session)
    requires e.body.ToolStart? || e.body.ToolEnd?
    ensures session == Apply(s, e)
  {
    session := s;
    var slot := Slot(|session.turns|, e.body.turnIndex);
    if slot.Some? {
      var k := slot.value;
      var tools := session.turns[k].tools;
      if e.body.ToolStart? {
        tools := tools + [ToolCall(e.body.toolUseId, e.body.tool, e.body.input, "running", e.ts, None)];
        session := session.(turns := session.turns[k := session.turns[k].(tools := tools)]);
      } else {
        var found := FindTool(tools, e.body.toolUseId);
        if found.Some? {
          var m := found.value;
          tools := tools[m := tools[m].(input := e.body.input, status := "completed", endedAt := Some(e.ts))];
          session := session.(turns := session.turns[k := session.turns[k].(tools := tools)]);
        }
      }
    }
  }

  /** The interruption pass: `turns.each` and the session status. */
  method InterruptRunning(folded: Session) returns (session: Session)
    ensures session == Finalize(folded)
    ensures forall i :: 0 <= i < |session.turns| ==> session.turns[i].status != "running"
    ensures session.status == "running" ==> session.endedAt.Some?
  {
    session := folded;
    var j := 0;
    while j < |session.turns|
      invariant 0 <= j <= |session.turns| == |folded.turns|
      invariant session == folded.(turns := session.turns)
      invariant forall m :: 0 <= m < j ==> session.turns[m] == InterruptTurn(folded.turns[m])
      invariant forall m :: j <= m < |session.turns| ==> session.turns[m] == folded.turns[m]
    {
      if session.turns[j].status == "running" {
        session := session.(turns := session.turns[j := session.turns[j].(status := "interrupted")]);
      }
      j := j + 1;
    }
    if session.status == "running" && session.endedAt.None? {
      session := session.(status := "interrupted");
    }
  }
}
