/** What `build_session` promises about the session it builds. */
module SessionProperties {
  import opened JsonValues
  import opened Canonical
  import opened SessionBuilder

  /** `turn.start` appends exactly one running turn with empty texts, tools
      and errors, and leaves the existing turns as they were. */
  lemma TurnStartAppendsOneTurn(s: Session, e: Event)
    requires e.body.TurnStart?
    ensures var r := Apply(s, e);
      && |r.turns| == |s.turns| + 1
      && r.turns[..|s.turns|] == s.turns
      && r.turns[|s.turns|] == Turn(e.body.turnIndex, e.body.messageId, "running", "", "", [], JNull, JNull, [], e.ts, None)
      && r == s.(turns := r.turns)
  {
  }

  /** Whether an event addresses a turn through its `turn_index`. */
  predicate AddressesTurn(b: Body) {
    b.MessageDelta? || b.Message? || b.ThinkingDelta? || b.Thinking? || b.ToolStart? || b.ToolEnd? || b.TurnEnd?
  }

  /** An event whose `turn_index` reaches no turn changes nothing. */
  lemma MissingTurnChangesNothing(s: Session, e: Event)
    requires AddressesTurn(e.body) && Slot(|s.turns|, e.body.turnIndex).None?
    ensures Apply(s, e) == s
  {
  }

  /** An event that addresses a turn changes that turn only: the other
      turns, their number and the session's own fields stay as they were. */
  lemma AddressedTurnOnly(s: Session, e: Event)
    requires AddressesTurn(e.body)
    ensures var r := Apply(s, e);
      && |r.turns| == |s.turns|
      && r == s.(turns := r.turns)
      && forall j :: 0 <= j < |s.turns| && Slot(|s.turns|, e.body.turnIndex) != Some(j) ==> r.turns[j] == s.turns[j]
  {
  }

  /** The text events: a delta appends to the addressed turn's text, a full
      message or thinking event replaces it. */
  lemma TextEvents(s: Session, e: Event, k: nat)
    requires (e.body.MessageDelta? || e.body.Message? || e.body.ThinkingDelta? || e.body.Thinking?)
    requires Slot(|s.turns|, e.body.turnIndex) == Some(k)
    ensures var t := Apply(s, e).turns[k];
      var old_t := s.turns[k];
      && (e.body.MessageDelta? ==> t == old_t.(messageText := old_t.messageText + e.body.text))
      && (e.body.Message? ==> t == old_t.(messageText := e.body.text))
      && (e.body.ThinkingDelta? ==> t == old_t.(thinkingText := old_t.thinkingText + e.body.text))
      && (e.body.Thinking? ==> t == old_t.(thinkingText := e.body.text))
  {
  }

  /** `tool.start` appends one running tool to the addressed turn. */
  lemma ToolStartAppendsTool(s: Session, e: Event, k: nat)
    requires e.body.ToolStart? && Slot(|s.turns|, e.body.turnIndex) == Some(k)
    ensures var t := Apply(s, e).turns[k];
      && t.tools == s.turns[k].tools + [ToolCall(e.body.toolUseId, e.body.tool, e.body.input, "running", e.ts, None)]
      && t == s.turns[k].(tools := t.tools)
  {
  }

  /** `tool.end` completes the first tool of the addressed turn with the
      same id, setting its input, status and end time; the other tools are
      unchanged. */
  lemma ToolEndCompletesFirstMatch(s: Session, e: Event, k: nat, m: nat)
    requires e.body.ToolEnd? && Slot(|s.turns|, e.body.turnIndex) == Some(k)
    requires m < |s.turns[k].tools| && s.turns[k].tools[m].toolUseId == e.body.toolUseId
    requires forall j :: 0 <= j < m ==> s.turns[k].tools[j].toolUseId != e.body.toolUseId
    ensures var r := Apply(s, e);
      var before := s.turns[k].tools;
      var after := r.turns[k].tools;
      && |after| == |before|
      && after[m] == before[m].(input := e.body.input, status := "completed", endedAt := Some(e.ts))
      && (forall j :: 0 <= j < |before| && j != m ==> after[j] == before[j])
      && r.turns[k] == s.turns[k].(tools := after)
  {
  }

  /** A `tool.end` that matches no tool of the addressed turn is dropped. */
  lemma UnmatchedToolEndDropped(s: Session, e: Event, k: nat)
    requires e.body.ToolEnd? && Slot(|s.turns|, e.body.turnIndex) == Some(k)
    requires forall j :: 0 <= j < |s.turns[k].tools| ==> s.turns[k].tools[j].toolUseId != e.body.toolUseId
    ensures Apply(s, e) == s
  {
  }

  /** `turn.end` sets the addressed turn's status (by default "completed"),
      stop reason, usage and end time, and nothing else. */
  lemma TurnEndSetsFourFields(s: Session, e: Event, k: nat)
    requires e.body.TurnEnd? && Slot(|s.turns|, e.body.turnIndex) == Some(k)
    ensures Apply(s, e).turns[k] == s.turns[k].(status := e.body.status.GetOr("completed"),
      stopReason := e.body.stopReason, usage := e.body.usage, endedAt := Some(e.ts))
  {
  }

  /** An `error` goes to the last turn when that turn is running, otherwise
      to the session: exactly one of the two lists grows, by this entry, and
      nothing else about the session or the turn changes. */
  lemma ErrorAttribution(s: Session, e: Event)
    requires e.body.Error?
    ensures var r := Apply(s, e);
      var entry := ErrorEntry(e.body.message, e.ts);
      var toTurn := |s.turns| > 0 && s.turns[|s.turns| - 1].status == "running";
      && |r.turns| == |s.turns|
      && (toTurn ==>
            && r.errors == s.errors
            && r.turns[|s.turns| - 1].errors == s.turns[|s.turns| - 1].errors + [entry]
            && r.turns[..|s.turns| - 1] == s.turns[..|s.turns| - 1])
      && (!toTurn ==> r.errors == s.errors + [entry] && r.turns == s.turns)
      && (toTurn ==>
            var last := s.turns[|s.turns| - 1];
            r == s.(turns := s.turns[|s.turns| - 1 := last.(errors := last.errors + [entry])]))
      && (!toTurn ==> r == s.(errors := s.errors + [entry]))
  {
  }

  /** Events other than `turn.start` keep the number of turns and their
      indices. */
  lemma ApplyKeepsTurnIndices(s: Session, e: Event)
    requires !e.body.TurnStart?
    ensures var r := Apply(s, e);
      |r.turns| == |s.turns| && forall j :: 0 <= j < |s.turns| ==> r.turns[j].turnIndex == s.turns[j].turnIndex
  {
  }

  /** The turns of the session are the `turn.start` events, in order: one
      turn per start, carrying its index. */
  lemma {:induction false} TurnsMirrorTurnStarts(events: seq<Event>)
    ensures var turns := Fold(events).turns;
      && |turns| == |TurnStarts(events)|
      && forall j :: 0 <= j < |turns| ==> turns[j].turnIndex == TurnStarts(events)[j]
    decreases |events|
  {
    if events != [] {
      var init := events[..|events| - 1];
      var e := events[|events| - 1];
      TurnsMirrorTurnStarts(init);
      if !e.body.TurnStart? {
        ApplyKeepsTurnIndices(Fold(init), e);
      }
    }
  }

  /** After the interruption pass no turn is running: running turns become
      "interrupted", the others keep their status, and nothing else about a
      turn changes. The session is interrupted exactly when it was still
      running without an end time (or already was); its other fields stay. */
  lemma FinalizeInterrupts(s: Session)
    ensures var r := Finalize(s);
      && |r.turns| == |s.turns|
      && (forall j :: 0 <= j < |s.turns| ==>
            && r.turns[j].status != "running"
            && r.turns[j] == s.turns[j].(status := r.turns[j].status)
            && (s.turns[j].status == "running" <==> r.turns[j].status == "interrupted" && s.turns[j].status != "interrupted"))
      && (r.status == "interrupted" <==> (s.status == "running" && s.endedAt.None?) || s.status == "interrupted")
      && (r.status != "interrupted" ==> r.status == s.status)
      && r.errors == s.errors && r.endedAt == s.endedAt
      && r == s.(turns := r.turns, status := r.status)
  {
  }

  /** `session.end` sets the session's status (by default "completed") and
      end time, and changes nothing else: no turn and no error. */
  lemma SessionEndSetsStatus(s: Session, e: Event)
    requires e.body.SessionEnd?
    ensures Apply(s, e) == s.(status := e.body.status.GetOr("completed"), endedAt := Some(e.ts))
  {
  }

  /** Only `session.end` changes the session's status and end time. */
  lemma OnlySessionEndSetsStatus(s: Session, e: Event)
    requires !e.body.SessionEnd?
    ensures Apply(s, e).status == s.status && Apply(s, e).endedAt == s.endedAt
  {
  }

  /** After the events, the status and end time are those the last
      `session.end` set. */
  lemma {:induction false} FoldAfterSessionEnd(events: seq<Event>, k: nat)
    requires k < |events| && events[k].body.SessionEnd?
    requires forall j :: k < j < |events| ==> !events[j].body.SessionEnd?
    ensures Fold(events).status == events[k].body.status.GetOr("completed")
    ensures Fold(events).endedAt == Some(events[k].ts)
    decreases |events|
  {
    var init := events[..|events| - 1];
    var last := events[|events| - 1];
    if k == |events| - 1 {
      SessionEndSetsStatus(Fold(init), last);
    } else {
      assert init[k] == events[k];
      assert forall j :: k < j < |init| ==> init[j] == events[j];
      FoldAfterSessionEnd(init, k);
      OnlySessionEndSetsStatus(Fold(init), last);
    }
  }

  /** The last `session.end` of the events decides the built session's
      status (by default "completed") and end time; the interruption pass
      leaves both alone, even for a status of "running". */
  lemma LastSessionEndDecides(events: seq<Event>, k: nat)
    requires k < |events| && events[k].body.SessionEnd?
    requires forall j :: k < j < |events| ==> !events[j].body.SessionEnd?
    ensures Finalize(Fold(events)).status == events[k].body.status.GetOr("completed")
    ensures Finalize(Fold(events)).endedAt == Some(events[k].ts)
  {
    FoldAfterSessionEnd(events, k);
  }

  /** Without a `session.end` the session keeps its initial status and has
      no end time, so the interruption pass marks it "interrupted". */
  lemma {:induction false} NoSessionEndInterrupted(events: seq<Event>)
    requires forall j :: 0 <= j < |events| ==> !events[j].body.SessionEnd?
    ensures Fold(events).status == "running" && Fold(events).endedAt.None?
    ensures Finalize(Fold(events)).status == "interrupted"
    decreases |events|
  {
    if events != [] {
      var init := events[..|events| - 1];
      assert forall j :: 0 <= j < |init| ==> init[j] == events[j];
      NoSessionEndInterrupted(init);
      OnlySessionEndSetsStatus(Fold(init), events[|events| - 1]);
    }
  }
}
