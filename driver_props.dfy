/** What `normalize` promises: which normaliser is chosen and when, which
    entries it sees, and the shape of the event list it returns. */
module DriverProperties {
  import opened JsonValues
  import opened Canonical
  import EventNormalizer
  import ClaudeSpec
  import CodexSpec
  import ClaudeProperties
  import CodexProperties
  import opened Driver

  /** The usable decoded entries, in order: what a chosen normaliser is fed. */
  function UsableData(env: Env, entries: seq<Json>): seq<Json>
    decreases |entries|
  {
    if entries == [] then []
    else
      var rest := UsableData(env, entries[..|entries| - 1]);
      match Decode(env, entries[|entries| - 1])
      case None => rest
      case Some(data) => if Usable(data) then rest + [data] else rest
  }

  lemma {:induction false} UsableDataAppend(env: Env, a: seq<Json>, b: seq<Json>)
    ensures UsableData(env, a + b) == UsableData(env, a) + UsableData(env, b)
    decreases |b|
  {
    if b == [] {
      assert a + b == a;
    } else {
      assert (a + b)[..|a + b| - 1] == a + b[..|b| - 1];
      UsableDataAppend(env, a, b[..|b| - 1]);
    }
  }

  /** Splitting the loop. */
  lemma {:induction false} RunAppend(env: Env, ch: Choice, a: seq<Json>, b: seq<Json>)
    ensures Run(env, ch, a + b) == Run(env, Run(env, ch, a), b)
    decreases |b|
  {
    if b == [] {
      assert a + b == a;
    } else {
      assert (a + b)[..|a + b| - 1] == a + b[..|b| - 1];
      RunAppend(env, ch, a, b[..|b| - 1]);
    }
  }

  /** Once the Claude normaliser is chosen it is never replaced, and it
      processes every later usable entry, whatever its type. */
  lemma {:induction false} ClaudeStaysChosen(env: Env, c: ClaudeSpec.State, entries: seq<Json>)
    ensures Run(env, ChoseClaude(c), entries) == ChoseClaude(ClaudeSpec.ProcessAll(env, c, UsableData(env, entries)))
    decreases |entries|
  {
    if entries != [] {
      var init := entries[..|entries| - 1];
      ClaudeStaysChosen(env, c, init);
      var rest := UsableData(env, init);
      match Decode(env, entries[|entries| - 1])
      case None =>
      case Some(data) =>
        if Usable(data) {
          assert (rest + [data])[..|rest|] == rest;
        }
    }
  }

  /** The same for the Codex normaliser. */
  lemma {:induction false} CodexStaysChosen(env: Env, x: CodexSpec.State, entries: seq<Json>)
    ensures Run(env, ChoseCodex(x), entries) == ChoseCodex(CodexSpec.ProcessAll(env, x, UsableData(env, entries)))
    decreases |entries|
  {
    if entries != [] {
      var init := entries[..|entries| - 1];
      CodexStaysChosen(env, x, init);
      var rest := UsableData(env, init);
      match Decode(env, entries[|entries| - 1])
      case None =>
      case Some(data) =>
        if Usable(data) {
          assert (rest + [data])[..|rest|] == rest;
        }
    }
  }

  /** No normaliser is chosen exactly when no entry has a detectable source. */
  lemma UndecidedIffNothingDetected(env: Env, entries: seq<Json>)
    ensures Run(env, Undecided, entries) == Undecided <==>
      forall j :: 0 <= j < |entries| ==> Detected(env, entries[j]) == None
  {
    if forall j :: 0 <= j < |entries| ==> Detected(env, entries[j]) == None {
      NothingDetectedStaysUndecided(env, entries);
    } else {
      var j :| 0 <= j < |entries| && Detected(env, entries[j]) != None;
      DetectedDecides(env, entries, j);
    }
  }

  lemma {:induction false} NothingDetectedStaysUndecided(env: Env, entries: seq<Json>)
    requires forall j :: 0 <= j < |entries| ==> Detected(env, entries[j]) == None
    ensures Run(env, Undecided, entries) == Undecided
    decreases |entries|
  {
    if entries != [] {
      var init := entries[..|entries| - 1];
      assert forall j :: 0 <= j < |init| ==> init[j] == entries[j];
      NothingDetectedStaysUndecided(env, init);
      StepDecides(env, Undecided, entries[|entries| - 1]);
    }
  }

  lemma {:induction false} DetectedDecides(env: Env, entries: seq<Json>, j: nat)
    requires j < |entries| && Detected(env, entries[j]) != None
    ensures Run(env, Undecided, entries) != Undecided
    decreases |entries|
  {
    var init := entries[..|entries| - 1];
    var prev := Run(env, Undecided, init);
    if j < |init| {
      assert init[j] == entries[j];
      DetectedDecides(env, init, j);
    }
    StepDecides(env, prev, entries[|entries| - 1]);
  }

  /** A step leaves the driver undecided exactly when it was undecided and
      the entry has no detectable source. */
  lemma StepDecides(env: Env, ch: Choice, entry: Json)
    ensures Step(env, ch, entry).Undecided? <==> ch.Undecided? && Detected(env, entry) == None
  {
  }

  /** The first entry with a detectable source decides the normaliser; the
      entries before it are dropped, and it and every later usable entry are
      processed by the chosen normaliser in order. */
  lemma LockIn(env: Env, entries: seq<Json>, i: nat)
    requires i < |entries| && Detected(env, entries[i]).Some?
    requires forall j :: 0 <= j < i ==> Detected(env, entries[j]) == None
    ensures Detected(env, entries[i]) == Some(Claude) ==>
      Run(env, Undecided, entries) == ChoseClaude(ClaudeSpec.ProcessAll(env, ClaudeSpec.Init(), UsableData(env, entries[i..])))
    ensures Detected(env, entries[i]) == Some(Codex) ==>
      Run(env, Undecided, entries) == ChoseCodex(CodexSpec.ProcessAll(env, CodexSpec.Init(), UsableData(env, entries[i..])))
  {
    LockInPrefix(env, entries, i);
    var e := entries[i];
    var post := entries[i + 1..];
    assert entries[i..] == [e] + post;
    if Detected(env, e) == Some(Claude) {
      LockInClaude(env, e, post);
    } else {
      LockInCodex(env, e, post);
    }
  }

  /** An undetected prefix leaves the driver undecided: the run is the run
      from the first detected entry on. */
  lemma LockInPrefix(env: Env, entries: seq<Json>, i: nat)
    requires i <= |entries|
    requires forall j :: 0 <= j < i ==> Detected(env, entries[j]) == None
    ensures Run(env, Undecided, entries) == Run(env, Undecided, entries[i..])
  {
    var pre := entries[..i];
    assert entries == pre + entries[i..];
    UndecidedIffNothingDetected(env, pre);
    RunAppend(env, Undecided, pre, entries[i..]);
  }

  /** The first usable entry's data followed by the rest's. */
  lemma UsableDataFirst(env: Env, e: Json, post: seq<Json>)
    requires Detected(env, e).Some?
    ensures UsableData(env, [e] + post) == [Decode(env, e).value] + UsableData(env, post)
  {
    UsableDataAppend(env, [e], post);
    assert UsableData(env, [e]) == [Decode(env, e).value] by {
      assert [e][..0] == [];
    }
  }

  lemma LockInClaude(env: Env, e: Json, post: seq<Json>)
    requires Detected(env, e) == Some(Claude)
    ensures Run(env, Undecided, [e] + post)
      == ChoseClaude(ClaudeSpec.ProcessAll(env, ClaudeSpec.Init(), UsableData(env, [e] + post)))
  {
    var data := Decode(env, e).value;
    UsableDataFirst(env, e, post);
    RunAppend(env, Undecided, [e], post);
    assert Run(env, Undecided, [e]) == Step(env, Undecided, e) by {
      assert [e][..0] == [];
    }
    var c1 := ClaudeSpec.Process(env, ClaudeSpec.Init(), data);
    ClaudeStaysChosen(env, c1, post);
    ClaudeProperties.ProcessAllAppend(env, ClaudeSpec.Init(), [data], UsableData(env, post));
    ClaudeProperties.ProcessOne(env, ClaudeSpec.Init(), data);
  }

  lemma LockInCodex(env: Env, e: Json, post: seq<Json>)
    requires Detected(env, e) == Some(Codex)
    ensures Run(env, Undecided, [e] + post)
      == ChoseCodex(CodexSpec.ProcessAll(env, CodexSpec.Init(), UsableData(env, [e] + post)))
  {
    var data := Decode(env, e).value;
    UsableDataFirst(env, e, post);
    RunAppend(env, Undecided, [e], post);
    assert Run(env, Undecided, [e]) == Step(env, Undecided, e) by {
      assert [e][..0] == [];
    }
    var x1 := CodexSpec.Process(env, CodexSpec.Init(), data);
    CodexStaysChosen(env, x1, post);
    CodexProperties.ProcessAllAppend(env, CodexSpec.Init(), [data], UsableData(env, post));
    assert CodexSpec.ProcessAll(env, CodexSpec.Init(), [data]) == x1 by {
      assert [data][..0] == [];
    }
  }

  /** Unusable entries (unparsable strings, non-hashes, empty hashes) are
      skipped whatever the driver's state. */
  lemma SkipsUnusable(env: Env, ch: Choice, entry: Json)
    requires Decode(env, entry).None? || !Usable(Decode(env, entry).value)
    ensures Step(env, ch, entry) == ch
    ensures Detected(env, entry) == None
  {
  }

  /** The chosen normaliser's state satisfies its invariant. */
  lemma {:induction false} RunKeepsInv(env: Env, entries: seq<Json>)
    ensures var ch := Run(env, Undecided, entries);
      && (ch.ChoseClaude? ==> ClaudeSpec.Inv(ch.c))
      && (ch.ChoseCodex? ==> CodexSpec.Inv(ch.x))
    decreases |entries|
  {
    if entries != [] {
      var init := entries[..|entries| - 1];
      RunKeepsInv(env, init);
      var prev := Run(env, Undecided, init);
      match Decode(env, entries[|entries| - 1])
      case None =>
      case Some(data) =>
        if Usable(data) {
          match prev
          case Undecided =>
            ClaudeSpec.ProcessKeepsInv(env, ClaudeSpec.Init(), data);
            CodexSpec.ProcessKeepsInv(env, CodexSpec.Init(), data);
          case ChoseClaude(c) => ClaudeSpec.ProcessKeepsInv(env, c, data);
          case ChoseCodex(x) => CodexSpec.ProcessKeepsInv(env, x, data);
        }
    }
  }

  /** `normalize` returns no events and no normaliser exactly when no entry
      has a detectable source; in particular for an empty input. */
  lemma NothingDetectedIffEmptyResult(env: Env, entries: seq<Json>)
    ensures Normalized(env, entries) == Normalization([], None) <==>
      forall j :: 0 <= j < |entries| ==> Detected(env, entries[j]) == None
    ensures Normalized(env, []) == Normalization([], None)
  {
    UndecidedIffNothingDetected(env, entries);
  }

  /** With a normaliser chosen, the events are well formed: the last one is
      the only `session.end`, with status "completed"; the turn starts are
      numbered 0, 1, 2, ... without gaps; all events carry the chosen
      source; and a Claude log has at most one `session.start`. */
  lemma NormalizedWellFormed(env: Env, entries: seq<Json>)
    requires Normalized(env, entries).normalizer.Some?
    ensures var n := Normalized(env, entries);
      var es := n.events;
      && |es| > 0
      && es[|es| - 1].body == SessionEnd(Some("completed"))
      && CountSessionEnds(es) == 1
      && TurnStarts(es) == Range(|TurnStarts(es)|)
      && (n.normalizer == Some("ClaudeCodeNormalizer") ==> AllFrom(es, Claude) && CountSessionStarts(es) <= 1)
      && (n.normalizer == Some("CodexNormalizer") ==> AllFrom(es, Codex))
  {
    RunKeepsInv(env, entries);
    match Run(env, Undecided, entries)
    case ChoseClaude(c) => ClaudeSpec.FinalizeFacts(env, c);
    case ChoseCodex(x) => CodexSpec.FinalizeFacts(env, x);
  }
}
