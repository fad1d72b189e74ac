/** The two stages together: a raw log normalised by `normalize` and then
    reconstructed by `build_session`. */
module Pipeline {
  import opened JsonValues
  import opened Canonical
  import opened Driver
  import DriverProperties
  import opened SessionBuilder
  import SessionProperties

  /** The session the run page shows for a raw log. */
  function SessionOf(env: Env, entries: seq<Json>): Session {
    Finalize(Fold(Normalized(env, entries).events))
  }

  /** The reconstructed turns are numbered 0, 1, 2, ... in order, so the
      `turn_index` of a normalised event reaches the turn it was emitted
      in: the positional lookup of `build_session` and the normalisers'
      counter agree. */
  lemma TurnsAreNumberedByPosition(env: Env, entries: seq<Json>)
    ensures var events := Normalized(env, entries).events;
      var turns := Fold(events).turns;
      && |turns| == |TurnStarts(events)|
      && forall j :: 0 <= j < |turns| ==> turns[j].turnIndex == j && Slot(|turns|, j) == Some(j)
  {
    var n := Normalized(env, entries);
    SessionProperties.TurnsMirrorTurnStarts(n.events);
    if n.normalizer.Some? {
      DriverProperties.NormalizedWellFormed(env, entries);
    } else {
      assert n.events == [] by {
        assert Run(env, Undecided, entries).Undecided?;
      }
    }
  }

  /** A log with a detectable source ends "completed" (its normaliser's
      `session.end` sets the status and end time); a log without one yields
      no events, no turns, and an "interrupted" session. */
  lemma SessionStatusOfLog(env: Env, entries: seq<Json>)
    ensures var n := Normalized(env, entries);
      var s := SessionOf(env, entries);
      && (n.normalizer.Some? ==> s.status == "completed" && s.endedAt.Some?)
      && (n.normalizer.None? ==> s.status == "interrupted" && s.turns == [] && s.errors == [])
  {
    var n := Normalized(env, entries);
    if n.normalizer.Some? {
      DriverProperties.NormalizedWellFormed(env, entries);
      var es := n.events;
      assert Fold(es) == Apply(Fold(es[..|es| - 1]), es[|es| - 1]);
    } else {
      assert n.events == [] by {
        assert Run(env, Undecided, entries).Undecided?;
      }
    }
  }

  /** No turn of the session is left running. */
  lemma NoTurnLeftRunning(env: Env, entries: seq<Json>)
    ensures forall j :: 0 <= j < |SessionOf(env, entries).turns| ==> SessionOf(env, entries).turns[j].status != "running"
  {
    SessionProperties.FinalizeInterrupts(Fold(Normalized(env, entries).events));
  }
}
