/** `EventNormalizer.normalize`: skip unusable entries, lock in a normaliser
    on the first entry whose source is detected, feed it that entry and
    every later usable one, then finalise it. */
module Driver {
  import opened JsonValues
  import opened Canonical
  import EventNormalizer
  import ClaudeSpec
  import CodexSpec
  import ClaudeNormalizer
  import CodexNormalizer
  import ClaudeProperties
  import CodexProperties

  /** An entry as the loop sees it: a string is parsed (`None` when parsing
      fails), anything else is taken as it is. */
  function Decode(env: Env, entry: Json): Option<Json> {
    if entry.JStr? then env.parse(entry.s) else Some(entry)
  }

  /** Entries that survive `next if data.nil? || !data.is_a?(Hash) || data.empty?`. */
  predicate Usable(data: Json) {
    data.JObj? && data.fields != map[]
  }

  /** The source an entry would lock in, if it were seen first. */
  function Detected(env: Env, entry: Json): Option<Source> {
    match Decode(env, entry)
    case None => None
    case Some(data) => if Usable(data) then EventNormalizer.DetectSource(data) else None
  }

  /** The driver's `normalizer` variable, with the chosen normaliser's state. */
  datatype Choice = Undecided | ChoseClaude(c: ClaudeSpec.State) | ChoseCodex(x: CodexSpec.State)

  /** One iteration of the loop: an unusable entry is skipped; otherwise a
      normaliser is chosen if none is yet, and the chosen one processes the
      entry. */
  function Step(env: Env, ch: Choice, entry: Json): Choice {
    match Decode(env, entry)
    case None => ch
    case Some(data) =>
      if !Usable(data) then ch
      else Feed(env, if ch.Undecided? then Choose(data) else ch, data)
  }

  /** `normalizer = case detect_source(data) ...`: a fresh normaliser for the
      detected source, or none. */
  function Choose(data: Json): Choice {
    match EventNormalizer.DetectSource(data)
    case Some(Claude) => ChoseClaude(ClaudeSpec.Init())
    case Some(Codex) => ChoseCodex(CodexSpec.Init())
    case None => Undecided
  }

  /** `normalizer.process(data)`, skipped while no normaliser is chosen. */
  function Feed(env: Env, ch: Choice, data: Json): Choice {
    match ch
    case Undecided => Undecided
    case ChoseClaude(c) => ChoseClaude(ClaudeSpec.Process(env, c, data))
    case ChoseCodex(x) => ChoseCodex(CodexSpec.Process(env, x, data))
  }


  /** The loop run from `ch` over `entries`. */
  function Run(env: Env, ch: Choice, entries: seq<Json>): Choice
    decreases |entries|
  {
    if entries == [] then ch else Step(env, Run(env, ch, entries[..|entries| - 1]), entries[|entries| - 1])
  }

  /** The result hash: the events and the normaliser's name. */
  datatype Normalization = Normalization(events: seq<Event>, normalizer: Option<string>)

  /** What `normalize` returns. */
  function Normalized(env: Env, entries: seq<Json>): Normalization {
    match Run(env, Undecided, entries)
    case Undecided => Normalization([], None)
    case ChoseClaude(c) => Normalization(ClaudeSpec.Finalize(env, c).events, Some("ClaudeCodeNormalizer"))
    case ChoseCodex(x) => Normalization(CodexSpec.Finalize(env, x).events, Some("CodexNormalizer"))
  }

  /** The normaliser `normalize` holds during the loop. */
  datatype Active =
    | UsingClaude(claude: ClaudeNormalizer.ClaudeCodeNormalizer)
    | UsingCodex(codex: CodexNormalizer.CodexNormalizer)

  /** The objects the driver's normaliser variable refers to. */
  function Objects(active: Option<Active>): set<object> {
    match active
    case None => {}
    case Some(UsingClaude(c)) => {c}
    case Some(UsingCodex(x)) => {x}
  }

  /** The normaliser variable holds a normaliser in the state `ch` describes. */
  ghost predicate Tracks(env: Env, active: Option<Active>, ch: Choice)
    reads Objects(active)
  {
    match active
    case None => ch == Undecided
    case Some(UsingClaude(c)) => c.Valid() && c.env == env && ch == ChoseClaude(c.State())
    case Some(UsingCodex(x)) => x.Valid() && x.env == env && ch == ChoseCodex(x.State())
  }

  /** `normalize` (a nil input is the empty sequence). */
  method Normalize(env: Env, entries: seq<Json>) returns (events: seq<Event>, normalizer: Option<string>)
    ensures Normalization(events, normalizer) == Normalized(env, entries)
  {
    if |entries| == 0 {
      return [], None;
    }
    var active: Option<Active> := None;
    var i := 0;
    while i < |entries|
      invariant 0 <= i <= |entries|
      invariant fresh(Objects(active))
      invariant Tracks(env, active, Run(env, Undecided, entries[..i]))
    {
      assert entries[..i + 1][..i] == entries[..i];
      active := Advance(env, active, Run(env, Undecided, entries[..i]), entries[i]);
      i := i + 1;
    }
    assert entries[..i] == entries;
    match active
    case None =>
      events, normalizer := [], None;
    case Some(UsingClaude(c)) =>
      c.Finalize();
      events, normalizer := c.events, Some(c.NormalizerName());
    case Some(UsingCodex(x)) =>
      x.Finalize();
      events, normalizer := x.events, Some(x.NormalizerName());
  }

  /** One iteration of the `each` loop: skip an unusable entry, choose a
      normaliser if none is chosen yet (skipping the entry when its source
      is not detected), and let the normaliser process the entry. */
  method Advance(env: Env, active: Option<Active>, ghost ch: Choice, entry: Json) returns (next: Option<Active>)
    requires Tracks(env, active, ch)
    modifies Objects(active)
    ensures Tracks(env, next, Step(env, ch, entry))
    ensures next == active || (active.None? && fresh(Objects(next)))
  {
    next := active;
    var data := if entry.JStr? then env.parse(entry.s) else Some(entry);
    if data.Some? && data.value.JObj? && data.value.fields != map[] {
      ghost var chosen := ch;
      if next.None? {
        next := Start(env, data.value);
        chosen := Choose(data.value);
      }
      if next.Some? {
        FeedActive(env, next.value, chosen, data.value);
      }
    }
  }

  /** A fresh normaliser for the detected source. */
  method Start(env: Env, data: Json) returns (next: Option<Active>)
    ensures Tracks(env, next, Choose(data))
    ensures fresh(Objects(next))
  {
    var source := EventNormalizer.DetectSource(data);
    if source == Some(Claude) {
      var c := new ClaudeNormalizer.ClaudeCodeNormalizer(env);
      next := Some(UsingClaude(c));
    } else if source == Some(Codex) {
      var x := new CodexNormalizer.CodexNormalizer(env);
      next := Some(UsingCodex(x));
    } else {
      next := None;
    }
  }

  /** The chosen normaliser processes the entry. */
  method FeedActive(env: Env, active: Active, ghost ch: Choice, data: Json)
    requires Tracks(env, Some(active), ch)
    modifies Objects(Some(active))
    ensures Tracks(env, Some(active), Feed(env, ch, data))
  {
    match active {
      case UsingClaude(c) => c.Process(data);
      case UsingCodex(x) => x.Process(data);
    }
  }
}
