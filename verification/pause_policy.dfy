/** When automatic compaction stops trying (`internal/store/thread_compaction.go`): the pause and the
    streak of low-gain attempts, as written under the lock and as replayed from the journal. */
module PausePolicy {
  import opened Ids

  const DEFAULT_MAX_ATTEMPTS: nat := 1

  datatype Reason = NoReason | StaleReason | LowGainReason | OtherReason

  /** A failure as offered, and, with its last three fields decided by the store, as journaled;
      `explained` says that a pause reason is given. */
  datatype Failure = Failure(
    automatic: bool, cancelled: bool, reason: Reason, maxAttempts: int,
    paused: bool, explained: bool, streak: Option<nat>)

  /** The projection a journal replays to. `pending` is the running compaction's automatic flag. */
  datatype Pause = Pause(streak: nat, paused: bool, pending: Option<bool>)

  const UNPAUSED := Pause(0, false, None)

  predicate Stale(f: Failure) {
    f.automatic && f.cancelled && f.reason == StaleReason
  }

  predicate LowGain(f: Failure) {
    f.automatic && !f.cancelled && f.reason == LowGainReason
  }

  function MaxAttempts(f: Failure): int {
    if f.maxAttempts == 0 then DEFAULT_MAX_ATTEMPTS else f.maxAttempts
  }

  /** `normalizeCompactionFailureInput`; None is any of its errors. */
  function Normalize(f: Failure): Option<Failure> {
    if (!f.cancelled && f.reason == NoReason) || f.maxAttempts < 0 then None
    else if f.automatic then Some(f.(paused := false, explained := false, streak := None))
    else if f.paused != f.explained then None
    else Some(f)
  }

  /** `applyAutomaticCompactionFailurePolicy`. */
  function Decide(s: Pause, f: Failure): Failure {
    if Stale(f) then f.(paused := false, explained := false, streak := None)
    else if LowGain(f) then
      var pauses := s.streak + 1 >= MaxAttempts(f);
      f.(paused := pauses, explained := pauses, streak := Some(s.streak + 1))
    else f.(paused := true, explained := true, streak := Some(0))
  }

  /** `materializeCompactionFailure`; None is any of its errors. */
  function Materialize(s: Pause, f: Failure): Option<Failure> {
    if !f.automatic then Some(f) else
      var decided := Decide(s, f);
      if decided.paused != decided.explained || (!decided.paused && !Stale(decided) && !LowGain(decided)) then None
      else Some(decided)
  }

  /** How a journaled failure replays; None is a corrupt journal. An event without a stamped streak
      comes from before streaks were stamped, or leaves the streak alone. */
  function ReplayFailure(s: Pause, f: Failure): Option<Pause> {
    if !f.cancelled && f.reason == NoReason then None
    else if f.paused != f.explained then None
    else if f.automatic && !f.paused && !Stale(f) && !LowGain(f) then None
    else if s.pending.Some? && s.pending.value != f.automatic then None
    else
      var streak :=
        if f.streak.Some? then f.streak.value
        else if LowGain(f) then s.streak + 1
        else if f.automatic && !Stale(f) then 0
        else s.streak;
      Some(Pause(streak, f.paused, None))
  }

  /** What the store writes it can read back: past the input checks nothing can refuse a failure of
      the pending kind, neither when its policy fields are filled in nor when it is replayed. */
  lemma RecordedFailuresReplay(s: Pause, offered: Failure)
    requires Normalize(offered).Some? && (s.pending.Some? ==> s.pending.value == offered.automatic)
    ensures var m := Materialize(s, Normalize(offered).value);
      m.Some? && ReplayFailure(s, m.value).Some?
  {
    var f := Normalize(offered).value;
    assert f.automatic ==> f.paused == f.explained == false;
  }

  /** The stamped streak and the older reason-based rule are one projection: dropping the stamp of
      any automatic failure replays to the same state. */
  lemma StampAgreesWithReason(s: Pause, offered: Failure)
    requires Normalize(offered).Some? && offered.automatic
    ensures var m := Materialize(s, Normalize(offered).value);
      m.Some? && ReplayFailure(s, m.value.(streak := None)) == ReplayFailure(s, m.value)
  {
    var f := Normalize(offered).value;
    assert f.automatic;
  }

  // ---- runs ----

  datatype Occurrence =
    | Started(automatic: bool)
    | Failed(offered: Failure)
    | Installed
    | Reset(paused: bool)

  /** Sessions start or fail an automatic compaction only in a thread that is not paused, or that
      their own running compaction paused, and none allows more low-gain attempts than `limit`; a
      manual failure does not lift the pause of a full streak. */
  predicate Allowed(s: Pause, o: Occurrence, limit: nat) {
    match o
    case Started(automatic) => s.pending.None? && (automatic ==> !s.paused)
    case Failed(f) =>
      && Normalize(f).Some? && MaxAttempts(f) <= limit
      && (s.pending.Some? ==> s.pending.value == f.automatic)
      && (f.automatic ==> s.pending == Some(true) || !s.paused)
      && (!f.automatic ==> f.streak.None? && (s.streak >= limit ==> f.paused))
    case Installed => true
    case Reset(_) => true
  }

  function After(s: Pause, o: Occurrence): Pause {
    match o
    case Started(automatic) => s.(pending := Some(automatic), paused := s.paused || automatic)
    case Failed(f) =>
      var n := Normalize(f);
      var m := if n.None? then None else Materialize(s, n.value);
      var r := if m.None? then None else ReplayFailure(s, m.value);
      if r.None? then s else r.value
    case Installed => UNPAUSED
    case Reset(paused) => s.(streak := 0, paused := paused)
  }

  function StateOf(history: seq<Occurrence>): Pause {
    if history == [] then UNPAUSED else After(StateOf(history[..|history| - 1]), history[|history| - 1])
  }

  ghost predicate Run(history: seq<Occurrence>, limit: nat) {
    history != [] ==>
      var rest := history[..|history| - 1];
      Run(rest, limit) && Allowed(StateOf(rest), history[|history| - 1], limit)
  }

  lemma RunSnoc(history: seq<Occurrence>, o: Occurrence, limit: nat)
    ensures StateOf(history + [o]) == After(StateOf(history), o)
    ensures Run(history + [o], limit) <==> Run(history, limit) && Allowed(StateOf(history), o, limit)
  {
    SnocInit(history, o);
  }

  predicate IsLowGain(o: Occurrence) {
    o.Failed? && LowGain(o.offered)
  }

  /** Starts, stale candidates and manual failures say nothing about the gain. */
  predicate Counts(o: Occurrence) {
    o.Installed? || o.Reset? || (o.Failed? && o.offered.automatic && !Stale(o.offered))
  }

  /** The last `n` of `verdicts` are low-gain failures, and the one before them is not. */
  ghost predicate EndsWith(verdicts: seq<Occurrence>, n: nat) {
    && n <= |verdicts|
    && (forall i :: |verdicts| - n <= i < |verdicts| ==> IsLowGain(verdicts[i]))
    && (n < |verdicts| ==> !IsLowGain(verdicts[|verdicts| - n - 1]))
  }

  /** The projected streak is the number of low-gain attempts since anything else was decided. */
  lemma {:induction false} StreakCountsAttempts(history: seq<Occurrence>, limit: nat)
    requires Run(history, limit)
    ensures EndsWith(Filter(Counts, history), StateOf(history).streak)
  {
    if history != [] {
      var rest, last := history[..|history| - 1], history[|history| - 1];
      StreakCountsAttempts(rest, limit);
      InitLast(history);
      FilterSnoc(Counts, rest, last);
      if last.Failed? {
        RecordedFailuresReplay(StateOf(rest), last.offered);
      }
    }
  }

  /** However automatic and manual compactions interleave, at most `limit` low-gain attempts are
      paid for in a row: then the thread is paused, and it stays so until something is installed or
      reset. */
  lemma {:induction false} AttemptsAreBounded(history: seq<Occurrence>, limit: nat)
    requires Run(history, limit) && limit >= 1
    ensures var s := StateOf(history);
      && s.streak <= limit
      && (s.streak == limit ==> s.paused && s.pending != Some(true))
  {
    if history != [] {
      var rest, last := history[..|history| - 1], history[|history| - 1];
      AttemptsAreBounded(rest, limit);
      if last.Failed? {
        RecordedFailuresReplay(StateOf(rest), last.offered);
      }
    }
  }

  /** Exactly when a thread is paused: an automatic compaction pauses it while it runs; its failure keeps the pause
      if it is neither stale nor of low gain, or if it is the last low-gain attempt its session allows; a manual
      failure leaves what its session asks for; a checkpoint lifts the pause and a reset says what holds. */
  lemma PauseIsDecided(history: seq<Occurrence>, o: Occurrence, limit: nat) returns (attempts: nat)
    requires Run(history + [o], limit)
    ensures EndsWith(Filter(Counts, history), attempts)
    ensures StateOf(history + [o]).paused <==>
      match o
      case Started(automatic) => automatic || StateOf(history).paused
      case Failed(f) =>
        if !f.automatic then f.paused
        else if f.reason == StaleReason && f.cancelled then false
        else if f.reason == LowGainReason && !f.cancelled then
          attempts + 1 >= if f.maxAttempts == 0 then 1 else f.maxAttempts
        else true
      case Installed => false
      case Reset(paused) => paused
  {
    RunSnoc(history, o, limit);
    StreakCountsAttempts(history, limit);
    attempts := StateOf(history).streak;
    if o.Failed? {
      RecordedFailuresReplay(StateOf(history), o.offered);
    }
  }
}
