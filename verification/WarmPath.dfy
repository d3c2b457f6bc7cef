/**
 * The timer that runs the warm path, the event listener that hurries it, and the other callers that contend for the
 * lock. Time is in milliseconds.
 *
 * A step is what runs between two awaits. A wait whose event is set is over at once, and wins against a time-out that
 * falls on the same instant.
 */
module WarmPath {
  import opened Prelude

  const DEBOUNCE := 30_000

  datatype Event = Event(kind: string, trigger: string, affected: seq<string>)

  datatype Phase = Starting | Idle(deadline: int) | Debouncing(deadline: int) | Running

  /** Who holds `_warm_path_lock`. */
  datatype Lock = Free | HeldByTimer | HeldElsewhere

  /** `Elsewhere`: a run that another caller started, such as the taxonomy reset endpoint. */
  datatype Cause = Startup | Interval | Debounced | Elsewhere

  datatype Signal = Signal(time: int, marks: set<string>)

  /** A wait of the timer: when it began, how many signals had been heard, and whether the flag was up. */
  datatype Wait = Wait(since: int, heard: nat, pending: bool)

  /**
   * One call of `run_warm_path`. `locked`: it returned at once because the lock was held, and nothing ran; `full`: the
   * first cycle, which looks at every cluster; `taken`: the dirty clusters it took; `seen`: the number of signals heard
   * before it; `wait`: the wait that it ended.
   */
  datatype Attempt = Attempt(
    time: int, cause: Cause, locked: bool, full: bool, taken: set<string>, seen: nat, wait: Wait)

  /** `signals` and `attempts` record what has happened. */
  datatype State = State(
    now: int, interval: nat, phase: Phase, flag: bool, dirty: set<string>, firstCycle: bool, lock: Lock, wait: Wait,
    signals: seq<Signal>, attempts: seq<Attempt>)

  datatype Action =
    | Hear(event: Event)
    | MarkDirty(ids: set<string>)
    | Tick(duration: nat)
    | Begin(ready: bool)
    | Wake
    | Expire
    | RunEnds
    | Finish
    | RunElsewhere
    | HoldLock
    | ReleaseLock

  function Initial(now: int, interval: nat): State {
    State(now, interval, Starting, false, {}, true, Free, Wait(now, 0, false), [], [])
  }

  // ---------------------------------------------------------------------------
  // Steps
  // ---------------------------------------------------------------------------

  /** The events that hurry the warm path. */
  predicate External(e: Event) {
    && e.kind in {"domain_created", "taxonomy_changed"}
    && e.trigger !in {"warm_path", "cold_path", "candidate_evaluation"}
  }

  function Marks(affected: seq<string>): set<string> {
    set id | id in affected && id != ""
  }

  function Heard(s: State, e: Event): State {
    if External(e) then
      s.(flag := true, dirty := s.dirty + Marks(e.affected), signals := s.signals + [Signal(s.now, Marks(e.affected))])
    else s
  }

  function AttemptOf(s: State, cause: Cause): Attempt {
    var locked := !s.lock.Free?;
    Attempt(s.now, cause, locked, !locked && s.firstCycle, if locked || s.firstCycle then {} else s.dirty,
            |s.signals|, s.wait)
  }

  /** `run_warm_path` up to its first await: skipped if the lock is held; else the first cycle leaves the dirty set. */
  function Attempted(s: State, cause: Cause): State {
    var locked := !s.lock.Free?;
    s.(phase := if cause.Elsewhere? then s.phase else Running,
       attempts := s.attempts + [AttemptOf(s, cause)],
       lock := if locked then s.lock else if cause.Elsewhere? then HeldElsewhere else HeldByTimer,
       dirty := if locked || s.firstCycle then s.dirty else {},
       firstCycle := s.firstCycle && locked)
  }

  function WaitAgain(s: State): State {
    s.(phase := Idle(s.now + s.interval), wait := Wait(s.now, |s.signals|, s.flag))
  }

  predicate Waiting(s: State) {
    s.phase.Idle? || s.phase.Debouncing?
  }

  predicate Enabled(s: State, a: Action) {
    match a
    case Hear(_) => true
    case MarkDirty(_) => true
    case Tick(d) => Waiting(s) ==> !s.flag && s.now + d <= s.phase.deadline
    case Begin(_) => s.phase.Starting?
    case Wake => Waiting(s) && s.flag
    case Expire => Waiting(s) && !s.flag && s.now == s.phase.deadline
    case RunEnds => s.lock.HeldByTimer?
    case Finish => s.phase.Running? && !s.lock.HeldByTimer?
    case RunElsewhere => s.lock.Free?
    case HoldLock => s.lock.Free?
    case ReleaseLock => s.lock.HeldElsewhere?
  }

  function Step(s: State, a: Action): State
    requires Enabled(s, a)
  {
    match a
    case Hear(e) => Heard(s, e)
    case MarkDirty(ids) => s.(dirty := s.dirty + ids)
    case Tick(d) => s.(now := s.now + d)
    case Begin(ready) => if ready then Attempted(s, Startup) else WaitAgain(s)
    case Wake => s.(flag := false, phase := Debouncing(s.now + DEBOUNCE))
    case Expire => Attempted(s, if s.phase.Idle? then Interval else Debounced)
    case RunEnds => s.(lock := Free)
    case Finish => WaitAgain(s)
    case RunElsewhere => Attempted(s, Elsewhere)
    case HoldLock => s.(lock := HeldElsewhere)
    case ReleaseLock => s.(lock := Free)
  }

  predicate Valid(s: State, actions: seq<Action>)
    decreases |actions|
  {
    actions == [] || (Enabled(s, actions[0]) && Valid(Step(s, actions[0]), actions[1..]))
  }

  function Run(s: State, actions: seq<Action>): State
    requires Valid(s, actions)
    decreases |actions|
  {
    if actions == [] then s else Run(Step(s, actions[0]), actions[1..])
  }

  // ---------------------------------------------------------------------------
  // Invariant: the clock and the current wait
  // ---------------------------------------------------------------------------

  /** The last of the first `upTo` signals, if it fell into the wait, or else the start of the wait. */
  function QuietFrom(signals: seq<Signal>, wait: Wait, upTo: nat): int
    requires upTo <= |signals|
  {
    if wait.heard < upTo then signals[upTo - 1].time else wait.since
  }

  function QuietSince(s: State): int {
    QuietFrom(s.signals, s.wait, |s.signals|)
  }

  ghost predicate Times(s: State) {
    && s.wait.since <= s.now && s.wait.heard <= |s.signals|
    && (forall i :: 0 <= i < |s.signals| ==> s.signals[i].time <= s.now)
    && (forall i :: 0 <= i < s.wait.heard ==> s.signals[i].time <= s.wait.since)
    && (forall i :: s.wait.heard <= i < |s.signals| ==> s.wait.since <= s.signals[i].time <= QuietSince(s))
  }

  ghost predicate Deadlines(s: State) {
    && s.wait.heard <= |s.signals|
    && (Waiting(s) ==> s.now <= s.phase.deadline)
    && (Waiting(s) && s.flag ==> s.now == QuietSince(s) && (s.wait.heard < |s.signals| || s.wait.pending))
    && (s.phase.Idle? ==> s.phase.deadline == s.wait.since + s.interval)
    && (s.phase.Idle? && !s.flag ==> s.wait.heard == |s.signals| && !s.wait.pending)
    && (s.phase.Debouncing? ==> s.wait.heard < |s.signals| || s.wait.pending)
    && (s.phase.Debouncing? ==> s.phase.deadline <= QuietSince(s) + DEBOUNCE)
    && (s.phase.Debouncing? && !s.flag ==> s.phase.deadline == QuietSince(s) + DEBOUNCE)
  }

  /** No gap of more than `DEBOUNCE` between the signals of a wait, once it is being debounced. */
  ghost predicate Restless(signals: seq<Signal>, wait: Wait, upTo: nat)
    requires upTo <= |signals|
  {
    && (wait.pending && wait.heard < upTo ==> signals[wait.heard].time - wait.since <= DEBOUNCE)
    && (forall i, j :: wait.heard <= i < j < upTo && j == i + 1 ==> signals[j].time - signals[i].time <= DEBOUNCE)
  }

  lemma TimesStep(s: State, a: Action)
    requires Times(s) && Enabled(s, a)
    ensures Times(Step(s, a))
  {
    var s' := Step(s, a);
    forall i | 0 <= i < |s'.signals| ensures s'.signals[i].time <= s'.now {
      assert i < |s.signals| ==> s'.signals[i] == s.signals[i];
    }
  }

  lemma DeadlinesStep(s: State, a: Action)
    requires Times(s) && Deadlines(s) && Enabled(s, a)
    ensures Deadlines(Step(s, a))
  {
  }

  lemma RestlessStep(s: State, a: Action)
    requires Times(s) && Deadlines(s) && Enabled(s, a)
    requires Waiting(s) ==> Restless(s.signals, s.wait, |s.signals|)
    ensures var s' := Step(s, a);
            s'.wait.heard <= |s'.signals| && (Waiting(s') ==> Restless(s'.signals, s'.wait, |s'.signals|))
  {
  }

  // ---------------------------------------------------------------------------
  // Invariant: wake-ups
  // ---------------------------------------------------------------------------

  /** The timer's own latest attempt. */
  function LastTimer(attempts: seq<Attempt>): Option<Attempt> {
    if attempts == [] then None
    else if !attempts[|attempts| - 1].cause.Elsewhere? then Some(attempts[|attempts| - 1])
    else LastTimer(attempts[..|attempts| - 1])
  }

  lemma LastTimerSnoc(attempts: seq<Attempt>, a: Attempt)
    ensures LastTimer(attempts + [a]) == if a.cause.Elsewhere? then LastTimer(attempts) else Some(a)
  {
    assert (attempts + [a])[..|attempts|] == attempts;
  }

  lemma {:induction false} LastTimerIsThere(attempts: seq<Attempt>)
    ensures LastTimer(attempts).Some? ==> LastTimer(attempts).value in attempts && !LastTimer(attempts).value.cause.Elsewhere?
    decreases |attempts|
  {
    if attempts != [] {
      LastTimerIsThere(attempts[..|attempts| - 1]);
    }
  }

  /** How many signals that attempt had behind it. */
  function SeenBy(last: Option<Attempt>): nat {
    if last.None? then 0 else last.value.seen
  }

  /** What the flag and the debounce have to do with the timer's latest attempt. */
  ghost predicate WakeUps(phase: Phase, flag: bool, heard: nat, last: Option<Attempt>) {
    && SeenBy(last) <= heard
    && (phase.Starting? ==> last.None?)
    && (SeenBy(last) < heard ==> flag || phase.Debouncing?)
    && (heard > 0 && (last.None? || last.value.cause.Startup?) ==> flag || phase.Debouncing?)
    && (flag || phase.Debouncing? ==> heard > 0 && (SeenBy(last) < heard || (last.Some? && last.value.cause.Startup?)))
  }

  ghost predicate NoneLost(s: State) {
    WakeUps(s.phase, s.flag, |s.signals|, LastTimer(s.attempts))
  }

  lemma NoneLostStep(s: State, a: Action)
    requires NoneLost(s) && Enabled(s, a)
    ensures NoneLost(Step(s, a))
  {
    match a
    case Begin(_) => LastTimerSnoc(s.attempts, AttemptOf(s, Startup));
    case Expire => LastTimerSnoc(s.attempts, AttemptOf(s, if s.phase.Idle? then Interval else Debounced));
    case RunElsewhere => LastTimerSnoc(s.attempts, AttemptOf(s, Elsewhere));
    case _ =>
  }

  // ---------------------------------------------------------------------------
  // Invariant: dirty marks
  // ---------------------------------------------------------------------------

  /** A run that really ran, whoever started it, and started after signal `j`. */
  predicate Follows(a: Attempt, j: nat) {
    !a.locked && j < a.seen
  }

  ghost predicate Unfollowed(attempts: seq<Attempt>, j: nat) {
    forall k :: 0 <= k < |attempts| ==> !Follows(attempts[k], j)
  }

  /** The marks of a signal stay until a run that follows it. */
  ghost predicate Kept(dirty: set<string>, signals: seq<Signal>, attempts: seq<Attempt>) {
    forall j :: 0 <= j < |signals| && Unfollowed(attempts, j) ==> signals[j].marks <= dirty
  }

  lemma AttemptKeeps(s: State, cause: Cause)
    requires Kept(s.dirty, s.signals, s.attempts)
    ensures var s' := Attempted(s, cause); Kept(s'.dirty, s'.signals, s'.attempts)
  {
    var s' := Attempted(s, cause);
    forall j | 0 <= j < |s'.signals| && Unfollowed(s'.attempts, j) ensures s'.signals[j].marks <= s'.dirty {
      assert forall k :: 0 <= k < |s.attempts| ==> s'.attempts[k] == s.attempts[k];
      assert Unfollowed(s.attempts, j);
      assert !Follows(s'.attempts[|s.attempts|], j);
    }
  }

  lemma KeptStep(s: State, a: Action)
    requires Kept(s.dirty, s.signals, s.attempts) && Enabled(s, a)
    ensures var s' := Step(s, a); Kept(s'.dirty, s'.signals, s'.attempts)
  {
    match a
    case Begin(ready) => if ready { AttemptKeeps(s, Startup); }
    case Expire => AttemptKeeps(s, if s.phase.Idle? then Interval else Debounced);
    case RunElsewhere => AttemptKeeps(s, Elsewhere);
    case Hear(e) =>
      forall j | 0 <= j < |s.signals| ensures Step(s, a).signals[j] == s.signals[j] {
      }
    case _ =>
  }

  // ---------------------------------------------------------------------------
  // Invariant: the log of attempts
  // ---------------------------------------------------------------------------

  /** An attempt that comes on the interval: the wait was undisturbed. */
  ghost predicate OnInterval(a: Attempt, interval: nat) {
    a.time == a.wait.since + interval && a.wait.heard == a.seen && !a.wait.pending
  }

  /** A debounced attempt: exactly `DEBOUNCE` after the last disturbance, and at the first such gap. */
  ghost predicate AfterQuiet(a: Attempt, signals: seq<Signal>)
    requires a.seen <= |signals|
  {
    && a.time == QuietFrom(signals, a.wait, a.seen) + DEBOUNCE
    && (a.wait.heard < a.seen || a.wait.pending)
    && Restless(signals, a.wait, a.seen)
    && (forall i :: 0 <= i < a.seen ==> signals[i].time <= QuietFrom(signals, a.wait, a.seen))
    && a.wait.since <= QuietFrom(signals, a.wait, a.seen)
    && (forall i :: a.wait.heard <= i < a.seen ==> a.wait.since <= signals[i].time)
  }

  /** What every attempt looks like, given the signals and the attempts before it. */
  ghost predicate Justified(a: Attempt, last: Option<Attempt>, signals: seq<Signal>, interval: nat) {
    && a.seen <= |signals|
    && (a.cause.Startup? ==> last.None?)
    && (a.cause.Interval? ==> a.seen == SeenBy(last) && OnInterval(a, interval))
    && (a.cause.Debounced? ==>
          && (SeenBy(last) < a.seen || (last.Some? && last.value.cause.Startup?))
          && AfterQuiet(a, signals))
  }

  /** The first run that follows a signal takes its marks. */
  ghost predicate TakesFirst(a: Attempt, before: seq<Attempt>, signals: seq<Signal>) {
    forall j :: 0 <= j < a.seen && j < |signals| && !a.locked && Unfollowed(before, j) ==>
      a.full || signals[j].marks <= a.taken
  }

  ghost predicate Log(signals: seq<Signal>, attempts: seq<Attempt>, interval: nat) {
    forall k :: 0 <= k < |attempts| ==>
      && Justified(attempts[k], LastTimer(attempts[..k]), signals, interval)
      && TakesFirst(attempts[k], attempts[..k], signals)
  }

  lemma JustifiedStays(a: Attempt, last: Option<Attempt>, signals: seq<Signal>, interval: nat, x: Signal)
    requires Justified(a, last, signals, interval)
    ensures Justified(a, last, signals + [x], interval)
  {
    assert forall j :: 0 <= j < a.seen ==> (signals + [x])[j] == signals[j];
  }

  lemma LogHears(signals: seq<Signal>, attempts: seq<Attempt>, interval: nat, x: Signal)
    requires Log(signals, attempts, interval)
    ensures Log(signals + [x], attempts, interval)
  {
    forall k | 0 <= k < |attempts|
      ensures Justified(attempts[k], LastTimer(attempts[..k]), signals + [x], interval)
      ensures TakesFirst(attempts[k], attempts[..k], signals + [x])
    {
      JustifiedStays(attempts[k], LastTimer(attempts[..k]), signals, interval, x);
      assert forall j :: 0 <= j < attempts[k].seen ==> (signals + [x])[j] == signals[j];
    }
  }

  lemma LogAppend(signals: seq<Signal>, attempts: seq<Attempt>, interval: nat, a: Attempt)
    requires Log(signals, attempts, interval)
    requires Justified(a, LastTimer(attempts), signals, interval) && TakesFirst(a, attempts, signals)
    ensures Log(signals, attempts + [a], interval)
  {
    var all := attempts + [a];
    forall k | 0 <= k < |all|
      ensures Justified(all[k], LastTimer(all[..k]), signals, interval) && TakesFirst(all[k], all[..k], signals)
    {
      if k < |attempts| {
        assert all[..k] == attempts[..k];
      } else {
        assert all[..k] == attempts;
      }
    }
  }

  lemma IntervalJustified(s: State)
    requires NoneLost(s) && Deadlines(s) && s.phase.Idle? && !s.flag && s.now == s.phase.deadline
    ensures Justified(AttemptOf(s, Interval), LastTimer(s.attempts), s.signals, s.interval)
  {
  }

  lemma DebouncedJustified(s: State)
    requires NoneLost(s) && Deadlines(s) && Times(s) && s.phase.Debouncing? && !s.flag && s.now == s.phase.deadline
    requires Restless(s.signals, s.wait, |s.signals|)
    ensures Justified(AttemptOf(s, Debounced), LastTimer(s.attempts), s.signals, s.interval)
  {
  }

  lemma AttemptTakesFirst(s: State, cause: Cause)
    requires Kept(s.dirty, s.signals, s.attempts)
    ensures TakesFirst(AttemptOf(s, cause), s.attempts, s.signals)
  {
  }

  lemma LogStep(s: State, a: Action)
    requires Inv(s) && Enabled(s, a)
    ensures Log(Step(s, a).signals, Step(s, a).attempts, s.interval)
  {
    match a
    case Hear(e) =>
      if External(e) { LogHears(s.signals, s.attempts, s.interval, Signal(s.now, Marks(e.affected))); }
    case Begin(ready) =>
      AttemptTakesFirst(s, Startup);
      if ready { LogAppend(s.signals, s.attempts, s.interval, AttemptOf(s, Startup)); }
    case Expire =>
      var cause := if s.phase.Idle? then Interval else Debounced;
      AttemptTakesFirst(s, cause);
      if s.phase.Idle? { IntervalJustified(s); } else { DebouncedJustified(s); }
      LogAppend(s.signals, s.attempts, s.interval, AttemptOf(s, cause));
    case RunElsewhere =>
      AttemptTakesFirst(s, Elsewhere);
      LogAppend(s.signals, s.attempts, s.interval, AttemptOf(s, Elsewhere));
    case _ =>
  }

  // ---------------------------------------------------------------------------
  // Invariant: how many runs the signals pay for
  // ---------------------------------------------------------------------------

  function DebouncedRuns(attempts: seq<Attempt>): nat {
    if attempts == [] then 0
    else DebouncedRuns(attempts[..|attempts| - 1]) + (if attempts[|attempts| - 1].cause.Debounced? then 1 else 0)
  }

  lemma DebouncedRunsSnoc(attempts: seq<Attempt>, a: Attempt)
    ensures DebouncedRuns(attempts + [a]) == DebouncedRuns(attempts) + if a.cause.Debounced? then 1 else 0
  {
    assert (attempts + [a])[..|attempts|] == attempts;
  }

  ghost predicate Paid(s: State) {
    DebouncedRuns(s.attempts) + (if s.phase.Debouncing? then 1 else 0) + (if s.flag then 1 else 0) <= |s.signals|
  }

  lemma PaidStep(s: State, a: Action)
    requires Paid(s) && Enabled(s, a)
    ensures Paid(Step(s, a))
  {
    match a
    case Begin(_) => DebouncedRunsSnoc(s.attempts, AttemptOf(s, Startup));
    case Expire => DebouncedRunsSnoc(s.attempts, AttemptOf(s, if s.phase.Idle? then Interval else Debounced));
    case RunElsewhere => DebouncedRunsSnoc(s.attempts, AttemptOf(s, Elsewhere));
    case _ =>
  }

  // ---------------------------------------------------------------------------
  // Whole runs
  // ---------------------------------------------------------------------------

  ghost predicate Inv(s: State) {
    && Times(s) && Deadlines(s) && (Waiting(s) ==> Restless(s.signals, s.wait, |s.signals|))
    && NoneLost(s) && Paid(s)
    && Kept(s.dirty, s.signals, s.attempts) && Log(s.signals, s.attempts, s.interval)
  }

  lemma StepInv(s: State, a: Action)
    requires Inv(s) && Enabled(s, a)
    ensures Inv(Step(s, a)) && Step(s, a).interval == s.interval
  {
    TimesStep(s, a);
    DeadlinesStep(s, a);
    RestlessStep(s, a);
    NoneLostStep(s, a);
    PaidStep(s, a);
    KeptStep(s, a);
    LogStep(s, a);
  }

  lemma {:induction false} RunInv(s: State, actions: seq<Action>)
    requires Inv(s) && Valid(s, actions)
    ensures Inv(Run(s, actions))
    decreases |actions|
  {
    if actions != [] {
      StepInv(s, actions[0]);
      RunInv(Step(s, actions[0]), actions[1..]);
    }
  }

  ghost predicate Reachable(s: State) {
    exists now, interval, actions :: Valid(Initial(now, interval), actions) && s == Run(Initial(now, interval), actions)
  }

  lemma ReachableInv(s: State)
    requires Reachable(s)
    ensures Inv(s)
  {
    var now, interval, actions :| Valid(Initial(now, interval), actions) && s == Run(Initial(now, interval), actions);
    RunInv(Initial(now, interval), actions);
  }

  lemma {:induction false} RunConcat(s: State, a: seq<Action>, b: seq<Action>)
    requires Valid(s, a) && Valid(Run(s, a), b)
    ensures Valid(s, a + b) && Run(s, a + b) == Run(Run(s, a), b)
    decreases |a|
  {
    if a == [] {
      assert a + b == b;
    } else {
      assert (a + b)[1..] == a[1..] + b;
      RunConcat(Step(s, a[0]), a[1..], b);
    }
  }

  lemma StillReachable(s: State, more: seq<Action>)
    requires Reachable(s) && Valid(s, more)
    ensures Reachable(Run(s, more))
  {
    var now, interval, actions :| Valid(Initial(now, interval), actions) && s == Run(Initial(now, interval), actions);
    RunConcat(Initial(now, interval), actions, more);
  }

  /** One more step from a reachable state. */
  lemma Then(s: State, a: Action) returns (s': State)
    requires Reachable(s) && Enabled(s, a)
    ensures s' == Step(s, a) && Reachable(s')
  {
    s' := Step(s, a);
    assert [a][1..] == [];
    assert Valid(s', []) && Run(s, [a]) == s';
    StillReachable(s, [a]);
  }

  lemma Starts(now: int, interval: nat)
    ensures Reachable(Initial(now, interval))
  {
    assert Valid(Initial(now, interval), []);
    assert Run(Initial(now, interval), []) == Initial(now, interval);
  }

  // ---------------------------------------------------------------------------
  // Wake-ups: kept unless another caller holds the lock
  // ---------------------------------------------------------------------------

  /** The timer's latest attempt, for all the signals so far, was skipped because another caller held the lock. */
  predicate LastWasSkipped(s: State) {
    var last := LastTimer(s.attempts);
    last.Some? && last.value.locked && !last.value.cause.Startup? && last.value.seen == |s.signals|
  }

  /**
   * A signal that no run has followed has the flag up, or is being debounced and then tried 30 seconds after the last
   * disturbance of the wait; except exactly when the timer's latest attempt was skipped because of the lock, and no
   * signal has come since. Even then its marks stay, and the timer tries again when the interval is over.
   */
  lemma WakeUpLostExactly(s: State, j: nat)
    requires Reachable(s) && j < |s.signals| && Unfollowed(s.attempts, j)
    ensures !s.flag && !s.phase.Debouncing? <==> LastWasSkipped(s)
    ensures s.phase.Debouncing? && !s.flag ==> s.now <= s.phase.deadline == QuietSince(s) + DEBOUNCE
    ensures s.phase.Idle? ==> s.now <= s.phase.deadline == s.wait.since + s.interval
    ensures s.signals[j].marks <= s.dirty
  {
    ReachableInv(s);
    LastTimerIsThere(s.attempts);
    var last := LastTimer(s.attempts);
    if last.Some? {
      var k :| 0 <= k < |s.attempts| && s.attempts[k] == last.value;
      assert !Follows(s.attempts[k], j);
    }
  }

  /** So none is lost as long as no attempt of the timer finds the lock held. */
  lemma NoLostWakeUp(s: State, j: nat)
    requires Reachable(s) && j < |s.signals| && Unfollowed(s.attempts, j)
    requires forall k :: 0 <= k < |s.attempts| ==> !s.attempts[k].locked
    ensures s.flag || s.phase.Debouncing?
  {
    WakeUpLostExactly(s, j);
    LastTimerIsThere(s.attempts);
  }

  /** A signal is debounced while another caller holds the lock: the attempt is skipped, and nothing recalls the signal. */
  lemma LockLosesAWakeUp(now: int, interval: nat, e: Event) returns (s: State)
    requires External(e)
    ensures Reachable(s) && s.phase == Idle(s.now + interval) && !s.flag
    ensures |s.signals| == 1 && Unfollowed(s.attempts, 0) && LastWasSkipped(s) && Marks(e.affected) <= s.dirty
  {
    Starts(now, interval);
    s := FirstRunDone(now, interval);
    s := Then(s, Hear(e));
    s := Then(s, Wake);
    s := Then(s, HoldLock);
    s := SkippedAttempt(s);
    LastTimerSnoc(s.attempts[..1], s.attempts[1]);
    assert s.attempts == s.attempts[..1] + [s.attempts[1]];
  }

  lemma FirstRunDone(now: int, interval: nat) returns (s: State)
    ensures Reachable(s) && s.interval == interval
    ensures s.phase == Idle(now + interval) && s.now == now && !s.flag && s.lock == Free && s.signals == [] && s.dirty == {}
    ensures |s.attempts| == 1 && s.attempts[0].cause.Startup? && s.attempts[0].seen == 0 && s.wait == Wait(now, 0, false)
  {
    Starts(now, interval);
    s := Then(Initial(now, interval), Begin(true));
    s := Then(s, RunEnds);
    s := Then(s, Finish);
  }

  lemma SkippedAttempt(s: State) returns (s': State)
    requires Reachable(s) && s.phase == Debouncing(s.now + DEBOUNCE) && !s.flag && s.lock == HeldElsewhere
    ensures Reachable(s') && s'.phase == Idle(s'.now + s.interval) && !s'.flag
    ensures s'.signals == s.signals && s'.dirty == s.dirty && |s'.attempts| == |s.attempts| + 1
    ensures s'.attempts[..|s.attempts|] == s.attempts
    ensures var a := s'.attempts[|s.attempts|]; a.locked && a.cause.Debounced? && a.seen == |s.signals|
  {
    s' := Then(s, Tick(DEBOUNCE));
    s' := Then(s', Expire);
    s' := Then(s', Finish);
  }

  /** The first run that starts after a signal, whoever starts it, takes every cluster the signal marked. */
  lemma FirstRunTakesTheMarks(s: State, j: nat, k: nat)
    requires Reachable(s) && j < |s.signals| && k < |s.attempts| && Follows(s.attempts[k], j)
    requires forall i :: 0 <= i < k ==> !Follows(s.attempts[i], j)
    ensures s.attempts[k].full || s.signals[j].marks <= s.attempts[k].taken
  {
    ReachableInv(s);
    assert TakesFirst(s.attempts[k], s.attempts[..k], s.signals);
  }

  /** And until then they are all in the dirty set. */
  lemma MarksWait(s: State, j: nat)
    requires Reachable(s) && j < |s.signals| && Unfollowed(s.attempts, j)
    ensures s.signals[j].marks <= s.dirty
  {
    ReachableInv(s);
  }

  /** What one step does to the dirty set: ids come in by being named, and a run that is not the first takes them all. */
  lemma DirtyExactly(s: State, a: Action, id: string)
    requires Enabled(s, a)
    ensures var s' := Step(s, a);
            var runs := |s'.attempts| == |s.attempts| + 1 && !s'.attempts[|s.attempts|].locked;
            && (id in s'.dirty <==>
                  || (id in s.dirty && !(runs && !s'.attempts[|s.attempts|].full))
                  || (a.Hear? && a.event.kind in {"domain_created", "taxonomy_changed"}
                      && a.event.trigger !in {"warm_path", "cold_path", "candidate_evaluation"}
                      && id in a.event.affected && id != "")
                  || (a.MarkDirty? && id in a.ids))
            && (runs ==> s'.attempts[|s.attempts|].full || s'.attempts[|s.attempts|].taken == s.dirty)
            && (|s'.attempts| == |s.attempts| + 1 && !runs ==> s'.attempts[|s.attempts|].taken == {})
  {
  }

  ghost predicate FirstIsFull(s: State) {
    && (s.firstCycle <==> forall i :: 0 <= i < |s.attempts| ==> s.attempts[i].locked)
    && forall k :: 0 <= k < |s.attempts| ==>
         (s.attempts[k].full <==> !s.attempts[k].locked && forall i :: 0 <= i < k ==> s.attempts[i].locked)
  }

  lemma AttemptKeepsFull(s: State, cause: Cause)
    requires FirstIsFull(s)
    ensures FirstIsFull(Attempted(s, cause))
  {
    var s' := Attempted(s, cause);
    assert forall k :: 0 <= k < |s.attempts| ==> s'.attempts[k] == s.attempts[k];
    assert s'.attempts[|s.attempts|] == AttemptOf(s, cause);
  }

  lemma {:induction false} RunKeepsFull(s: State, actions: seq<Action>)
    requires Valid(s, actions) && FirstIsFull(s)
    ensures FirstIsFull(Run(s, actions))
    decreases |actions|
  {
    if actions != [] {
      match actions[0] {
        case Begin(ready) => if ready { AttemptKeepsFull(s, Startup); }
        case Expire => AttemptKeepsFull(s, if s.phase.Idle? then Interval else Debounced);
        case RunElsewhere => AttemptKeepsFull(s, Elsewhere);
        case _ =>
      }
      RunKeepsFull(Step(s, actions[0]), actions[1..]);
    }
  }

  /** Only the first run that is not skipped looks at every cluster. */
  lemma FullIsFirst(s: State, k: nat)
    requires Reachable(s) && k < |s.attempts|
    ensures s.attempts[k].full <==> !s.attempts[k].locked && forall i :: 0 <= i < k ==> s.attempts[i].locked
  {
    var now, interval, actions :| Valid(Initial(now, interval), actions) && s == Run(Initial(now, interval), actions);
    RunKeepsFull(Initial(now, interval), actions);
  }

  lemma {:induction false} RunKeepsHolder(s: State, actions: seq<Action>)
    requires Valid(s, actions) && (s.lock.HeldByTimer? ==> s.phase.Running?)
    ensures Run(s, actions).lock.HeldByTimer? ==> Run(s, actions).phase.Running?
    decreases |actions|
  {
    if actions != [] {
      RunKeepsHolder(Step(s, actions[0]), actions[1..]);
    }
  }

  /**
   * The timer holds the lock only while it is running. Its attempt takes a free lock, and is skipped without touching one
   * that is held; what another caller takes is not the timer's.
   */
  lemma LockExactly(s: State)
    requires Reachable(s)
    ensures s.lock.HeldByTimer? ==> s.phase.Running?
    ensures Enabled(s, Expire) ==> Step(s, Expire).lock == if s.lock.Free? then HeldByTimer else HeldElsewhere
    ensures s.lock.Free? ==> Step(s, RunElsewhere).lock == HeldElsewhere && Step(s, HoldLock).lock == HeldElsewhere
    ensures s.lock.Free? ==> Step(s, RunElsewhere).phase == s.phase
  {
    var now, interval, actions :| Valid(Initial(now, interval), actions) && s == Run(Initial(now, interval), actions);
    RunKeepsHolder(Initial(now, interval), actions);
  }

  /** The history only grows, and later attempts have seen at least the signals there were. */
  lemma {:induction false} RunAppends(s: State, actions: seq<Action>)
    requires Valid(s, actions)
    ensures var s' := Run(s, actions);
            && s.attempts <= s'.attempts && s.signals <= s'.signals
            && forall k :: |s.attempts| <= k < |s'.attempts| ==> s'.attempts[k].seen >= |s.signals|
    decreases |actions|
  {
    if actions != [] {
      RunAppends(Step(s, actions[0]), actions[1..]);
    }
  }

  /**
   * From the event on: once an event that gets through has named a cluster, the cluster is dirty until a run really
   * starts, and the first one that does takes it, or looks at every cluster.
   */
  lemma FirstRunTakesTheEvent(s: State, e: Event, id: string, more: seq<Action>, k: nat)
    requires Reachable(s) && Valid(Step(s, Hear(e)), more)
    requires e.kind in {"domain_created", "taxonomy_changed"}
    requires e.trigger !in {"warm_path", "cold_path", "candidate_evaluation"}
    requires id in e.affected && id != ""
    ensures var n, s' := |s.attempts|, Run(Step(s, Hear(e)), more);
            && n <= |s'.attempts|
            && ((forall i :: n <= i < |s'.attempts| ==> s'.attempts[i].locked) ==> id in s'.dirty)
            && (n <= k < |s'.attempts| && !s'.attempts[k].locked && (forall i :: n <= i < k ==> s'.attempts[i].locked) ==>
                  s'.attempts[k].full || id in s'.attempts[k].taken)
  {
    var s1 := Then(s, Hear(e));
    RunAppends(s1, more);
    StillReachable(s1, more);
    ReachableInv(s);
    ReachableInv(s1);
    var n, j, s' := |s.attempts|, |s.signals|, Run(s1, more);
    assert s1.signals[j] == Signal(s.now, Marks(e.affected)) && s'.signals[j] == s1.signals[j];
    assert id in s'.signals[j].marks;
    OldAttemptsAreOld(s, s', j);
    if forall i :: n <= i < |s'.attempts| ==> s'.attempts[i].locked {
      MarksWait(s', j);
    }
    if n <= k < |s'.attempts| && !s'.attempts[k].locked && forall i :: n <= i < k ==> s'.attempts[i].locked {
      FirstRunTakesTheMarks(s', j, k);
    }
  }

  lemma OldAttemptsAreOld(s: State, s': State, j: nat)
    requires Inv(s) && s.attempts <= s'.attempts && j == |s.signals|
    ensures forall i :: 0 <= i < |s.attempts| ==> !Follows(s'.attempts[i], j)
  {
    forall i | 0 <= i < |s.attempts| ensures !Follows(s'.attempts[i], j) {
      assert s'.attempts[i] == s.attempts[i];
      assert Justified(s.attempts[i], LastTimer(s.attempts[..i]), s.signals, s.interval);
    }
  }

  /**
   * The timer is never stuck: one of its own steps is always possible, if only after time has passed to its deadline.
   * Events and marks can come at any time, and another caller can take the lock whenever it is free.
   */
  lemma NeverStuck(s: State, e: Event, ids: set<string>)
    requires Reachable(s)
    ensures Enabled(s, Hear(e)) && Enabled(s, MarkDirty(ids))
    ensures s.lock.Free? ==> Enabled(s, RunElsewhere) && Enabled(s, HoldLock)
    ensures s.lock.HeldElsewhere? ==> Enabled(s, ReleaseLock)
    ensures match s.phase
            case Starting => Enabled(s, Begin(true)) && Enabled(s, Begin(false))
            case Running => Enabled(s, RunEnds) || Enabled(s, Finish)
            case _ =>
              if s.flag then Enabled(s, Wake)
              else s.now <= s.phase.deadline && Enabled(s, Tick(s.phase.deadline - s.now))
                   && Enabled(Step(s, Tick(s.phase.deadline - s.now)), Expire)
  {
    ReachableInv(s);
  }

  // ---------------------------------------------------------------------------
  // When the timer tries
  // ---------------------------------------------------------------------------

  /**
   * Every attempt of the timer has a cause. A debounced one starts exactly 30 seconds after the last disturbance of its
   * wait, and for a signal that no earlier attempt has seen (the startup run apart); one on the interval starts exactly
   * at its end, and every signal before it has had a run or an attempt that was skipped.
   */
  lemma RunsHaveCauses(s: State, k: nat)
    requires Reachable(s) && k < |s.attempts|
    ensures var a, last := s.attempts[k], LastTimer(s.attempts[..k]);
            && a.seen <= |s.signals|
            && (a.cause.Startup? ==> last.None?)
            && (a.cause.Interval? ==> a.time == a.wait.since + s.interval && a.wait.heard == a.seen == SeenBy(last))
            && (a.cause.Debounced? ==> a.time == QuietFrom(s.signals, a.wait, a.seen) + 30_000)
            && (a.cause.Debounced? ==> forall j :: 0 <= j < a.seen ==> s.signals[j].time + 30_000 <= a.time)
            && (a.cause.Debounced? ==> SeenBy(last) < a.seen || (last.Some? && last.value.cause.Startup?))
            && (a.cause.Interval? ==> forall j :: 0 <= j < a.seen && Unfollowed(s.attempts[..k], j) ==> last.value.locked)
  {
    ReachableInv(s);
    var a, last := s.attempts[k], LastTimer(s.attempts[..k]);
    assert Justified(a, last, s.signals, s.interval);
    LastTimerIsThere(s.attempts[..k]);
    if a.cause.Interval? {
      forall j | 0 <= j < a.seen && Unfollowed(s.attempts[..k], j) ensures last.value.locked {
        var i :| 0 <= i < k && s.attempts[..k][i] == last.value;
        assert !Follows(s.attempts[..k][i], j);
      }
    }
  }

  /** `q` is a disturbance of the wait: its start with the flag up, or a signal. */
  ghost predicate Disturbance(signals: seq<Signal>, wait: Wait, upTo: nat, q: int)
    requires upTo <= |signals|
  {
    (wait.pending && q == wait.since) || exists i :: wait.heard <= i < upTo && signals[i].time == q
  }

  /** No signal of the wait falls into the 30 seconds after `q`. */
  ghost predicate QuietAfter(signals: seq<Signal>, wait: Wait, upTo: nat, q: int)
    requires upTo <= |signals|
  {
    forall i :: wait.heard <= i < upTo ==> !(q < signals[i].time <= q + DEBOUNCE)
  }

  /** The disturbances of a wait leave a gap of 30 seconds that is over by `bound`. */
  ghost predicate GapBy(signals: seq<Signal>, wait: Wait, upTo: nat, bound: int)
    requires upTo <= |signals|
  {
    exists q :: Disturbance(signals, wait, upTo, q) && QuietAfter(signals, wait, upTo, q) && q + DEBOUNCE <= bound
  }

  /** Nothing comes after a quiet disturbance: the wait would be over. */
  lemma {:induction false} NothingAfterQuiet(signals: seq<Signal>, wait: Wait, upTo: nat, q: int, from: nat, i: nat)
    requires wait.heard <= from <= i < upTo <= |signals|
    requires Restless(signals, wait, upTo) && QuietAfter(signals, wait, upTo, q) && signals[from].time <= q
    ensures signals[i].time <= q
    decreases i - from
  {
    if from < i {
      NothingAfterQuiet(signals, wait, upTo, q, from, i - 1);
      assert signals[i].time - signals[i - 1].time <= DEBOUNCE;
    }
  }

  lemma QuietIsLast(signals: seq<Signal>, wait: Wait, upTo: nat, q: int)
    requires upTo <= |signals| && Restless(signals, wait, upTo)
    requires Disturbance(signals, wait, upTo, q) && QuietAfter(signals, wait, upTo, q)
    ensures wait.heard < upTo ==> signals[upTo - 1].time <= q
  {
    if wait.heard < upTo {
      if wait.pending && q == wait.since {
        assert signals[wait.heard].time <= q;
        NothingAfterQuiet(signals, wait, upTo, q, wait.heard, upTo - 1);
      } else {
        var i :| wait.heard <= i < upTo && signals[i].time == q;
        NothingAfterQuiet(signals, wait, upTo, q, i, upTo - 1);
      }
    }
  }

  /** The last disturbance, which is quiet. */
  lemma LastIsQuiet(signals: seq<Signal>, wait: Wait, upTo: nat)
    requires upTo <= |signals| && (wait.heard < upTo || wait.pending)
    requires forall i :: wait.heard <= i < upTo ==> signals[i].time <= QuietFrom(signals, wait, upTo)
    ensures var q := QuietFrom(signals, wait, upTo);
            Disturbance(signals, wait, upTo, q) && QuietAfter(signals, wait, upTo, q)
  {
    if wait.heard < upTo {
      assert signals[upTo - 1].time == QuietFrom(signals, wait, upTo);
    }
  }

  lemma QuietAttempt(a: Attempt, signals: seq<Signal>, bound: int)
    requires a.seen <= |signals| && AfterQuiet(a, signals)
    ensures a.time <= bound <==> GapBy(signals, a.wait, a.seen, bound)
  {
    LastIsQuiet(signals, a.wait, a.seen);
    if GapBy(signals, a.wait, a.seen, bound) {
      var q :| Disturbance(signals, a.wait, a.seen, q) && QuietAfter(signals, a.wait, a.seen, q) && q + DEBOUNCE <= bound;
      QuietIsLast(signals, a.wait, a.seen, q);
    }
  }

  /**
   * "On the interval or when signalled, whichever comes first" holds of an attempt exactly when its wait was not
   * disturbed, or when the disturbances leave a gap of 30 seconds that is over by the end of the interval.
   */
  lemma WithinTheIntervalExactly(s: State, k: nat)
    requires Reachable(s) && k < |s.attempts| && (s.attempts[k].cause.Interval? || s.attempts[k].cause.Debounced?)
    ensures var a := s.attempts[k];
            && a.seen <= |s.signals|
            && (a.time <= a.wait.since + s.interval <==>
                  || (a.wait.heard == a.seen && !a.wait.pending)
                  || GapBy(s.signals, a.wait, a.seen, a.wait.since + s.interval))
  {
    ReachableInv(s);
    var a := s.attempts[k];
    assert Justified(a, LastTimer(s.attempts[..k]), s.signals, s.interval);
    if a.cause.Debounced? {
      QuietAttempt(a, s.signals, a.wait.since + s.interval);
    }
  }

  /** And a wait outlasts the interval only while its disturbances leave no such gap. */
  lemma OverdueOnlyWhenRestless(s: State)
    requires Reachable(s) && Waiting(s) && s.now > s.wait.since + s.interval
    ensures s.wait.heard <= |s.signals| && s.phase.Debouncing?
    ensures !GapBy(s.signals, s.wait, |s.signals|, s.wait.since + s.interval)
  {
    ReachableInv(s);
    var bound := s.wait.since + s.interval;
    if GapBy(s.signals, s.wait, |s.signals|, bound) {
      var q :| Disturbance(s.signals, s.wait, |s.signals|, q) && QuietAfter(s.signals, s.wait, |s.signals|, q)
               && q + DEBOUNCE <= bound;
      QuietIsLast(s.signals, s.wait, |s.signals|, q);
    }
  }

  /** There are at most as many debounced attempts as signals, and only the events let through are signals. */
  lemma EveryRunIsPaidFor(s: State, e: Event)
    requires Reachable(s)
    ensures DebouncedRuns(s.attempts) <= |s.signals|
    ensures (Step(s, Hear(e)) == s <==> !External(e)) && (External(e) <==> |Step(s, Hear(e)).signals| == |s.signals| + 1)
  {
    ReachableInv(s);
  }

  // ---------------------------------------------------------------------------
  // Runs that hurry themselves
  // ---------------------------------------------------------------------------

  /** What the warm and the cold path publish on the bus, by themselves: kinds and triggers. */
  const OWN_EVENTS := {
    ("taxonomy_changed", "warm_path"),
    ("taxonomy_changed", "candidate_evaluation"),
    ("domain_created", ""),
    ("taxonomy_changed", "cold_path"),
    ("taxonomy_changed", "cold_path_rejected")
  }

  predicate IsOwn(e: Event) {
    (e.kind, e.trigger) in OWN_EVENTS
  }

  /** Two of them get through the filter that is to keep the paths from hurrying the timer. */
  lemma OwnEventsThatHurry(e: Event)
    requires IsOwn(e)
    ensures External(e) <==> e.kind == "domain_created" || e.trigger == "cold_path_rejected"
  {
  }

  /** So a run that discovers a domain brings about another run, with no signal from anywhere else. */
  lemma ARunCausesAnother(now: int, interval: nat) returns (s: State)
    ensures Reachable(s) && |s.attempts| == 2 && !s.attempts[1].locked
    ensures s.attempts[0].cause.Startup? && s.attempts[1].cause.Debounced? && s.attempts[0].seen == 0
    ensures s.signals == [Signal(s.attempts[0].time, {})] && IsOwn(Event("domain_created", "", []))
  {
    var e := Event("domain_created", "", []);
    Starts(now, interval);
    s := Then(Initial(now, interval), Begin(true));
    s := Then(s, Hear(e));
    assert Marks([]) == {};
    s := Then(s, RunEnds);
    s := Then(s, Finish);
    s := DebouncedRun(s);
  }

  lemma DebouncedRun(s: State) returns (s': State)
    requires Reachable(s) && s.phase.Idle? && s.flag && s.lock == Free
    ensures Reachable(s') && s'.signals == s.signals && |s'.attempts| == |s.attempts| + 1
    ensures s'.attempts[..|s.attempts|] == s.attempts
    ensures s'.attempts[|s.attempts|].cause.Debounced? && !s'.attempts[|s.attempts|].locked
  {
    s' := Then(s, Wake);
    s' := Then(s', Tick(DEBOUNCE));
    s' := Then(s', Expire);
  }

  // ---------------------------------------------------------------------------
  // The interval is not a bound
  // ---------------------------------------------------------------------------

  /** A signal every 29 seconds. */
  function Drip(e: Event, n: nat): seq<Action> {
    if n == 0 then [] else [Tick(29_000), Hear(e), Wake] + Drip(e, n - 1)
  }

  /**
   * "Every interval or when signalled, whichever comes first" does not hold: signals that keep coming put the run off
   * for as long as they come.
   */
  lemma {:induction false} SignalsCanStarveTheRun(s: State, e: Event, n: nat)
    requires s.phase == Debouncing(s.now + DEBOUNCE) && !s.flag && External(e) && s.signals != []
    ensures Valid(s, Drip(e, n))
    ensures var s' := Run(s, Drip(e, n));
            && s'.attempts == s.attempts && s'.now == s.now + 29_000 * n
            && |s'.signals| == |s.signals| + n && s'.signals[0] == s.signals[0]
    decreases n
  {
    if n > 0 {
      var s3 := OneDrop(s, e);
      SignalsCanStarveTheRun(s3, e, n - 1);
      RunConcat(s, [Tick(29_000), Hear(e), Wake], Drip(e, n - 1));
    }
  }

  lemma OneDrop(s: State, e: Event) returns (s': State)
    requires s.phase == Debouncing(s.now + DEBOUNCE) && !s.flag && External(e) && s.signals != []
    ensures Valid(s, [Tick(29_000), Hear(e), Wake]) && s' == Run(s, [Tick(29_000), Hear(e), Wake])
    ensures s'.phase == Debouncing(s'.now + DEBOUNCE) && !s'.flag && s'.now == s.now + 29_000
    ensures s'.attempts == s.attempts && |s'.signals| == |s.signals| + 1 && s'.signals[0] == s.signals[0]
  {
    var s1 := Step(s, Tick(29_000));
    var s2 := Step(s1, Hear(e));
    s' := Step(s2, Wake);
    Cons(s2, Wake, []);
    Cons(s1, Hear(e), [Wake]);
    Cons(s, Tick(29_000), [Hear(e), Wake]);
    assert [Wake] + [] == [Wake] && [Hear(e)] + [Wake] == [Hear(e), Wake];
    assert [Tick(29_000)] + [Hear(e), Wake] == [Tick(29_000), Hear(e), Wake];
  }

  lemma Cons(s: State, a: Action, rest: seq<Action>)
    requires Enabled(s, a) && Valid(Step(s, a), rest)
    ensures Valid(s, [a] + rest) && Run(s, [a] + rest) == Run(Step(s, a), rest)
  {
    assert ([a] + rest)[1..] == rest;
  }

  /** In particular no bound on the wait for a run holds for every reachable state. */
  lemma NoBoundOnWaiting(now: int, interval: nat, e: Event, n: nat) returns (s: State)
    requires External(e)
    ensures Reachable(s) && s.signals != [] && |s.attempts| == 1 && Unfollowed(s.attempts, 0)
    ensures s.now == s.signals[0].time + 29_000 * n
  {
    s := FirstRunDone(now, interval);
    s := Then(s, Hear(e));
    s := Then(s, Wake);
    SignalsCanStarveTheRun(s, e, n);
    StillReachable(s, Drip(e, n));
    s := Run(s, Drip(e, n));
  }

  // ---------------------------------------------------------------------------
  // The timer, the listener and the lock in place
  // ---------------------------------------------------------------------------

  class Timer {
    var now: int
    const interval: nat
    var phase: Phase
    var pending: bool
    var dirty: set<string>
    var firstCycle: bool
    var lock: Lock
    ghost var wait: Wait
    ghost var signals: seq<Signal>
    ghost var attempts: seq<Attempt>

    ghost function Value(): State
      reads this
    {
      State(now, interval, phase, pending, dirty, firstCycle, lock, wait, signals, attempts)
    }

    constructor (now: int, interval: nat)
      ensures Value() == Initial(now, interval)
    {
      this.now, this.interval, phase, pending, dirty := now, interval, Starting, false, {};
      firstCycle, lock, wait, signals, attempts := true, Free, Wait(now, 0, false), [], [];
    }

    /** The bridge that marks what another process changed; ids that are empty are passed over. */
    method ApplyDirtyMarks(affected: seq<string>)
      modifies this`dirty
      ensures dirty == old(dirty) + Marks(affected)
      ensures forall id :: id in dirty <==> id in old(dirty) || (id in affected && id != "")
    {
      for i := 0 to |affected|
        invariant dirty == old(dirty) + Marks(affected[..i])
      {
        assert affected[..i + 1] == affected[..i] + [affected[i]];
        if affected[i] == "" {
          continue;
        }
        dirty := dirty + {affected[i]};
      }
      assert affected[..|affected|] == affected;
    }

    method OnEvent(e: Event)
      modifies this
      ensures Value() == Step(old(Value()), Hear(e))
    {
      if e.kind == "domain_created" || e.kind == "taxonomy_changed" {
        if e.trigger != "warm_path" && e.trigger != "cold_path" && e.trigger != "candidate_evaluation" {
          ApplyDirtyMarks(e.affected);
          pending := true;
          signals := signals + [Signal(now, Marks(e.affected))];
        }
      }
    }

    /** `run_warm_path`, for whichever caller: skipped when locked; the first cycle leaves the dirty set alone. */
    method RunWarmPath(cause: Cause) returns (ran: bool, taken: Option<set<string>>)
      modifies this
      ensures Value() == Attempted(old(Value()), cause)
      ensures ran <==> old(lock).Free?
      ensures taken == if !ran || old(firstCycle) then None else Some(old(dirty))
    {
      attempts := attempts + [AttemptOf(Value(), cause)];
      if !cause.Elsewhere? {
        phase := Running;
      }
      if !lock.Free? {
        return false, None;
      }
      lock := if cause.Elsewhere? then HeldElsewhere else HeldByTimer;
      if firstCycle {
        firstCycle := false;
        return true, None;
      }
      taken := Some(dirty);
      dirty := {};
      return true, taken;
    }

    method WaitForEvents()
      modifies this
      ensures Value() == WaitAgain(old(Value()))
    {
      phase := Idle(now + interval);
      wait := Wait(now, |signals|, pending);
    }

    method Begin(ready: bool)
      requires Enabled(Value(), Action.Begin(ready))
      modifies this
      ensures Value() == Step(old(Value()), Action.Begin(ready))
    {
      if ready {
        var _, _ := RunWarmPath(Startup);
      } else {
        WaitForEvents();
      }
    }

    /** The pending event ends a wait: the debounce begins, or begins again. */
    method Wake()
      requires Enabled(Value(), Action.Wake)
      modifies this
      ensures Value() == Step(old(Value()), Action.Wake)
    {
      pending := false;
      phase := Debouncing(now + DEBOUNCE);
    }

    method Expire()
      requires Enabled(Value(), Action.Expire)
      modifies this
      ensures Value() == Step(old(Value()), Action.Expire)
    {
      var _, _ := RunWarmPath(if phase.Idle? then Interval else Debounced);
    }

    /** The end of the `async with` block of the timer's run. */
    method RunEnds()
      requires Enabled(Value(), Action.RunEnds)
      modifies this`lock
      ensures Value() == Step(old(Value()), Action.RunEnds)
    {
      lock := Free;
    }

    method Finish()
      requires Enabled(Value(), Action.Finish)
      modifies this
      ensures Value() == Step(old(Value()), Action.Finish)
    {
      WaitForEvents();
    }
  }
}
