/**
 Runs of manual, scheduled and retry attempts over the check-in table under a nondecreasing clock. The
 per-account mutex is not relied on (lock pruning can drop it): only the reservation excludes attempts.
 */
module CheckinRuns {
  import opened Basics
  import opened CheckinAttempt
  import opened CheckinStore

  /** Where an attempt in flight stands. `open` marks a claim that was not definitely refused and that
      the attempt itself did not confirm. */
  datatype Phase =
    | Reserved(origin: Origin)
    | Deciding(origin: Origin, confirmOnly: bool)
    | Claiming(origin: Origin)
    | Claimed(origin: Origin, reply: Reply)
    | Settling(origin: Origin, result: Result, open: bool)
    | Leaving

  /** `open` remembers, per account, the day an unresolved claim was recorded on; `retrying` the day an
      in-flight retry began on. Both are bookkeeping of the run, not state of the program. */
  datatype State = State(store: Store, phases: map<string, Phase>, now: int, open: map<string, int>, retrying: map<string, int>)

  datatype Step =
    | Tick(at: int)
    | ReserveStep(a: string, origin: Origin, victim: Option<string>)
    | Begin(a: string)
    | Bail(a: string, state: AttemptState)
    | ReadStatus(a: string, read: StatusRead)
    | SendClaim(a: string, reply: Reply)
    | Verify(a: string, read: StatusRead)
    | RecordStep(a: string)
    | Leave(a: string)
    | Sweep(auto: bool)
    | CancelStep(a: string)

  ghost predicate Monotone(cal: Calendar) {
    forall x, y :: x <= y ==> cal(x) <= cal(y)
  }

  predicate Enabled(s: State, step: Step, cal: Calendar) {
    match step
    case Tick(at) => s.now <= at
    case ReserveStep(a, _, victim) =>
      Reservable(s.store, a, cal(s.now)) && (a !in s.store.latest ==> RoomChoice(s.store, cal(s.now), victim))
    case Begin(a) => a in s.phases && s.phases[a].Reserved?
    case Bail(a, state) => a in s.phases && s.phases[a].Deciding?
    case ReadStatus(a, _) => a in s.phases && s.phases[a].Deciding?
    case SendClaim(a, _) => a in s.phases && s.phases[a].Claiming?
    case Verify(a, _) => a in s.phases && s.phases[a].Claimed?
    case RecordStep(a) => a in s.phases && s.phases[a].Settling?
    case Leave(a) => a in s.phases && s.phases[a].Leaving?
    case Sweep(_) => true
    case CancelStep(_) => true
  }

  function Move(s: State, a: string, phase: Phase): State {
    s.(phases := s.phases[a := phase])
  }

  /** A retry runs only when still due; every other attempt asks for the checkpoint. */
  function BeginAttempt(s: State, a: string, origin: Origin, cal: Calendar): State {
    var today := cal(s.now);
    if origin == Retry then
      var (confirmOnly, due) := RetryMode(s.store, a, s.now, today);
      if due then Move(s, a, Deciding(origin, confirmOnly)).(retrying := s.retrying[a := today]) else Move(s, a, Leaving)
    else Move(s, a, Deciding(origin, NeedsConfirmation(s.store, a, today)))
  }

  function FinishRecord(s: State, a: string, p: Phase, cal: Calendar): State
    requires p.Settling?
  {
    var open := if p.result.confirmed then s.open - {a} else if p.open then s.open[a := cal(s.now)] else s.open;
    Move(s, a, Leaving).(store := RecordOutcome(s.store, a, p.origin, p.result, s.now, cal, None), open := open, retrying := s.retrying - {a})
  }

  function Next(s: State, step: Step, cal: Calendar): State
    requires Enabled(s, step, cal)
  {
    match step
    case Tick(at) => s.(now := at)
    case ReserveStep(a, origin, victim) =>
      Move(s, a, Reserved(origin)).(store := Reserve(s.store, a, s.now, cal(s.now), victim))
    case Begin(a) => BeginAttempt(s, a, s.phases[a].origin, cal)
    case Bail(a, state) => Move(s, a, Settling(s.phases[a].origin, Result(state, false, false, false), false))
    case ReadStatus(a, read) =>
      var early := BeforeClaim(read, s.phases[a].confirmOnly);
      Move(s, a, if early.Some? then Settling(s.phases[a].origin, early.value, false) else Claiming(s.phases[a].origin))
    case SendClaim(a, reply) => Move(s, a, Claimed(s.phases[a].origin, reply))
    case Verify(a, read) =>
      var result := AfterClaim(PerformClaim(s.phases[a].reply), read);
      Move(s, a, Settling(s.phases[a].origin, result, !DefinitelyRefused(s.phases[a].reply) && !result.confirmed))
    case RecordStep(a) => FinishRecord(s, a, s.phases[a], cal)
    case Leave(a) => s.(phases := s.phases - {a}, store := Release(s.store, a))
    case Sweep(auto) => s.(store := SweepDue(s.store, cal(s.now), auto))
    case CancelStep(a) => s.(store := Cancel(s.store, a))
  }

  predicate Init(s: State) {
    s.store == Store(map[], [], {}) && s.phases == map[] && s.open == map[] && s.retrying == map[]
  }

  ghost predicate IsRun(ss: seq<State>, steps: seq<Step>, cal: Calendar) {
    && Monotone(cal)
    && |ss| == |steps| + 1 && Init(ss[0])
    && forall k {:trigger ss[k + 1]} {:trigger steps[k]} | 0 <= k < |steps| :: Enabled(ss[k], steps[k], cal) && ss[k + 1] == Next(ss[k], steps[k], cal)
  }

  // ----- the invariant -----

  ghost predicate StoreInv(s: Store) {
    && |s.latest| <= LATEST_LIMIT && |s.history| <= HISTORY_LIMIT
    && s.inFlight <= s.latest.Keys
    && (forall k | k in s.latest && s.latest[k].retryAllowed :: s.latest[k].retryCount < MAX_RETRIES && s.latest[k].nextRetry.Some?)
  }

  /** An account whose unresolved claim was recorded today still has its checkpoint. */
  predicate CheckpointOk(s: State, a: string, today: int) {
    a in s.open ==> s.open[a] <= today && (s.open[a] == today ==> NeedsConfirmation(s.store, a, today))
  }

  predicate PhaseOk(s: State, a: string, today: int)
    requires a in s.phases
  {
    match s.phases[a]
    case Reserved(_) => true
    case Leaving => true
    case Deciding(_, confirmOnly) => !confirmOnly && a in s.open ==> s.open[a] < today
    case Claiming(_) => a in s.open ==> s.open[a] < today
    case Settling(_, result, open) => open ==> result.confirmOnly && !result.confirmed
    case Claimed(_, _) => true
  }

  /** A retry in flight holds a record of the day it began on. */
  predicate RetryOk(s: State, a: string) {
    && a in s.phases && a in s.retrying && !s.phases[a].Reserved? && !s.phases[a].Leaving? && s.phases[a].origin == Retry
    && a in s.store.latest && s.store.latest[a].day == s.retrying[a]
  }

  ghost predicate Inv(s: State, cal: Calendar) {
    && StoreInv(s.store)
    && s.phases.Keys == s.store.inFlight
    && (forall a | a in s.retrying :: RetryOk(s, a))
    && (forall a | a in s.open :: CheckpointOk(s, a, cal(s.now)))
    && (forall a | a in s.phases :: PhaseOk(s, a, cal(s.now)))
  }

  lemma ReserveKeepsStore(s: Store, a: string, now: int, today: int, victim: Option<string>)
    requires StoreInv(s) && Reservable(s, a, today) && (a !in s.latest ==> RoomChoice(s, today, victim))
    ensures StoreInv(Reserve(s, a, now, today, victim))
  {}

  /** Making room never drops an account in flight, nor a record of today that is unresolved or has spent
      or may still spend a retry. */
  lemma ReserveKeepsProtected(s: Store, a: string, now: int, today: int, victim: Option<string>, k: string)
    requires Reservable(s, a, today) && (a !in s.latest ==> RoomChoice(s, today, victim))
    requires k in s.latest && !Evictable(s, k, today)
    ensures var s' := Reserve(s, a, now, today, victim); k in s'.latest && s'.latest[k] == s.latest[k]
  {}

  lemma ReserveMarks(s: Store, a: string, now: int, today: int, victim: Option<string>)
    requires Reservable(s, a, today)
    ensures Reserve(s, a, now, today, victim).inFlight == s.inFlight + {a}
  {}

  lemma ReserveShape(s: State, a: string, origin: Origin, victim: Option<string>, cal: Calendar)
    requires StoreInv(s.store) && s.phases.Keys == s.store.inFlight && Enabled(s, ReserveStep(a, origin, victim), cal)
    ensures var s' := Next(s, ReserveStep(a, origin, victim), cal);
            && StoreInv(s'.store) && s'.phases.Keys == s'.store.inFlight && s'.phases.Keys == s.phases.Keys + {a}
            && s'.open == s.open && s'.retrying == s.retrying && s'.now == s.now
  {
    ReserveKeepsStore(s.store, a, s.now, cal(s.now), victim);
    ReserveMarks(s.store, a, s.now, cal(s.now), victim);
    assert s.phases[a := Reserved(origin)].Keys == s.phases.Keys + {a};
  }

  lemma ReserveStepKeepsInv(s: State, a: string, origin: Origin, victim: Option<string>, cal: Calendar)
    requires Inv(s, cal) && Enabled(s, ReserveStep(a, origin, victim), cal)
    ensures Inv(Next(s, ReserveStep(a, origin, victim), cal), cal)
  {
    var s' := Next(s, ReserveStep(a, origin, victim), cal);
    ReserveShape(s, a, origin, victim, cal);
    forall k | k in s'.open ensures CheckpointOk(s', k, cal(s'.now)) { ReserveKeepsCheckpoint(s, a, origin, victim, cal, k); }
    forall k | k in s'.phases ensures PhaseOk(s', k, cal(s'.now)) { ReserveKeepsPhase(s, a, origin, victim, cal, k); }
    forall k | k in s'.retrying ensures RetryOk(s', k) { ReserveKeepsRetry(s, a, origin, victim, cal, k); }
  }

  lemma ReserveKeepsPhase(s: State, a: string, origin: Origin, victim: Option<string>, cal: Calendar, k: string)
    requires Enabled(s, ReserveStep(a, origin, victim), cal) && (k == a || (k in s.phases && PhaseOk(s, k, cal(s.now))))
    ensures PhaseOk(Next(s, ReserveStep(a, origin, victim), cal), k, cal(s.now))
  {}

  lemma ReserveKeepsRetry(s: State, a: string, origin: Origin, victim: Option<string>, cal: Calendar, k: string)
    requires Enabled(s, ReserveStep(a, origin, victim), cal) && RetryOk(s, k) && s.phases.Keys == s.store.inFlight
    ensures RetryOk(Next(s, ReserveStep(a, origin, victim), cal), k)
  {}

  lemma ReserveKeepsCheckpoint(s: State, a: string, origin: Origin, victim: Option<string>, cal: Calendar, k: string)
    requires Inv(s, cal) && Enabled(s, ReserveStep(a, origin, victim), cal) && k in s.open
    ensures CheckpointOk(Next(s, ReserveStep(a, origin, victim), cal), k, cal(s.now))
  {}

  lemma RecordKeepsStore(s: Store, a: string, origin: Origin, result: Result, now: int, cal: Calendar)
    requires StoreInv(s) && a in s.latest
    ensures var s' := RecordOutcome(s, a, origin, result, now, cal, None);
            && StoreInv(s') && s'.inFlight == s.inFlight && s'.latest.Keys == s.latest.Keys
            && forall k | k in s.latest && k != a :: s'.latest[k] == s.latest[k]
  {
    OutcomeMeaning(Some(s.latest[a]), origin, result, now, cal);
    var r := Outcome(Some(s.latest[a]), origin, result, now, cal);
    assert s.latest[a := r].Keys == s.latest.Keys;
  }

  lemma RecordShape(s: State, a: string, cal: Calendar)
    requires Inv(s, cal) && Enabled(s, RecordStep(a), cal)
    ensures var s' := Next(s, RecordStep(a), cal);
            && StoreInv(s'.store) && s'.phases.Keys == s'.store.inFlight && s'.now == s.now
            && s'.phases == s.phases[a := Leaving] && s'.retrying == s.retrying - {a}
            && s'.store.latest.Keys == s.store.latest.Keys
            && (forall k | k in s.store.latest && k != a :: s'.store.latest[k] == s.store.latest[k])
            && (s'.open == s.open - {a} || s'.open == s.open || s'.open == s.open[a := cal(s.now)])
  {
    var p := s.phases[a];
    RecordKeepsStore(s.store, a, p.origin, p.result, s.now, cal);
    assert s.phases[a := Leaving].Keys == s.phases.Keys;
    assert Next(s, RecordStep(a), cal) == FinishRecord(s, a, p, cal);
  }

  lemma RecordKeepsCheckpoint(s: State, a: string, cal: Calendar, k: string)
    requires Inv(s, cal) && Enabled(s, RecordStep(a), cal) && k in Next(s, RecordStep(a), cal).open
    ensures CheckpointOk(Next(s, RecordStep(a), cal), k, cal(s.now))
  {
    assert PhaseOk(s, a, cal(s.now));
    assert k in s.open ==> CheckpointOk(s, k, cal(s.now));
  }

  lemma RecordKeepsPhase(s: State, a: string, cal: Calendar, k: string)
    requires Inv(s, cal) && Enabled(s, RecordStep(a), cal) && k in s.phases
    ensures PhaseOk(Next(s, RecordStep(a), cal), k, cal(s.now))
  {
    RecordShape(s, a, cal);
    SamePhaseOk(s, Next(s, RecordStep(a), cal), a, k, cal(s.now));
  }

  lemma SamePhaseOk(s: State, s': State, a: string, k: string, today: int)
    requires k in s.phases && PhaseOk(s, k, today) && s'.phases == s.phases[a := Leaving]
    requires k != a ==> (k in s'.open <==> k in s.open) && (k in s.open ==> s'.open[k] == s.open[k])
    ensures PhaseOk(s', k, today)
  {}

  lemma RecordStepKeepsInv(s: State, a: string, cal: Calendar)
    requires Inv(s, cal) && Enabled(s, RecordStep(a), cal)
    ensures Inv(Next(s, RecordStep(a), cal), cal)
  {
    var s' := Next(s, RecordStep(a), cal);
    RecordShape(s, a, cal);
    forall k | k in s'.open ensures CheckpointOk(s', k, cal(s'.now)) { RecordKeepsCheckpoint(s, a, cal, k); }
    forall k | k in s'.phases ensures PhaseOk(s', k, cal(s'.now)) { RecordKeepsPhase(s, a, cal, k); }
    forall k | k in s'.retrying ensures RetryOk(s', k) { assert RetryOk(s, k); }
  }

  lemma BeginKeepsInv(s: State, a: string, cal: Calendar)
    requires Inv(s, cal) && Enabled(s, Begin(a), cal)
    ensures Inv(Next(s, Begin(a), cal), cal)
  {
    var s' := Next(s, Begin(a), cal);
    var today := cal(s.now);
    forall k | k in s'.open ensures CheckpointOk(s', k, today) { assert CheckpointOk(s, k, today); }
    forall k | k in s'.phases ensures PhaseOk(s', k, today) { BeginKeepsPhase(s, a, cal, k); }
    forall k | k in s'.retrying ensures RetryOk(s', k) { BeginKeepsRetry(s, a, cal, k); }
  }

  lemma BeginKeepsPhase(s: State, a: string, cal: Calendar, k: string)
    requires Inv(s, cal) && Enabled(s, Begin(a), cal) && k in s.phases
    ensures PhaseOk(Next(s, Begin(a), cal), k, cal(s.now))
  {
    assert PhaseOk(s, k, cal(s.now));
    assert k in s.open ==> CheckpointOk(s, k, cal(s.now));
  }

  lemma BeginKeepsRetry(s: State, a: string, cal: Calendar, k: string)
    requires Inv(s, cal) && Enabled(s, Begin(a), cal) && k in Next(s, Begin(a), cal).retrying
    ensures RetryOk(Next(s, Begin(a), cal), k)
  {
    assert k in s.retrying ==> RetryOk(s, k);
  }

  /** Moving one attempt along, without touching the table. */
  lemma MoveKeepsInv(s: State, a: string, phase: Phase, cal: Calendar)
    requires Inv(s, cal) && a in s.phases && PhaseOk(Move(s, a, phase), a, cal(s.now))
    requires !phase.Reserved? && !phase.Leaving? && !s.phases[a].Leaving? && phase.origin == s.phases[a].origin
    ensures Inv(Move(s, a, phase), cal)
  {}

  lemma AttemptStepKeepsInv(s: State, step: Step, cal: Calendar)
    requires Inv(s, cal) && Enabled(s, step, cal)
    requires step.Bail? || step.ReadStatus? || step.SendClaim? || step.Verify?
    ensures Inv(Next(s, step, cal), cal)
  {
    var s' := Next(s, step, cal);
    assert PhaseOk(s, step.a, cal(s.now));
    if step.Verify? { AttemptIsSafe(Status(false, true), false, s.phases[step.a].reply, step.read); }
    MoveKeepsInv(s, step.a, s'.phases[step.a], cal);
  }

  lemma TickKeepsInv(s: State, at: int, cal: Calendar)
    requires Inv(s, cal) && s.now <= at && Monotone(cal)
    ensures Inv(s.(now := at), cal)
  {
    var s' := s.(now := at);
    forall k | k in s'.open ensures CheckpointOk(s', k, cal(at)) { assert CheckpointOk(s, k, cal(s.now)); }
    forall k | k in s'.phases ensures PhaseOk(s', k, cal(at)) { assert PhaseOk(s, k, cal(s.now)); }
    forall k | k in s'.retrying ensures RetryOk(s', k) { assert RetryOk(s, k); }
  }

  /** A sweep or a cancellation withdraws retries and touches nothing else of a record. */
  predicate OnlyClears(s: Store, s': Store) {
    && s'.latest.Keys == s.latest.Keys && s'.history == s.history && s'.inFlight == s.inFlight
    && forall k | k in s.latest :: s'.latest[k] == s.latest[k] || s'.latest[k] == Cleared(s.latest[k])
  }

  lemma ClearingKeepsInv(s: State, store: Store, cal: Calendar)
    requires Inv(s, cal) && OnlyClears(s.store, store)
    ensures Inv(s.(store := store), cal)
  {
    var s' := s.(store := store);
    assert |store.latest| == |store.latest.Keys|;
    forall k | k in s'.open ensures CheckpointOk(s', k, cal(s.now)) { assert CheckpointOk(s, k, cal(s.now)); }
    forall k | k in s'.phases ensures PhaseOk(s', k, cal(s.now)) { assert PhaseOk(s, k, cal(s.now)); }
    forall k | k in s'.retrying ensures RetryOk(s', k) { assert RetryOk(s, k); }
  }

  lemma LeaveKeepsInv(s: State, a: string, cal: Calendar)
    requires Inv(s, cal) && Enabled(s, Leave(a), cal)
    ensures Inv(Next(s, Leave(a), cal), cal)
  {
    var s' := Next(s, Leave(a), cal);
    forall k | k in s'.open ensures CheckpointOk(s', k, cal(s.now)) { assert CheckpointOk(s, k, cal(s.now)); }
    forall k | k in s'.phases ensures PhaseOk(s', k, cal(s.now)) { assert PhaseOk(s, k, cal(s.now)); }
    forall k | k in s'.retrying ensures RetryOk(s', k) { assert RetryOk(s, k); }
  }

  lemma TableStepKeepsInv(s: State, step: Step, cal: Calendar)
    requires Inv(s, cal) && Enabled(s, step, cal) && Monotone(cal)
    requires step.Tick? || step.Leave? || step.Sweep? || step.CancelStep?
    ensures Inv(Next(s, step, cal), cal)
  {
    match step
    case Tick(at) => TickKeepsInv(s, at, cal);
    case Leave(a) => LeaveKeepsInv(s, a, cal);
    case Sweep(auto) => ClearingKeepsInv(s, SweepDue(s.store, cal(s.now), auto), cal);
    case CancelStep(a) => ClearingKeepsInv(s, Cancel(s.store, a), cal);
  }

  lemma NextKeepsInv(s: State, step: Step, cal: Calendar)
    requires Inv(s, cal) && Enabled(s, step, cal) && Monotone(cal)
    ensures Inv(Next(s, step, cal), cal)
  {
    match step
    case ReserveStep(a, origin, victim) => ReserveStepKeepsInv(s, a, origin, victim, cal);
    case Begin(a) => BeginKeepsInv(s, a, cal);
    case RecordStep(a) => RecordStepKeepsInv(s, a, cal);
    case Bail(_, _) => AttemptStepKeepsInv(s, step, cal);
    case ReadStatus(_, _) => AttemptStepKeepsInv(s, step, cal);
    case SendClaim(_, _) => AttemptStepKeepsInv(s, step, cal);
    case Verify(_, _) => AttemptStepKeepsInv(s, step, cal);
    case _ => TableStepKeepsInv(s, step, cal);
  }

  lemma {:induction false} RunInv(ss: seq<State>, steps: seq<Step>, cal: Calendar, k: nat)
    requires IsRun(ss, steps, cal) && k < |ss|
    ensures Inv(ss[k], cal)
  {
    if k > 0 {
      RunInv(ss, steps, cal, k - 1);
      assert ss[k - 1 + 1] == Next(ss[k - 1], steps[k - 1], cal);
      NextKeepsInv(ss[k - 1], steps[k - 1], cal);
    }
  }

  // ----- theorems over runs -----

  /** The table and its history stay bounded, and an attempt about to record always has a record, so
      recording never meets the capacity branch. */
  lemma Bounded(ss: seq<State>, steps: seq<Step>, cal: Calendar, k: nat)
    requires IsRun(ss, steps, cal) && k < |ss|
    ensures |ss[k].store.latest| <= 512 && |ss[k].store.history| <= 100
    ensures forall a | a in ss[k].phases :: a in ss[k].store.latest
  {
    RunInv(ss, steps, cal, k);
  }

  lemma {:induction false} ClockRuns(ss: seq<State>, steps: seq<Step>, cal: Calendar, i: nat, j: nat)
    requires IsRun(ss, steps, cal) && i <= j < |ss|
    ensures ss[i].now <= ss[j].now && cal(ss[i].now) <= cal(ss[j].now)
    decreases j - i
  {
    if i < j {
      ClockRuns(ss, steps, cal, i, j - 1);
      assert ss[j - 1 + 1] == Next(ss[j - 1], steps[j - 1], cal);
    }
  }

  /** Step `m` records that a status read found the day checked in. */
  predicate ConfirmsAt(ss: seq<State>, steps: seq<Step>, m: nat, a: string) {
    m < |steps| && m < |ss| && steps[m] == RecordStep(a)
    && a in ss[m].phases && ss[m].phases[a].Settling? && ss[m].phases[a].result.confirmed
  }

  lemma OpenPersists(s: State, step: Step, cal: Calendar, a: string, d: int)
    requires Enabled(s, step, cal) && a in s.open && s.open[a] == d && cal(s.now) == d
    requires !(step == RecordStep(a) && s.phases[a].result.confirmed)
    ensures a in Next(s, step, cal).open && Next(s, step, cal).open[a] == d
  {}

  lemma {:induction false} OpenUntilConfirmed(ss: seq<State>, steps: seq<Step>, cal: Calendar, i: nat, j: nat, a: string, d: int)
    requires IsRun(ss, steps, cal) && i <= j < |ss|
    requires a in ss[i].open && ss[i].open[a] == d == cal(ss[i].now) && cal(ss[j].now) == d
    requires forall m | i <= m < j :: !ConfirmsAt(ss, steps, m, a)
    ensures a in ss[j].open && ss[j].open[a] == d && NeedsConfirmation(ss[j].store, a, d)
    decreases j - i
  {
    if i < j {
      ClockRuns(ss, steps, cal, i, j - 1);
      ClockRuns(ss, steps, cal, j - 1, j);
      OpenUntilConfirmed(ss, steps, cal, i, j - 1, a, d);
      assert ss[j - 1 + 1] == Next(ss[j - 1], steps[j - 1], cal);
      assert !ConfirmsAt(ss, steps, j - 1, a);
      OpenPersists(ss[j - 1], steps[j - 1], cal, a, d);
    }
    RunInv(ss, steps, cal, j);
    assert CheckpointOk(ss[j], a, d);
  }

  /** Effectively once: after an attempt records, on day `d`, a claim that was neither definitely refused
      nor confirmed, no attempt of any kind sends another claim for that account on day `d` until a
      status read has confirmed it. */
  lemma NoSecondClaim(ss: seq<State>, steps: seq<Step>, cal: Calendar, i: nat, j: nat, a: string)
    requires IsRun(ss, steps, cal) && i < j < |steps|
    requires steps[i] == RecordStep(a) && ss[i].phases[a].open
    requires steps[j].SendClaim? && steps[j].a == a && cal(ss[j].now) == cal(ss[i].now)
    ensures exists m :: i < m < j && ConfirmsAt(ss, steps, m, a)
  {
    var d := cal(ss[i].now);
    RunInv(ss, steps, cal, i);
    assert PhaseOk(ss[i], a, d);
    assert ss[i + 1] == Next(ss[i], steps[i], cal);
    RunInv(ss, steps, cal, j);
    assert PhaseOk(ss[j], a, d);
    if forall m | i + 1 <= m < j :: !ConfirmsAt(ss, steps, m, a) {
      OpenUntilConfirmed(ss, steps, cal, i + 1, j, a, d);
    }
  }

  /** A claim that was not definitely refused has been sent and its attempt has not recorded yet. */
  predicate Unrecorded(s: State, a: string) {
    && a in s.phases
    && match s.phases[a]
       case Claimed(_, reply) => !DefinitelyRefused(reply)
       case Settling(_, result, open) => open || result.confirmed
       case _ => false
  }

  predicate Concerns(step: Step, a: string) {
    !step.Tick? && !step.Sweep? && !step.CancelStep? && step.a == a
  }

  lemma OthersKeepPhase(s: State, step: Step, cal: Calendar, a: string)
    requires Enabled(s, step, cal) && a in s.phases && !Concerns(step, a)
    ensures a in Next(s, step, cal).phases && Next(s, step, cal).phases[a] == s.phases[a]
  {}

  /** Of the account's own steps only the verifying read is possible before it records. */
  lemma OnlyVerifies(s: State, step: Step, cal: Calendar, a: string)
    requires Inv(s, cal) && Enabled(s, step, cal) && Unrecorded(s, a) && Concerns(step, a) && step != RecordStep(a)
    ensures step.Verify? && s.phases[a].Claimed?
  {}

  lemma StaysUnrecorded(s: State, step: Step, cal: Calendar, a: string)
    requires Inv(s, cal) && Enabled(s, step, cal) && Unrecorded(s, a) && step != RecordStep(a)
    ensures Unrecorded(Next(s, step, cal), a)
  {
    if Concerns(step, a) { OnlyVerifies(s, step, cal, a); } else { OthersKeepPhase(s, step, cal, a); }
  }

  lemma {:induction false} RecordComesFirst(ss: seq<State>, steps: seq<Step>, cal: Calendar, i: nat, j: nat, a: string) returns (r: nat)
    requires IsRun(ss, steps, cal) && i < j < |ss| && Unrecorded(ss[i], a) && !Unrecorded(ss[j], a)
    ensures i <= r < j && steps[r] == RecordStep(a) && Unrecorded(ss[r], a)
    decreases j - i
  {
    RunInv(ss, steps, cal, i);
    assert ss[i + 1] == Next(ss[i], steps[i], cal);
    if steps[i] == RecordStep(a) {
      r := i;
    } else {
      StaysUnrecorded(ss[i], steps[i], cal, a);
      r := RecordComesFirst(ss, steps, cal, i + 1, j, a);
    }
  }

  /** From the request itself: after a claim that was not definitely refused is sent, no other claim for that
      account is sent before the attempt records, nor on the day of that record before a status read has
      confirmed the claim. */
  lemma NoSecondRequest(ss: seq<State>, steps: seq<Step>, cal: Calendar, i: nat, j: nat, a: string) returns (r: nat)
    requires IsRun(ss, steps, cal) && i < j < |steps|
    requires steps[i].SendClaim? && steps[i].a == a && !DefinitelyRefused(steps[i].reply)
    requires steps[j].SendClaim? && steps[j].a == a
    ensures i < r < j && steps[r] == RecordStep(a)
    ensures cal(ss[j].now) == cal(ss[r].now) ==> exists m :: r <= m < j && ConfirmsAt(ss, steps, m, a)
  {
    assert ss[i + 1] == Next(ss[i], steps[i], cal);
    assert Enabled(ss[j], steps[j], cal);
    r := RecordComesFirst(ss, steps, cal, i + 1, j, a);
    if cal(ss[j].now) == cal(ss[r].now) {
      if ss[r].phases[a].open { NoSecondClaim(ss, steps, cal, r, j, a); } else { assert ConfirmsAt(ss, steps, r, a); }
    }
  }

  // ----- the retry budget -----

  /** Step `k` starts a retry for `a` on day `d`. */
  predicate StartsRetry(ss: seq<State>, steps: seq<Step>, cal: Calendar, k: nat, a: string, d: int) {
    k < |steps| && k + 1 < |ss| && steps[k] == Begin(a) && cal(ss[k].now) == d && a in ss[k + 1].retrying && a !in ss[k].retrying
  }

  function RetriesStarted(ss: seq<State>, steps: seq<Step>, cal: Calendar, k: nat, a: string, d: int): nat {
    if k == 0 then 0
    else RetriesStarted(ss, steps, cal, k - 1, a, d) + if StartsRetry(ss, steps, cal, k - 1, a, d) then 1 else 0
  }

  /** What the table can account for: recorded retries of today plus one in flight. */
  function Budgeted(s: State, a: string, today: int): nat {
    (if a in s.store.latest && s.store.latest[a].day == today then s.store.latest[a].retryCount else 0)
    + (if a in s.retrying && s.retrying[a] == today then 1 else 0)
  }

  lemma ReserveKeepsBudget(s: State, a: string, origin: Origin, victim: Option<string>, cal: Calendar, k: string)
    requires Inv(s, cal) && Enabled(s, ReserveStep(a, origin, victim), cal)
    ensures Budgeted(s, k, cal(s.now)) <= Budgeted(Next(s, ReserveStep(a, origin, victim), cal), k, cal(s.now))
  {
    var today := cal(s.now);
    if k in s.store.latest && k != a && s.store.latest[k].day == today && s.store.latest[k].retryCount > 0 {
      ReserveKeepsProtected(s.store, a, s.now, today, victim, k);
    }
  }

  lemma BudgetOnlyGrows(s: State, step: Step, cal: Calendar, a: string)
    requires Inv(s, cal) && Enabled(s, step, cal)
    ensures var s', today := Next(s, step, cal), cal(s.now);
            cal(s'.now) == today ==> Budgeted(s, a, today) <= Budgeted(s', a, today)
  {
    if a in s.retrying { assert RetryOk(s, a); }
    if step.ReserveStep? { ReserveKeepsBudget(s, step.a, step.origin, step.victim, cal, a); }
    if step.RecordStep? { RecordKeepsBudget(s, step.a, cal, a); }
  }

  lemma RecordKeepsBudget(s: State, a: string, cal: Calendar, k: string)
    requires Inv(s, cal) && Enabled(s, RecordStep(a), cal)
    ensures Budgeted(s, k, cal(s.now)) <= Budgeted(Next(s, RecordStep(a), cal), k, cal(s.now))
  {
    RecordShape(s, a, cal);
    if k in s.retrying { assert RetryOk(s, k); }
  }

  lemma RetryNeedsBudget(s: State, cal: Calendar, a: string)
    requires Inv(s, cal) && Enabled(s, Begin(a), cal) && a !in s.retrying && a in Next(s, Begin(a), cal).retrying
    ensures var today := cal(s.now);
            Budgeted(Next(s, Begin(a), cal), a, today) == Budgeted(s, a, today) + 1 <= MAX_RETRIES
  {}

  /** Nothing but a new day lowers what is accounted for, and a retry starts only below the limit. */
  lemma BudgetStep(s: State, step: Step, cal: Calendar, a: string)
    requires Inv(s, cal) && Enabled(s, step, cal)
    ensures var s' := Next(s, step, cal);
            var today := cal(s.now);
            && (cal(s'.now) == today ==> Budgeted(s, a, today) <= Budgeted(s', a, today))
            && (step == Begin(a) && a in s'.retrying && a !in s.retrying ==>
                  Budgeted(s', a, today) == Budgeted(s, a, today) + 1 <= MAX_RETRIES)
  {
    BudgetOnlyGrows(s, step, cal, a);
    if step == Begin(a) && a in Next(s, step, cal).retrying && a !in s.retrying { RetryNeedsBudget(s, cal, a); }
  }

  /** The `started` retries of day `d` are accounted for: within the budget on the day itself, none before. */
  ghost predicate Covered(s: State, cal: Calendar, a: string, d: int, started: nat) {
    && started <= MAX_RETRIES
    && (d == cal(s.now) ==> started <= Budgeted(s, a, d))
    && (d > cal(s.now) ==> started == 0)
  }

  lemma CoveredStep(s: State, s': State, step: Step, cal: Calendar, a: string, d: int, started: nat)
    requires Inv(s, cal) && Enabled(s, step, cal) && s' == Next(s, step, cal) && cal(s.now) <= cal(s'.now)
    requires Covered(s, cal, a, d, started)
    ensures Covered(s', cal, a, d,
                    started + if step == Begin(a) && cal(s.now) == d && a in s'.retrying && a !in s.retrying then 1 else 0)
  {
    BudgetStep(s, step, cal, a);
  }

  lemma NextIsCovered(ss: seq<State>, steps: seq<Step>, cal: Calendar, k: nat, a: string, d: int, started: nat)
    requires IsRun(ss, steps, cal) && k < |steps| && Covered(ss[k], cal, a, d, started)
    ensures Covered(ss[k + 1], cal, a, d, started + if StartsRetry(ss, steps, cal, k, a, d) then 1 else 0)
  {
    RunInv(ss, steps, cal, k);
    ClockRuns(ss, steps, cal, k, k + 1);
    CoveredStep(ss[k], ss[k + 1], steps[k], cal, a, d, started);
  }

  lemma {:induction false} BudgetCoversStarts(ss: seq<State>, steps: seq<Step>, cal: Calendar, k: nat, a: string, d: int)
    requires IsRun(ss, steps, cal) && k < |ss|
    ensures Covered(ss[k], cal, a, d, RetriesStarted(ss, steps, cal, k, a, d))
  {
    if k > 0 {
      BudgetCoversStarts(ss, steps, cal, k - 1, a, d);
      NextIsCovered(ss, steps, cal, k - 1, a, d, RetriesStarted(ss, steps, cal, k - 1, a, d));
    }
  }

  /** Whatever manual clicks, evictions and failures occur, at most three retries start per account and day. */
  lemma AtMostThreeRetries(ss: seq<State>, steps: seq<Step>, cal: Calendar, a: string, d: int)
    requires IsRun(ss, steps, cal)
    ensures RetriesStarted(ss, steps, cal, |steps|, a, d) <= 3
  {
    BudgetCoversStarts(ss, steps, cal, |steps|, a, d);
  }

  // ----- a scheduled retry comes due -----

  /** Something other than the passing of time takes the scheduled retry of `a` away: another attempt records,
      an operator cancels it, or a sweep with background check-in switched off drops a retry nobody asked for. */
  predicate Withdraws(step: Step, a: string, r: Record) {
    step == RecordStep(a) || step == CancelStep(a) || (step == Sweep(false) && !r.manual)
  }

  lemma ScheduleStays(s: State, step: Step, cal: Calendar, a: string, r: Record)
    requires Inv(s, cal) && Enabled(s, step, cal) && !Withdraws(step, a, r)
    requires a in s.store.latest && s.store.latest[a] == r && r.retryAllowed && r.day == cal(s.now)
    ensures var latest := Next(s, step, cal).store.latest; a in latest && latest[a] == r
  {
    if step.ReserveStep? { ReserveKeepsProtected(s.store, step.a, s.now, cal(s.now), step.victim, a); }
  }

  lemma {:induction false} ScheduleWaits(ss: seq<State>, steps: seq<Step>, cal: Calendar, i: nat, j: nat, a: string, r: Record)
    requires IsRun(ss, steps, cal) && i <= j < |ss| && cal(ss[i].now) == cal(ss[j].now)
    requires a in ss[i].store.latest && ss[i].store.latest[a] == r && r.retryAllowed && r.day == cal(ss[i].now)
    requires forall m | i <= m < j :: !Withdraws(steps[m], a, r)
    ensures a in ss[j].store.latest && ss[j].store.latest[a] == r
    decreases j - i
  {
    if i < j {
      ClockRuns(ss, steps, cal, i, j - 1);
      ClockRuns(ss, steps, cal, j - 1, j);
      ScheduleWaits(ss, steps, cal, i, j - 1, a, r);
      RunInv(ss, steps, cal, j - 1);
      assert ss[j - 1 + 1] == Next(ss[j - 1], steps[j - 1], cal);
      ScheduleStays(ss[j - 1], steps[j - 1], cal, a, r);
    }
  }

  /** What recording leaves in the table, for every attempt of every run. */
  lemma RecordsOutcome(ss: seq<State>, steps: seq<Step>, cal: Calendar, i: nat, a: string)
    requires IsRun(ss, steps, cal) && i < |steps| && steps[i] == RecordStep(a)
    ensures a in ss[i].store.latest && a in ss[i + 1].store.latest && a in ss[i].phases && ss[i].phases[a].Settling?
    ensures Recorded(ss[i + 1].store.latest[a], Some(ss[i].store.latest[a]), ss[i].phases[a].origin, ss[i].phases[a].result,
                     ss[i].now, cal)
    ensures ss[i + 1].now == ss[i].now
  {
    RunInv(ss, steps, cal, i);
    assert ss[i + 1] == Next(ss[i], steps[i], cal);
    var p := ss[i].phases[a];
    OutcomeMeaning(Some(ss[i].store.latest[a]), p.origin, p.result, ss[i].now, cal);
  }

  /** A result that may be repeated, recorded with fewer than three retries of the day behind it, is repeated: once
      60, 120 or 300 seconds have passed within the day, the account is listed as due and the retry begins,
      unless something withdraws it first. */
  lemma RetryComesDue(ss: seq<State>, steps: seq<Step>, cal: Calendar, i: nat, j: nat, a: string, auto: bool, wait: int)
    requires IsRun(ss, steps, cal) && i < |steps| && steps[i] == RecordStep(a) && i < j < |ss|
    requires ss[i].phases[a].Settling? && ss[i].phases[a].result.retryable
    requires a in ss[i + 1].store.latest && ss[i + 1].store.latest[a].retryCount < 3
    requires wait == [60, 120, 300][ss[i + 1].store.latest[a].retryCount]
    requires ss[i].now + wait <= ss[j].now && cal(ss[j].now) == cal(ss[i].now)
    requires forall m | i < m < j :: !Withdraws(steps[m], a, ss[i + 1].store.latest[a])
    requires auto || ss[i + 1].store.latest[a].manual
    ensures a in ss[j].store.latest && ss[j].store.latest[a] == ss[i + 1].store.latest[a]
    ensures var r := ss[j].store.latest[a];
            && r.day == cal(ss[j].now) && (auto || r.manual)
            && r.retryAllowed && r.nextRetry == Some(ss[i].now + wait) && r.nextRetry.value <= ss[j].now
            && IsDue(r, ss[j].now, cal(ss[j].now), auto)
    ensures a in ss[j].phases && ss[j].phases[a] == Reserved(Retry) ==>
              Next(ss[j], Begin(a), cal).phases[a] == Deciding(Retry, ss[j].store.latest[a].confirmOnly)
  {
    RecordsOutcome(ss, steps, cal, i, a);
    var r := ss[i + 1].store.latest[a];
    assert cal(ss[i].now) <= cal(ss[i].now + wait) <= cal(ss[j].now);
    ScheduleWaits(ss, steps, cal, i + 1, j, a, r);
  }

  /** And a retry never begins otherwise: only on the day it was scheduled for, at its moment or later. */
  lemma RetryOnlyWhenDue(ss: seq<State>, steps: seq<Step>, cal: Calendar, k: nat, a: string, d: int)
    requires IsRun(ss, steps, cal) && StartsRetry(ss, steps, cal, k, a, d)
    ensures a in ss[k].store.latest
    ensures var r := ss[k].store.latest[a];
            r.day == d && r.retryAllowed && r.retryCount < 3 && r.nextRetry.Some? && r.nextRetry.value <= ss[k].now
  {
    RunInv(ss, steps, cal, k);
    assert ss[k + 1] == Next(ss[k], steps[k], cal);
  }
}
