/**
 The table of quota holds: one entry per account and model, or per account alone, each with an expiry.
 The table drops expired entries only when it happens to look at them; the reference drops them the moment
 they expire. Times are nanoseconds.
 */
module QuotaHold {
  import opened Basics

  const SECOND := 1_000_000_000
  const PROBE_TTL := 15 * 60 * SECOND
  const HORIZON := 24 * 60 * 60 * SECOND
  const MAX_HOLDS := 4096

  datatype Reason = NoReason | SharedCredits | CallQuota | CreditQuota | RateLimit | Unknown

  datatype Scope = AccountScope | ModelScope

  datatype Recovery = RetryAfter | ResetTime | Probe

  datatype Failure = Failure(reason: Reason, scope: Scope, evidence: string)

  /** A key without a model is the whole account. */
  datatype Key = Key(auth: string, model: string)

  datatype Hold = Hold(reason: Reason, scope: Scope, until: int, nextProbe: int, updated: int, occurred: int,
                       recovery: Recovery, evidence: string)

  type Table = map<Key, Hold>

  function Strength(r: Reason): nat {
    match r
    case SharedCredits => 3
    case CallQuota => 2
    case CreditQuota => 2
    case RateLimit => 1
    case _ => 0
  }

  function Live(t: Table, now: int): Table {
    map k | k in t && t[k].until > now :: t[k]
  }

  predicate Earliest(t: Table, k: Key) {
    k in t && forall j | j in t :: t[k].until <= t[j].until
  }

  /** Whose hold a failure marks: account-wide only on proven exhaustion of shared credits. */
  function Target(auth: string, model: string, f: Failure): Option<Key> {
    if auth == "" || f.reason.NoReason? then None
    else if f.scope.AccountScope? then if f.reason.SharedCredits? then Some(Key(auth, "")) else None
    else if model == "" then None else Some(Key(auth, model))
  }

  datatype Signal = Signal(failure: Failure, until: int, recovery: Recovery)

  /** A reset further away than the horizon is probed instead. */
  function Capped(s: Signal, now: int): Signal {
    if s.until > now + HORIZON then s.(until := now + PROBE_TTL, recovery := Probe) else s
  }

  function Entry(k: Key, s: Signal, now: int): Hold {
    Hold(s.failure.reason, if k.model == "" then AccountScope else ModelScope, s.until, s.until, now, now, s.recovery, s.failure.evidence)
  }

  /** Enters a signal into a table of live holds. At capacity `victim` makes room for a new key. */
  function Enter(t: Table, k: Key, s: Signal, now: int, victim: Key): Table {
    if k in t then
      var prev := t[k];
      if Strength(prev.reason) > Strength(s.failure.reason) then t
      else if prev.until > s.until then t[k := Entry(k, s.(until := prev.until, recovery := prev.recovery), now).(occurred := prev.occurred)]
      else t[k := Entry(k, s, now).(occurred := prev.occurred)]
    else (if |t| >= MAX_HOLDS then t - {victim} else t)[k := Entry(k, s, now)]
  }

  // ----- the table as it is -----

  /** A call on the table; names have been trimmed. */
  datatype Event =
    | Mark(auth: string, model: string, signal: Signal, victim: Key)
    | FreezeFor(auth: string, model: string)
    | CoolingSet(auth: string)
    | Clear(auth: string, model: string)
    | Credits(auth: string, positive: bool)

  datatype Answer = Nothing | Held(hold: Option<Hold>) | Models(models: set<string>) | Removed(count: nat)

  function MarkLazy(t: Table, now: int, e: Event): Table
    requires e.Mark?
  {
    var target := Target(e.auth, e.model, e.signal.failure);
    if target.None? || e.signal.until <= now then t else Enter(Live(t, now), target.value, Capped(e.signal, now), now, e.victim)
  }

  function Consult(t: Table, now: int, k: Key): (Table, Option<Hold>) {
    if k !in t then (t, None) else if t[k].until > now then (t, Some(t[k])) else (t - {k}, None)
  }

  function FreezeLazy(t: Table, now: int, auth: string, model: string): (Table, Option<Hold>) {
    if auth == "" then (t, None) else
      var (t', r) := Consult(t, now, Key(auth, ""));
      if r.Some? then (t', r) else Consult(t', now, Key(auth, model))
  }

  function Names(keys: set<Key>): set<string> {
    set k | k in keys :: k.model
  }

  function CoolingModels(t: Table, now: int, auth: string): set<string> {
    Names(set k | k in t && k.auth == auth && k.model != "" && t[k].until > now)
  }

  /** The keys a clear request removes. */
  function Cleared(t: Table, auth: string, model: string): set<Key> {
    set k | k in t && auth != "" && k.auth == auth && (model == "" || k.model == model)
  }

  function AfterCredits(t: Table, auth: string, positive: bool): Table {
    var k := Key(auth, "");
    if positive && k in t && t[k].reason.SharedCredits? then t - {k} else t
  }

  function WithoutExpired(t: Table, now: int, auth: string): Table {
    map k | k in t && !(k.auth == auth && k.model != "" && t[k].until <= now) :: t[k]
  }

  function Lazy(t: Table, now: int, e: Event): (Table, Answer) {
    match e
    case Mark(_, _, _, _) => (MarkLazy(t, now, e), Nothing)
    case FreezeFor(auth, model) => var (t', r) := FreezeLazy(t, now, auth, model); (t', Held(r))
    case CoolingSet(auth) =>
      if auth == "" then (t, Models({})) else (WithoutExpired(t, now, auth), Models(CoolingModels(t, now, auth)))
    case Clear(auth, model) => (t - Cleared(t, auth, model), Removed(|Cleared(t, auth, model)|))
    case Credits(auth, positive) => (AfterCredits(t, auth, positive), Nothing)
  }

  // ----- the reference, which holds nothing expired -----

  function EagerFreeze(t: Table, auth: string, model: string): Option<Hold> {
    if auth == "" then None
    else if Key(auth, "") in t then Some(t[Key(auth, "")])
    else if Key(auth, model) in t then Some(t[Key(auth, model)]) else None
  }

  function Eager(t: Table, now: int, e: Event): (Table, Answer) {
    match e
    case Mark(auth, model, signal, victim) =>
      var target := Target(auth, model, signal.failure);
      (if target.None? || signal.until <= now then t else Enter(t, target.value, Capped(signal, now), now, victim), Nothing)
    case FreezeFor(auth, model) => (t, Held(EagerFreeze(t, auth, model)))
    case CoolingSet(auth) => (t, Models(Names(set k | k in t && auth != "" && k.auth == auth && k.model != "")))
    case Clear(auth, model) => (t - Cleared(t, auth, model), Removed(|Cleared(t, auth, model)|))
    case Credits(auth, positive) => (AfterCredits(t, auth, positive), Nothing)
  }

  lemma MarkRefines(t: Table, now: int, e: Event)
    requires e.Mark?
    ensures Live(MarkLazy(t, now, e), now) == Eager(Live(t, now), now, e).0
  {}

  lemma FreezeRefines(t: Table, now: int, auth: string, model: string)
    ensures var (t', r) := FreezeLazy(t, now, auth, model);
            Live(t', now) == Live(t, now) && r == EagerFreeze(Live(t, now), auth, model)
  {}

  lemma ClearRefines(t: Table, now: int, auth: string, model: string)
    ensures Live(t - Cleared(t, auth, model), now) == Live(t, now) - Cleared(Live(t, now), auth, model)
    ensures Cleared(Live(t, now), auth, model) <= Cleared(t, auth, model)
  {}

  /** One operation on the table and on its reference: the same live holds after it and the same answer.
      Only a clear request can tell them apart, by counting expired holds it removes as well. */
  lemma LazyRefinesEager(t: Table, now: int, e: Event)
    ensures var (t', a), (l, b) := Lazy(t, now, e), Eager(Live(t, now), now, e);
            Live(t', now) == l && (!e.Clear? ==> a == b)
  {
    match e
    case Mark(_, _, _, _) => MarkRefines(t, now, e);
    case FreezeFor(auth, model) => FreezeRefines(t, now, auth, model);
    case CoolingSet(auth) =>
    case Clear(auth, model) => ClearRefines(t, now, auth, model);
    case Credits(auth, positive) =>
  }

  lemma SubsetCount<T>(a: set<T>, b: set<T>)
    requires a <= b
    ensures |a| <= |b| && (|a| == |b| <==> a == b)
  {
    assert |b| == |a| + |b - a| by { assert a + (b - a) == b; }
    if b - a == {} { assert a == b; }
  }

  /** A clear request answers as the reference does exactly when none of the holds it removes has expired. */
  lemma ClearCountExactly(t: Table, now: int, auth: string, model: string)
    ensures Lazy(t, now, Clear(auth, model)).1 == Eager(Live(t, now), now, Clear(auth, model)).1
            <==> forall k | k in Cleared(t, auth, model) :: t[k].until > now
  {
    ClearRefines(t, now, auth, model);
    SubsetCount(Cleared(Live(t, now), auth, model), Cleared(t, auth, model));
    assert Cleared(Live(t, now), auth, model) == (set k | k in Cleared(t, auth, model) && t[k].until > now);
  }

  // ----- runs -----

  datatype Call = Call(at: int, event: Event)

  predicate Timely(calls: seq<Call>) {
    forall i, j | 0 <= i <= j < |calls| :: calls[i].at <= calls[j].at
  }

  function LazyRun(calls: seq<Call>): Table {
    if calls == [] then map[] else var c := calls[|calls| - 1]; Lazy(LazyRun(calls[..|calls| - 1]), c.at, c.event).0
  }

  /** The reference expires what is due, then performs the operation. */
  function EagerRun(calls: seq<Call>): Table {
    if calls == [] then map[] else var c := calls[|calls| - 1]; Eager(Live(EagerRun(calls[..|calls| - 1]), c.at), c.at, c.event).0
  }

  /** Over any run the table and its reference have the same live holds, and every answer agrees. */
  lemma {:induction false} RunRefines(calls: seq<Call>, now: int)
    requires Timely(calls) && (calls != [] ==> calls[|calls| - 1].at <= now)
    ensures Live(LazyRun(calls), now) == Live(EagerRun(calls), now)
  {
    if calls != [] {
      var before, c := calls[..|calls| - 1], calls[|calls| - 1];
      RunRefines(before, c.at);
      LazyRefinesEager(LazyRun(before), c.at, c.event);
      LaterLive(LazyRun(calls), c.at, now);
      LaterLive(EagerRun(calls), c.at, now);
      EagerIsLive(before, c);
    }
  }

  lemma LaterLive(t: Table, early: int, late: int)
    requires early <= late
    ensures Live(Live(t, early), late) == Live(t, late)
  {}

  lemma EagerIsLive(before: seq<Call>, c: Call)
    ensures var t := Eager(Live(EagerRun(before), c.at), c.at, c.event).0; Live(t, c.at) == t
  {
    var l := Live(EagerRun(before), c.at);
    LaterLive(EagerRun(before), c.at, c.at);
    LazyRefinesEager(l, c.at, c.event);
  }

  lemma AnswersAgree(calls: seq<Call>, c: Call)
    requires Timely(calls + [c]) && !c.event.Clear?
    ensures Lazy(LazyRun(calls), c.at, c.event).1 == Eager(Live(EagerRun(calls), c.at), c.at, c.event).1
  {
    var all := calls + [c];
    assert forall i | 0 <= i < |calls| :: calls[i] == all[i];
    if calls != [] { assert all[|calls| - 1].at <= all[|calls|].at; }
    RunRefines(calls, c.at);
    LazyRefinesEager(LazyRun(calls), c.at, c.event);
  }

  const BRIEF := Mark("a", "m", Signal(Failure(RateLimit, ModelScope, ""), 10, Probe), Key("", ""))

  /** A pair held from 0 until 10 and cleared at 20 is counted as removed, although it has long expired. */
  lemma ClearCountsExpired()
    ensures Lazy(LazyRun([Call(0, BRIEF)]), 20, Clear("a", "m")).1 == Removed(1)
    ensures Eager(Live(EagerRun([Call(0, BRIEF)]), 20), 20, Clear("a", "m")).1 == Removed(0)
  {
    var k, calls := Key("a", "m"), [Call(0, BRIEF)];
    assert calls[..0] == [];
    assert LazyRun(calls) == MarkLazy(map[], 0, BRIEF);
    assert Live(map[], 0) == map[];
    assert EagerRun(calls) == Eager(map[], 0, BRIEF).0;
    assert Cleared(LazyRun(calls), "a", "m") == {k};
    assert Cleared(Live(EagerRun(calls), 20), "a", "m") == {};
  }

  // ----- invariants -----

  predicate Proper(k: Key, h: Hold, now: int) {
    && k.auth != "" && !h.reason.NoReason?
    && h.occurred <= h.updated <= now && h.updated < h.until <= h.updated + HORIZON && h.nextProbe == h.until
    && (k.model == "" <==> h.scope.AccountScope?) && (k.model == "" ==> h.reason.SharedCredits?)
  }

  predicate Inv(t: Table, now: int) {
    |t.Keys| <= MAX_HOLDS && forall k | k in t :: Proper(k, t[k], now)
  }

  /** The call enters a new key into a full table. */
  predicate NeedsRoom(t: Table, now: int, e: Event) {
    && e.Mark? && e.signal.until > now && |Live(t, now)| >= MAX_HOLDS
    && var target := Target(e.auth, e.model, e.signal.failure); target.Some? && target.value !in Live(t, now)
  }

  /** Room is made only by removing a live hold that expires first. */
  predicate Legal(t: Table, now: int, e: Event) {
    NeedsRoom(t, now, e) ==> Earliest(Live(t, now), e.victim)
  }

  predicate Within(a: Table, b: Table) {
    forall k | k in a :: k in b && a[k] == b[k]
  }

  lemma WithinKeepsInv(a: Table, b: Table, now: int)
    requires Within(a, b) && Inv(b, now)
    ensures Inv(a, now)
  {
    assert a.Keys <= b.Keys;
    SubsetCount(a.Keys, b.Keys);
  }

  lemma EnterKeepsInv(t: Table, k: Key, s: Signal, now: int, victim: Key)
    requires Inv(t, now) && (forall j | j in t :: t[j].until > now) && k.auth != "" && !s.failure.reason.NoReason?
    requires now < s.until <= now + HORIZON && (k.model == "" ==> s.failure.reason.SharedCredits?)
    requires k !in t && |t| >= MAX_HOLDS ==> victim in t
    ensures Inv(Enter(t, k, s, now, victim), now)
  {}

  lemma LaterInv(t: Table, early: int, late: int)
    requires Inv(t, early) && early <= late
    ensures Inv(t, late)
  {}

  lemma MarkKeepsInv(t: Table, now: int, e: Event)
    requires e.Mark? && Inv(t, now) && Legal(t, now, e)
    ensures Inv(MarkLazy(t, now, e), now)
  {
    WithinKeepsInv(Live(t, now), t, now);
    var target := Target(e.auth, e.model, e.signal.failure);
    if target.Some? && e.signal.until > now { EnterKeepsInv(Live(t, now), target.value, Capped(e.signal, now), now, e.victim); }
  }

  lemma OthersStayWithin(t: Table, now: int, e: Event)
    requires !e.Mark?
    ensures Within(Lazy(t, now, e).0, t)
  {}

  lemma StepKeepsInv(t: Table, now: int, e: Event)
    requires Inv(t, now) && Legal(t, now, e)
    ensures Inv(Lazy(t, now, e).0, now)
  {
    if e.Mark? {
      MarkKeepsInv(t, now, e);
    } else {
      OthersStayWithin(t, now, e);
      WithinKeepsInv(Lazy(t, now, e).0, t, now);
    }
  }

  ghost predicate LegalRun(calls: seq<Call>) {
    Timely(calls) && forall k | 0 <= k < |calls| :: Legal(LazyRun(calls[..k]), calls[k].at, calls[k].event)
  }

  /** In every run: at most 4096 holds, every expiry within a day of its last update, an account-wide hold
      exactly where the key has no model, and then for exhausted shared credits. */
  lemma {:induction false} RunInv(calls: seq<Call>, now: int)
    requires LegalRun(calls) && (calls != [] ==> calls[|calls| - 1].at <= now)
    ensures Inv(LazyRun(calls), now)
  {
    if calls != [] {
      var n := |calls| - 1;
      forall k | 0 <= k < n ensures Legal(LazyRun(calls[..n][..k]), calls[..n][k].at, calls[..n][k].event) {
        assert calls[..n][..k] == calls[..k];
      }
      RunInv(calls[..n], calls[n].at);
      StepKeepsInv(LazyRun(calls[..n]), calls[n].at, calls[n].event);
      LaterInv(LazyRun(calls), calls[n].at, now);
    }
  }

  /** The classifier reports exhausted shared credits for the whole account only. */
  predicate WellClassified(e: Event) {
    e.Mark? && e.signal.failure.reason.SharedCredits? ==> e.signal.failure.scope.AccountScope?
  }

  predicate AccountWide(t: Table) {
    forall k | k in t && t[k].reason.SharedCredits? :: k.model == ""
  }

  lemma MarkKeepsAccountWide(t: Table, now: int, e: Event)
    requires e.Mark? && AccountWide(t) && WellClassified(e)
    ensures AccountWide(MarkLazy(t, now, e))
  {}

  /** So a key has no model exactly when its hold is for exhausted shared credits. */
  lemma {:induction false} SharedCreditsAreAccountWide(calls: seq<Call>, now: int, k: Key)
    requires LegalRun(calls) && (calls != [] ==> calls[|calls| - 1].at <= now) && k in LazyRun(calls)
    requires forall c | c in calls :: WellClassified(c.event)
    ensures k.model == "" <==> LazyRun(calls)[k].reason.SharedCredits?
  {
    RunInv(calls, now);
    AccountWideRun(calls);
    assert Proper(k, LazyRun(calls)[k], now);
  }

  lemma {:induction false} AccountWideRun(calls: seq<Call>)
    requires forall c | c in calls :: WellClassified(c.event)
    ensures AccountWide(LazyRun(calls))
  {
    if calls != [] {
      var before, c := calls[..|calls| - 1], calls[|calls| - 1];
      AccountWideRun(before);
      if c.event.Mark? {
        MarkKeepsAccountWide(LazyRun(before), c.at, c.event);
      } else {
        OthersStayWithin(LazyRun(before), c.at, c.event);
      }
    }
  }

  // ----- what each operation does -----

  /** Which reasons a hold is protected from: exhausted shared credits from every other reason, an exhausted
      allowance from rate limits and unclear failures, a rate limit from unclear failures. */
  predicate Outranks(a: Reason, b: Reason) {
    || (a.SharedCredits? && !b.SharedCredits?)
    || ((a.CallQuota? || a.CreditQuota?) && (b.RateLimit? || b.Unknown? || b.NoReason?))
    || (a.RateLimit? && (b.Unknown? || b.NoReason?))
  }

  lemma OutranksIsStronger(a: Reason, b: Reason)
    ensures Outranks(a, b) <==> Strength(a) > Strength(b)
  {}

  /** A failure of a model names both, one of an account is proven exhaustion of its shared credits; and its
      reset is still to come. */
  predicate Accepted(auth: string, model: string, s: Signal, now: int) {
    && auth != "" && s.until > now
    && (if s.failure.scope.AccountScope? then s.failure.reason.SharedCredits? else model != "" && !s.failure.reason.NoReason?)
  }

  predicate Holds(t: Table, k: Key, now: int) {
    k in t && t[k].until > now
  }

  /** What a mark leaves under its own key `k`, where `prev` is the live hold there. */
  predicate Marked(h: Hold, k: Key, prev: Option<Hold>, s: Signal, now: int) {
    var far := s.until > now + 86_400_000_000_000;
    var asked := if far then now + 900_000_000_000 else s.until;
    var kept := prev.Some? && prev.value.until > asked;
    && h.reason == s.failure.reason && h.evidence == s.failure.evidence
    && (h.scope.AccountScope? <==> k.model == "")
    && h.until == h.nextProbe == (if kept then prev.value.until else asked)
    && h.recovery == (if kept then prev.value.recovery else if far then Probe else s.recovery)
    && h.updated == now && h.occurred == (if prev.Some? then prev.value.occurred else now)
  }

  /** A mark of `k` on the live holds `l`, leaving `n`: a live hold of the key that outranks it stays; otherwise
      the key is held for the new reason. Other holds stay, but for one evicted from a table of 4096. */
  predicate MarkedTable(l: Table, k: Key, s: Signal, now: int, victim: Key, n: Table) {
    if k in l && Outranks(l[k].reason, s.failure.reason) then n == l
    else
      && k in n && Marked(n[k], k, if k in l then Some(l[k]) else None, s, now)
      && (forall j | j in n && j != k :: j in l && n[j] == l[j])
      && (forall j | j in l && (j != victim || k in l || |l| < 4096) :: j in n)
  }

  lemma EnterMeaning(l: Table, k: Key, s: Signal, now: int, victim: Key)
    ensures MarkedTable(l, k, s, now, victim, Enter(l, k, Capped(s, now), now, victim))
  {
    if k in l { OutranksIsStronger(l[k].reason, s.failure.reason); }
  }

  /** A mark that is not accepted changes nothing; one that is marks its own key among what has not expired. */
  lemma MarkMeaning(t: Table, now: int, auth: string, model: string, s: Signal, victim: Key)
    ensures var n := MarkLazy(t, now, Mark(auth, model, s, victim));
            if Accepted(auth, model, s, now)
            then MarkedTable(Live(t, now), Key(auth, if s.failure.scope.AccountScope? then "" else model), s, now, victim, n)
            else n == t
  {
    if Accepted(auth, model, s, now) {
      EnterMeaning(Live(t, now), Key(auth, if s.failure.scope.AccountScope? then "" else model), s, now, victim);
    }
  }

  /** A query is answered with the live hold of the account, or else with that of the pair. */
  lemma QueryMeaning(t: Table, now: int, auth: string, model: string)
    ensures FreezeLazy(t, now, auth, model).1 ==
            if auth != "" && Holds(t, Key(auth, ""), now) then Some(t[Key(auth, "")])
            else if auth != "" && Holds(t, Key(auth, model), now) then Some(t[Key(auth, model)]) else None
  {}

  /** Asking for an account's held models names exactly those with a live hold of their own. */
  lemma CoolingMeaning(t: Table, now: int, auth: string, model: string)
    ensures model in Lazy(t, now, CoolingSet(auth)).1.models <==> auth != "" && model != "" && Holds(t, Key(auth, model), now)
  {
    if auth != "" && model != "" && Holds(t, Key(auth, model), now) {
      assert Key(auth, model) in set k | k in t && k.auth == auth && k.model != "" && t[k].until > now;
    }
  }

  /** A clear request removes one pair, or everything of an account; positive credit removes the account's own
      hold if it is for exhausted shared credits. */
  lemma RemovalMeaning(t: Table, now: int, auth: string, model: string, k: Key)
    ensures k in Lazy(t, now, Clear(auth, model)).0 <==> k in t && !(auth != "" && k.auth == auth && (model == "" || k.model == model))
    ensures k in Lazy(t, now, Credits(auth, true)).0 <==> k in t && !(k == Key(auth, "") && t[k].reason.SharedCredits?)
    ensures Lazy(t, now, Credits(auth, false)).0 == t
  {}

  // ----- how long a hold lasts -----

  /** A hold that the other does not outrank and that lasts at least as long, of the same occurrence. */
  predicate AtLeast(h: Hold, than: Hold) {
    h.until >= than.until && !Outranks(than.reason, h.reason) && h.occurred == than.occurred
  }

  /** Something other than time removes the hold: an operator, fresh credit, or a full table. */
  predicate Disturbs(t: Table, now: int, e: Event, k: Key) {
    match e
    case Mark(_, _, _, _) => k !in MarkLazy(t, now, e)
    case FreezeFor(_, _) => false
    case CoolingSet(_) => false
    case Clear(auth, model) => k in Cleared(t, auth, model)
    case Credits(auth, positive) => positive && k == Key(auth, "")
  }

  lemma MarkKeepsHold(t: Table, now: int, e: Event, k: Key)
    requires e.Mark? && k in t && t[k].until > now && k in MarkLazy(t, now, e)
    ensures AtLeast(MarkLazy(t, now, e)[k], t[k])
  {}

  lemma StepKeepsHold(t: Table, now: int, e: Event, k: Key)
    requires k in t && t[k].until > now && !Disturbs(t, now, e, k)
    ensures k in Lazy(t, now, e).0 && AtLeast(Lazy(t, now, e).0[k], t[k])
  {}

  /** A full table evicts a hold only for a key it does not have, and only one that expires first. */
  lemma EvictsEarliest(t: Table, now: int, e: Event, k: Key)
    requires e.Mark? && Legal(t, now, e) && k in Live(t, now) && Disturbs(t, now, e, k)
    ensures NeedsRoom(t, now, e) && Earliest(Live(t, now), k)
  {}

  /** A signal no weaker than the hold in place is in force until its own reset at least. */
  lemma MarkIsInForce(t: Table, now: int, e: Event)
    requires e.Mark?
    requires var target := Target(e.auth, e.model, e.signal.failure);
             && target.Some? && now < e.signal.until <= now + HORIZON
             && (target.value in Live(t, now) ==> !Outranks(t[target.value].reason, e.signal.failure.reason))
    ensures var k, n := Target(e.auth, e.model, e.signal.failure).value, MarkLazy(t, now, e);
            k in n && n[k].until >= e.signal.until && n[k].reason == e.signal.failure.reason
  {}

  /** The tables a run passes through, from any table on. */
  ghost predicate IsTrace(ts: seq<Table>, calls: seq<Call>) {
    && |ts| == |calls| + 1 && Timely(calls)
    && forall n {:trigger ts[n + 1]} {:trigger calls[n]} | 0 <= n < |calls| :: ts[n + 1] == Lazy(ts[n], calls[n].at, calls[n].event).0
  }

  /** The tables of a run from the empty table. */
  function Tables(calls: seq<Call>): (ts: seq<Table>)
    ensures |ts| == |calls| + 1 && forall n | 0 <= n <= |calls| :: ts[n] == LazyRun(calls[..n])
  {
    seq(|calls| + 1, n requires 0 <= n <= |calls| => LazyRun(calls[..n]))
  }

  lemma TablesAreTrace(calls: seq<Call>)
    requires Timely(calls)
    ensures IsTrace(Tables(calls), calls)
  {
    var ts := Tables(calls);
    forall n | 0 <= n < |calls| ensures ts[n + 1] == Lazy(ts[n], calls[n].at, calls[n].event).0 {
      assert calls[..n + 1][..n] == calls[..n];
    }
  }

  /** The same over the tables of any trace: every step but a disturbing one keeps the hold at least as
      strong and as long. */
  lemma {:induction false} TraceKeepsHold(ts: seq<Table>, calls: seq<Call>, from: nat, n: nat, k: Key, now: int)
    requires IsTrace(ts, calls) && from <= n <= |calls| && (n > 0 ==> calls[n - 1].at <= now)
    requires forall m | from <= m < n :: !Disturbs(ts[m], calls[m].at, calls[m].event, k)
    requires k in ts[from] && now < ts[from][k].until
    ensures k in ts[n] && AtLeast(ts[n][k], ts[from][k])
  {
    if n > from {
      var c := calls[n - 1];
      assert n > 1 ==> calls[n - 2].at <= c.at;
      TraceKeepsHold(ts, calls, from, n - 1, k, c.at);
      StepKeepsHold(ts[n - 1], c.at, c.event, k);
      assert ts[n - 1 + 1] == Lazy(ts[n - 1], c.at, c.event).0;
    }
  }

  /** From the `from`-th call on, nothing but time removes the hold. */
  ghost predicate Undisturbed(calls: seq<Call>, from: nat, k: Key) {
    forall n | from <= n < |calls| :: !Disturbs(Tables(calls)[n], calls[n].at, calls[n].event, k)
  }

  /** A hold only ever grows, in strength and in length, and is there at every moment before its reset,
      whatever calls come in between, unless something other than time removes it. */
  lemma HoldOnlyGrows(calls: seq<Call>, from: nat, k: Key, now: int)
    requires Timely(calls) && from <= |calls| && Undisturbed(calls, from, k) && (calls != [] ==> calls[|calls| - 1].at <= now)
    requires k in LazyRun(calls[..from]) && now < LazyRun(calls[..from])[k].until
    ensures k in LazyRun(calls) && AtLeast(LazyRun(calls)[k], LazyRun(calls[..from])[k])
  {
    TablesAreTrace(calls);
    TraceKeepsHold(Tables(calls), calls, from, |calls|, k, now);
    assert calls[..|calls|] == calls;
  }

  /** So every query of the held pair, and of any model of a held account, is refused until the reset. */
  lemma HeldUntilReset(calls: seq<Call>, from: nat, k: Key, now: int, model: string)
    requires Timely(calls) && from <= |calls| && Undisturbed(calls, from, k) && (calls != [] ==> calls[|calls| - 1].at <= now)
    requires k in LazyRun(calls[..from]) && now < LazyRun(calls[..from])[k].until
    requires k.auth != "" && (k.model == "" || k.model == model)
    ensures FreezeLazy(LazyRun(calls), now, k.auth, model).1.Some?
  {
    HoldOnlyGrows(calls, from, k, now);
    HeldIsRefused(LazyRun(calls), now, k, model);
  }

  lemma HeldIsRefused(t: Table, now: int, k: Key, model: string)
    requires k in t && now < t[k].until && k.auth != "" && (k.model == "" || k.model == model)
    ensures FreezeLazy(t, now, k.auth, model).1.Some?
  {}
}
