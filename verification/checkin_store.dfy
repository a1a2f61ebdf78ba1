/**
 The process-local check-in table: the latest record of each account, a short history, and the accounts
 with an attempt in flight. The specification functions come first, then the object that updates the
 table in place.
 */
module CheckinStore {
  import opened Basics
  import opened CheckinAttempt

  /** The local calendar: the day an instant falls on. */
  type Calendar = int -> int

  const LATEST_LIMIT := 512
  const HISTORY_LIMIT := 100
  const MAX_RETRIES := 3

  function RetryDelay(retries: nat): int
    requires retries < MAX_RETRIES
  {
    [60, 120, 300][retries]
  }

  datatype Origin = Manual | Scheduled | Retry

  datatype Record = Record(
    origin: Origin, day: int, state: AttemptState, at: int, retryCount: nat, nextRetry: Option<int>,
    confirmOnly: bool, confirmed: bool, retryAllowed: bool, manual: bool)
  {
    /** A claim may have reached upstream and no status read has confirmed it yet. */
    predicate Unresolved() {
      confirmOnly && !confirmed
    }
  }

  datatype Store = Store(latest: map<string, Record>, history: seq<(string, Record)>, inFlight: set<string>)

  predicate Evictable(s: Store, k: string, today: int) {
    && k in s.latest && k !in s.inFlight
    && !(s.latest[k].day == today && (s.latest[k].Unresolved() || s.latest[k].retryAllowed || s.latest[k].retryCount > 0))
  }

  predicate Oldest(s: Store, k: string, today: int) {
    Evictable(s, k, today) && forall j | j in s.latest && Evictable(s, j, today) :: s.latest[k].at <= s.latest[j].at
  }

  predicate NoRoom(s: Store, today: int) {
    |s.latest| >= LATEST_LIMIT && forall j | j in s.latest :: !Evictable(s, j, today)
  }

  /** The entries that may be dropped to make room: none while there is room, else one of the oldest
      evictable ones (map iteration order decides between equally old ones). */
  predicate RoomChoice(s: Store, today: int, victim: Option<string>) {
    if |s.latest| < LATEST_LIMIT || NoRoom(s, today) then victim.None?
    else victim.Some? && Oldest(s, victim.value, today)
  }

  function Evict(s: Store, victim: Option<string>): Store {
    if victim.Some? then s.(latest := s.latest - {victim.value}) else s
  }

  function Placeholder(now: int, today: int): Record {
    Record(Manual, today, Running, now, 0, None, false, false, false, false)
  }

  predicate Reservable(s: Store, index: string, today: int) {
    index != "" && index !in s.inFlight && (index in s.latest || !NoRoom(s, today))
  }

  function Reserve(s: Store, index: string, now: int, today: int, victim: Option<string>): Store {
    if !Reservable(s, index, today) then s
    else
      var s' := if index in s.latest then s
                else var room := Evict(s, victim); room.(latest := room.latest[index := Placeholder(now, today)]);
      s'.(inFlight := s'.inFlight + {index})
  }

  function Release(s: Store, index: string): Store {
    s.(inFlight := s.inFlight - {index})
  }

  /** The record an attempt leaves, given the account's previous one. */
  function Outcome(previous: Option<Record>, origin: Origin, result: Result, now: int, cal: Calendar): Record {
    var today := cal(now);
    var same := previous.Some? && previous.value.day == today;
    var retries := if !same then 0 else if origin == Retry then previous.value.retryCount + 1 else previous.value.retryCount;
    var manual := if same && origin == Retry then previous.value.manual else origin == Manual;
    var confirmOnly := result.confirmOnly || (same && previous.value.confirmOnly && !result.confirmed);
    var again := result.retryable && retries < MAX_RETRIES && cal(now + RetryDelay(retries)) == today;
    Record(origin, today, result.state, now, retries, if again then Some(now + RetryDelay(retries)) else None,
           confirmOnly, result.confirmed, again, manual)
  }

  /** The retries of today so far, counting this attempt if it is one. */
  function RetriesToday(previous: Option<Record>, origin: Origin, today: int): nat {
    if previous.Some? && previous.value.day == today then previous.value.retryCount + if origin == Retry then 1 else 0 else 0
  }

  /** After `retries` of them a result that may be repeated is repeated 60, 120 or 300 seconds later if that is
      still the same day; in every other case no retry is scheduled. */
  predicate Schedules(r: Record, retryable: bool, retries: nat, now: int, cal: Calendar) {
    var next := now + if retries == 0 then 60 else if retries == 1 then 120 else 300;
    if retryable && retries < 3 && cal(next) == cal(now) then r.retryAllowed && r.nextRetry == Some(next)
    else !r.retryAllowed && r.nextRetry.None?
  }

  /** The record an attempt leaves: when it ran, what it found, what it may do next, and the checkpoint of the
      same day, which only a confirmation ends. */
  predicate Recorded(r: Record, previous: Option<Record>, origin: Origin, result: Result, now: int, cal: Calendar) {
    var today := cal(now);
    var same := previous.Some? && previous.value.day == today;
    && r.at == now && r.day == today && r.origin == origin && r.state == result.state && r.confirmed == result.confirmed
    && r.retryCount == RetriesToday(previous, origin, today)
    && Schedules(r, result.retryable, r.retryCount, now, cal)
    && (r.confirmOnly <==> result.confirmOnly || (!result.confirmed && same && previous.value.confirmOnly))
    && (r.manual <==> origin == Manual || (origin == Retry && same && previous.value.manual))
  }

  lemma OutcomeMeaning(previous: Option<Record>, origin: Origin, result: Result, now: int, cal: Calendar)
    ensures Recorded(Outcome(previous, origin, result, now, cal), previous, origin, result, now, cal)
  {}

  /** The last hundred rows. */
  function Clip<T>(rows: seq<T>): (r: seq<T>)
    ensures |r| == (if |rows| < 100 then |rows| else 100) && r == rows[|rows| - |r|..]
  {
    if |rows| > HISTORY_LIMIT then rows[|rows| - HISTORY_LIMIT..] else rows
  }

  function RecordOf(s: Store, index: string): Option<Record> {
    if index in s.latest then Some(s.latest[index]) else None
  }

  /** An account without a record needs room first, and is not recorded when there is none. */
  function RecordOutcome(s: Store, index: string, origin: Origin, result: Result, now: int, cal: Calendar, victim: Option<string>): Store {
    if index !in s.latest && NoRoom(s, cal(now)) then s
    else
      var r := Outcome(RecordOf(s, index), origin, result, now, cal);
      var room := if index in s.latest then s else Evict(s, victim);
      room.(latest := room.latest[index := r], history := Clip(room.history + [(index, r)]))
  }

  function Cleared(r: Record): Record {
    r.(nextRetry := None, retryAllowed := false)
  }

  predicate Dropped(r: Record, today: int, auto: bool) {
    r.day != today || (!auto && !r.manual)
  }

  /** A retry of today whose moment has come; with background check-in off, only one asked for by hand. */
  predicate IsDue(r: Record, now: int, today: int, auto: bool) {
    r.day == today && (auto || r.manual) && r.retryAllowed && r.nextRetry.Some? && r.nextRetry.value <= now
  }

  function SweepDue(s: Store, today: int, auto: bool): Store {
    s.(latest := map k | k in s.latest :: if Dropped(s.latest[k], today, auto) then Cleared(s.latest[k]) else s.latest[k])
  }

  /** The records outside `rest` have been swept, the others not yet. */
  predicate Swept(before: map<string, Record>, now: map<string, Record>, rest: set<string>, today: int, auto: bool) {
    && now.Keys == before.Keys
    && forall k | k in before :: now[k] == if k !in rest && Dropped(before[k], today, auto) then Cleared(before[k]) else before[k]
  }

  lemma SweptNext(before: map<string, Record>, was: map<string, Record>, now: map<string, Record>, rest: set<string>, k: string, today: int, auto: bool)
    requires Swept(before, was, rest + {k}, today, auto) && k in was && k !in rest
    requires now == was[k := if Dropped(was[k], today, auto) then Cleared(was[k]) else was[k]]
    ensures Swept(before, now, rest, today, auto)
  {}

  function Cancel(s: Store, index: string): Store {
    if index in s.latest then s.(latest := s.latest[index := Cleared(s.latest[index])]) else s
  }

  predicate NeedsConfirmation(s: Store, index: string, today: int) {
    index in s.latest && s.latest[index].day == today && s.latest[index].Unresolved()
  }

  /** Whether a retry is confirm-only, and whether it may run at all. */
  function RetryMode(s: Store, index: string, now: int, today: int): (bool, bool) {
    if index !in s.latest then (false, false)
    else
      var r := s.latest[index];
      (r.confirmOnly, r.retryAllowed && r.day == today && (r.nextRetry.Some? ==> r.nextRetry.value <= now))
  }

  class CheckinRunStore {
    const day: Calendar
    var latest: map<string, Record>
    var history: seq<(string, Record)>
    var inFlight: set<string>

    ghost function View(): Store
      reads this
    {
      Store(latest, history, inFlight)
    }

    constructor (day: Calendar)
      ensures View() == Store(map[], [], {}) && this.day == day
    {
      this.day := day;
      latest, history, inFlight := map[], [], {};
    }

    /** Drops at most one entry, the oldest that nothing protects. */
    method MakeRoom(now: int) returns (ok: bool, ghost victim: Option<string>)
      modifies this`latest
      ensures ok <==> !NoRoom(old(View()), day(now))
      ensures RoomChoice(old(View()), day(now), victim) && View() == Evict(old(View()), victim)
    {
      victim := None;
      if |latest| < LATEST_LIMIT { return true, None; }
      var today := day(now);
      var oldest: Option<string> := None;
      var rest := latest.Keys;
      while rest != {}
        invariant rest <= latest.Keys
        invariant oldest.Some? ==> Evictable(View(), oldest.value, today)
        invariant forall k | k in latest && k !in rest && Evictable(View(), k, today) ::
                    oldest.Some? && latest[oldest.value].at <= latest[k].at
      {
        var k :| k in rest;
        rest := rest - {k};
        var r := latest[k];
        if k in inFlight || (r.day == today && ((r.confirmOnly && !r.confirmed) || r.retryAllowed || r.retryCount > 0)) {
          continue;
        }
        if oldest.None? || r.at < latest[oldest.value].at { oldest := Some(k); }
      }
      victim := oldest;
      ok := oldest.Some?;
      if oldest.Some? { latest := latest - {oldest.value}; }
    }

    method ReserveRun(index: string, now: int) returns (ok: bool, ghost victim: Option<string>)
      modifies this
      ensures ok <==> Reservable(old(View()), index, day(now))
      ensures View() == Reserve(old(View()), index, now, day(now), victim)
      ensures ok && index !in old(latest) ==> RoomChoice(old(View()), day(now), victim)
      ensures !ok && index != "" && index !in old(inFlight) ==>
                && |old(latest)| >= 512
                && forall k | k in old(latest) && k !in old(inFlight) ::
                     var r := old(latest)[k]; r.day == day(now) && ((r.confirmOnly && !r.confirmed) || r.retryAllowed || r.retryCount > 0)
    {
      victim := None;
      if index == "" || index in inFlight { return false, None; }
      if index !in latest {
        ok, victim := MakeRoom(now);
        if !ok { return; }
        latest := latest[index := Placeholder(now, day(now))];
      }
      inFlight := inFlight + {index};
      ok := true;
    }

    method ReleaseRun(index: string)
      modifies this
      ensures View() == Release(old(View()), index)
    {
      inFlight := inFlight - {index};
    }

    method RecordRun(index: string, origin: Origin, result: Result, now: int) returns (r: Record, ghost victim: Option<string>)
      modifies this
      ensures View() == RecordOutcome(old(View()), index, origin, result, now, day, victim)
      ensures index !in old(latest) ==> RoomChoice(old(View()), day(now), victim)
      ensures index in old(latest) || !NoRoom(old(View()), day(now)) ==> index in latest && r == latest[index]
      ensures index in latest ==> Recorded(r, RecordOf(old(View()), index), origin, result, now, day)
      ensures index !in old(latest) && NoRoom(old(View()), day(now)) ==> r.state == FailedState && !r.retryAllowed
    {
      victim := None;
      var previous := if index in latest then Some(latest[index]) else None;
      r := NewRecord(previous, origin, result, now);
      if previous.None? {
        var ok;
        ok, victim := MakeRoom(now);
        if !ok {
          r := Record(origin, day(now), FailedState, now, 0, None, false, false, false, false);
          return;
        }
      }
      Remember(index, r);
    }

    method Remember(index: string, r: Record)
      modifies this`latest, this`history
      ensures latest == old(latest)[index := r] && history == Clip(old(history) + [(index, r)])
    {
      latest := latest[index := r];
      history := history + [(index, r)];
      if |history| > HISTORY_LIMIT { history := history[|history| - HISTORY_LIMIT..]; }
    }

    method NewRecord(previous: Option<Record>, origin: Origin, result: Result, now: int) returns (r: Record)
      ensures r == Outcome(previous, origin, result, now, day)
      ensures Recorded(r, previous, origin, result, now, day)
    {
      var today := day(now);
      var same := previous.Some? && previous.value.day == today;
      var retries: nat := 0;
      var manual := origin == Manual;
      if same {
        retries := previous.value.retryCount;
        if origin == Retry {
          retries := retries + 1;
          manual := previous.value.manual;
        }
      }
      r := Record(origin, today, result.state, now, retries, None, result.confirmOnly, result.confirmed, false, manual);
      if same && previous.value.confirmOnly && !result.confirmed {
        r := r.(confirmOnly := true);
      }
      if result.retryable && retries < MAX_RETRIES {
        var next := now + RetryDelay(retries);
        if day(next) == today { r := r.(nextRetry := Some(next), retryAllowed := true); }
      }
    }

    /** Clears the retries that no longer apply and lists the accounts whose retry is due. */
    method Due(now: int, auto: bool) returns (out: seq<string>)
      modifies this
      ensures View() == SweepDue(old(View()), day(now), auto)
      ensures forall k :: k in out <==> k in old(latest) && IsDue(old(latest)[k], now, day(now), auto)
      ensures forall k | k in out :: var r := old(latest)[k]; r.retryAllowed && r.day == day(now) && r.nextRetry.Some? && r.nextRetry.value <= now
      ensures forall i, j | 0 <= i < j < |out| :: out[i] != out[j]
    {
      out := [];
      var today := day(now);
      var rest := latest.Keys;
      ghost var before := latest;
      while rest != {}
        invariant rest <= latest.Keys && inFlight == old(inFlight) && history == old(history)
        invariant Swept(before, latest, rest, today, auto)
        invariant forall k :: k in out <==> k in before && k !in rest && IsDue(before[k], now, today, auto)
        invariant forall i, j | 0 <= i < j < |out| :: out[i] != out[j]
      {
        var k :| k in rest;
        ghost var was := latest;
        rest := rest - {k};
        var due := DueOne(k, now, today, auto);
        SweptNext(before, was, latest, rest, k, today, auto);
        if due { out := out + [k]; }
      }
    }

    method DueOne(k: string, now: int, today: int, auto: bool) returns (due: bool)
      requires k in latest
      modifies this`latest
      ensures latest == old(latest)[k := if Dropped(old(latest[k]), today, auto) then Cleared(old(latest[k])) else old(latest[k])]
      ensures due <==> IsDue(old(latest[k]), now, today, auto)
    {
      var r := latest[k];
      due := false;
      if r.day != today || (!auto && !r.manual) {
        latest := latest[k := r.(nextRetry := None, retryAllowed := false)];
      } else if r.retryAllowed && r.nextRetry.Some? && r.nextRetry.value <= now {
        due := true;
      }
    }

    method NeedsConfirmationNow(index: string, now: int) returns (needed: bool)
      ensures needed <==> NeedsConfirmation(View(), index, day(now))
    {
      needed := index in latest && latest[index].day == day(now) && latest[index].confirmOnly && !latest[index].confirmed;
    }

    method RetryModeNow(index: string, now: int) returns (confirmOnly: bool, due: bool)
      ensures (confirmOnly, due) == RetryMode(View(), index, now, day(now))
    {
      if index !in latest { return false, false; }
      var r := latest[index];
      confirmOnly := r.confirmOnly;
      due := r.retryAllowed && r.day == day(now) && (r.nextRetry.None? || r.nextRetry.value <= now);
    }

    method CancelRetry(index: string)
      modifies this
      ensures View() == Cancel(old(View()), index)
    {
      if index in latest {
        latest := latest[index := latest[index].(retryAllowed := false, nextRetry := None)];
      }
    }
  }
}
