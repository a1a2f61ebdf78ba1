/** One attempt from reservation to release, over the table object. */
module Checkin {
  import opened Basics
  import opened CheckinAttempt
  import opened CheckinStore

  datatype Account = UnreadableAuth | GlobalAuth | PausedAuth | UsableAuth

  /** What the table knew of the account, as the attempt sees it: a new account starts with an empty record. */
  function Before(s: Store, index: string, now: int, today: int): Record {
    if index in s.latest then s.latest[index] else Record(Manual, today, Running, now, 0, None, false, false, false, false)
  }

  /** A retry runs only on the day it was scheduled for and when its moment has come. */
  predicate MayRun(origin: Origin, r: Record, now: int, today: int) {
    origin == Retry ==> r.retryAllowed && r.day == today && (r.nextRetry.Some? ==> r.nextRetry.value <= now)
  }

  predicate MayAsk(account: Account, origin: Origin) {
    account == UsableAuth || (account == PausedAuth && origin == Manual)
  }

  /** A retry asks whether its record may only confirm, every other attempt whether today's claim waits. */
  predicate ConfirmOnly(origin: Origin, r: Record, today: int) {
    if origin == Retry then r.confirmOnly else r.day == today && r.confirmOnly && !r.confirmed
  }

  /** What the attempt finds: the account's own refusals come before anything is asked. */
  function Verdict(account: Account, origin: Origin, before: StatusRead, confirmOnly: bool, reply: Reply, verify: StatusRead): Result {
    if MayAsk(account, origin) then Attempt(before, confirmOnly, reply, verify).0
    else Result(match account
                case UnreadableAuth => FailedState
                case GlobalAuth => GlobalState
                case _ => Disabled, false, false, false)
  }

  method Mode(runs: CheckinRunStore, index: string, origin: Origin, now: int) returns (confirmOnly: bool, due: bool)
    requires index in runs.latest
    ensures confirmOnly == ConfirmOnly(origin, runs.latest[index], runs.day(now))
    ensures due <==> MayRun(origin, runs.latest[index], now, runs.day(now))
  {
    due := true;
    confirmOnly := runs.NeedsConfirmationNow(index, now);
    if origin == Retry { confirmOnly, due := runs.RetryModeNow(index, now); }
  }

  method Ask(account: Account, origin: Origin, confirmOnly: bool, before: StatusRead, reply: Reply, verify: StatusRead)
    returns (result: Result, sent: bool)
    ensures result == Verdict(account, origin, before, confirmOnly, reply, verify)
    ensures sent <==> MayAsk(account, origin) && before == Status(false, true) && !confirmOnly
    ensures sent && !DefinitelyRefused(reply) ==> result.confirmed || result.confirmOnly
    ensures result.confirmed ==> Confirms(before) || Confirms(verify)
  {
    sent := false;
    if account == UnreadableAuth {
      result := Result(FailedState, false, false, false);
    } else if account == GlobalAuth {
      result := Result(GlobalState, false, false, false);
    } else if account == PausedAuth && origin != Manual {
      result := Result(Disabled, false, false, false);
    } else {
      var attempt := Attempt(before, confirmOnly, reply, verify);
      result, sent := attempt.0, attempt.1;
      AttemptIsSafe(before, confirmOnly, reply, verify);
    }
  }

  /** `start` is when the attempt is admitted and `end` when it records; the account and the upstream
      replies are whatever they turn out to be. */
  method CheckinOneAccountFrom(runs: CheckinRunStore, index: string, origin: Origin, start: int, end: int, account: Account,
                               before: StatusRead, reply: Reply, verify: StatusRead) returns (outcome: Option<Record>, sent: bool)
    modifies runs
    ensures runs.inFlight == old(runs.inFlight)
    ensures !Reservable(old(runs.View()), index, runs.day(start)) ==> runs.View() == old(runs.View())
    ensures outcome.Some? <==> Reservable(old(runs.View()), index, runs.day(start))
                               && MayRun(origin, Before(old(runs.View()), index, start, runs.day(start)), start, runs.day(start))
    ensures sent <==> outcome.Some? && MayAsk(account, origin) && before == Status(false, true)
                      && !ConfirmOnly(origin, Before(old(runs.View()), index, start, runs.day(start)), runs.day(start))
    ensures outcome.Some? ==>
              var r := Before(old(runs.View()), index, start, runs.day(start));
              && index in runs.latest && outcome.value == runs.latest[index]
              && Recorded(outcome.value, Some(r), origin,
                          Verdict(account, origin, before, ConfirmOnly(origin, r, runs.day(start)), reply, verify), end, runs.day)
    ensures sent && !DefinitelyRefused(reply) ==> outcome.value.confirmed || NeedsConfirmation(runs.View(), index, runs.day(end))
    ensures NeedsConfirmation(old(runs.View()), index, runs.day(start)) && runs.day(start) == runs.day(end) ==>
              index in runs.latest && (runs.latest[index].confirmed || NeedsConfirmation(runs.View(), index, runs.day(end)))
    ensures outcome.Some? && outcome.value.confirmed ==> Confirms(before) || Confirms(verify)
  {
    outcome, sent := None, false;
    var ok, _ := runs.ReserveRun(index, start);
    if !ok { return; }
    assert runs.inFlight - {index} == old(runs.inFlight);
    assert runs.latest[index] == Before(old(runs.View()), index, start, runs.day(start));
    var confirmOnly, due := Mode(runs, index, origin, start);
    if !due {
      runs.ReleaseRun(index);
      return;
    }
    var result;
    result, sent := Ask(account, origin, confirmOnly, before, reply, verify);
    var r, _ := runs.RecordRun(index, origin, result, end);
    runs.ReleaseRun(index);
    outcome := Some(r);
  }
}
