/**
 One check-in attempt: what the claim request can come back as, and the decision the attempt takes over
 a status read, a claim and a verifying status read.
 */
module CheckinAttempt {
  import opened Basics

  /** The parsed `success` flag of a claim receipt. */
  datatype Flag = Absent | Malformed | Accepted(value: bool)

  datatype Body = Unreadable | Refused(already: bool) | NoData | BadReceipt | Receipt(success: Flag)

  /** Everything the claim request can come back as. */
  datatype Reply = TransportFailure(transient: bool) | NoResponse | Response(status: int, body: Body)

  datatype Kind = Auth | TransportKind | RateLimit | Server | Already | Protocol | NotFound | Business

  datatype RequestError = RequestError(kind: Kind, retryable: bool, uncertain: bool)

  datatype Claim = Failed(error: RequestError) | Acknowledged(success: bool)

  /** The claim call: one request, no retry. */
  function PerformClaim(reply: Reply): Claim {
    match reply
    case TransportFailure(transient) => Failed(RequestError(TransportKind, transient, true))
    case NoResponse => Failed(RequestError(Protocol, false, true))
    case Response(status, body) =>
      if status == 401 || status == 403 then Failed(RequestError(Auth, false, false))
      else if status == 404 then Failed(RequestError(NotFound, false, false))
      else if status == 429 then Failed(RequestError(RateLimit, true, false))
      else if status >= 500 then Failed(RequestError(Server, true, true))
      else if status < 200 || status >= 300 then Failed(RequestError(Business, false, false))
      else match body
           case Unreadable => Failed(RequestError(Protocol, false, true))
           case Refused(already) => Failed(RequestError(if already then Already else Business, false, false))
           case NoData => Failed(RequestError(Protocol, false, true))
           case BadReceipt => Failed(RequestError(Protocol, false, true))
           case Receipt(Absent) => Acknowledged(true)
           case Receipt(Malformed) => Failed(RequestError(Protocol, false, true))
           case Receipt(Accepted(value)) => Acknowledged(value)
  }

  /** The upstream definitely refused: an error status below 500, a business code that does not say
      "already", or an explicit negative receipt. Every other reply may have created a grant. */
  predicate DefinitelyRefused(reply: Reply) {
    reply.Response? && reply.status < 500 &&
    (reply.status < 200 || reply.status >= 300
     || reply.body == Refused(false) || reply.body == Receipt(Accepted(false)))
  }

  datatype StatusRead = StatusError(retryable: bool) | NoStatus | Status(checkedIn: bool, active: bool)

  predicate Confirms(read: StatusRead) {
    read.Status? && read.checkedIn
  }

  datatype AttemptState =
    | Running | FailedState | AlreadyState | Success | PendingConfirmation | NoActivity | GlobalState | Disabled

  datatype Result = Result(state: AttemptState, confirmed: bool, retryable: bool, confirmOnly: bool)

  /** The decision before the claim: an answer, or permission to send it. */
  function BeforeClaim(read: StatusRead, confirmOnly: bool): Option<Result> {
    match read
    case StatusError(retryable) => Some(Result(FailedState, false, retryable, confirmOnly))
    case NoStatus => Some(Result(FailedState, false, false, confirmOnly))
    case Status(checkedIn, active) =>
      if checkedIn then Some(Result(AlreadyState, true, false, false))
      else if confirmOnly then Some(Result(PendingConfirmation, false, true, true))
      else if !active then Some(Result(NoActivity, false, false, false))
      else None
  }

  /** The decision after the claim; `verify` is not read when the claim failed for certain. */
  function AfterClaim(claim: Claim, verify: StatusRead): Result {
    var already := claim.Failed? && claim.error.kind == Already;
    if claim.Failed? && !claim.error.retryable && !already && !claim.error.uncertain then Result(FailedState, false, false, false)
    else if Confirms(verify) then Result(if already then AlreadyState else Success, true, false, false)
    else if verify.StatusError? && !verify.retryable then Result(FailedState, false, false, true)
    else if claim.Failed? && claim.error.retryable then Result(FailedState, false, true, claim.error.uncertain)
    else if claim.Acknowledged? && !claim.success then Result(FailedState, false, false, false)
    else Result(PendingConfirmation, false, true, true)
  }

  /** The whole attempt: its result and whether it sent the claim. */
  function Attempt(before: StatusRead, confirmOnly: bool, reply: Reply, verify: StatusRead): (Result, bool) {
    var early := BeforeClaim(before, confirmOnly);
    if early.Some? then (early.value, false) else (AfterClaim(PerformClaim(reply), verify), true)
  }

  /** A claim is sent only for an active, unclaimed day with no checkpoint; an outcome that is not a
      definite refusal is confirmed by a status read or leaves a checkpoint; a checkpoint survives until
      confirmed; and only a status read confirms. */
  lemma AttemptIsSafe(before: StatusRead, confirmOnly: bool, reply: Reply, verify: StatusRead)
    ensures var (result, sent) := Attempt(before, confirmOnly, reply, verify);
            && (sent <==> before == Status(false, true) && !confirmOnly)
            && (sent && !DefinitelyRefused(reply) ==> result.confirmed || result.confirmOnly)
            && (confirmOnly ==> result.confirmed || result.confirmOnly)
            && (result.confirmed <==> Confirms(before) || (sent && Confirms(verify) && !HardFailure(reply)))
            && (result.confirmed ==> !result.confirmOnly && !result.retryable)
  {}

  /** The refusals after which the attempt does not even verify. */
  predicate HardFailure(reply: Reply) {
    DefinitelyRefused(reply) && reply.status != 429 && !NegativeReceipt(reply)
  }

  predicate NegativeReceipt(reply: Reply) {
    reply.Response? && 200 <= reply.status < 300 && reply.body == Receipt(Accepted(false))
  }

  predicate SaysAlready(reply: Reply) {
    reply.Response? && 200 <= reply.status < 300 && reply.body == Refused(true)
  }

  /** When an attempt may be repeated and when the repetition may only confirm. Before a claim: after a
      transient status error, or while a checkpoint waits. After one: unless it is confirmed, hard refused, or
      answered by an explicit negative receipt, or the verifying read failed for good; and only to confirm
      unless the claim was definitely refused. */
  lemma AttemptRepeats(before: StatusRead, confirmOnly: bool, reply: Reply, verify: StatusRead)
    ensures var (result, sent) := Attempt(before, confirmOnly, reply, verify);
            if !sent then
              && (result.retryable <==> before == StatusError(true) || (before.Status? && !before.checkedIn && confirmOnly))
              && (result.confirmOnly <==> confirmOnly && !result.confirmed)
            else
              && (result.retryable <==> !result.confirmed && !HardFailure(reply) && verify != StatusError(false) && !NegativeReceipt(reply))
              && (result.confirmOnly <==> !result.confirmed && !HardFailure(reply)
                                          && (verify == StatusError(false) || !DefinitelyRefused(reply)))
  {}

  /** What an attempt is reported as. */
  lemma AttemptReports(before: StatusRead, confirmOnly: bool, reply: Reply, verify: StatusRead)
    ensures var (result, sent) := Attempt(before, confirmOnly, reply, verify);
            && (result.state == Success <==> sent && result.confirmed && !SaysAlready(reply))
            && (result.state == AlreadyState <==> result.confirmed && (!sent || SaysAlready(reply)))
            && (result.state == NoActivity <==> before == Status(false, false) && !confirmOnly)
            && (result.state == PendingConfirmation ==> result.retryable && result.confirmOnly)
            && result.state in {Success, AlreadyState, NoActivity, PendingConfirmation, FailedState}
  {}
}
