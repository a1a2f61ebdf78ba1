/**
 One pending login: the record kept in memory and on disk, and the staged poll that moves it from no
 token to token, result and saved. A step of the machine is one effect or one checkpoint; the process may
 crash between any two of them, and every write may fail with or without having taken effect.
 */
module OAuthPending {
  import opened Basics

  const MINUTE := 60
  const LOGIN_TTL := 30 * MINUTE
  const RESULT_TTL := 10 * MINUTE

  datatype Token = Token(access: string)

  datatype Account = Account(access: string, uid: string)

  /** Times are seconds; a record without a token has no `tokenAt`. */
  datatype Record = Record(created: int, expires: int, token: Option<Token>, tokenAt: Option<int>, result: Option<Account>, saved: bool)

  function NewLogin(created: int): Record {
    Record(created, created + LOGIN_TTL, None, None, None, false)
  }

  /** What a checkpoint must look like to be written or read back, cookies and profile aside. */
  predicate ValidRecord(r: Record, now: int) {
    && r.created <= now + MINUTE && r.created < r.expires <= r.created + LOGIN_TTL + RESULT_TTL
    && (if r.token.Some? then
          && r.token.value.access != "" && r.tokenAt.Some?
          && r.created <= r.tokenAt.value <= now + MINUTE && r.expires <= r.tokenAt.value + RESULT_TTL
        else r.result.None? && !r.saved && r.tokenAt.None? && r.expires <= r.created + LOGIN_TTL)
    && (r.result.Some? ==> r.token.Some? && r.result.value.access == r.token.value.access && !Blank(r.result.value.uid))
    && (r.saved ==> r.result.Some?)
  }

  /** What the token endpoint answered: an error or an answer without a token just means "not yet". */
  datatype TokenReply = NoToken | GotToken(access: string)

  datatype AccountReply = AccountFailed | AccountUnparsed | GotAccount(uid: string)

  /** A failed write may have swept the old record or already renamed the new one into place. */
  datatype WriteOutcome = Written | FailedKept | FailedSwept | FailedButWritten

  datatype Env = Env(at: int, ready: bool, readFails: bool, unlinked: bool, token: TokenReply, account: AccountReply,
                     write: WriteOutcome, hostSaved: bool)

  /** The next thing the poll does. */
  datatype Pc =
    | Idle
    | Lookup(panel: bool)
    | CheckExpiry(panel: bool)
    | AskToken(panel: bool)
    | ReceiveToken(panel: bool, token: Token)
    | CheckpointAndStop
    | CheckpointToken(panel: bool)
    | AskAccount(panel: bool)
    | Resolve(panel: bool, account: Account)
    | CheckpointResult(panel: bool)
    | HostSave
    | CheckpointSaved
    | Succeed(panel: bool)

  /** `received`: this process was given a token. `durable`: some token checkpoint was acknowledged.
      `leftover`: since then this process dropped the login but failed to unlink a record without a token.
      These three are bookkeeping of the run, not state of the program. */
  datatype State = State(
    persistent: bool, memory: Option<Record>, disk: Option<Record>, now: int, pc: Pc,
    received: bool, durable: bool, leftover: bool)

  function Clock(s: State, env: Env): int {
    if env.at >= s.now then env.at else s.now
  }

  /** A checkpoint of the login in memory; without a store it trivially succeeds. */
  function Checkpoint(s: State, r: Record, env: Env): (State, bool) {
    if !s.persistent then (s, true)
    else if !ValidRecord(r, s.now) then (s, false)
    else match env.write
         case Written => (s.(disk := Some(r), durable := s.durable || r.token.Some?), true)
         case FailedKept => (s, false)
         case FailedSwept => (s.(disk := None), false)
         case FailedButWritten => (s.(disk := Some(r)), false)
  }

  function Unlink(s: State, env: Env): State {
    if !s.persistent || s.disk.None? then s
    else if env.unlinked then s.(disk := None)
    else s.(leftover := s.leftover || (s.received && s.disk.value.token.None?))
  }

  function DoLookup(s: State, panel: bool, env: Env): State {
    if s.memory.Some? then s.(pc := CheckExpiry(panel))
    else if !s.persistent || s.disk.None? then s.(pc := Idle)
    else if !env.readFails && ValidRecord(s.disk.value, s.now) && s.now < s.disk.value.expires then
      s.(memory := s.disk, pc := CheckExpiry(panel))
    else Unlink(s, env).(pc := Idle)
  }

  function DoCheckExpiry(s: State, r: Record, panel: bool, env: Env): State {
    if s.now >= r.expires then Unlink(s, env).(memory := None, pc := Idle)
    else if r.token.None? then s.(pc := AskToken(panel))
    else if r.result.None? then s.(pc := CheckpointToken(panel))
    else s.(pc := CheckpointResult(panel))
  }

  function WithToken(r: Record, token: Token, now: int): Record {
    var hard := r.created + LOGIN_TTL + RESULT_TTL;
    r.(token := Some(token), tokenAt := Some(now), expires := if now + RESULT_TTL > hard then hard else now + RESULT_TTL)
  }

  /** Checkpoints and then continues at `next`, or stops on failure. */
  function CheckpointThen(s: State, r: Record, next: Pc, env: Env): State {
    var (s', ok) := Checkpoint(s, r, env);
    s'.(pc := if ok then next else Idle)
  }

  /** One step of the poll; a poll with no login in memory only looks it up. */
  function Step(s0: State, env: Env): State {
    var s := s0.(now := Clock(s0, env));
    match s.pc
    case Idle => s
    case Lookup(panel) => DoLookup(s, panel, env)
    case _ => if s.memory.None? then s.(pc := Idle) else StepLogin(s, s.memory.value, env)
  }

  function StepLogin(s: State, r: Record, env: Env): State {
    match s.pc
    case Idle => s
    case Lookup(_) => s
    case CheckExpiry(panel) => DoCheckExpiry(s, r, panel, env)
    case AskToken(panel) =>
      if !env.ready then s.(pc := Idle)
      else if env.token.NoToken? || env.token.access == "" then s.(pc := CheckpointAndStop)
      else s.(pc := ReceiveToken(panel, Token(env.token.access)))
    case ReceiveToken(panel, token) =>
      s.(memory := Some(WithToken(r, token, s.now)), received := true,
         pc := if r.result.None? then CheckpointToken(panel) else CheckpointResult(panel))
    case CheckpointAndStop => CheckpointThen(s, r, Idle, env)
    case CheckpointToken(panel) => CheckpointThen(s, r, AskAccount(panel), env)
    case AskAccount(panel) =>
      if !env.ready then s.(pc := Idle)
      else if env.account.AccountFailed? then s.(pc := CheckpointAndStop)
      else if env.account.AccountUnparsed? || r.token.None? || Blank(r.token.value.access) || Blank(env.account.uid) then s.(pc := Idle)
      else s.(pc := Resolve(panel, Account(r.token.value.access, env.account.uid)))
    case Resolve(panel, account) => s.(memory := Some(r.(result := Some(account))), pc := CheckpointResult(panel))
    case CheckpointResult(panel) => CheckpointThen(s, r, if panel && !r.saved then HostSave else Succeed(panel), env)
    case HostSave =>
      if !env.ready || !env.hostSaved then s.(pc := Idle)
      else s.(memory := Some(r.(saved := true)), pc := CheckpointSaved)
    case CheckpointSaved => CheckpointThen(s, r, Succeed(true), env)
    case Succeed(_) => s.(pc := Idle)
  }

  predicate IsCheckpoint(pc: Pc) {
    pc.CheckpointAndStop? || pc.CheckpointToken? || pc.CheckpointResult? || pc.CheckpointSaved?
  }

  /** Where the poll goes on once the checkpoint it stands at has succeeded. */
  function Continuation(pc: Pc, r: Record): Pc
    requires IsCheckpoint(pc)
  {
    match pc
    case CheckpointAndStop => Idle
    case CheckpointToken(panel) => AskAccount(panel)
    case CheckpointResult(panel) => if panel && !r.saved then HostSave else Succeed(panel)
    case CheckpointSaved => Succeed(true)
  }

  lemma CheckpointLoginStep(s: State, r: Record, env: Env)
    requires IsCheckpoint(s.pc)
    ensures StepLogin(s, r, env) == CheckpointThen(s, r, Continuation(s.pc, r), env)
  {}

  lemma CheckpointStep(s: State, env: Env)
    requires s.memory.Some? && IsCheckpoint(s.pc)
    ensures Step(s, env) == CheckpointThen(s.(now := Clock(s, env)), s.memory.value, Continuation(s.pc, s.memory.value), env)
  {
    CheckpointLoginStep(s.(now := Clock(s, env)), s.memory.value, env);
  }

  /** The poll steps, a new poll arrives, the janitor or another login's write sweeps an expired record,
      an idle expired login is dropped, or the process crashes and starts again. */
  datatype Action = Poll(env: Env) | StartPoll(panel: bool) | Sweep(env: Env) | Prune(env: Env) | Crash

  predicate Enabled(s: State, a: Action) {
    match a
    case Poll(_) => s.pc != Idle
    case StartPoll(_) => s.pc == Idle
    case Sweep(env) => s.disk.Some? && s.disk.value.expires <= Clock(s, env)
    case Prune(env) => s.pc == Idle && s.memory.Some? && s.memory.value.expires <= Clock(s, env)
    case Crash => true
  }

  function Next(s: State, a: Action): State {
    match a
    case Poll(env) => Step(s, env)
    case StartPoll(panel) => s.(pc := Lookup(panel))
    case Sweep(env) => s.(now := Clock(s, env), disk := None)
    case Prune(env) => Unlink(s, env).(now := Clock(s, env), memory := None)
    case Crash => s.(memory := None, pc := Idle, received := false, leftover := false)
  }

  /** A login just registered; the registration's own write may have failed either way. */
  predicate Init(s: State) {
    && s.pc == Idle && !s.received && !s.durable && !s.leftover
    && (s.memory.None? || s.memory == Some(NewLogin(s.now)))
    && (s.disk.None? || (s.persistent && s.disk == Some(NewLogin(s.now))))
  }

  ghost predicate IsRun(ss: seq<State>, actions: seq<Action>) {
    && |ss| == |actions| + 1 && Init(ss[0])
    && forall k {:trigger ss[k + 1]} {:trigger actions[k]} | 0 <= k < |actions| :: Enabled(ss[k], actions[k]) && ss[k + 1] == Next(ss[k], actions[k])
  }

  // ----- the invariant -----

  /** The shape of every record the poll ever holds or writes. */
  predicate Staged(r: Record, now: int) {
    && r.created <= now
    && (if r.token.None? then r.tokenAt.None? && r.result.None? && !r.saved && r.expires == r.created + LOGIN_TTL
        else
          && r.token.value.access != "" && r.tokenAt.Some? && r.created <= r.tokenAt.value <= now
          && r.expires == (if r.tokenAt.value + RESULT_TTL > r.created + LOGIN_TTL + RESULT_TTL
                           then r.created + LOGIN_TTL + RESULT_TTL else r.tokenAt.value + RESULT_TTL))
    && (r.result.Some? ==> r.token.Some? && r.result.value.access == r.token.value.access && !Blank(r.result.value.uid))
    && (r.saved ==> r.result.Some?)
  }

  lemma StagedIsValid(r: Record, now: int)
    requires Staged(r, now)
    ensures ValidRecord(r, now)
  {}

  /** The login in memory is on disk, unless it has expired meanwhile and may have been swept. */
  predicate OnDisk(s: State) {
    s.persistent && s.memory.Some? ==> s.disk == s.memory || s.memory.value.expires <= s.now
  }

  predicate PcOk(s: State) {
    match s.pc
    case Idle => true
    case Lookup(_) => true
    case CheckExpiry(_) => true
    case AskToken(_) => s.memory.Some? && s.memory.value.token.None?
    case ReceiveToken(_, token) => s.memory.Some? && s.memory.value.token.None? && token.access != "" && !s.durable
    case CheckpointAndStop => true
    case CheckpointToken(_) => s.memory.Some? && s.memory.value.token.Some? && s.memory.value.result.None?
    case AskAccount(_) => s.memory.Some? && s.memory.value.token.Some? && s.memory.value.result.None? && OnDisk(s)
    case Resolve(_, account) =>
      && s.memory.Some? && s.memory.value.token.Some? && s.memory.value.result.None? && !s.memory.value.saved
      && account.access == s.memory.value.token.value.access && !Blank(account.uid)
    case CheckpointResult(_) => s.memory.Some? && s.memory.value.result.Some?
    case HostSave => s.memory.Some? && s.memory.value.result.Some? && OnDisk(s)
    case CheckpointSaved => s.memory.Some? && s.memory.value.saved
    case Succeed(panel) => s.memory.Some? && s.memory.value.result.Some? && (panel ==> s.memory.value.saved) && OnDisk(s)
  }

  /** The parts of the invariant that do not depend on where the poll stands. */
  predicate Core(s: State) {
    && (s.memory.Some? ==> Staged(s.memory.value, s.now))
    && (s.disk.Some? ==> s.persistent && Staged(s.disk.value, s.now))
    && (s.durable ==> (s.memory.Some? ==> s.memory.value.token.Some?) && (s.disk.Some? ==> s.disk.value.token.Some?))
    && (s.received && s.memory.Some? && s.memory.value.token.None? ==> s.leftover)
    && (s.received && s.memory.None? && s.disk.Some? && s.disk.value.token.None? ==> s.leftover)
  }

  predicate Inv(s: State) {
    Core(s) && PcOk(s)
  }

  /** A checkpoint keeps the invariant whatever the write does, and success means the login is on disk. */
  lemma CheckpointKeepsCore(s: State, r: Record, env: Env)
    requires Core(s) && s.memory == Some(r)
    ensures var (s', ok) := Checkpoint(s, r, env);
            Core(s') && s'.memory == s.memory && s'.now == s.now && (ok ==> OnDisk(s'))
  {
    StagedIsValid(r, s.now);
  }

  lemma TickKeepsInv(s: State, env: Env)
    requires Inv(s)
    ensures Inv(s.(now := Clock(s, env)))
  {}

  lemma CheckpointThenShape(s: State, r: Record, next: Pc, env: Env)
    requires Core(s) && s.memory == Some(r)
    ensures var s' := CheckpointThen(s, r, next, env);
            Core(s') && s'.memory == s.memory && (s'.pc == Idle || (s'.pc == next && OnDisk(s')))
  {
    CheckpointKeepsCore(s, r, env);
  }

  lemma CheckpointStepKeepsInv(s: State, r: Record, env: Env)
    requires Inv(s) && s.memory == Some(r) && IsCheckpoint(s.pc)
    ensures Inv(CheckpointThen(s, r, Continuation(s.pc, r), env))
  {
    CheckpointThenShape(s, r, Continuation(s.pc, r), env);
  }

  lemma UnlinkKeepsCore(s: State, env: Env)
    requires Core(s)
    ensures Core(Unlink(s, env).(memory := None))
  {}

  lemma ExpiryKeepsInv(s: State, r: Record, env: Env)
    requires Inv(s) && s.memory == Some(r) && s.pc.CheckExpiry?
    ensures Inv(DoCheckExpiry(s, r, s.pc.panel, env))
  {
    if s.now >= r.expires {
      UnlinkKeepsCore(s, env);
      DroppingKeepsInv(s, Unlink(s, env).(memory := None));
    } else {
      assert DoCheckExpiry(s, r, s.pc.panel, env).(pc := s.pc) == s;
    }
  }

  lemma DroppingKeepsInv(s: State, dropped: State)
    requires Core(dropped)
    ensures Inv(dropped.(pc := Idle))
  {}

  lemma TokenStepKeepsInv(s: State, r: Record, env: Env)
    requires Inv(s) && s.memory == Some(r) && (s.pc.AskToken? || s.pc.ReceiveToken?)
    ensures Inv(StepLogin(s, r, env))
  {}

  lemma AccountStepKeepsInv(s: State, r: Record, env: Env)
    requires Inv(s) && s.memory == Some(r) && s.pc.AskAccount?
    ensures Inv(StepLogin(s, r, env))
  {}

  lemma ResultStepKeepsInv(s: State, r: Record, env: Env)
    requires Inv(s) && s.memory == Some(r) && s.pc.Resolve?
    ensures Inv(StepLogin(s, r, env))
  {}

  lemma SaveStepKeepsInv(s: State, r: Record, env: Env)
    requires Inv(s) && s.memory == Some(r) && (s.pc.HostSave? || s.pc.Succeed? || s.pc.Idle? || s.pc.Lookup?)
    ensures Inv(StepLogin(s, r, env))
  {}

  lemma LoginKeepsInv(s: State, r: Record, env: Env)
    requires Inv(s) && s.memory == Some(r)
    ensures Inv(StepLogin(s, r, env))
  {
    if IsCheckpoint(s.pc) {
      CheckpointLoginStep(s, r, env);
      CheckpointStepKeepsInv(s, r, env);
    } else if s.pc.CheckExpiry? {
      ExpiryKeepsInv(s, r, env);
    } else if s.pc.AskToken? || s.pc.ReceiveToken? {
      TokenStepKeepsInv(s, r, env);
    } else if s.pc.AskAccount? {
      AccountStepKeepsInv(s, r, env);
    } else if s.pc.Resolve? {
      ResultStepKeepsInv(s, r, env);
    } else {
      SaveStepKeepsInv(s, r, env);
    }
  }

  lemma LookupKeepsInv(s: State, panel: bool, env: Env)
    requires Inv(s)
    ensures Inv(DoLookup(s, panel, env))
  {
    UnlinkKeepsCore(s, env);
  }

  lemma StepKeepsInv(s0: State, env: Env)
    requires Inv(s0)
    ensures Inv(Step(s0, env))
  {
    var s := s0.(now := Clock(s0, env));
    TickKeepsInv(s0, env);
    match s.pc
    case Idle =>
    case Lookup(panel) => LookupKeepsInv(s, panel, env);
    case _ => if s.memory.Some? { LoginKeepsInv(s, s.memory.value, env); }
  }

  lemma NextKeepsInv(s: State, a: Action)
    requires Inv(s) && Enabled(s, a)
    ensures Inv(Next(s, a))
  {
    if a.Poll? { StepKeepsInv(s, a.env); }
  }
}
