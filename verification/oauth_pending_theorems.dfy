/** What every run of a pending login guarantees, across crashes and failed writes. */
module OAuthPendingTheorems {
  import opened Basics
  import opened OAuthPending

  lemma {:induction false} RunInv(ss: seq<State>, actions: seq<Action>, k: nat)
    requires IsRun(ss, actions) && k < |ss|
    ensures Inv(ss[k])
  {
    if k > 0 {
      RunInv(ss, actions, k - 1);
      assert ss[k - 1 + 1] == Next(ss[k - 1], actions[k - 1]);
      NextKeepsInv(ss[k - 1], actions[k - 1]);
    }
  }

  /** Every in-memory stage yields a record that the store accepts. */
  lemma EveryStageIsValid(ss: seq<State>, actions: seq<Action>, k: nat)
    requires IsRun(ss, actions) && k < |ss|
    ensures ss[k].memory.Some? ==> ValidRecord(ss[k].memory.value, ss[k].now)
    ensures ss[k].disk.Some? ==> ValidRecord(ss[k].disk.value, ss[k].now)
  {
    RunInv(ss, actions, k);
    if ss[k].memory.Some? { StagedIsValid(ss[k].memory.value, ss[k].now); }
    if ss[k].disk.Some? { StagedIsValid(ss[k].disk.value, ss[k].now); }
  }

  /** Half an hour without a token, ten minutes with one, forty minutes in all. */
  predicate Lives(r: Record) {
    if r.tokenAt.None? then r.expires == r.created + 1800
    else r.expires == if r.tokenAt.value + 600 < r.created + 2400 then r.tokenAt.value + 600 else r.created + 2400
  }

  lemma Lifetimes(ss: seq<State>, actions: seq<Action>, k: nat)
    requires IsRun(ss, actions) && k < |ss|
    ensures ss[k].memory.Some? ==> Lives(ss[k].memory.value)
    ensures ss[k].disk.Some? ==> Lives(ss[k].disk.value)
  {
    RunInv(ss, actions, k);
  }

  // ----- whose account is delivered -----

  function TokenOf(r: Option<Record>): set<string> {
    if r.Some? && r.value.token.Some? then {r.value.token.value.access} else {}
  }

  function AccountOf(r: Option<Record>): set<Account> {
    if r.Some? && r.value.result.Some? then {r.value.result.value} else {}
  }

  /** Every token the state knows of: in memory, on disk, or just received. */
  function Tokens(s: State): set<string> {
    TokenOf(s.memory) + TokenOf(s.disk) + (if s.pc.ReceiveToken? then {s.pc.token.access} else {})
  }

  function Accounts(s: State): set<Account> {
    AccountOf(s.memory) + AccountOf(s.disk) + (if s.pc.Resolve? then {s.pc.account} else {})
  }

  /** The token endpoint answers the poll with token `x`. */
  predicate GivesToken(s: State, a: Action, x: string) {
    s.pc.AskToken? && a.Poll? && a.env.token == GotToken(x)
  }

  /** The account endpoint, asked with the token in memory, answers with account `u`. */
  predicate GivesAccount(s: State, a: Action, u: Account) {
    s.pc.AskAccount? && a.Poll? && a.env.account == GotAccount(u.uid) && TokenOf(s.memory) == {u.access}
  }

  /** Nothing new is known where records are only kept, copied or dropped. */
  lemma KeptBringsNothing(s: State, s': State)
    requires s'.memory == s.memory || s'.memory == s.disk || s'.memory == None
    requires s'.disk == s.disk || s'.disk == s.memory || s'.disk == None
    requires !s'.pc.ReceiveToken? && !s'.pc.Resolve?
    ensures Tokens(s') <= Tokens(s) && Accounts(s') <= Accounts(s)
  {}

  lemma CheckpointBringsNothing(s: State, r: Record, next: Pc, env: Env)
    requires s.memory == Some(r) && !next.ReceiveToken? && !next.Resolve?
    ensures var s' := CheckpointThen(s, r, next, env); Tokens(s') <= Tokens(s) && Accounts(s') <= Accounts(s)
  {
    KeptBringsNothing(s, CheckpointThen(s, r, next, env));
  }

  lemma LookupBringsNothing(s: State, panel: bool, env: Env)
    ensures var s' := DoLookup(s, panel, env); Tokens(s') <= Tokens(s) && Accounts(s') <= Accounts(s)
  {
    KeptBringsNothing(s, DoLookup(s, panel, env));
  }

  lemma ExpiryBringsNothing(s: State, r: Record, panel: bool, env: Env)
    requires s.memory == Some(r)
    ensures var s' := DoCheckExpiry(s, r, panel, env); Tokens(s') <= Tokens(s) && Accounts(s') <= Accounts(s)
  {
    KeptBringsNothing(s, DoCheckExpiry(s, r, panel, env));
  }

  lemma AskingBrings(s: State, r: Record, env: Env, x: string, u: Account)
    requires s.memory == Some(r) && (s.pc.AskToken? || s.pc.AskAccount?)
    ensures var s' := StepLogin(s, r, env);
            && (x in Tokens(s') ==> x in Tokens(s) || GivesToken(s, Poll(env), x))
            && (u in Accounts(s') ==> u in Accounts(s) || GivesAccount(s, Poll(env), u))
  {
    assert StepLogin(s, r, env).memory == s.memory && StepLogin(s, r, env).disk == s.disk;
  }

  lemma AcceptingBringsNothing(s: State, r: Record, env: Env)
    requires s.memory == Some(r) && (s.pc.ReceiveToken? || s.pc.Resolve? || s.pc.HostSave? || s.pc.Succeed?)
    ensures var s' := StepLogin(s, r, env); Tokens(s') <= Tokens(s) && Accounts(s') <= Accounts(s)
  {
    assert StepLogin(s, r, env).disk == s.disk;
  }

  lemma LoginBrings(s: State, r: Record, env: Env, x: string, u: Account)
    requires s.memory == Some(r) && !s.pc.Idle? && !s.pc.Lookup?
    ensures var s' := StepLogin(s, r, env);
            && (x in Tokens(s') ==> x in Tokens(s) || GivesToken(s, Poll(env), x))
            && (u in Accounts(s') ==> u in Accounts(s) || GivesAccount(s, Poll(env), u))
  {
    if IsCheckpoint(s.pc) {
      CheckpointLoginStep(s, r, env);
      CheckpointBringsNothing(s, r, Continuation(s.pc, r), env);
    } else if s.pc.CheckExpiry? {
      ExpiryBringsNothing(s, r, s.pc.panel, env);
    } else if s.pc.AskToken? || s.pc.AskAccount? {
      AskingBrings(s, r, env, x, u);
    } else {
      AcceptingBringsNothing(s, r, env);
    }
  }

  lemma NextBrings(s: State, a: Action, x: string, u: Account)
    requires Enabled(s, a)
    ensures x in Tokens(Next(s, a)) ==> x in Tokens(s) || GivesToken(s, a, x)
    ensures u in Accounts(Next(s, a)) ==> u in Accounts(s) || GivesAccount(s, a, u)
  {
    if a.Poll? {
      var t := s.(now := Clock(s, a.env));
      if s.pc.Lookup? {
        LookupBringsNothing(t, s.pc.panel, a.env);
      } else if s.memory.Some? && !s.pc.Idle? {
        LoginBrings(t, s.memory.value, a.env, x, u);
      }
    }
  }

  /** Any token in memory or on disk was the answer of an earlier request of some poll. */
  lemma {:induction false} TokenWasGiven(ss: seq<State>, actions: seq<Action>, k: nat, x: string) returns (m: nat)
    requires IsRun(ss, actions) && k < |ss| && x in Tokens(ss[k])
    ensures m < k && GivesToken(ss[m], actions[m], x)
  {
    assert k > 0;
    assert ss[k - 1 + 1] == Next(ss[k - 1], actions[k - 1]);
    NextBrings(ss[k - 1], actions[k - 1], x, Account("", ""));
    if x in Tokens(ss[k - 1]) { m := TokenWasGiven(ss, actions, k - 1, x); } else { m := k - 1; }
  }

  /** And any account was the answer to an earlier lookup with its own token. */
  lemma {:induction false} AccountWasGiven(ss: seq<State>, actions: seq<Action>, k: nat, u: Account) returns (m: nat)
    requires IsRun(ss, actions) && k < |ss| && u in Accounts(ss[k])
    ensures m < k && GivesAccount(ss[m], actions[m], u)
  {
    assert k > 0;
    assert ss[k - 1 + 1] == Next(ss[k - 1], actions[k - 1]);
    NextBrings(ss[k - 1], actions[k - 1], "", u);
    if u in Accounts(ss[k - 1]) { m := AccountWasGiven(ss, actions, k - 1, u); } else { m := k - 1; }
  }

  /** What is saved through the host or answered as success is the account that upstream named for the token it
      had given to this login. */
  lemma DeliversTheGivenAccount(ss: seq<State>, actions: seq<Action>, k: nat) returns (m: nat, n: nat)
    requires IsRun(ss, actions) && k < |ss| && (ss[k].pc.HostSave? || ss[k].pc.Succeed?)
    ensures ss[k].memory.Some? && ss[k].memory.value.result.Some?
    ensures m < n < k
    ensures GivesToken(ss[m], actions[m], ss[k].memory.value.result.value.access)
    ensures GivesAccount(ss[n], actions[n], ss[k].memory.value.result.value)
  {
    RunInv(ss, actions, k);
    var u := ss[k].memory.value.result.value;
    n := AccountWasGiven(ss, actions, k, u);
    assert u.access in TokenOf(ss[n].memory);
    m := TokenWasGiven(ss, actions, n, u.access);
  }

  /** With a store, the account lookup happens only with the token on disk, and the host save and the
      success answer only with the result on disk (the panel's success also with the save noted). The
      disk may lag only once the login has expired, because an expired record may be swept. */
  lemma DurableBeforeEffects(ss: seq<State>, actions: seq<Action>, k: nat)
    requires IsRun(ss, actions) && k < |ss|
    requires ss[k].pc.AskAccount? || ss[k].pc.HostSave? || ss[k].pc.Succeed?
    ensures ss[k].memory.Some? && ss[k].memory.value.token.Some?
    ensures ss[k].persistent && ss[k].now < ss[k].memory.value.expires ==> ss[k].disk == ss[k].memory
    ensures ss[k].pc.HostSave? || ss[k].pc.Succeed? ==> ss[k].memory.value.result.Some?
    ensures ss[k].pc == Succeed(true) ==> ss[k].memory.value.saved
  {
    RunInv(ss, actions, k);
  }

  predicate IsEffect(pc: Pc) {
    pc.AskAccount? || pc.HostSave? || pc.Succeed?
  }

  lemma ElsewhereNoEffect(s: State, r: Record, env: Env)
    requires !IsCheckpoint(s.pc) && !s.pc.Idle? && !s.pc.Lookup?
    ensures !IsEffect(StepLogin(s, r, env).pc)
  {}

  lemma LookupNoEffect(s: State, panel: bool, env: Env)
    ensures !IsEffect(DoLookup(s, panel, env).pc)
  {}

  lemma CheckpointPc(s: State, r: Record, next: Pc, env: Env)
    ensures CheckpointThen(s, r, next, env).pc == next || CheckpointThen(s, r, next, env).pc == Idle
  {}

  lemma EffectNeedsCheckpoint(s: State, env: Env)
    requires IsEffect(Step(s, env).pc)
    ensures s.memory.Some? && IsCheckpoint(s.pc) && Continuation(s.pc, s.memory.value) == Step(s, env).pc
  {
    var t := s.(now := Clock(s, env));
    if s.pc.Lookup? { LookupNoEffect(t, s.pc.panel, env); }
    if s.memory.Some? {
      var r := s.memory.value;
      if IsCheckpoint(s.pc) {
        CheckpointStep(s, env);
        CheckpointPc(t, r, Continuation(s.pc, r), env);
      } else if !s.pc.Idle? && !s.pc.Lookup? {
        ElsewhereNoEffect(t, r, env);
      }
    }
  }

  lemma EffectIsOnDisk(s: State, env: Env)
    requires s.persistent && IsEffect(Step(s, env).pc)
    ensures Step(s, env).memory.Some? && Step(s, env).disk == Step(s, env).memory
  {
    EffectNeedsCheckpoint(s, env);
    CheckpointStep(s, env);
  }

  lemma OthersKeepEffect(s: State, a: Action)
    requires Enabled(s, a) && !a.Poll? && IsEffect(Next(s, a).pc)
    ensures Next(s, a).pc == s.pc && Next(s, a).memory == s.memory && Next(s, a).persistent == s.persistent
  {}

  lemma StepKeepsStore(s: State, env: Env)
    ensures Step(s, env).persistent == s.persistent
  {
    var t := s.(now := Clock(s, env));
    if t.memory.Some? && t.pc != Idle && !t.pc.Lookup? { assert Step(s, env) == StepLogin(t, t.memory.value, env); }
  }

  /** Without any condition on time: what the effect acts on had been written to disk before it. */
  lemma {:induction false} WrittenBeforeEffects(ss: seq<State>, actions: seq<Action>, k: nat) returns (i: nat)
    requires IsRun(ss, actions) && k < |ss| && ss[k].persistent && IsEffect(ss[k].pc)
    ensures i <= k && ss[i].disk.Some? && ss[i].disk == ss[k].memory
  {
    var s, a := ss[k - 1], actions[k - 1];
    assert ss[k - 1 + 1] == Next(s, a) && Enabled(s, a);
    i := k;
    if a.Poll? {
      StepKeepsStore(s, a.env);
      EffectIsOnDisk(s, a.env);
    } else {
      OthersKeepEffect(s, a);
      i := WrittenBeforeEffects(ss, actions, k - 1);
    }
  }

  lemma LoginStepKeepsDurable(s: State, r: Record, env: Env)
    requires s.durable
    ensures StepLogin(s, r, env).durable
  {
    if IsCheckpoint(s.pc) { CheckpointLoginStep(s, r, env); }
  }

  lemma StepKeepsDurable(s: State, env: Env)
    requires s.durable
    ensures Step(s, env).durable
  {
    var t := s.(now := Clock(s, env));
    if t.memory.Some? { LoginStepKeepsDurable(t, t.memory.value, env); }
  }

  lemma {:induction false} DurableStays(ss: seq<State>, actions: seq<Action>, i: nat, j: nat)
    requires IsRun(ss, actions) && i <= j < |ss| && ss[i].durable
    ensures ss[j].durable
    decreases j - i
  {
    if i < j {
      DurableStays(ss, actions, i, j - 1);
      assert ss[j - 1 + 1] == Next(ss[j - 1], actions[j - 1]);
      if actions[j - 1].Poll? { StepKeepsDurable(ss[j - 1], actions[j - 1].env); }
    }
  }

  /** Once the checkpoint of a token succeeded, the token endpoint is never asked again: not by a later
      poll, and not after any number of restarts. */
  lemma NeverAskedAfterCheckpoint(ss: seq<State>, actions: seq<Action>, i: nat, j: nat)
    requires IsRun(ss, actions) && i < j < |ss| && ss[i].persistent
    requires ss[i].pc.CheckpointToken? && ss[i + 1].pc.AskAccount? && actions[i].Poll?
    ensures !ss[j].pc.AskToken? && !ss[j].pc.ReceiveToken?
  {
    RunInv(ss, actions, i);
    assert ss[i + 1] == Next(ss[i], actions[i]);
    DurableStays(ss, actions, i + 1, j);
    RunInv(ss, actions, j);
  }

  /** Step `m` drops the login after a token was received and fails to unlink a record without one. */
  predicate LeavesRecord(ss: seq<State>, m: nat) {
    m + 1 < |ss| && ss[m].received && ss[m].memory.Some? && ss[m + 1].memory.None?
    && ss[m + 1].disk.Some? && ss[m + 1].disk.value.token.None?
  }

  predicate SameProcess(actions: seq<Action>, m: nat, j: nat) {
    forall n | m <= n < j && n < |actions| :: !actions[n].Crash?
  }

  lemma {:induction false} LeftoverCause(ss: seq<State>, actions: seq<Action>, j: nat) returns (m: nat)
    requires IsRun(ss, actions) && j < |ss| && ss[j].leftover
    ensures m < j && LeavesRecord(ss, m) && SameProcess(actions, m, j)
  {
    assert ss[j - 1 + 1] == Next(ss[j - 1], actions[j - 1]);
    LeftoverSurvives(ss[j - 1], actions[j - 1]);
    if ss[j - 1].leftover {
      m := LeftoverCause(ss, actions, j - 1);
      ProcessGoesOn(actions, m, j);
    } else {
      m := j - 1;
      NewLeftover(ss, actions, j);
    }
  }

  lemma ProcessGoesOn(actions: seq<Action>, m: nat, j: nat)
    requires m < j <= |actions| && SameProcess(actions, m, j - 1) && !actions[j - 1].Crash?
    ensures SameProcess(actions, m, j)
  {}

  lemma NewLeftover(ss: seq<State>, actions: seq<Action>, j: nat)
    requires IsRun(ss, actions) && 0 < j < |ss| && ss[j].leftover && !ss[j - 1].leftover
    ensures LeavesRecord(ss, j - 1) && SameProcess(actions, j - 1, j)
  {
    assert ss[j - 1 + 1] == Next(ss[j - 1], actions[j - 1]);
    RunInv(ss, actions, j - 1);
    LeftoverArises(ss[j - 1], actions[j - 1]);
  }

  lemma LeftoverSurvives(s: State, a: Action)
    requires Next(s, a).leftover
    ensures !a.Crash?
  {}

  lemma LeftoverArises(s: State, a: Action)
    requires Inv(s) && Enabled(s, a) && !s.leftover && Next(s, a).leftover
    ensures var s' := Next(s, a);
            s.received && s.memory.Some? && s'.memory.None? && s'.disk.Some? && s'.disk.value.token.None? && !a.Crash?
  {
    if a.Poll? { StepLeavesOver(s, a.env); }
  }

  lemma StepLeavesOver(s: State, env: Env)
    requires Inv(s) && !s.leftover && Step(s, env).leftover
    ensures var s' := Step(s, env);
            s.received && s.memory.Some? && s'.memory.None? && s'.disk.Some? && s'.disk.value.token.None?
  {
    var t := s.(now := Clock(s, env));
    if t.memory.Some? && !t.pc.CheckExpiry? { OthersLeaveNothing(t, t.memory.value, env); }
  }

  lemma OthersLeaveNothing(s: State, r: Record, env: Env)
    requires !s.pc.CheckExpiry?
    ensures StepLogin(s, r, env).leftover == s.leftover
  {
    if IsCheckpoint(s.pc) { CheckpointLoginStep(s, r, env); }
  }

  /** Within one process the token endpoint is asked again after a token was received only if, in between,
      dropping the login failed to unlink a record without a token. */
  lemma AskedAgainOnlyAfterLeftover(ss: seq<State>, actions: seq<Action>, j: nat) returns (m: nat)
    requires IsRun(ss, actions) && j < |ss| && ss[j].pc.AskToken? && ss[j].received
    ensures m < j && LeavesRecord(ss, m) && SameProcess(actions, m, j)
  {
    RunInv(ss, actions, j);
    m := LeftoverCause(ss, actions, j);
  }

  /** The login a poll goes on with: the one in memory, or else a readable, unexpired record. */
  function Resumed(s: State, look: Env): Option<Record> {
    if s.memory.Some? then s.memory
    else if s.persistent && s.disk.Some? && !look.readFails && Clock(s, look) < s.disk.value.expires then s.disk
    else None
  }

  /** And that does happen: a poll asks for the token exactly when the login it goes on with has none and has
      not expired, and with nothing in memory that login is whatever record is on disk. */
  lemma AsksTokenExactly(s: State, panel: bool, look: Env, check: Env)
    requires Inv(s) && s.pc == Lookup(panel)
    ensures var s1, login := Step(s, look), Resumed(s, look);
            (s1.pc == CheckExpiry(panel) && Step(s1, check).pc.AskToken?)
            <==> login.Some? && login.value.token.None? && Clock(s1, check) < login.value.expires
  {
    LookupResumes(s, panel, look);
    var s1 := Step(s, look);
    if s1.pc == CheckExpiry(panel) { ExpiryAsks(s1, panel, check); }
  }

  lemma LookupResumes(s: State, panel: bool, look: Env)
    requires Inv(s) && s.pc == Lookup(panel)
    ensures var s1, login := Step(s, look), Resumed(s, look);
            (s1.pc == CheckExpiry(panel) <==> login.Some?) && (login.Some? ==> s1.memory == login)
  {
    assert Step(s, look) == DoLookup(s.(now := Clock(s, look)), panel, look);
    if s.disk.Some? { StagedIsValid(s.disk.value, Clock(s, look)); }
  }

  lemma ExpiryAsks(s: State, panel: bool, check: Env)
    requires s.pc == CheckExpiry(panel) && s.memory.Some?
    ensures Step(s, check).pc.AskToken? <==> s.memory.value.token.None? && Clock(s, check) < s.memory.value.expires
  {
    assert Step(s, check) == DoCheckExpiry(s.(now := Clock(s, check)), s.memory.value, panel, check);
  }

  lemma Append(ss: seq<State>, actions: seq<Action>, a: Action) returns (longer: seq<State>, more: seq<Action>)
    requires IsRun(ss, actions) && Enabled(ss[|ss| - 1], a)
    ensures IsRun(longer, more) && more == actions + [a] && |longer| == |ss| + 1
    ensures longer[|longer| - 1] == Next(ss[|ss| - 1], a)
  {
    longer, more := ss + [Next(ss[|ss| - 1], a)], actions + [a];
    forall k | 0 <= k < |more| ensures Enabled(longer[k], more[k]) && longer[k + 1] == Next(longer[k], more[k]) {
      if k < |actions| { assert ss[k + 1] == Next(ss[k], actions[k]); }
    }
  }

  const EARLY := Env(300, true, false, false, GotToken("t"), AccountFailed, FailedKept, false)
  const LATE := EARLY.(at := 1000)

  /** A token received at 300 s that could not be checkpointed is in memory only. */
  lemma TokenInMemoryOnly() returns (ss: seq<State>, actions: seq<Action>)
    ensures IsRun(ss, actions) && forall a | a in actions :: !a.Crash?
    ensures ss[|ss| - 1] == State(true, Some(WithToken(NewLogin(0), Token("t"), 300)), Some(NewLogin(0)), 300, Idle, true, false, false)
  {
    ss, actions := [State(true, Some(NewLogin(0)), Some(NewLogin(0)), 0, Idle, false, false, false)], [];
    ss, actions := Append(ss, actions, StartPoll(false));
    ss, actions := Append(ss, actions, Poll(EARLY));
    ss, actions := Append(ss, actions, Poll(EARLY));
    assert ss[|ss| - 1].pc.AskToken?;
    ss, actions := Append(ss, actions, Poll(EARLY));
    ss, actions := Append(ss, actions, Poll(EARLY));
    assert ss[|ss| - 1].pc.CheckpointToken?;
    ss, actions := Append(ss, actions, Poll(EARLY));
  }

  /** A concrete run of one process that receives a token at 300 s, cannot checkpoint it, drops the login
      at 1000 s without managing to unlink its record, and asks for the token again. */
  lemma AskedTwiceInOneProcess() returns (ss: seq<State>, actions: seq<Action>)
    ensures IsRun(ss, actions) && (forall a | a in actions :: !a.Crash?)
    ensures ss[|ss| - 1].received && ss[|ss| - 1].pc.AskToken?
  {
    ss, actions := TokenInMemoryOnly();
    ss, actions := Append(ss, actions, StartPoll(false));
    ss, actions := Append(ss, actions, Poll(LATE));
    ss, actions := Append(ss, actions, Poll(LATE));
    assert ss[|ss| - 1] == State(true, None, Some(NewLogin(0)), 1000, Idle, true, false, true);
    ss, actions := Append(ss, actions, StartPoll(false));
    ss, actions := Append(ss, actions, Poll(LATE));
    assert ss[|ss| - 1].pc.CheckExpiry?;
    ss, actions := Append(ss, actions, Poll(LATE));
  }
}
