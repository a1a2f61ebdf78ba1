/** The login context and its poll, updated in place. */
module OAuthPoll {
  import opened Basics
  import opened OAuthPath
  import opened OAuthPending

  class PendingLogin {
    const persistent: bool
    var memory: Option<Record>
    var disk: Option<Record>
    var now: int
    ghost var received: bool
    ghost var durable: bool
    ghost var leftover: bool

    ghost function At(pc: Pc): State
      reads this
    {
      State(persistent, memory, disk, now, pc, received, durable, leftover)
    }

    constructor (persistent: bool, created: int)
      ensures Init(At(Idle)) && memory == Some(NewLogin(created)) && now == created
    {
      this.persistent := persistent;
      memory, now := Some(NewLogin(created)), created;
      disk := if persistent then Some(NewLogin(created)) else None;
      received, durable, leftover := false, false, false;
    }

    method Tick(env: Env)
      modifies this`now
      ensures now == if env.at >= old(now) then env.at else old(now)
    {
      if env.at >= now { now := env.at; }
    }

    method Persist(ghost pc: Pc, env: Env) returns (ok: bool)
      requires memory.Some?
      modifies this`disk, this`durable
      ensures (At(pc), ok) == Checkpoint(old(At(pc)), memory.value, env)
    {
      if !persistent { return true; }
      var r := memory.value;
      if !ValidRecord(r, now) { return false; }
      match env.write
      case Written =>
        disk := memory;
        durable := durable || r.token.Some?;
        ok := true;
      case FailedKept => ok := false;
      case FailedSwept =>
        disk := None;
        ok := false;
      case FailedButWritten =>
        disk := memory;
        ok := false;
    }

    method Remove(ghost pc: Pc, env: Env)
      modifies this`memory, this`disk, this`leftover
      ensures memory == None && At(pc) == Unlink(old(At(pc)), env).(memory := None)
    {
      UnlinkRecord(pc, env);
      memory := None;
    }

    method UnlinkRecord(ghost pc: Pc, env: Env)
      modifies this`disk, this`leftover
      ensures At(pc) == Unlink(old(At(pc)), env)
    {
      if !persistent || disk.None? { return; }
      if env.unlinked {
        disk := None;
      } else {
        leftover := leftover || (received && disk.value.token.None?);
      }
    }

    // Each stage is one step of the machine, done in place.

    /** Finds the login in memory, or restores it from disk without any request. */
    method Find(panel: bool, env: Env) returns (found: bool)
      modifies this
      ensures At(if found then CheckExpiry(panel) else Idle) == Step(old(At(Lookup(panel))), env)
      ensures found ==> memory.Some?
    {
      Tick(env);
      if memory.Some? { return true; }
      if !persistent || disk.None? { return false; }
      if env.readFails || !ValidRecord(disk.value, now) || disk.value.expires <= now {
        Remove(Idle, env);
        return false;
      }
      memory := disk;
      found := true;
    }

    method DropExpired(panel: bool, env: Env) returns (alive: bool)
      requires memory.Some?
      modifies this
      ensures alive ==> memory == old(memory)
      ensures At(if !alive then Idle else Resume(panel)) == Step(old(At(CheckExpiry(panel))), env)
    {
      Tick(env);
      alive := now < memory.value.expires;
      if !alive { Remove(Idle, env); }
    }

    method AcceptToken(panel: bool, token: Token, env: Env)
      requires memory.Some?
      modifies this
      ensures memory.Some? && memory.value.token == Some(token) && memory.value.tokenAt == Some(now)
      ensures memory.value.expires == (if now + 600 < memory.value.created + 2400 then now + 600 else memory.value.created + 2400)
      ensures memory.value == old(memory.value).(token := memory.value.token, tokenAt := memory.value.tokenAt, expires := memory.value.expires)
      ensures At(if memory.value.result.None? then CheckpointToken(panel) else CheckpointResult(panel))
              == Step(old(At(ReceiveToken(panel, token))), env)
    {
      Tick(env);
      memory := Some(WithToken(memory.value, token, now));
      received := true;
    }

    /** Every checkpoint of the poll: on success it continues at `next`, otherwise it stops. */
    method PersistThen(ghost from: Pc, ghost next: Pc, env: Env) returns (ok: bool)
      requires memory.Some? && IsCheckpoint(from) && Continuation(from, memory.value) == next
      modifies this`now, this`disk, this`durable
      ensures At(if ok then next else Idle) == Step(old(At(from)), env)
    {
      CheckpointStep(At(from), env);
      Tick(env);
      ok := Persist(from, env);
    }

    method AskForToken(panel: bool, env: Env) returns (ghost next: Pc, stop: bool, token: Option<Token>)
      requires memory.Some?
      modifies this`now
      ensures At(next) == Step(old(At(AskToken(panel))), env)
      ensures next == if token.Some? then ReceiveToken(panel, token.value) else if stop then Idle else CheckpointAndStop
    {
      Tick(env);
      stop, token, next := false, None, CheckpointAndStop;
      if !env.ready {
        stop, next := true, Idle;
      } else if env.token.GotToken? && env.token.access != "" {
        token := Some(Token(env.token.access));
        next := ReceiveToken(panel, token.value);
      }
    }

    method AskForAccount(panel: bool, env: Env) returns (ghost next: Pc, stop: bool, account: Option<Account>)
      requires memory.Some? && memory.value.token.Some?
      modifies this`now
      ensures At(next) == Step(old(At(AskAccount(panel))), env)
      ensures next == if account.Some? then Resolve(panel, account.value) else if stop then Idle else CheckpointAndStop
    {
      Tick(env);
      stop, account, next := true, None, Idle;
      var access := memory.value.token.value.access;
      if env.ready && env.account.AccountFailed? {
        stop, next := false, CheckpointAndStop;
      } else if env.ready && env.account.GotAccount? && !Blank(access) && !Blank(env.account.uid) {
        account := Some(Account(access, env.account.uid));
        next := Resolve(panel, account.value);
      }
    }

    method AcceptAccount(panel: bool, account: Account, env: Env)
      requires memory.Some?
      modifies this
      ensures memory == Some(old(memory.value).(result := Some(account)))
      ensures At(CheckpointResult(panel)) == Step(old(At(Resolve(panel, account))), env)
    {
      Tick(env);
      memory := Some(memory.value.(result := Some(account)));
    }

    method SaveToHost(env: Env) returns (ok: bool)
      requires memory.Some?
      modifies this
      ensures memory == Some(if ok then old(memory.value).(saved := true) else old(memory.value)) && (ok ==> env.hostSaved)
      ensures At(if ok then CheckpointSaved else Idle) == Step(old(At(HostSave)), env)
    {
      Tick(env);
      ok := env.ready && env.hostSaved;
      if ok { memory := Some(memory.value.(saved := true)); }
    }

    /** Asks the token endpoint; an answer without a token checkpoints and stops. */
    method ObtainToken(panel: bool, script: Pc -> Env, ghost start: State, ghost trace: seq<State>) returns (got: bool, ghost path: seq<State>)
      requires memory.Some? && Reached(trace, script, start, At(AskToken(panel)))
      modifies this
      ensures got ==> memory.Some? && memory.value.token.Some?
      ensures got ==> Reached(path, script, start, At(if memory.value.result.None? then CheckpointToken(panel) else CheckpointResult(panel)))
      ensures !got ==> Finished(path, script, start, At(Idle), false)
    {
      ghost var s := At(AskToken(panel));
      var next, stop, token := AskForToken(panel, script(AskToken(panel)));
      path := Extend(trace, script, start, s, At(next));
      if token.Some? {
        s := At(next);
        AcceptToken(panel, token.value, script(ReceiveToken(panel, token.value)));
        path := Extend(path, script, start, s, At(if memory.value.result.None? then CheckpointToken(panel) else CheckpointResult(panel)));
        return true, path;
      }
      got := false;
      if !stop {
        s := At(next);
        var _ := PersistThen(CheckpointAndStop, Idle, script(CheckpointAndStop));
        path := Extend(path, script, start, s, At(Idle));
      }
    }

    /** Looks the account up once the token is durable. */
    method ObtainResult(panel: bool, script: Pc -> Env, ghost start: State, ghost trace: seq<State>) returns (got: bool, ghost path: seq<State>)
      requires memory.Some? && memory.value.token.Some? && Reached(trace, script, start, At(CheckpointToken(panel)))
      modifies this
      ensures got ==> memory.Some? && Reached(path, script, start, At(CheckpointResult(panel)))
      ensures !got ==> Finished(path, script, start, At(Idle), false)
    {
      ghost var s := At(CheckpointToken(panel));
      got := PersistThen(CheckpointToken(panel), AskAccount(panel), script(CheckpointToken(panel)));
      path := Extend(trace, script, start, s, At(if got then AskAccount(panel) else Idle));
      if !got { return; }
      s := At(AskAccount(panel));
      var next, stop, account := AskForAccount(panel, script(AskAccount(panel)));
      path := Extend(path, script, start, s, At(next));
      if account.Some? {
        s := At(next);
        AcceptAccount(panel, account.value, script(Resolve(panel, account.value)));
        path := Extend(path, script, start, s, At(CheckpointResult(panel)));
        return true, path;
      }
      got := false;
      if !stop {
        s := At(next);
        var _ := PersistThen(CheckpointAndStop, Idle, script(CheckpointAndStop));
        path := Extend(path, script, start, s, At(Idle));
      }
    }

    /** Saves the account through the host and checkpoints that it did. */
    method Save(script: Pc -> Env, ghost start: State, ghost trace: seq<State>) returns (ok: bool, ghost path: seq<State>)
      requires memory.Some? && Reached(trace, script, start, At(HostSave))
      modifies this
      ensures ok ==> memory.Some? && Reached(path, script, start, At(Succeed(true)))
      ensures !ok ==> Finished(path, script, start, At(Idle), false)
    {
      ghost var s := At(HostSave);
      ok := SaveToHost(script(HostSave));
      path := Extend(trace, script, start, s, At(if ok then CheckpointSaved else Idle));
      if !ok { return; }
      s := At(CheckpointSaved);
      ok := PersistThen(CheckpointSaved, Succeed(true), script(CheckpointSaved));
      path := Extend(path, script, start, s, At(if ok then Succeed(true) else Idle));
    }

    /** Makes the result durable, saves it through the host for the panel, and answers success. */
    method Deliver(panel: bool, script: Pc -> Env, ghost start: State, ghost trace: seq<State>) returns (success: bool, ghost path: seq<State>)
      requires memory.Some? && Reached(trace, script, start, At(CheckpointResult(panel)))
      modifies this
      ensures Finished(path, script, start, At(Idle), success)
    {
      ghost var s := At(CheckpointResult(panel));
      var toSave := panel && !memory.value.saved;
      ghost var next := if toSave then HostSave else Succeed(panel);
      success := PersistThen(CheckpointResult(panel), next, script(CheckpointResult(panel)));
      path := Extend(trace, script, start, s, At(if success then next else Idle));
      if !success { return; }
      if toSave {
        success, path := Save(script, start, path);
        if !success { return; }
      }
      path := Answer(panel, script, start, path);
    }

    method Answer(panel: bool, script: Pc -> Env, ghost start: State, ghost trace: seq<State>) returns (ghost path: seq<State>)
      requires memory.Some? && Reached(trace, script, start, At(Succeed(panel)))
      modifies this
      ensures Finished(path, script, start, At(Idle), true)
    {
      ghost var s := At(Succeed(panel));
      Tick(script(Succeed(panel)));
      path := Extend(trace, script, start, s, At(Idle));
    }

    /** One whole poll. `script` is what the world answers at each point the poll reaches; the poll takes
        exactly the steps of the machine. */
    method PollOAuthPending(panel: bool, script: Pc -> Env) returns (success: bool, ghost path: seq<State>)
      modifies this
      ensures Finished(path, script, old(At(Lookup(panel))), At(Idle), success)
      ensures old(Inv(At(Lookup(panel)))) ==> Inv(At(Idle)) && (success ==> Delivered(At(Idle), panel))
      ensures forall x, uid | old(Inv(At(Lookup(panel)))) && old(Promising(At(Lookup(panel)), script, x, uid)) ::
                success && memory.value.result == Some(old(Expected(At(Lookup(panel)), script, x, uid)))
    {
      success, path := Poll(panel, script);
      PollOutcome(path, script, path[0], At(Idle), success, panel);
      forall x, uid | Inv(path[0]) && Promising(path[0], script, x, uid)
        ensures success && memory.Some? && memory.value.result == Some(Expected(path[0], script, x, uid))
      {
        GoodPollSucceeds(path, script, path[0], At(Idle), success, panel, x, uid);
      }
    }

    method Poll(panel: bool, script: Pc -> Env) returns (success: bool, ghost path: seq<State>)
      modifies this
      ensures Finished(path, script, old(At(Lookup(panel))), At(Idle), success)
    {
      ghost var start := At(Lookup(panel));
      ghost var s := start;
      success := false;
      var going := Find(panel, script(Lookup(panel)));
      path := Extend([s], script, start, s, At(if going then CheckExpiry(panel) else Idle));
      if !going { return; }
      s := At(CheckExpiry(panel));
      going := DropExpired(panel, script(CheckExpiry(panel)));
      ghost var next := if !going then Idle else Resume(panel);
      path := Extend(path, script, start, s, At(next));
      if !going { return; }
      if memory.value.token.None? {
        going, path := ObtainToken(panel, script, start, path);
        if !going { return; }
      }
      if memory.value.result.None? {
        going, path := ObtainResult(panel, script, start, path);
        if !going { return; }
      }
      success, path := Deliver(panel, script, start, path);
    }

    ghost function Resume(panel: bool): Pc
      reads this
      requires memory.Some?
    {
      if memory.value.token.None? then AskToken(panel)
      else if memory.value.result.None? then CheckpointToken(panel)
      else CheckpointResult(panel)
    }
  }
}
