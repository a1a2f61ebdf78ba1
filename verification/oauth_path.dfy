/** The path of one poll through the machine: what a finished poll has done, and when it must succeed. */
module OAuthPath {
  import opened Basics
  import opened OAuthPending

  /** The states a poll passes through, each the next step of the one before. */
  ghost predicate IsPath(trace: seq<State>, script: Pc -> Env) {
    && trace != []
    && forall k {:trigger trace[k + 1]} | 0 <= k < |trace| - 1 :: trace[k].pc != Idle && trace[k + 1] == Step(trace[k], script(trace[k].pc))
  }

  /** The path of a finished poll; it answered success exactly when its last step was the success step. */
  ghost predicate Finished(trace: seq<State>, script: Pc -> Env, start: State, end: State, success: bool) {
    && IsPath(trace, script) && trace[0] == start && trace[|trace| - 1] == end && end.pc == Idle
    && (success <==> |trace| >= 2 && trace[|trace| - 2].pc.Succeed?)
  }

  ghost predicate Reached(trace: seq<State>, script: Pc -> Env, start: State, end: State) {
    IsPath(trace, script) && trace[0] == start && trace[|trace| - 1] == end
  }

  lemma Extend(trace: seq<State>, script: Pc -> Env, start: State, mid: State, end: State) returns (longer: seq<State>)
    requires Reached(trace, script, start, mid) && mid.pc != Idle && end == Step(mid, script(mid.pc))
    ensures longer == trace + [end] && Reached(longer, script, start, end)
    ensures end.pc == Idle ==> Finished(longer, script, start, end, mid.pc.Succeed?)
  {
    longer := trace + [end];
    forall k {:trigger longer[k + 1]} | 0 <= k < |longer| - 1
      ensures longer[k].pc != Idle && longer[k + 1] == Step(longer[k], script(longer[k].pc))
    {
      if k < |trace| - 1 { assert trace[k + 1] == longer[k + 1]; }
    }
  }

  // ----- what a finished poll has done -----

  lemma PathStep(trace: seq<State>, script: Pc -> Env, k: nat)
    requires IsPath(trace, script) && k + 1 < |trace|
    ensures trace[k].pc != Idle && trace[k + 1] == Step(trace[k], script(trace[k].pc))
  {}

  lemma {:induction false} PathInv(trace: seq<State>, script: Pc -> Env, k: nat)
    requires IsPath(trace, script) && k < |trace| && Inv(trace[0])
    ensures Inv(trace[k])
  {
    if k > 0 {
      PathInv(trace, script, k - 1);
      PathStep(trace, script, k - 1);
      StepKeepsInv(trace[k - 1], script(trace[k - 1].pc));
    }
  }

  /** A success answers with an account, durable if there is a store, and for the panel already saved. */
  predicate Delivered(s: State, panel: bool) {
    s.memory.Some? && s.memory.value.result.Some? && OnDisk(s) && (panel ==> s.memory.value.saved)
  }

  lemma PanelStays(s: State, env: Env, panel: bool)
    requires PanelOf(s.pc, panel)
    ensures PanelOf(Step(s, env).pc, panel)
  {
    if s.memory.Some? && IsCheckpoint(s.pc) {
      CheckpointStep(s, env);
    } else if s.memory.Some? && !s.pc.Idle? && !s.pc.Lookup? {
      LoginPanelStays(s.(now := Clock(s, env)), s.memory.value, env, panel);
    }
  }

  lemma LoginPanelStays(s: State, r: Record, env: Env, panel: bool)
    requires PanelOf(s.pc, panel) && !IsCheckpoint(s.pc)
    ensures PanelOf(StepLogin(s, r, env).pc, panel)
  {}

  /** Every stage belongs to the poll that the panel started, or to one that it did not. */
  predicate PanelOf(pc: Pc, panel: bool) {
    match pc
    case Lookup(p) => p == panel
    case CheckExpiry(p) => p == panel
    case AskToken(p) => p == panel
    case ReceiveToken(p, _) => p == panel
    case CheckpointToken(p) => p == panel
    case AskAccount(p) => p == panel
    case Resolve(p, _) => p == panel
    case CheckpointResult(p) => p == panel
    case Succeed(p) => p == panel
    case HostSave => panel
    case CheckpointSaved => panel
    case CheckpointAndStop => true
    case Idle => true
  }

  lemma {:induction false} PathPanel(trace: seq<State>, script: Pc -> Env, panel: bool, k: nat)
    requires IsPath(trace, script) && k < |trace| && PanelOf(trace[0].pc, panel)
    ensures PanelOf(trace[k].pc, panel)
  {
    if k > 0 {
      PathPanel(trace, script, panel, k - 1);
      PathStep(trace, script, k - 1);
      PanelStays(trace[k - 1], script(trace[k - 1].pc), panel);
    }
  }

  lemma AnsweringKeeps(s: State, env: Env)
    requires s.pc.Succeed? && s.memory.Some?
    ensures Step(s, env) == s.(now := Clock(s, env), pc := Idle)
  {}

  lemma PollOutcome(trace: seq<State>, script: Pc -> Env, start: State, end: State, success: bool, panel: bool)
    requires Finished(trace, script, start, end, success) && start.pc == Lookup(panel)
    ensures Inv(start) ==> Inv(end) && (success ==> Delivered(end, panel))
  {
    if Inv(start) {
      PathInv(trace, script, |trace| - 1);
      if success {
        var k := |trace| - 2;
        PathInv(trace, script, k);
        PathPanel(trace, script, panel, k);
        assert trace[k + 1] == Step(trace[k], script(trace[k].pc));
        AnsweringKeeps(trace[k], script(trace[k].pc));
      }
    }
  }

  // ----- when it must succeed -----

  /** Nothing goes wrong: the client is ready, the endpoints answer, writes work and the host saves. */
  ghost predicate Good(script: Pc -> Env, x: string, uid: string) {
    forall pc: Pc ::
      var env := script(pc);
      env.ready && !env.readFails && env.token == GotToken(x) && env.account == GotAccount(uid) && env.write == Written && env.hostSaved
  }

  function Found(s: State): Option<Record> {
    if s.memory.Some? then s.memory else s.disk
  }

  /** There is a login, it has not expired when the poll checks, and whatever it lacks upstream will give. */
  ghost predicate Promising(s: State, script: Pc -> Env, x: string, uid: string) {
    && s.pc.Lookup? && Good(script, x, uid) && !Blank(x) && !Blank(uid) && Found(s).Some?
    && var r := Found(s).value;
    && s.now < r.expires && script(s.pc).at < r.expires && script(CheckExpiry(s.pc.panel)).at < r.expires
    && (r.token.Some? && r.result.None? ==> !Blank(r.token.value.access))
  }

  /** The account such a poll answers with: the one it has, or the one upstream names for its token. */
  ghost function Expected(s: State, script: Pc -> Env, x: string, uid: string): Account
    requires Promising(s, script, x, uid)
  {
    var r := Found(s).value;
    if r.result.Some? then r.result.value else Account(if r.token.Some? then r.token.value.access else x, uid)
  }

  /** The poll is on its way to answering with `u`. */
  ghost predicate OnTrack(s: State, script: Pc -> Env, x: string, uid: string, u: Account) {
    && Inv(s) && s.memory.Some? && !s.pc.Idle? && !s.pc.Lookup? && !s.pc.CheckpointAndStop?
    && var r := s.memory.value;
    && (s.pc.CheckExpiry? ==> s.now < r.expires && script(s.pc).at < r.expires)
    && (if r.token.Some? then r.token.value.access == u.access && (r.result.None? ==> !Blank(u.access))
        else u.access == x && (s.pc.CheckExpiry? || s.pc.AskToken? || (s.pc.ReceiveToken? && s.pc.token == Token(x))))
    && (if r.result.Some? then r.result.value == u else u.uid == uid)
    && (s.pc.Resolve? ==> s.pc.account == u)
  }

  lemma FindsLogin(s: State, script: Pc -> Env, x: string, uid: string)
    requires Inv(s) && Promising(s, script, x, uid)
    ensures OnTrack(Step(s, script(s.pc)), script, x, uid, Expected(s, script, x, uid))
  {
    var env := script(s.pc);
    StepKeepsInv(s, env);
    assert Step(s, env) == DoLookup(s.(now := Clock(s, env)), s.pc.panel, env);
    if s.memory.None? { StagedIsValid(s.disk.value, Clock(s, env)); }
  }

  lemma CheckpointOnTrack(s: State, env: Env)
    requires Inv(s) && s.memory.Some? && IsCheckpoint(s.pc) && env.write == Written
    ensures Step(s, env).pc == Continuation(s.pc, s.memory.value) && Step(s, env).memory == s.memory
  {
    CheckpointStep(s, env);
    TickKeepsInv(s, env);
    StagedIsValid(s.memory.value, Clock(s, env));
  }

  lemma StaysOnTrack(s: State, script: Pc -> Env, x: string, uid: string, u: Account)
    requires Good(script, x, uid) && !Blank(x) && !Blank(uid) && OnTrack(s, script, x, uid, u) && !s.pc.Succeed?
    ensures OnTrack(Step(s, script(s.pc)), script, x, uid, u)
  {
    var env := script(s.pc);
    StepKeepsInv(s, env);
    if IsCheckpoint(s.pc) {
      CheckpointOnTrack(s, env);
    } else {
      var t := s.(now := Clock(s, env));
      assert Step(s, env) == StepLogin(t, s.memory.value, env);
      RequestOnTrack(t, s, script, x, uid, u);
    }
  }

  lemma RequestOnTrack(t: State, s: State, script: Pc -> Env, x: string, uid: string, u: Account)
    requires Good(script, x, uid) && !Blank(x) && !Blank(uid) && OnTrack(s, script, x, uid, u) && !s.pc.Succeed? && !IsCheckpoint(s.pc)
    requires t == s.(now := Clock(s, script(s.pc))) && Inv(StepLogin(t, s.memory.value, script(s.pc)))
    ensures OnTrack(StepLogin(t, s.memory.value, script(s.pc)), script, x, uid, u)
  {}

  lemma {:induction false} PathOnTrack(trace: seq<State>, script: Pc -> Env, x: string, uid: string, k: nat)
    requires IsPath(trace, script) && Inv(trace[0]) && Promising(trace[0], script, x, uid)
    requires 0 < k < |trace| && trace[k].pc != Idle
    ensures OnTrack(trace[k], script, x, uid, Expected(trace[0], script, x, uid))
  {
    PathStep(trace, script, k - 1);
    if k == 1 {
      FindsLogin(trace[0], script, x, uid);
    } else {
      PathOnTrack(trace, script, x, uid, k - 1);
      if trace[k - 1].pc.Succeed? {
        AnsweringKeeps(trace[k - 1], script(trace[k - 1].pc));
      } else {
        StaysOnTrack(trace[k - 1], script, x, uid, Expected(trace[0], script, x, uid));
      }
    }
  }

  /** A poll of a live login in a good world succeeds, with exactly the account that upstream names. */
  lemma GoodPollSucceeds(trace: seq<State>, script: Pc -> Env, start: State, end: State, success: bool, panel: bool,
                         x: string, uid: string)
    requires Finished(trace, script, start, end, success) && start.pc == Lookup(panel)
    requires Inv(start) && Promising(start, script, x, uid)
    ensures success && end.memory.Some? && end.memory.value.result == Some(Expected(start, script, x, uid))
  {
    var k := |trace| - 2;
    assert trace[k + 1] == Step(trace[k], script(trace[k].pc));
    if k == 0 {
      FindsLogin(start, script, x, uid);
    } else {
      PathOnTrack(trace, script, x, uid, k);
      if trace[k].pc.Succeed? {
        AnsweringKeeps(trace[k], script(trace[k].pc));
      } else {
        StaysOnTrack(trace[k], script, x, uid, Expected(start, script, x, uid));
      }
    }
  }
}
