/** Ordered commits, what fallbacks read, and what published snapshots mean, over every run. */
module ModelReadinessOrder {
  import opened Basics
  import opened ModelReadiness
  import opened ModelReadinessProtocol
  import opened ModelReadinessInvariant
  import opened ModelReadinessContent
  import Id = ModelReadinessIdentity

  /** In every reachable state the commits of one identity are strictly increasing in (configuration
      generation, sequence), and the stored file is at least as new as the last of them. */
  lemma CommitsOrdered(ss: seq<State>, steps: seq<Step>, k: nat, i: Identity)
    requires IsRun(ss, steps) && k < |ss|
    ensures var id := IdentityOf(ss[k].sh, i);
            && Id.Ordered(id.commits)
            && forall c | 0 <= c < |id.commits| :: i in ss[k].sh.disk && id.commits[c].NotAfter(ss[k].sh.disk[i].stamp)
  {
    RunInv(ss, steps, k);
    var s := ss[k];
    if i in s.sh.identities {
      var id := s.sh.identities[i];
      assert Id.CommitsOk(s.sh.config, id) && Id.DiskOk(i, id, s.sh.disk);
      forall c | 0 <= c < |id.commits| ensures i in s.sh.disk && id.commits[c].NotAfter(s.sh.disk[i].stamp) {
        assert id.commits[c].NotAfter(id.committed);
      }
    }
  }

  /** A call that was overtaken reads back a strictly newer catalog than its own. */
  lemma OvertakenReadsNewer(ss: seq<State>, steps: seq<Step>, k: nat, r: Request, env: Env)
    requires IsRun(ss, steps) && k < |ss| && r < |ss[k].pcs|
    requires ss[k].pcs[r].Working? && ss[k].pcs[r].stage.LoadCommitted?
    ensures var own := ss[k].pcs[r].own;
            var read := Stored(ss[k].sh, own.credential.identity, env);
            read.Some? ==> Stamp(own.config, ss[k].pcs[r].stage.sequence).Before(read.value.stamp)
  {
    RunInv(ss, steps, k);
    var s := ss[k];
    var i := s.pcs[r].own.credential.identity;
    assert Id.RoleOk(s.sh.config, s.sh.identities, s.sh.identityDone, r, Project(s.pcs, IdRole));
    assert Id.DiskOk(i, s.sh.identities[i], s.sh.disk);
  }

  // ----- the fallback of a failed fetch -----

  /** Step `m` commits stamp `p` for identity `i`. */
  predicate CommitsAt(ss: seq<State>, m: nat, i: Identity, p: Stamp) {
    m + 1 < |ss| && IdentityOf(ss[m + 1].sh, i).commits == IdentityOf(ss[m].sh, i).commits + [p]
  }

  lemma FetchCommits(sh: Shared, r: Request, own: Own, stage: Stage, env: Env, i: Identity)
    requires stage.FetchCatalog?
    ensures var sh' := ActFetch(sh, r, own, stage, env).0;
            IdentityOf(sh, i).commits <= IdentityOf(sh', i).commits && sh.identityDone <= sh'.identityDone
  {
    FetchCases(sh, r, own, stage, env);
  }

  lemma ActCommits(sh: Shared, r: Request, pc: Pc, env: Env, i: Identity)
    requires Runnable(sh, pc)
    ensures var sh' := Act(sh, r, pc, env).0;
            && IdentityOf(sh, i).commits <= IdentityOf(sh', i).commits
            && (IdentityOf(sh', i).commits != IdentityOf(sh, i).commits ==> pc.Working? && pc.stage.FetchCatalog?)
            && sh.identityDone <= sh'.identityDone
  {
    if pc.Working? && pc.stage.FetchCatalog? {
      FetchCommits(sh, r, pc.own, pc.stage, env, i);
    } else if !(pc.Working? && pc.stage.StartCall?) {
      OtherIdentityRole(sh, r, pc, env);
    }
  }

  lemma StepCommits(s: State, step: Step, i: Identity)
    requires Enabled(s, step)
    ensures var s' := Next(s, step);
            && IdentityOf(s.sh, i).commits <= IdentityOf(s'.sh, i).commits
            && (IdentityOf(s'.sh, i).commits != IdentityOf(s.sh, i).commits ==>
                  step.Run? && s.pcs[step.r].Working? && s.pcs[step.r].stage.FetchCatalog?)
            && s.sh.identityDone <= s'.sh.identityDone
  {
    if step.Run? { ActCommits(s.sh, step.r, s.pcs[step.r], step.env, i); }
  }

  lemma {:induction false} CommitsGrow(ss: seq<State>, steps: seq<Step>, j: nat, k: nat, i: Identity)
    requires IsRun(ss, steps) && j <= k < |ss|
    ensures IdentityOf(ss[j].sh, i).commits <= IdentityOf(ss[k].sh, i).commits
    ensures ss[j].sh.identityDone <= ss[k].sh.identityDone
    decreases k - j
  {
    if j < k {
      CommitsGrow(ss, steps, j, k - 1, i);
      assert ss[k - 1 + 1] == Next(ss[k - 1], steps[k - 1]);
      StepCommits(ss[k - 1], steps[k - 1], i);
    }
  }

  /** The waiter still waits for exactly these calls, or all of them have closed. */
  predicate WaitedFor(s: State, r: Request, waits: set<Request>) {
    r < |s.pcs| && ((s.pcs[r].Working? && s.pcs[r].stage.AwaitIdentity? && s.pcs[r].stage.waits == waits)
                    || waits <= s.sh.identityDone)
  }

  lemma {:induction false} WaitsClose(ss: seq<State>, steps: seq<Step>, j: nat, k: nat, r: Request, waits: set<Request>)
    requires IsRun(ss, steps) && j <= k < |ss| && WaitedFor(ss[j], r, waits)
    ensures WaitedFor(ss[k], r, waits)
    decreases k - j
  {
    if j < k {
      WaitsClose(ss, steps, j, k - 1, r, waits);
      assert ss[k - 1 + 1] == Next(ss[k - 1], steps[k - 1]);
      StepCommits(ss[k - 1], steps[k - 1], "");
    }
  }

  lemma FetchingIsOpen(s: State, w: Request)
    requires Inv(s) && w < |s.pcs| && s.pcs[w].Working? && s.pcs[w].stage.FetchCatalog?
    ensures w !in s.sh.identityDone
  {
    assert Id.RoleOk(s.sh.config, s.sh.identities, s.sh.identityDone, w, Project(s.pcs, IdRole));
  }

  /** Request `r` failed to fetch in step `j` while the calls `waits` were active, and falls back to the
      stored catalog in state `k`. Whatever any of those calls ever commits was committed before that
      read, and the catalog read is at least as new. */
  lemma FallbackAtLeastAsNew(ss: seq<State>, steps: seq<Step>, j: nat, k: nat, r: Request, w: Request, m: nat, p: Stamp, env: Env)
    requires IsRun(ss, steps) && j < k < |ss| && r < |ss[j].pcs| && r < |ss[k].pcs|
    requires ss[j].pcs[r].Working? && ss[j].pcs[r].stage.FetchCatalog?
    requires ss[j + 1].pcs[r].Working? && ss[j + 1].pcs[r].stage.AwaitIdentity? && w in ss[j + 1].pcs[r].stage.waits
    requires ss[k].pcs[r].Working? && ss[k].pcs[r].stage.Reload?
    requires m < |steps| && steps[m].Run? && steps[m].r == w && CommitsAt(ss, m, ss[k].pcs[r].own.credential.identity, p)
    ensures m < k
    ensures var read := Stored(ss[k].sh, ss[k].pcs[r].own.credential.identity, env);
            read.Some? ==> p.NotAfter(read.value.stamp)
  {
    var i := ss[k].pcs[r].own.credential.identity;
    WaitsClose(ss, steps, j + 1, k, r, ss[j + 1].pcs[r].stage.waits);
    CommitsBeforeClose(ss, steps, k, w, m, i, p);
    CommittedIsOld(ss, steps, k, m, i, p);
  }

  /** A commit by a call that is closed in state `k` happened before that state. */
  lemma CommitsBeforeClose(ss: seq<State>, steps: seq<Step>, k: nat, w: Request, m: nat, i: Identity, p: Stamp)
    requires IsRun(ss, steps) && k < |ss| && w in ss[k].sh.identityDone
    requires m < |steps| && steps[m].Run? && steps[m].r == w && CommitsAt(ss, m, i, p)
    ensures m < k
  {
    assert ss[m + 1] == Next(ss[m], steps[m]);
    StepCommits(ss[m], steps[m], i);
    RunInv(ss, steps, m);
    FetchingIsOpen(ss[m], w);
    if k <= m { CommitsGrow(ss, steps, k, m, i); }
  }

  lemma CommittedIsOld(ss: seq<State>, steps: seq<Step>, k: nat, m: nat, i: Identity, p: Stamp)
    requires IsRun(ss, steps) && m < k < |ss| && CommitsAt(ss, m, i, p)
    ensures i in ss[k].sh.disk && p.NotAfter(ss[k].sh.disk[i].stamp)
  {
    CommitsGrow(ss, steps, m + 1, k, i);
    CommitsOrdered(ss, steps, k, i);
    var n := |IdentityOf(ss[m].sh, i).commits|;
    assert IdentityOf(ss[k].sh, i).commits[n] == p;
  }

  // ----- what a published snapshot means -----

  /** In every reachable state: ready means both sources are good and there is no error, stale means some
      source is the cache, every other state lists nothing, and a configured snapshot lists exactly the
      models committed at the generation it was built for. */
  lemma SnapshotMeaning(ss: seq<State>, steps: seq<Step>, k: nat, a: AuthId)
    requires IsRun(ss, steps) && k < |ss| && SlotOf(ss[k].sh, a).current.Some?
    ensures var sn := SlotOf(ss[k].sh, a).current.value;
            && SnapshotOk(ss[k].configuredAt, sn)
            && (sn.Executable() && sn.modelSource == FromConfig && sn.builtAt == ss[k].sh.config ==>
                  sn.models == ss[k].sh.features.configured)
  {
    RunInv(ss, steps, k);
    assert SlotContentOk(ss[k].configuredAt, ss[k].sh.slots[a]);
  }

  lemma FinishStamps(sh: Shared, own: Own, r: Request, sn: Snapshot, a: AuthId)
    requires sn.builtAt == sn.config == own.config
    ensures var current := SlotOf(Finish(sh, own.auth, own.Key(), own.gen, r, sn).0, a).current;
            current != SlotOf(sh, a).current ==> current.Some? && current.value.builtAt == current.value.config == sh.config
  {}

  lemma EnterStamps(sh: Shared, b: AuthId, credential: Credential, r: Request, a: AuthId)
    ensures var current := SlotOf(Enter(sh, b, credential, r).0, a).current;
            current != SlotOf(sh, a).current ==> current.Some? && current.value.builtAt == current.value.config == sh.config
  {}

  /** Only a restore stores a snapshot under a generation it was not built for. */
  lemma OnlyRestoreRestamps(ss: seq<State>, steps: seq<Step>, k: nat, a: AuthId)
    requires IsRun(ss, steps) && k < |steps| && !steps[k].GiveBack?
    requires SlotOf(ss[k + 1].sh, a).current != SlotOf(ss[k].sh, a).current
    ensures SlotOf(ss[k + 1].sh, a).current.Some?
    ensures var sn := SlotOf(ss[k + 1].sh, a).current.value; sn.builtAt == sn.config == ss[k].sh.config
  {
    assert ss[k + 1] == Next(ss[k], steps[k]);
    if steps[k].Run? {
      RunInv(ss, steps, k);
      ActStamps(ss[k], steps[k].r, steps[k].env, a);
    } else {
      OutsideStamps(ss[k], steps[k], a);
    }
  }

  lemma OutsideStamps(s: State, step: Step, a: AuthId)
    requires Enabled(s, step) && !step.Run? && !step.GiveBack?
    ensures var current := SlotOf(Next(s, step).sh, a).current;
            current != SlotOf(s.sh, a).current ==> current.Some? && current.value.builtAt == current.value.config == s.sh.config
  {}

  lemma ActStamps(s: State, r: Request, env: Env, a: AuthId)
    requires ContentInv(s) && Enabled(s, Run(r, env))
    ensures var current := SlotOf(Act(s.sh, r, s.pcs[r], env).0, a).current;
            current != SlotOf(s.sh, a).current ==> current.Some? && current.value.builtAt == current.value.config == s.sh.config
  {
    assert PcOk(s, s.pcs[r]);
    match s.pcs[r]
    case Arrived(b, credential) => if credential.Some? { EnterStamps(s.sh, b, credential.value, r, a); }
    case AwaitAuth(_, _) =>
    case Working(own, stage) =>
      if stage.Publish? { FinishStamps(s.sh, own, r, stage.snapshot, a); } else { OwnerFrame(s.sh, r, own, stage, env); }
  }
}
