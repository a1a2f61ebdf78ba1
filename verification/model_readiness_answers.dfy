/** What the answers of every run list, and whose models they are. */
module ModelReadinessAnswers {
  import opened Basics
  import opened ModelReadiness
  import opened ModelReadinessProtocol
  import opened ModelReadinessInvariant
  import opened ModelReadinessThread
  import opened ModelReadinessSources

  /** Step `m` is request `r` working on the call described by `own`. */
  predicate WorksIn(ss: seq<State>, steps: seq<Step>, m: nat, r: Request, own: Own) {
    && m < |steps| && m < |ss| && steps[m].Run? && steps[m].r == r
    && r < |ss[m].pcs| && ss[m].pcs[r].Working? && ss[m].pcs[r].own == own
  }

  predicate FetchesIn(ss: seq<State>, steps: seq<Step>, m: nat, r: Request, own: Own, models: seq<ModelId>) {
    WorksIn(ss, steps, m, r, own) && ss[m].pcs[r].stage.FetchCatalog? && steps[m].env.fetch == GotCatalog(models)
  }

  predicate ReadsIn(ss: seq<State>, steps: seq<Step>, m: nat, r: Request, own: Own, models: seq<ModelId>) {
    && WorksIn(ss, steps, m, r, own) && !steps[m].env.readFails
    && own.credential.identity in ss[m].sh.disk && ss[m].sh.disk[own.credential.identity].models == models
  }

  lemma {:induction false} ArrivedBefore(ss: seq<State>, steps: seq<Step>, k: nat, r: Request) returns (i: nat)
    requires IsRun(ss, steps) && k < |ss| && r < |ss[k].pcs| && ss[k].pcs[r].Working?
    ensures i < k && r < |ss[i].pcs| && ss[i].pcs[r].Arrived?
  {
    var s, step := ss[k - 1], steps[k - 1];
    assert ss[k - 1 + 1] == Next(s, step);
    if r < |s.pcs| && s.pcs[r].Arrived? {
      i := k - 1;
    } else {
      WorkingWasWorking(s, step, r);
      i := ArrivedBefore(ss, steps, k - 1, r);
    }
  }

  lemma WorkingWasWorking(s: State, step: Step, r: Request)
    requires Enabled(s, step) && r < |Next(s, step).pcs| && Next(s, step).pcs[r].Working?
    requires r < |s.pcs| ==> !s.pcs[r].Arrived?
    ensures r < |s.pcs| && s.pcs[r].Working?
  {}

  /** In every run, an executable answer lists exactly the models its request fetched or read back as fresh, or read
      from the store of its identity as the cache, or was configured with. */
  lemma PublishedModels(ss: seq<State>, steps: seq<Step>, k: nat, r: Request, own: Own, sn: Snapshot)
    requires IsRun(ss, steps) && k < |ss| && r < |ss[k].pcs| && ss[k].pcs[r] == Working(own, Publish(sn)) && sn.Executable()
    ensures sn.modelSource == FromFresh ==>
              exists m: nat :: m < k && (FetchesIn(ss, steps, m, r, own, sn.models)
                                         || (ReadsIn(ss, steps, m, r, own, sn.models) && ss[m].pcs[r].stage.LoadCommitted?))
    ensures sn.modelSource == FromCache ==>
              exists m: nat :: m < k && ReadsIn(ss, steps, m, r, own, sn.models)
                               && (ss[m].pcs[r].stage.LoadCache? || ss[m].pcs[r].stage.Reload?)
    ensures sn.modelSource == FromConfig ==> sn.models == own.configured
    ensures sn.modelSource != FromNothing
    ensures sn.state == Ready <==> sn.modelSource != FromCache && sn.metadataSource == FromFresh
  {
    var i := ArrivedBefore(ss, steps, k, r);
    var t, script, at := ThreadOf(ss, steps, i, k, r);
    var n := |t.path|;
    ExecutableIsSourced(t, script, n, own, sn);
    if sn.modelSource == FromFresh {
      if m: nat :| m < n && FetchesAt(t, script, m, own, sn.models) {
        assert FetchesIn(ss, steps, at[m], r, own, sn.models);
      } else {
        var m: nat :| m < n && ReadsAt(t, script, m, own, sn.models) && t.Before(m).stage.LoadCommitted?;
        assert ReadsIn(ss, steps, at[m], r, own, sn.models);
      }
    } else if sn.modelSource == FromCache {
      var m: nat :| m < n && ReadsAt(t, script, m, own, sn.models) && (t.Before(m).stage.LoadCache? || t.Before(m).stage.Reload?);
      assert ReadsIn(ss, steps, at[m], r, own, sn.models);
    }
  }

  // ----- whose models they are -----

  /** Some request of an account of identity `i` fetched these models in step `m`. */
  ghost predicate FetchedFor(ss: seq<State>, steps: seq<Step>, m: nat, i: Identity, models: seq<ModelId>) {
    exists q, own :: FetchesIn(ss, steps, m, q, own, models) && own.credential.identity == i
  }

  lemma FetchWrites(sh: Shared, r: Request, own: Own, stage: Stage, env: Env, i: Identity)
    requires stage.FetchCatalog?
    ensures var disk := ActFetch(sh, r, own, stage, env).0.disk;
            i in disk && !(i in sh.disk && disk[i] == sh.disk[i]) ==>
              i == own.credential.identity && env.fetch == GotCatalog(disk[i].models)
  {}

  lemma OnlyFetchesWrite(s: State, step: Step, i: Identity)
    requires Enabled(s, step) && i in Next(s, step).sh.disk && !(i in s.sh.disk && Next(s, step).sh.disk[i] == s.sh.disk[i])
    ensures step.Run? && s.pcs[step.r].Working? && s.pcs[step.r].stage.FetchCatalog?
    ensures s.pcs[step.r].own.credential.identity == i && step.env.fetch == GotCatalog(Next(s, step).sh.disk[i].models)
  {
    if step.Run? {
      var pc := s.pcs[step.r];
      if pc.Working? && pc.stage.FetchCatalog? {
        FetchWrites(s.sh, step.r, pc.own, pc.stage, step.env, i);
      } else {
        OthersKeepDisk(s.sh, step.r, pc, step.env);
      }
    }
  }

  lemma OthersKeepDisk(sh: Shared, r: Request, pc: Pc, env: Env)
    requires Runnable(sh, pc) && !(pc.Working? && pc.stage.FetchCatalog?)
    ensures Act(sh, r, pc, env).0.disk == sh.disk
  {
    if pc.Working? && !pc.stage.Publish? && !pc.stage.StartCall? { OwnerIdentityFrame(sh, r, pc.own, pc.stage, env); }
  }

  /** The stored catalog of an identity was there at the start, or was fetched for that identity. */
  lemma {:induction false} StoredWasFetched(ss: seq<State>, steps: seq<Step>, k: nat, i: Identity)
    requires IsRun(ss, steps) && k < |ss| && i in ss[k].sh.disk
    ensures (i in ss[0].sh.disk && ss[k].sh.disk[i] == ss[0].sh.disk[i])
            || exists m: nat :: m < k && FetchedFor(ss, steps, m, i, ss[k].sh.disk[i].models)
  {
    if k > 0 {
      var s, step := ss[k - 1], steps[k - 1];
      assert ss[k - 1 + 1] == Next(s, step);
      if i in s.sh.disk && ss[k].sh.disk[i] == s.sh.disk[i] {
        StoredWasFetched(ss, steps, k - 1, i);
      } else {
        OnlyFetchesWrite(s, step, i);
        assert FetchesIn(ss, steps, k - 1, step.r, s.pcs[step.r].own, ss[k].sh.disk[i].models);
        assert FetchedFor(ss, steps, k - 1, i, ss[k].sh.disk[i].models);
      }
    }
  }

  /** No answer lists another identity's models: unless they are configured, they were fetched for the identity of the
      account in this process, or stored for it before. */
  lemma ModelsBelongToIdentity(ss: seq<State>, steps: seq<Step>, k: nat, r: Request, own: Own, sn: Snapshot)
    requires IsRun(ss, steps) && k < |ss| && r < |ss[k].pcs| && ss[k].pcs[r] == Working(own, Publish(sn)) && sn.Executable()
    requires sn.modelSource != FromConfig
    ensures var i := own.credential.identity;
            (i in ss[0].sh.disk && sn.models == ss[0].sh.disk[i].models) || exists m: nat :: m < k && FetchedFor(ss, steps, m, i, sn.models)
  {
    PublishedModels(ss, steps, k, r, own, sn);
    if m: nat :| m < k && FetchesIn(ss, steps, m, r, own, sn.models) {
      assert FetchedFor(ss, steps, m, own.credential.identity, sn.models);
    } else {
      var m: nat :| m < k && ReadsIn(ss, steps, m, r, own, sn.models);
      StoredWasFetched(ss, steps, m, own.credential.identity);
    }
  }
}
