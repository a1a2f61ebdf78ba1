/** What published snapshots say, and the protocol invariant over whole runs. */
module ModelReadinessContent {
  import opened Basics
  import opened ModelReadiness
  import opened ModelReadinessProtocol
  import opened ModelReadinessInvariant
  import Auth = ModelReadinessAuth
  import Id = ModelReadinessIdentity
  import Meta = ModelReadinessMetadata

  /** Generations and configuration only move forward. */
  ghost predicate Ages(sh: Shared, sh': Shared) {
    && sh.config <= sh'.config
    && forall a :: SlotOf(sh, a).nextAuth <= SlotOf(sh', a).nextAuth
  }

  lemma EnterAges(sh: Shared, a: AuthId, credential: Credential, r: Request)
    ensures Ages(sh, Enter(sh, a, credential, r).0)
  {}

  lemma PublishBareAges(sh: Shared, a: AuthId, snapshot: Snapshot)
    ensures Ages(sh, PublishBare(sh, a, snapshot).0)
  {}

  lemma FinishAges(sh: Shared, own: Own, r: Request, snapshot: Snapshot)
    ensures Ages(sh, Finish(sh, own.auth, own.Key(), own.gen, r, snapshot).0)
  {}

  lemma RunAges(sh: Shared, r: Request, pc: Pc, env: Env)
    requires Runnable(sh, pc)
    ensures Ages(sh, Act(sh, r, pc, env).0)
  {
    match pc
    case Arrived(a, credential) =>
      if credential.Some? { EnterAges(sh, a, credential.value, r); }
      else { PublishBareAges(sh, a, EmptySnapshot(Failed, AuthInvalid, sh.config, 0)); }
    case AwaitAuth(_, _) =>
    case Working(own, stage) =>
      if stage.Publish? { FinishAges(sh, own, r, stage.snapshot); } else { OwnerFrame(sh, r, own, stage, env); }
  }

  lemma NextAges(s: State, step: Step)
    requires Enabled(s, step)
    ensures Ages(s.sh, Next(s, step).sh)
  {
    if step.Run? { RunAges(s.sh, step.r, s.pcs[step.r], step.env); }
  }

  lemma PcAges(s: State, s': State, pc: Pc)
    requires PcOk(s, pc) && s.configuredAt <= s'.configuredAt && Ages(s.sh, s'.sh)
    ensures PcOk(s', pc)
  {}

  lemma BuildOk(configuredAt: seq<seq<ModelId>>, own: Own, choice: Choice, metadata: MetadataResult)
    requires ChoiceOk(choice) && Meta.ResultOk(metadata)
    requires own.config < |configuredAt| && own.configured == configuredAt[own.config]
    ensures var sn := Build(own, choice, metadata);
            SnapshotOk(configuredAt, sn) && sn.builtAt == sn.config == own.config && sn.auth == own.gen && sn.state != Loading
  {}

  lemma SnapshotForOk(s: State, a: AuthId)
    requires ContentInv(s)
    ensures SnapshotOk(s.configuredAt, SnapshotFor(s.sh, a))
  {}

  /** An owner whose generation is not current will never be current again. */
  lemma NotCurrentIsRetired(s: State, r: Request)
    requires AuthInv(s) && r < |s.pcs| && s.pcs[r].Working?
    ensures var own := s.pcs[r].own; Retired(s.sh, own) <==> !Current(s.sh, own.auth, own.Key(), own.gen)
  {}

  lemma FetchStageOk(s: State, r: Request, env: Env)
    requires AuthInv(s) && ContentInv(s) && Enabled(s, Run(r, env))
    requires s.pcs[r].Working? && s.pcs[r].stage.FetchCatalog?
    ensures var s' := Next(s, Run(r, env)); StageOk(s', s.pcs[r].own, s'.pcs[r].stage)
  {
    var own := s.pcs[r].own;
    assert PcOk(s, s.pcs[r]);
    NotCurrentIsRetired(s, r);
    OwnerFrame(s.sh, r, own, s.pcs[r].stage, env);
  }

  lemma OwnerStageOk(s: State, r: Request, env: Env)
    requires AuthInv(s) && MetaInv(s) && ContentInv(s) && Enabled(s, Run(r, env))
    requires s.pcs[r].Working? && !s.pcs[r].stage.Publish?
    ensures var s' := Next(s, Run(r, env)); StageOk(s', s.pcs[r].own, s'.pcs[r].stage)
  {
    var own, stage := s.pcs[r].own, s.pcs[r].stage;
    var roles := Project(s.pcs, MetaRole);
    assert PcOk(s, s.pcs[r]);
    match stage
    case FetchCatalog(_, _, _) => FetchStageOk(s, r, env);
    case CheckCurrent(choice) => BuildOk(s.configuredAt, own, choice, NoMetadata);
    case MetadataGate(choice) =>
      Meta.EnterKeepsInv(s.sh, roles, r);
      var entry := EnterMetadata(s.sh, r).1;
      if entry.Settled? { BuildOk(s.configuredAt, own, choice, entry.result); }
    case AwaitMetadata(choice, call) =>
      var answer := s.sh.metadataDone[call];
      if answer.Some? { BuildOk(s.configuredAt, own, choice, answer.value); }
    case FetchMetadata(choice, cached, readFailed) =>
      Meta.SettleShape(s.sh, r, own.auth, own.Key(), own.gen, cached, readFailed, env.metadata, env.metadataSaved);
      BuildOk(s.configuredAt, own, choice, SettleMetadata(s.sh, own.auth, own.Key(), own.gen, r, cached, readFailed, env.metadata, env.metadataSaved).1);
    case _ =>
  }

  lemma EnterContent(sh: Shared, configuredAt: seq<seq<ModelId>>, a: AuthId, credential: Credential, r: Request)
    requires (a in sh.slots ==> SlotContentOk(configuredAt, sh.slots[a])) && sh.config < |configuredAt|
    ensures var (sh', entry) := Enter(sh, a, credential, r);
            && a in sh'.slots && SlotContentOk(configuredAt, sh'.slots[a]) && sh'.slots == sh.slots[a := sh'.slots[a]]
            && (entry.Existing? ==> SnapshotOk(configuredAt, entry.snapshot))
            && (entry.Open? ==> entry.config == sh.config && entry.configured == sh.features.configured)
  {}

  lemma ArrivedContent(s: State, r: Request, env: Env)
    requires ContentInv(s) && Enabled(s, Run(r, env)) && s.pcs[r].Arrived?
    ensures var s' := Next(s, Run(r, env));
            && PcOk(s', s'.pcs[r])
            && s'.sh.config == s.sh.config && s'.sh.features == s.sh.features
            && forall a | a in s'.sh.slots :: SlotContentOk(s.configuredAt, s'.sh.slots[a])
  {
    var a := s.pcs[r].auth;
    assert a in s.sh.slots ==> SlotContentOk(s.configuredAt, s.sh.slots[a]);
    ArriveFrame(s.sh, r, a, s.pcs[r].credential);
    if s.pcs[r].credential.Some? { EnterContent(s.sh, s.configuredAt, a, s.pcs[r].credential.value, r); }
  }

  lemma PublishContent(s: State, r: Request, env: Env)
    requires ContentInv(s) && Enabled(s, Run(r, env)) && s.pcs[r].Working? && s.pcs[r].stage.Publish?
    ensures var s' := Next(s, Run(r, env));
            && PcOk(s', s'.pcs[r])
            && s'.sh.config == s.sh.config && s'.sh.features == s.sh.features
            && forall a | a in s'.sh.slots :: SlotContentOk(s.configuredAt, s'.sh.slots[a])
  {}

  lemma RunKeepsContent(s: State, r: Request, env: Env)
    requires Inv(s) && Enabled(s, Run(r, env))
    ensures ContentInv(Next(s, Run(r, env)))
  {
    var s' := Next(s, Run(r, env));
    NextAges(s, Run(r, env));
    assert PcOk(s, s.pcs[r]);
    match s.pcs[r] {
      case Arrived(_, _) => ArrivedContent(s, r, env);
      case AwaitAuth(a, _) => SnapshotForOk(s, a);
      case Working(own, stage) =>
        if stage.Publish? {
          PublishContent(s, r, env);
        } else {
          OwnerFrame(s.sh, r, own, stage, env);
          OwnerStageOk(s, r, env);
        }
    }
    OthersKeepContent(s, s', r);
  }

  lemma OthersKeepContent(s: State, s': State, r: Request)
    requires ContentInv(s) && r < |s.pcs| == |s'.pcs| && Ages(s.sh, s'.sh) && s'.configuredAt == s.configuredAt
    requires s'.sh.config == s.sh.config && s'.sh.features == s.sh.features
    requires forall q | 0 <= q < |s.pcs| && q != r :: s'.pcs[q] == s.pcs[q]
    requires PcOk(s', s'.pcs[r])
    requires forall a | a in s'.sh.slots :: SlotContentOk(s.configuredAt, s'.sh.slots[a])
    ensures ContentInv(s')
  {}

  // ----- arrivals, marks, restores and configuration changes -----

  lemma JoinKeepsInv(s: State, pc: Pc)
    requires Inv(s) && (pc.Arrived? || pc.Holding?) && PcOk(s, pc)
    ensures Inv(s.(pcs := s.pcs + [pc]))
  {
    var s' := s.(pcs := s.pcs + [pc]);
    ProjectAppend(s.pcs, AuthRole, pc);
    ProjectAppend(s.pcs, IdRole, pc);
    ProjectAppend(s.pcs, MetaRole, pc);
    Auth.ArriveKeepsInv(s.sh, Project(s.pcs, AuthRole), AuthRole(pc));
    Id.ArriveKeepsInv(s.sh, Project(s.pcs, IdRole), IdRole(pc));
    Meta.ArriveKeepsInv(s.sh, Project(s.pcs, MetaRole), MetaRole(pc));
    forall q | 0 <= q < |s'.pcs| ensures PcOk(s', s'.pcs[q]) {
      if q < |s.pcs| { PcAges(s, s', s.pcs[q]); }
    }
  }

  lemma PublishBareKeepsInv(s: State, a: AuthId, snapshot: Snapshot)
    requires Inv(s) && snapshot.state != Loading && SnapshotOk(s.configuredAt, snapshot)
    ensures Inv(s.(sh := PublishBare(s.sh, a, snapshot).0))
  {
    var s' := s.(sh := PublishBare(s.sh, a, snapshot).0);
    Auth.PublishBareKeepsInv(s.sh, Project(s.pcs, AuthRole), a, snapshot);
    SameIdentity(s.sh, s'.sh, Project(s.pcs, IdRole));
    SameMetadata(s.sh, s'.sh, Project(s.pcs, MetaRole));
    forall q | 0 <= q < |s'.pcs| ensures PcOk(s', s'.pcs[q]) {
      PcAges(s, s', s.pcs[q]);
    }
  }

  lemma LeaveKeepsInv(s: State, r: Request, result: Snapshot)
    requires Inv(s) && r < |s.pcs| && s.pcs[r].Holding? && SnapshotOk(s.configuredAt, result)
    ensures Inv(s.(pcs := s.pcs[r := Returned(result)]))
  {
    var s' := s.(pcs := s.pcs[r := Returned(result)]);
    ProjectUpdate(s.pcs, AuthRole, r, Returned(result));
    ProjectUpdate(s.pcs, IdRole, r, Returned(result));
    ProjectUpdate(s.pcs, MetaRole, r, Returned(result));
    assert Project(s'.pcs, AuthRole) == Project(s.pcs, AuthRole);
    assert Project(s'.pcs, IdRole) == Project(s.pcs, IdRole);
    assert Project(s'.pcs, MetaRole) == Project(s.pcs, MetaRole);
    forall q | 0 <= q < |s'.pcs| ensures PcOk(s', s'.pcs[q]) {
      PcAges(s, s', s.pcs[q]);
    }
  }

  lemma ConfigureKeepsInv(s: State, features: Features, bump: bool)
    requires Inv(s) && (!bump ==> features.configured == s.sh.features.configured)
    ensures Inv(Configure(s, s.sh.(features := features, config := if bump then s.sh.config + 1 else s.sh.config)))
  {
    var s' := Configure(s, s.sh.(features := features, config := if bump then s.sh.config + 1 else s.sh.config));
    if bump {
      Auth.AdvanceKeepsInv(s.sh, Project(s.pcs, AuthRole));
      Id.AdvanceKeepsInv(s.sh, Project(s.pcs, IdRole));
      SameIdentity(Advance(s.sh), s'.sh, Project(s.pcs, IdRole));
    } else {
      SameIdentity(s.sh, s'.sh, Project(s.pcs, IdRole));
    }
    SameMetadata(s.sh, s'.sh, Project(s.pcs, MetaRole));
    forall q | 0 <= q < |s'.pcs| ensures PcOk(s', s'.pcs[q]) {
      PcAges(s, s', s.pcs[q]);
    }
    forall a | a in s'.sh.slots ensures SlotContentOk(s'.configuredAt, s'.sh.slots[a]) {
      assert SlotContentOk(s.configuredAt, s.sh.slots[a]);
    }
  }

  lemma DropKeepsInv(s: State)
    requires Inv(s)
    ensures Inv(s.(sh := DropMetadata(s.sh)))
  {}

  /** Every step of every interleaving keeps the protocol invariant. */
  lemma NextKeepsInv(s: State, step: Step)
    requires Inv(s) && Enabled(s, step)
    ensures Inv(Next(s, step))
  {
    match step
    case Run(r, env) =>
      RunKeepsAuth(s, r, env);
      RunKeepsIdentity(s, r, env);
      RunKeepsMetadata(s, r, env);
      RunKeepsContent(s, r, env);
    case Arrive(a, credential) => JoinKeepsInv(s, Arrived(a, credential));
    case Capture(a) =>
      SnapshotForOk(s, a);
      JoinKeepsInv(s, Holding(a, SnapshotFor(s.sh, a)));
    case GiveBack(r) =>
      var a, previous := s.pcs[r].auth, s.pcs[r].previous;
      assert PcOk(s, s.pcs[r]);
      PublishBareKeepsInv(s, a, previous);
      LeaveKeepsInv(s.(sh := Restore(s.sh, a, previous)), r, previous);
    case Mark(a) => PublishBareKeepsInv(s, a, EmptySnapshot(NotStarted, NoError, s.sh.config, 0));
    case CommitFeatures(features) => ConfigureKeepsInv(s, features, Commit(s.sh, features).config != s.sh.config);
    case InvalidateMetadata => DropKeepsInv(s);
    case AdvanceConfig => ConfigureKeepsInv(s, s.sh.features, true);
  }

  lemma {:induction false} RunInv(ss: seq<State>, steps: seq<Step>, k: nat)
    requires IsRun(ss, steps) && k < |ss|
    ensures Inv(ss[k])
  {
    if k == 0 {
      InitInv(ss[0]);
    } else {
      RunInv(ss, steps, k - 1);
      assert ss[k - 1 + 1] == Next(ss[k - 1], steps[k - 1]);
      NextKeepsInv(ss[k - 1], steps[k - 1]);
    }
  }
}
