/** The protocol invariant, and that every step keeps it. */
module ModelReadinessInvariant {
  import opened Basics
  import opened ModelReadiness
  import opened ModelReadinessProtocol
  import Auth = ModelReadinessAuth
  import Id = ModelReadinessIdentity
  import Meta = ModelReadinessMetadata

  // ----- what a request looks like to each sub-protocol -----

  function AuthRole(pc: Pc): Auth.Role {
    match pc
    case Arrived(_, _) => Auth.Arriving
    case AwaitAuth(_, call) => Auth.Joined(call)
    case Working(own, _) => Auth.Owner(own.auth, own.Key(), own.gen)
    case _ => Auth.Gone
  }

  function IdRole(pc: Pc): Id.Role {
    match pc
    case Arrived(_, _) => Id.Unopened
    case AwaitAuth(_, _) => Id.Unopened
    case Working(_, StoreUnavailable) => Id.Unopened
    case Working(_, StartCall) => Id.Unopened
    case Working(own, LoadCache(sequence)) => Id.Opened(own.credential.identity, sequence, own.config)
    case Working(own, FetchCatalog(sequence, _, _)) => Id.Opened(own.credential.identity, sequence, own.config)
    case Working(own, LoadCommitted(sequence, _)) => Id.Superseded(own.credential.identity, Stamp(own.config, sequence))
    case Working(_, AwaitIdentity(waits, _)) => Id.Waiting(waits)
    case _ => Id.Closed
  }

  function MetaRole(pc: Pc): Meta.Role {
    match pc
    case Working(_, FetchMetadata(_, _, _)) => Meta.Fetching
    case Working(_, AwaitMetadata(_, call)) => Meta.Awaiting(call)
    case Working(_, Publish(_)) => Meta.After
    case Returned(_) => Meta.After
    case Holding(_, _) => Meta.After
    case _ => Meta.Before
  }

  function Project<R>(pcs: seq<Pc>, role: Pc -> R): (roles: seq<R>)
    ensures |roles| == |pcs| && forall i | 0 <= i < |pcs| :: roles[i] == role(pcs[i])
  {
    seq(|pcs|, i requires 0 <= i < |pcs| => role(pcs[i]))
  }

  lemma ProjectUpdate<R>(pcs: seq<Pc>, role: Pc -> R, r: nat, pc: Pc)
    requires r < |pcs|
    ensures Project(pcs[r := pc], role) == Project(pcs, role)[r := role(pc)]
  {}

  lemma ProjectAppend<R>(pcs: seq<Pc>, role: Pc -> R, pc: Pc)
    ensures Project(pcs + [pc], role) == Project(pcs, role) + [role(pc)]
  {}

  // ----- what the carried data says -----

  /** What every published or carried snapshot means: it is executable exactly if it has both models and metadata,
      ready exactly if neither is from the cache, and lists nothing otherwise. */
  predicate SnapshotOk(configuredAt: seq<seq<ModelId>>, sn: Snapshot) {
    && (sn.Executable() <==> sn.modelSource != FromNothing && sn.metadataSource != FromNothing)
    && (sn.state == Ready <==> (sn.modelSource == FromFresh || sn.modelSource == FromConfig) && sn.metadataSource == FromFresh)
    && sn.metadataSource != FromConfig
    && (sn.state == Ready ==> sn.error == NoError)
    && (!sn.Executable() ==> sn.models == [])
    && sn.builtAt < |configuredAt|
    && (sn.Executable() && sn.modelSource == FromConfig ==> sn.models == configuredAt[sn.builtAt])
  }

  predicate ChoiceOk(choice: Choice) {
    choice.Discovered? ==>
      && (choice.catalog.doc.Some? <==> choice.catalog.source == FromFresh || choice.catalog.source == FromCache)
      && choice.catalog.source != FromConfig
  }

  /** The generation can never be current again. */
  predicate Retired(sh: Shared, own: Own) {
    SlotOf(sh, own.auth).nextAuth > own.gen || sh.config > own.config
  }

  predicate StageOk(s: State, own: Own, stage: Stage) {
    match stage
    case CheckCurrent(choice) => ChoiceOk(choice)
    case MetadataGate(choice) => ChoiceOk(choice)
    case AwaitMetadata(choice, _) => ChoiceOk(choice)
    case FetchMetadata(choice, _, _) => ChoiceOk(choice)
    case Publish(sn) =>
      && SnapshotOk(s.configuredAt, sn) && sn.builtAt == sn.config == own.config && sn.auth == own.gen
      && (sn.state == Loading ==> Retired(s.sh, own))
    case _ => true
  }

  predicate PcOk(s: State, pc: Pc) {
    match pc
    case Working(own, stage) =>
      && own.config < |s.configuredAt| && own.configured == s.configuredAt[own.config]
      && StageOk(s, own, stage)
    case Returned(result) => SnapshotOk(s.configuredAt, result)
    case Holding(_, previous) => SnapshotOk(s.configuredAt, previous)
    case _ => true
  }

  predicate SlotContentOk(configuredAt: seq<seq<ModelId>>, slot: Slot) {
    slot.current.Some? ==> SnapshotOk(configuredAt, slot.current.value)
  }

  ghost predicate ContentInv(s: State) {
    && |s.configuredAt| == s.sh.config + 1
    && s.configuredAt[s.sh.config] == s.sh.features.configured
    && (forall a | a in s.sh.slots :: SlotContentOk(s.configuredAt, s.sh.slots[a]))
    && (forall r | 0 <= r < |s.pcs| :: PcOk(s, s.pcs[r]))
  }

  ghost predicate AuthInv(s: State) {
    Auth.SharedInv(s.sh, Project(s.pcs, AuthRole))
  }

  ghost predicate IdInv(s: State) {
    Id.SharedInv(s.sh, Project(s.pcs, IdRole))
  }

  ghost predicate MetaInv(s: State) {
    Meta.SharedInv(s.sh, Project(s.pcs, MetaRole))
  }

  ghost predicate Inv(s: State) {
    AuthInv(s) && IdInv(s) && MetaInv(s) && ContentInv(s)
  }

  lemma InitInv(s: State)
    requires Init(s)
    ensures Inv(s)
  {}

  // ----- frames: which memory a request touches before publication -----

  lemma SaveFrame(sh: Shared, a: AuthId, key: Key, gen: nat, i: Identity, r: Request, catalog: Catalog, outcome: WriteOutcome)
    ensures SaveModels(sh, a, key, gen, i, r, catalog, outcome).0.(identities := sh.identities, identityDone := sh.identityDone, disk := sh.disk) == sh
  {}

  lemma FetchFrame(sh: Shared, r: Request, own: Own, stage: Stage, env: Env)
    requires stage.FetchCatalog?
    ensures ActFetch(sh, r, own, stage, env).0.(identities := sh.identities, identityDone := sh.identityDone, disk := sh.disk) == sh
  {
    if env.fetch.GotCatalog? {
      SaveFrame(sh, own.auth, own.Key(), own.gen, own.credential.identity, r,
                Catalog(Stamp(own.config, stage.sequence), env.fetch.models), env.write);
    }
  }

  lemma SettleFrame(sh: Shared, a: AuthId, key: Key, gen: nat, r: Request, cached: Option<Metadata>, readFailed: bool, fetch: MetadataFetch, saved: bool)
    ensures SettleMetadata(sh, a, key, gen, r, cached, readFailed, fetch, saved).0
            .(metadataCall := sh.metadataCall, metadataCache := sh.metadataCache, metadataResult := sh.metadataResult, metadataDone := sh.metadataDone) == sh
  {}

  lemma MetadataFrame(sh: Shared, r: Request, own: Own, stage: Stage, env: Env)
    requires stage.MetadataGate? || stage.FetchMetadata?
    ensures ActOwner(sh, r, own, stage, env).0.(metadataCall := sh.metadataCall, metadataCache := sh.metadataCache,
                                                 metadataResult := sh.metadataResult, metadataDone := sh.metadataDone) == sh
  {
    if stage.FetchMetadata? {
      SettleFrame(sh, own.auth, own.Key(), own.gen, r, stage.cachedMetadata, stage.readFailed, env.metadata, env.metadataSaved);
    }
  }

  /** Before publication a request never touches the account slots or the configuration. */
  lemma OwnerFrame(sh: Shared, r: Request, own: Own, stage: Stage, env: Env)
    requires Runnable(sh, Working(own, stage)) && !stage.Publish?
    ensures var sh' := ActOwner(sh, r, own, stage, env).0;
            sh'.(identities := sh.identities, identityDone := sh.identityDone, disk := sh.disk,
                 metadataCall := sh.metadataCall, metadataCache := sh.metadataCache,
                 metadataResult := sh.metadataResult, metadataDone := sh.metadataDone) == sh
  {
    if stage.FetchCatalog? { FetchFrame(sh, r, own, stage, env); }
    else if stage.MetadataGate? || stage.FetchMetadata? { MetadataFrame(sh, r, own, stage, env); }
  }

  predicate TouchesIdentity(stage: Stage) {
    stage.StartCall? || stage.FetchCatalog?
  }

  lemma OwnerIdentityFrame(sh: Shared, r: Request, own: Own, stage: Stage, env: Env)
    requires Runnable(sh, Working(own, stage)) && !stage.Publish? && !TouchesIdentity(stage)
    ensures var sh' := ActOwner(sh, r, own, stage, env).0;
            sh'.identities == sh.identities && sh'.identityDone == sh.identityDone && sh'.disk == sh.disk
  {
    if stage.MetadataGate? || stage.FetchMetadata? { MetadataFrame(sh, r, own, stage, env); }
  }

  lemma OwnerMetadataFrame(sh: Shared, r: Request, own: Own, stage: Stage, env: Env)
    requires Runnable(sh, Working(own, stage)) && !stage.Publish? && !stage.MetadataGate? && !stage.FetchMetadata?
    ensures var sh' := ActOwner(sh, r, own, stage, env).0;
            && sh'.metadataCall == sh.metadataCall && sh'.metadataCache == sh.metadataCache
            && sh'.metadataResult == sh.metadataResult && sh'.metadataDone == sh.metadataDone
  {
    if stage.FetchCatalog? { FetchFrame(sh, r, own, stage, env); }
  }

  lemma EnterFrame(sh: Shared, a: AuthId, credential: Credential, r: Request)
    ensures Enter(sh, a, credential, r).0.(slots := sh.slots) == sh
  {}

  lemma ArriveFrame(sh: Shared, r: Request, a: AuthId, credential: Option<Credential>)
    ensures ActArrived(sh, r, a, credential).0.(slots := sh.slots) == sh
  {
    if credential.Some? { EnterFrame(sh, a, credential.value, r); }
  }

  lemma SlotStepFrame(sh: Shared, r: Request, pc: Pc, env: Env)
    requires Runnable(sh, pc)
    requires !pc.Working? || pc.stage.Publish?
    ensures var sh' := Act(sh, r, pc, env).0;
            sh'.(slots := sh.slots, authDone := sh.authDone) == sh
  {
    if pc.Arrived? { ArriveFrame(sh, r, pc.auth, pc.credential); }
  }

  // ----- account calls -----

  lemma RunKeepsAuth(s: State, r: Request, env: Env)
    requires Inv(s) && Enabled(s, Run(r, env))
    ensures AuthInv(Next(s, Run(r, env)))
  {
    var roles := Project(s.pcs, AuthRole);
    var pc := s.pcs[r];
    var (sh', pc') := Act(s.sh, r, pc, env);
    ProjectUpdate(s.pcs, AuthRole, r, pc');
    match pc
    case Arrived(a, credential) =>
      if credential.None? {
        Auth.PublishBareKeepsInv(s.sh, roles, a, EmptySnapshot(Failed, AuthInvalid, s.sh.config, 0));
        Auth.LeaveKeepsInv(sh', roles, r);
      } else {
        Auth.EnterKeepsInv(s.sh, roles, a, credential.value, r);
      }
    case AwaitAuth(_, _) => Auth.LeaveKeepsInv(s.sh, roles, r);
    case Working(own, stage) =>
      if stage.Publish? {
        assert PcOk(s, pc);
        Auth.FinishKeepsInv(s.sh, roles, r, stage.snapshot);
      } else {
        OwnerFrame(s.sh, r, own, stage, env);
        assert roles[r := AuthRole(pc')] == roles;
      }
  }

  // ----- identity calls -----

  /** The four ways a fetch can end, and what each leaves behind. */
  lemma FetchCases(sh: Shared, r: Request, own: Own, stage: Stage, env: Env)
    requires stage.FetchCatalog?
    ensures var (sh', stage') := ActFetch(sh, r, own, stage, env);
            var i, stamp := own.credential.identity, Stamp(own.config, stage.sequence);
            var role := IdRole(Working(own, stage'));
            var committed := IdentityOf(sh, i).committed;
            if env.fetch.NoCatalog? then sh' == SettleIdentity(sh, i, r).0 && role == Id.Waiting(SettleIdentity(sh, i, r).1)
            else if !Current(sh, own.auth, own.Key(), own.gen) then sh' == SettleIdentity(sh, i, r).0 && role == Id.Closed
            else if committed.config == own.config && stage.sequence < committed.sequence then
              sh' == SettleIdentity(sh, i, r).0 && role == Id.Superseded(i, stamp)
            else
              && sh' == SettleIdentity(Id.WriteCatalog(sh, i, Catalog(stamp, env.fetch.models), env.write), i, r).0
              && role == if env.write == Written then Id.Closed else Id.Waiting(SettleIdentity(sh, i, r).1)
  {}

  lemma FetchKeepsIdentity(sh: Shared, roles: seq<Id.Role>, r: Request, own: Own, stage: Stage, env: Env)
    requires Id.SharedInv(sh, roles) && r < |roles| && stage.FetchCatalog?
    requires roles[r] == Id.Opened(own.credential.identity, stage.sequence, own.config)
    ensures var (sh', stage') := ActFetch(sh, r, own, stage, env);
            Id.SharedInv(sh', roles[r := IdRole(Working(own, stage'))])
  {
    var i, stamp := own.credential.identity, Stamp(own.config, stage.sequence);
    var id := IdentityOf(sh, i);
    var role := IdRole(Working(own, ActFetch(sh, r, own, stage, env).1));
    FetchCases(sh, r, own, stage, env);
    assert Id.RoleOk(sh.config, sh.identities, sh.identityDone, r, roles);
    assert Id.CommitsOk(sh.config, id);
    if env.fetch.NoCatalog? || !Current(sh, own.auth, own.Key(), own.gen)
       || (id.committed.config == own.config && stage.sequence < id.committed.sequence) {
      Id.SettleKeepsInv(sh, roles, r, role);
    } else {
      Id.WriteIsNewer(sh, roles, r);
      Id.SaveKeepsInv(sh, roles, r, Catalog(stamp, env.fetch.models), env.write, role);
    }
  }

  lemma SameIdentity(sh: Shared, sh': Shared, roles: seq<Id.Role>)
    requires Id.SharedInv(sh, roles)
    requires sh'.config == sh.config && sh'.identities == sh.identities && sh'.identityDone == sh.identityDone && sh'.disk == sh.disk
    ensures Id.SharedInv(sh', roles)
  {}

  /** Away from the identity sections a request keeps its identity role or closes. */
  lemma OtherIdentityRole(sh: Shared, r: Request, pc: Pc, env: Env)
    requires Runnable(sh, pc)
    requires pc.Working? ==> !TouchesIdentity(pc.stage)
    ensures var (sh', pc') := Act(sh, r, pc, env);
            && sh'.config == sh.config && sh'.identities == sh.identities && sh'.identityDone == sh.identityDone && sh'.disk == sh.disk
            && (IdRole(pc') == IdRole(pc) || (IdRole(pc') == Id.Closed && !IdRole(pc).Opened?))
  {
    if pc.Working? && !pc.stage.Publish? {
      OwnerFrame(sh, r, pc.own, pc.stage, env);
      OwnerIdentityFrame(sh, r, pc.own, pc.stage, env);
    } else {
      SlotStepFrame(sh, r, pc, env);
    }
  }

  lemma ActKeepsIdentity(sh: Shared, roles: seq<Id.Role>, r: Request, pc: Pc, env: Env)
    requires Id.SharedInv(sh, roles) && r < |roles| && roles[r] == IdRole(pc) && Runnable(sh, pc)
    requires pc.Working? ==> pc.own.config <= sh.config
    ensures var (sh', pc') := Act(sh, r, pc, env); Id.SharedInv(sh', roles[r := IdRole(pc')])
  {
    if pc.Working? && TouchesIdentity(pc.stage) {
      OwnerKeepsIdentity(sh, roles, r, pc.own, pc.stage, env);
    } else {
      QuietActKeepsIdentity(sh, roles, r, pc, env);
    }
  }

  lemma OwnerKeepsIdentity(sh: Shared, roles: seq<Id.Role>, r: Request, own: Own, stage: Stage, env: Env)
    requires Id.SharedInv(sh, roles) && r < |roles| && roles[r] == IdRole(Working(own, stage))
    requires TouchesIdentity(stage) && own.config <= sh.config
    ensures var (sh', stage') := ActOwner(sh, r, own, stage, env); Id.SharedInv(sh', roles[r := IdRole(Working(own, stage'))])
  {
    if stage.FetchCatalog? {
      assert ActOwner(sh, r, own, stage, env) == ActFetch(sh, r, own, stage, env);
      FetchKeepsIdentity(sh, roles, r, own, stage, env);
    } else {
      StartKeepsIdentity(sh, roles, r, own, env);
    }
  }

  lemma StartKeepsIdentity(sh: Shared, roles: seq<Id.Role>, r: Request, own: Own, env: Env)
    requires Id.SharedInv(sh, roles) && r < |roles| && roles[r] == Id.Unopened && own.config <= sh.config
    ensures var (sh', stage') := ActOwner(sh, r, own, StartCall, env); Id.SharedInv(sh', roles[r := IdRole(Working(own, stage'))])
  {
    StartShape(sh, r, own, env);
    Id.StartKeepsInv(sh, roles, own.credential.identity, r, own.config);
  }

  lemma StartShape(sh: Shared, r: Request, own: Own, env: Env)
    ensures var (sh', sequence) := StartIdentity(sh, own.credential.identity, r);
            && ActOwner(sh, r, own, StartCall, env) == (sh', LoadCache(sequence))
            && IdRole(Working(own, LoadCache(sequence))) == Id.Opened(own.credential.identity, sequence, own.config)
  {}

  lemma QuietActKeepsIdentity(sh: Shared, roles: seq<Id.Role>, r: Request, pc: Pc, env: Env)
    requires Id.SharedInv(sh, roles) && r < |roles| && roles[r] == IdRole(pc) && Runnable(sh, pc)
    requires pc.Working? ==> !TouchesIdentity(pc.stage)
    ensures var (sh', pc') := Act(sh, r, pc, env); Id.SharedInv(sh', roles[r := IdRole(pc')])
  {
    OtherIdentityRole(sh, r, pc, env);
    QuietKeepsIdentity(sh, roles, r, Act(sh, r, pc, env).0, IdRole(Act(sh, r, pc, env).1));
  }

  lemma QuietKeepsIdentity(sh: Shared, roles: seq<Id.Role>, r: Request, sh': Shared, role: Id.Role)
    requires Id.SharedInv(sh, roles) && r < |roles|
    requires sh'.config == sh.config && sh'.identities == sh.identities && sh'.identityDone == sh.identityDone && sh'.disk == sh.disk
    requires role == roles[r] || (role == Id.Closed && !roles[r].Opened?)
    ensures Id.SharedInv(sh', roles[r := role])
  {
    SameIdentity(sh, sh', roles);
    if role == roles[r] {
      assert roles[r := role] == roles;
    } else {
      Id.CloseKeepsInv(sh', roles, r);
    }
  }

  lemma OwnerConfig(s: State, r: Request)
    requires AuthInv(s) && r < |s.pcs| && s.pcs[r].Working?
    ensures s.pcs[r].own.config <= s.sh.config
  {}

  lemma RunKeepsIdentity(s: State, r: Request, env: Env)
    requires AuthInv(s) && IdInv(s) && Enabled(s, Run(r, env))
    ensures IdInv(Next(s, Run(r, env)))
  {
    var pc := s.pcs[r];
    ProjectUpdate(s.pcs, IdRole, r, Act(s.sh, r, pc, env).1);
    if pc.Working? { OwnerConfig(s, r); }
    ActKeepsIdentity(s.sh, Project(s.pcs, IdRole), r, pc, env);
  }

  // ----- the metadata call -----

  lemma SameMetadata(sh: Shared, sh': Shared, roles: seq<Meta.Role>)
    requires Meta.SharedInv(sh, roles)
    requires sh'.metadataCall == sh.metadataCall && sh'.metadataResult == sh.metadataResult && sh'.metadataDone == sh.metadataDone
    ensures Meta.SharedInv(sh', roles)
  {}

  /** Away from the metadata sections a request stays before its metadata call or is past it. */
  lemma OtherMetadataRole(sh: Shared, r: Request, pc: Pc, env: Env)
    requires Runnable(sh, pc)
    requires pc.Working? ==> !pc.stage.MetadataGate? && !pc.stage.FetchMetadata?
    ensures var (sh', pc') := Act(sh, r, pc, env);
            && sh'.metadataCall == sh.metadataCall && sh'.metadataResult == sh.metadataResult && sh'.metadataDone == sh.metadataDone
            && (MetaRole(pc') == Meta.After || (MetaRole(pc') == Meta.Before && MetaRole(pc) != Meta.After))
  {
    if pc.Working? && !pc.stage.Publish? {
      OwnerMetadataFrame(sh, r, pc.own, pc.stage, env);
    } else {
      SlotStepFrame(sh, r, pc, env);
    }
  }

  lemma ActKeepsMetadata(sh: Shared, roles: seq<Meta.Role>, r: Request, pc: Pc, env: Env)
    requires Meta.SharedInv(sh, roles) && r < |roles| && roles[r] == MetaRole(pc) && Runnable(sh, pc)
    ensures var (sh', pc') := Act(sh, r, pc, env); Meta.SharedInv(sh', roles[r := MetaRole(pc')])
  {
    if pc.Working? && pc.stage.MetadataGate? {
      Meta.EnterKeepsInv(sh, roles, r);
    } else if pc.Working? && pc.stage.FetchMetadata? {
      var own, stage := pc.own, pc.stage;
      Meta.SettleKeepsInv(sh, roles, r, own.auth, own.Key(), own.gen, stage.cachedMetadata, stage.readFailed, env.metadata, env.metadataSaved);
    } else {
      OtherMetadataRole(sh, r, pc, env);
      var (sh', pc') := Act(sh, r, pc, env);
      SameMetadata(sh, sh', roles);
      Meta.MoveKeepsInv(sh', roles, r, MetaRole(pc'));
    }
  }

  lemma RunKeepsMetadata(s: State, r: Request, env: Env)
    requires MetaInv(s) && Enabled(s, Run(r, env))
    ensures MetaInv(Next(s, Run(r, env)))
  {
    ProjectUpdate(s.pcs, MetaRole, r, Act(s.sh, r, s.pcs[r], env).1);
    ActKeepsMetadata(s.sh, Project(s.pcs, MetaRole), r, s.pcs[r], env);
  }
}
