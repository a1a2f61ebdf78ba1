/**
 The model readiness protocol as a state machine. Each request is a thread of `ensureForAuth`; one step
 of a request is one lock-held section (or one store read) of the source, with fetch results, write
 outcomes and read failures supplied by the environment. Configuration commits, invalidations, restores
 and not-started marks interleave freely with the requests.
 */
module ModelReadinessProtocol {
  import opened Basics
  import opened ModelReadiness

  datatype Own = Own(auth: AuthId, config: nat, credential: Credential, gen: nat, configured: seq<ModelId>) {
    function Key(): ModelReadiness.Key {
      ModelReadiness.Key(config, Some(credential))
    }

    function Loading(): Snapshot {
      EmptySnapshot(ReadyState.Loading, NoError, config, gen)
    }
  }

  datatype Choice = Configured | Discovered(catalog: Selection<Catalog>)

  datatype Stage =
    | StoreUnavailable
    | StartCall
    | LoadCache(sequence: nat)
    | FetchCatalog(sequence: nat, cached: Option<Catalog>, cacheError: bool)
    | LoadCommitted(sequence: nat, cached: Option<Catalog>)
    | AwaitIdentity(waits: set<Request>, failure: ErrorCode)
    | Reload(failure: ErrorCode)
    | CheckCurrent(choice: Choice)
    | MetadataGate(choice: Choice)
    | AwaitMetadata(choice: Choice, call: Request)
    | FetchMetadata(choice: Choice, cachedMetadata: Option<Metadata>, readFailed: bool)
    | Publish(snapshot: Snapshot)

  /** `Holding` is a panel refresh that captured a snapshot and may give it back later. */
  datatype Pc =
    | Arrived(auth: AuthId, credential: Option<Credential>)
    | AwaitAuth(auth: AuthId, call: Request)
    | Working(own: Own, stage: Stage)
    | Returned(result: Snapshot)
    | Holding(auth: AuthId, previous: Snapshot)

  datatype CatalogFetch = NoCatalog(fault: Fault) | GotCatalog(models: seq<ModelId>)

  datatype Env = Env(readFails: bool, fetch: CatalogFetch, write: WriteOutcome, metadata: MetadataFetch, metadataSaved: bool)

  datatype State = State(sh: Shared, pcs: seq<Pc>, configuredAt: seq<seq<ModelId>>)

  /** The snapshot a request assembles from its catalog and the metadata it was given. */
  function Build(own: Own, choice: Choice, metadata: MetadataResult): Snapshot {
    var start := own.Loading().(metadataSource := metadata.source);
    match choice
    case Configured =>
      var sn := start.(modelSource := FromConfig, error := metadata.error);
      if metadata.doc.None? then sn.(state := Failed)
      else if metadata.source == FromFresh then sn.(state := Ready, error := NoError, models := own.configured)
      else sn.(state := Stale, models := own.configured)
    case Discovered(catalog) =>
      var sn := start.(modelSource := catalog.source,
                       error := if catalog.error == NoError then metadata.error else catalog.error);
      if catalog.doc.None? || metadata.doc.None? then sn.(state := Failed)
      else if catalog.source == FromFresh && metadata.source == FromFresh then
        sn.(state := Ready, error := NoError, models := catalog.doc.value.models)
      else sn.(state := Stale, models := catalog.doc.value.models)
  }

  function StoreFailure(own: Own): Snapshot {
    own.Loading().(state := Failed, error := CacheRead,
                   modelSource := if own.configured != [] then FromConfig else FromNothing)
  }

  predicate Runnable(sh: Shared, pc: Pc) {
    match pc
    case Arrived(_, _) => true
    case AwaitAuth(_, call) => call in sh.authDone
    case Working(_, AwaitIdentity(waits, _)) => waits <= sh.identityDone
    case Working(_, AwaitMetadata(_, call)) => call in sh.metadataDone
    case Working(_, _) => true
    case Returned(_) => false
    case Holding(_, _) => false
  }

  function Stored(sh: Shared, i: Identity, env: Env): Option<Catalog> {
    if !env.readFails && i in sh.disk then Some(sh.disk[i]) else None
  }

  function ActArrived(sh: Shared, r: Request, a: AuthId, credential: Option<Credential>): (Shared, Pc) {
    if credential.None? then
      var (sh', snapshot) := Reject(sh, a);
      (sh', Returned(snapshot))
    else
      var (sh', entry) := Enter(sh, a, credential.value, r);
      (sh', match entry
            case Existing(snapshot) => Returned(snapshot)
            case Join(call) => AwaitAuth(a, call)
            case Open(config, gen, configured) =>
              var own := Own(a, config, credential.value, gen, configured);
              Working(own, if sh.storeBroken then StoreUnavailable
                           else if configured != [] then CheckCurrent(Configured) else StartCall))
  }

  function ActFetch(sh: Shared, r: Request, own: Own, stage: Stage, env: Env): (Shared, Stage)
    requires stage.FetchCatalog?
  {
    var i := own.credential.identity;
    match env.fetch
    case NoCatalog(fault) =>
      var (sh', waits) := SettleIdentity(sh, i, r);
      (sh', AwaitIdentity(waits, WorkBuddy(fault)))
    case GotCatalog(models) =>
      var catalog := Catalog(Stamp(own.config, stage.sequence), models);
      var (sh', result) := SaveModels(sh, own.auth, own.Key(), own.gen, i, r, catalog, env.write);
      (sh', match result
            case Outdated => Publish(own.Loading())
            case Overtaken => LoadCommitted(stage.sequence, stage.cached)
            case Saved => CheckCurrent(Discovered(Select(Some(catalog), stage.cached, NoError)))
            case SaveFailed(waits) => AwaitIdentity(waits, if stage.cacheError then CacheRead else CacheWrite))
  }

  /** One step of a request that owns its account call, before publication. */
  function ActOwner(sh: Shared, r: Request, own: Own, stage: Stage, env: Env): (Shared, Stage)
    requires Runnable(sh, Working(own, stage)) && !stage.Publish?
  {
    var i := own.credential.identity;
    match stage
    case StoreUnavailable => (sh, Publish(StoreFailure(own)))
    case StartCall =>
      var (sh', sequence) := StartIdentity(sh, i, r);
      (sh', LoadCache(sequence))
    case LoadCache(sequence) => (sh, FetchCatalog(sequence, Stored(sh, i, env), env.readFails))
    case FetchCatalog(_, _, _) => ActFetch(sh, r, own, stage, env)
    case LoadCommitted(_, cached) =>
      var committed := Stored(sh, i, env);
      (sh, CheckCurrent(Discovered(Select(committed, cached, CacheRead))))
    case AwaitIdentity(_, failure) => (sh, Reload(failure))
    case Reload(failure) =>
      (sh, CheckCurrent(Discovered(Select(None, Stored(sh, i, env), if env.readFails then CacheRead else failure))))
    case CheckCurrent(choice) =>
      (sh, if Current(sh, own.auth, own.Key(), own.gen) then MetadataGate(choice)
           else Publish(Build(own, choice, NoMetadata)))
    case MetadataGate(choice) =>
      var (sh', entry) := EnterMetadata(sh, r);
      (sh', match entry
            case Settled(result) => Publish(Build(own, choice, result))
            case JoinMetadata(call) => AwaitMetadata(choice, call)
            case OpenMetadata(cached, readFailed) => FetchMetadata(choice, cached, readFailed))
    case AwaitMetadata(choice, call) =>
      (sh, match sh.metadataDone[call]
           case Some(result) => Publish(Build(own, choice, result))
           case None => CheckCurrent(choice))
    case FetchMetadata(choice, cached, readFailed) =>
      var (sh', result) := SettleMetadata(sh, own.auth, own.Key(), own.gen, r, cached, readFailed, env.metadata, env.metadataSaved);
      (sh', Publish(Build(own, choice, result)))
  }

  function Act(sh: Shared, r: Request, pc: Pc, env: Env): (Shared, Pc)
    requires Runnable(sh, pc)
  {
    match pc
    case Arrived(a, credential) => ActArrived(sh, r, a, credential)
    case AwaitAuth(a, _) => (sh, Returned(SnapshotFor(sh, a)))
    case Working(own, Publish(snapshot)) =>
      var (sh', result) := Finish(sh, own.auth, own.Key(), own.gen, r, snapshot);
      (sh', Returned(result))
    case Working(own, stage) =>
      var (sh', stage') := ActOwner(sh, r, own, stage, env);
      (sh', Working(own, stage'))
  }

  datatype Step =
    | Run(r: Request, env: Env)
    | Arrive(a: AuthId, credential: Option<Credential>)
    | Capture(a: AuthId)
    | GiveBack(r: Request)
    | Mark(a: AuthId)
    | CommitFeatures(features: Features)
    | InvalidateMetadata
    | AdvanceConfig

  predicate Enabled(s: State, step: Step) {
    match step
    case Run(r, _) => r < |s.pcs| && Runnable(s.sh, s.pcs[r])
    case GiveBack(r) => r < |s.pcs| && s.pcs[r].Holding? && s.pcs[r].previous.Executable()
    case _ => true
  }

  function Configure(s: State, sh: Shared): State {
    s.(sh := sh, configuredAt := if sh.config == s.sh.config then s.configuredAt else s.configuredAt + [sh.features.configured])
  }

  function Next(s: State, step: Step): State
    requires Enabled(s, step)
  {
    match step
    case Run(r, env) =>
      var (sh, pc) := Act(s.sh, r, s.pcs[r], env);
      s.(sh := sh, pcs := s.pcs[r := pc])
    case Arrive(a, credential) => s.(pcs := s.pcs + [Arrived(a, credential)])
    case Capture(a) => s.(pcs := s.pcs + [Holding(a, SnapshotFor(s.sh, a))])
    case GiveBack(r) =>
      s.(sh := Restore(s.sh, s.pcs[r].auth, s.pcs[r].previous), pcs := s.pcs[r := Returned(s.pcs[r].previous)])
    case Mark(a) => s.(sh := MarkNotStarted(s.sh, a))
    case CommitFeatures(features) => Configure(s, Commit(s.sh, features))
    case InvalidateMetadata => s.(sh := DropMetadata(s.sh))
    case AdvanceConfig => Configure(s, Advance(s.sh))
  }

  /** A fresh process: nothing in memory, whatever an earlier process left on disk. */
  predicate Init(s: State) {
    && s.pcs == []
    && s.configuredAt == [s.sh.features.configured]
    && s.sh.config == 0
    && s.sh.slots == map[] && s.sh.authDone == {}
    && s.sh.identities == map[] && s.sh.identityDone == {}
    && (forall i | i in s.sh.disk :: s.sh.disk[i].stamp == Stamp(0, 0))
    && s.sh.metadataCall.None? && s.sh.metadataDone == map[]
    && (s.sh.metadataResult.None? || s.sh.metadataResult.value == Selection(None, FromNothing, CacheRead))
  }

  ghost predicate IsRun(ss: seq<State>, steps: seq<Step>) {
    && |ss| == |steps| + 1
    && Init(ss[0])
    && forall k {:trigger ss[k + 1]} {:trigger steps[k]} | 0 <= k < |steps| :: Enabled(ss[k], steps[k]) && ss[k + 1] == Next(ss[k], steps[k])
  }
}
