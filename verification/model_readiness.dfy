/**
 The model readiness runtime: per-account slots with generation keys, identity calls shared by
 accounts, one metadata call at a time, and a global configuration generation.

 Every function here is one lock-held section of the runtime, as a transformation of the shared memory;
 `ModelRuntimeObject` is the same memory updated in place, each method proved equal to its section. A call (a `done` channel) is named by the request that created it: a request
 opens at most one account call, one identity call and one metadata call.
 */
module ModelReadiness {
  import opened Basics

  type AuthId = string
  type ModelId = string
  type Identity = string
  type Request = nat

  /** What a valid stored auth contributes to the generation key. */
  datatype Credential = Credential(token: string, identity: Identity)

  datatype Key = Key(config: nat, credential: Option<Credential>)

  datatype ReadyState = NotStarted | Loading | Ready | Stale | Failed

  datatype Source = FromFresh | FromCache | FromConfig | FromNothing

  datatype Fault = Transport | Http | Schema

  datatype ErrorCode = NoError | AuthInvalid | WorkBuddy(fault: Fault) | ModelsDev(fault: Fault) | CacheRead | CacheWrite

  /** The order in which catalogs of one identity are committed. */
  datatype Stamp = Stamp(config: nat, sequence: nat) {
    predicate Before(other: Stamp) {
      config < other.config || (config == other.config && sequence < other.sequence)
    }

    predicate NotAfter(other: Stamp) {
      this == other || Before(other)
    }
  }

  /** A stored catalog; the stamp records which call wrote it. */
  datatype Catalog = Catalog(stamp: Stamp, models: seq<ModelId>)

  datatype Metadata = Metadata(etag: string, records: seq<ModelId>)

  /** The outcome of choosing between a fresh and a cached document. */
  datatype Selection<+T> = Selection(doc: Option<T>, source: Source, error: ErrorCode)

  type MetadataResult = Selection<Metadata>

  /** The zero result a retired request gets back. */
  const NoMetadata: MetadataResult := Selection(None, FromNothing, NoError)

  function Select<T>(latest: Option<T>, cached: Option<T>, failure: ErrorCode): (s: Selection<T>)
    ensures s.doc.Some? <==> s.source != FromNothing
    ensures s.source == FromFresh <==> latest.Some?
    ensures s.source == FromCache <==> latest.None? && cached.Some?
    ensures s.source == FromFresh ==> s.doc == latest && s.error == NoError
    ensures s.source == FromCache ==> s.doc == cached && s.error == failure
    ensures s.source == FromNothing ==> s.error == failure
    ensures s.source != FromConfig
  {
    if latest.Some? then Selection(latest, FromFresh, NoError)
    else if cached.Some? then Selection(cached, FromCache, failure)
    else Selection(None, FromNothing, failure)
  }

  /** `builtAt` is the configuration generation the catalog was built for; only a restore separates
      it from `config`. */
  datatype Snapshot = Snapshot(
    state: ReadyState, modelSource: Source, metadataSource: Source, error: ErrorCode,
    models: seq<ModelId>, config: nat, auth: nat, builtAt: nat)
  {
    predicate Executable() {
      state == Ready || state == Stale
    }
  }

  function EmptySnapshot(state: ReadyState, error: ErrorCode, config: nat, auth: nat): Snapshot {
    Snapshot(state, FromNothing, FromNothing, error, [], config, auth, config)
  }

  datatype Slot = Slot(key: Key, nextAuth: nat, calls: map<nat, Request>, current: Option<Snapshot>)

  const FreshSlot := Slot(Key(0, None), 0, map[], None)

  /** `commits` lists the stamps committed so far in this process, oldest first. */
  datatype IdentitySlot = IdentitySlot(
    nextSequence: nat, active: map<Request, nat>, committed: Stamp, commits: seq<Stamp>)

  const FreshIdentity := IdentitySlot(0, map[], Stamp(0, 0), [])

  datatype Features = Features(
    configured: seq<ModelId>, order: seq<ModelId>, context: map<ModelId, int>, rest: string)

  predicate OnlyOrderChanged(a: Features, b: Features) {
    a.order != b.order && a.(order := b.order) == b
  }

  predicate OnlyContextChanged(a: Features, b: Features) {
    a.context != b.context && a.(context := b.context) == b
  }

  datatype Shared = Shared(
    storeBroken: bool,
    config: nat,
    features: Features,
    slots: map<AuthId, Slot>,
    authDone: set<Request>,
    identities: map<Identity, IdentitySlot>,
    identityDone: set<Request>,
    disk: map<Identity, Catalog>,
    metadataCall: Option<Request>,
    metadataCache: Option<Metadata>,
    metadataResult: Option<MetadataResult>,
    metadataDone: map<Request, Option<MetadataResult>>)

  function SlotOf(sh: Shared, a: AuthId): Slot {
    if a in sh.slots then sh.slots[a] else FreshSlot
  }

  function IdentityOf(sh: Shared, i: Identity): IdentitySlot {
    if i in sh.identities then sh.identities[i] else FreshIdentity
  }

  /** A key change opens a new generation. */
  function Rekey(slot: Slot, key: Key): Slot {
    if slot.key == key then slot else slot.(key := key, nextAuth := slot.nextAuth + 1)
  }

  predicate Current(sh: Shared, a: AuthId, key: Key, gen: nat) {
    var slot := SlotOf(sh, a);
    slot.key == key && slot.nextAuth == gen && sh.config == key.config
  }

  // ----- sections that end a request at once -----

  /** Rekeys to a bare configuration key and publishes `snapshot` under it: the shared shape of a
      rejected credential, a restore and a not-started mark. */
  function PublishBare(sh: Shared, a: AuthId, snapshot: Snapshot): (Shared, Snapshot) {
    var slot := Rekey(SlotOf(sh, a), Key(sh.config, None));
    var published := snapshot.(config := sh.config, auth := slot.nextAuth);
    (sh.(slots := sh.slots[a := slot.(current := Some(published))]), published)
  }

  function Reject(sh: Shared, a: AuthId): (Shared, Snapshot) {
    PublishBare(sh, a, EmptySnapshot(Failed, AuthInvalid, sh.config, 0))
  }

  function MarkNotStarted(sh: Shared, a: AuthId): Shared {
    PublishBare(sh, a, EmptySnapshot(NotStarted, NoError, sh.config, 0)).0
  }

  function Restore(sh: Shared, a: AuthId, previous: Snapshot): Shared {
    PublishBare(sh, a, previous).0
  }

  function SnapshotFor(sh: Shared, a: AuthId): Snapshot {
    var current := SlotOf(sh, a).current;
    if current.Some? && current.value.config == sh.config then current.value
    else EmptySnapshot(NotStarted, NoError, sh.config, 0)
  }

  // ----- joining or opening an account call -----

  datatype Entry =
    | Existing(snapshot: Snapshot)
    | Join(call: Request)
    | Open(config: nat, gen: nat, configured: seq<ModelId>)

  function Enter(sh: Shared, a: AuthId, credential: Credential, r: Request): (Shared, Entry) {
    var key := Key(sh.config, Some(credential));
    var slot := Rekey(SlotOf(sh, a), key);
    var gen := slot.nextAuth;
    if slot.current.Some? && slot.current.value.auth == gen && slot.current.value.state != Loading then
      (sh.(slots := sh.slots[a := slot]), Existing(slot.current.value))
    else if gen in slot.calls then
      (sh.(slots := sh.slots[a := slot]), Join(slot.calls[gen]))
    else
      var launched := slot.(calls := slot.calls[gen := r],
                          current := Some(EmptySnapshot(Loading, NoError, sh.config, gen)));
      (sh.(slots := sh.slots[a := launched]), Open(sh.config, gen, sh.features.configured))
  }

  /** Publishes only while the generation is still current; always closes the call. */
  function Finish(sh: Shared, a: AuthId, key: Key, gen: nat, r: Request, snapshot: Snapshot): (Shared, Snapshot) {
    var slot := SlotOf(sh, a);
    var current := Current(sh, a, key, gen);
    var result := if current then snapshot else SnapshotFor(sh, a);
    var calls := if gen in slot.calls && slot.calls[gen] == r then slot.calls - {gen} else slot.calls;
    var closed := slot.(calls := calls, current := if current then Some(snapshot) else slot.current);
    (sh.(slots := sh.slots[a := closed], authDone := sh.authDone + {r}), result)
  }

  // ----- identity calls -----

  function StartIdentity(sh: Shared, i: Identity, r: Request): (Shared, nat) {
    var id := IdentityOf(sh, i);
    var sequence := id.nextSequence + 1;
    (sh.(identities := sh.identities[i := id.(nextSequence := sequence, active := id.active[r := sequence])]), sequence)
  }

  /** Retires the call and returns the calls still active beside it. */
  function SettleIdentity(sh: Shared, i: Identity, r: Request): (Shared, set<Request>) {
    var id := IdentityOf(sh, i);
    var settled := id.(active := id.active - {r});
    (sh.(identities := sh.identities[i := settled], identityDone := sh.identityDone + {r}), settled.active.Keys)
  }

  /** A failed write may already have replaced the file: the directory sync comes after the rename. */
  datatype WriteOutcome = Written | NotWritten | WrittenButFailed

  datatype SaveResult = Outdated | Overtaken | Saved | SaveFailed(waits: set<Request>)

  function SaveModels(sh: Shared, a: AuthId, key: Key, gen: nat, i: Identity, r: Request,
                      catalog: Catalog, outcome: WriteOutcome): (Shared, SaveResult)
  {
    var id := IdentityOf(sh, i);
    if !Current(sh, a, key, gen) then
      (SettleIdentity(sh, i, r).0, Outdated)
    else if id.committed.config == key.config && catalog.stamp.sequence < id.committed.sequence then
      (SettleIdentity(sh, i, r).0, Overtaken)
    else
      var disk := if outcome == NotWritten then sh.disk else sh.disk[i := catalog];
      var id' := if outcome == Written
                 then id.(committed := catalog.stamp, commits := id.commits + [catalog.stamp]) else id;
      var (sh', waits) := SettleIdentity(sh.(disk := disk, identities := sh.identities[i := id']), i, r);
      (sh', if outcome == Written then Saved else SaveFailed(waits))
  }

  // ----- the shared metadata call -----

  datatype MetadataEntry =
    | Settled(result: MetadataResult)
    | JoinMetadata(call: Request)
    | OpenMetadata(cached: Option<Metadata>, readFailed: bool)

  function EnterMetadata(sh: Shared, r: Request): (Shared, MetadataEntry) {
    if sh.metadataResult.Some? && sh.metadataResult.value.doc.Some? then
      (sh, Settled(sh.metadataResult.value))
    else if sh.metadataCall.Some? then
      (sh, JoinMetadata(sh.metadataCall.value))
    else
      (sh.(metadataCall := Some(r)),
       OpenMetadata(sh.metadataCache, sh.metadataResult.Some? && sh.metadataResult.value.error == CacheRead))
  }

  datatype MetadataFetch = FetchFailed(fault: Fault) | NotModified | Fetched(metadata: Metadata)

  function SelectMetadata(cached: Option<Metadata>, readFailed: bool, fetch: MetadataFetch, saved: bool): (s: MetadataResult)
    ensures s.doc.Some? <==> s.source != FromNothing
    ensures s.source != FromConfig
    ensures s.source == FromFresh <==> (fetch.NotModified? && cached.Some?) || (fetch.Fetched? && saved)
    ensures s.source == FromFresh ==> s.error == NoError && s.doc == if fetch.Fetched? then Some(fetch.metadata) else cached
    ensures s.source == FromCache ==> s.doc == cached
    ensures s.source == FromNothing ==> cached.None?
    ensures s.source != FromFresh ==> s.error == match fetch
            case FetchFailed(fault) => ModelsDev(fault)
            case NotModified => ModelsDev(Schema)
            case Fetched(_) => if readFailed then CacheRead else CacheWrite
  {
    match fetch
    case FetchFailed(fault) => Select(None, cached, ModelsDev(fault))
    case NotModified => if cached.Some? then Select(cached, cached, NoError) else Select(None, cached, ModelsDev(Schema))
    case Fetched(metadata) =>
      if saved then Select(Some(metadata), cached, NoError)
      else Select(None, cached, if readFailed then CacheRead else CacheWrite)
  }

  function SettleMetadata(sh: Shared, a: AuthId, key: Key, gen: nat, r: Request,
                          cached: Option<Metadata>, readFailed: bool, fetch: MetadataFetch, saved: bool)
    : (Shared, MetadataResult)
  {
    var call := if sh.metadataCall == Some(r) then None else sh.metadataCall;
    if !Current(sh, a, key, gen) then
      (sh.(metadataCall := call, metadataDone := sh.metadataDone[r := None]), NoMetadata)
    else
      var selected := SelectMetadata(cached, readFailed, fetch, saved);
      var sh' := sh.(metadataCall := call, metadataDone := sh.metadataDone[r := Some(selected)]);
      if selected.doc.Some? then
        (sh'.(metadataResult := Some(selected), metadataCache := selected.doc), selected)
      else if readFailed then
        (sh'.(metadataResult := Some(Selection(None, FromNothing, CacheRead))), selected)
      else
        (sh'.(metadataResult := None), selected)
  }

  // ----- configuration -----

  function Commit(sh: Shared, next: Features): Shared {
    if OnlyOrderChanged(sh.features, next) || OnlyContextChanged(sh.features, next) then sh.(features := next)
    else sh.(features := next, config := sh.config + 1)
  }

  function DropMetadata(sh: Shared): Shared {
    sh.(metadataResult := None, metadataCall := None)
  }

  function Advance(sh: Shared): Shared {
    sh.(config := sh.config + 1)
  }
}
