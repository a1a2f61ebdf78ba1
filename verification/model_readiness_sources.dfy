/**
 Where an answer comes from: the models a request lists and the state it reports, traced back to what the
 network and the store answered that very request, whatever the other threads did in between.
 */
module ModelReadinessSources {
  import opened Basics
  import opened ModelReadiness
  import opened ModelReadinessProtocol
  import opened ModelReadinessThread

  // ----- what one section finds -----

  predicate UpToDate(w: World, own: Own) {
    var slot := if own.auth in w.memory.slots then w.memory.slots[own.auth] else FreshSlot;
    slot.key.config == own.config == w.memory.config && slot.key.credential == Some(own.credential) && slot.nextAuth == own.gen
  }

  /** A call with a later sequence number has committed under the same configuration. */
  predicate OvertakenIn(w: World, own: Own, sequence: nat) {
    var i := own.credential.identity;
    if i in w.memory.identities
    then w.memory.identities[i].committed.config == own.config && sequence < w.memory.identities[i].committed.sequence
    else own.config == 0 && sequence < 0
  }

  predicate Readable(w: World, own: Own) {
    !w.env.readFails && own.credential.identity in w.memory.disk
  }

  function Listed(w: World, own: Own): seq<ModelId>
    requires Readable(w, own)
  {
    w.memory.disk[own.credential.identity].models
  }

  /** The catalog that decides an answer: its models if there is one, where they are from, and what went wrong. */
  datatype Decision = Decision(models: Option<seq<ModelId>>, source: Source, error: ErrorCode)

  /** The sections that decide: a fetch whose catalog is saved, a read of the catalog that overtook the call,
      and the fallback read after a failure. */
  predicate Decides(w: World, own: Own, stage: Stage, d: Decision) {
    match stage
    case FetchCatalog(sequence, _, _) =>
      && w.env.fetch.GotCatalog? && w.env.write == Written && UpToDate(w, own) && !OvertakenIn(w, own, sequence)
      && d == Decision(Some(w.env.fetch.models), FromFresh, NoError)
    case LoadCommitted(_, cached) =>
      if Readable(w, own) then d == Decision(Some(Listed(w, own)), FromFresh, NoError)
      else if cached.Some? then d == Decision(Some(cached.value.models), FromCache, CacheRead)
      else d == Decision(None, FromNothing, CacheRead)
    case Reload(failure) =>
      if Readable(w, own) then d == Decision(Some(Listed(w, own)), FromCache, failure)
      else d == Decision(None, FromNothing, if w.env.readFails then CacheRead else failure)
    case _ => false
  }

  /** The sections that give a request its metadata: a generation that is no longer current goes without. */
  predicate Gives(w: World, own: Own, stage: Stage, metadata: MetadataResult) {
    match stage
    case CheckCurrent(_) => !UpToDate(w, own) && metadata == Selection(None, FromNothing, NoError)
    case MetadataGate(_) => w.memory.metadataResult == Some(metadata) && metadata.doc.Some?
    case AwaitMetadata(_, call) => call in w.memory.metadataDone && w.memory.metadataDone[call] == Some(metadata)
    case FetchMetadata(_, cached, readFailed) =>
      if !UpToDate(w, own) then metadata == Selection(None, FromNothing, NoError)
      else Fetches(w.env, cached, readFailed, metadata)
    case _ => false
  }

  /** A fetched document counts once it is saved, an unmodified one only over a cached copy. */
  predicate Fetches(env: Env, cached: Option<Metadata>, readFailed: bool, metadata: MetadataResult) {
    match env.metadata
    case Fetched(doc) =>
      if env.metadataSaved then metadata == Selection(Some(doc), FromFresh, NoError)
      else FallsBack(metadata, cached, if readFailed then CacheRead else CacheWrite)
    case NotModified =>
      if cached.Some? then metadata == Selection(cached, FromFresh, NoError) else FallsBack(metadata, cached, ModelsDev(Schema))
    case FetchFailed(fault) => FallsBack(metadata, cached, ModelsDev(fault))
  }

  predicate FallsBack(metadata: MetadataResult, cached: Option<Metadata>, failure: ErrorCode) {
    metadata == Selection(cached, if cached.Some? then FromCache else FromNothing, failure)
  }

  /** The answer assembled from the two. It lists the models of the catalog if there are both, it is ready if both
      are as good as fresh, and otherwise it names what went wrong with the catalog, or else with the metadata. */
  predicate Assembled(sn: Snapshot, own: Own, d: Decision, metadata: MetadataResult) {
    var good := (d.source == FromFresh || d.source == FromConfig) && metadata.source == FromFresh;
    && sn.modelSource == d.source && sn.metadataSource == metadata.source
    && sn.config == sn.builtAt == own.config && sn.auth == own.gen
    && (if d.models.None? || metadata.doc.None? then sn.state == Failed && sn.models == []
        else sn.state == (if good then Ready else Stale) && sn.models == d.models.value)
    && sn.error == (if sn.state == Ready then NoError else if d.error != NoError then d.error else metadata.error)
  }

  // ----- one section at a time -----

  function ChoiceOf(stage: Stage): Option<Choice> {
    match stage
    case CheckCurrent(choice) => Some(choice)
    case MetadataGate(choice) => Some(choice)
    case AwaitMetadata(choice, _) => Some(choice)
    case FetchMetadata(choice, _, _) => Some(choice)
    case _ => None
  }

  function DecisionOf(own: Own, choice: Choice): Decision {
    match choice
    case Configured => Decision(Some(own.configured), FromConfig, NoError)
    case Discovered(sel) => Decision(if sel.doc.Some? then Some(sel.doc.value.models) else None, sel.source, sel.error)
  }

  predicate Plain(choice: Choice) {
    choice.Discovered? ==> choice.catalog.source != FromConfig
  }

  lemma BuildAssembles(own: Own, choice: Choice, metadata: MetadataResult)
    requires Plain(choice)
    ensures Assembled(Build(own, choice, metadata), own, DecisionOf(own, choice), metadata)
  {}

  lemma UpToDateIsCurrent(w: World, own: Own)
    ensures UpToDate(w, own) <==> Current(w.memory, own.auth, own.Key(), own.gen)
  {}

  ghost predicate AssembledHere(w: World, own: Own, stage: Stage, d: Decision, sn: Snapshot) {
    exists metadata :: Gives(w, own, stage, metadata) && Assembled(sn, own, d, metadata)
  }

  /** The metadata sections keep the choice, until one of them assembles the answer. */
  lemma ChoiceStep(w: World, r: Request, own: Own, stage: Stage)
    requires Runnable(w.memory, Working(own, stage)) && ChoiceOf(stage).Some? && Plain(ChoiceOf(stage).value)
    ensures var next := ActOwner(w.memory, r, own, stage, w.env).1;
            ChoiceOf(next) == ChoiceOf(stage)
            || (next.Publish? && AssembledHere(w, own, stage, DecisionOf(own, ChoiceOf(stage).value), next.snapshot))
  {
    var choice := ChoiceOf(stage).value;
    UpToDateIsCurrent(w, own);
    match stage
    case CheckCurrent(_) => BuildAssembles(own, choice, NoMetadata);
    case MetadataGate(_) => if w.memory.metadataResult.Some? { BuildAssembles(own, choice, w.memory.metadataResult.value); }
    case AwaitMetadata(_, call) => if w.memory.metadataDone[call].Some? { BuildAssembles(own, choice, w.memory.metadataDone[call].value); }
    case FetchMetadata(_, cached, readFailed) =>
      var metadata := SettleMetadata(w.memory, own.auth, own.Key(), own.gen, r, cached, readFailed, w.env.metadata, w.env.metadataSaved).1;
      BuildAssembles(own, choice, metadata);
  }

  /** A section that decides makes its choice, and no other section makes one. */
  lemma DecisionStep(w: World, r: Request, own: Own, stage: Stage, d: Decision)
    requires Runnable(w.memory, Working(own, stage)) && ChoiceOf(stage).None? && !stage.Publish?
    ensures var next := ActOwner(w.memory, r, own, stage, w.env).1;
            && (Decides(w, own, stage, d) <==> ChoiceOf(next).Some? && DecisionOf(own, ChoiceOf(next).value) == d)
            && (ChoiceOf(next).Some? ==> next.CheckCurrent? && next.choice.Discovered? && Plain(next.choice))
  {
    UpToDateIsCurrent(w, own);
  }

  // ----- the whole request -----

  /** The request stands at a stage of the call described by `own`. */
  predicate WorksAt(t: Trip, k: nat, own: Own, stage: Stage) {
    k <= |t.path| && t.Before(k) == Working(own, stage)
  }

  predicate DecidesAt(t: Trip, script: seq<World>, m: nat, own: Own, d: Decision) {
    m < |t.path| <= |script| && t.Before(m).Working? && t.Before(m).own == own && Decides(script[m], own, t.Before(m).stage, d)
  }

  predicate GivesAt(t: Trip, script: seq<World>, n: nat, own: Own, metadata: MetadataResult) {
    n < |t.path| <= |script| && t.Before(n).Working? && t.Before(n).own == own && Gives(script[n], own, t.Before(n).stage, metadata)
  }

  lemma WalkStep(t: Trip, script: seq<World>, k: nat, own: Own, stage: Stage)
    requires Walk(t, script) && k < |t.path| && WorksAt(t, k, own, stage) && !stage.Publish?
    ensures Runnable(script[k].memory, Working(own, stage))
    ensures t.Before(k + 1) == Working(own, ActOwner(script[k].memory, t.r, own, stage, script[k].env).1)
  {
    assert StepAt(t, script, k);
  }

  /** Since step `from` the choice stands, or the answer has been assembled from it, or returned. */
  ghost predicate Stands(t: Trip, script: seq<World>, from: nat, k: nat, own: Own, choice: Choice)
    requires from <= k <= |t.path|
  {
    match t.Before(k)
    case Working(o, stage) =>
      o == own && (ChoiceOf(stage) == Some(choice)
                   || (stage.Publish? && AssembledSince(t, script, from, k, own, DecisionOf(own, choice), stage.snapshot)))
    case Returned(_) => true
    case _ => false
  }

  ghost predicate AssembledSince(t: Trip, script: seq<World>, from: nat, k: nat, own: Own, d: Decision, sn: Snapshot) {
    exists n, metadata :: from <= n < k && GivesAt(t, script, n, own, metadata) && Assembled(sn, own, d, metadata)
  }

  lemma {:induction false} ChoiceStands(t: Trip, script: seq<World>, from: nat, k: nat, own: Own, choice: Choice)
    requires Walk(t, script) && from <= k <= |t.path| && Plain(choice)
    requires t.Before(from).Working? && t.Before(from).own == own && ChoiceOf(t.Before(from).stage) == Some(choice)
    ensures Stands(t, script, from, k, own, choice)
    decreases k
  {
    if from < k {
      ChoiceStands(t, script, from, k - 1, own, choice);
      assert StepAt(t, script, k - 1);
      match t.Before(k - 1)
      case Returned(_) => assert false;
      case Working(_, stage) =>
        if stage.Publish? {
        } else {
          WalkStep(t, script, k - 1, own, stage);
          ChoiceStep(script[k - 1], t.r, own, stage);
          var next := t.Before(k).stage;
          if next.Publish? {
            var metadata :| Gives(script[k - 1], own, stage, metadata) && Assembled(next.snapshot, own, DecisionOf(own, choice), metadata);
            assert GivesAt(t, script, k - 1, own, metadata);
          }
        }
    }
  }

  /** Whatever decides in a request is what its answer shows. */
  lemma DecisionIsShown(t: Trip, script: seq<World>, m: nat, k: nat, own: Own, d: Decision, sn: Snapshot)
    requires Walk(t, script) && m < k <= |t.path| && DecidesAt(t, script, m, own, d) && WorksAt(t, k, own, Publish(sn))
    ensures AssembledSince(t, script, m, k, own, d, sn)
  {
    var stage := t.Before(m).stage;
    WalkStep(t, script, m, own, stage);
    DecisionStep(script[m], t.r, own, stage, d);
    var choice := ChoiceOf(t.Before(m + 1).stage).value;
    ChoiceStands(t, script, m + 1, k, own, choice);
  }

  /** What a metadata call settles with is what its own request, the requests that joined it, and every later request
      are given; a retired call leaves nothing. */
  lemma MetadataIsShared(w: World, r: Request, own: Own, stage: Stage)
    requires stage.FetchMetadata?
    ensures var metadata := SettleMetadata(w.memory, own.auth, own.Key(), own.gen, r, stage.cachedMetadata, stage.readFailed,
                                           w.env.metadata, w.env.metadataSaved).1;
            var sh := ActOwner(w.memory, r, own, stage, w.env).0;
            && Gives(w, own, stage, metadata) && r in sh.metadataDone && sh.metadataCall != Some(r)
            && (if !UpToDate(w, own) then
                  sh.metadataDone[r].None? && sh.metadataResult == w.memory.metadataResult && sh.metadataCache == w.memory.metadataCache
                else
                  && sh.metadataDone[r] == Some(metadata)
                  && (if metadata.doc.Some? then sh.metadataResult == Some(metadata) && sh.metadataCache == metadata.doc
                      else (sh.metadataResult.Some? ==> sh.metadataResult.value.doc.None?) && sh.metadataCache == w.memory.metadataCache))
  {
    UpToDateIsCurrent(w, own);
  }

  // ----- every answer is explained -----

  /** The section that opens the call: what `own` says is what the memory said then. */
  predicate OpensAt(t: Trip, script: seq<World>, n: nat, own: Own) {
    && n < |t.path| <= |script| && t.Before(n) == Arrived(own.auth, Some(own.credential))
    && own.config == script[n].memory.config && own.configured == script[n].memory.features.configured
  }

  predicate Outdated(t: Trip, script: seq<World>, m: nat, own: Own) {
    && m < |t.path| <= |script| && t.Before(m).Working? && t.Before(m).own == own && t.Before(m).stage.FetchCatalog?
    && script[m].env.fetch.GotCatalog? && !UpToDate(script[m], own)
  }

  function Unassembled(own: Own, state: ReadyState, source: Source, error: ErrorCode): Snapshot {
    Snapshot(state, source, FromNothing, error, [], own.config, own.gen, own.config)
  }

  /** An answer shows the catalog that decided the request, or the configured models; or the store cannot be used;
      or the call was retired before its catalog could be saved. */
  ghost predicate Explained(t: Trip, script: seq<World>, k: nat, own: Own, sn: Snapshot) {
    || (exists m: nat, d :: m < k && DecidesAt(t, script, m, own, d) && AssembledSince(t, script, m, k, own, d, sn))
    || (own.configured != [] && AssembledSince(t, script, 0, k, own, Decision(Some(own.configured), FromConfig, NoError), sn))
    || ((exists n :: 0 <= n < k && n < |script| && script[n].memory.storeBroken)
        && sn == Unassembled(own, Failed, if own.configured != [] then FromConfig else FromNothing, CacheRead))
    || ((exists m: nat :: m < k && Outdated(t, script, m, own)) && sn == Unassembled(own, Loading, FromNothing, NoError))
  }

  /** Where a choice was made: when the call was opened, or by a section that decides. */
  ghost predicate MadeAt(t: Trip, script: seq<World>, n: nat, own: Own, choice: Choice) {
    && n <= |t.path| && Plain(choice) && t.Before(n).Working? && t.Before(n).own == own && ChoiceOf(t.Before(n).stage) == Some(choice)
    && (if choice.Configured? then own.configured != []
        else 0 < n && DecidesAt(t, script, n - 1, own, DecisionOf(own, choice)))
  }

  /** What is known of a request at work before it publishes. */
  ghost predicate Known(t: Trip, script: seq<World>, k: nat, own: Own, stage: Stage) {
    && (exists n: nat :: n < k && OpensAt(t, script, n, own))
    && (ChoiceOf(stage).Some? ==> exists n :: 0 < n <= k && MadeAt(t, script, n, own, ChoiceOf(stage).value))
    && (stage.StoreUnavailable? ==> exists n :: 0 <= n < k && n < |script| && script[n].memory.storeBroken)
    && (stage.Publish? ==> Explained(t, script, k, own, stage.snapshot))
  }

  lemma OpeningIsKnown(t: Trip, script: seq<World>, k: nat, own: Own, stage: Stage)
    requires Walk(t, script) && k < |t.path| && t.Before(k).Arrived? && WorksAt(t, k + 1, own, stage)
    ensures Known(t, script, k + 1, own, stage)
  {
    assert StepAt(t, script, k);
    assert OpensAt(t, script, k, own);
    if ChoiceOf(stage).Some? { assert MadeAt(t, script, k + 1, own, ChoiceOf(stage).value); }
  }

  lemma ChosenIsExplained(t: Trip, script: seq<World>, n: nat, k: nat, own: Own, choice: Choice, sn: Snapshot)
    requires 0 < n < k <= |t.path| && MadeAt(t, script, n, own, choice) && WorksAt(t, k, own, Publish(sn))
    requires Stands(t, script, n, k, own, choice)
    ensures Explained(t, script, k, own, sn)
  {
    var d := DecisionOf(own, choice);
    var i, metadata :| n <= i < k && GivesAt(t, script, i, own, metadata) && Assembled(sn, own, d, metadata);
    if choice.Discovered? {
      assert AssembledSince(t, script, n - 1, k, own, d, sn);
      assert DecidesAt(t, script, n - 1, own, d);
    } else {
      assert AssembledSince(t, script, 0, k, own, d, sn);
    }
  }

  lemma ChosenStaysKnown(t: Trip, script: seq<World>, k: nat, own: Own, stage: Stage, next: Stage)
    requires Walk(t, script) && k < |t.path| && WorksAt(t, k, own, stage) && WorksAt(t, k + 1, own, next)
    requires ChoiceOf(stage).Some? && Known(t, script, k, own, stage)
    ensures ChoiceOf(next).Some? ==> exists n :: 0 < n <= k + 1 && MadeAt(t, script, n, own, ChoiceOf(next).value)
    ensures next.Publish? ==> Explained(t, script, k + 1, own, next.snapshot)
    ensures !next.StoreUnavailable?
  {
    var choice := ChoiceOf(stage).value;
    var n :| 0 < n <= k && MadeAt(t, script, n, own, choice);
    ChoiceStands(t, script, n, k + 1, own, choice);
    if next.Publish? { ChosenIsExplained(t, script, n, k + 1, own, choice, next.snapshot); }
  }

  lemma UndecidedStaysKnown(t: Trip, script: seq<World>, k: nat, own: Own, stage: Stage, next: Stage)
    requires Walk(t, script) && k < |t.path| && WorksAt(t, k, own, stage) && WorksAt(t, k + 1, own, next)
    requires ChoiceOf(stage).None? && !stage.Publish? && Known(t, script, k, own, stage)
    ensures ChoiceOf(next).Some? ==> MadeAt(t, script, k + 1, own, ChoiceOf(next).value)
    ensures next.Publish? ==> Explained(t, script, k + 1, own, next.snapshot)
    ensures !next.StoreUnavailable?
  {
    WalkStep(t, script, k, own, stage);
    DecisionStep(script[k], t.r, own, stage, if ChoiceOf(next).Some? then DecisionOf(own, ChoiceOf(next).value) else Decision(None, FromNothing, NoError));
    UpToDateIsCurrent(script[k], own);
    if next.Publish? && stage.FetchCatalog? { assert Outdated(t, script, k, own); }
  }

  lemma LaterIsKnown(t: Trip, script: seq<World>, k: nat, own: Own, stage: Stage, next: Stage)
    requires Walk(t, script) && k < |t.path| && WorksAt(t, k, own, stage) && WorksAt(t, k + 1, own, next)
    requires !stage.Publish? && Known(t, script, k, own, stage)
    ensures Known(t, script, k + 1, own, next)
  {
    if ChoiceOf(stage).Some? { ChosenStaysKnown(t, script, k, own, stage, next); } else { UndecidedStaysKnown(t, script, k, own, stage, next); }
  }

  lemma {:induction false} EveryAnswerIsExplained(t: Trip, script: seq<World>, k: nat, own: Own, stage: Stage)
    requires Walk(t, script) && t.start.Arrived? && WorksAt(t, k, own, stage)
    ensures Known(t, script, k, own, stage)
  {
    assert k > 0;
    assert StepAt(t, script, k - 1);
    match t.Before(k - 1)
    case Arrived(_, _) => OpeningIsKnown(t, script, k - 1, own, stage);
    case Working(o, before) =>
      EveryAnswerIsExplained(t, script, k - 1, o, before);
      if !before.Publish? { LaterIsKnown(t, script, k - 1, own, before, stage); }
    case _ =>
  }

  // ----- what was read and what went wrong before -----

  predicate StageAt(t: Trip, script: seq<World>, m: nat, own: Own) {
    m < |t.path| <= |script| && t.Before(m).Working? && t.Before(m).own == own
  }

  /** What the first read of the store found. */
  predicate FirstRead(t: Trip, script: seq<World>, m: nat, own: Own, cached: Option<Catalog>, failed: bool) {
    && StageAt(t, script, m, own) && t.Before(m).stage.LoadCache?
    && cached == (if Readable(script[m], own) then Some(script[m].memory.disk[own.credential.identity]) else None)
    && failed == script[m].env.readFails
  }

  /** A fetch that brought no catalog, or one that could not be saved. */
  predicate FailsAt(t: Trip, script: seq<World>, m: nat, own: Own, failure: ErrorCode) {
    && StageAt(t, script, m, own) && t.Before(m).stage.FetchCatalog?
    && match script[m].env.fetch
       case NoCatalog(fault) => failure == WorkBuddy(fault)
       case GotCatalog(_) => script[m].env.write != Written && failure == if t.Before(m).stage.cacheError then CacheRead else CacheWrite
  }

  /** No metadata is settled yet, and a call for it is running. */
  predicate JoinsAt(t: Trip, script: seq<World>, m: nat, own: Own, call: Request) {
    && StageAt(t, script, m, own) && t.Before(m).stage.MetadataGate?
    && NothingSettled(script[m].memory) && script[m].memory.metadataCall == Some(call)
  }

  predicate NothingSettled(memory: Shared) {
    memory.metadataResult.Some? ==> memory.metadataResult.value.doc.None?
  }

  /** Nor is any call running: the request opens one over the cached document it finds. */
  predicate OpensMetadata(t: Trip, script: seq<World>, m: nat, own: Own, cached: Option<Metadata>, readFailed: bool) {
    && StageAt(t, script, m, own) && t.Before(m).stage.MetadataGate?
    && var memory := script[m].memory;
    && NothingSettled(memory) && memory.metadataCall.None? && cached == memory.metadataCache
    && readFailed == (memory.metadataResult.Some? && memory.metadataResult.value.error == CacheRead)
  }

  /** What a stage carries from the sections before it. */
  ghost predicate Carries(t: Trip, script: seq<World>, k: nat, own: Own, stage: Stage) {
    match stage
    case FetchCatalog(_, cached, failed) => exists m: nat :: m < k && FirstRead(t, script, m, own, cached, failed)
    case LoadCommitted(_, cached) => exists m: nat, failed :: m < k && FirstRead(t, script, m, own, cached, failed)
    case AwaitIdentity(_, failure) => exists m: nat :: m < k && FailsAt(t, script, m, own, failure)
    case Reload(failure) => exists m: nat :: m < k && FailsAt(t, script, m, own, failure)
    case AwaitMetadata(_, call) => exists m: nat :: m < k && JoinsAt(t, script, m, own, call)
    case FetchMetadata(_, cached, readFailed) => exists m: nat :: m < k && OpensMetadata(t, script, m, own, cached, readFailed)
    case _ => true
  }

  lemma CarriesOn(t: Trip, script: seq<World>, k: nat, own: Own, stage: Stage, next: Stage)
    requires Walk(t, script) && k < |t.path| && WorksAt(t, k, own, stage) && WorksAt(t, k + 1, own, next)
    requires !stage.Publish? && Carries(t, script, k, own, stage)
    ensures Carries(t, script, k + 1, own, next)
  {
    WalkStep(t, script, k, own, stage);
    match stage
    case LoadCache(_) => assert FirstRead(t, script, k, own, next.cached, next.cacheError);
    case FetchCatalog(_, cached, failed) =>
      if next.AwaitIdentity? {
        assert FailsAt(t, script, k, own, next.failure);
      } else if next.LoadCommitted? {
        var m: nat :| m < k && FirstRead(t, script, m, own, cached, failed);
        assert FirstRead(t, script, m, own, next.cached, failed);
      }
    case MetadataGate(_) =>
      if next.AwaitMetadata? { assert JoinsAt(t, script, k, own, next.call); }
      if next.FetchMetadata? { assert OpensMetadata(t, script, k, own, next.cachedMetadata, next.readFailed); }
    case _ =>
  }

  lemma {:induction false} CarriedWasSeen(t: Trip, script: seq<World>, k: nat, own: Own, stage: Stage)
    requires Walk(t, script) && t.start.Arrived? && WorksAt(t, k, own, stage)
    ensures Carries(t, script, k, own, stage)
  {
    assert k > 0;
    assert StepAt(t, script, k - 1);
    match t.Before(k - 1)
    case Working(o, before) =>
      CarriedWasSeen(t, script, k - 1, o, before);
      if !before.Publish? {
        WalkStep(t, script, k - 1, o, before);
        CarriesOn(t, script, k - 1, own, before, stage);
      }
    case _ =>
  }

  // ----- what an executable answer lists -----

  predicate FetchesAt(t: Trip, script: seq<World>, m: nat, own: Own, models: seq<ModelId>) {
    StageAt(t, script, m, own) && t.Before(m).stage.FetchCatalog? && script[m].env.fetch == GotCatalog(models) && script[m].env.write == Written
  }

  predicate ReadsAt(t: Trip, script: seq<World>, m: nat, own: Own, models: seq<ModelId>) {
    StageAt(t, script, m, own) && Readable(script[m], own) && Listed(script[m], own) == models
  }

  ghost predicate Sourced(t: Trip, script: seq<World>, k: nat, own: Own, models: seq<ModelId>, source: Source) {
    match source
    case FromFresh =>
      (exists m: nat :: m < k && FetchesAt(t, script, m, own, models))
      || (exists m: nat :: m < k && ReadsAt(t, script, m, own, models) && t.Before(m).stage.LoadCommitted?)
    case FromCache =>
      exists m: nat :: m < k && ReadsAt(t, script, m, own, models) && (t.Before(m).stage.LoadCache? || t.Before(m).stage.Reload?)
    case FromConfig => models == own.configured
    case FromNothing => false
  }

  lemma DecisionIsSourced(t: Trip, script: seq<World>, m: nat, k: nat, own: Own, d: Decision)
    requires Walk(t, script) && t.start.Arrived? && m < k && DecidesAt(t, script, m, own, d) && d.models.Some?
    ensures Sourced(t, script, k, own, d.models.value, d.source)
  {
    var stage, models := t.Before(m).stage, d.models.value;
    match stage
    case FetchCatalog(_, _, _) => assert FetchesAt(t, script, m, own, models);
    case LoadCommitted(_, cached) =>
      if Readable(script[m], own) {
        assert ReadsAt(t, script, m, own, models);
      } else {
        CarriedWasSeen(t, script, m, own, stage);
        var n: nat, failed :| n < m && FirstRead(t, script, n, own, cached, failed);
        assert ReadsAt(t, script, n, own, models);
      }
    case Reload(_) => assert ReadsAt(t, script, m, own, models);
    case _ =>
  }

  /** An executable answer lists exactly the models that this request fetched and saved, or read from the store of its
      own identity, or found configured; and it is ready exactly if they are not from the cache and neither is
      the metadata. */
  lemma ExecutableIsSourced(t: Trip, script: seq<World>, k: nat, own: Own, sn: Snapshot)
    requires Walk(t, script) && t.start.Arrived? && WorksAt(t, k, own, Publish(sn)) && sn.Executable()
    ensures Sourced(t, script, k, own, sn.models, sn.modelSource)
    ensures sn.state == Ready <==> sn.modelSource != FromCache && sn.metadataSource == FromFresh
    ensures sn.state == Ready ==> sn.error == NoError
  {
    EveryAnswerIsExplained(t, script, k, own, Publish(sn));
    if m: nat, d :| m < k && DecidesAt(t, script, m, own, d) && AssembledSince(t, script, m, k, own, d, sn) {
      DecisionIsSourced(t, script, m, k, own, d);
    }
  }

  /** A catalog that was fetched and saved while the call was current is what the answer lists, and with fresh
      metadata the answer is ready. */
  lemma FetchedIsListed(t: Trip, script: seq<World>, m: nat, k: nat, own: Own, sn: Snapshot)
    requires Walk(t, script) && m < k && WorksAt(t, k, own, Publish(sn))
    requires StageAt(t, script, m, own) && t.Before(m).stage.FetchCatalog?
    requires script[m].env.fetch.GotCatalog? && script[m].env.write == Written
    requires UpToDate(script[m], own) && !OvertakenIn(script[m], own, t.Before(m).stage.sequence)
    ensures sn.modelSource == FromFresh
    ensures sn.Executable() ==> sn.models == script[m].env.fetch.models
    ensures sn.metadataSource == FromFresh && sn.Executable() ==> sn.state == Ready && sn.error == NoError
  {
    DecisionIsShown(t, script, m, k, own, Decision(Some(script[m].env.fetch.models), FromFresh, NoError), sn);
  }
}
