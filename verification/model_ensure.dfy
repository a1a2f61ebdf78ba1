/**
 One whole request composed of the sections of the runtime object. Between any two sections the other
 threads may leave the memory in any state; a script says in which, and what the store and the network
 answer. Under every script the request takes exactly the steps of the protocol.
 */
module ModelEnsure {
  import opened Basics
  import opened ModelReadiness
  import opened ModelReadinessProtocol
  import opened ModelReadinessSources
  import opened ModelReadinessThread
  import opened ModelRuntimeObject

  /** The script ends here, or the request waits for a call that is not closed. */
  ghost predicate Stopped(t: Trip, script: seq<World>) {
    Walk(t, script) && (|t.path| == |script| || !Runnable(script[|t.path|].memory, t.Before(|t.path|)))
  }

  ghost predicate Fits(rt: ModelRuntime, script: seq<World>) {
    forall k | 0 <= k < |script| :: script[k].memory.storeBroken == rt.storeBroken
  }

  // ----- sections -----

  method Arrive(rt: ModelRuntime, a: AuthId, credential: Option<Credential>, r: Request, script: seq<World>, ghost t: Trip)
    returns (next: Pc, ghost t': Trip)
    requires Fits(rt, script) && |script| > 0 && Here(t, script, 0, Arrived(a, credential)) && t.r == r
    modifies rt
    ensures t' == t.(path := t.path + [Point(rt.View(), next)]) && Here(t', script, 1, next)
    ensures next.Returned? || (next.AwaitAuth? && next.auth == a) || (next.Working? && Opening(next.stage))
  {
    rt.Interleave(script[0].memory);
    if credential.None? {
      var failed := rt.EnsureRejected(a);
      next := Returned(failed);
    } else {
      var entry := rt.EnterAuth(a, credential.value, r);
      match entry
      case Existing(snapshot) => next := Returned(snapshot);
      case Join(call) => next := AwaitAuth(a, call);
      case Open(config, gen, configured) =>
        var own := Own(a, config, credential.value, gen, configured);
        next := Working(own, if rt.storeBroken then StoreUnavailable else if configured != [] then CheckCurrent(Configured) else StartCall);
    }
    t' := Extend(t, script, 0, Arrived(a, credential), Point(rt.View(), next));
  }

  predicate Opening(stage: Stage) {
    stage.StoreUnavailable? || stage == CheckCurrent(Configured) || stage.StartCall?
  }

  method ReadJoined(rt: ModelRuntime, a: AuthId, call: Request, script: seq<World>, k: nat, ghost t: Trip)
    returns (snapshot: Snapshot, ghost t': Trip)
    requires Fits(rt, script) && k < |script| && Here(t, script, k, AwaitAuth(a, call)) && call in script[k].memory.authDone
    modifies rt
    ensures t' == t.(path := t.path + [Point(rt.View(), Returned(snapshot))]) && Here(t', script, k + 1, Returned(snapshot))
  {
    rt.Interleave(script[k].memory);
    snapshot := rt.SnapshotForAuth(a);
    t' := Extend(t, script, k, AwaitAuth(a, call), Point(rt.View(), Returned(snapshot)));
  }

  method StoreGone(rt: ModelRuntime, own: Own, script: seq<World>, k: nat, ghost t: Trip) returns (snapshot: Snapshot, ghost t': Trip)
    requires Fits(rt, script) && k < |script| && Here(t, script, k, Working(own, StoreUnavailable))
    modifies rt
    ensures t'.r == t.r && t'.start == t.start && Here(t', script, k + 1, Working(own, Publish(snapshot)))
  {
    rt.Interleave(script[k].memory);
    snapshot := StoreFailure(own);
    t' := Extend(t, script, k, Working(own, StoreUnavailable), Point(rt.View(), Working(own, Publish(snapshot))));
  }

  method Start(rt: ModelRuntime, own: Own, r: Request, script: seq<World>, k: nat, ghost t: Trip) returns (sequence: nat, ghost t': Trip)
    requires Fits(rt, script) && k < |script| && Here(t, script, k, Working(own, StartCall)) && t.r == r
    modifies rt
    ensures t'.r == t.r && t'.start == t.start && Here(t', script, k + 1, Working(own, LoadCache(sequence)))
  {
    rt.Interleave(script[k].memory);
    sequence := rt.StartIdentityCall(own.credential.identity, r);
    t' := Extend(t, script, k, Working(own, StartCall), Point(rt.View(), Working(own, LoadCache(sequence))));
  }

  /** A read of the store between sections. */
  method LoadModels(rt: ModelRuntime, own: Own, stage: Stage, script: seq<World>, k: nat, ghost t: Trip)
    returns (stored: Option<Catalog>, readFails: bool, ghost t': Trip)
    requires Fits(rt, script) && k < |script| && Here(t, script, k, Working(own, stage))
    requires stage.LoadCache? || stage.LoadCommitted? || stage.Reload?
    modifies rt
    ensures t'.r == t.r && t'.start == t.start && Here(t', script, k + 1, Working(own, Loaded(stage, stored, readFails)))
  {
    rt.Interleave(script[k].memory);
    readFails := script[k].env.readFails;
    var i := own.credential.identity;
    stored := if !readFails && i in rt.disk then Some(rt.disk[i]) else None;
    t' := Extend(t, script, k, Working(own, stage), Point(rt.View(), Working(own, Loaded(stage, stored, readFails))));
  }

  /** What each of the three reads of the stored catalog is for. */
  function Loaded(stage: Stage, stored: Option<Catalog>, readFails: bool): Stage
    requires stage.LoadCache? || stage.LoadCommitted? || stage.Reload?
  {
    match stage
    case LoadCache(sequence) => FetchCatalog(sequence, stored, readFails)
    case LoadCommitted(_, cached) => CheckCurrent(Discovered(Select(stored, cached, CacheRead)))
    case Reload(failure) => CheckCurrent(Discovered(Select(None, stored, if readFails then CacheRead else failure)))
  }

  method Fetch(rt: ModelRuntime, own: Own, r: Request, sequence: nat, cached: Option<Catalog>, cacheError: bool,
               script: seq<World>, k: nat, ghost t: Trip) returns (next: Stage, ghost t': Trip)
    requires Fits(rt, script) && k < |script| && Here(t, script, k, Working(own, FetchCatalog(sequence, cached, cacheError))) && t.r == r
    modifies rt
    ensures t'.r == t.r && t'.start == t.start && Here(t', script, k + 1, Working(own, next))
    ensures next.AwaitIdentity? || next.LoadCommitted? || next.CheckCurrent? || next.Publish?
  {
    rt.Interleave(script[k].memory);
    var i, env := own.credential.identity, script[k].env;
    if env.fetch.NoCatalog? {
      var waits := rt.SettleIdentityCall(i, r);
      next := AwaitIdentity(waits, WorkBuddy(env.fetch.fault));
    } else {
      var catalog := Catalog(Stamp(own.config, sequence), env.fetch.models);
      var result := rt.SaveModelsForGeneration(own.auth, own.Key(), own.gen, i, r, catalog, env.write);
      match result
      case Outdated => next := Publish(own.Loading());
      case Overtaken => next := LoadCommitted(sequence, cached);
      case Saved => next := CheckCurrent(Discovered(Select(Some(catalog), cached, NoError)));
      case SaveFailed(waits) => next := AwaitIdentity(waits, if cacheError then CacheRead else CacheWrite);
    }
    t' := Extend(t, script, k, Working(own, FetchCatalog(sequence, cached, cacheError)), Point(rt.View(), Working(own, next)));
  }

  method StopWaiting(rt: ModelRuntime, own: Own, waits: set<Request>, failure: ErrorCode, script: seq<World>, k: nat, ghost t: Trip)
    returns (ghost t': Trip)
    requires Fits(rt, script) && k < |script| && Here(t, script, k, Working(own, AwaitIdentity(waits, failure)))
    requires waits <= script[k].memory.identityDone
    modifies rt
    ensures t'.r == t.r && t'.start == t.start && Here(t', script, k + 1, Working(own, Reload(failure)))
  {
    rt.Interleave(script[k].memory);
    t' := Extend(t, script, k, Working(own, AwaitIdentity(waits, failure)), Point(rt.View(), Working(own, Reload(failure))));
  }

  method StillCurrent(rt: ModelRuntime, own: Own, choice: Choice, script: seq<World>, k: nat, ghost t: Trip) returns (current: bool, ghost t': Trip)
    requires Fits(rt, script) && k < |script| && Here(t, script, k, Working(own, CheckCurrent(choice)))
    modifies rt
    ensures t'.r == t.r && t'.start == t.start
    ensures Here(t', script, k + 1, Working(own, if current then MetadataGate(choice) else Publish(Build(own, choice, NoMetadata))))
  {
    rt.Interleave(script[k].memory);
    var slot := rt.AuthSlot(own.auth);
    current := slot.key == own.Key() && slot.nextAuth == own.gen && rt.configGeneration == own.config;
    t' := Extend(t, script, k, Working(own, CheckCurrent(choice)),
                 Point(rt.View(), Working(own, if current then MetadataGate(choice) else Publish(Build(own, choice, NoMetadata)))));
  }

  function AfterGate(own: Own, choice: Choice, entry: MetadataEntry): Stage {
    match entry
    case Settled(result) => Publish(Build(own, choice, result))
    case JoinMetadata(call) => AwaitMetadata(choice, call)
    case OpenMetadata(cached, readFailed) => FetchMetadata(choice, cached, readFailed)
  }

  method Gate(rt: ModelRuntime, own: Own, r: Request, choice: Choice, script: seq<World>, k: nat, ghost t: Trip)
    returns (entry: MetadataEntry, ghost t': Trip)
    requires Fits(rt, script) && k < |script| && Here(t, script, k, Working(own, MetadataGate(choice))) && t.r == r
    modifies rt
    ensures t'.r == t.r && t'.start == t.start && Here(t', script, k + 1, Working(own, AfterGate(own, choice, entry)))
  {
    rt.Interleave(script[k].memory);
    entry := rt.JoinOrOpenMetadata(r);
    t' := Extend(t, script, k, Working(own, MetadataGate(choice)), Point(rt.View(), Working(own, AfterGate(own, choice, entry))));
  }

  function AfterWait(own: Own, choice: Choice, result: Option<MetadataResult>): Stage {
    if result.Some? then Publish(Build(own, choice, result.value)) else CheckCurrent(choice)
  }

  method ReadJoinedMetadata(rt: ModelRuntime, own: Own, choice: Choice, call: Request, script: seq<World>, k: nat, ghost t: Trip)
    returns (result: Option<MetadataResult>, ghost t': Trip)
    requires Fits(rt, script) && k < |script| && Here(t, script, k, Working(own, AwaitMetadata(choice, call)))
    requires call in script[k].memory.metadataDone
    modifies rt
    ensures t'.r == t.r && t'.start == t.start && Here(t', script, k + 1, Working(own, AfterWait(own, choice, result)))
  {
    rt.Interleave(script[k].memory);
    result := rt.metadataDone[call];
    t' := Extend(t, script, k, Working(own, AwaitMetadata(choice, call)), Point(rt.View(), Working(own, AfterWait(own, choice, result))));
  }

  method FetchAndSettle(rt: ModelRuntime, own: Own, r: Request, choice: Choice, cached: Option<Metadata>, readFailed: bool,
                        script: seq<World>, k: nat, ghost t: Trip) returns (snapshot: Snapshot, ghost t': Trip)
    requires Fits(rt, script) && k < |script| && Here(t, script, k, Working(own, FetchMetadata(choice, cached, readFailed))) && t.r == r
    modifies rt
    ensures t'.r == t.r && t'.start == t.start && Here(t', script, k + 1, Working(own, Publish(snapshot)))
  {
    rt.Interleave(script[k].memory);
    var env := script[k].env;
    var result := rt.SettleMetadataCall(own.auth, own.Key(), own.gen, r, cached, readFailed, env.metadata, env.metadataSaved);
    snapshot := Build(own, choice, result);
    t' := Extend(t, script, k, Working(own, FetchMetadata(choice, cached, readFailed)), Point(rt.View(), Working(own, Publish(snapshot))));
  }

  method Finalize(rt: ModelRuntime, own: Own, r: Request, snapshot: Snapshot, script: seq<World>, k: nat, ghost t: Trip)
    returns (result: Snapshot, ghost t': Trip)
    requires Fits(rt, script) && k < |script| && Here(t, script, k, Working(own, Publish(snapshot))) && t.r == r
    modifies rt
    ensures t' == t.(path := t.path + [Point(rt.View(), Returned(result))]) && Here(t', script, k + 1, Returned(result))
  {
    rt.Interleave(script[k].memory);
    result := rt.FinishAuthCall(own.auth, own.Key(), own.gen, r, snapshot);
    t' := Extend(t, script, k, Working(own, Publish(snapshot)), Point(rt.View(), Returned(result)));
  }

  // ----- the request -----

  /** Either the request goes on at `pc`, or it is stopped for now. */
  ghost predicate GoesOn(t: Trip, script: seq<World>, k: nat, stage: Option<Stage>, own: Own) {
    if stage.Some? then Here(t, script, k, Working(own, stage.value)) else Stopped(t, script)
  }

  /** From the start of an identity call to what its fetch leads to. */
  method CallIdentity(rt: ModelRuntime, own: Own, r: Request, script: seq<World>, k: nat, ghost t: Trip)
    returns (next: Option<Stage>, k': nat, ghost t': Trip)
    requires Fits(rt, script) && Here(t, script, k, Working(own, StartCall)) && t.r == r
    modifies rt
    ensures t'.r == t.r && t'.start == t.start && GoesOn(t', script, k', next, own)
    ensures next.Some? ==> next.value.AwaitIdentity? || next.value.LoadCommitted? || next.value.CheckCurrent? || next.value.Publish?
  {
    next, k', t' := None, k, t;
    if k' == |script| { return; }
    var sequence;
    sequence, t' := Start(rt, own, r, script, k', t');
    k' := k' + 1;
    if k' == |script| { return; }
    var cached, cacheError;
    cached, cacheError, t' := LoadModels(rt, own, LoadCache(sequence), script, k', t');
    k' := k' + 1;
    if k' == |script| { return; }
    var stage;
    stage, t' := Fetch(rt, own, r, sequence, cached, cacheError, script, k', t');
    next, k' := Some(stage), k' + 1;
  }

  /** And on to the catalog chosen, or to an outdated call: an overtaken call reads what overtook it, a failed
      one waits for the calls it found active and reloads. */
  method DiscoverModels(rt: ModelRuntime, own: Own, r: Request, script: seq<World>, k: nat, ghost t: Trip)
    returns (next: Option<Stage>, k': nat, ghost t': Trip)
    requires Fits(rt, script) && Here(t, script, k, Working(own, StartCall)) && t.r == r
    modifies rt
    ensures t'.r == t.r && t'.start == t.start && GoesOn(t', script, k', next, own)
    ensures next.Some? ==> next.value.CheckCurrent? || next.value.Publish?
  {
    next, k', t' := CallIdentity(rt, own, r, script, k, t);
    if next.None? || next.value.CheckCurrent? || next.value.Publish? { return; }
    var stage := next.value;
    next := None;
    if k' == |script| { return; }
    if stage.AwaitIdentity? {
      if !(stage.waits <= script[k'].memory.identityDone) { return; }
      t' := StopWaiting(rt, own, stage.waits, stage.failure, script, k', t');
      stage, k' := Reload(stage.failure), k' + 1;
      if k' == |script| { return; }
    }
    var stored, readFails;
    stored, readFails, t' := LoadModels(rt, own, stage, script, k', t');
    next, k' := Some(Loaded(stage, stored, readFails)), k' + 1;
  }

  /** One round of the metadata loop: a retired generation goes without metadata, a settled result is used, a
      running call is joined, and otherwise one is opened. Back at the check if the joined call was retired. */
  method MetadataRound(rt: ModelRuntime, own: Own, r: Request, choice: Choice, script: seq<World>, k: nat, ghost t: Trip)
    returns (next: Option<Stage>, k': nat, ghost t': Trip)
    requires Fits(rt, script) && k < |script| && Here(t, script, k, Working(own, CheckCurrent(choice))) && t.r == r
    modifies rt
    ensures t'.r == t.r && t'.start == t.start && GoesOn(t', script, k', next, own)
    ensures next.Some? ==> k' > k && (next.value == CheckCurrent(choice) || next.value.Publish?)
  {
    next, k', t' := None, k, t;
    var current;
    current, t' := StillCurrent(rt, own, choice, script, k', t');
    k' := k' + 1;
    if !current { return Some(Publish(Build(own, choice, NoMetadata))), k', t'; }
    if k' == |script| { return; }
    var entry;
    entry, t' := Gate(rt, own, r, choice, script, k', t');
    k' := k' + 1;
    if entry.Settled? { return Some(AfterGate(own, choice, entry)), k', t'; }
    if k' == |script| { return; }
    if entry.JoinMetadata? {
      if entry.call !in script[k'].memory.metadataDone { return; }
      var result;
      result, t' := ReadJoinedMetadata(rt, own, choice, entry.call, script, k', t');
      next, k' := Some(AfterWait(own, choice, result)), k' + 1;
    } else {
      var snapshot;
      snapshot, t' := FetchAndSettle(rt, own, r, choice, entry.cached, entry.readFailed, script, k', t');
      next, k' := Some(Publish(snapshot)), k' + 1;
    }
  }

  method MetadataFor(rt: ModelRuntime, own: Own, r: Request, choice: Choice, script: seq<World>, k: nat, ghost t: Trip)
    returns (next: Option<Stage>, k': nat, ghost t': Trip)
    requires Fits(rt, script) && Here(t, script, k, Working(own, CheckCurrent(choice))) && t.r == r
    modifies rt
    ensures t'.r == t.r && t'.start == t.start && GoesOn(t', script, k', next, own)
    ensures next.Some? ==> next.value.Publish?
  {
    next, k', t' := Some(CheckCurrent(choice)), k, t;
    while next == Some(CheckCurrent(choice))
      invariant t'.r == t.r && t'.start == t.start && GoesOn(t', script, k', next, own)
      invariant next.Some? ==> next.value == CheckCurrent(choice) || next.value.Publish?
      decreases next.Some?, |script| - k'
    {
      if k' == |script| {
        next := None;
      } else {
        next, k', t' := MetadataRound(rt, own, r, choice, script, k', t');
      }
    }
  }

  /** The request that owns its account call, up to the snapshot it will publish. */
  method Assemble(rt: ModelRuntime, own: Own, stage: Stage, r: Request, script: seq<World>, k: nat, ghost t: Trip)
    returns (next: Option<Stage>, k': nat, ghost t': Trip)
    requires Fits(rt, script) && Here(t, script, k, Working(own, stage)) && t.r == r && Opening(stage)
    modifies rt
    ensures t'.r == t.r && t'.start == t.start && GoesOn(t', script, k', next, own)
    ensures next.Some? ==> next.value.Publish?
  {
    next, k', t' := None, k, t;
    if stage.StoreUnavailable? {
      if k' == |script| { return; }
      var failed;
      failed, t' := StoreGone(rt, own, script, k', t');
      return Some(Publish(failed)), k' + 1, t';
    }
    var choice := Configured;
    if stage.StartCall? {
      next, k', t' := DiscoverModels(rt, own, r, script, k', t');
      if next.None? || next.value.Publish? { return; }
      choice := next.value.choice;
    }
    next, k', t' := MetadataFor(rt, own, r, choice, script, k', t');
  }

  // ----- what the answer says -----

  /** The answer is what the memory shows for the account: its published snapshot, or that nothing has been started
      under the current configuration. */
  predicate Shown(memory: Shared, a: AuthId, result: Snapshot) {
    var current := if a in memory.slots then memory.slots[a].current else None;
    || current == Some(result)
    || ((current.None? || current.value.config != memory.config)
        && result == Snapshot(NotStarted, FromNothing, FromNothing, NoError, [], memory.config, 0, memory.config))
  }

  /** A request without a valid credential fails. One that has assembled a snapshot answers it while its call is
      current, and the snapshot is explained by what the network and the store answered this request. */
  ghost predicate Answers(t: Trip, script: seq<World>, a: AuthId, credential: Option<Credential>, memory: Shared, result: Snapshot)
    requires t.path != [] && |t.path| <= |script|
  {
    var n := |t.path| - 1;
    && Shown(memory, a, result)
    && (credential.None? ==> result.state == Failed && result.error == AuthInvalid && result.models == [] && result.config == memory.config)
    && forall own, sn | t.Before(n) == Working(own, Publish(sn)) ::
         && own.auth == a && credential == Some(own.credential) && Explained(t, script, n, own, sn)
         && (UpToDate(script[n], own) ==> result == sn)
  }

  lemma OnlyStartsArrived(t: Trip, script: seq<World>, k: nat)
    requires Walk(t, script) && 0 < k <= |t.path|
    ensures !t.Before(k).Arrived?
  {
    assert StepAt(t, script, k - 1);
  }

  lemma WaitsAfterArrival(t: Trip, script: seq<World>, k: nat)
    requires Walk(t, script) && 0 < k <= |t.path| && t.Before(k).AwaitAuth?
    ensures t.start.Arrived? && t.start.credential.Some? && t.start.auth == t.Before(k).auth
  {
    assert StepAt(t, script, k - 1);
    if k > 1 { OnlyStartsArrived(t, script, k - 1); }
  }

  lemma ArrivalAnswers(sh: Shared, r: Request, a: AuthId, credential: Option<Credential>)
    requires ActArrived(sh, r, a, credential).1.Returned?
    ensures var (sh', pc) := ActArrived(sh, r, a, credential);
            && Shown(sh', a, pc.result)
            && (credential.None? ==> pc.result.state == Failed && pc.result.error == AuthInvalid && pc.result.models == [] && pc.result.config == sh'.config)
  {}

  lemma FinishAnswers(w: World, own: Own, r: Request, sn: Snapshot)
    ensures var (sh', result) := Finish(w.memory, own.auth, own.Key(), own.gen, r, sn);
            Shown(sh', own.auth, result) && (UpToDate(w, own) ==> result == sn)
  {
    UpToDateIsCurrent(w, own);
  }

  lemma AnswerMeaning(t: Trip, script: seq<World>, a: AuthId, credential: Option<Credential>, memory: Shared, result: Snapshot)
    requires Walk(t, script) && t.start == Arrived(a, credential)
    requires t.path != [] && t.path[|t.path| - 1] == Point(memory, Returned(result))
    ensures Answers(t, script, a, credential, memory, result)
  {
    var n := |t.path| - 1;
    assert StepAt(t, script, n);
    if n > 0 { OnlyStartsArrived(t, script, n); }
    match t.Before(n)
    case Arrived(_, _) => ArrivalAnswers(script[n].memory, t.r, a, credential);
    case AwaitAuth(_, _) => WaitsAfterArrival(t, script, n);
    case Working(own, stage) =>
      EveryAnswerIsExplained(t, script, n, own, stage);
      var o: nat :| o < n && OpensAt(t, script, o, own);
      if o > 0 { OnlyStartsArrived(t, script, o); }
      if stage.Publish? { FinishAnswers(script[n], own, t.r, stage.snapshot); }
    case _ =>
  }

  /** One request under any script. It answers a snapshot, or the script ends or leaves it waiting; either
      way its sections are exactly the steps of the protocol. */
  method EnsureForAuth(rt: ModelRuntime, a: AuthId, credential: Option<Credential>, r: Request, script: seq<World>)
    returns (result: Option<Snapshot>, ghost t: Trip)
    requires Fits(rt, script)
    modifies rt
    ensures t.r == r && t.start == Arrived(a, credential)
    ensures if result.Some? then Walk(t, script) && t.path != [] && t.path[|t.path| - 1] == Point(rt.View(), Returned(result.value))
            else Stopped(t, script)
    ensures result.Some? ==> Answers(t, script, a, credential, rt.View(), result.value)
  {
    result, t := Ensure(rt, a, credential, r, script);
    if result.Some? { AnswerMeaning(t, script, a, credential, rt.View(), result.value); }
  }

  method Ensure(rt: ModelRuntime, a: AuthId, credential: Option<Credential>, r: Request, script: seq<World>)
    returns (result: Option<Snapshot>, ghost t: Trip)
    requires Fits(rt, script)
    modifies rt
    ensures t.r == r && t.start == Arrived(a, credential)
    ensures if result.Some? then Walk(t, script) && t.path != [] && t.path[|t.path| - 1] == Point(rt.View(), Returned(result.value))
            else Stopped(t, script)
  {
    result, t := None, Trip(r, Arrived(a, credential), []);
    if |script| == 0 { return; }
    var next;
    var k := 1;
    next, t := Arrive(rt, a, credential, r, script, t);
    if next.Returned? { return Some(next.result), t; }
    if k == |script| { return; }
    if next.AwaitAuth? {
      if next.call !in script[k].memory.authDone { return; }
      var joined;
      joined, t := ReadJoined(rt, a, next.call, script, k, t);
      return Some(joined), t;
    }
    var stage;
    stage, k, t := Assemble(rt, next.own, next.stage, r, script, k, t);
    if stage.None? || k == |script| { return; }
    var answer;
    answer, t := Finalize(rt, next.own, r, stage.value.snapshot, script, k, t);
    result := Some(answer);
  }
}
