/**
 The runtime object itself: the same memory as `Shared`, updated in place. Every method is one
 lock-held section and is proved to be the section the protocol steps with.
 */
module ModelRuntimeObject {
  import opened Basics
  import opened ModelReadiness

  class ModelRuntime {
    const storeBroken: bool
    var configGeneration: nat
    var features: Features
    var slots: map<AuthId, Slot>
    var authDone: set<Request>
    var identities: map<Identity, IdentitySlot>
    var identityDone: set<Request>
    var disk: map<Identity, Catalog>
    var metadataCall: Option<Request>
    var metadataCache: Option<Metadata>
    var metadataResult: Option<MetadataResult>
    var metadataDone: map<Request, Option<MetadataResult>>

    ghost function View(): Shared
      reads this
    {
      Shared(storeBroken, configGeneration, features, slots, authDone, identities, identityDone, disk,
             metadataCall, metadataCache, metadataResult, metadataDone)
    }

    constructor (storeBroken: bool, features: Features, disk: map<Identity, Catalog>, cache: Option<Metadata>, readFailed: bool)
      ensures View() == Shared(storeBroken, 0, features, map[], {}, map[], {}, disk, None, cache,
                               if readFailed then Some(Selection(None, FromNothing, CacheRead)) else None, map[])
    {
      this.storeBroken := storeBroken;
      this.configGeneration, this.features := 0, features;
      this.slots, this.authDone := map[], {};
      this.identities, this.identityDone, this.disk := map[], {}, disk;
      this.metadataCall, this.metadataCache, this.metadataDone := None, cache, map[];
      this.metadataResult := if readFailed then Some(Selection(None, FromNothing, CacheRead)) else None;
    }

    /** What the other threads leave behind between two sections of a request. */
    method Interleave(memory: Shared)
      requires memory.storeBroken == storeBroken
      modifies this
      ensures View() == memory
    {
      configGeneration, features := memory.config, memory.features;
      slots, authDone := memory.slots, memory.authDone;
      identities, identityDone, disk := memory.identities, memory.identityDone, memory.disk;
      metadataCall, metadataCache := memory.metadataCall, memory.metadataCache;
      metadataResult, metadataDone := memory.metadataResult, memory.metadataDone;
    }

    /** The slot of an account, created on first use. */
    method AuthSlot(a: AuthId) returns (slot: Slot)
      ensures slot == SlotOf(View(), a)
    {
      if a in slots { slot := slots[a]; } else { slot := FreshSlot; }
    }

    method EnsureRejected(a: AuthId) returns (result: Snapshot)
      modifies this
      ensures (View(), result) == Reject(old(View()), a)
    {
      var slot := AuthSlot(a);
      var key := Key(configGeneration, None);
      if slot.key != key { slot := slot.(key := key, nextAuth := slot.nextAuth + 1); }
      result := EmptySnapshot(Failed, AuthInvalid, configGeneration, slot.nextAuth);
      slots := slots[a := slot.(current := Some(result))];
    }

    method EnterAuth(a: AuthId, credential: Credential, r: Request) returns (entry: Entry)
      modifies this
      ensures (View(), entry) == Enter(old(View()), a, credential, r)
    {
      var slot := AuthSlot(a);
      var key := Key(configGeneration, Some(credential));
      if slot.key != key { slot := slot.(key := key, nextAuth := slot.nextAuth + 1); }
      var gen := slot.nextAuth;
      if slot.current.Some? && slot.current.value.auth == gen && slot.current.value.state != Loading {
        slots := slots[a := slot];
        return Existing(slot.current.value);
      }
      if gen in slot.calls {
        slots := slots[a := slot];
        return Join(slot.calls[gen]);
      }
      slot := slot.(calls := slot.calls[gen := r]);
      slot := slot.(current := Some(EmptySnapshot(Loading, NoError, configGeneration, gen)));
      slots := slots[a := slot];
      entry := Open(configGeneration, gen, features.configured);
    }

    method FinishAuthCall(a: AuthId, key: Key, gen: nat, r: Request, snapshot: Snapshot) returns (result: Snapshot)
      modifies this
      ensures (View(), result) == Finish(old(View()), a, key, gen, r, snapshot)
    {
      var slot := AuthSlot(a);
      if slot.key == key && slot.nextAuth == gen && configGeneration == key.config {
        slot := slot.(current := Some(snapshot));
        result := snapshot;
      } else if slot.current.Some? && slot.current.value.config == configGeneration {
        result := slot.current.value;
      } else {
        result := EmptySnapshot(NotStarted, NoError, configGeneration, 0);
      }
      authDone := authDone + {r};
      if gen in slot.calls && slot.calls[gen] == r {
        slot := slot.(calls := slot.calls - {gen});
      }
      slots := slots[a := slot];
    }

    method StartIdentityCall(i: Identity, r: Request) returns (sequence: nat)
      modifies this
      ensures (View(), sequence) == StartIdentity(old(View()), i, r)
    {
      var id := if i in identities then identities[i] else FreshIdentity;
      sequence := id.nextSequence + 1;
      id := id.(nextSequence := sequence);
      id := id.(active := id.active[r := sequence]);
      identities := identities[i := id];
    }

    method SettleIdentityCall(i: Identity, r: Request) returns (waits: set<Request>)
      modifies this
      ensures (View(), waits) == SettleIdentity(old(View()), i, r)
    {
      var id := if i in identities then identities[i] else FreshIdentity;
      id := id.(active := id.active - {r});
      waits := id.active.Keys;
      identities := identities[i := id];
      identityDone := identityDone + {r};
    }

    method SaveModelsForGeneration(a: AuthId, key: Key, gen: nat, i: Identity, r: Request, catalog: Catalog, outcome: WriteOutcome)
      returns (result: SaveResult)
      modifies this
      ensures (View(), result) == SaveModels(old(View()), a, key, gen, i, r, catalog, outcome)
    {
      var slot := AuthSlot(a);
      if !(slot.key == key && slot.nextAuth == gen && configGeneration == key.config) {
        var _ := SettleIdentityCall(i, r);
        return Outdated;
      }
      var id := if i in identities then identities[i] else FreshIdentity;
      if id.committed.config == key.config && catalog.stamp.sequence < id.committed.sequence {
        var _ := SettleIdentityCall(i, r);
        return Overtaken;
      }
      if outcome != NotWritten {
        disk := disk[i := catalog];
      }
      if outcome == Written {
        id := id.(committed := catalog.stamp, commits := id.commits + [catalog.stamp]);
      }
      identities := identities[i := id];
      var waits := SettleIdentityCall(i, r);
      result := if outcome == Written then Saved else SaveFailed(waits);
    }

    method JoinOrOpenMetadata(r: Request) returns (entry: MetadataEntry)
      modifies this
      ensures (View(), entry) == EnterMetadata(old(View()), r)
    {
      if metadataResult.Some? && metadataResult.value.doc.Some? {
        return Settled(metadataResult.value);
      }
      if metadataCall.Some? {
        return JoinMetadata(metadataCall.value);
      }
      metadataCall := Some(r);
      entry := OpenMetadata(metadataCache, metadataResult.Some? && metadataResult.value.error == CacheRead);
    }

    method SettleMetadataCall(a: AuthId, key: Key, gen: nat, r: Request, cached: Option<Metadata>, readFailed: bool,
                              fetch: MetadataFetch, saved: bool) returns (selected: MetadataResult)
      modifies this
      ensures (View(), selected) == SettleMetadata(old(View()), a, key, gen, r, cached, readFailed, fetch, saved)
    {
      var slot := AuthSlot(a);
      if !(slot.key == key && slot.nextAuth == gen && configGeneration == key.config) {
        metadataDone := metadataDone[r := None];
        selected := NoMetadata;
      } else {
        selected := SelectMetadata(cached, readFailed, fetch, saved);
        ShareMetadata(selected, readFailed);
        metadataDone := metadataDone[r := Some(selected)];
      }
      if metadataCall == Some(r) { metadataCall := None; }
    }

    method ShareMetadata(selected: MetadataResult, readFailed: bool)
      modifies this`metadataResult, this`metadataCache
      ensures metadataCache == if selected.doc.Some? then selected.doc else old(metadataCache)
      ensures metadataResult == if selected.doc.Some? then Some(selected)
                                else if readFailed then Some(Selection(None, FromNothing, CacheRead)) else None
    {
      if selected.doc.Some? {
        metadataResult, metadataCache := Some(selected), selected.doc;
      } else if readFailed {
        metadataResult := Some(Selection(None, FromNothing, CacheRead));
      } else {
        metadataResult := None;
      }
    }

    method SnapshotForAuth(a: AuthId) returns (snapshot: Snapshot)
      ensures snapshot == SnapshotFor(View(), a)
    {
      var slot := AuthSlot(a);
      if slot.current.Some? && slot.current.value.config == configGeneration {
        snapshot := slot.current.value;
      } else {
        snapshot := EmptySnapshot(NotStarted, NoError, configGeneration, 0);
      }
    }

    method RestoreSnapshot(a: AuthId, previous: Snapshot)
      modifies this
      ensures View() == Restore(old(View()), a, previous)
    {
      var slot := AuthSlot(a);
      var key := Key(configGeneration, None);
      if slot.key != key { slot := slot.(key := key, nextAuth := slot.nextAuth + 1); }
      slots := slots[a := slot.(current := Some(previous.(config := configGeneration, auth := slot.nextAuth)))];
    }

    method MarkAuthNotStarted(a: AuthId)
      modifies this
      ensures View() == MarkNotStarted(old(View()), a)
    {
      var slot := AuthSlot(a);
      var key := Key(configGeneration, None);
      if slot.key != key { slot := slot.(key := key, nextAuth := slot.nextAuth + 1); }
      slots := slots[a := slot.(current := Some(EmptySnapshot(NotStarted, NoError, configGeneration, slot.nextAuth)))];
    }

    method CommitFeatureRuntime(next: Features) returns (generation: nat)
      modifies this
      ensures View() == Commit(old(View()), next) && generation == configGeneration
      ensures generation == old(configGeneration) ==> next.configured == old(features.configured)
    {
      var previous := features;
      features := next;
      if !OnlyOrderChanged(previous, next) && !OnlyContextChanged(previous, next) {
        configGeneration := configGeneration + 1;
      }
      generation := configGeneration;
    }

    /** The two sections of an invalidation are not one: other sections may run between them. */
    method DropMetadataResults()
      modifies this
      ensures View() == DropMetadata(old(View()))
    {
      metadataResult, metadataCall := None, None;
    }

    method AdvanceConfigGeneration() returns (generation: nat)
      modifies this
      ensures View() == Advance(old(View())) && generation == configGeneration
    {
      configGeneration := configGeneration + 1;
      generation := configGeneration;
    }
  }
}
