/** The hold table updated in place, where failures enter it, and the order in which it is listed. */
module CooldownTable {
  import opened Basics
  import opened QuotaHold

  // ----- where a hold ends -----

  /** What the response says about a retry, parsed; a field is empty when it is missing or malformed. */
  datatype Hints = Hints(retrySeconds: Option<int>, retryDate: Option<int>, retryMillis: Option<int>,
                         resetEpoch: Option<int>, resetCopy: Option<int>)

  predicate Usable(t: int, now: int) {
    now < t <= now + HORIZON
  }

  function EpochTime(n: int): int {
    if n >= 1_000_000_000_000 then n * 1_000_000 else n * SECOND
  }

  function RetryAt(h: Hints, now: int): (r: Option<(int, Recovery)>)
    ensures r.Some? ==> Usable(r.value.0, now)
    ensures h.retrySeconds.Some? && Usable(now + h.retrySeconds.value * SECOND, now)
            ==> r == Some((now + h.retrySeconds.value * SECOND, RetryAfter))
  {
    if h.retrySeconds.Some? && 0 < h.retrySeconds.value <= HORIZON / SECOND then Some((now + h.retrySeconds.value * SECOND, RetryAfter))
    else if h.retryDate.Some? && Usable(h.retryDate.value, now) then Some((h.retryDate.value, RetryAfter))
    else if h.retryMillis.Some? && 0 < h.retryMillis.value <= HORIZON / 1_000_000 then Some((now + h.retryMillis.value * 1_000_000, RetryAfter))
    else if h.resetEpoch.Some? && h.resetEpoch.value > 0 && Usable(EpochTime(h.resetEpoch.value), now) then Some((EpochTime(h.resetEpoch.value), ResetTime))
    else if h.resetCopy.Some? && Usable(h.resetCopy.value, now) then Some((h.resetCopy.value, ResetTime))
    else None
  }

  /** The moments a response names, in the order in which they are trusted. */
  function Named(h: Hints, now: int): seq<(Option<int>, Recovery)> {
    [(if h.retrySeconds.Some? then Some(now + h.retrySeconds.value * 1_000_000_000) else None, RetryAfter),
     (h.retryDate, RetryAfter),
     (if h.retryMillis.Some? then Some(now + h.retryMillis.value * 1_000_000) else None, RetryAfter),
     (if h.resetEpoch.Some? && h.resetEpoch.value > 0
      then Some(h.resetEpoch.value * if h.resetEpoch.value < 1_000_000_000_000 then 1_000_000_000 else 1_000_000) else None, ResetTime),
     (h.resetCopy, ResetTime)]
  }

  /** A moment to come, at most a day away. */
  predicate Offers(named: (Option<int>, Recovery), now: int) {
    named.0.Some? && now < named.0.value <= now + 86_400_000_000_000
  }

  /** The first usable moment is taken, and only if none is usable does the hold fall back to a probe. */
  lemma FirstUsableIsTaken(h: Hints, now: int)
    ensures RetryAt(h, now).None? <==> forall k | 0 <= k < 5 :: !Offers(Named(h, now)[k], now)
    ensures RetryAt(h, now).Some? ==>
              exists k | 0 <= k < 5 ::
                && Offers(Named(h, now)[k], now) && RetryAt(h, now).value == (Named(h, now)[k].0.value, Named(h, now)[k].1)
                && forall j | 0 <= j < k :: !Offers(Named(h, now)[j], now)
  {
    var named, r := Named(h, now), RetryAt(h, now);
    if Offers(named[0], now) { assert r.value == (named[0].0.value, named[0].1); }
    else if Offers(named[1], now) { assert r.value == (named[1].0.value, named[1].1); }
    else if Offers(named[2], now) { assert r.value == (named[2].0.value, named[2].1); }
    else if Offers(named[3], now) { assert r.value == (named[3].0.value, named[3].1); }
    else if Offers(named[4], now) { assert r.value == (named[4].0.value, named[4].1); }
  }

  const RATE_LIMIT_TTL := 300 * SECOND

  function SignalFor(f: Failure, h: Hints, now: int): Signal {
    var r := RetryAt(h, now);
    if r.Some? then Signal(f, r.value.0, r.value.1)
    else Signal(f, now + (if f.reason.RateLimit? then RATE_LIMIT_TTL else PROBE_TTL), Probe)
  }

  /** Whatever a response says, a failure no weaker than the hold in place is in force until the moment it
      asked for, and never for more than a day. */
  lemma FailureIsInForce(t: Table, now: int, auth: string, model: string, f: Failure, h: Hints, victim: Key)
    requires Inv(t, now) && Target(auth, model, f).Some?
    requires var k := Target(auth, model, f).value; k in Live(t, now) ==> !Outranks(t[k].reason, f.reason)
    ensures var k, s := Target(auth, model, f).value, SignalFor(f, h, now);
            var n := MarkLazy(t, now, Mark(auth, model, s, victim));
            k in n && s.until <= n[k].until <= now + HORIZON && n[k].reason == f.reason
  {}

  /** A failure that names no usable moment holds for five minutes if it is a rate limit, for a quarter of an
      hour otherwise, and is probed then. */
  lemma UnhintedFailure(t: Table, now: int, auth: string, model: string, f: Failure, h: Hints, victim: Key)
    requires Target(auth, model, f).Some? && Target(auth, model, f).value !in Live(t, now)
    requires forall k | 0 <= k < 5 :: !Offers(Named(h, now)[k], now)
    ensures var k, n := Target(auth, model, f).value, MarkLazy(t, now, Mark(auth, model, SignalFor(f, h, now), victim));
            && k in n && n[k].recovery == Probe
            && n[k].until == now + (if f.reason.RateLimit? then 300_000_000_000 else 900_000_000_000)
  {
    FirstUsableIsTaken(h, now);
  }

  // ----- the table -----

  class Cooldowns {
    var table: Table

    constructor ()
      ensures table == map[]
    {
      table := map[];
    }

    method Sweep(now: int)
      modifies this
      ensures table == Live(old(table), now)
    {
      var keys := table.Keys;
      while keys != {}
        invariant keys <= old(table).Keys
        invariant table == map k | k in old(table) && (k in keys || old(table)[k].until > now) :: old(table)[k]
        decreases |keys|
      {
        var k :| k in keys;
        if table[k].until <= now { table := table - {k}; }
        keys := keys - {k};
      }
    }

    /** Finds an entry that expires first, in whatever order the map is walked. */
    method FindEarliest() returns (oldest: Key)
      requires table != map[]
      ensures Earliest(table, oldest)
    {
      var keys := table.Keys;
      oldest :| oldest in keys;
      keys := keys - {oldest};
      while keys != {}
        invariant keys <= table.Keys && oldest in table
        invariant forall k | k in table && k !in keys :: table[oldest].until <= table[k].until
        decreases |keys|
      {
        var k :| k in keys;
        if table[k].until < table[oldest].until { oldest := k; }
        keys := keys - {k};
      }
    }

    method MarkQuotaFreeze(authID: string, modelID: string, signal: Signal, now: int) returns (ghost e: Event)
      requires Inv(table, now)
      modifies this
      ensures e.Mark? && e.auth == TrimSpace(authID) && e.model == TrimSpace(modelID) && e.signal == signal
      ensures Legal(old(table), now, e) && table == Lazy(old(table), now, e).0
      ensures if Accepted(e.auth, e.model, signal, now)
              then MarkedTable(Live(old(table), now), Key(e.auth, if signal.failure.scope.AccountScope? then "" else e.model),
                               signal, now, e.victim, table)
              else table == old(table)
      ensures Inv(table, now)
    {
      ghost var before := table;
      e := MarkNamed(TrimSpace(authID), TrimSpace(modelID), signal, now);
      StepKeepsInv(before, now, e);
      MarkMeaning(before, now, e.auth, e.model, signal, e.victim);
    }

    method MarkNamed(auth: string, model: string, signal: Signal, now: int) returns (ghost e: Event)
      requires Inv(table, now)
      modifies this
      ensures e.Mark? && e.auth == auth && e.model == model && e.signal == signal
      ensures Legal(old(table), now, e) && table == Lazy(old(table), now, e).0
    {
      ghost var victim := Key("", "");
      var target := Target(auth, model, signal.failure);
      if target.Some? && signal.until > now {
        var k, s := target.value, Capped(signal, now);
        Sweep(now);
        if k in table {
          var prev := table[k];
          if Strength(prev.reason) <= Strength(s.failure.reason) {
            if prev.until > s.until { s := s.(until := prev.until, recovery := prev.recovery); }
            table := table[k := Entry(k, s, now).(occurred := prev.occurred)];
          }
        } else {
          if |table| >= MAX_HOLDS {
            var oldest := FindEarliest();
            victim := oldest;
            table := table - {oldest};
          }
          table := table[k := Entry(k, s, now)];
        }
      }
      e := Mark(auth, model, signal, victim);
    }

    method QuotaFreezeFor(authID: string, modelID: string, now: int) returns (r: Option<Hold>)
      modifies this
      ensures (table, Held(r)) == Lazy(old(table), now, FreezeFor(TrimSpace(authID), TrimSpace(modelID)))
    {
      var auth, model := TrimSpace(authID), TrimSpace(modelID);
      if auth == "" { return None; }
      var keys := [Key(auth, ""), Key(auth, model)];
      ghost var before := table;
      for i := 0 to 2
        invariant i == 0 ==> table == before
        invariant i == 1 ==> (table, None) == Consult(before, now, keys[0])
        invariant i == 2 ==> (table, None) == FreezeLazy(before, now, auth, model)
      {
        if keys[i] in table {
          if table[keys[i]].until > now { return Some(table[keys[i]]); }
          table := table - {keys[i]};
        }
      }
      r := None;
    }

    method CoolingModelSetFor(authID: string, now: int) returns (models: set<string>)
      modifies this
      ensures (table, Models(models)) == Lazy(old(table), now, CoolingSet(TrimSpace(authID)))
    {
      var auth := TrimSpace(authID);
      models := {};
      if auth != "" { models := DropExpired(auth, now); }
    }

    method DropExpired(auth: string, now: int) returns (models: set<string>)
      modifies this
      ensures table == WithoutExpired(old(table), now, auth) && models == CoolingModels(old(table), now, auth)
    {
      ghost var t := table;
      var keys := table.Keys;
      ghost var found: set<Key> := {};
      models := {};
      while keys != {}
        invariant keys <= t.Keys
        invariant forall k :: k in table <==> k in t && (k in keys || k in WithoutExpired(t, now, auth))
        invariant forall k | k in table :: table[k] == t[k]
        invariant found == set k | k in t && k !in keys && k.auth == auth && k.model != "" && t[k].until > now
        invariant models == Names(found)
        decreases |keys|
      {
        var k :| k in keys;
        keys := keys - {k};
        if k.auth == auth && k.model != "" {
          if table[k].until <= now {
            table := table - {k};
          } else {
            found := found + {k};
            models := models + {k.model};
          }
        }
      }
      assert found == set k | k in t && k.auth == auth && k.model != "" && t[k].until > now;
    }

    method ClearModelCooldown(authID: string, modelID: string) returns (removed: nat)
      modifies this
      ensures var gone := Cleared(old(table), TrimSpace(authID), TrimSpace(modelID));
              table == old(table) - gone && removed == |gone|
    {
      removed := ClearNamed(TrimSpace(authID), TrimSpace(modelID));
    }

    method ClearNamed(auth: string, model: string) returns (removed: nat)
      modifies this
      ensures var gone := Cleared(old(table), auth, model); table == old(table) - gone && removed == |gone|
    {
      if auth == "" {
        assert Cleared(table, auth, model) == {};
        removed := 0;
      } else if model != "" {
        removed := ClearPair(Key(auth, model));
      } else {
        removed := ClearAccount(auth);
      }
    }

    method ClearPair(k: Key) returns (removed: nat)
      requires k.auth != "" && k.model != ""
      modifies this
      ensures var gone := Cleared(old(table), k.auth, k.model); table == old(table) - gone && removed == |gone|
    {
      assert Cleared(table, k.auth, k.model) == if k in table then {k} else {};
      removed := 0;
      if k in table {
        table := table - {k};
        removed := 1;
      }
    }

    method ClearAccount(auth: string) returns (removed: nat)
      requires auth != ""
      modifies this
      ensures var gone := Cleared(old(table), auth, ""); table == old(table) - gone && removed == |gone|
    {
      ghost var gone := Cleared(table, auth, "");
      var keys := table.Keys;
      ghost var dropped: set<Key> := {};
      removed := 0;
      while keys != {}
        invariant keys <= old(table).Keys
        invariant dropped == gone - keys && removed == |dropped| && table == old(table) - dropped
        decreases |keys|
      {
        var k :| k in keys;
        keys := keys - {k};
        if k.auth == auth {
          table := table - {k};
          dropped := dropped + {k};
          removed := removed + 1;
        }
      }
      assert dropped == gone;
    }

    method ObserveQuotaCredits(authID: string, totalRemain: int)
      modifies this
      ensures table == AfterCredits(old(table), TrimSpace(authID), totalRemain > 0)
    {
      if totalRemain <= 0 { return; }
      DropSharedCredits(TrimSpace(authID));
    }

    method DropSharedCredits(auth: string)
      modifies this
      ensures table == AfterCredits(old(table), auth, true)
    {
      var k := Key(auth, "");
      if k in table && table[k].reason.SharedCredits? { table := table - {k}; }
    }
  }
}
