/** The token bucket of each management client, and the eviction of idle buckets. Times are nanoseconds. */
module RateLimit {
  const CAPACITY := 5.0
  const REFILL := 6_000_000_000
  const IDLE := 600_000_000_000
  const CROWD := 1024

  datatype Bucket = Bucket(tokens: real, lastSeen: int)

  type Table = map<string, Bucket>

  function Client(ip: string): string {
    if ip == "" then "_global" else ip
  }

  function Earned(elapsed: int): real {
    elapsed as real / REFILL as real
  }

  function Filled(b: Bucket, now: int): real {
    var tokens := b.tokens + Earned(now - b.lastSeen);
    if tokens > CAPACITY then CAPACITY else tokens
  }

  /** The tokens a client has; one without an entry has a full bucket. */
  function Level(t: Table, c: string, now: int): real {
    if c in t then Filled(t[c], now) else CAPACITY
  }

  function Evict(t: Table, now: int): Table {
    if |t| > CROWD then map c | c in t && now - t[c].lastSeen <= IDLE :: t[c] else t
  }

  /** One request. `evicts`: whether idle entries are ever dropped. */
  function Allow(t: Table, c: string, now: int, evicts: bool): (Table, bool) {
    var tokens := Level(t, c, now);
    if tokens < 1.0 then (t[c := Bucket(tokens, now)], false)
    else
      var t' := t[c := Bucket(tokens - 1.0, now)];
      (if evicts then Evict(t', now) else t', true)
  }

  class Limiter {
    var entries: Table

    constructor ()
      ensures entries == map[]
    {
      entries := map[];
    }

    method AllowManagementRequest(ip: string, now: int) returns (ok: bool)
      modifies this
      ensures (entries, ok) == Allow(old(entries), Client(ip), now, true)
    {
      var c := if ip == "" then "_global" else ip;
      if c !in entries { entries := entries[c := Bucket(CAPACITY, now)]; }
      var e := entries[c];
      var tokens := e.tokens + Earned(now - e.lastSeen);
      if tokens > CAPACITY { tokens := CAPACITY; }
      entries := entries[c := Bucket(tokens, now)];
      assert tokens == Level(old(entries), c, now) && entries == old(entries)[c := Bucket(tokens, now)];
      if tokens < 1.0 { return false; }
      entries := entries[c := Bucket(tokens - 1.0, now)];
      assert entries == old(entries)[c := Bucket(tokens - 1.0, now)];
      if |entries| > CROWD { EvictIdle(now); }
      ok := true;
    }

    method EvictIdle(now: int)
      modifies this
      ensures entries == map c | c in old(entries) && now - old(entries)[c].lastSeen <= 600_000_000_000 :: old(entries)[c]
    {
      var clients := entries.Keys;
      while clients != {}
        invariant clients <= old(entries).Keys
        invariant entries == map c | c in old(entries) && (c in clients || now - old(entries)[c].lastSeen <= IDLE) :: old(entries)[c]
        decreases |clients|
      {
        var c :| c in clients;
        if now - entries[c].lastSeen > IDLE { entries := entries - {c}; }
        clients := clients - {c};
      }
    }
  }

  predicate Inv(t: Table, now: int) {
    forall c | c in t :: 0.0 <= t[c].tokens <= CAPACITY && t[c].lastSeen <= now
  }

  lemma AllowKeepsInv(t: Table, c: string, now: int, evicts: bool)
    requires Inv(t, now)
    ensures Inv(Allow(t, c, now, evicts).0, now)
  {}

  /** A level later on follows from the level now. */
  lemma LaterLevel(t: Table, c: string, now: int, later: int)
    requires Inv(t, now) && now <= later
    ensures 0.0 <= Level(t, c, now) <= Level(t, c, later) <= CAPACITY
    ensures var grown := Level(t, c, now) + Earned(later - now);
            Level(t, c, later) == if grown > CAPACITY then CAPACITY else grown
  {}

  /** A request costs its own client one token if it is admitted and nobody else anything; dropping idle
      entries changes no client's level, because an idle bucket has long been full. */
  lemma AllowMeaning(t: Table, c: string, now: int, evicts: bool, d: string)
    requires Inv(t, now)
    ensures var (t', ok) := Allow(t, c, now, evicts);
            && (ok <==> Level(t, c, now) >= 1.0)
            && Level(t', d, now) == Level(t, d, now) - (if ok && d == c then 1.0 else 0.0)
  {}

  // ----- runs -----

  datatype Request = Request(client: string, at: int)

  predicate Timely(rs: seq<Request>) {
    forall i, j | 0 <= i <= j < |rs| :: rs[i].at <= rs[j].at
  }

  function Run(rs: seq<Request>, evicts: bool): Table {
    if rs == [] then map[] else
      var r := rs[|rs| - 1];
      Allow(Run(rs[..|rs| - 1], evicts), r.client, r.at, evicts).0
  }

  /** The decision on request `k`. */
  function Admits(rs: seq<Request>, k: nat, evicts: bool): bool
    requires k < |rs|
  {
    Allow(Run(rs[..k], evicts), rs[k].client, rs[k].at, evicts).1
  }

  lemma {:induction false} RunInv(rs: seq<Request>, evicts: bool, now: int)
    requires Timely(rs) && (rs != [] ==> rs[|rs| - 1].at <= now)
    ensures Inv(Run(rs, evicts), now)
  {
    if rs != [] {
      var r := rs[|rs| - 1];
      RunInv(rs[..|rs| - 1], evicts, r.at);
      AllowKeepsInv(Run(rs[..|rs| - 1], evicts), r.client, r.at, evicts);
    }
  }

  lemma {:induction false} SameLevels(rs: seq<Request>, c: string, now: int)
    requires Timely(rs) && (rs != [] ==> rs[|rs| - 1].at <= now)
    ensures Level(Run(rs, true), c, now) == Level(Run(rs, false), c, now)
  {
    if rs != [] {
      var init, r := rs[..|rs| - 1], rs[|rs| - 1];
      SameLevels(init, c, r.at);
      SameLevels(init, r.client, r.at);
      RunInv(init, true, r.at);
      RunInv(init, false, r.at);
      AllowMeaning(Run(init, true), r.client, r.at, true, c);
      AllowMeaning(Run(init, false), r.client, r.at, false, c);
      RunInv(rs, true, r.at);
      RunInv(rs, false, r.at);
      LaterLevel(Run(rs, true), c, r.at, now);
      LaterLevel(Run(rs, false), c, r.at, now);
    }
  }

  /** Eviction is unobservable: every decision is the one of a table that never forgets anybody. */
  lemma EvictionIsUnobservable(rs: seq<Request>, k: nat)
    requires Timely(rs) && k < |rs|
    ensures Admits(rs, k, true) == Admits(rs, k, false)
  {
    SameLevels(rs[..k], rs[k].client, rs[k].at);
  }

  /** How many of the requests from `from` on were one client's and admitted. */
  function Admitted(rs: seq<Request>, from: nat, c: string): nat
    requires from <= |rs|
    decreases |rs|
  {
    if from == |rs| then 0
    else Admitted(rs[..|rs| - 1], from, c) + (if rs[|rs| - 1].client == c && Admits(rs, |rs| - 1, true) then 1 else 0)
  }

  lemma {:induction false} SpentAtMostEarned(rs: seq<Request>, from: nat, c: string, start: int, now: int)
    requires Timely(rs) && from <= |rs|
    requires (from > 0 ==> rs[from - 1].at <= start) && (from < |rs| ==> start <= rs[from].at)
    requires start <= now && (rs != [] ==> rs[|rs| - 1].at <= now)
    ensures Level(Run(rs, true), c, now) + Admitted(rs, from, c) as real <= Level(Run(rs[..from], true), c, start) + Earned(now - start)
    decreases |rs|
  {
    if from == |rs| {
      assert rs[..from] == rs;
      RunInv(rs, true, start);
      LaterLevel(Run(rs, true), c, start, now);
    } else {
      var n := |rs| - 1;
      var init, r := rs[..n], rs[n];
      assert init[..from] == rs[..from];
      assert from < n ==> init[from] == rs[from];
      SpentAtMostEarned(init, from, c, start, r.at);
      RunInv(init, true, r.at);
      AllowMeaning(Run(init, true), r.client, r.at, true, c);
      RunInv(rs, true, r.at);
      LaterLevel(Run(rs, true), c, r.at, now);
    }
  }

  /** Over any interval a client gets at most five requests plus one for every six seconds. */
  lemma AtMostFivePlusRate(rs: seq<Request>, from: nat, to: nat, c: string)
    requires Timely(rs) && from < to <= |rs|
    ensures Admitted(rs[..to], from, c) as real <= 5.0 + (rs[to - 1].at - rs[from].at) as real / 6_000_000_000.0
  {
    var part := rs[..to];
    SpentAtMostEarned(part, from, c, part[from].at, part[to - 1].at);
    RunInv(part, true, part[to - 1].at);
    RunInv(part[..from], true, part[from].at);
    LaterLevel(Run(part, true), c, part[to - 1].at, part[to - 1].at);
    LaterLevel(Run(part[..from], true), c, part[from].at, part[from].at);
  }

  /** A client that stayed away for six seconds is admitted, whatever it did before. */
  lemma {:induction false} PatientClientIsAdmitted(rs: seq<Request>, k: nat)
    requires Timely(rs) && k < |rs|
    requires forall j | 0 <= j < k && rs[j].client == rs[k].client :: rs[k].at - rs[j].at >= 6_000_000_000
    ensures Admits(rs, k, true)
  {
    LevelAfter(rs[..k], rs[k].client, rs[k].at);
  }

  lemma {:induction false} LevelAfter(rs: seq<Request>, c: string, now: int)
    requires Timely(rs) && forall j | 0 <= j < |rs| && rs[j].client == c :: now - rs[j].at >= REFILL
    requires rs != [] ==> rs[|rs| - 1].at <= now
    ensures Level(Run(rs, true), c, now) >= 1.0
  {
    if rs != [] {
      var init, r := rs[..|rs| - 1], rs[|rs| - 1];
      RunInv(init, true, r.at);
      RunInv(rs, true, r.at);
      AllowMeaning(Run(init, true), r.client, r.at, true, c);
      if r.client != c {
        LevelAfter(init, c, now);
        LaterLevel(Run(init, true), c, r.at, now);
      }
      LaterLevel(Run(rs, true), c, r.at, now);
    }
  }

  function RequestsOf(rs: seq<Request>, c: string): nat {
    if rs == [] then 0 else RequestsOf(rs[..|rs| - 1], c) + if rs[|rs| - 1].client == c then 1 else 0
  }

  lemma {:induction false} SpentAtMostAsked(rs: seq<Request>, c: string, now: int)
    requires Timely(rs) && (rs != [] ==> rs[|rs| - 1].at <= now)
    ensures Level(Run(rs, true), c, now) >= 5.0 - RequestsOf(rs, c) as real
  {
    if rs != [] {
      var init, r := rs[..|rs| - 1], rs[|rs| - 1];
      SpentAtMostAsked(init, c, r.at);
      RunInv(init, true, r.at);
      AllowMeaning(Run(init, true), r.client, r.at, true, c);
      RunInv(rs, true, r.at);
      LaterLevel(Run(rs, true), c, r.at, now);
    }
  }

  /** The first five requests of a client are admitted however fast they come. */
  lemma BurstIsAdmitted(rs: seq<Request>, k: nat)
    requires Timely(rs) && k < |rs| && RequestsOf(rs[..k], rs[k].client) < 5
    ensures Admits(rs, k, true)
  {
    var init, r := rs[..k], rs[k];
    SpentAtMostAsked(init, r.client, r.at);
    RunInv(init, true, r.at);
    AllowMeaning(Run(init, true), r.client, r.at, true, r.client);
  }
}
