/** The shared metadata call. */
module ModelReadinessMetadata {
  import opened Basics
  import opened ModelReadiness

  /** What a request is to the metadata call. */
  datatype Role = Before | Fetching | Awaiting(call: Request) | After

  predicate ResultOk(result: MetadataResult) {
    && (result.doc.Some? <==> result.source == FromFresh || result.source == FromCache)
    && result.source != FromConfig
  }

  predicate RoleOk(done: map<Request, Option<MetadataResult>>, r: Request, roles: seq<Role>)
    requires r < |roles|
  {
    match roles[r]
    case Fetching => r !in done
    case Before => r !in done
    case Awaiting(call) => r !in done && (call in done || (call < |roles| && roles[call].Fetching?))
    case After => true
  }

  /** The registered call is always a live fetch, even after an invalidation let a second one start. */
  ghost predicate SharedInv(sh: Shared, roles: seq<Role>) {
    && (sh.metadataCall.Some? ==> sh.metadataCall.value < |roles| && roles[sh.metadataCall.value].Fetching?)
    && (forall r | 0 <= r < |roles| :: RoleOk(sh.metadataDone, r, roles))
    && (forall r | r in sh.metadataDone ::
          r < |roles| && roles[r].After? && (sh.metadataDone[r].Some? ==> ResultOk(sh.metadataDone[r].value)))
    && (sh.metadataResult.Some? ==> ResultOk(sh.metadataResult.value))
  }

  lemma ArriveKeepsInv(sh: Shared, roles: seq<Role>, role: Role)
    requires SharedInv(sh, roles) && (role.Before? || role.After?)
    ensures SharedInv(sh, roles + [role])
  {
    var roles' := roles + [role];
    forall r | 0 <= r < |roles'| ensures RoleOk(sh.metadataDone, r, roles') {
      if r < |roles| { assert RoleOk(sh.metadataDone, r, roles); }
    }
  }

  lemma DropKeepsInv(sh: Shared, roles: seq<Role>)
    requires SharedInv(sh, roles)
    ensures SharedInv(DropMetadata(sh), roles)
  {}

  lemma MoveKeepsInv(sh: Shared, roles: seq<Role>, r: Request, role: Role)
    requires SharedInv(sh, roles) && r < |roles| && !roles[r].Fetching?
    requires (role.Before? && !roles[r].After?) || role.After?
    ensures SharedInv(sh, roles[r := role])
  {
    var roles' := roles[r := role];
    forall q | 0 <= q < |roles'| ensures RoleOk(sh.metadataDone, q, roles') {
      assert RoleOk(sh.metadataDone, q, roles);
      assert RoleOk(sh.metadataDone, r, roles);
    }
  }

  function RoleAfter(entry: MetadataEntry): Role {
    match entry
    case Settled(_) => After
    case JoinMetadata(call) => Awaiting(call)
    case OpenMetadata(_, _) => Fetching
  }

  lemma EnterKeepsInv(sh: Shared, roles: seq<Role>, r: Request)
    requires SharedInv(sh, roles) && r < |roles| && roles[r].Before?
    ensures SharedInv(EnterMetadata(sh, r).0, roles[r := RoleAfter(EnterMetadata(sh, r).1)])
    ensures EnterMetadata(sh, r).1.Settled? ==> ResultOk(EnterMetadata(sh, r).1.result)
  {
    var (sh', entry) := EnterMetadata(sh, r);
    var roles' := roles[r := RoleAfter(entry)];
    forall q | 0 <= q < |roles'| ensures RoleOk(sh'.metadataDone, q, roles') {
      assert RoleOk(sh.metadataDone, q, roles);
      assert RoleOk(sh.metadataDone, r, roles);
    }
  }

  /** Settling answers the waiters with nothing, or with the result the settling request itself uses. */
  lemma SettleShape(sh: Shared, r: Request, a: AuthId, key: Key, gen: nat,
                    cached: Option<Metadata>, readFailed: bool, fetch: MetadataFetch, saved: bool)
    ensures var (sh', result) := SettleMetadata(sh, a, key, gen, r, cached, readFailed, fetch, saved);
            && ResultOk(result)
            && sh'.metadataCall == (if sh.metadataCall == Some(r) then None else sh.metadataCall)
            && sh'.metadataDone == sh.metadataDone[r := if Current(sh, a, key, gen) then Some(result) else None]
            && (sh'.metadataResult == sh.metadataResult
                || (Current(sh, a, key, gen) && (sh'.metadataResult.Some? ==> ResultOk(sh'.metadataResult.value))))
  {}

  lemma SettleKeepsInv(sh: Shared, roles: seq<Role>, r: Request, a: AuthId, key: Key, gen: nat,
                       cached: Option<Metadata>, readFailed: bool, fetch: MetadataFetch, saved: bool)
    requires SharedInv(sh, roles) && r < |roles| && roles[r].Fetching?
    ensures SharedInv(SettleMetadata(sh, a, key, gen, r, cached, readFailed, fetch, saved).0, roles[r := After])
    ensures ResultOk(SettleMetadata(sh, a, key, gen, r, cached, readFailed, fetch, saved).1)
  {
    SettleShape(sh, r, a, key, gen, cached, readFailed, fetch, saved);
    var (sh', result) := SettleMetadata(sh, a, key, gen, r, cached, readFailed, fetch, saved);
    CloseKeepsInv(sh, sh', roles, r, result);
  }

  lemma CloseKeepsInv(sh: Shared, sh': Shared, roles: seq<Role>, r: Request, result: MetadataResult)
    requires SharedInv(sh, roles) && r < |roles| && roles[r].Fetching? && ResultOk(result)
    requires sh'.metadataCall == (if sh.metadataCall == Some(r) then None else sh.metadataCall)
    requires sh'.metadataDone == sh.metadataDone[r := Some(result)] || sh'.metadataDone == sh.metadataDone[r := None]
    requires sh'.metadataResult.Some? ==> ResultOk(sh'.metadataResult.value)
    ensures SharedInv(sh', roles[r := After])
  {
    var roles' := roles[r := After];
    forall q | 0 <= q < |roles'| ensures RoleOk(sh'.metadataDone, q, roles') {
      assert RoleOk(sh.metadataDone, q, roles);
    }
  }
}
