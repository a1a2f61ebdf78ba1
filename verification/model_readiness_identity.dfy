/** Identity calls: sequence numbers, ordered commits, and what the disk holds. */
module ModelReadinessIdentity {
  import opened Basics
  import opened ModelReadiness

  /** What a request is to the identity slots. */
  datatype Role =
    | Unopened
    | Opened(identity: Identity, sequence: nat, config: nat)
    | Superseded(identity: Identity, stamp: Stamp)
    | Waiting(waits: set<Request>)
    | Closed

  /** Strictly increasing, hence in particular nondecreasing. */
  predicate Ordered(stamps: seq<Stamp>) {
    forall i, j | 0 <= i < j < |stamps| :: stamps[i].Before(stamps[j])
  }

  predicate CommitsOk(config: nat, id: IdentitySlot) {
    && Ordered(id.commits)
    && id.committed.config <= config
    && id.committed.sequence <= id.nextSequence
    && id.committed == (if id.commits == [] then Stamp(0, 0) else id.commits[|id.commits| - 1])
  }

  predicate ActiveOk(i: Identity, id: IdentitySlot, roles: seq<Role>) {
    && (forall r | r in id.active ::
          && 1 <= id.active[r] <= id.nextSequence && id.active[r] != id.committed.sequence
          && r < |roles| && roles[r].Opened? && roles[r].identity == i && roles[r].sequence == id.active[r])
    && (forall r, q | r in id.active && q in id.active && r != q :: id.active[r] != id.active[q])
  }

  /** The file is at least as new as the newest commit: failed writes may only have moved it forward. */
  predicate DiskOk(i: Identity, id: IdentitySlot, disk: map<Identity, Catalog>) {
    id.commits != [] ==> i in disk && id.committed.NotAfter(disk[i].stamp)
  }

  predicate RoleOk(config: nat, identities: map<Identity, IdentitySlot>, done: set<Request>, r: Request, roles: seq<Role>)
    requires r < |roles|
  {
    match roles[r]
    case Unopened => r !in done
    case Opened(i, sequence, c) =>
      r !in done && i in identities && r in identities[i].active && identities[i].active[r] == sequence && c <= config
    case Superseded(i, stamp) =>
      r in done && i in identities && identities[i].commits != [] && stamp.Before(identities[i].committed)
    case Waiting(waits) => r in done && forall w | w in waits :: w in done || (w < |roles| && roles[w].Opened?)
    case Closed => true
  }

  ghost predicate SharedInv(sh: Shared, roles: seq<Role>) {
    && (forall i | i in sh.identities ::
          CommitsOk(sh.config, sh.identities[i]) && ActiveOk(i, sh.identities[i], roles) && DiskOk(i, sh.identities[i], sh.disk))
    && (forall r | 0 <= r < |roles| :: RoleOk(sh.config, sh.identities, sh.identityDone, r, roles))
    && (forall r | r in sh.identityDone :: r < |roles|)
  }

  lemma ArriveKeepsInv(sh: Shared, roles: seq<Role>, role: Role)
    requires SharedInv(sh, roles) && (role.Unopened? || role.Closed?)
    ensures SharedInv(sh, roles + [role])
  {
    var roles' := roles + [role];
    forall i | i in sh.identities ensures ActiveOk(i, sh.identities[i], roles') {
      assert ActiveOk(i, sh.identities[i], roles);
    }
    forall r | 0 <= r < |roles'| ensures RoleOk(sh.config, sh.identities, sh.identityDone, r, roles') {
      if r < |roles| { assert RoleOk(sh.config, sh.identities, sh.identityDone, r, roles); }
    }
  }

  lemma AdvanceKeepsInv(sh: Shared, roles: seq<Role>)
    requires SharedInv(sh, roles)
    ensures SharedInv(Advance(sh), roles)
  {
    var sh' := Advance(sh);
    forall r | 0 <= r < |roles| ensures RoleOk(sh'.config, sh'.identities, sh'.identityDone, r, roles) {
      assert RoleOk(sh.config, sh.identities, sh.identityDone, r, roles);
    }
  }

  /** A request with no open call may close for good. */
  lemma CloseKeepsInv(sh: Shared, roles: seq<Role>, r: Request)
    requires SharedInv(sh, roles) && r < |roles| && !roles[r].Opened?
    ensures SharedInv(sh, roles[r := Closed])
  {
    var roles' := roles[r := Closed];
    forall i | i in sh.identities ensures ActiveOk(i, sh.identities[i], roles') {
      assert ActiveOk(i, sh.identities[i], roles);
    }
    forall q | 0 <= q < |roles'| ensures RoleOk(sh.config, sh.identities, sh.identityDone, q, roles') {
      assert RoleOk(sh.config, sh.identities, sh.identityDone, q, roles);
    }
  }

  lemma StartKeepsInv(sh: Shared, roles: seq<Role>, i: Identity, r: Request, config: nat)
    requires SharedInv(sh, roles) && r < |roles| && roles[r].Unopened? && config <= sh.config
    ensures SharedInv(StartIdentity(sh, i, r).0, roles[r := Opened(i, StartIdentity(sh, i, r).1, config)])
  {
    var (sh', sequence) := StartIdentity(sh, i, r);
    var roles' := roles[r := Opened(i, sequence, config)];
    assert RoleOk(sh.config, sh.identities, sh.identityDone, r, roles);
    assert i in sh.identities ==> ActiveOk(i, sh.identities[i], roles) && DiskOk(i, sh.identities[i], sh.disk);
    forall j | j in sh'.identities
      ensures CommitsOk(sh'.config, sh'.identities[j]) && ActiveOk(j, sh'.identities[j], roles') && DiskOk(j, sh'.identities[j], sh'.disk)
    {
      assert j != i ==> ActiveOk(j, sh.identities[j], roles);
    }
    forall q | 0 <= q < |roles'| ensures RoleOk(sh'.config, sh'.identities, sh'.identityDone, q, roles') {
      StartKeepsRole(sh, roles, i, r, config, q);
    }
  }

  lemma StartKeepsRole(sh: Shared, roles: seq<Role>, i: Identity, r: Request, config: nat, q: Request)
    requires SharedInv(sh, roles) && r < |roles| && roles[r].Unopened? && config <= sh.config && q < |roles|
    ensures var (sh', sequence) := StartIdentity(sh, i, r);
            RoleOk(sh'.config, sh'.identities, sh'.identityDone, q, roles[r := Opened(i, sequence, config)])
  {
    assert RoleOk(sh.config, sh.identities, sh.identityDone, q, roles);
    assert RoleOk(sh.config, sh.identities, sh.identityDone, r, roles);
  }

  ghost predicate SettledRole(sh: Shared, r: Request, role: Role) {
    match role
    case Superseded(i, stamp) => i in sh.identities && sh.identities[i].commits != [] && stamp.Before(sh.identities[i].committed)
    case Waiting(waits) => exists i :: i in sh.identities && waits == sh.identities[i].active.Keys - {r}
    case Closed => true
    case _ => false
  }

  /** Settling closes the call before its owner may wait for the others. */
  lemma SettleKeepsInv(sh: Shared, roles: seq<Role>, r: Request, role: Role)
    requires SharedInv(sh, roles) && r < |roles| && roles[r].Opened?
    requires SettledRole(sh, r, role)
    ensures SharedInv(SettleIdentity(sh, roles[r].identity, r).0, roles[r := role])
  {
    var i := roles[r].identity;
    var sh' := SettleIdentity(sh, i, r).0;
    var roles' := roles[r := role];
    assert RoleOk(sh.config, sh.identities, sh.identityDone, r, roles);
    forall j | j in sh'.identities
      ensures CommitsOk(sh'.config, sh'.identities[j]) && ActiveOk(j, sh'.identities[j], roles') && DiskOk(j, sh'.identities[j], sh'.disk)
    {
      assert ActiveOk(j, sh.identities[j], roles) && DiskOk(j, sh.identities[j], sh.disk) && CommitsOk(sh.config, sh.identities[j]);
      if j == i { SettledIsActive(i, sh.identities[i], roles, r, role); } else { OthersAreActive(j, sh.identities[j], roles, r, role); }
    }
    forall q | 0 <= q < |roles'| ensures RoleOk(sh'.config, sh'.identities, sh'.identityDone, q, roles') {
      SettleKeepsRole(sh, roles, r, role, q);
    }
  }

  lemma SettledIsActive(i: Identity, id: IdentitySlot, roles: seq<Role>, r: Request, role: Role)
    requires ActiveOk(i, id, roles) && r < |roles|
    ensures ActiveOk(i, id.(active := id.active - {r}), roles[r := role])
  {}

  lemma OthersAreActive(j: Identity, id: IdentitySlot, roles: seq<Role>, r: Request, role: Role)
    requires ActiveOk(j, id, roles) && r < |roles| && roles[r].Opened? && roles[r].identity != j
    ensures ActiveOk(j, id, roles[r := role])
  {}

  lemma SettleKeepsRole(sh: Shared, roles: seq<Role>, r: Request, role: Role, q: Request)
    requires SharedInv(sh, roles) && r < |roles| && roles[r].Opened? && q < |roles|
    requires SettledRole(sh, r, role)
    ensures var sh' := SettleIdentity(sh, roles[r].identity, r).0;
            RoleOk(sh'.config, sh'.identities, sh'.identityDone, q, roles[r := role])
  {
    if q == r {
      SettledRoleOk(sh, roles, r, role);
    } else {
      assert RoleOk(sh.config, sh.identities, sh.identityDone, q, roles);
    }
  }

  lemma SettledRoleOk(sh: Shared, roles: seq<Role>, r: Request, role: Role)
    requires SharedInv(sh, roles) && r < |roles| && roles[r].Opened?
    requires SettledRole(sh, r, role)
    ensures var sh' := SettleIdentity(sh, roles[r].identity, r).0;
            RoleOk(sh'.config, sh'.identities, sh'.identityDone, r, roles[r := role])
  {}

  /** The memory after the write and before the call is settled. */
  function WriteCatalog(sh: Shared, i: Identity, catalog: Catalog, outcome: WriteOutcome): Shared {
    var id := IdentityOf(sh, i);
    var disk := if outcome == NotWritten then sh.disk else sh.disk[i := catalog];
    var id' := Committed(id, catalog, outcome);
    sh.(disk := disk, identities := sh.identities[i := id'])
  }

  /** A write that is not overtaken lands after everything committed, so the order is kept: this is the
      clause that needs both the generation check and the sequence check. */
  lemma WriteIsNewer(sh: Shared, roles: seq<Role>, r: Request)
    requires SharedInv(sh, roles) && r < |roles| && roles[r].Opened?
    requires roles[r].config == sh.config
    requires var id := IdentityOf(sh, roles[r].identity);
             !(id.committed.config == sh.config && roles[r].sequence < id.committed.sequence)
    ensures IdentityOf(sh, roles[r].identity).committed.Before(Stamp(roles[r].config, roles[r].sequence))
  {
    assert RoleOk(sh.config, sh.identities, sh.identityDone, r, roles);
    assert ActiveOk(roles[r].identity, sh.identities[roles[r].identity], roles);
    assert CommitsOk(sh.config, sh.identities[roles[r].identity]);
  }

  lemma {:induction false} AppendKeepsOrder(stamps: seq<Stamp>, last: Stamp)
    requires Ordered(stamps) && (stamps != [] ==> stamps[|stamps| - 1].Before(last))
    ensures Ordered(stamps + [last])
  {}

  /** Writing and settling in one section: the memory between the two is not an invariant state, because
      the committing call is still listed as active. */
  lemma SaveKeepsInv(sh: Shared, roles: seq<Role>, r: Request, catalog: Catalog, outcome: WriteOutcome, role: Role)
    requires SharedInv(sh, roles) && r < |roles| && roles[r].Opened?
    requires roles[r].config == sh.config && catalog.stamp == Stamp(roles[r].config, roles[r].sequence)
    requires IdentityOf(sh, roles[r].identity).committed.Before(catalog.stamp)
    requires if outcome == Written then role == Closed
             else role == Waiting(SettleIdentity(sh, roles[r].identity, r).1)
    ensures SharedInv(SettleIdentity(WriteCatalog(sh, roles[r].identity, catalog, outcome), roles[r].identity, r).0, roles[r := role])
  {
    var i := roles[r].identity;
    var sh' := SettleIdentity(WriteCatalog(sh, i, catalog, outcome), i, r).0;
    var roles' := roles[r := role];
    forall j | j in sh'.identities
      ensures CommitsOk(sh'.config, sh'.identities[j]) && ActiveOk(j, sh'.identities[j], roles') && DiskOk(j, sh'.identities[j], sh'.disk)
    {
      SaveKeepsIdentity(sh, roles, r, catalog, outcome, role, j);
    }
    forall q | 0 <= q < |roles'| ensures RoleOk(sh'.config, sh'.identities, sh'.identityDone, q, roles') {
      SaveKeepsRole(sh, roles, r, catalog, outcome, role, q);
    }
  }

  /** An identity slot after its write, before the call is settled. */
  function Committed(id: IdentitySlot, catalog: Catalog, outcome: WriteOutcome): IdentitySlot {
    if outcome == Written then id.(committed := catalog.stamp, commits := id.commits + [catalog.stamp]) else id
  }

  lemma SaveKeepsIdentity(sh: Shared, roles: seq<Role>, r: Request, catalog: Catalog, outcome: WriteOutcome, role: Role, j: Identity)
    requires SharedInv(sh, roles) && r < |roles| && roles[r].Opened? && !role.Opened?
    requires roles[r].config == sh.config && catalog.stamp == Stamp(roles[r].config, roles[r].sequence)
    requires IdentityOf(sh, roles[r].identity).committed.Before(catalog.stamp)
    requires j in SettleIdentity(WriteCatalog(sh, roles[r].identity, catalog, outcome), roles[r].identity, r).0.identities
    ensures var sh' := SettleIdentity(WriteCatalog(sh, roles[r].identity, catalog, outcome), roles[r].identity, r).0;
            && CommitsOk(sh'.config, sh'.identities[j]) && ActiveOk(j, sh'.identities[j], roles[r := role])
            && DiskOk(j, sh'.identities[j], sh'.disk)
  {
    var i := roles[r].identity;
    assert RoleOk(sh.config, sh.identities, sh.identityDone, r, roles);
    var id := sh.identities[i];
    SavedShape(sh, i, r, catalog, outcome);
    if j == i {
      assert ActiveOk(i, id, roles) && DiskOk(i, id, sh.disk) && CommitsOk(sh.config, id);
      SavedIsOk(sh.config, i, id, sh.disk, catalog, outcome);
      SavedIsActive(i, id, roles, r, catalog, outcome, role);
    } else {
      assert ActiveOk(j, sh.identities[j], roles) && DiskOk(j, sh.identities[j], sh.disk) && CommitsOk(sh.config, sh.identities[j]);
      OthersAreActive(j, sh.identities[j], roles, r, role);
    }
  }

  lemma SavedShape(sh: Shared, i: Identity, r: Request, catalog: Catalog, outcome: WriteOutcome)
    requires i in sh.identities
    ensures var sh' := SettleIdentity(WriteCatalog(sh, i, catalog, outcome), i, r).0;
            var id := Committed(sh.identities[i], catalog, outcome);
            && sh'.config == sh.config && sh'.identities == sh.identities[i := id.(active := id.active - {r})]
            && sh'.disk == if outcome == NotWritten then sh.disk else sh.disk[i := catalog]
  {}

  lemma SavedIsOk(config: nat, i: Identity, id: IdentitySlot, disk: map<Identity, Catalog>, catalog: Catalog, outcome: WriteOutcome)
    requires CommitsOk(config, id) && DiskOk(i, id, disk) && id.committed.Before(catalog.stamp)
    requires catalog.stamp.config == config && catalog.stamp.sequence <= id.nextSequence
    ensures CommitsOk(config, Committed(id, catalog, outcome))
    ensures DiskOk(i, Committed(id, catalog, outcome), if outcome == NotWritten then disk else disk[i := catalog])
  {
    AppendKeepsOrder(id.commits, catalog.stamp);
  }

  lemma SavedIsActive(i: Identity, id: IdentitySlot, roles: seq<Role>, r: Request, catalog: Catalog, outcome: WriteOutcome, role: Role)
    requires ActiveOk(i, id, roles) && r in id.active && id.active[r] == catalog.stamp.sequence
    ensures ActiveOk(i, Committed(id, catalog, outcome).(active := id.active - {r}), roles[r := role])
  {}

  lemma SaveKeepsRole(sh: Shared, roles: seq<Role>, r: Request, catalog: Catalog, outcome: WriteOutcome, role: Role, q: Request)
    requires SharedInv(sh, roles) && r < |roles| && roles[r].Opened? && q < |roles|
    requires IdentityOf(sh, roles[r].identity).committed.Before(catalog.stamp)
    requires role == Closed || role == Waiting(SettleIdentity(sh, roles[r].identity, r).1)
    ensures var sh' := SettleIdentity(WriteCatalog(sh, roles[r].identity, catalog, outcome), roles[r].identity, r).0;
            RoleOk(sh'.config, sh'.identities, sh'.identityDone, q, roles[r := role])
  {
    var i := roles[r].identity;
    assert RoleOk(sh.config, sh.identities, sh.identityDone, r, roles);
    assert RoleOk(sh.config, sh.identities, sh.identityDone, q, roles);
    SavedShape(sh, i, r, catalog, outcome);
    if q == r {
      WaitsOnOpened(i, sh.identities[i], roles, r);
    } else {
      SaveKeepsOtherRole(sh.config, sh.identities, sh.identityDone, roles, r, catalog, outcome, role, q);
    }
  }

  /** The calls still active beside `r` are open. */
  lemma WaitsOnOpened(i: Identity, id: IdentitySlot, roles: seq<Role>, r: Request)
    requires ActiveOk(i, id, roles)
    ensures forall w | w in (id.active - {r}).Keys :: w < |roles| && roles[w].Opened? && w != r
  {}

  lemma SaveKeepsOtherRole(config: nat, identities: map<Identity, IdentitySlot>, done: set<Request>, roles: seq<Role>, r: Request,
                           catalog: Catalog, outcome: WriteOutcome, role: Role, q: Request)
    requires r < |roles| && roles[r].Opened? && q < |roles| && q != r && RoleOk(config, identities, done, q, roles)
    requires roles[r].identity in identities && identities[roles[r].identity].committed.Before(catalog.stamp)
    ensures var i := roles[r].identity;
            var id := Committed(identities[i], catalog, outcome);
            RoleOk(config, identities[i := id.(active := id.active - {r})], done + {r}, q, roles[r := role])
  {}
}
