/** Account calls: generations, publication, and who may wait for whom. */
module ModelReadinessAuth {
  import opened Basics
  import opened ModelReadiness

  /** What a request is to the account slots. */
  datatype Role = Arriving | Joined(call: Request) | Owner(auth: AuthId, key: Key, gen: nat) | Gone

  predicate SlotOk(config: nat, slot: Slot) {
    && slot.key.config <= config
    && (slot.current.Some? ==>
          && slot.current.value.auth == slot.nextAuth
          && slot.current.value.config == slot.key.config
          && (slot.current.value.state == Loading && slot.nextAuth !in slot.calls ==> slot.key.config < config))
  }

  predicate CallsOk(a: AuthId, slot: Slot, roles: seq<Role>) {
    forall g | g in slot.calls ::
      slot.calls[g] < |roles| && roles[slot.calls[g]].Owner? && roles[slot.calls[g]].auth == a && roles[slot.calls[g]].gen == g
  }

  predicate OwnerOk(config: nat, slots: map<AuthId, Slot>, done: set<Request>, r: Request, role: Role)
    requires role.Owner?
  {
    && r !in done
    && role.key.credential.Some? && role.key.config <= config
    && role.auth in slots
    && var slot := slots[role.auth];
    && role.gen in slot.calls && slot.calls[role.gen] == r
    && role.gen <= slot.nextAuth
    && (role.gen == slot.nextAuth ==>
          slot.key == role.key && slot.current.Some? && slot.current.value.state == Loading)
  }

  /** Published state and unfinished calls agree, and every joined call has a live owner. */
  ghost predicate Inv(config: nat, slots: map<AuthId, Slot>, done: set<Request>, roles: seq<Role>) {
    && (forall a | a in slots :: SlotOk(config, slots[a]))
    && (forall a | a in slots :: CallsOk(a, slots[a], roles))
    && (forall r | 0 <= r < |roles| && roles[r].Owner? :: OwnerOk(config, slots, done, r, roles[r]))
    && (forall r | 0 <= r < |roles| && roles[r].Joined? ::
          roles[r].call in done || (roles[r].call < |roles| && roles[roles[r].call].Owner?))
    && (forall r | r in done :: r < |roles| && roles[r].Gone?)
  }

  ghost predicate SharedInv(sh: Shared, roles: seq<Role>) {
    Inv(sh.config, sh.slots, sh.authDone, roles)
  }

  lemma ArriveKeepsInv(sh: Shared, roles: seq<Role>, role: Role)
    requires SharedInv(sh, roles) && (role.Arriving? || role.Gone?)
    ensures SharedInv(sh, roles + [role])
  {}

  lemma AdvanceKeepsInv(sh: Shared, roles: seq<Role>)
    requires SharedInv(sh, roles)
    ensures SharedInv(Advance(sh), roles)
  {}

  /** A rejected credential, a restore or a not-started mark retires every owner of the slot. */
  lemma PublishBareKeepsInv(sh: Shared, roles: seq<Role>, a: AuthId, snapshot: Snapshot)
    requires SharedInv(sh, roles) && snapshot.state != Loading
    ensures SharedInv(PublishBare(sh, a, snapshot).0, roles)
  {}

  lemma LeaveKeepsInv(sh: Shared, roles: seq<Role>, r: Request)
    requires SharedInv(sh, roles) && r < |roles| && !roles[r].Owner?
    ensures SharedInv(sh, roles[r := Gone])
  {}

  function RoleAfter(entry: Entry, a: AuthId, credential: Credential): Role {
    match entry
    case Existing(_) => Gone
    case Join(call) => Joined(call)
    case Open(config, gen, _) => Owner(a, Key(config, Some(credential)), gen)
  }

  lemma CallsAreOld(sh: Shared, roles: seq<Role>, a: AuthId)
    requires SharedInv(sh, roles)
    ensures forall g | g in SlotOf(sh, a).calls :: g <= SlotOf(sh, a).nextAuth
  {}

  /** An existing snapshot or call of the entered generation means the key did not change. */
  lemma EnterSameGeneration(sh: Shared, roles: seq<Role>, a: AuthId, credential: Credential, r: Request)
    requires SharedInv(sh, roles)
    requires !Enter(sh, a, credential, r).1.Open?
    ensures Enter(sh, a, credential, r).0.slots == sh.slots
    ensures var entry := Enter(sh, a, credential, r).1;
            entry.Join? ==> entry.call < |roles| && roles[entry.call].Owner?
  {
    assert a in sh.slots ==> CallsOk(a, sh.slots[a], roles) && SlotOk(sh.config, sh.slots[a]);
    var key := Key(sh.config, Some(credential));
    var slot := SlotOf(sh, a);
    CallsAreOld(sh, roles, a);
    assert slot.key == key;
    assert a in sh.slots;
  }

  lemma OpenKeepsInv(sh: Shared, roles: seq<Role>, a: AuthId, credential: Credential, r: Request)
    requires SharedInv(sh, roles) && r < |roles| && roles[r].Arriving?
    requires Enter(sh, a, credential, r).1.Open?
    ensures SharedInv(Enter(sh, a, credential, r).0, roles[r := RoleAfter(Enter(sh, a, credential, r).1, a, credential)])
  {
    var (sh', entry) := Enter(sh, a, credential, r);
    var roles' := roles[r := RoleAfter(entry, a, credential)];
    forall b | b in sh'.slots ensures SlotOk(sh'.config, sh'.slots[b]) && CallsOk(b, sh'.slots[b], roles') {
      OpenKeepsSlot(sh, roles, a, credential, r, b);
    }
    forall q | 0 <= q < |roles'| && roles'[q].Owner?
      ensures OwnerOk(sh'.config, sh'.slots, sh'.authDone, q, roles'[q])
    {
      OpenKeepsOwner(sh, roles, a, credential, r, q);
    }
  }

  lemma OpenKeepsSlot(sh: Shared, roles: seq<Role>, a: AuthId, credential: Credential, r: Request, b: AuthId)
    requires SharedInv(sh, roles) && r < |roles| && roles[r].Arriving?
    requires Enter(sh, a, credential, r).1.Open? && b in Enter(sh, a, credential, r).0.slots
    ensures var (sh', entry) := Enter(sh, a, credential, r);
            SlotOk(sh'.config, sh'.slots[b]) && CallsOk(b, sh'.slots[b], roles[r := RoleAfter(entry, a, credential)])
  {
    assert b in sh.slots ==> CallsOk(b, sh.slots[b], roles) && SlotOk(sh.config, sh.slots[b]);
  }

  lemma OpenKeepsOwner(sh: Shared, roles: seq<Role>, a: AuthId, credential: Credential, r: Request, q: Request)
    requires SharedInv(sh, roles) && r < |roles| && roles[r].Arriving? && q < |roles|
    requires Enter(sh, a, credential, r).1.Open?
    requires roles[r := RoleAfter(Enter(sh, a, credential, r).1, a, credential)][q].Owner?
    ensures var (sh', entry) := Enter(sh, a, credential, r);
            OwnerOk(sh'.config, sh'.slots, sh'.authDone, q, roles[r := RoleAfter(entry, a, credential)][q])
  {}

  lemma EnterKeepsInv(sh: Shared, roles: seq<Role>, a: AuthId, credential: Credential, r: Request)
    requires SharedInv(sh, roles) && r < |roles| && roles[r].Arriving?
    ensures SharedInv(Enter(sh, a, credential, r).0, roles[r := RoleAfter(Enter(sh, a, credential, r).1, a, credential)])
  {
    var (sh', entry) := Enter(sh, a, credential, r);
    match entry
    case Open(_, _, _) => OpenKeepsInv(sh, roles, a, credential, r);
    case Existing(_) =>
      EnterSameGeneration(sh, roles, a, credential, r);
      LeaveKeepsInv(sh, roles, r);
    case Join(call) =>
      EnterSameGeneration(sh, roles, a, credential, r);
      JoinKeepsInv(sh, roles, r, call);
  }

  lemma JoinKeepsInv(sh: Shared, roles: seq<Role>, r: Request, call: Request)
    requires SharedInv(sh, roles) && r < |roles| && roles[r].Arriving?
    requires call < |roles| && roles[call].Owner?
    ensures SharedInv(sh, roles[r := Joined(call)])
  {}

  /** Publication, or its refusal, closes the call either way. */
  lemma FinishKeepsInv(sh: Shared, roles: seq<Role>, r: Request, snapshot: Snapshot)
    requires SharedInv(sh, roles) && r < |roles| && roles[r].Owner?
    requires snapshot.auth == roles[r].gen && snapshot.config == roles[r].key.config
    requires Current(sh, roles[r].auth, roles[r].key, roles[r].gen) ==> snapshot.state != Loading
    ensures SharedInv(Finish(sh, roles[r].auth, roles[r].key, roles[r].gen, r, snapshot).0, roles[r := Gone])
  {
    var role := roles[r];
    var sh' := Finish(sh, role.auth, role.key, role.gen, r, snapshot).0;
    var roles' := roles[r := Gone];
    assert OwnerOk(sh.config, sh.slots, sh.authDone, r, role);
    assert CallsOk(role.auth, sh.slots[role.auth], roles);
    assert SlotOk(sh.config, sh.slots[role.auth]);
    forall b | b in sh'.slots ensures CallsOk(b, sh'.slots[b], roles') {
      assert CallsOk(b, sh.slots[b], roles);
    }
    forall q | 0 <= q < |roles'| && roles'[q].Owner?
      ensures OwnerOk(sh'.config, sh'.slots, sh'.authDone, q, roles'[q])
    {
      assert OwnerOk(sh.config, sh.slots, sh.authDone, q, roles[q]);
    }
  }
}
