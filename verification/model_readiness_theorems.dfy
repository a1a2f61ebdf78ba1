/** The protocol's guarantees over every run. */
module ModelReadinessTheorems {
  import opened Basics
  import opened ModelReadiness
  import opened ModelReadinessProtocol
  import opened ModelReadinessInvariant
  import opened ModelReadinessContent
  import Auth = ModelReadinessAuth

  // ----- generations and publication -----

  /** Outside the locks a slot's snapshot carries exactly `nextAuth`, and is loading under the current
      configuration exactly while that generation's call is unfinished. */
  lemma SnapshotCarriesGeneration(ss: seq<State>, steps: seq<Step>, k: nat, a: AuthId)
    requires IsRun(ss, steps) && k < |ss|
    ensures var slot := SlotOf(ss[k].sh, a);
            && (slot.current.Some? ==> slot.current.value.auth == slot.nextAuth && slot.current.value.config == slot.key.config)
            && (slot.key.config == ss[k].sh.config ==>
                  ((slot.current.Some? && slot.current.value.state == Loading) <==> slot.nextAuth in slot.calls))
  {
    RunInv(ss, steps, k);
    var s := ss[k];
    var roles := Project(s.pcs, AuthRole);
    if a in s.sh.slots {
      var slot := s.sh.slots[a];
      assert Auth.SlotOk(s.sh.config, slot) && Auth.CallsOk(a, slot, roles);
      if slot.nextAuth in slot.calls {
        assert Auth.OwnerOk(s.sh.config, s.sh.slots, s.sh.authDone, slot.calls[slot.nextAuth], roles[slot.calls[slot.nextAuth]]);
      }
    }
  }

  /** What a request with a valid credential meets on arrival: the settled snapshot of an unchanged key is answered at
      once, an unfinished call of that key is joined, and a changed key opens the next generation. */
  lemma ArrivalOutcome(ss: seq<State>, steps: seq<Step>, k: nat, r: Request, env: Env, a: AuthId, c: Credential)
    requires IsRun(ss, steps) && k < |ss| && r < |ss[k].pcs| && ss[k].pcs[r] == Arrived(a, Some(c))
    ensures var s, next := ss[k], Next(ss[k], Run(r, env));
            var slot, pc := SlotOf(s.sh, a), next.pcs[r];
            if slot.key != Key(s.sh.config, Some(c)) then
              && pc.Working? && pc.own == Own(a, s.sh.config, c, slot.nextAuth + 1, s.sh.features.configured)
              && SlotOf(next.sh, a).current == Some(pc.own.Loading()) && SlotOf(next.sh, a).nextAuth == slot.nextAuth + 1
            else if slot.nextAuth in slot.calls then pc.AwaitAuth? && pc.auth == a && pc.call == slot.calls[slot.nextAuth] && pc.call !in s.sh.authDone
            else slot.current.Some? ==> pc == Returned(slot.current.value)
  {
    RunInv(ss, steps, k);
    var s := ss[k];
    SnapshotCarriesGeneration(ss, steps, k, a);
    if a in s.sh.slots {
      var slot, roles := s.sh.slots[a], Project(s.pcs, AuthRole);
      assert Auth.SlotOk(s.sh.config, slot) && Auth.CallsOk(a, slot, roles);
      if slot.nextAuth in slot.calls {
        assert Auth.OwnerOk(s.sh.config, s.sh.slots, s.sh.authDone, slot.calls[slot.nextAuth], roles[slot.calls[slot.nextAuth]]);
      }
    }
  }

  /** A configuration commit keeps the generation exactly if it changes either the order of the models or their context
      lengths, and nothing else. */
  lemma CommitKeepsGeneration(sh: Shared, next: Features)
    ensures var f := sh.features;
            Commit(sh, next).config == sh.config
            <==> next.configured == f.configured && next.rest == f.rest && ((next.order == f.order) != (next.context == f.context))
    ensures Commit(sh, next).features == next && sh.config <= Commit(sh, next).config <= sh.config + 1
  {}

  /** A mark leaves the account not started, and a restore shows the captured snapshot under the current numbers. */
  lemma OutsideShows(sh: Shared, a: AuthId, previous: Snapshot)
    ensures var sn := SnapshotFor(MarkNotStarted(sh, a), a); sn.state == NotStarted && sn.error == NoError && sn.models == []
    ensures var sn := SnapshotFor(Restore(sh, a, previous), a);
            sn == previous.(config := sh.config, auth := SlotOf(Restore(sh, a, previous), a).nextAuth)
  {}

  /** A rejected credential, a mark and a restore put the slot under a bare key, in the next generation unless it was there
      already: whatever call the account had under a credential is retired. */
  lemma BareKeyRetires(sh: Shared, a: AuthId, previous: Snapshot, own: Own)
    requires own.auth == a
    ensures forall sh' | sh' == Reject(sh, a).0 || sh' == MarkNotStarted(sh, a) || sh' == Restore(sh, a, previous) ::
              && !Current(sh', a, own.Key(), own.gen)
              && SlotOf(sh', a).key == Key(sh.config, None) && SlotOf(sh', a).calls == SlotOf(sh, a).calls
              && SlotOf(sh', a).nextAuth == SlotOf(sh, a).nextAuth + (if SlotOf(sh, a).key == Key(sh.config, None) then 0 else 1)
  {}

  /** After an invalidation the next request fetches metadata again, over the cached document. */
  lemma InvalidationRefetches(sh: Shared, r: Request)
    ensures EnterMetadata(DropMetadata(sh), r).1 == OpenMetadata(sh.metadataCache, false)
  {}

  lemma {:induction false} GenerationsNeverDecrease(ss: seq<State>, steps: seq<Step>, i: nat, j: nat, a: AuthId)
    requires IsRun(ss, steps) && i <= j < |ss|
    ensures SlotOf(ss[i].sh, a).nextAuth <= SlotOf(ss[j].sh, a).nextAuth && ss[i].sh.config <= ss[j].sh.config
    decreases j - i
  {
    if i < j {
      GenerationsNeverDecrease(ss, steps, i, j - 1, a);
      assert ss[j - 1 + 1] == Next(ss[j - 1], steps[j - 1]);
      NextAges(ss[j - 1], steps[j - 1]);
    }
  }

  /** From the step that opens its call, a request keeps its generation until it returns, and has closed
      its call exactly when it has returned. */
  predicate OwnsOrReturned(s: State, r: Request, own: Own) {
    && r < |s.pcs|
    && (s.pcs[r].Working? ==> s.pcs[r].own == own && r !in s.sh.authDone)
    && (s.pcs[r].Working? || (s.pcs[r].Returned? && r in s.sh.authDone))
  }

  lemma StepKeepsOwnership(s: State, step: Step, r: Request, own: Own)
    requires Enabled(s, step) && OwnsOrReturned(s, r, own)
    ensures OwnsOrReturned(Next(s, step), r, own)
    ensures s.pcs[r].Returned? ==> Next(s, step).pcs[r].Returned?
  {
    if step.Run? {
      var pc := s.pcs[step.r];
      if pc.Working? && !pc.stage.Publish? {
        OwnerFrame(s.sh, step.r, pc.own, pc.stage, step.env);
      }
    }
  }

  lemma {:induction false} Ownership(ss: seq<State>, steps: seq<Step>, i: nat, k: nat, r: Request, own: Own)
    requires IsRun(ss, steps) && i <= k < |ss| && OwnsOrReturned(ss[i], r, own)
    ensures OwnsOrReturned(ss[k], r, own)
    decreases k - i
  {
    if i < k {
      Ownership(ss, steps, i, k - 1, r, own);
      assert ss[k - 1 + 1] == Next(ss[k - 1], steps[k - 1]);
      StepKeepsOwnership(ss[k - 1], steps[k - 1], r, own);
    }
  }

  lemma {:induction false} ReturnedStays(ss: seq<State>, steps: seq<Step>, i: nat, k: nat, r: Request, own: Own)
    requires IsRun(ss, steps) && i <= k < |ss| && OwnsOrReturned(ss[i], r, own) && ss[i].pcs[r].Returned?
    ensures r < |ss[k].pcs| && ss[k].pcs[r].Returned?
    decreases k - i
  {
    if i < k {
      ReturnedStays(ss, steps, i, k - 1, r, own);
      Ownership(ss, steps, i, k - 1, r, own);
      assert ss[k - 1 + 1] == Next(ss[k - 1], steps[k - 1]);
      StepKeepsOwnership(ss[k - 1], steps[k - 1], r, own);
    }
  }

  /** Step `i` of the run is request `r` opening the account call described by `own`. */
  predicate Opens(ss: seq<State>, i: nat, r: Request, own: Own) {
    && i + 1 < |ss|
    && r < |ss[i].pcs| && ss[i].pcs[r].Arrived?
    && r < |ss[i + 1].pcs| && ss[i + 1].pcs[r].Working? && ss[i + 1].pcs[r].own == own
  }

  lemma OpeningOwns(ss: seq<State>, steps: seq<Step>, i: nat, r: Request, own: Own)
    requires IsRun(ss, steps) && Opens(ss, i, r, own)
    ensures OwnsOrReturned(ss[i + 1], r, own)
  {
    RunInv(ss, steps, i + 1);
    assert Auth.OwnerOk(ss[i + 1].sh.config, ss[i + 1].sh.slots, ss[i + 1].sh.authDone, r, Project(ss[i + 1].pcs, AuthRole)[r]);
  }

  ghost predicate Unbroken(ss: seq<State>, i: nat, j: nat, own: Own)
    requires j < |ss|
  {
    forall k | i < k <= j :: Current(ss[k].sh, own.auth, own.Key(), own.gen)
  }

  /** A call publishes exactly when its key and generation have been current without a break since it
      opened, so a key that changed and changed back still retires it. */
  lemma PublishesExactlyIfUnbroken(ss: seq<State>, steps: seq<Step>, i: nat, j: nat, r: Request, own: Own)
    requires IsRun(ss, steps) && i < j < |steps| && Opens(ss, i, r, own)
    requires steps[j].Run? && steps[j].r == r && ss[j].pcs[r].Working? && ss[j].pcs[r].stage.Publish?
    ensures var sn := ss[j].pcs[r].stage.snapshot;
            var before, after := SlotOf(ss[j].sh, own.auth).current, SlotOf(ss[j + 1].sh, own.auth).current;
            if Unbroken(ss, i, j, own) then after == Some(sn) && sn.state != Loading else after == before
  {
    OpeningOwns(ss, steps, i, r, own);
    Ownership(ss, steps, i + 1, j, r, own);
    if Current(ss[j].sh, own.auth, own.Key(), own.gen) {
      forall k | i < k <= j ensures Current(ss[k].sh, own.auth, own.Key(), own.gen) {
        CurrentThroughout(ss, steps, i, j, k, r, own);
      }
      assert Unbroken(ss, i, j, own);
    }
    RunInv(ss, steps, j);
    FinishEffect(ss[j], r);
    assert ss[j + 1] == Next(ss[j], steps[j]);
  }

  lemma FinishEffect(s: State, r: Request)
    requires Inv(s) && r < |s.pcs| && s.pcs[r].Working? && s.pcs[r].stage.Publish?
    ensures var own, sn := s.pcs[r].own, s.pcs[r].stage.snapshot;
            var after := SlotOf(Finish(s.sh, own.auth, own.Key(), own.gen, r, sn).0, own.auth).current;
            if Current(s.sh, own.auth, own.Key(), own.gen) then after == Some(sn) && sn.state != Loading
            else after == SlotOf(s.sh, own.auth).current
  {
    assert PcOk(s, s.pcs[r]);
  }

  lemma CurrentThroughout(ss: seq<State>, steps: seq<Step>, i: nat, j: nat, k: nat, r: Request, own: Own)
    requires IsRun(ss, steps) && i < k <= j < |ss| && Opens(ss, i, r, own)
    requires r < |ss[j].pcs| && ss[j].pcs[r].Working? && Current(ss[j].sh, own.auth, own.Key(), own.gen)
    ensures Current(ss[k].sh, own.auth, own.Key(), own.gen)
  {
    OpeningOwns(ss, steps, i, r, own);
    Ownership(ss, steps, i + 1, k, r, own);
    if ss[k].pcs[r].Returned? { ReturnedStays(ss, steps, k, j, r, own); }
    RunInv(ss, steps, k);
    GenerationsNeverDecrease(ss, steps, k, j, own.auth);
    NotCurrentIsRetired(ss[k], r);
  }
}
