/** Waiting: the wait graph is acyclic, no waiter is stranded, and requests always finish. */
module ModelReadinessLiveness {
  import opened Basics
  import opened ModelReadiness
  import opened ModelReadinessProtocol
  import opened ModelReadinessInvariant
  import opened ModelReadinessContent
  import Auth = ModelReadinessAuth
  import Id = ModelReadinessIdentity
  import Meta = ModelReadinessMetadata

  /** Request `r` is blocked on a call of request `q` that is not closed yet. */
  predicate WaitsOn(s: State, r: Request, q: Request) {
    r < |s.pcs| &&
    match s.pcs[r]
    case AwaitAuth(_, call) => q == call && call !in s.sh.authDone
    case Working(_, AwaitIdentity(waits, _)) => q in waits && q !in s.sh.identityDone
    case Working(_, AwaitMetadata(_, call)) => q == call && call !in s.sh.metadataDone
    case _ => false
  }

  predicate Unfinished(pc: Pc) {
    pc.Arrived? || pc.AwaitAuth? || pc.Working?
  }

  function Depth(pc: Pc): nat {
    match pc
    case AwaitAuth(_, _) => 2
    case Working(_, AwaitIdentity(_, _)) => 1
    case Working(_, AwaitMetadata(_, _)) => 1
    case _ => 0
  }

  /** Account waits lead to owners; owners wait only for identity or metadata calls, whose owners wait
      for nobody. */
  lemma WaitGraphAcyclic(s: State, r: Request, q: Request)
    requires Inv(s) && WaitsOn(s, r, q)
    ensures q < |s.pcs| && Unfinished(s.pcs[q]) && Depth(s.pcs[q]) < Depth(s.pcs[r])
  {
    match s.pcs[r]
    case AwaitAuth(_, call) =>
      var roles := Project(s.pcs, AuthRole);
      assert roles[r].Joined?;
    case Working(_, AwaitIdentity(_, _)) =>
      var roles := Project(s.pcs, IdRole);
      assert Id.RoleOk(s.sh.config, s.sh.identities, s.sh.identityDone, r, roles);
      assert roles[q].Opened?;
    case Working(_, AwaitMetadata(_, _)) =>
      var roles := Project(s.pcs, MetaRole);
      assert Meta.RoleOk(s.sh.metadataDone, r, roles);
      assert roles[q].Fetching?;
  }

  lemma BlockedWaits(s: State, r: Request)
    requires r < |s.pcs| && Unfinished(s.pcs[r]) && !Runnable(s.sh, s.pcs[r])
    ensures exists q :: WaitsOn(s, r, q)
  {
    match s.pcs[r]
    case AwaitAuth(_, call) => assert WaitsOn(s, r, call);
    case Working(_, AwaitIdentity(waits, _)) =>
      var q :| q in waits && q !in s.sh.identityDone;
      assert WaitsOn(s, r, q);
    case Working(_, AwaitMetadata(_, call)) => assert WaitsOn(s, r, call);
  }

  /** Every unfinished request can run, or waits at most two calls away from one that can. */
  lemma NoStrandedWaiter(s: State, r: Request) returns (m: Request, q: Request)
    requires Inv(s) && r < |s.pcs| && Unfinished(s.pcs[r])
    ensures q < |s.pcs| && Runnable(s.sh, s.pcs[q])
    ensures r == m || WaitsOn(s, r, m)
    ensures m == q || WaitsOn(s, m, q)
  {
    m, q := r, r;
    if !Runnable(s.sh, s.pcs[r]) {
      BlockedWaits(s, r);
      m :| WaitsOn(s, r, m);
      WaitGraphAcyclic(s, r, m);
      q := m;
      if !Runnable(s.sh, s.pcs[m]) {
        BlockedWaits(s, m);
        q :| WaitsOn(s, m, q);
        WaitGraphAcyclic(s, m, q);
      }
    }
  }

  /** Closing twice would panic: whoever reaches a closing section finds its call open. */
  lemma CloseIsFirst(s: State, r: Request)
    requires Inv(s) && r < |s.pcs| && s.pcs[r].Working?
    ensures s.pcs[r].stage.Publish? ==> r !in s.sh.authDone
    ensures s.pcs[r].stage.FetchCatalog? ==> r !in s.sh.identityDone
    ensures s.pcs[r].stage.FetchMetadata? ==> r !in s.sh.metadataDone
    ensures s.pcs[r].stage.AwaitIdentity? ==> r in s.sh.identityDone
  {
    assert Auth.OwnerOk(s.sh.config, s.sh.slots, s.sh.authDone, r, Project(s.pcs, AuthRole)[r]);
    assert Id.RoleOk(s.sh.config, s.sh.identities, s.sh.identityDone, r, Project(s.pcs, IdRole));
    assert Meta.RoleOk(s.sh.metadataDone, r, Project(s.pcs, MetaRole));
  }

  // ----- termination -----

  const MAX_RANK: nat := 20

  /** How many steps a request may still take before it next touches the metadata call. A waiter whose
      call closed without a result goes back, so it ranks above the check it returns to. */
  function Rank(done: set<Request>, pc: Pc): (k: nat)
    ensures k <= MAX_RANK
  {
    match pc
    case Arrived(_, _) => MAX_RANK
    case AwaitAuth(_, _) => 1
    case Returned(_) => 0
    case Holding(_, _) => 0
    case Working(_, stage) =>
      match stage
      case StartCall => 12
      case LoadCache(_) => 11
      case FetchCatalog(_, _, _) => 10
      case LoadCommitted(_, _) => 9
      case AwaitIdentity(_, _) => 9
      case Reload(_) => 8
      case AwaitMetadata(_, call) => if call in done then 7 else 2
      case CheckCurrent(_) => 6
      case MetadataGate(_) => 5
      case FetchMetadata(_, _, _) => 3
      case StoreUnavailable => 2
      case Publish(_) => 1
  }

  function MayFetch(pc: Pc): nat {
    if MetaRole(pc) == Meta.After then 0 else 1
  }

  function Sum(weights: seq<nat>): nat {
    if weights == [] then 0 else weights[0] + Sum(weights[1..])
  }

  lemma {:induction false} SumUpdate(weights: seq<nat>, r: nat, w: nat)
    requires r < |weights|
    ensures Sum(weights[r := w]) + weights[r] == Sum(weights) + w
  {
    if r == 0 {
      assert weights[r := w][1..] == weights[1..];
    } else {
      assert weights[r := w][1..] == weights[1..][r - 1 := w];
      SumUpdate(weights[1..], r - 1, w);
    }
  }

  lemma {:induction false} SumBound(weights: seq<nat>, bound: nat)
    requires forall i | 0 <= i < |weights| :: weights[i] <= bound
    ensures Sum(weights) <= bound * |weights|
  {
    if weights != [] { SumBound(weights[1..], bound); }
  }

  function RankList(done: set<Request>, pcs: seq<Pc>): (weights: seq<nat>)
    ensures |weights| == |pcs| && forall i | 0 <= i < |pcs| :: weights[i] == Rank(done, pcs[i])
  {
    seq(|pcs|, i requires 0 <= i < |pcs| => Rank(done, pcs[i]))
  }

  function FetcherList(pcs: seq<Pc>): (weights: seq<nat>)
    ensures |weights| == |pcs| && forall i | 0 <= i < |pcs| :: weights[i] == MayFetch(pcs[i])
  {
    seq(|pcs|, i requires 0 <= i < |pcs| => MayFetch(pcs[i]))
  }

  function Measure(s: State): nat {
    Sum(FetcherList(s.pcs)) * (MAX_RANK * |s.pcs| + 1) + Sum(RankList(s.sh.metadataDone.Keys, s.pcs))
  }

  lemma Lexicographic(f: nat, g: nat, f': nat, g': nat, k: nat)
    requires (f' < f && g' < k) || (f' <= f && g' < g)
    ensures f' * k + g' < f * k + g
  {
    if f' < f {
      assert f' * k + k <= f * k by { assert (f' + 1) * k <= f * k; }
    } else {
      assert f' * k <= f * k;
    }
  }

  lemma FetchRankFalls(done: set<Request>, sh: Shared, r: Request, own: Own, stage: Stage, env: Env)
    requires stage.FetchCatalog?
    ensures var pc := Working(own, ActFetch(sh, r, own, stage, env).1);
            Rank(done, pc) < Rank(done, Working(own, stage)) && MayFetch(pc) <= MayFetch(Working(own, stage))
  {}

  lemma OwnerRankFalls(sh: Shared, r: Request, own: Own, stage: Stage, env: Env)
    requires Runnable(sh, Working(own, stage)) && !stage.FetchCatalog? && !stage.FetchMetadata? && !stage.Publish?
    requires sh.metadataCall.Some? ==> sh.metadataCall.value !in sh.metadataDone
    ensures var (sh', stage') := ActOwner(sh, r, own, stage, env);
            && sh'.metadataDone == sh.metadataDone && MayFetch(Working(own, stage')) <= MayFetch(Working(own, stage))
            && Rank(sh.metadataDone.Keys, Working(own, stage')) < Rank(sh.metadataDone.Keys, Working(own, stage))
  {}

  /** A step that does not settle the metadata call lowers the rank of the request that takes it. */
  lemma RankFalls(sh: Shared, r: Request, pc: Pc, env: Env)
    requires Runnable(sh, pc)
    requires sh.metadataCall.Some? ==> sh.metadataCall.value !in sh.metadataDone
    requires !(pc.Working? && pc.stage.FetchMetadata?)
    ensures var (sh', pc') := Act(sh, r, pc, env);
            sh'.metadataDone == sh.metadataDone && MayFetch(pc') <= MayFetch(pc)
            && Rank(sh.metadataDone.Keys, pc') < Rank(sh.metadataDone.Keys, pc)
  {
    if pc.Working? && pc.stage.FetchCatalog? {
      FetchFrame(sh, r, pc.own, pc.stage, env);
      FetchRankFalls(sh.metadataDone.Keys, sh, r, pc.own, pc.stage, env);
    } else if pc.Working? && !pc.stage.Publish? {
      OwnerRankFalls(sh, r, pc.own, pc.stage, env);
    } else {
      SlotStepFrame(sh, r, pc, env);
    }
  }

  lemma RegisteredCallIsOpen(s: State)
    requires MetaInv(s)
    ensures s.sh.metadataCall.Some? ==> s.sh.metadataCall.value !in s.sh.metadataDone
  {}

  lemma MeasureFalls(s: State, s': State, r: Request)
    requires r < |s.pcs| == |s'.pcs| && s'.pcs == s.pcs[r := s'.pcs[r]]
    requires MayFetch(s'.pcs[r]) <= MayFetch(s.pcs[r])
    requires MayFetch(s'.pcs[r]) < MayFetch(s.pcs[r])
             || (s'.sh.metadataDone == s.sh.metadataDone
                 && Rank(s.sh.metadataDone.Keys, s'.pcs[r]) < Rank(s.sh.metadataDone.Keys, s.pcs[r]))
    ensures Measure(s') < Measure(s)
  {
    var done, done' := s.sh.metadataDone.Keys, s'.sh.metadataDone.Keys;
    SumUpdate(FetcherList(s.pcs), r, MayFetch(s'.pcs[r]));
    assert FetcherList(s'.pcs) == FetcherList(s.pcs)[r := MayFetch(s'.pcs[r])];
    SumBound(RankList(done', s'.pcs), MAX_RANK);
    if s'.sh.metadataDone == s.sh.metadataDone {
      SumUpdate(RankList(done, s.pcs), r, Rank(done, s'.pcs[r]));
      assert RankList(done, s'.pcs) == RankList(done, s.pcs)[r := Rank(done, s'.pcs[r])];
    }
    Lexicographic(Sum(FetcherList(s.pcs)), Sum(RankList(done, s.pcs)),
                  Sum(FetcherList(s'.pcs)), Sum(RankList(done', s'.pcs)), MAX_RANK * |s.pcs| + 1);
  }

  /** Every step of any request makes progress, including the retry after a retired metadata call. */
  lemma StepDecreases(s: State, r: Request, env: Env)
    requires MetaInv(s) && Enabled(s, Run(r, env))
    ensures Measure(Next(s, Run(r, env))) < Measure(s)
  {
    if !(s.pcs[r].Working? && s.pcs[r].stage.FetchMetadata?) {
      RegisteredCallIsOpen(s);
      RankFalls(s.sh, r, s.pcs[r], env);
    }
    MeasureFalls(s, Next(s, Run(r, env)), r);
  }

  /** After its last arrival or outside change a run takes at most `Measure` further steps, and when no
      step is left every request has returned. */
  lemma {:induction false} RequestsFinish(ss: seq<State>, steps: seq<Step>)
    requires |ss| == |steps| + 1 && Inv(ss[0])
    requires forall k {:trigger ss[k + 1]} {:trigger steps[k]} | 0 <= k < |steps| ::
               steps[k].Run? && Enabled(ss[k], steps[k]) && ss[k + 1] == Next(ss[k], steps[k])
    ensures Inv(ss[|steps|])
    ensures |steps| + Measure(ss[|steps|]) <= Measure(ss[0])
    ensures var last := ss[|steps|];
            (forall q | 0 <= q < |last.pcs| :: !Runnable(last.sh, last.pcs[q])) ==>
              forall q | 0 <= q < |last.pcs| :: !Unfinished(last.pcs[q])
  {
    if |steps| > 0 {
      var n := |steps| - 1;
      assert ss[n + 1] == Next(ss[n], steps[n]);
      RequestsFinish(ss[..n + 1], steps[..n]);
      StepDecreases(ss[n], steps[n].r, steps[n].env);
      NextKeepsInv(ss[n], steps[n]);
    }
    var last := ss[|steps|];
    if forall q | 0 <= q < |last.pcs| :: !Runnable(last.sh, last.pcs[q]) {
      forall q | 0 <= q < |last.pcs| ensures !Unfinished(last.pcs[q]) {
        if Unfinished(last.pcs[q]) {
          var _, u := NoStrandedWaiter(last, q);
        }
      }
    }
  }
}
