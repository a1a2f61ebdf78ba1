/**
 One request followed through its sections, whatever the other threads do to the memory in between. A script
 says what each section finds and what the store and the network answer.
 */
module ModelReadinessThread {
  import opened Basics
  import opened ModelReadiness
  import opened ModelReadinessProtocol

  /** What a section finds and what it is answered. */
  datatype World = World(memory: Shared, env: Env)

  /** What a section leaves: the memory, and where the request goes on. */
  datatype Point = Point(memory: Shared, pc: Pc)

  /** A request, where it started, and the sections it has gone through. */
  datatype Trip = Trip(r: Request, start: Pc, path: seq<Point>) {
    function Before(k: nat): Pc
      requires k <= |path|
    {
      if k == 0 then start else path[k - 1].pc
    }
  }

  ghost predicate Moves(w: World, r: Request, pc: Pc, p: Point) {
    Runnable(w.memory, pc) && (p.memory, p.pc) == Act(w.memory, r, pc, w.env)
  }

  ghost predicate StepAt(t: Trip, script: seq<World>, k: nat)
    requires k < |t.path| <= |script|
  {
    Moves(script[k], t.r, t.Before(k), t.path[k])
  }

  /** Every section of the request so far is a step of the protocol from the memory it found. */
  ghost predicate Walk(t: Trip, script: seq<World>) {
    |t.path| <= |script| && forall k | 0 <= k < |t.path| :: StepAt(t, script, k)
  }

  ghost predicate Here(t: Trip, script: seq<World>, k: nat, pc: Pc) {
    Walk(t, script) && |t.path| == k && t.Before(k) == pc
  }

  lemma Extend(t: Trip, script: seq<World>, k: nat, pc: Pc, p: Point) returns (t': Trip)
    requires Here(t, script, k, pc) && k < |script| && Moves(script[k], t.r, pc, p)
    ensures t' == t.(path := t.path + [p]) && Here(t', script, k + 1, p.pc)
  {
    t' := t.(path := t.path + [p]);
    forall n | 0 <= n < |t'.path| ensures StepAt(t', script, n) {
      if n < k { assert StepAt(t, script, n); }
    }
  }

  // ----- the thread of a request in a run -----

  /** The steps of a run that request `r` takes from state `i` on, and the place of each of them in the run. */
  ghost predicate Follows(t: Trip, script: seq<World>, at: seq<nat>, ss: seq<State>, steps: seq<Step>, i: nat, k: nat) {
    && Walk(t, script) && |t.path| == |script| == |at| && i <= k < |ss| && |ss| == |steps| + 1
    && t.r < |ss[i].pcs| && t.r < |ss[k].pcs| && t.start == ss[i].pcs[t.r] && t.Before(|t.path|) == ss[k].pcs[t.r]
    && forall n | 0 <= n < |at| ::
         && i <= at[n] < k && steps[at[n]] == Run(t.r, script[n].env) && script[n].memory == ss[at[n]].sh
         && t.r < |ss[at[n]].pcs| && t.Before(n) == ss[at[n]].pcs[t.r]
  }

  lemma OthersLeavePc(s: State, step: Step, r: Request)
    requires Enabled(s, step) && r < |s.pcs| && !s.pcs[r].Holding? && (step.Run? ==> step.r != r)
    ensures r < |Next(s, step).pcs| && Next(s, step).pcs[r] == s.pcs[r]
  {}

  /** Every request of every run is such a thread. */
  lemma {:induction false} ThreadOf(ss: seq<State>, steps: seq<Step>, i: nat, k: nat, r: Request)
    returns (t: Trip, script: seq<World>, at: seq<nat>)
    requires IsRun(ss, steps) && i <= k < |ss| && r < |ss[i].pcs| && ss[i].pcs[r].Arrived?
    ensures t.r == r && Follows(t, script, at, ss, steps, i, k) && !ss[k].pcs[r].Holding?
    decreases k - i
  {
    if k == i {
      t, script, at := Trip(r, ss[i].pcs[r], []), [], [];
    } else {
      t, script, at := ThreadOf(ss, steps, i, k - 1, r);
      var s, step := ss[k - 1], steps[k - 1];
      assert ss[k - 1 + 1] == Next(s, step);
      if step.Run? && step.r == r {
        var p := Point(ss[k].sh, ss[k].pcs[r]);
        var w := World(s.sh, step.env);
        t, script, at := Append(t, script, at, w, p, ss, steps, i, k);
      } else {
        OthersLeavePc(s, step, r);
      }
    }
  }

  lemma Append(t: Trip, script: seq<World>, at: seq<nat>, w: World, p: Point, ss: seq<State>, steps: seq<Step>, i: nat, k: nat)
    returns (t': Trip, script': seq<World>, at': seq<nat>)
    requires 0 < k && Follows(t, script, at, ss, steps, i, k - 1) && k < |ss| && t.r < |ss[k].pcs|
    requires steps[k - 1] == Run(t.r, w.env) && w.memory == ss[k - 1].sh && p.pc == ss[k].pcs[t.r]
    requires Moves(w, t.r, ss[k - 1].pcs[t.r], p)
    ensures t'.r == t.r && Follows(t', script', at', ss, steps, i, k)
  {
    t', script', at' := t.(path := t.path + [p]), script + [w], at + [k - 1];
    forall n | 0 <= n < |t'.path| ensures StepAt(t', script', n) {
      if n < |t.path| { assert StepAt(t, script, n); }
    }
  }
}
