/**
 A cache document kept in two files, a primary and a backup. A write replaces first the backup by the
 current primary and then the primary by the new document, each by a rename; on Windows the destination is
 removed first. A write can stop after any directory operation, because one fails or the process dies.
 */
module ModelStore {
  /** What decoding a file gives: a document, a document of a newer schema, or an error. */
  datatype Content<D> = Good(doc: D) | Future | Corrupt

  datatype File<D> = Absent | Unreadable | Holds(content: Content<D>)

  datatype Files<D> = Files(primary: File<D>, backup: File<D>)

  datatype Loaded<D> = Found(doc: D) | NotFound | FutureSchema | Broken

  datatype Name = Primary | Backup

  datatype Op<D> = Remove(name: Name) | Rename(name: Name, content: Content<D>)

  predicate IsGood<D>(f: File<D>) {
    f.Holds? && f.content.Good?
  }

  predicate IsFuture<D>(f: File<D>) {
    f.Holds? && f.content.Future?
  }

  function Load<D>(fs: Files<D>): Loaded<D> {
    if IsFuture(fs.primary) then FutureSchema
    else if IsGood(fs.primary) then Found(fs.primary.content.doc)
    else if IsFuture(fs.backup) then FutureSchema
    else if IsGood(fs.backup) then Found(fs.backup.content.doc)
    else if fs.primary.Absent? && fs.backup.Absent? then NotFound
    else Broken
  }

  /** The primary decides if it can be decoded or is of a newer schema, otherwise the backup does; if neither does,
      there is nothing only where there are no files. */
  predicate Answers<D(==)>(primary: File<D>, backup: File<D>, r: Loaded<D>) {
    match r
    case Found(doc) => primary == Holds(Good(doc)) || (backup == Holds(Good(doc)) && Undecided(primary))
    case FutureSchema => primary == Holds(Future) || (backup == Holds(Future) && Undecided(primary))
    case NotFound => primary == Absent && backup == Absent
    case Broken => Undecided(primary) && Undecided(backup) && !(primary == Absent && backup == Absent)
  }

  predicate Undecided<D(==)>(f: File<D>) {
    f == Absent || f == Unreadable || f == Holds(Corrupt)
  }

  lemma LoadMeaning<D>(fs: Files<D>)
    ensures Answers(fs.primary, fs.backup, Load(fs))
  {}

  function Put<D>(fs: Files<D>, name: Name, f: File<D>): Files<D> {
    match name
    case Primary => fs.(primary := f)
    case Backup => fs.(backup := f)
  }

  function Apply<D>(fs: Files<D>, ops: seq<Op<D>>): Files<D> {
    if ops == [] then fs else
      var before := Apply(fs, ops[..|ops| - 1]);
      match ops[|ops| - 1]
      case Remove(name) => Put(before, name, Absent)
      case Rename(name, content) => Put(before, name, Holds(content))
  }

  function ReplaceOps<D>(windows: bool, name: Name, content: Content<D>): seq<Op<D>> {
    (if windows then [Remove(name)] else []) + [Rename(name, content)]
  }

  predicate Refuses<D>(fs: Files<D>) {
    fs.primary.Unreadable? || fs.backup.Unreadable? || IsFuture(fs.primary) || IsFuture(fs.backup)
  }

  /** A good primary becomes the backup first. */
  function BackupOps<D>(windows: bool, fs: Files<D>): seq<Op<D>> {
    if IsGood(fs.primary) then ReplaceOps(windows, Backup, fs.primary.content) else []
  }

  /** The directory operations of one write, in order. */
  function Plan<D>(windows: bool, fs: Files<D>, doc: D): seq<Op<D>> {
    if Refuses(fs) then [] else BackupOps(windows, fs) + ReplaceOps(windows, Primary, Good(doc))
  }

  datatype Outcome = Saved | RefusedRead | RefusedFuture | Failed

  /** The pair of files, replaced in place. */
  class CacheFiles<D(==)> {
    const windows: bool
    var primary: File<D>
    var backup: File<D>

    ghost function At(): Files<D>
      reads this
    {
      Files(primary, backup)
    }

    constructor (windows: bool, primary: File<D>, backup: File<D>)
      ensures this.windows == windows && At() == Files(primary, backup)
    {
      this.windows, this.primary, this.backup := windows, primary, backup;
    }

    method LoadModelCache() returns (r: Loaded<D>)
      ensures r == Load(At()) && Answers(primary, backup, r)
    {
      LoadMeaning(At());
      var candidates := [primary, backup];
      var found := false;
      assert candidates[0] == primary && candidates[1] == backup;
      for i := 0 to 2
        invariant found <==> exists k | 0 <= k < i :: !candidates[k].Absent?
        invariant forall k | 0 <= k < i :: !IsGood(candidates[k]) && !IsFuture(candidates[k])
      {
        if candidates[i].Absent? { continue; }
        found := true;
        if IsGood(candidates[i]) { return Found(candidates[i].content.doc); }
        if IsFuture(candidates[i]) { return FutureSchema; }
      }
      r := if found then Broken else NotFound;
    }

    /** One directory operation: it happens if any of the `left` operations that still succeed remain. */
    method Do(op: Op<D>, left: nat) returns (rest: nat, ok: bool)
      modifies this
      ensures ok <==> left > 0
      ensures rest == if ok then left - 1 else 0
      ensures At() == if ok then Apply(old(At()), [op]) else old(At())
    {
      ok := left > 0;
      rest := if ok then left - 1 else 0;
      if ok {
        var f := if op.Remove? then Absent else Holds(op.content);
        if op.name.Primary? { primary := f; } else { backup := f; }
      }
    }

    method Replace(name: Name, content: Content<D>, left: nat) returns (rest: nat, ok: bool)
      modifies this
      ensures var ops := ReplaceOps(windows, name, content);
              && (ok <==> left >= |ops|) && (ok ==> rest == left - |ops|)
              && At() == Apply(old(At()), ops[..if ok then |ops| else left])
    {
      ghost var start, ops := At(), ReplaceOps(windows, name, content);
      ApplyWhole(start, ops);
      rest := left;
      if windows {
        assert ops[..1] == [Remove(name)] && ops[..2] == [Remove(name)] + [Rename(name, content)];
        rest, ok := Do(Remove(name), rest);
        if !ok { return; }
        ApplyTwo(start, Remove(name), Rename(name, content));
      }
      rest, ok := Do(Rename(name, content), rest);
    }

    /** `left` operations succeed before one fails or the process dies; the files are then the plan's
        prefix of that length. */
    method WriteModelCacheAtomic(doc: D, left: nat, synced: bool) returns (r: Outcome)
      modifies this
      ensures var plan := Plan(windows, old(At()), doc);
              && At() == Apply(old(At()), plan[..if left < |plan| then left else |plan|])
              && (r == Saved <==> !Refuses(old(At())) && left >= |plan| && (windows || synced))
      ensures r == RefusedRead || r == RefusedFuture <==> Refuses(old(At()))
      ensures r == RefusedRead <==> old(primary).Unreadable? || old(backup).Unreadable?
    {
      if primary.Unreadable? || backup.Unreadable? { return RefusedRead; }
      if IsFuture(primary) || IsFuture(backup) { return RefusedFuture; }
      var ok := Proceed(doc, left);
      r := if ok && (windows || synced) then Saved else Failed;
    }

    method Proceed(doc: D, left: nat) returns (ok: bool)
      requires !Refuses(At())
      modifies this
      ensures var plan := Plan(windows, old(At()), doc);
              (ok <==> left >= |plan|) && At() == Apply(old(At()), plan[..if ok then |plan| else left])
    {
      ghost var start, n, m := At(), |BackupOps(windows, At())|, |ReplaceOps(windows, Primary, Good(doc))|;
      var rest;
      rest, ok := KeepBackup(left);
      PlanParts(windows, start, doc, if ok then n else left, 0);
      if !ok { return; }
      rest, ok := Replace(Primary, Good(doc), rest);
      PlanParts(windows, start, doc, n, if ok then m else left - n);
    }

    /** Replaces the backup by the current primary, if that is good. */
    method KeepBackup(left: nat) returns (rest: nat, ok: bool)
      modifies this
      ensures var ops := BackupOps(windows, old(At()));
              && (ok <==> left >= |ops|) && (ok ==> rest == left - |ops|)
              && At() == Apply(old(At()), ops[..if ok then |ops| else left])
    {
      rest, ok := left, true;
      if IsGood(primary) { rest, ok := Replace(Backup, primary.content, rest); }
    }
  }

  /** The two parts of a plan, cut off after `m` operations of the first and `n` of the second. */
  lemma PlanParts<D>(windows: bool, fs: Files<D>, doc: D, m: nat, n: nat)
    requires !Refuses(fs) && m <= |BackupOps(windows, fs)| && n <= |ReplaceOps(windows, Primary, Good(doc))|
    requires n > 0 ==> m == |BackupOps(windows, fs)|
    ensures m + n <= |Plan(windows, fs, doc)| == |BackupOps(windows, fs)| + |ReplaceOps(windows, Primary, Good(doc))|
    ensures Apply(fs, Plan(windows, fs, doc)[..m + n])
            == Apply(Apply(fs, BackupOps(windows, fs)[..m]), ReplaceOps(windows, Primary, Good(doc))[..n])
  {
    var first, second := BackupOps(windows, fs), ReplaceOps(windows, Primary, Good(doc));
    TakeOfBoth(first, second, m, n);
    ApplyAppend(fs, first[..m], second[..n]);
  }

  lemma TakeOfBoth<T>(a: seq<T>, b: seq<T>, m: nat, n: nat)
    requires m <= |a| && n <= |b| && (n > 0 ==> m == |a|)
    ensures (a + b)[..m + n] == a[..m] + b[..n]
  {
    if n == 0 { assert b[..n] == []; } else { assert a[..m] == a; }
  }

  lemma ApplyWhole<D>(fs: Files<D>, ops: seq<Op<D>>)
    ensures Apply(fs, ops[..|ops|]) == Apply(fs, ops) && Apply(fs, ops[..0]) == fs
  {
    assert ops[..|ops|] == ops;
  }

  lemma ApplyTwo<D>(fs: Files<D>, a: Op<D>, b: Op<D>)
    ensures Apply(fs, [a, b]) == Apply(Apply(fs, [a]), [b]) && Apply(fs, [a] + [b]) == Apply(fs, [a, b])
  {}

  lemma {:induction false} ApplyAppend<D>(fs: Files<D>, a: seq<Op<D>>, b: seq<Op<D>>)
    ensures Apply(fs, a + b) == Apply(Apply(fs, a), b)
  {
    if b == [] {
      assert a + b == a;
    } else {
      ApplyAppend(fs, a, b[..|b| - 1]);
      assert (a + b)[..|a + b| - 1] == a + b[..|b| - 1];
    }
  }

  // ----- crash safety -----

  /** What a load may answer after a write of `doc` stopped anywhere: as before, the new document, or that there is
      nothing where there was only a damaged file. */
  predicate OldOrNew<D(==)>(before: Loaded<D>, after: Loaded<D>, doc: D) {
    after == before || after == Found(doc) || (before == Broken && after == NotFound)
  }

  /** The files at every point of a plan, spelled out. */
  lemma PlanPoints<D>(windows: bool, fs: Files<D>, doc: D, k: nat)
    requires !Refuses(fs) && k <= |Plan(windows, fs, doc)|
    ensures var good, n := Holds(Good(doc)), Apply(fs, Plan(windows, fs, doc)[..k]);
            if IsGood(fs.primary) then
              if windows then
                n == if k == 0 then fs else if k == 1 then Files(fs.primary, Absent) else if k == 2 then Files(fs.primary, fs.primary)
                     else if k == 3 then Files(Absent, fs.primary) else Files(good, fs.primary)
              else n == if k == 0 then fs else if k == 1 then Files(fs.primary, fs.primary) else Files(good, fs.primary)
            else if windows then n == if k == 0 then fs else if k == 1 then Files(Absent, fs.backup) else Files(good, fs.backup)
            else n == if k == 0 then fs else Files(good, fs.backup)
  {
    var plan := Plan(windows, fs, doc);
    if k > 0 {
      assert plan[..k][..k - 1] == plan[..k - 1];
      PlanPoints(windows, fs, doc, k - 1);
    }
  }

  /** Wherever a write stops, loading gives what it gave before or the new document. */
  lemma WriteIsAtomic<D>(windows: bool, fs: Files<D>, doc: D, k: nat)
    requires k <= |Plan(windows, fs, doc)|
    ensures OldOrNew(Load(fs), Load(Apply(fs, Plan(windows, fs, doc)[..k])), doc)
  {
    if !Refuses(fs) { PlanPoints(windows, fs, doc, k); }
  }

  /** A finished write is loaded, and the document it replaced is the backup: damage to the primary then
      loads the previous document, damage to the backup changes nothing. */
  lemma FinishedWriteHasFallback<D>(windows: bool, fs: Files<D>, doc: D, damaged: File<D>)
    requires !Refuses(fs) && !IsGood(damaged) && !IsFuture(damaged)
    ensures var n := Apply(fs, Plan(windows, fs, doc));
            && Load(n) == Found(doc) && Load(n.(backup := damaged)) == Found(doc)
            && (Load(fs).Found? ==> Load(n.(primary := damaged)) == Load(fs))
  {
    var plan := Plan(windows, fs, doc);
    assert plan[..|plan|] == plan;
    PlanPoints(windows, fs, doc, |plan|);
  }

  // ----- runs -----

  /** A write of `doc` that stops after `left` operations. */
  datatype Attempt<D> = Attempt(doc: D, left: nat)

  function After<D>(windows: bool, fs: Files<D>, w: Attempt<D>): Files<D> {
    var plan := Plan(windows, fs, w.doc);
    Apply(fs, plan[..if w.left < |plan| then w.left else |plan|])
  }

  /** The files through any number of writes, each stopped somewhere. */
  ghost predicate IsHistory<D>(windows: bool, fss: seq<Files<D>>, writes: seq<Attempt<D>>) {
    && |fss| == |writes| + 1
    && forall n {:trigger fss[n + 1]} {:trigger writes[n]} | 0 <= n < |writes| :: fss[n + 1] == After(windows, fss[n], writes[n])
  }

  lemma AfterIsAtomic<D>(windows: bool, fs: Files<D>, w: Attempt<D>)
    ensures OldOrNew(Load(fs), Load(After(windows, fs, w)), w.doc)
    ensures IsFuture(fs.primary) || IsFuture(fs.backup) ==> After(windows, fs, w) == fs
  {
    var plan := Plan(windows, fs, w.doc);
    WriteIsAtomic(windows, fs, w.doc, if w.left < |plan| then w.left else |plan|);
  }

  /** What was loadable stays loadable through any number of interrupted writes, and what is loaded is the
      original document or that of one of the writes; nothing else ever appears. */
  lemma {:induction false} LoadableForever<D>(windows: bool, fss: seq<Files<D>>, writes: seq<Attempt<D>>, n: nat)
    requires IsHistory(windows, fss, writes) && n <= |writes|
    ensures Load(fss[0]).Found? ==> Load(fss[n]).Found?
    ensures Load(fss[n]).Found? ==> Load(fss[n]) == Load(fss[0]) || exists i | 0 <= i < n :: Load(fss[n]) == Found(writes[i].doc)
  {
    if n > 0 {
      LoadableForever(windows, fss, writes, n - 1);
      AfterIsAtomic(windows, fss[n - 1], writes[n - 1]);
      assert fss[n] == After(windows, fss[n - 1], writes[n - 1]);
    }
  }

  /** Write `n` is at least as new as what was loadable and as every write before it. */
  predicate AsNew(first: int, writes: seq<Attempt<int>>, n: nat)
    requires n < |writes|
  {
    first <= writes[n].doc && forall i | 0 <= i < n :: writes[i].doc <= writes[n].doc
  }

  lemma WriteIsNoOlder(windows: bool, fss: seq<Files<int>>, writes: seq<Attempt<int>>, n: nat)
    requires IsHistory(windows, fss, writes) && n < |writes| && Load(fss[0]).Found? && AsNew(Load(fss[0]).doc, writes, n)
    ensures Load(fss[n]).Found? && Load(fss[n + 1]).Found? && Load(fss[n]).doc <= Load(fss[n + 1]).doc
  {
    LoadableForever(windows, fss, writes, n);
    AfterIsAtomic(windows, fss[n], writes[n]);
    assert fss[n + 1] == After(windows, fss[n], writes[n]);
  }

  /** Versions never go back: when each write is at least as new as everything before it, nothing older is
      ever loaded after something newer was. */
  lemma {:induction false} VersionsNeverGoBack(windows: bool, fss: seq<Files<int>>, writes: seq<Attempt<int>>, k: nat, n: nat)
    requires IsHistory(windows, fss, writes) && k <= n <= |writes| && Load(fss[0]).Found?
    requires forall m | 0 <= m < |writes| :: AsNew(Load(fss[0]).doc, writes, m)
    ensures Load(fss[k]).Found? && Load(fss[n]).Found? && Load(fss[k]).doc <= Load(fss[n]).doc
  {
    if k == n {
      LoadableForever(windows, fss, writes, n);
    } else {
      VersionsNeverGoBack(windows, fss, writes, k, n - 1);
      WriteIsNoOlder(windows, fss, writes, n - 1);
    }
  }

  /** A document of a newer schema, in either file, is never replaced by any number of writes. */
  lemma {:induction false} FutureIsKept<D>(windows: bool, fss: seq<Files<D>>, writes: seq<Attempt<D>>, n: nat)
    requires IsHistory(windows, fss, writes) && n <= |writes|
    requires IsFuture(fss[0].primary) || IsFuture(fss[0].backup)
    ensures fss[n] == fss[0]
  {
    if n > 0 {
      FutureIsKept(windows, fss, writes, n - 1);
      AfterIsAtomic(windows, fss[n - 1], writes[n - 1]);
      assert fss[n] == After(windows, fss[n - 1], writes[n - 1]);
    }
  }

  // ----- power loss -----

  /** The operations of `ops` that reached the disk, chosen freely. */
  function Kept<D>(ops: seq<Op<D>>, onDisk: seq<bool>): seq<Op<D>>
    requires |ops| == |onDisk|
  {
    if ops == [] then [] else
      Kept(ops[..|ops| - 1], onDisk[..|ops| - 1]) + (if onDisk[|ops| - 1] then [ops[|ops| - 1]] else [])
  }

  /** Even if a power loss keeps any part of the plan. */
  ghost predicate SurvivesPowerLoss<D(!new)>(windows: bool, fs: Files<D>, doc: D) {
    forall onDisk: seq<bool> | |onDisk| == |Plan(windows, fs, doc)| ::
      OldOrNew(Load(fs), Load(Apply(fs, Kept(Plan(windows, fs, doc), onDisk))), doc)
  }

  lemma KeptSnoc<D>(fs: Files<D>, ops: seq<Op<D>>, op: Op<D>, onDisk: seq<bool>)
    requires |onDisk| == |ops| + 1
    ensures var before := Apply(fs, Kept(ops, onDisk[..|ops|]));
            Apply(fs, Kept(ops + [op], onDisk)) == if onDisk[|ops|] then Apply(before, [op]) else before
  {
    assert (ops + [op])[..|ops|] == ops;
    ApplyAppend(fs, Kept(ops, onDisk[..|ops|]), if onDisk[|ops|] then [op] else []);
    assert Kept(ops, onDisk[..|ops|]) + [] == Kept(ops, onDisk[..|ops|]);
  }

  lemma KeptOne<D>(fs: Files<D>, op: Op<D>, onDisk: seq<bool>)
    requires |onDisk| == 1
    ensures Apply(fs, Kept([op], onDisk)) == if onDisk[0] then Apply(fs, [op]) else fs
  {}

  lemma KeptTwo<D>(fs: Files<D>, a: Op<D>, b: Op<D>, onDisk: seq<bool>)
    requires |onDisk| == 2
    ensures var first := if onDisk[0] then Apply(fs, [a]) else fs;
            Apply(fs, Kept([a, b], onDisk)) == if onDisk[1] then Apply(first, [b]) else first
  {
    KeptOne(fs, a, onDisk[..1]);
    KeptSnoc(fs, [a], b, onDisk);
    assert [a] + [b] == [a, b];
  }

  /** Where a good primary is removed before it is renamed over, a power loss that keeps only the removals
      loses everything; in every other case any part of the plan may reach the disk. */
  lemma PowerLossExactly<D(!new)>(windows: bool, fs: Files<D>, doc: D)
    ensures SurvivesPowerLoss(windows, fs, doc) <==> Refuses(fs) || !windows || !IsGood(fs.primary)
  {
    var plan := Plan(windows, fs, doc);
    if !Refuses(fs) && windows && IsGood(fs.primary) {
      RemovalsLose(fs, doc);
    } else {
      forall onDisk: seq<bool> | |onDisk| == |plan|
        ensures OldOrNew(Load(fs), Load(Apply(fs, Kept(plan, onDisk))), doc)
      {
        if Refuses(fs) {
        } else if windows {
          assert plan == [Remove(Primary), Rename(Primary, Good(doc))];
          KeptTwo(fs, plan[0], plan[1], onDisk);
        } else if IsGood(fs.primary) {
          assert plan == [Rename(Backup, fs.primary.content), Rename(Primary, Good(doc))];
          KeptTwo(fs, plan[0], plan[1], onDisk);
        } else {
          assert plan == [Rename(Primary, Good(doc))];
          KeptOne(fs, plan[0], onDisk);
        }
      }
    }
  }

  lemma RemovalsLose<D(!new)>(fs: Files<D>, doc: D)
    requires !Refuses(fs) && IsGood(fs.primary)
    ensures !SurvivesPowerLoss(true, fs, doc)
  {
    var plan := Plan(true, fs, doc);
    var onDisk := [true, false, true, false];
    var two := [plan[0], plan[1]];
    assert plan == two + [plan[2]] + [plan[3]] && |plan| == 4;
    KeptTwo(fs, plan[0], plan[1], onDisk[..2]);
    KeptSnoc(fs, two, plan[2], onDisk[..3]);
    assert onDisk[..3][..2] == onDisk[..2];
    KeptSnoc(fs, two + [plan[2]], plan[3], onDisk);
    assert Load(Apply(fs, Kept(plan, onDisk))) == NotFound;
  }
}
