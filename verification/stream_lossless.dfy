/** What cleaning a stream changes of what is said in it, and exactly when it loses something. */
module StreamLossless {
  import opened Basics
  import opened StreamClean
  import opened StreamFold

  /** What a frame becomes in the cleaned stream. */
  function CleanFrame(frame: Frame): seq<Frame> {
    if !frame.Data? then [frame] else if Clean(frame.chunk).None? then [] else [Data(Clean(frame.chunk).value)]
  }

  /** The stream as emitted to a client that folds it itself: every chunk cleaned, dropped ones left out. */
  function CleanFrames(frames: seq<Frame>): seq<Frame> {
    if frames == [] then [] else CleanFrames(frames[..|frames| - 1]) + CleanFrame(frames[|frames| - 1])
  }

  lemma CleanedDelta(s: Said, d: Fields)
    ensures AddDelta(s, CleanDelta(d)) == AddDelta(s, d)
  {
    var e := CleanDelta(d);
    assert Text(e, "role") == Text(d, "role") && Text(e, "content") == Text(d, "content");
    assert Text(e, "reasoning_content") == Text(d, "reasoning_content") && Items(e, "tool_calls") == Items(d, "tool_calls");
  }

  lemma CleanedChoice(s: Said, c: Json)
    ensures AddChoice(s, CleanChoice(c)) == AddChoice(s, c)
  {
    var d := Object(FieldsOf(c), "delta");
    if d.Some? {
      CleanedDelta(s, d.value);
      assert Text(FieldsOf(CleanChoice(c)), "finish_reason") == Text(FieldsOf(c), "finish_reason");
    }
  }

  lemma {:induction false} CleanedChoices(s: Said, choices: seq<Json>)
    ensures AddChoices(s, CleanChoices(choices)) == AddChoices(s, choices)
  {
    if choices != [] {
      var n := |choices| - 1;
      CleanedChoices(s, choices[..n]);
      CleanedChoice(AddChoices(s, choices[..n]), choices[n]);
      assert CleanChoices(choices)[..n] == CleanChoices(choices[..n]);
    }
  }

  /** A kept chunk says what the raw one says, however many choices it has. */
  lemma KeptChunk(s: Said, chunk: Fields)
    requires Clean(chunk).Some?
    ensures AddChoices(s, Items(Clean(chunk).value, "choices")) == AddChoices(s, Items(chunk, "choices"))
  {
    if "choices" in chunk && chunk["choices"].Arr? {
      CleanedChoices(s, chunk["choices"].items);
      assert Items(Clean(chunk).value, "choices") == CleanChoices(chunk["choices"].items);
    }
  }

  /** A choice that adds nothing to what was said. */
  predicate Silent(c: Json) {
    var f := FieldsOf(c);
    var d := Object(f, "delta");
    Text(f, "finish_reason") == "" && (d.Some? ==> SilentDelta(d.value))
  }

  predicate SilentDelta(d: Fields) {
    Text(d, "role") == "" && Text(d, "content") == "" && Text(d, "reasoning_content") == "" && Fragments(Items(d, "tool_calls")) == []
  }

  /** Something has been said at all. */
  predicate Heard(s: Said) {
    s.role != "" || s.content != "" || s.reasoning != "" || s.finish != "" || s.calls.byIndex != map[]
  }

  lemma SilentAddsNothing(s: Said, c: Json)
    requires Silent(c)
    ensures AddChoice(s, c) == s
  {
    assert s.content + "" == s.content && s.reasoning + "" == s.reasoning;
  }

  lemma {:induction false} SilentChoices(s: Said, choices: seq<Json>)
    requires forall c | c in choices :: Silent(c)
    ensures AddChoices(s, choices) == s
  {
    if choices != [] {
      var n := |choices| - 1;
      assert choices[n] in choices;
      SilentChoices(s, choices[..n]);
      SilentAddsNothing(s, choices[n]);
    }
  }

  lemma {:induction false} CallsStay(cs: Calls, frags: seq<Fields>)
    ensures cs.byIndex != map[] || frags != [] ==> AddFragments(cs, frags).byIndex != map[]
  {
    if frags != [] {
      var before, last := AddFragments(cs, frags[..|frags| - 1]), frags[|frags| - 1];
      assert Index(last) in AddFragment(before, last).byIndex;
    }
  }

  /** What was heard stays heard, and a choice that is not silent is heard whatever came before. */
  lemma HeardStays(s: Said, c: Json)
    requires Heard(s) || !Silent(c)
    ensures Heard(AddChoice(s, c))
  {
    var d := Object(FieldsOf(c), "delta");
    if d.Some? { CallsStay(s.calls, Fragments(Items(d.value, "tool_calls"))); }
  }

  lemma {:induction false} NotSilentIsHeard(s: Said, choices: seq<Json>, c: Json)
    requires c in choices && !Silent(c)
    ensures Heard(AddChoices(s, choices))
  {
    var n := |choices| - 1;
    assert choices == choices[..n] + [choices[n]];
    if c in choices[..n] { NotSilentIsHeard(s, choices[..n], c); }
    HeardStays(AddChoices(s, choices[..n]), choices[n]);
  }

  /** What was said once the cleaned chunk is folded instead of the raw one. */
  function CleanedSaid(s: Said, chunk: Fields): Said {
    if Clean(chunk).Some? then AddChoices(s, Items(Clean(chunk).value, "choices")) else s
  }

  predicate SaysTheSame(s: Said, chunk: Fields) {
    AddChoices(s, Items(chunk, "choices")) == CleanedSaid(s, chunk)
  }

  /** The chunk is kept, or there was nothing in it to lose. */
  predicate LosesNothing(chunk: Fields) {
    Clean(chunk).Some? || forall c | c in Items(chunk, "choices") :: Silent(c)
  }

  lemma LosslessSaysTheSame(s: Said, chunk: Fields)
    requires LosesNothing(chunk)
    ensures SaysTheSame(s, chunk)
  {
    if Clean(chunk).Some? { KeptChunk(s, chunk); } else { SilentChoices(s, Items(chunk, "choices")); }
  }

  /** Cleaning a chunk leaves what is said unchanged, whatever was said before it, exactly when the chunk is
      kept or all its choices are silent; the start of a stream already tells the two cases apart. */
  lemma CleaningLosesExactly(chunk: Fields)
    ensures (forall s: Said :: SaysTheSame(s, chunk)) <==> LosesNothing(chunk)
    ensures SaysTheSame(START.said, chunk) <==> LosesNothing(chunk)
  {
    var choices := Items(chunk, "choices");
    if LosesNothing(chunk) {
      forall s: Said ensures SaysTheSame(s, chunk) { LosslessSaysTheSame(s, chunk); }
    } else {
      var c :| c in choices && !Silent(c);
      NotSilentIsHeard(START.said, choices, c);
      assert !SaysTheSame(START.said, chunk);
    }
  }

  /** A choice that is dropped was silent, so a chunk of at most one choice loses nothing. */
  lemma SingleChoiceLosesNothing(chunk: Fields)
    requires |Items(chunk, "choices")| <= 1
    ensures LosesNothing(chunk)
  {
    if Clean(chunk).None? {
      var d := DroppedChoice(chunk);
      DroppedIsSilent(d);
      forall c | c in Items(chunk, "choices") ensures Silent(c) { assert c == d; }
    }
  }

  lemma DroppedChoice(chunk: Fields) returns (d: Json)
    requires Clean(chunk).None?
    ensures d in Items(chunk, "choices") && Drops(d)
  {
    d :| d in chunk["choices"].items && Drops(d);
  }

  lemma DroppedIsSilent(c: Json)
    requires Drops(c)
    ensures Silent(c)
  {
    var d := Object(FieldsOf(c), "delta").value;
    assert "role" !in CleanDelta(d) && "content" !in CleanDelta(d) && "reasoning_content" !in CleanDelta(d) && "tool_calls" !in CleanDelta(d);
  }

  predicate SameSaid(a: Scan, b: Scan) {
    match a
    case Scanned(f) => b.Scanned? && f.said == b.folded.said
    case Ended(f) => b.Ended? && f.said == b.folded.said
    case Faulted(e) => b == a
  }

  predicate LosslessFrame(frame: Frame) {
    frame.Data? ==> LosesNothing(frame.chunk)
  }

  /** For streams of chunks that lose nothing, as all chunks of at most one choice do, cleaning every chunk
      and then folding gives the same role, content, reasoning, tool calls and finish reason as folding the
      raw chunks. */
  lemma {:induction false} CleanThenFold(frames: seq<Frame>)
    requires forall f | f in frames :: LosslessFrame(f)
    ensures SameSaid(FoldFrames(frames), FoldFrames(CleanFrames(frames)))
  {
    if frames != [] {
      var n := |frames| - 1;
      assert frames[n] in frames;
      CleanThenFold(frames[..n]);
      NextFrame(frames[..n], frames[n]);
      assert frames[..n] + [frames[n]] == frames;
    }
  }

  lemma FoldSnoc(frames: seq<Frame>, frame: Frame)
    ensures FoldFrames(frames + [frame]) == Step(FoldFrames(frames), frame)
    ensures CleanFrames(frames + [frame]) == CleanFrames(frames) + CleanFrame(frame)
  {
    assert (frames + [frame])[..|frames|] == frames;
  }

  /** One frame of the raw stream against what it becomes. */
  function StepAll(b: Scan, frames: seq<Frame>): Scan
    requires |frames| <= 1
  {
    if frames == [] then b else Step(b, frames[0])
  }

  lemma StepCleaned(a: Scan, b: Scan, frame: Frame)
    requires SameSaid(a, b) && LosslessFrame(frame)
    ensures SameSaid(Step(a, frame), StepAll(b, CleanFrame(frame)))
  {
    if frame.Data? && a.Scanned? { LosslessSaysTheSame(a.folded.said, frame.chunk); }
  }

  lemma FoldAll(frames: seq<Frame>, more: seq<Frame>)
    requires |more| <= 1
    ensures FoldFrames(frames + more) == StepAll(FoldFrames(frames), more)
  {
    if more == [] {
      assert frames + more == frames;
    } else {
      assert more == [more[0]];
      FoldSnoc(frames, more[0]);
    }
  }

  lemma NextFrame(init: seq<Frame>, last: Frame)
    requires SameSaid(FoldFrames(init), FoldFrames(CleanFrames(init)))
    requires LosslessFrame(last)
    ensures SameSaid(FoldFrames(init + [last]), FoldFrames(CleanFrames(init + [last])))
  {
    FoldSnoc(init, last);
    FoldAll(CleanFrames(init), CleanFrame(last));
    StepCleaned(FoldFrames(init), FoldFrames(CleanFrames(init)), last);
  }

  /** And for the stream of one chunk this is exact. */
  lemma OneChunkExactly(chunk: Fields)
    ensures SameSaid(FoldFrames([Data(chunk)]), FoldFrames(CleanFrames([Data(chunk)]))) <==> LosesNothing(chunk)
  {
    CleaningLosesExactly(chunk);
    FoldOne(Data(chunk));
    FoldCleanedOne(chunk);
  }

  lemma FoldCleanedOne(chunk: Fields)
    ensures FoldFrames(CleanFrames([Data(chunk)])).Scanned?
    ensures FoldFrames(CleanFrames([Data(chunk)])).folded.said == CleanedSaid(START.said, chunk)
  {
    assert [Data(chunk)][..0] == [];
    if Clean(chunk).Some? {
      assert CleanFrames([Data(chunk)]) == [Data(Clean(chunk).value)];
      FoldOne(Data(Clean(chunk).value));
    } else {
      assert CleanFrames([Data(chunk)]) == [];
    }
  }

  lemma FoldOne(frame: Frame)
    ensures FoldFrames([frame]) == Step(Scanned(START), frame)
  {
    assert [frame][..0] == [];
  }

  const EMPTY_CHOICE := Obj(map["delta" := Obj(map[])])
  const SPOKEN_CHOICE := Obj(map["delta" := Obj(map["content" := Str("x")])])
  const LOSSY_CHUNK: Fields := map["choices" := Arr([EMPTY_CHOICE, SPOKEN_CHOICE])]

  /** A chunk of two choices whose empty first delta drops what the second one says. */
  lemma MultiChoiceLoses()
    ensures Clean(LOSSY_CHUNK).None? && !LosesNothing(LOSSY_CHUNK) && !SaysTheSame(START.said, LOSSY_CHUNK)
  {
    var choices := LOSSY_CHUNK["choices"].items;
    assert CleanDelta(map[]) == map[] && Drops(EMPTY_CHOICE) && choices[0] == EMPTY_CHOICE;
    assert !Silent(SPOKEN_CHOICE) && choices[1] == SPOKEN_CHOICE;
    CleaningLosesExactly(LOSSY_CHUNK);
  }
}
