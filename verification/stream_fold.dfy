/** Folding a chat stream into one completion; tool calls arrive as fragments and are merged by index. */
module StreamFold {
  import opened Basics
  import opened Sorting
  import opened StreamClean

  // ----- tool calls -----

  /** A called function; a field is present once some fragment gave it nonempty text. */
  datatype Called = Called(name: Option<string>, arguments: Option<string>)

  datatype Call = Call(id: Option<string>, kind: Option<string>, called: Option<Called>)

  const NEW_CALL := Call(None, None, None)

  function Append(had: Option<string>, s: string): Option<string> {
    if s == "" then had else Some((if had.Some? then had.value else "") + s)
  }

  function FirstSeen(had: Option<string>, s: string): Option<string> {
    if had.Some? || s == "" then had else Some(s)
  }

  /** Scalars are taken when first seen; name and argument text is appended. */
  function MergeCall(merged: Call, delta: Fields): Call {
    var f := Object(delta, "function");
    var m := if merged.called.Some? then merged.called.value else Called(None, None);
    Call(FirstSeen(merged.id, Text(delta, "id")), FirstSeen(merged.kind, Text(delta, "type")),
         if f.None? then merged.called
         else Some(Called(Append(m.name, Text(f.value, "name")), Append(m.arguments, Text(f.value, "arguments")))))
  }

  /** Rounds towards zero. */
  function Truncated(r: real): (n: int)
    ensures if r >= 0.0 then n as real <= r < n as real + 1.0 else n as real - 1.0 < r <= n as real
  {
    if r >= 0.0 then r.Floor else -((-r).Floor)
  }

  function Index(delta: Fields): int {
    if "index" in delta && delta["index"].Num? then Truncated(delta["index"].n) else 0
  }

  /** The merged calls, and their indexes in the order they first appeared. */
  datatype Calls = Calls(byIndex: map<int, Call>, order: seq<int>)

  const NO_CALLS := Calls(map[], [])

  function AddFragment(cs: Calls, delta: Fields): Calls {
    var i := Index(delta);
    if i in cs.byIndex then cs.(byIndex := cs.byIndex[i := MergeCall(cs.byIndex[i], delta)])
    else Calls(cs.byIndex[i := MergeCall(NEW_CALL, delta)], cs.order + [i])
  }

  function AddFragments(cs: Calls, frags: seq<Fields>): Calls {
    if frags == [] then cs else AddFragment(AddFragments(cs, frags[..|frags| - 1]), frags[|frags| - 1])
  }

  lemma FragmentsSnoc(cs: Calls, frags: seq<Fields>, delta: Fields)
    ensures AddFragments(cs, frags + [delta]) == AddFragment(AddFragments(cs, frags), delta)
  {
    assert (frags + [delta])[..|frags|] == frags;
  }

  /** The fragments of one index, in order. */
  function Only(frags: seq<Fields>, i: int): seq<Fields> {
    if frags == [] then [] else
      Only(frags[..|frags| - 1], i) + (if Index(frags[|frags| - 1]) == i then [frags[|frags| - 1]] else [])
  }

  function MergeAll(frags: seq<Fields>): Call {
    if frags == [] then NEW_CALL else MergeCall(MergeAll(frags[..|frags| - 1]), frags[|frags| - 1])
  }

  /** All text a field of the function contributed. */
  function Joined(frags: seq<Fields>, field: string): string {
    if frags == [] then "" else
      var f := Object(frags[|frags| - 1], "function");
      Joined(frags[..|frags| - 1], field) + (if f.Some? then Text(f.value, field) else "")
  }

  function FirstText(frags: seq<Fields>, field: string): string {
    if frags == [] then "" else
      var t := FirstText(frags[..|frags| - 1], field);
      if t != "" then t else Text(frags[|frags| - 1], field)
  }

  function Given(s: string): Option<string> {
    if s == "" then None else Some(s)
  }

  lemma {:induction false} MergedScalars(frags: seq<Fields>)
    ensures MergeAll(frags).id == Given(FirstText(frags, "id")) && MergeAll(frags).kind == Given(FirstText(frags, "type"))
  {
    if frags != [] { MergedScalars(frags[..|frags| - 1]); }
  }

  lemma {:induction false} MergedCalled(frags: seq<Fields>)
    ensures MergeAll(frags).called.Some? <==> exists d | d in frags :: Object(d, "function").Some?
  {
    if frags != [] {
      var init, last := frags[..|frags| - 1], frags[|frags| - 1];
      MergedCalled(init);
      assert frags == init + [last];
    }
  }

  lemma AppendGiven(s: string, t: string)
    ensures Append(Given(s), t) == Given(s + t)
  {
    assert s + "" == s && "" + t == t;
  }

  lemma {:induction false} MergedTexts(frags: seq<Fields>)
    ensures var c, name, arguments := MergeAll(frags).called, Joined(frags, "name"), Joined(frags, "arguments");
            if c.Some? then c.value == Called(Given(name), Given(arguments)) else name == "" && arguments == ""
  {
    if frags != [] {
      var init, last := frags[..|frags| - 1], frags[|frags| - 1];
      MergedTexts(init);
      var f := Object(last, "function");
      if f.Some? {
        AppendGiven(Joined(init, "name"), Text(f.value, "name"));
        AppendGiven(Joined(init, "arguments"), Text(f.value, "arguments"));
      } else {
        assert Joined(init, "name") + "" == Joined(init, "name") && Joined(init, "arguments") + "" == Joined(init, "arguments");
      }
    }
  }

  /** A merged call has the concatenated name and arguments of its fragments, and their first ID and type. */
  lemma MergedMeaning(frags: seq<Fields>)
    ensures var c := MergeAll(frags);
            && c.id == Given(FirstText(frags, "id")) && c.kind == Given(FirstText(frags, "type"))
            && (c.called.Some? <==> exists d | d in frags :: Object(d, "function").Some?)
            && (c.called.Some? ==> c.called.value == Called(Given(Joined(frags, "name")), Given(Joined(frags, "arguments"))))
            && (c.called.None? ==> Joined(frags, "name") == "" && Joined(frags, "arguments") == "")
  {
    MergedScalars(frags);
    MergedCalled(frags);
    MergedTexts(frags);
  }

  predicate Before(i: int, j: int) {
    i < j
  }

  /** The calls as emitted, in index order. */
  function Emitted(cs: Calls): seq<(int, Call)>
    requires forall i | i in cs.order :: i in cs.byIndex
  {
    EmitAll(cs.byIndex, Sort(cs.order, Before))
  }

  function EmitAll(byIndex: map<int, Call>, order: seq<int>): seq<(int, Call)> {
    if order == [] then [] else
      var i := order[|order| - 1];
      EmitAll(byIndex, order[..|order| - 1]) + (if i in byIndex then [(i, byIndex[i])] else [])
  }

  ghost predicate Tracked(cs: Calls) {
    (forall i :: i in cs.order <==> i in cs.byIndex) && forall i, j | 0 <= i < j < |cs.order| :: cs.order[i] != cs.order[j]
  }

  lemma {:induction false} FragmentsTracked(frags: seq<Fields>)
    ensures Tracked(AddFragments(NO_CALLS, frags))
  {
    if frags != [] { FragmentsTracked(frags[..|frags| - 1]); }
  }

  /** Each merged call depends on the fragments of its own index only. */
  lemma {:induction false} CallAt(frags: seq<Fields>, i: int)
    ensures var byIndex := AddFragments(NO_CALLS, frags).byIndex;
            (i in byIndex <==> Only(frags, i) != []) && (i in byIndex ==> byIndex[i] == MergeAll(Only(frags, i)))
  {
    if frags != [] {
      var init, last := frags[..|frags| - 1], frags[|frags| - 1];
      CallAt(init, i);
      if Index(last) != i {
        assert Only(frags, i) == Only(init, i);
      } else {
        assert Only(frags, i) == Only(init, i) + [last];
        assert (Only(init, i) + [last])[..|Only(init, i)|] == Only(init, i);
      }
    }
  }

  lemma SameOrder(x: Calls, y: Calls)
    requires Tracked(x) && Tracked(y) && x.byIndex == y.byIndex
    ensures Sort(x.order, Before) == Sort(y.order, Before) && Ascending(Sort(x.order, Before), Before)
  {
    SortAscends(x.order, Before);
    forall i ensures i in x.order <==> i in y.order { assert i in x.order <==> i in x.byIndex; }
    SortIsCanonical(x.order, y.order, Before);
  }

  /** Any interleaving that keeps the order within each index gives the same calls, in index order. */
  lemma InterleavingDoesNotMatter(a: seq<Fields>, b: seq<Fields>)
    requires forall i :: Only(a, i) == Only(b, i)
    ensures Tracked(AddFragments(NO_CALLS, a)) && Tracked(AddFragments(NO_CALLS, b))
    ensures Emitted(AddFragments(NO_CALLS, a)) == Emitted(AddFragments(NO_CALLS, b))
    ensures Ascending(Sort(AddFragments(NO_CALLS, a).order, Before), Before)
  {
    FragmentsTracked(a);
    FragmentsTracked(b);
    var x, y := AddFragments(NO_CALLS, a), AddFragments(NO_CALLS, b);
    assert x.byIndex == y.byIndex by {
      forall i ensures (i in x.byIndex <==> i in y.byIndex) && (i in x.byIndex ==> x.byIndex[i] == y.byIndex[i]) {
        CallAt(a, i);
        CallAt(b, i);
      }
    }
    SameOrder(x, y);
  }

  // ----- the fold -----

  /** What the model said. */
  datatype Said = Said(role: string, content: string, reasoning: string, finish: string, calls: Calls)

  /** What surrounds it. */
  datatype Meta = Meta(id: string, model: string, created: int, usage: Option<Fields>, sawChoice: bool)

  datatype Folded = Folded(said: Said, meta: Meta)

  const START := Folded(Said("", "", "", "", NO_CALLS), Meta("", "", 0, None, false))

  function Latest(had: string, s: string): string {
    if s != "" then s else had
  }

  /** The tool-call objects of a list. */
  function Fragments(items: seq<Json>): seq<Fields> {
    if items == [] then [] else
      var last := items[|items| - 1];
      Fragments(items[..|items| - 1]) + (if last.Obj? then [last.fields] else [])
  }

  function AddDelta(s: Said, d: Fields): Said {
    Said(Latest(s.role, Text(d, "role")), s.content + Text(d, "content"), s.reasoning + Text(d, "reasoning_content"), s.finish,
         AddFragments(s.calls, Fragments(Items(d, "tool_calls"))))
  }

  function AddChoice(s: Said, choice: Json): Said {
    var c := FieldsOf(choice);
    var d := Object(c, "delta");
    var s' := if d.Some? then AddDelta(s, d.value) else s;
    s'.(finish := Latest(s'.finish, Text(c, "finish_reason")))
  }

  function AddChoices(s: Said, choices: seq<Json>): Said {
    if choices == [] then s else AddChoice(AddChoices(s, choices[..|choices| - 1]), choices[|choices| - 1])
  }

  function AddMeta(m: Meta, chunk: Fields): Meta {
    Meta(Latest(m.id, Text(chunk, "id")), Latest(m.model, Text(chunk, "model")),
         if "created" in chunk && chunk["created"].Num? then Truncated(chunk["created"].n) else m.created,
         if Object(chunk, "usage").Some? then Object(chunk, "usage") else m.usage,
         m.sawChoice || Items(chunk, "choices") != [])
  }

  function AddChunk(f: Folded, chunk: Fields): Folded {
    Folded(AddChoices(f.said, Items(chunk, "choices")), AddMeta(f.meta, chunk))
  }

  /** One event of the stream, its data prefix stripped. */
  datatype Frame = Blank | Done | Fault(error: string) | Unparsable | Data(chunk: Fields)

  datatype Scan = Scanned(folded: Folded) | Ended(folded: Folded) | Faulted(error: string)

  function Step(s: Scan, frame: Frame): Scan {
    if !s.Scanned? then s
    else match frame
         case Done => Ended(s.folded)
         case Fault(error) => Faulted(error)
         case Data(chunk) => Scanned(AddChunk(s.folded, chunk))
         case _ => s
  }

  function FoldFrames(frames: seq<Frame>): Scan {
    if frames == [] then Scanned(START) else Step(FoldFrames(frames[..|frames| - 1]), frames[|frames| - 1])
  }

  datatype Completion =
    | Completed(folded: Folded, calls: seq<(int, Call)>)
    | Failed(error: string)
    | ReadError
    | EmptyStream

  /** `readError`: reading stopped early, unless the stream ended itself first. */
  function Complete(s: Scan, readError: bool): Completion {
    if s.Faulted? then Failed(s.error)
    else if s.Scanned? && readError then ReadError
    else if !s.folded.meta.sawChoice then EmptyStream
    else Completed(s.folded, EmitAll(s.folded.said.calls.byIndex, Sort(s.folded.said.calls.order, Before)))
  }

  // ----- what a reply says -----

  /** The last value given, if any was. */
  function LastGiven<T>(given: seq<Option<T>>): Option<T> {
    if given == [] then None
    else if given[|given| - 1].Some? then given[|given| - 1] else LastGiven(given[..|given| - 1])
  }

  function Concat(texts: seq<string>): string {
    if texts == [] then "" else Concat(texts[..|texts| - 1]) + texts[|texts| - 1]
  }

  function ConcatAll<T>(parts: seq<seq<T>>): seq<T> {
    if parts == [] then [] else ConcatAll(parts[..|parts| - 1]) + parts[|parts| - 1]
  }

  function OrEmpty(s: Option<string>): string {
    if s.Some? then s.value else ""
  }

  function DeltaOf(choice: Json): Fields {
    var d := Object(FieldsOf(choice), "delta");
    if d.Some? then d.value else map[]
  }

  /** One text per choice: what its delta says under `field`. */
  function DeltaTexts(choices: seq<Json>, field: string): seq<string> {
    seq(|choices|, k requires 0 <= k < |choices| => Text(DeltaOf(choices[k]), field))
  }

  function Fragmented(choices: seq<Json>): seq<seq<Fields>> {
    seq(|choices|, k requires 0 <= k < |choices| => Fragments(Items(DeltaOf(choices[k]), "tool_calls")))
  }

  function AllGiven(texts: seq<string>): seq<Option<string>> {
    seq(|texts|, k requires 0 <= k < |texts| => Given(texts[k]))
  }

  function Finishes(choices: seq<Json>): seq<string> {
    seq(|choices|, k requires 0 <= k < |choices| => Text(FieldsOf(choices[k]), "finish_reason"))
  }

  /** Content and reasoning are all the texts in order, the role and the finish reason the last ones given, and the calls
      those of all fragments in order. */
  predicate Says(said: Said, choices: seq<Json>) {
    && said.content == Concat(DeltaTexts(choices, "content")) && said.reasoning == Concat(DeltaTexts(choices, "reasoning_content"))
    && said.role == OrEmpty(LastGiven(AllGiven(DeltaTexts(choices, "role"))))
    && said.finish == OrEmpty(LastGiven(AllGiven(Finishes(choices))))
    && said.calls == AddFragments(NO_CALLS, ConcatAll(Fragmented(choices)))
  }

  lemma {:induction false} FragmentsAdd(cs: Calls, a: seq<Fields>, b: seq<Fields>)
    ensures AddFragments(cs, a + b) == AddFragments(AddFragments(cs, a), b)
  {
    if b == [] {
      assert a + b == a;
    } else {
      FragmentsAdd(cs, a, b[..|b| - 1]);
      FragmentsSnoc(cs, a + b[..|b| - 1], b[|b| - 1]);
      assert a + b == (a + b[..|b| - 1]) + [b[|b| - 1]];
    }
  }

  lemma SnocTexts(choices: seq<Json>, c: Json, field: string)
    ensures DeltaTexts(choices + [c], field) == DeltaTexts(choices, field) + [Text(DeltaOf(c), field)]
  {}

  lemma SnocConcat(texts: seq<string>, s: string)
    ensures Concat(texts + [s]) == Concat(texts) + s
  {
    assert (texts + [s])[..|texts|] == texts;
  }

  lemma SnocLast(texts: seq<string>, s: string)
    ensures OrEmpty(LastGiven(AllGiven(texts + [s]))) == Latest(OrEmpty(LastGiven(AllGiven(texts))), s)
  {
    assert AllGiven(texts + [s]) == AllGiven(texts) + [Given(s)];
    assert (AllGiven(texts) + [Given(s)])[..|texts|] == AllGiven(texts);
  }

  lemma SnocFragments(choices: seq<Json>, c: Json)
    ensures ConcatAll(Fragmented(choices + [c])) == ConcatAll(Fragmented(choices)) + Fragments(Items(DeltaOf(c), "tool_calls"))
  {
    assert Fragmented(choices + [c]) == Fragmented(choices) + [Fragments(Items(DeltaOf(c), "tool_calls"))];
    assert (Fragmented(choices) + [Fragments(Items(DeltaOf(c), "tool_calls"))])[..|choices|] == Fragmented(choices);
  }

  lemma NextChoiceSays(said: Said, choices: seq<Json>, c: Json)
    requires Says(said, choices)
    ensures Says(AddChoice(said, c), choices + [c])
  {
    var d := DeltaOf(c);
    SnocTexts(choices, c, "content");
    SnocTexts(choices, c, "reasoning_content");
    SnocTexts(choices, c, "role");
    SnocConcat(DeltaTexts(choices, "content"), Text(d, "content"));
    SnocConcat(DeltaTexts(choices, "reasoning_content"), Text(d, "reasoning_content"));
    SnocLast(DeltaTexts(choices, "role"), Text(d, "role"));
    assert Finishes(choices + [c]) == Finishes(choices) + [Text(FieldsOf(c), "finish_reason")];
    SnocLast(Finishes(choices), Text(FieldsOf(c), "finish_reason"));
    SnocFragments(choices, c);
    FragmentsAdd(NO_CALLS, ConcatAll(Fragmented(choices)), Fragments(Items(d, "tool_calls")));
    SilentWithoutDelta(said, c);
  }

  lemma SilentWithoutDelta(said: Said, c: Json)
    ensures var d, s := DeltaOf(c), AddChoice(said, c);
            && s.role == Latest(said.role, Text(d, "role")) && s.finish == Latest(said.finish, Text(FieldsOf(c), "finish_reason"))
            && s.content == said.content + Text(d, "content") && s.reasoning == said.reasoning + Text(d, "reasoning_content")
            && s.calls == AddFragments(said.calls, Fragments(Items(d, "tool_calls")))
  {
    assert said.content + "" == said.content && said.reasoning + "" == said.reasoning;
  }

  lemma {:induction false} ChoicesSay(said: Said, before: seq<Json>, choices: seq<Json>)
    requires Says(said, before)
    ensures Says(AddChoices(said, choices), before + choices)
  {
    if choices == [] {
      assert before + choices == before;
    } else {
      var init, last := choices[..|choices| - 1], choices[|choices| - 1];
      ChoicesSay(said, before, init);
      NextChoiceSays(AddChoices(said, init), before + init, last);
      SplitLast(before, choices);
    }
  }

  lemma SplitLast<T>(before: seq<T>, s: seq<T>)
    requires s != []
    ensures before + s == before + s[..|s| - 1] + [s[|s| - 1]]
  {}

  /** The chunks of the frames before the end of the stream or a fault. */
  function ChunksOf(frames: seq<Frame>): seq<Fields> {
    if frames == [] || frames[0].Done? || frames[0].Fault? then []
    else if frames[0].Data? then [frames[0].chunk] + ChunksOf(frames[1..]) else ChunksOf(frames[1..])
  }

  /** The frame that ends the stream, if one does. */
  function EndOf(frames: seq<Frame>): Option<Frame> {
    if frames == [] then None else if frames[0].Done? || frames[0].Fault? then Some(frames[0]) else EndOf(frames[1..])
  }

  function ChoicesOf(chunks: seq<Fields>): seq<Json> {
    if chunks == [] then [] else Items(chunks[0], "choices") + ChoicesOf(chunks[1..])
  }

  function ChunkTexts(chunks: seq<Fields>, field: string): seq<string> {
    seq(|chunks|, k requires 0 <= k < |chunks| => Text(chunks[k], field))
  }

  /** What a completion is made of: everything said in the chunks up to the end, and the last ID, model, time and usage. */
  predicate Reports(f: Folded, chunks: seq<Fields>) {
    && Says(f.said, ChoicesOf(chunks))
    && (f.meta.sawChoice <==> ChoicesOf(chunks) != [])
    && f.meta.id == LastText(chunks, "id") && f.meta.model == LastText(chunks, "model")
    && f.meta.created == OrZero(LastGiven(Created(chunks)))
    && f.meta.usage == LastGiven(Usages(chunks))
  }

  function OrZero(n: Option<int>): int {
    if n.Some? then n.value else 0
  }

  function Created(chunks: seq<Fields>): seq<Option<int>> {
    seq(|chunks|, k requires 0 <= k < |chunks| =>
          if "created" in chunks[k] && chunks[k]["created"].Num? then Some(Truncated(chunks[k]["created"].n)) else None)
  }

  function Usages(chunks: seq<Fields>): seq<Option<Fields>> {
    seq(|chunks|, k requires 0 <= k < |chunks| => Object(chunks[k], "usage"))
  }

  lemma SnocGiven<T>(given: seq<Option<T>>, g: Option<T>)
    ensures LastGiven(given + [g]) == if g.Some? then g else LastGiven(given)
  {
    assert (given + [g])[..|given|] == given;
  }

  lemma {:induction false} ChoicesSnoc(chunks: seq<Fields>, chunk: Fields)
    ensures ChoicesOf(chunks + [chunk]) == ChoicesOf(chunks) + Items(chunk, "choices")
  {
    if chunks == [] {
      assert [chunk][1..] == [];
    } else {
      ChoicesSnoc(chunks[1..], chunk);
      assert (chunks + [chunk])[1..] == chunks[1..] + [chunk];
    }
  }

  lemma NextChunkReports(f: Folded, chunks: seq<Fields>, chunk: Fields)
    requires Reports(f, chunks)
    ensures Reports(AddChunk(f, chunk), chunks + [chunk])
  {
    ChoicesSnoc(chunks, chunk);
    ChoicesSay(f.said, ChoicesOf(chunks), Items(chunk, "choices"));
    NextText(chunks, chunk, "id");
    NextText(chunks, chunk, "model");
    NextCreated(chunks, chunk);
    NextUsage(chunks, chunk);
  }

  function LastText(chunks: seq<Fields>, field: string): string {
    OrEmpty(LastGiven(AllGiven(ChunkTexts(chunks, field))))
  }

  lemma NextText(chunks: seq<Fields>, chunk: Fields, field: string)
    ensures LastText(chunks + [chunk], field) == Latest(LastText(chunks, field), Text(chunk, field))
  {
    assert ChunkTexts(chunks + [chunk], field) == ChunkTexts(chunks, field) + [Text(chunk, field)];
    SnocLast(ChunkTexts(chunks, field), Text(chunk, field));
  }

  lemma NextCreated(chunks: seq<Fields>, chunk: Fields)
    ensures OrZero(LastGiven(Created(chunks + [chunk])))
            == if "created" in chunk && chunk["created"].Num? then Truncated(chunk["created"].n) else OrZero(LastGiven(Created(chunks)))
  {
    assert Created(chunks + [chunk]) == Created(chunks) + [Created([chunk])[0]];
    SnocGiven(Created(chunks), Created([chunk])[0]);
  }

  lemma NextUsage(chunks: seq<Fields>, chunk: Fields)
    ensures LastGiven(Usages(chunks + [chunk])) == if Object(chunk, "usage").Some? then Object(chunk, "usage") else LastGiven(Usages(chunks))
  {
    assert Usages(chunks + [chunk]) == Usages(chunks) + [Object(chunk, "usage")];
    SnocGiven(Usages(chunks), Object(chunk, "usage"));
  }

  /** The answer to a stream: the first fault before the end of it, a read error if it broke off, an error if nothing
      was ever chosen, or the completion of all its chunks. */
  predicate Answers(frames: seq<Frame>, readError: bool, r: Completion) {
    match EndOf(frames)
    case Some(Fault(error)) => r == Failed(error)
    case end =>
      if end.None? && readError then r == ReadError
      else if ChoicesOf(ChunksOf(frames)) == [] then r == EmptyStream
      else r.Completed? && Reports(r.folded, ChunksOf(frames)) && InIndexOrder(r.calls, r.folded.said.calls.byIndex)
  }

  /** Every merged call once, in ascending order of the indexes. */
  predicate InIndexOrder(calls: seq<(int, Call)>, byIndex: map<int, Call>) {
    && (forall i, j | 0 <= i < j < |calls| :: calls[i].0 < calls[j].0)
    && (forall c | c in calls :: c.0 in byIndex && byIndex[c.0] == c.1)
    && (forall i | i in byIndex :: (i, byIndex[i]) in calls)
  }

  lemma {:induction false} FramesSnoc(frames: seq<Frame>, x: Frame)
    ensures EndOf(frames + [x]) == if EndOf(frames).Some? then EndOf(frames) else if x.Done? || x.Fault? then Some(x) else None
    ensures ChunksOf(frames + [x]) == ChunksOf(frames) + if EndOf(frames).None? && x.Data? then [x.chunk] else []
  {
    if frames == [] {
      assert [x][1..] == [];
    } else {
      FramesSnoc(frames[1..], x);
      assert (frames + [x])[1..] == frames[1..] + [x];
    }
  }

  ghost predicate ScanReports(s: Scan, frames: seq<Frame>) {
    match EndOf(frames)
    case None => s.Scanned? && Reports(s.folded, ChunksOf(frames))
    case Some(Fault(error)) => s == Faulted(error)
    case _ => s.Ended? && Reports(s.folded, ChunksOf(frames))
  }

  lemma {:induction false} FoldReports(frames: seq<Frame>)
    ensures ScanReports(FoldFrames(frames), frames)
  {
    if frames != [] {
      var init, last := frames[..|frames| - 1], frames[|frames| - 1];
      FoldReports(init);
      assert frames == init + [last];
      FramesSnoc(init, last);
      if FoldFrames(init).Scanned? && last.Data? { NextChunkReports(FoldFrames(init).folded, ChunksOf(init), last.chunk); }
      NextScanReports(FoldFrames(init), init, last);
    }
  }

  lemma NextScanReports(s: Scan, init: seq<Frame>, last: Frame)
    requires ScanReports(s, init)
    requires s.Scanned? && last.Data? ==> Reports(AddChunk(s.folded, last.chunk), ChunksOf(init) + [last.chunk])
    ensures ScanReports(Step(s, last), init + [last])
  {
    FramesSnoc(init, last);
    assert ChunksOf(init) + [] == ChunksOf(init);
    assert EndOf(init).Some? ==> EndOf(init).value.Done? || EndOf(init).value.Fault? by { EndEnds(init); }
  }

  lemma {:induction false} EndEnds(frames: seq<Frame>)
    ensures EndOf(frames).Some? ==> EndOf(frames).value.Done? || EndOf(frames).value.Fault?
  {
    if frames != [] { EndEnds(frames[1..]); }
  }

  lemma {:induction false} EmitInOrder(byIndex: map<int, Call>, order: seq<int>)
    requires Ascending(order, Before) && forall i | i in order :: i in byIndex
    ensures var calls := EmitAll(byIndex, order);
            && |calls| == |order| && forall k | 0 <= k < |order| :: calls[k] == (order[k], byIndex[order[k]])
  {
    if order != [] {
      var n := |order| - 1;
      assert order[n] in order;
      EmitInOrder(byIndex, order[..n]);
    }
  }

  lemma CallsInOrder(frags: seq<Fields>)
    ensures var cs := AddFragments(NO_CALLS, frags); InIndexOrder(EmitAll(cs.byIndex, Sort(cs.order, Before)), cs.byIndex)
  {
    var cs := AddFragments(NO_CALLS, frags);
    FragmentsTracked(frags);
    SameOrder(cs, cs);
    forall i ensures i in Sort(cs.order, Before) <==> i in cs.byIndex { SortHas(cs.order, Before, i); }
    AscendingEmits(cs.byIndex, Sort(cs.order, Before));
  }

  lemma AscendingEmits(byIndex: map<int, Call>, order: seq<int>)
    requires Ascending(order, Before) && forall i :: i in order <==> i in byIndex
    ensures InIndexOrder(EmitAll(byIndex, order), byIndex)
  {
    EmitInOrder(byIndex, order);
    var calls := EmitAll(byIndex, order);
    forall i | i in byIndex ensures (i, byIndex[i]) in calls {
      var k :| 0 <= k < |order| && order[k] == i;
      assert calls[k] == (i, byIndex[i]);
    }
    forall i, j | 0 <= i < j < |calls| ensures calls[i].0 < calls[j].0 { assert Before(order[i], order[j]); }
    forall c | c in calls ensures c.0 in byIndex && byIndex[c.0] == c.1 {
      var k :| 0 <= k < |calls| && calls[k] == c;
      assert order[k] in order;
    }
  }

  lemma CompletionAnswers(frames: seq<Frame>, readError: bool)
    ensures Answers(frames, readError, Complete(FoldFrames(frames), readError))
  {
    FoldReports(frames);
    EndEnds(frames);
    CallsInOrder(ConcatAll(Fragmented(ChoicesOf(ChunksOf(frames)))));
  }

  method MergeToolCalls(calls: Calls, items: seq<Json>) returns (r: Calls)
    ensures r == AddFragments(calls, Fragments(items))
  {
    var byIndex, order := calls.byIndex, calls.order;
    for k := 0 to |items|
      invariant Calls(byIndex, order) == AddFragments(calls, Fragments(items[..k]))
    {
      assert items[..k + 1][..k] == items[..k];
      if !items[k].Obj? {
        assert Fragments(items[..k + 1]) == Fragments(items[..k]);
        continue;
      }
      var delta := items[k].fields;
      FragmentsSnoc(calls, Fragments(items[..k]), delta);
      assert Fragments(items[..k + 1]) == Fragments(items[..k]) + [delta];
      var i := Index(delta);
      if i !in byIndex {
        byIndex := byIndex[i := NEW_CALL];
        order := order + [i];
      }
      byIndex := byIndex[i := MergeCall(byIndex[i], delta)];
    }
    assert items[..|items|] == items;
    r := Calls(byIndex, order);
  }

  method FoldChoices(said: Said, choices: seq<Json>) returns (s: Said)
    ensures s == AddChoices(said, choices)
  {
    s := said;
    for k := 0 to |choices|
      invariant s == AddChoices(said, choices[..k])
    {
      assert choices[..k + 1][..k] == choices[..k];
      var choice := FieldsOf(choices[k]);
      var delta := Object(choice, "delta");
      if delta.Some? {
        var d := delta.value;
        if Text(d, "role") != "" { s := s.(role := Text(d, "role")); }
        s := s.(content := s.content + Text(d, "content"), reasoning := s.reasoning + Text(d, "reasoning_content"));
        var calls := MergeToolCalls(s.calls, Items(d, "tool_calls"));
        s := s.(calls := calls);
      }
      if Text(choice, "finish_reason") != "" { s := s.(finish := Text(choice, "finish_reason")); }
    }
    assert choices[..|choices|] == choices;
  }

  lemma {:induction false} EndedStays(frames: seq<Frame>, k: nat)
    requires k <= |frames| && !FoldFrames(frames[..k]).Scanned?
    ensures FoldFrames(frames) == FoldFrames(frames[..k])
  {
    if k == |frames| {
      assert frames[..k] == frames;
    } else {
      assert frames[..|frames| - 1][..k] == frames[..k];
      EndedStays(frames[..|frames| - 1], k);
    }
  }

  method AggregateCompletion(frames: seq<Frame>, readError: bool) returns (r: Completion)
    ensures r == Complete(FoldFrames(frames), readError)
    ensures Answers(frames, readError, r)
  {
    CompletionAnswers(frames, readError);
    r := Aggregate(frames, readError);
  }

  method Aggregate(frames: seq<Frame>, readError: bool) returns (r: Completion)
    ensures r == Complete(FoldFrames(frames), readError)
  {
    var f := START;
    var ended := false;
    for k := 0 to |frames|
      invariant FoldFrames(frames[..k]) == Scanned(f) && !ended
    {
      assert frames[..k + 1][..k] == frames[..k];
      match frames[k] {
        case Blank => continue;
        case Unparsable => continue;
        case Done =>
          EndedStays(frames, k + 1);
          ended := true;
          break;
        case Fault(error) =>
          EndedStays(frames, k + 1);
          return Failed(error);
        case Data(chunk) =>
          var said := FoldChoices(f.said, Items(chunk, "choices"));
          f := Folded(said, AddMeta(f.meta, chunk));
      }
    }
    assert frames[..|frames|] == frames;
    if !ended && readError { return ReadError; }
    if !f.meta.sawChoice { return EmptyStream; }
    r := Completed(f, EmitAll(f.said.calls.byIndex, Sort(f.said.calls.order, Before)));
  }
}
