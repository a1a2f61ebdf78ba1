/** Chat stream chunks as JSON, and the cleaning that drops empty tool-call shells and padding. */
module StreamClean {
  import opened Basics

  datatype Json = Null | Bool(b: bool) | Num(n: real) | Str(s: string) | Arr(items: seq<Json>) | Obj(fields: map<string, Json>)

  type Fields = map<string, Json>

  /** Nothing but nulls, empty strings and empty containers of empty values. */
  predicate IsEmptyValue(v: Json) {
    match v
    case Null => true
    case Str(s) => s == ""
    case Arr(items) => items == []
    case Obj(fields) => forall k | k in fields :: IsEmptyValue(fields[k])
    case _ => false
  }

  /** The string held at `k`, if it holds one. */
  function Text(o: Fields, k: string): string {
    if k in o && o[k].Str? then o[k].s else ""
  }

  function Items(o: Fields, k: string): seq<Json> {
    if k in o && o[k].Arr? then o[k].items else []
  }

  function Object(o: Fields, k: string): Option<Fields> {
    if k in o && o[k].Obj? then Some(o[k].fields) else None
  }

  function FieldsOf(v: Json): Fields {
    if v.Obj? then v.fields else map[]
  }

  const NOISE := ["extra_fields", "refusal", "reasoning_content"]

  predicate Removable(k: string, v: Json) {
    (k == "tool_calls" && v == Arr([])) || ((k == "function_call" || k in NOISE) && IsEmptyValue(v))
  }

  function CleanDelta(d: Fields): Fields {
    map k | k in d && !Removable(k, d[k]) :: d[k]
  }

  function CleanChoice(c: Json): Json {
    var d := Object(FieldsOf(c), "delta");
    if d.Some? then Obj(FieldsOf(c)["delta" := Obj(CleanDelta(d.value))]) else c
  }

  /** Nothing is left of the delta and no finish reason speaks for the choice. */
  predicate Drops(c: Json) {
    var d := Object(FieldsOf(c), "delta");
    d.Some? && CleanDelta(d.value) == map[] && Text(FieldsOf(c), "finish_reason") == ""
  }

  function CleanChoices(cs: seq<Json>): (r: seq<Json>)
    ensures |r| == |cs|
    ensures forall k | 0 <= k < |cs| :: r[k] == CleanChoice(cs[k])
  {
    if cs == [] then [] else CleanChoices(cs[..|cs| - 1]) + [CleanChoice(cs[|cs| - 1])]
  }

  /** A chunk is dropped when any of its choices is. */
  function Clean(chunk: Fields): Option<Fields> {
    if "choices" in chunk && chunk["choices"].Arr? then
      if exists c | c in chunk["choices"].items :: Drops(c) then None
      else Some(chunk["choices" := Arr(CleanChoices(chunk["choices"].items))])
    else Some(chunk)
  }

  /** Removes the removable fields of one delta, one after the other. */
  method StripDelta(delta: Fields) returns (d: Fields)
    ensures d == CleanDelta(delta)
  {
    d := delta;
    if "function_call" in d && IsEmptyValue(d["function_call"]) { d := d - {"function_call"}; }
    if "tool_calls" in d && d["tool_calls"].Arr? && |d["tool_calls"].items| == 0 { d := d - {"tool_calls"}; }
    d := StripNoise(d);
  }

  method StripNoise(before: Fields) returns (d: Fields)
    ensures d == map k | k in before && !(k in NOISE && IsEmptyValue(before[k])) :: before[k]
  {
    d := before;
    for i := 0 to |NOISE|
      invariant d == map k | k in before && !(k in NOISE[..i] && IsEmptyValue(before[k])) :: before[k]
    {
      assert NOISE[..i + 1] == NOISE[..i] + [NOISE[i]];
      if NOISE[i] in d && IsEmptyValue(d[NOISE[i]]) { d := d - {NOISE[i]}; }
    }
    assert NOISE[..|NOISE|] == NOISE;
  }

  method CleanChunk(chunk: Fields) returns (r: Option<Fields>)
    ensures r == Clean(chunk)
  {
    if "choices" !in chunk || !chunk["choices"].Arr? { return Some(chunk); }
    var choices := chunk["choices"].items;
    var cleaned: seq<Json> := [];
    for i := 0 to |choices|
      invariant |cleaned| == i
      invariant forall k | 0 <= k < i :: cleaned[k] == CleanChoice(choices[k]) && !Drops(choices[k])
    {
      var delta := Object(FieldsOf(choices[i]), "delta");
      if delta.None? {
        cleaned := cleaned + [choices[i]];
      } else {
        var d := StripDelta(delta.value);
        if d == map[] && Text(FieldsOf(choices[i]), "finish_reason") == "" {
          assert Drops(choices[i]) && choices[i] in choices;
          return None;
        }
        cleaned := cleaned + [Obj(FieldsOf(choices[i])["delta" := Obj(d)])];
      }
    }
    assert cleaned == CleanChoices(choices);
    r := Some(chunk["choices" := Arr(cleaned)]);
  }

  lemma CleanChoiceTwice(c: Json)
    ensures CleanChoice(CleanChoice(c)) == CleanChoice(c) && (!Drops(c) ==> !Drops(CleanChoice(c)))
  {
    var d := Object(FieldsOf(c), "delta");
    if d.Some? { assert CleanDelta(CleanDelta(d.value)) == CleanDelta(d.value); }
  }

  lemma CleanedStaysClean(choices: seq<Json>, c: Json)
    requires (forall x | x in choices :: !Drops(x)) && c in CleanChoices(choices)
    ensures !Drops(c) && CleanChoice(c) == c
  {
    var k :| 0 <= k < |choices| && CleanChoices(choices)[k] == c;
    assert choices[k] in choices;
    CleanChoiceTwice(choices[k]);
  }

  /** Cleaning twice is cleaning once. */
  lemma CleanIsIdempotent(chunk: Fields)
    requires Clean(chunk).Some?
    ensures Clean(Clean(chunk).value) == Clean(chunk)
  {
    if "choices" in chunk && chunk["choices"].Arr? {
      var choices := chunk["choices"].items;
      var cleaned := CleanChoices(choices);
      forall c | c in cleaned ensures !Drops(c) && CleanChoice(c) == c { CleanedStaysClean(choices, c); }
      assert CleanChoices(cleaned) == cleaned;
      assert chunk["choices" := Arr(cleaned)]["choices" := Arr(cleaned)] == chunk["choices" := Arr(cleaned)];
    }
  }

  /** What counts as empty: null, an empty string or list, and an object all of whose values are empty. */
  lemma EmptyValues(v: Json)
    ensures IsEmptyValue(v) <==> v == Null || v == Str("") || v == Arr([]) || (v.Obj? && forall k | k in v.fields :: IsEmptyValue(v.fields[k]))
  {}

  /** The padding a cleaned delta is free of. */
  predicate Padding(k: string, v: Json) {
    (k == "tool_calls" && v == Arr([]))
    || ((k == "function_call" || k == "extra_fields" || k == "refusal" || k == "reasoning_content") && IsEmptyValue(v))
  }

  /** Cleaning removes the padding of every delta and nothing else. */
  lemma CleaningRemoves(chunk: Fields, k: nat, field: string)
    requires Clean(chunk).Some? && k < |Items(chunk, "choices")|
    ensures |Items(Clean(chunk).value, "choices")| == |Items(chunk, "choices")|
    ensures var before := FieldsOf(Items(chunk, "choices")[k]);
            var after := FieldsOf(Items(Clean(chunk).value, "choices")[k]);
            && (Object(before, "delta").Some? <==> Object(after, "delta").Some?)
            && (Object(before, "delta").Some? ==>
                  var d, e := before["delta"].fields, after["delta"].fields;
                  && (field in e <==> field in d && !Padding(field, d[field])) && (field in e ==> e[field] == d[field]))
            && (field != "delta" ==> (field in after <==> field in before) && (field in after ==> after[field] == before[field]))
  {}

  /** And it drops exactly the chunks with a choice of nothing but padding and no finish reason. */
  lemma CleaningDrops(chunk: Fields)
    ensures Clean(chunk).None? <==>
            exists c | c in Items(chunk, "choices") ::
              && Object(FieldsOf(c), "delta").Some? && Text(FieldsOf(c), "finish_reason") == ""
              && forall k | k in FieldsOf(c)["delta"].fields :: Padding(k, FieldsOf(c)["delta"].fields[k])
  {
    forall c ensures Drops(c) <==>
                       && Object(FieldsOf(c), "delta").Some? && Text(FieldsOf(c), "finish_reason") == ""
                       && forall k | k in FieldsOf(c)["delta"].fields :: Padding(k, FieldsOf(c)["delta"].fields[k])
    {
      if Object(FieldsOf(c), "delta").Some? { OnlyPadding(FieldsOf(c)["delta"].fields); }
    }
  }

  lemma OnlyPadding(d: Fields)
    ensures CleanDelta(d) == map[] <==> forall k | k in d :: Padding(k, d[k])
  {
    if forall k | k in d :: Padding(k, d[k]) {
      assert CleanDelta(d).Keys == {};
    } else {
      var k :| k in d && !Padding(k, d[k]);
      assert k in CleanDelta(d);
    }
  }
}
