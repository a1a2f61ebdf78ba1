/** From the configured terms to the text that comes out: refusals, and the result as an independent reader sees it. */
module Obscuring {
  import opened Basics
  import opened Sorting
  import opened Matching = Desensitize

  // ----- from the configured list to the text -----

  lemma StartsFolded(f: Fold, t: string, e: string, s: string)
    requires EqualFold(f, t, e)
    ensures Starts(f, t, s) <==> Starts(f, e, s)
  {}

  lemma AlternativesAreTerms(f: Fold, terms: seq<string>)
    requires ValidTerms(terms)
    ensures ValidTerms(Alternatives(f, terms)) && forall a | a in Alternatives(f, terms) :: a in terms
  {
    forall a | a in Alternatives(f, terms) ensures a in terms {
      DistinctFrom(f, SortStable(terms), a);
      SortHas(terms, Longer, a);
    }
  }

  lemma AlternativeFor(f: Fold, terms: seq<string>, t: string) returns (a: string)
    requires t in terms
    ensures a in Alternatives(f, terms) && EqualFold(f, t, a)
  {
    SortHas(terms, Longer, t);
    DistinctCovers(f, SortStable(terms), t);
    a :| a in Alternatives(f, terms) && EqualFold(f, t, a);
  }

  lemma {:induction false} FirstIsLongest(f: Fold, alts: seq<string>, a: string, s: string)
    requires ValidTerms(alts) && LongestFirst(alts) && a in alts && Starts(f, a, s)
    ensures |a| <= MatchLen(f, alts, s)
  {
    if !Starts(f, alts[0], s) { FirstIsLongest(f, alts[1..], a, s); }
  }

  /** Where terms match, the longest configured one is taken. */
  lemma LongestTermWins(f: Fold, terms: seq<string>, t: string, s: string)
    requires ValidTerms(terms) && t in terms && Starts(f, t, s)
    ensures ValidTerms(Alternatives(f, terms))
    ensures |t| <= MatchLen(f, Alternatives(f, terms), s)
  {
    AlternativesAreTerms(f, terms);
    var a := AlternativeFor(f, terms, t);
    StartsFolded(f, t, a, s);
    SortIsLongestFirst(terms);
    DistinctLongestFirst(f, SortStable(terms));
    FirstIsLongest(f, Alternatives(f, terms), a, s);
  }

  /** Dropping terms that fold to an earlier one loses no match. */
  lemma AlternativesCover(f: Fold, terms: seq<string>, s: string)
    requires ValidTerms(terms)
    ensures ValidTerms(Alternatives(f, terms)) && (Clean(f, Alternatives(f, terms), s) <==> Clean(f, terms, s))
  {
    AlternativesAreTerms(f, terms);
    forall t | t in terms && Occurs(f, t, s) ensures !Clean(f, Alternatives(f, terms), s) {
      var a := AlternativeFor(f, terms, t);
      var i :| 0 <= i <= |s| && Starts(f, t, s[i..]);
      StartsFolded(f, t, a, s[i..]);
      assert Occurs(f, a, s);
    }
  }

  lemma StartsAlike(f: Fold, terms: seq<string>, s: string)
    requires ValidTerms(terms)
    ensures SomeStarts(f, Alternatives(f, terms), s) <==> SomeStarts(f, terms, s)
  {
    AlternativesAreTerms(f, terms);
    forall t | t in terms && Starts(f, t, s) ensures SomeStarts(f, Alternatives(f, terms), s) {
      var a := AlternativeFor(f, terms, t);
      StartsFolded(f, t, a, s);
    }
  }

  lemma {:induction false} PartedAlike(f: Fold, terms: seq<string>, a: string, b: string)
    requires ValidTerms(terms) && Parted(f, Alternatives(f, terms), a, b)
    ensures Parted(f, terms, a, b)
    decreases |a|
  {
    if a != "" && b != "" {
      StartsAlike(f, terms, a);
      if Parted(f, Alternatives(f, terms), a[1..], b[1..]) { PartedAlike(f, terms, a[1..], b[1..]); }
      else { PartedAlike(f, terms, a[1..], b[2..]); }
    }
  }

  // ----- the whole result, round by round -----

  /** The longest term that starts here has this length. */
  ghost predicate Longest(f: Fold, ts: seq<string>, s: string, n: nat) {
    (exists t | t in ts :: Starts(f, t, s) && |t| == n) && forall t | t in ts && Starts(f, t, s) :: |t| <= n
  }

  /** From `k` on, the matches start at `ps` and have the lengths `ns`: each is the leftmost after the one before it and
      the longest where it starts, and none is left after the last. */
  ghost predicate Leftmost(f: Fold, ts: seq<string>, s: string, k: nat, ps: seq<nat>, ns: seq<nat>)
    decreases |ps|
  {
    && |ps| == |ns|
    && if ps == [] then forall j | k <= j < |s| :: !SomeStarts(f, ts, s[j..])
       else
         && k <= ps[0] < |s| && (forall j | k <= j < ps[0] :: !SomeStarts(f, ts, s[j..]))
         && Longest(f, ts, s[ps[0]..], ns[0]) && Leftmost(f, ts, s, ps[0] + ns[0], ps[1..], ns[1..])
  }

  /** The text from `k` on, with a U+200B after each rune in `ps`. */
  function Cut(s: string, k: nat, ps: seq<nat>): string
    requires k <= |s|
    decreases |s| - k
  {
    if k == |s| then "" else [s[k]] + (if k in ps then [ZWSP] else "") + Cut(s, k + 1, ps)
  }

  lemma {:induction false} CutAlike(s: string, k: nat, ps: seq<nat>, qs: seq<nat>)
    requires k <= |s| && forall j | k <= j :: j in ps <==> j in qs
    ensures Cut(s, k, ps) == Cut(s, k, qs)
    decreases |s| - k
  {
    if k < |s| { CutAlike(s, k + 1, ps, qs); }
  }

  lemma CutSkips(s: string, k: nat, ps: seq<nat>)
    requires k < |s| && k !in ps
    ensures Cut(s, k, ps) == [s[k]] + Cut(s, k + 1, ps)
  {
    assert [s[k]] + "" == [s[k]];
  }

  lemma TakeMore(s: string, k: nat, n: nat, rest: string)
    requires k < n <= |s|
    ensures s[k..n] + rest == [s[k]] + (s[k + 1..n] + rest)
  {}

  lemma {:induction false} Uncut(s: string, k: nat, n: nat, ps: seq<nat>)
    requires k <= n <= |s| && forall j | k <= j < n :: j !in ps
    ensures Cut(s, k, ps) == s[k..n] + Cut(s, n, ps)
    decreases n - k
  {
    if k < n {
      CutSkips(s, k, ps);
      Uncut(s, k + 1, n, ps);
      TakeMore(s, k, n, Cut(s, n, ps));
    } else {
      assert s[k..n] == "";
    }
  }

  lemma Glue(a: char, b: char, u: string, v: string)
    ensures [a] + [b] + (u + v) == [a, b] + u + v
  {}

  lemma CutMatch(s: string, k: nat, n: nat, qs: seq<nat>)
    requires k < |s| && 1 <= n && k + n <= |s| && forall j | j in qs :: k + n <= j
    ensures Cut(s, k, [k] + qs) == [s[k], ZWSP] + s[k + 1..k + n] + Cut(s, k + n, qs)
  {
    Uncut(s, k + 1, k + n, [k] + qs);
    CutAlike(s, k + n, [k] + qs, qs);
    CutHere(s, k, [k] + qs);
    Glue(s[k], ZWSP, s[k + 1..k + n], Cut(s, k + n, qs));
  }

  lemma CutHere(s: string, k: nat, ps: seq<nat>)
    requires k < |s| && k in ps
    ensures Cut(s, k, ps) == [s[k]] + [ZWSP] + Cut(s, k + 1, ps)
  {}

  lemma PassSkips(f: Fold, alts: seq<string>, s: string, k: nat)
    requires ValidTerms(alts) && k < |s| && MatchLen(f, alts, s[k..]) == 0
    ensures Pass(f, alts, s[k..]) == [s[k]] + Pass(f, alts, s[k + 1..])
  {
    assert s[k..][1..] == s[k + 1..];
  }

  lemma PassMatches(f: Fold, alts: seq<string>, s: string, k: nat, n: nat)
    requires ValidTerms(alts) && k < |s| && n == MatchLen(f, alts, s[k..]) > 0
    ensures Pass(f, alts, s[k..]) == [s[k], ZWSP] + s[k + 1..k + n] + Pass(f, alts, s[k + n..])
  {
    assert s[k..][n..] == s[k + n..] && s[k..][1..n] == s[k + 1..k + n] && s[k..][0] == s[k];
  }

  lemma LongestIsMatched(f: Fold, terms: seq<string>, s: string)
    requires ValidTerms(terms) && SomeStarts(f, terms, s)
    ensures ValidTerms(Alternatives(f, terms)) && Longest(f, terms, s, MatchLen(f, Alternatives(f, terms), s))
  {
    AlternativesAreTerms(f, terms);
    StartsAlike(f, terms, s);
    MatchesExactly(f, Alternatives(f, terms), s);
    var t := Matched(f, Alternatives(f, terms), s);
    forall u | u in terms && Starts(f, u, s) ensures |u| <= |t| { LongestTermWins(f, terms, u, s); }
  }

  lemma {:induction false} LeftmostAfter(f: Fold, ts: seq<string>, s: string, k: nat, ps: seq<nat>, ns: seq<nat>, j: nat)
    requires Leftmost(f, ts, s, k, ps, ns) && j in ps
    ensures k <= j < |s|
    decreases |ps|
  {
    if j != ps[0] { LeftmostAfter(f, ts, s, ps[0] + ns[0], ps[1..], ns[1..], j); }
  }

  lemma LeftmostEarlier(f: Fold, ts: seq<string>, s: string, k: nat, ps: seq<nat>, ns: seq<nat>)
    requires k < |s| && !SomeStarts(f, ts, s[k..]) && Leftmost(f, ts, s, k + 1, ps, ns)
    ensures Leftmost(f, ts, s, k, ps, ns)
  {}

  lemma LeftmostHere(f: Fold, ts: seq<string>, s: string, k: nat, n: nat, qs: seq<nat>, ms: seq<nat>)
    requires k < |s| && Longest(f, ts, s[k..], n) && Leftmost(f, ts, s, k + n, qs, ms)
    ensures Leftmost(f, ts, s, k, [k] + qs, [n] + ms)
  {
    assert ([k] + qs)[1..] == qs && ([n] + ms)[1..] == ms;
  }

  /** The alternatives match here if some term starts here, and then what the longest of them does. */
  ghost predicate Stand(f: Fold, terms: seq<string>, alts: seq<string>, s: string) {
    && ValidTerms(alts)
    && if MatchLen(f, alts, s) == 0 then !SomeStarts(f, terms, s) else Longest(f, terms, s, MatchLen(f, alts, s))
  }

  lemma AlternativesStand(f: Fold, terms: seq<string>, s: string)
    requires ValidTerms(terms)
    ensures Stand(f, terms, Alternatives(f, terms), s)
  {
    AlternativesAreTerms(f, terms);
    StartsAlike(f, terms, s);
    MatchesExactly(f, Alternatives(f, terms), s);
    if SomeStarts(f, terms, s) { LongestIsMatched(f, terms, s); }
  }

  /** The matches from `k` on, and the text cut after the first rune of each. */
  ghost predicate CutsFrom(f: Fold, terms: seq<string>, s: string, k: nat, ps: seq<nat>, ns: seq<nat>, cut: string) {
    k <= |s| && Leftmost(f, terms, s, k, ps, ns) && cut == Cut(s, k, ps)
  }

  /** What a pass makes of the text from each place on, and the length of the match there. */
  ghost predicate Advances(f: Fold, terms: seq<string>, s: string, length: nat -> nat, made: nat -> string, k: nat)
    requires k < |s|
  {
    var n := length(k);
    if n == 0 then !SomeStarts(f, terms, s[k..]) && made(k) == [s[k]] + made(k + 1)
    else k + n <= |s| && Longest(f, terms, s[k..], n) && made(k) == [s[k], ZWSP] + s[k + 1..k + n] + made(k + n)
  }

  ghost predicate IsPass(f: Fold, terms: seq<string>, s: string, length: nat -> nat, made: nat -> string) {
    made(|s|) == "" && forall k | 0 <= k < |s| :: Advances(f, terms, s, length, made, k)
  }

  lemma NoMatchIsKept(f: Fold, terms: seq<string>, s: string, length: nat -> nat, made: nat -> string, k: nat, ps: seq<nat>, ns: seq<nat>)
    requires k < |s| && Advances(f, terms, s, length, made, k) && length(k) == 0
    requires CutsFrom(f, terms, s, k + 1, ps, ns, made(k + 1))
    ensures CutsFrom(f, terms, s, k, ps, ns, made(k))
  {
    LeftmostEarlier(f, terms, s, k, ps, ns);
    if k in ps { LeftmostAfter(f, terms, s, k + 1, ps, ns, k); }
    CutSkips(s, k, ps);
  }

  lemma MatchIsCutOut(f: Fold, terms: seq<string>, s: string, length: nat -> nat, made: nat -> string, k: nat, qs: seq<nat>, ms: seq<nat>)
    requires k < |s| && Advances(f, terms, s, length, made, k) && length(k) > 0
    requires CutsFrom(f, terms, s, k + length(k), qs, ms, made(k + length(k)))
    ensures CutsFrom(f, terms, s, k, [k] + qs, [length(k)] + ms, made(k))
  {
    var n := length(k);
    forall j | j in qs ensures k + n <= j { LeftmostAfter(f, terms, s, k + n, qs, ms, j); }
    LeftmostHere(f, terms, s, k, n, qs, ms);
    CutMatch(s, k, n, qs);
  }

  lemma {:induction false} CutsExist(f: Fold, terms: seq<string>, s: string, length: nat -> nat, made: nat -> string, k: nat)
    returns (ps: seq<nat>, ns: seq<nat>)
    requires IsPass(f, terms, s, length, made) && k <= |s|
    ensures CutsFrom(f, terms, s, k, ps, ns, made(k))
    decreases |s| - k
  {
    if k == |s| { return [], []; }
    assert Advances(f, terms, s, length, made, k);
    if length(k) == 0 {
      ps, ns := CutsExist(f, terms, s, length, made, k + 1);
      NoMatchIsKept(f, terms, s, length, made, k, ps, ns);
    } else {
      var qs, ms := CutsExist(f, terms, s, length, made, k + length(k));
      MatchIsCutOut(f, terms, s, length, made, k, qs, ms);
      ps, ns := [k] + qs, [length(k)] + ms;
    }
  }

  lemma PlainAdvances(f: Fold, terms: seq<string>, s: string, length: nat -> nat, made: nat -> string, k: nat)
    requires k < |s| && length(k) == 0 && !SomeStarts(f, terms, s[k..]) && made(k) == [s[k]] + made(k + 1)
    ensures Advances(f, terms, s, length, made, k)
  {}

  lemma MatchAdvances(f: Fold, terms: seq<string>, s: string, length: nat -> nat, made: nat -> string, k: nat, n: nat)
    requires k < |s| && length(k) == n > 0 && k + n <= |s| && Longest(f, terms, s[k..], n)
    requires made(k) == [s[k], ZWSP] + s[k + 1..k + n] + made(k + n)
    ensures Advances(f, terms, s, length, made, k)
  {}

  /** The family of what a pass makes from each place on. */
  ghost predicate MadeBy(f: Fold, alts: seq<string>, s: string, length: nat -> nat, made: nat -> string)
    requires ValidTerms(alts)
  {
    forall k: nat | k <= |s| :: length(k) == MatchLen(f, alts, s[k..]) && made(k) == Pass(f, alts, s[k..])
  }

  lemma PassAdvances(f: Fold, terms: seq<string>, alts: seq<string>, s: string, length: nat -> nat, made: nat -> string, k: nat)
    requires k < |s| && Stand(f, terms, alts, s[k..]) && MadeBy(f, alts, s, length, made)
    ensures Advances(f, terms, s, length, made, k)
  {
    var n := length(k);
    if n == 0 {
      PassSkips(f, alts, s, k);
      PlainAdvances(f, terms, s, length, made, k);
    } else {
      PassMatches(f, alts, s, k, n);
      MatchAdvances(f, terms, s, length, made, k, n);
    }
  }

  lemma PassCutsWith(f: Fold, terms: seq<string>, alts: seq<string>, s: string) returns (ps: seq<nat>, ns: seq<nat>)
    requires ValidTerms(alts) && forall k | 0 <= k < |s| :: Stand(f, terms, alts, s[k..])
    ensures CutsFrom(f, terms, s, 0, ps, ns, Pass(f, alts, s))
  {
    var length: nat -> nat := (k: nat) => if k <= |s| then MatchLen(f, alts, s[k..]) else 0;
    var made: nat -> string := (k: nat) => if k <= |s| then Pass(f, alts, s[k..]) else "";
    assert MadeBy(f, alts, s, length, made);
    forall k | 0 <= k < |s| ensures Advances(f, terms, s, length, made, k) { PassAdvances(f, terms, alts, s, length, made, k); }
    assert s[|s|..] == "" && s[0..] == s;
    ps, ns := CutsExist(f, terms, s, length, made, 0);
  }

  /** A pass cuts exactly the leftmost matches. */
  lemma PassCuts(f: Fold, terms: seq<string>, s: string) returns (ps: seq<nat>, ns: seq<nat>)
    requires ValidTerms(terms) && ValidTerms(Alternatives(f, terms))
    ensures CutsFrom(f, terms, s, 0, ps, ns, Pass(f, Alternatives(f, terms), s))
  {
    forall k | 0 <= k < |s| ensures Stand(f, terms, Alternatives(f, terms), s[k..]) { AlternativesStand(f, terms, s[k..]); }
    ps, ns := PassCutsWith(f, terms, Alternatives(f, terms), s);
  }

  ghost predicate Round(f: Fold, ts: seq<string>, s: string, next: string) {
    exists ps, ns :: ps != [] && Leftmost(f, ts, s, 0, ps, ns) && next == Cut(s, 0, ps)
  }

  /** Each text is the one before with all its leftmost matches cut, and in the last there is none. */
  ghost predicate Rounds(f: Fold, ts: seq<string>, texts: seq<string>) {
    && texts != [] && (forall k | 0 <= k < |texts| - 1 :: Round(f, ts, texts[k], texts[k + 1]))
    && Clean(f, ts, texts[|texts| - 1])
  }

  lemma PassIsRound(f: Fold, terms: seq<string>, s: string)
    requires ValidTerms(terms) && ValidTerms(Alternatives(f, terms)) && Hits(f, Alternatives(f, terms), s) > 0
    ensures Round(f, terms, s, Pass(f, Alternatives(f, terms), s))
  {
    var ps, ns := PassCuts(f, terms, s);
    if ps == [] {
      Uncut(s, 0, |s|, ps);
      PassParts(f, Alternatives(f, terms), s);
    }
  }

  lemma RoundFirst(f: Fold, terms: seq<string>, s: string, rest: seq<string>)
    requires Rounds(f, terms, rest) && Round(f, terms, s, rest[0])
    ensures Rounds(f, terms, [s] + rest)
  {
    var texts := [s] + rest;
    forall k | 0 <= k < |texts| - 1 ensures Round(f, terms, texts[k], texts[k + 1]) {
      if k > 0 { assert Round(f, terms, rest[k - 1], rest[k - 1 + 1]); }
    }
  }

  /** The stable text is reached by such rounds: its leftmost matches, then those of the result, until there is none. */
  lemma {:induction false} StableIsRounds(f: Fold, terms: seq<string>, s: string) returns (texts: seq<string>)
    requires ValidTerms(terms) && ValidTerms(Alternatives(f, terms))
    ensures Rounds(f, terms, texts) && texts[0] == s && texts[|texts| - 1] == Stable(f, Alternatives(f, terms), s)
    decreases Pairs(s)
  {
    var alts := Alternatives(f, terms);
    PassBreaksPairs(f, alts, s);
    if Hits(f, alts, s) == 0 {
      NoHitsMeansClean(f, alts, s);
      AlternativesCover(f, terms, s);
      texts := [s];
    } else {
      PassIsRound(f, terms, s);
      var rest := StableIsRounds(f, terms, Pass(f, alts, s));
      RoundFirst(f, terms, s, rest);
      texts := [s] + rest;
    }
  }

  /** What a text comes out as under accepted terms. */
  ghost predicate Obscured(f: Fold, terms: seq<string>, text: string, out: string) {
    && Clean(f, terms, out)
    && (exists texts :: Rounds(f, terms, texts) && texts[0] == text && texts[|texts| - 1] == out)
    && Parted(f, terms, text, out) && Erase(text) == Erase(out)
    && (out == text <==> Clean(f, terms, text))
    && forall i: nat | FirstAt(f, terms, text, i) :: |out| > i + 1 && out[..i + 2] == text[..i + 1] + ['\U{200B}']
  }

  lemma StableObscures(f: Fold, terms: seq<string>, text: string)
    requires ValidTerms(terms)
    ensures ValidTerms(Alternatives(f, terms)) && Obscured(f, terms, text, Stable(f, Alternatives(f, terms), text))
  {
    var alts := Alternatives(f, terms);
    AlternativesCover(f, terms, text);
    var out := Stable(f, alts, text);
    AlternativesCover(f, terms, out);
    StableMeaning(f, alts, text);
    StableIsFixpoint(f, alts, text);
    var texts := StableIsRounds(f, terms, text);
    PartedAlike(f, terms, text, out);
    PartedErases(f, terms, text, out);
    forall i: nat | FirstAt(f, terms, text, i) ensures |out| > i + 1 && out[..i + 2] == text[..i + 1] + ['\U{200B}'] {
      StartsAlike(f, terms, text[i..]);
      forall j | 0 <= j < i ensures !SomeStarts(f, alts, text[j..]) { StartsAlike(f, terms, text[j..]); }
      FirstMatchIsParted(f, alts, text, i);
    }
  }

  /** An entry that refuses the whole configuration. */
  predicate Faulty(raw: string) {
    var t := TrimSpace(raw);
    t != "" && (|t| == 1 || '\U{200B}' in t)
  }

  /** The whole path. A configuration is refused exactly for an entry of one rune or with U+200B in it. Otherwise
      no configured term is left, each inserted U+200B follows the first rune of an occurrence, and the first
      occurrence is parted right after its first rune. */
  method Desensitize(f: Fold, configured: seq<string>, text: string) returns (out: Option<string>)
    ensures out.None? <==> exists r | r in configured :: Faulty(r)
    ensures out.Some? ==>
              && (forall r | r in configured && TrimSpace(r) != "" :: !Occurs(f, TrimSpace(r), out.value))
              && Obscured(f, Trimmed(configured), text, out.value)
  {
    var terms := NormalizedTerms(configured);
    if terms.Refused? {
      ghost var k :| 0 <= k < |configured| && TrimSpace(configured[k]) != "" && Fault(TrimSpace(configured[k])) == Some(terms.error);
      assert Faulty(configured[k]);
      return None;
    }
    forall r | r in configured ensures !Faulty(r) {
      if TrimSpace(r) != "" {
        TrimmedHas(configured, r);
        assert Fault(TrimSpace(r)).None?;
      }
    }
    var alts := Compile(f, terms.list);
    StableObscures(f, terms.list, text);
    var result := Replace(f, alts, text);
    forall r | r in configured && TrimSpace(r) != "" ensures !Occurs(f, TrimSpace(r), result) { TrimmedHas(configured, r); }
    out := Some(result);
  }
}
