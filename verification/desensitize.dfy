/**
 Term obscuring: term lists are normalized and compiled into alternatives, and a text is rewritten, one
 U+200B after the first rune of each match, until nothing matches. Text is a sequence of runes, and case
 folding is any partition of the runes in which U+200B stands alone.
 */
module Desensitize {
  import opened Basics
  import opened Sorting

  const ZWSP: char := '\U{200B}'

  /** Picks one rune of each case-folding class. */
  type Fold = char -> char

  /** U+200B folds with nothing else. */
  predicate SameFold(f: Fold, a: char, b: char) {
    if a == ZWSP || b == ZWSP then a == b else f(a) == f(b)
  }

  // ----- terms -----

  datatype TermError = TooShort | HasZeroWidthSpace

  datatype Terms = Terms(list: seq<string>) | Refused(error: TermError)

  function Fault(term: string): (e: Option<TermError>) {
    if |term| < 2 then Some(TooShort) else if ZWSP in term then Some(HasZeroWidthSpace) else None
  }

  predicate ValidTerms(terms: seq<string>) {
    forall t | t in terms :: Fault(t).None?
  }

  /** Refuses the whole list at its first faulty entry; blanks and repeats are dropped. */
  method NormalizedTerms(raw: seq<string>) returns (r: Terms)
    ensures r.Terms? ==> r.list == Trimmed(raw) && ValidTerms(r.list)
    ensures r.Refused? ==> exists k | 0 <= k < |raw| ::
                             && TrimSpace(raw[k]) != "" && Fault(TrimSpace(raw[k])) == Some(r.error)
                             && ValidTerms(Trimmed(raw[..k]))
  {
    var terms: seq<string> := [];
    var seen: set<string> := {};
    for i := 0 to |raw|
      invariant terms == Trimmed(raw[..i]) && ValidTerms(terms)
      invariant forall t :: t in seen <==> t in terms
    {
      TrimmedPrefix(raw, i);
      var term := TrimSpace(raw[i]);
      if term == "" || term in seen { continue; }
      if |term| < 2 { return Refused(TooShort); }
      if ZWSP in term { return Refused(HasZeroWidthSpace); }
      seen := seen + {term};
      terms := terms + [term];
    }
    assert raw[..|raw|] == raw;
    r := Terms(terms);
  }

  // ----- compiling -----

  predicate EqualFold(f: Fold, a: string, b: string) {
    |a| == |b| && forall k | 0 <= k < |a| :: SameFold(f, a[k], b[k])
  }

  predicate LongestFirst(ts: seq<string>) {
    forall i, j | 0 <= i < j < |ts| :: |ts[i]| >= |ts[j]|
  }

  predicate Longer(a: string, b: string) {
    |a| > |b|
  }

  /** A stable sort: each term goes after every term at least as long. */
  function SortStable(ts: seq<string>): seq<string> {
    Sort(ts, Longer)
  }

  lemma {:induction false} InsertKeepsOrder(t: string, ts: seq<string>)
    requires LongestFirst(ts)
    ensures LongestFirst(Insert(t, ts, Longer))
  {
    if ts != [] && Longer(t, ts[|ts| - 1]) {
      var init, last := ts[..|ts| - 1], ts[|ts| - 1];
      InsertKeepsOrder(t, init);
      var r := Insert(t, init, Longer);
      assert forall x | x in init :: |x| >= |last|;
      forall k | 0 <= k < |r| ensures |r[k]| >= |last| { InsertHas(t, init, Longer, r[k]); }
    }
  }

  lemma {:induction false} SortIsLongestFirst(ts: seq<string>)
    ensures LongestFirst(SortStable(ts))
  {
    if ts != [] {
      SortIsLongestFirst(ts[..|ts| - 1]);
      InsertKeepsOrder(ts[|ts| - 1], SortStable(ts[..|ts| - 1]));
    }
  }

  function OfLength(ts: seq<string>, n: nat): seq<string> {
    if ts == [] then [] else
      OfLength(ts[..|ts| - 1], n) + (if |ts[|ts| - 1]| == n then [ts[|ts| - 1]] else [])
  }

  lemma {:induction false} OfLengthSnoc(ts: seq<string>, t: string, n: nat)
    ensures OfLength(ts + [t], n) == OfLength(ts, n) + (if |t| == n then [t] else [])
  {}

  lemma {:induction false} InsertStable(t: string, ts: seq<string>, n: nat)
    ensures OfLength(Insert(t, ts, Longer), n) == OfLength(ts, n) + (if |t| == n then [t] else [])
  {
    OfLengthSnoc(ts, t, n);
    if ts != [] && |ts[|ts| - 1]| < |t| {
      var init, last := ts[..|ts| - 1], ts[|ts| - 1];
      InsertStable(t, init, n);
      OfLengthSnoc(Insert(t, init, Longer), last, n);
    }
  }

  /** Terms of one length keep their configured order. */
  lemma {:induction false} SortIsStable(ts: seq<string>, n: nat)
    ensures OfLength(SortStable(ts), n) == OfLength(ts, n)
  {
    if ts != [] {
      SortIsStable(ts[..|ts| - 1], n);
      InsertStable(ts[|ts| - 1], SortStable(ts[..|ts| - 1]), n);
    }
  }

  predicate Covered(f: Fold, t: string, ts: seq<string>) {
    exists e | e in ts :: EqualFold(f, t, e)
  }

  /** Keeps the first term of each case-folding class. */
  function Distinct(f: Fold, ts: seq<string>): seq<string> {
    if ts == [] then [] else
      var before, last := Distinct(f, ts[..|ts| - 1]), ts[|ts| - 1];
      if Covered(f, last, before) then before else before + [last]
  }

  lemma {:induction false} DistinctFrom(f: Fold, ts: seq<string>, t: string)
    requires t in Distinct(f, ts)
    ensures t in ts
  {
    var n := |ts| - 1;
    if t in Distinct(f, ts[..n]) { DistinctFrom(f, ts[..n], t); }
  }

  lemma {:induction false} DistinctCovers(f: Fold, ts: seq<string>, t: string)
    requires t in ts
    ensures Covered(f, t, Distinct(f, ts))
  {
    var n := |ts| - 1;
    var before := Distinct(f, ts[..n]);
    if t in ts[..n] {
      DistinctCovers(f, ts[..n], t);
      var e :| e in before && EqualFold(f, t, e);
      assert e in Distinct(f, ts);
    } else {
      assert t == ts[n] && EqualFold(f, t, t);
      if !Covered(f, t, before) { assert t in before + [t]; }
    }
  }

  lemma {:induction false} DistinctLongestFirst(f: Fold, ts: seq<string>)
    requires LongestFirst(ts)
    ensures LongestFirst(Distinct(f, ts))
  {
    if ts != [] {
      var n := |ts| - 1;
      var before := Distinct(f, ts[..n]);
      DistinctLongestFirst(f, ts[..n]);
      forall k | 0 <= k < |before| ensures |before[k]| >= |ts[n]| {
        DistinctFrom(f, ts[..n], before[k]);
        var i :| 0 <= i < n && ts[i] == before[k];
      }
    }
  }

  /** No two kept terms fold to each other. */
  lemma {:induction false} DistinctApart(f: Fold, ts: seq<string>)
    ensures forall i, j | 0 <= i < j < |Distinct(f, ts)| :: !EqualFold(f, Distinct(f, ts)[j], Distinct(f, ts)[i])
  {
    if ts != [] { DistinctApart(f, ts[..|ts| - 1]); }
  }

  function Alternatives(f: Fold, terms: seq<string>): seq<string> {
    Distinct(f, SortStable(terms))
  }

  method Compile(f: Fold, terms: seq<string>) returns (alternatives: seq<string>)
    ensures alternatives == Alternatives(f, terms)
  {
    var ordered := SortStable(terms);
    alternatives := [];
    for i := 0 to |ordered|
      invariant alternatives == Distinct(f, ordered[..i])
    {
      assert ordered[..i + 1][..i] == ordered[..i];
      var duplicate := false;
      var j := 0;
      while j < |alternatives| && !duplicate
        invariant 0 <= j <= |alternatives|
        invariant duplicate ==> Covered(f, ordered[i], alternatives)
        invariant !duplicate ==> forall k | 0 <= k < j :: !EqualFold(f, ordered[i], alternatives[k])
        decreases |alternatives| - j, !duplicate
      {
        if EqualFold(f, ordered[i], alternatives[j]) { duplicate := true; } else { j := j + 1; }
      }
      if !duplicate { alternatives := alternatives + [ordered[i]]; }
    }
    assert ordered[..|ordered|] == ordered;
  }

  // ----- matching -----

  predicate Starts(f: Fold, t: string, s: string) {
    |t| <= |s| && forall k | 0 <= k < |t| :: SameFold(f, s[k], t[k])
  }

  ghost predicate Occurs(f: Fold, t: string, s: string) {
    exists i | 0 <= i <= |s| :: Starts(f, t, s[i..])
  }

  ghost predicate Clean(f: Fold, terms: seq<string>, s: string) {
    forall t | t in terms :: !Occurs(f, t, s)
  }

  /** The length of the first alternative that matches here, 0 if none does. */
  function MatchLen(f: Fold, alts: seq<string>, s: string): (n: nat)
    requires ValidTerms(alts)
    ensures n <= |s| && (n == 0 || n >= 2)
  {
    if alts == [] then 0
    else if Starts(f, alts[0], s) then assert Fault(alts[0]).None?; |alts[0]|
    else MatchLen(f, alts[1..], s)
  }

  lemma {:induction false} Matched(f: Fold, alts: seq<string>, s: string) returns (t: string)
    requires ValidTerms(alts) && MatchLen(f, alts, s) > 0
    ensures t in alts && Starts(f, t, s) && |t| == MatchLen(f, alts, s)
  {
    if Starts(f, alts[0], s) { t := alts[0]; } else { t := Matched(f, alts[1..], s); }
  }

  lemma {:induction false} Unmatched(f: Fold, alts: seq<string>, s: string, t: string)
    requires ValidTerms(alts) && MatchLen(f, alts, s) == 0 && t in alts
    ensures !Starts(f, t, s)
  {
    assert Fault(alts[0]).None?;
    if t != alts[0] { Unmatched(f, alts[1..], s, t); }
  }

  /** Leftmost matches, never overlapping; each gets a U+200B after its first rune. */
  function Pass(f: Fold, alts: seq<string>, s: string): (r: string)
    requires ValidTerms(alts)
    ensures s == "" <==> r == ""
    ensures s != "" ==> r[0] == s[0]
  {
    if s == "" then ""
    else
      var n := MatchLen(f, alts, s);
      if n == 0 then [s[0]] + Pass(f, alts, s[1..])
      else [s[0], ZWSP] + s[1..n] + Pass(f, alts, s[n..])
  }

  /** How many matches one pass rewrites. */
  function Hits(f: Fold, alts: seq<string>, s: string): nat
    requires ValidTerms(alts)
  {
    if s == "" then 0
    else
      var n := MatchLen(f, alts, s);
      if n == 0 then Hits(f, alts, s[1..]) else 1 + Hits(f, alts, s[n..])
  }

  lemma {:induction false} OccursLater(f: Fold, t: string, s: string, n: nat)
    requires n <= |s| && Occurs(f, t, s[n..])
    ensures Occurs(f, t, s)
  {}

  lemma {:induction false} OccursSplit(f: Fold, t: string, s: string)
    requires s != "" && Occurs(f, t, s) && !Starts(f, t, s)
    ensures Occurs(f, t, s[1..])
  {
    var i :| 0 <= i <= |s| && Starts(f, t, s[i..]);
    assert s[0..] == s;
    assert s[i..] == s[1..][i - 1..];
  }

  /** A text that starts with no alternative is clean exactly when its tail is. */
  lemma CleanTail(f: Fold, alts: seq<string>, s: string)
    requires ValidTerms(alts) && s != "" && MatchLen(f, alts, s) == 0
    ensures Clean(f, alts, s) <==> Clean(f, alts, s[1..])
  {
    forall t | t in alts ensures Occurs(f, t, s) <==> Occurs(f, t, s[1..]) {
      Unmatched(f, alts, s, t);
      if Occurs(f, t, s[1..]) { OccursLater(f, t, s, 1); }
      if Occurs(f, t, s) { OccursSplit(f, t, s); }
    }
  }

  /** A pass rewrites nothing exactly when no alternative occurs, and then returns the text itself. */
  lemma {:induction false} NoHitsMeansClean(f: Fold, alts: seq<string>, s: string)
    requires ValidTerms(alts)
    ensures Hits(f, alts, s) == 0 <==> Clean(f, alts, s)
    ensures Hits(f, alts, s) == 0 ==> Pass(f, alts, s) == s
    decreases |s|
  {
    if s == "" {
      forall t | t in alts ensures !Occurs(f, t, s) { assert Fault(t).None?; }
    } else if MatchLen(f, alts, s) > 0 {
      var t := Matched(f, alts, s);
      assert s[0..] == s;
      assert Occurs(f, t, s);
    } else {
      CleanTail(f, alts, s);
      NoHitsMeansClean(f, alts, s[1..]);
      assert [s[0]] + s[1..] == s;
    }
  }

  // ----- the measure -----

  function Joined(a: char, b: char): nat {
    if a != ZWSP && b != ZWSP then 1 else 0
  }

  /** Adjacent runes that are both something else than U+200B. */
  function Pairs(s: string): nat {
    if |s| < 2 then 0 else Joined(s[0], s[1]) + Pairs(s[1..])
  }

  lemma PairsCons(c: char, s: string)
    ensures Pairs([c] + s) == (if s == "" then 0 else Joined(c, s[0])) + Pairs(s)
  {}

  lemma {:induction false} PairsAppend(u: string, v: string, w: string)
    requires v == "" <==> w == ""
    requires v != "" ==> v[0] == w[0]
    ensures Pairs(u + v) + Pairs(w) == Pairs(u + w) + Pairs(v)
  {
    if u == "" {
      assert u + v == v && u + w == w;
    } else {
      PairsAppend(u[1..], v, w);
      assert (u + v)[1..] == u[1..] + v;
      assert (u + w)[1..] == u[1..] + w;
      assert |u + v| >= 2 <==> |u + w| >= 2;
      assert |u + v| >= 2 ==> (u + v)[1] == (u + w)[1];
    }
  }

  lemma MatchedRunesJoin(f: Fold, t: string, s: string)
    requires Fault(t).None? && Starts(f, t, s)
    ensures forall k | 0 <= k < |t| :: s[k] != ZWSP
  {}

  /** Parting a match after its first rune costs one pair. */
  lemma MatchBreaksPair(first: char, mid: string, after: string, rest: string)
    requires mid != "" && first != ZWSP && mid[0] != ZWSP
    requires after == "" <==> rest == ""
    requires rest != "" ==> after[0] == rest[0]
    ensures Pairs([first] + ([ZWSP] + (mid + rest))) + Pairs(after) + 1 == Pairs([first] + (mid + after)) + Pairs(rest)
  {
    PairsAppend(mid, after, rest);
    PairsCons(first, [ZWSP] + (mid + rest));
    PairsCons(ZWSP, mid + rest);
    PairsCons(first, mid + after);
  }

  lemma MatchIsJoined(f: Fold, alts: seq<string>, s: string)
    requires ValidTerms(alts) && s != "" && MatchLen(f, alts, s) > 0
    ensures s[0] != ZWSP && s[1] != ZWSP
  {
    var t := Matched(f, alts, s);
    assert Fault(t).None?;
    MatchedRunesJoin(f, t, s);
  }

  lemma Regroup(s: string, n: nat, rest: string)
    requires 1 <= n <= |s|
    ensures s == [s[0]] + (s[1..n] + s[n..])
    ensures [s[0], ZWSP] + s[1..n] + rest == [s[0]] + ([ZWSP] + (s[1..n] + rest))
  {}

  /** Every rewritten match costs exactly one adjacent pair: the termination argument of the loop. */
  lemma {:induction false} PassBreaksPairs(f: Fold, alts: seq<string>, s: string)
    requires ValidTerms(alts)
    ensures Pairs(Pass(f, alts, s)) + Hits(f, alts, s) == Pairs(s)
    decreases |s|
  {
    if s != "" {
      var n := MatchLen(f, alts, s);
      if n == 0 {
        PassBreaksPairs(f, alts, s[1..]);
        PairsCons(s[0], s[1..]);
        PairsCons(s[0], Pass(f, alts, s[1..]));
        assert [s[0]] + s[1..] == s;
      } else {
        PassBreaksPairs(f, alts, s[n..]);
        MatchIsJoined(f, alts, s);
        Regroup(s, n, Pass(f, alts, s[n..]));
        MatchBreaksPair(s[0], s[1..n], s[n..], Pass(f, alts, s[n..]));
      }
    }
  }

  // ----- nothing but U+200B is added -----

  function Erase(s: string): string {
    if s == "" then "" else (if s[0] == ZWSP then "" else [s[0]]) + Erase(s[1..])
  }

  ghost predicate SomeStarts(f: Fold, ts: seq<string>, s: string) {
    exists t | t in ts :: Starts(f, t, s)
  }

  /** `b` is `a` with U+200B inserted only right after runes at which some term starts. */
  ghost predicate Parted(f: Fold, ts: seq<string>, a: string, b: string)
    decreases |a|
  {
    if a == "" || b == "" then a == b
    else
      && a[0] == b[0]
      && (|| Parted(f, ts, a[1..], b[1..])
          || (|b| > 1 && b[1] == ZWSP && SomeStarts(f, ts, a) && Parted(f, ts, a[1..], b[2..])))
  }

  lemma {:induction false} PartedSelf(f: Fold, ts: seq<string>, s: string)
    ensures Parted(f, ts, s, s)
  {
    if s != "" { PartedSelf(f, ts, s[1..]); }
  }

  /** A term that starts in a parted text started there before: it cannot span an inserted U+200B. */
  lemma {:induction false} StartsThrough(f: Fold, ts: seq<string>, a: string, b: string, t: string)
    requires Parted(f, ts, a, b) && Starts(f, t, b) && ZWSP !in t
    ensures Starts(f, t, a)
  {
    if t != "" {
      assert t[0] in t;
      if |t| > 1 {
        assert t[1] in t && Starts(f, t[1..], b[1..]);
        StartsThrough(f, ts, a[1..], b[1..], t[1..]);
      }
    }
  }

  lemma PartedHere(f: Fold, ts: seq<string>, a: string, b: string)
    requires ValidTerms(ts) && Parted(f, ts, a, b) && SomeStarts(f, ts, b)
    ensures SomeStarts(f, ts, a) && |b| > 1 && b[1] != ZWSP
  {
    var t :| t in ts && Starts(f, t, b);
    assert Fault(t).None? && t[1] in t;
    StartsThrough(f, ts, a, b, t);
  }

  lemma NothingStartsAtZwsp(f: Fold, ts: seq<string>, s: string)
    requires ValidTerms(ts) && s != "" && s[0] == ZWSP
    ensures !SomeStarts(f, ts, s)
  {
    forall t | t in ts ensures !Starts(f, t, s) {
      assert Fault(t).None? && t[0] in t;
    }
  }

  lemma {:induction false} PartedTwice(f: Fold, ts: seq<string>, a: string, b: string, c: string)
    requires ValidTerms(ts) && Parted(f, ts, a, b) && Parted(f, ts, b, c)
    ensures Parted(f, ts, a, c)
    decreases |a|
  {
    if a != "" && b != "" && c != "" {
      if SomeStarts(f, ts, b) { PartedHere(f, ts, a, b); }
      if !Parted(f, ts, a[1..], b[1..]) {
        NothingStartsAtZwsp(f, ts, b[1..]);
        assert b[1..][1..] == b[2..] && c[1..][1..] == c[2..];
        PartedTwice(f, ts, a[1..], b[2..], c[2..]);
      } else if Parted(f, ts, b[1..], c[1..]) {
        PartedTwice(f, ts, a[1..], b[1..], c[1..]);
      } else {
        PartedTwice(f, ts, a[1..], b[1..], c[2..]);
      }
    }
  }

  lemma {:induction false} PartedErases(f: Fold, ts: seq<string>, a: string, b: string)
    requires Parted(f, ts, a, b)
    ensures Erase(a) == Erase(b) && |a| <= |b|
    decreases |a|
  {
    if a != "" && b != "" {
      if Parted(f, ts, a[1..], b[1..]) {
        PartedErases(f, ts, a[1..], b[1..]);
      } else {
        PartedErases(f, ts, a[1..], b[2..]);
        assert b[1..][1..] == b[2..];
      }
    }
  }

  lemma {:induction false} PartedPrefix(f: Fold, ts: seq<string>, u: string, a: string, b: string)
    requires Parted(f, ts, a, b)
    ensures Parted(f, ts, u + a, u + b)
  {
    if u == "" {
      assert u + a == a && u + b == b;
    } else {
      PartedPrefix(f, ts, u[1..], a, b);
      assert (u + a)[1..] == u[1..] + a && (u + b)[1..] == u[1..] + b;
    }
  }

  lemma MatchesExactly(f: Fold, alts: seq<string>, s: string)
    requires ValidTerms(alts)
    ensures MatchLen(f, alts, s) > 0 <==> SomeStarts(f, alts, s)
  {
    if MatchLen(f, alts, s) > 0 {
      var t := Matched(f, alts, s);
    } else {
      forall t | t in alts ensures !Starts(f, t, s) { Unmatched(f, alts, s, t); }
    }
  }

  lemma MatchParts(f: Fold, alts: seq<string>, s: string, n: nat, rest: string)
    requires ValidTerms(alts) && s != "" && SomeStarts(f, alts, s) && 1 <= n <= |s| && Parted(f, alts, s[n..], rest)
    ensures Parted(f, alts, s, [s[0], ZWSP] + s[1..n] + rest)
  {
    PartedPrefix(f, alts, s[1..n], s[n..], rest);
    assert s[1..n] + s[n..] == s[1..];
    var out := [s[0], ZWSP] + s[1..n] + rest;
    assert out[2..] == s[1..n] + rest;
  }

  lemma {:induction false} PassParts(f: Fold, alts: seq<string>, s: string)
    requires ValidTerms(alts)
    ensures Parted(f, alts, s, Pass(f, alts, s)) && |Pass(f, alts, s)| == |s| + Hits(f, alts, s)
    decreases |s|
  {
    if s != "" {
      var n := MatchLen(f, alts, s);
      if n == 0 {
        PassParts(f, alts, s[1..]);
        var out := Pass(f, alts, s);
        assert out[1..] == Pass(f, alts, s[1..]);
      } else {
        PassParts(f, alts, s[n..]);
        MatchesExactly(f, alts, s);
        MatchParts(f, alts, s, n, Pass(f, alts, s[n..]));
      }
    }
  }

  // ----- the first match -----

  /** `i` is the leftmost place where some term starts. */
  ghost predicate FirstAt(f: Fold, ts: seq<string>, s: string, i: nat) {
    i < |s| && SomeStarts(f, ts, s[i..]) && forall j | 0 <= j < i :: !SomeStarts(f, ts, s[j..])
  }

  /** No term starts in the first `n` runes. */
  ghost predicate Settled(f: Fold, ts: seq<string>, s: string, n: nat) {
    n <= |s| && forall j | 0 <= j < n :: !SomeStarts(f, ts, s[j..])
  }

  lemma SettledTail(f: Fold, ts: seq<string>, s: string, n: nat)
    requires n > 0 && Settled(f, ts, s, n)
    ensures !SomeStarts(f, ts, s) && Settled(f, ts, s[1..], n - 1)
  {
    assert s[0..] == s;
    forall j | 0 <= j < n - 1 ensures !SomeStarts(f, ts, s[1..][j..]) { assert s[1..][j..] == s[j + 1..]; }
  }

  lemma {:induction false} PassKeepsSettled(f: Fold, alts: seq<string>, s: string, n: nat)
    requires ValidTerms(alts) && Settled(f, alts, s, n)
    ensures Pass(f, alts, s) == s[..n] + Pass(f, alts, s[n..])
  {
    if n > 0 {
      SettledTail(f, alts, s, n);
      MatchesExactly(f, alts, s);
      PassKeepsSettled(f, alts, s[1..], n - 1);
      assert s[1..][n - 1..] == s[n..];
      assert s[..n] == [s[0]] + s[1..][..n - 1];
    }
  }

  /** A term that starts before a U+200B also ends before it. */
  lemma EndsBefore(f: Fold, t: string, s: string, j: nat, n: nat)
    requires Fault(t).None? && j <= n < |s| && s[n] == ZWSP && Starts(f, t, s[j..])
    ensures j + |t| <= n
  {
    var rest := s[j..];
    assert rest[n - j] == ZWSP;
  }

  lemma StartsLikewise(f: Fold, t: string, s: string, s': string, j: nat, n: nat)
    requires j + |t| <= n <= |s| && n <= |s'| && s'[..n] == s[..n] && Starts(f, t, s'[j..])
    ensures Starts(f, t, s[j..])
  {
    forall k | 0 <= k < |t| ensures SameFold(f, s[j..][k], t[k]) {
      assert s[j..][k] == s[..n][j + k] == s'[..n][j + k] == s'[j..][k];
    }
  }

  /** A text whose settled part ends in U+200B stays settled whatever comes after it. */
  lemma SettledStays(f: Fold, ts: seq<string>, s: string, s': string, n: nat)
    requires ValidTerms(ts) && Settled(f, ts, s, n) && 0 < n <= |s'| && s'[..n] == s[..n] && s[n - 1] == ZWSP
    ensures Settled(f, ts, s', n)
  {
    assert s'[n - 1] == s'[..n][n - 1];
    forall j, t | 0 <= j < n && t in ts && Starts(f, t, s'[j..]) ensures SomeStarts(f, ts, s[j..]) {
      EndsBefore(f, t, s', j, n - 1);
      StartsLikewise(f, t, s, s', j, n);
    }
  }

  /** Parting the first match settles everything up to the cut. */
  lemma CutSettles(f: Fold, ts: seq<string>, s: string, s': string, i: nat)
    requires ValidTerms(ts) && FirstAt(f, ts, s, i) && i + 2 <= |s'| && s'[..i + 2] == s[..i + 1] + [ZWSP]
    ensures Settled(f, ts, s', i + 2)
  {
    assert s'[i + 1] == s'[..i + 2][i + 1] == ZWSP;
    assert s'[..i + 1] == s'[..i + 2][..i + 1] == s[..i + 1];
    forall j, t | 0 <= j < i + 2 && t in ts ensures !Starts(f, t, s'[j..]) {
      assert Fault(t).None?;
      if Starts(f, t, s'[j..]) {
        EndsBefore(f, t, s', j, i + 1);
        StartsLikewise(f, t, s, s', j, i + 1);
        assert SomeStarts(f, ts, s[j..]);
      }
    }
  }

  // ----- rewriting until stable -----

  function Stable(f: Fold, alts: seq<string>, s: string): string
    requires ValidTerms(alts)
    decreases Pairs(s)
  {
    PassBreaksPairs(f, alts, s);
    if Hits(f, alts, s) == 0 then s else Stable(f, alts, Pass(f, alts, s))
  }

  /** The loop ends for every text and list of alternatives, and its result is the stable text. */
  method Replace(f: Fold, alts: seq<string>, text: string) returns (out: string)
    requires ValidTerms(alts)
    ensures out == Stable(f, alts, text)
  {
    out := text;
    if alts == [] || text == "" {
      NoHitsMeansClean(f, alts, text);
      return;
    }
    while true
      invariant Stable(f, alts, out) == Stable(f, alts, text)
      decreases Pairs(out)
    {
      PassBreaksPairs(f, alts, out);
      var next, changed := Pass(f, alts, out), Hits(f, alts, out) > 0;
      if !changed { return; }
      out := next;
    }
  }

  lemma {:induction false} StableKeepsSettled(f: Fold, alts: seq<string>, s: string, n: nat)
    requires ValidTerms(alts) && Settled(f, alts, s, n) && 0 < n && s[n - 1] == ZWSP
    ensures |Stable(f, alts, s)| >= n && Stable(f, alts, s)[..n] == s[..n]
    decreases Pairs(s)
  {
    PassBreaksPairs(f, alts, s);
    if Hits(f, alts, s) > 0 {
      var next := Pass(f, alts, s);
      PassKeepsSettled(f, alts, s, n);
      assert next[..n] == s[..n];
      SettledStays(f, alts, s, next, n);
      StableKeepsSettled(f, alts, next, n);
    }
  }

  /** The text up to the first match comes out as it was, and the match is parted after its first rune. */
  lemma FirstMatchIsParted(f: Fold, alts: seq<string>, s: string, i: nat)
    requires ValidTerms(alts) && FirstAt(f, alts, s, i)
    ensures |Stable(f, alts, s)| > i + 1 && Stable(f, alts, s)[..i + 2] == s[..i + 1] + [ZWSP]
  {
    FirstPass(f, alts, s, i);
    PassBreaksPairs(f, alts, s);
    CutStays(f, alts, s, Pass(f, alts, s), i);
  }

  lemma CutStays(f: Fold, alts: seq<string>, s: string, next: string, i: nat)
    requires ValidTerms(alts) && FirstAt(f, alts, s, i) && i + 2 <= |next| && next[..i + 2] == s[..i + 1] + [ZWSP]
    ensures |Stable(f, alts, next)| > i + 1 && Stable(f, alts, next)[..i + 2] == s[..i + 1] + [ZWSP]
  {
    CutSettles(f, alts, s, next, i);
    assert next[i + 1] == next[..i + 2][i + 1];
    StableKeepsSettled(f, alts, next, i + 2);
  }

  lemma FirstPass(f: Fold, alts: seq<string>, s: string, i: nat)
    requires ValidTerms(alts) && FirstAt(f, alts, s, i)
    ensures var out := Pass(f, alts, s); |out| > i + 1 && out[..i + 2] == s[..i + 1] + [ZWSP]
    ensures Hits(f, alts, s) > 0
  {
    PassKeepsSettled(f, alts, s, i);
    MatchIsCut(f, alts, s[i..]);
    OccurrenceHits(f, alts, s, i);
    CutAfter(s, Pass(f, alts, s[i..]), i);
  }

  lemma MatchIsCut(f: Fold, alts: seq<string>, s: string)
    requires ValidTerms(alts) && s != "" && SomeStarts(f, alts, s)
    ensures |Pass(f, alts, s)| >= 2 && Pass(f, alts, s)[..2] == [s[0], ZWSP]
  {
    MatchesExactly(f, alts, s);
  }

  lemma OccurrenceHits(f: Fold, alts: seq<string>, s: string, i: nat)
    requires ValidTerms(alts) && i < |s| && SomeStarts(f, alts, s[i..])
    ensures Hits(f, alts, s) > 0
  {
    var t :| t in alts && Starts(f, t, s[i..]);
    assert Occurs(f, t, s);
    NoHitsMeansClean(f, alts, s);
  }

  lemma CutAfter(s: string, tail: string, i: nat)
    requires i < |s| && |tail| >= 2 && tail[..2] == [s[i..][0], ZWSP]
    ensures |s[..i] + tail| > i + 1 && (s[..i] + tail)[..i + 2] == s[..i + 1] + [ZWSP]
  {
    assert (s[..i] + tail)[..i + 2] == s[..i] + tail[..2];
  }

  /** No alternative is left; U+200B was inserted only after first runes of occurrences, and each one inserted
      parted exactly one pair. */
  lemma {:induction false} StableMeaning(f: Fold, alts: seq<string>, s: string)
    requires ValidTerms(alts)
    ensures var out := Stable(f, alts, s);
            Clean(f, alts, out) && Parted(f, alts, s, out) && |out| - |s| == Pairs(s) - Pairs(out)
    decreases Pairs(s)
  {
    PassBreaksPairs(f, alts, s);
    NoHitsMeansClean(f, alts, s);
    if Hits(f, alts, s) == 0 {
      PartedSelf(f, alts, s);
    } else {
      var next := Pass(f, alts, s);
      StableMeaning(f, alts, next);
      PassParts(f, alts, s);
      PartedTwice(f, alts, s, next, Stable(f, alts, next));
    }
  }

  /** Rewriting changes a text exactly when some alternative occurs in it; a second run changes nothing. */
  lemma {:induction false} StableIsFixpoint(f: Fold, alts: seq<string>, s: string)
    requires ValidTerms(alts)
    ensures Stable(f, alts, s) == s <==> Clean(f, alts, s)
    ensures Stable(f, alts, Stable(f, alts, s)) == Stable(f, alts, s)
  {
    StableMeaning(f, alts, s);
    NoHitsMeansClean(f, alts, s);
    NoHitsMeansClean(f, alts, Stable(f, alts, s));
  }

  /** One pass is not enough: overlapping occurrences survive it. */
  lemma OnePassLeavesOverlap()
    ensures ValidTerms(["aa"])
    ensures !Clean((c: char) => c, ["aa"], Pass((c: char) => c, ["aa"], "aaaa"))
  {
    var f: Fold := (c: char) => c;
    var alts, s := ["aa"], "aaaa";
    assert MatchLen(f, alts, s) == 2 && s[2..] == "aa" && s[1..2] == "a";
    assert MatchLen(f, alts, "aa") == 2;
    var out := Pass(f, alts, s);
    assert Pass(f, alts, "aa") == ['a', ZWSP] + "aa"[1..2] + Pass(f, alts, "aa"[2..]);
    assert out == ['a', ZWSP, 'a', 'a', ZWSP, 'a'];
    assert Starts(f, "aa", out[2..]);
    assert Occurs(f, "aa", out);
  }
}
