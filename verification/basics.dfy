/** Small shared vocabulary: optional values and blank text. */
module Basics {
  datatype Option<+T> = None | Some(value: T)

  /** Unicode white space, as trimming sees it. U+200B is not white space. */
  predicate IsSpace(c: char) {
    var u := c as int;
    (9 <= u <= 13) || u == 0x20 || u == 0x85 || u == 0xA0 || u == 0x1680 || (0x2000 <= u <= 0x200A)
    || u == 0x2028 || u == 0x2029 || u == 0x202F || u == 0x205F || u == 0x3000
  }

  /** Where the text starts, from `i` on. */
  function Start(s: string, i: nat): (r: nat)
    requires i <= |s|
    ensures i <= r <= |s| && (r < |s| ==> !IsSpace(s[r]))
    decreases |s| - i
  {
    if i < |s| && IsSpace(s[i]) then Start(s, i + 1) else i
  }

  /** Where it ends, up to `j`. */
  function End(s: string, j: nat): (r: nat)
    requires j <= |s|
    ensures r <= j && (r > 0 ==> !IsSpace(s[r - 1]))
  {
    if j > 0 && IsSpace(s[j - 1]) then End(s, j - 1) else j
  }

  predicate NoOuterSpace(t: string) {
    t == "" || (!IsSpace(t[0]) && !IsSpace(t[|t| - 1]))
  }

  function TrimSpace(s: string): (t: string)
    ensures |t| <= |s| && NoOuterSpace(t)
  {
    var i, j := Start(s, 0), End(s, |s|);
    if i < j then s[i..j] else ""
  }

  lemma TrimmedAlready(t: string)
    requires NoOuterSpace(t)
    ensures TrimSpace(t) == t
  {}

  /** Nothing is left after trimming. */
  predicate Blank(s: string) {
    forall c | c in s :: IsSpace(c)
  }

  lemma {:induction false} StartSkipsSpace(s: string, i: nat)
    requires i <= |s|
    ensures forall k | i <= k < Start(s, i) :: IsSpace(s[k])
    decreases |s| - i
  {
    if i < |s| && IsSpace(s[i]) { StartSkipsSpace(s, i + 1); }
  }

  lemma {:induction false} EndSkipsSpace(s: string, j: nat)
    requires j <= |s|
    ensures forall k | End(s, j) <= k < j :: IsSpace(s[k])
  {
    if j > 0 && IsSpace(s[j - 1]) { EndSkipsSpace(s, j - 1); }
  }

  lemma BlankMeaning(s: string)
    ensures Blank(s) <==> TrimSpace(s) == ""
  {
    StartSkipsSpace(s, 0);
    EndSkipsSpace(s, |s|);
    assert Start(s, 0) < |s| ==> s[Start(s, 0)] in s;
  }

  lemma ThreeParts(s: string, i: nat, j: nat)
    requires i <= j <= |s|
    ensures s == s[..i] + s[i..j] + s[j..]
  {}

  /** Trimming takes white space from both ends and nothing else. */
  lemma TrimMeaning(s: string) returns (lead: string, trail: string)
    ensures s == lead + TrimSpace(s) + trail && Blank(lead) && Blank(trail)
  {
    var i, j := Start(s, 0), End(s, |s|);
    if i < j {
      StartSkipsSpace(s, 0);
      EndSkipsSpace(s, |s|);
      ThreeParts(s, i, j);
      lead, trail := s[..i], s[j..];
    } else {
      BlankMeaning(s);
      AllBlank(s);
      lead, trail := s, "";
    }
  }

  lemma AllBlank(s: string)
    requires Start(s, 0) >= End(s, |s|)
    ensures TrimSpace(s) == ""
  {}

  // ----- lists of names -----

  /** The distinct nonblank entries of `raw`, trimmed, in order of first occurrence. */
  function Trimmed(raw: seq<string>): seq<string> {
    if raw == [] then [] else AddTerm(Trimmed(raw[..|raw| - 1]), TrimSpace(raw[|raw| - 1]))
  }

  function AddTerm(terms: seq<string>, t: string): seq<string> {
    if t == "" || t in terms then terms else terms + [t]
  }

  lemma {:induction false} TrimmedHas(raw: seq<string>, r: string)
    requires r in raw && TrimSpace(r) != ""
    ensures TrimSpace(r) in Trimmed(raw)
  {
    var n := |raw| - 1;
    if r in raw[..n] {
      TrimmedHas(raw[..n], r);
    } else {
      assert raw == raw[..n] + [raw[n]];
      assert r == raw[n];
    }
  }

  lemma {:induction false} TrimmedFrom(raw: seq<string>, t: string) returns (r: string)
    requires t in Trimmed(raw)
    ensures t != "" && r in raw && t == TrimSpace(r)
  {
    var n := |raw| - 1;
    if t in Trimmed(raw[..n]) { r := TrimmedFrom(raw[..n], t); } else { r := raw[n]; }
  }

  lemma {:induction false} TrimmedDistinct(raw: seq<string>)
    ensures forall i, j | 0 <= i < j < |Trimmed(raw)| :: Trimmed(raw)[i] != Trimmed(raw)[j]
  {
    if raw != [] { TrimmedDistinct(raw[..|raw| - 1]); }
  }

  lemma TrimmedPrefix(raw: seq<string>, n: nat)
    requires n < |raw|
    ensures Trimmed(raw[..n + 1]) == AddTerm(Trimmed(raw[..n]), TrimSpace(raw[n]))
  {
    assert raw[..n + 1][..n] == raw[..n];
  }

  /** The names come in the order of their first occurrence: a longer list only adds to them. */
  lemma {:induction false} TrimmedGrows(raw: seq<string>, k: nat)
    requires k <= |raw|
    ensures Trimmed(raw[..k]) <= Trimmed(raw)
  {
    if k < |raw| {
      assert raw[..|raw| - 1][..k] == raw[..k];
      TrimmedGrows(raw[..|raw| - 1], k);
    } else {
      assert raw[..k] == raw;
    }
  }
}
