/** Listing the holds: rows collected in any map order are sorted in place by account and model. */
module CooldownListing {
  import opened Sorting
  import opened TextOrder
  import opened QuotaHold

  datatype Row = Row(key: Key, hold: Hold)

  predicate RowLess(a: Row, b: Row) {
    Less(a.key.auth, b.key.auth) || (a.key.auth == b.key.auth && Less(a.key.model, b.key.model))
  }

  lemma RowLessTotal(a: Row, b: Row)
    ensures a.key == b.key || RowLess(a, b) || RowLess(b, a)
    ensures RowLess(a, b) ==> !RowLess(b, a) && a.key != b.key
  {
    LessTotal(a.key.auth, b.key.auth);
    LessTotal(a.key.model, b.key.model);
    if RowLess(a, b) {
      if Less(a.key.auth, b.key.auth) { LessAsymmetric(a.key.auth, b.key.auth); } else { LessAsymmetric(a.key.model, b.key.model); }
    }
  }

  lemma RowLessTransitive(a: Row, b: Row, c: Row)
    requires RowLess(a, b) && RowLess(b, c)
    ensures RowLess(a, c)
  {
    if Less(a.key.auth, b.key.auth) && Less(b.key.auth, c.key.auth) { LessTransitive(a.key.auth, b.key.auth, c.key.auth); }
    if Less(a.key.model, b.key.model) && Less(b.key.model, c.key.model) { LessTransitive(a.key.model, b.key.model, c.key.model); }
  }

  /** The sort of the listing, by swaps of neighbours. */
  method SortCooldownSnapshotByAuth(rows: array<Row>)
    modifies rows
    ensures rows[..] == Sort(old(rows[..]), RowLess)
  {
    ghost var was := rows[..];
    if rows.Length > 0 { FirstIsSorted(was); }
    var i := 1;
    while i < rows.Length
      invariant 1 <= i && (i <= rows.Length || rows.Length == 0)
      invariant rows.Length > 0 ==> rows[..] == SortedUpTo(was, i)
    {
      NextRow(was, i);
      assert rows[i] == rows[..][i] && rows[..i] == rows[..][..i] && rows[i + 1..] == rows[..][i + 1..];
      InsertRow(rows, i);
      i := i + 1;
    }
    if rows.Length > 0 { assert was[..rows.Length] == was && was[rows.Length..] == []; }
  }

  function SortedUpTo(was: seq<Row>, i: nat): (r: seq<Row>)
    requires i <= |was|
    ensures |r| == |was|
  {
    Sort(was[..i], RowLess) + was[i..]
  }

  lemma FirstIsSorted(was: seq<Row>)
    requires was != []
    ensures SortedUpTo(was, 1) == was
  {}

  lemma NextRow(was: seq<Row>, i: nat)
    requires 0 < i < |was|
    ensures var now := SortedUpTo(was, i);
            SortedUpTo(was, i + 1) == Insert(now[i], now[..i], RowLess) + now[i + 1..]
  {
    assert was[..i + 1][..i] == was[..i];
  }

  method OutOfOrder(a: Row, b: Row) returns (swap: bool)
    ensures swap == RowLess(b, a)
  {
    RowLessTotal(a, b);
    if Less(a.key.auth, b.key.auth) { return false; }
    if Less(b.key.auth, a.key.auth) { return true; }
    LessTotal(a.key.auth, b.key.auth);
    swap := Less(b.key.model, a.key.model);
  }

  /** `x` on its way left through the sorted rows `s`, now at `j`; the greater rows have moved up by one. */
  ghost predicate Moving(now: seq<Row>, j: nat, x: Row, s: seq<Row>, after: seq<Row>) {
    && j <= |s| && now == s[..j] + [x] + s[j..] + after
    && Insert(x, s, RowLess) == Insert(x, s[..j], RowLess) + s[j..]
  }

  lemma MoveLeft(now: seq<Row>, j: nat, x: Row, s: seq<Row>, after: seq<Row>)
    requires 0 < j && Moving(now, j, x, s, after) && RowLess(x, s[j - 1])
    ensures now[j - 1] == s[j - 1] && now[j] == x
    ensures Moving(now[j - 1 := x][j := s[j - 1]], j - 1, x, s, after)
  {
    assert s[..j][..j - 1] == s[..j - 1];
    assert s[j - 1..] == [s[j - 1]] + s[j..];
  }

  method InsertRow(rows: array<Row>, i: nat)
    requires i < rows.Length
    modifies rows
    ensures rows[..] == Insert(old(rows[i]), old(rows[..i]), RowLess) + old(rows[i + 1..])
  {
    ghost var x, s, after := rows[i], rows[..i], rows[i + 1..];
    var j: nat := i;
    assert s[..i] == s && s[i..] == [] && rows[..] == s + [x] + after;
    while j > 0
      invariant j <= i < rows.Length && Moving(rows[..], j, x, s, after)
    {
      assert rows[j - 1] == rows[..][j - 1] == s[j - 1] && rows[j] == rows[..][j] == x;
      var swap := OutOfOrder(rows[j - 1], rows[j]);
      if !swap { break; }
      MoveLeft(rows[..], j, x, s, after);
      rows[j - 1], rows[j] := rows[j], rows[j - 1];
      j := j - 1;
    }
    assert j > 0 ==> s[..j][|s[..j]| - 1] == s[j - 1];
    assert Insert(x, s[..j], RowLess) == s[..j] + [x];
  }

  // ----- the listing does not depend on the order of the map -----

  predicate DistinctKeys(s: seq<Row>) {
    forall i, j | 0 <= i < j < |s| :: s[i].key != s[j].key
  }

  lemma RowLessIsStrict()
    ensures StrictOrder(RowLess)
  {
    forall a, b | RowLess(a, b) ensures !RowLess(b, a) { RowLessTotal(a, b); }
    forall a, b, c | RowLess(a, b) && RowLess(b, c) ensures RowLess(a, c) { RowLessTransitive(a, b, c); }
  }

  lemma KeysAreComparable(s: seq<Row>)
    requires DistinctKeys(s)
    ensures Comparable(s, RowLess)
  {
    forall i, j | 0 <= i < j < |s| ensures RowLess(s[i], s[j]) || RowLess(s[j], s[i]) { RowLessTotal(s[i], s[j]); }
  }

  /** By account, and within an account by model. */
  predicate InOrder(k: Key, l: Key) {
    if k.auth == l.auth then Less(k.model, l.model) else Less(k.auth, l.auth)
  }

  lemma RowsInOrder(a: Row, b: Row)
    ensures RowLess(a, b) <==> InOrder(a.key, b.key)
  {
    if a.key.auth == b.key.auth && Less(a.key.auth, b.key.auth) { LessAsymmetric(a.key.auth, b.key.auth); }
  }

  /** Two walks over the same map list the same rows in the same order: ascending by account, then model. */
  lemma ListingIsDeterministic(a: seq<Row>, b: seq<Row>)
    requires DistinctKeys(a) && DistinctKeys(b) && forall y :: y in a <==> y in b
    ensures Sort(a, RowLess) == Sort(b, RowLess)
    ensures forall i, j | 0 <= i < j < |a| :: InOrder(Sort(a, RowLess)[i].key, Sort(a, RowLess)[j].key)
    ensures forall y :: y in Sort(a, RowLess) <==> y in a
  {
    RowLessIsStrict();
    KeysAreComparable(a);
    KeysAreComparable(b);
    SortAscends(a, RowLess);
    SortIsCanonical(a, b, RowLess);
    forall y ensures y in Sort(a, RowLess) <==> y in a { SortHas(a, RowLess, y); }
    forall i, j | 0 <= i < j < |a| ensures InOrder(Sort(a, RowLess)[i].key, Sort(a, RowLess)[j].key) {
      RowsInOrder(Sort(a, RowLess)[i], Sort(a, RowLess)[j]);
    }
  }
}
