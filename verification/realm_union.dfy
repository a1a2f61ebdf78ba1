/** Merging what several accounts of a realm report: the same item always comes from the same account. */
module RealmUnion {
  import opened Basics
  import opened TextOrder

  datatype Source = Source(fetched: int, auth: string)

  datatype Sourced<V> = Sourced(value: V, source: Source)

  /** An item under its trimmed ID. */
  datatype Item<V> = Item(id: string, value: V)

  datatype Offer<V> = Offer(source: Source, items: seq<Item<V>>)

  /** The newest fetch wins, then the smallest auth ID. */
  predicate SourceWins(candidate: Source, current: Source) {
    candidate.auth != current.auth
    && if candidate.fetched != current.fetched then candidate.fetched > current.fetched else Less(candidate.auth, current.auth)
  }

  function AddItem<V>(m: map<string, Sourced<V>>, item: Item<V>, s: Source): map<string, Sourced<V>> {
    if item.id == "" then m
    else if item.id !in m || SourceWins(s, m[item.id].source) then m[item.id := Sourced(item.value, s)] else m
  }

  function AddItems<V>(m: map<string, Sourced<V>>, items: seq<Item<V>>, s: Source): map<string, Sourced<V>> {
    if items == [] then m else AddItem(AddItems(m, items[..|items| - 1], s), items[|items| - 1], s)
  }

  function Union<V>(offers: seq<Offer<V>>): map<string, Sourced<V>> {
    if offers == [] then map[] else
      var o := offers[|offers| - 1];
      AddItems(Union(offers[..|offers| - 1]), o.items, o.source)
  }

  /** What one account says of an ID: its first item of that ID. */
  function Said<V>(items: seq<Item<V>>, id: string): Option<V> {
    if items == [] then None else
      var before, last := Said(items[..|items| - 1], id), items[|items| - 1];
      if before.Some? then before else if last.id == id then Some(last.value) else None
  }

  predicate Distinct<V>(offers: seq<Offer<V>>) {
    forall i, j | 0 <= i < j < |offers| :: offers[i].source.auth != offers[j].source.auth
  }

  lemma SourceWinsTotal(a: Source, b: Source)
    ensures a.auth == b.auth || SourceWins(a, b) || SourceWins(b, a)
    ensures SourceWins(a, b) ==> !SourceWins(b, a)
  {
    LessTotal(a.auth, b.auth);
    if Less(a.auth, b.auth) { LessAsymmetric(a.auth, b.auth); }
  }

  lemma SourceWinsTransitive(a: Source, b: Source, c: Source)
    requires SourceWins(a, b) && SourceWins(b, c) && a.auth != c.auth
    ensures SourceWins(a, c)
  {
    if a.fetched == b.fetched == c.fetched { LessTransitive(a.auth, b.auth, c.auth); }
  }

  /** One account's items change an ID exactly when it says something of it and wins there. */
  lemma {:induction false} AddItemsAt<V>(m: map<string, Sourced<V>>, items: seq<Item<V>>, s: Source, id: string)
    requires id in m ==> m[id].source.auth != s.auth
    ensures var n, said := AddItems(m, items, s), Said(items, id);
            if id != "" && said.Some? && (id !in m || SourceWins(s, m[id].source)) then id in n && n[id] == Sourced(said.value, s)
            else (id in n <==> id in m) && (id in m ==> n[id] == m[id])
  {
    if items != [] {
      AddItemsAt(m, items[..|items| - 1], s, id);
    }
  }

  predicate Speaks<V>(o: Offer<V>, id: string) {
    id != "" && Said(o.items, id).Some?
  }

  /** Nobody who speaks of the ID beats `o`. */
  ghost predicate Best<V(!new)>(offers: seq<Offer<V>>, o: Offer<V>, id: string) {
    && o in offers && Speaks(o, id)
    && forall p | p in offers && Speaks(p, id) && p.source.auth != o.source.auth :: SourceWins(o.source, p.source)
  }

  lemma {:induction false} UnionKnown<V>(offers: seq<Offer<V>>, id: string) returns (o: Offer<V>)
    requires id in Union(offers)
    ensures o in offers && Speaks(o, id) && Union(offers)[id] == Sourced(Said(o.items, id).value, o.source)
  {
    var n := |offers| - 1;
    var m, last := Union(offers[..n]), offers[n];
    if id in m {
      o := UnionKnown(offers[..n], id);
      if o.source.auth == last.source.auth { SameAccountAdds(m, last.items, last.source, id); }
      else { AddItemsAt(m, last.items, last.source, id); }
      if Union(offers)[id] != m[id] { o := last; }
    } else {
      AddItemsAt(m, last.items, last.source, id);
      o := last;
    }
  }

  lemma {:induction false} SameAccountAdds<V>(m: map<string, Sourced<V>>, items: seq<Item<V>>, s: Source, id: string)
    requires id in m && m[id].source.auth == s.auth
    ensures id in AddItems(m, items, s) && AddItems(m, items, s)[id] == m[id]
  {
    if items != [] { SameAccountAdds(m, items[..|items| - 1], s, id); }
  }

  lemma {:induction false} UnionHas<V>(offers: seq<Offer<V>>, o: Offer<V>, id: string)
    requires Distinct(offers) && o in offers && Speaks(o, id)
    ensures id in Union(offers) && (Union(offers)[id].source == o.source || SourceWins(Union(offers)[id].source, o.source))
  {
    var n := |offers| - 1;
    var init, last := offers[..n], offers[n];
    var m := Union(init);
    if id in m {
      var w := UnionKnown(init, id);
      assert w in init;
      var j :| 0 <= j < n && init[j] == w;
      assert offers[j] == w;
    }
    AddItemsAt(m, last.items, last.source, id);
    if o in init {
      UnionHas(init, o, id);
      var k :| 0 <= k < n && init[k] == o;
      assert offers[k] == o;
      if Union(offers)[id] != m[id] && m[id].source != o.source { SourceWinsTransitive(last.source, m[id].source, o.source); }
    } else {
      assert o == last;
      if id in m { SourceWinsTotal(last.source, m[id].source); }
    }
  }

  /** The kept copy of an ID is that of the account with the newest fetch, and among those of the smallest
      auth ID; an ID is kept exactly when some account speaks of it. */
  lemma UnionIsBest<V(!new)>(offers: seq<Offer<V>>, id: string)
    requires Distinct(offers)
    ensures id in Union(offers) <==> exists o | o in offers :: Speaks(o, id)
    ensures id in Union(offers) ==> exists o | Best(offers, o, id) :: Union(offers)[id] == Sourced(Said(o.items, id).value, o.source)
  {
    forall o | o in offers && Speaks(o, id) ensures id in Union(offers) { UnionHas(offers, o, id); }
    if id in Union(offers) {
      var o := UnionKnown(offers, id);
      forall p | p in offers && Speaks(p, id) && p.source.auth != o.source.auth ensures SourceWins(o.source, p.source) {
        UnionHas(offers, p, id);
      }
      assert Best(offers, o, id);
    }
  }

  lemma SameBest<V(!new)>(xs: seq<Offer<V>>, ys: seq<Offer<V>>, a: Offer<V>, b: Offer<V>, id: string)
    requires Distinct(xs) && Best(xs, a, id) && Best(ys, b, id) && forall o :: o in xs <==> o in ys
    ensures a == b
  {
    assert b in xs && a in ys;
    SourceWinsTotal(a.source, b.source);
    var i, j :| 0 <= i < |xs| && 0 <= j < |xs| && xs[i] == a && xs[j] == b;
  }

  /** The union does not depend on the order in which the accounts are listed. */
  lemma UnionIgnoresOrder<V(!new)>(xs: seq<Offer<V>>, ys: seq<Offer<V>>)
    requires Distinct(xs) && Distinct(ys) && forall o :: o in xs <==> o in ys
    ensures Union(xs) == Union(ys)
  {
    forall id ensures (id in Union(xs) <==> id in Union(ys)) && (id in Union(xs) ==> Union(xs)[id] == Union(ys)[id]) {
      UnionIsBest(xs, id);
      UnionIsBest(ys, id);
      if id in Union(xs) && id in Union(ys) {
        var a :| Best(xs, a, id) && Union(xs)[id] == Sourced(Said(a.items, id).value, a.source);
        var b :| Best(ys, b, id) && Union(ys)[id] == Sourced(Said(b.items, id).value, b.source);
        SameBest(xs, ys, a, b, id);
      }
    }
  }
}
