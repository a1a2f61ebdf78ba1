/** The realm catalog of the panel: one selection per realm, and one row per model across the realms. */
module RealmCatalog {
  import opened Basics
  import opened Sorting
  import opened TextOrder
  import opened RealmUnion

  datatype Realm = Cn | Global | Unreported

  datatype Fact = Fact(name: string, details: string)

  /** `report` is the state and source a snapshot was published with. */
  datatype Snapshot = Snapshot(realm: Realm, executable: bool, fetched: int, report: string, facts: seq<Item<Fact>>, campaigns: seq<Item<string>>)

  datatype Account = Account(auth: string, snapshot: Snapshot)

  /** `order` lists the IDs of `facts` as first seen. */
  datatype Selection = Selection(
    facts: map<string, Sourced<Fact>>, order: seq<string>,
    campaigns: map<string, Sourced<string>>, campaignOrder: seq<string>,
    display: Option<Account>, loaded: bool)

  const EMPTY := Selection(map[], [], map[], [], None, false)

  function SourceOf(a: Account): Source {
    Source(a.snapshot.fetched, a.auth)
  }

  predicate Usable(a: Account) {
    a.snapshot.executable && a.snapshot.facts != []
  }

  /** An executable snapshot is shown before a failed one, then the newest, then the smallest auth ID. */
  predicate ShownBefore(a: Account, b: Account) {
    if a.snapshot.executable != b.snapshot.executable then a.snapshot.executable
    else SourceWins(SourceOf(a), SourceOf(b))
  }

  function AddIds<V>(order: seq<string>, items: seq<Item<V>>): seq<string> {
    if items == [] then order else
      var before, id := AddIds(order, items[..|items| - 1]), items[|items| - 1].id;
      if id == "" || id in before then before else before + [id]
  }

  function AddAccount(s: Selection, a: Account): Selection {
    var merged := if !Usable(a) then s else
                    s.(facts := AddItems(s.facts, a.snapshot.facts, SourceOf(a)), order := AddIds(s.order, a.snapshot.facts),
                       campaigns := AddItems(s.campaigns, a.snapshot.campaigns, SourceOf(a)),
                       campaignOrder := AddIds(s.campaignOrder, a.snapshot.campaigns), loaded := true);
    if s.display.None? || ShownBefore(a, s.display.value) then merged.(display := Some(a)) else merged
  }

  function Select(files: seq<Account>, realm: Realm): Selection {
    if files == [] then EMPTY else
      var before, last := Select(files[..|files| - 1], realm), files[|files| - 1];
      if last.snapshot.realm == realm then AddAccount(before, last) else before
  }

  // ----- selecting, step by step -----

  /** The order list holds exactly the merged IDs, each once. */
  ghost predicate Tracks<V>(m: map<string, Sourced<V>>, order: seq<string>) {
    (forall id :: id in m <==> id in order) && forall i, j | 0 <= i < j < |order| :: order[i] != order[j]
  }

  lemma {:induction false} AddItemsTracks<V>(m: map<string, Sourced<V>>, order: seq<string>, items: seq<Item<V>>, s: Source)
    requires Tracks(m, order)
    ensures Tracks(AddItems(m, items, s), AddIds(order, items))
  {
    if items != [] { AddItemsTracks(m, order, items[..|items| - 1], s); }
  }

  method MergeItems<V>(m: map<string, Sourced<V>>, order: seq<string>, items: seq<Item<V>>, s: Source)
    returns (merged: map<string, Sourced<V>>, ids: seq<string>)
    requires Tracks(m, order)
    ensures merged == AddItems(m, items, s) && ids == AddIds(order, items)
  {
    merged, ids := m, order;
    for k := 0 to |items|
      invariant merged == AddItems(m, items[..k], s) && ids == AddIds(order, items[..k])
    {
      assert items[..k + 1][..k] == items[..k];
      AddItemsTracks(m, order, items[..k], s);
      var id := items[k].id;
      if id == "" { continue; }
      if id !in merged {
        merged := merged[id := Sourced(items[k].value, s)];
        ids := ids + [id];
      } else if SourceWins(s, merged[id].source) {
        merged := merged[id := Sourced(items[k].value, s)];
      }
    }
    assert items[..|items|] == items;
  }

  lemma {:induction false} SelectTracks(files: seq<Account>, realm: Realm)
    ensures var s := Select(files, realm); Tracks(s.facts, s.order) && Tracks(s.campaigns, s.campaignOrder)
  {
    if files != [] {
      var s, a := Select(files[..|files| - 1], realm), files[|files| - 1];
      SelectTracks(files[..|files| - 1], realm);
      AddItemsTracks(s.facts, s.order, a.snapshot.facts, SourceOf(a));
      AddItemsTracks(s.campaigns, s.campaignOrder, a.snapshot.campaigns, SourceOf(a));
    }
  }

  method SelectAccount(s: Selection, a: Account) returns (r: Selection)
    requires Tracks(s.facts, s.order) && Tracks(s.campaigns, s.campaignOrder)
    ensures r == AddAccount(s, a)
  {
    r := s;
    if a.snapshot.executable && |a.snapshot.facts| > 0 {
      var facts, order := MergeItems(s.facts, s.order, a.snapshot.facts, SourceOf(a));
      var campaigns, campaignOrder := MergeItems(s.campaigns, s.campaignOrder, a.snapshot.campaigns, SourceOf(a));
      r := Selection(facts, order, campaigns, campaignOrder, s.display, true);
    }
    if s.display.None? || ShownBefore(a, s.display.value) { r := r.(display := Some(a)); }
  }

  method PanelRealmSelections(files: seq<Account>) returns (cn: Selection, global: Selection)
    ensures cn == Select(files, Cn) && global == Select(files, Global)
  {
    cn, global := EMPTY, EMPTY;
    for k := 0 to |files|
      invariant cn == Select(files[..k], Cn) && global == Select(files[..k], Global)
    {
      assert files[..k + 1][..k] == files[..k];
      SelectTracks(files[..k], Cn);
      SelectTracks(files[..k], Global);
      match files[k].snapshot.realm {
        case Unreported => continue;
        case Cn => cn := SelectAccount(cn, files[k]);
        case Global => global := SelectAccount(global, files[k]);
      }
    }
    assert files[..|files|] == files;
  }

  // ----- the selection does not depend on the listing order -----

  predicate DistinctAccounts(files: seq<Account>) {
    forall i, j | 0 <= i < j < |files| :: files[i].auth != files[j].auth
  }

  function FactOffer(a: Account): Offer<Fact> {
    Offer(SourceOf(a), a.snapshot.facts)
  }

  function CampaignOffer(a: Account): Offer<string> {
    Offer(SourceOf(a), a.snapshot.campaigns)
  }

  function Contributing(files: seq<Account>, realm: Realm): seq<Account> {
    if files == [] then [] else
      var last := files[|files| - 1];
      Contributing(files[..|files| - 1], realm) + (if last.snapshot.realm == realm && Usable(last) then [last] else [])
  }

  function Offers<V>(files: seq<Account>, offer: Account -> Offer<V>): (r: seq<Offer<V>>)
    ensures |r| == |files| && forall k | 0 <= k < |files| :: r[k] == offer(files[k])
  {
    if files == [] then [] else Offers(files[..|files| - 1], offer) + [offer(files[|files| - 1])]
  }

  lemma {:induction false} ContributingMeaning(files: seq<Account>, realm: Realm, a: Account)
    ensures a in Contributing(files, realm) <==> a in files && a.snapshot.realm == realm && Usable(a)
  {
    if files != [] {
      ContributingMeaning(files[..|files| - 1], realm, a);
      assert files == files[..|files| - 1] + [files[|files| - 1]];
    }
  }

  lemma {:induction false} ContributingDistinct(files: seq<Account>, realm: Realm)
    requires DistinctAccounts(files)
    ensures DistinctAccounts(Contributing(files, realm))
  {
    if files != [] {
      var n := |files| - 1;
      var before := Contributing(files[..n], realm);
      ContributingDistinct(files[..n], realm);
      forall k | 0 <= k < |before| ensures before[k].auth != files[n].auth {
        ContributingMeaning(files[..n], realm, before[k]);
        var i :| 0 <= i < n && files[i] == before[k];
      }
    }
  }

  lemma NextFacts(s: Selection, from: seq<Account>, a: Account)
    requires Usable(a) && s.facts == Union(Offers(from, FactOffer))
    ensures AddAccount(s, a).facts == Union(Offers(from + [a], FactOffer))
  {}

  lemma NextCampaigns(s: Selection, from: seq<Account>, a: Account)
    requires Usable(a) && s.campaigns == Union(Offers(from, CampaignOffer))
    ensures AddAccount(s, a).campaigns == Union(Offers(from + [a], CampaignOffer))
  {}

  lemma {:induction false} FactsAreUnion(files: seq<Account>, realm: Realm)
    ensures Select(files, realm).facts == Union(Offers(Contributing(files, realm), FactOffer))
  {
    if files != [] {
      var n := |files| - 1;
      var before, last := Contributing(files[..n], realm), files[n];
      FactsAreUnion(files[..n], realm);
      if last.snapshot.realm == realm && Usable(last) { NextFacts(Select(files[..n], realm), before, last); }
      else { assert Contributing(files, realm) == before; }
    }
  }

  lemma {:induction false} CampaignsAreUnion(files: seq<Account>, realm: Realm)
    ensures Select(files, realm).campaigns == Union(Offers(Contributing(files, realm), CampaignOffer))
  {
    if files != [] {
      var n := |files| - 1;
      var before, last := Contributing(files[..n], realm), files[n];
      CampaignsAreUnion(files[..n], realm);
      if last.snapshot.realm == realm && Usable(last) { NextCampaigns(Select(files[..n], realm), before, last); }
      else { assert Contributing(files, realm) == before; }
    }
  }

  lemma {:induction false} LoadedMeaning(files: seq<Account>, realm: Realm)
    ensures Select(files, realm).loaded <==> Contributing(files, realm) != []
  {
    if files != [] { LoadedMeaning(files[..|files| - 1], realm); }
  }

  lemma OffersIgnoreOrder<V(!new)>(xs: seq<Account>, ys: seq<Account>, offer: Account -> Offer<V>)
    requires DistinctAccounts(xs) && DistinctAccounts(ys) && forall a :: a in xs <==> a in ys
    requires forall a :: offer(a).source == SourceOf(a)
    ensures Union(Offers(xs, offer)) == Union(Offers(ys, offer))
  {
    forall o ensures o in Offers(xs, offer) <==> o in Offers(ys, offer) {
      OfferFrom(xs, ys, offer, o);
      OfferFrom(ys, xs, offer, o);
    }
    UnionIgnoresOrder(Offers(xs, offer), Offers(ys, offer));
  }

  lemma OfferFrom<V(!new)>(xs: seq<Account>, ys: seq<Account>, offer: Account -> Offer<V>, o: Offer<V>)
    requires forall a :: a in xs ==> a in ys
    ensures o in Offers(xs, offer) ==> o in Offers(ys, offer)
  {
    if o in Offers(xs, offer) {
      var i :| 0 <= i < |xs| && Offers(xs, offer)[i] == o;
      assert xs[i] in ys;
      var j :| 0 <= j < |ys| && ys[j] == xs[i];
      assert Offers(ys, offer)[j] == o;
    }
  }

  /** The account shown: of the realm, and before every other account of the realm. */
  ghost predicate Foremost(files: seq<Account>, realm: Realm, a: Account) {
    && a in files && a.snapshot.realm == realm
    && forall b | b in files && b.snapshot.realm == realm && b.auth != a.auth :: ShownBefore(a, b)
  }

  lemma ShownBeforeTransitive(a: Account, b: Account, c: Account)
    requires ShownBefore(a, b) && ShownBefore(b, c) && a.auth != c.auth
    ensures ShownBefore(a, c)
  {
    if a.snapshot.executable == b.snapshot.executable == c.snapshot.executable {
      SourceWinsTransitive(SourceOf(a), SourceOf(b), SourceOf(c));
    }
  }

  lemma {:induction false} DisplayIsForemost(files: seq<Account>, realm: Realm)
    requires DistinctAccounts(files)
    ensures var d := Select(files, realm).display;
            && (d.Some? <==> exists a | a in files :: a.snapshot.realm == realm)
            && (d.Some? ==> Foremost(files, realm, d.value))
  {
    if files != [] {
      var n := |files| - 1;
      var init, last := files[..n], files[n];
      DisplayIsForemost(init, realm);
      assert files == init + [last];
      if last.snapshot.realm == realm {
        var d := Select(init, realm).display;
        if d.Some? { NextDisplay(init, last, realm, d.value); }
      }
    }
  }

  lemma NextDisplay(init: seq<Account>, last: Account, realm: Realm, d: Account)
    requires Foremost(init, realm, d) && last.snapshot.realm == realm && DistinctAccounts(init + [last])
    ensures Foremost(init + [last], realm, if ShownBefore(last, d) then last else d)
  {
    var files := init + [last];
    var i :| 0 <= i < |init| && init[i] == d;
    assert files[i] == d && files[|init|] == last;
    SourceWinsTotal(SourceOf(last), SourceOf(d));
    if ShownBefore(last, d) {
      forall b | b in init && b.snapshot.realm == realm && b.auth != last.auth ensures ShownBefore(last, b) {
        if b.auth == d.auth {
          var j :| 0 <= j < |init| && init[j] == b;
          assert files[j] == b;
        } else {
          ShownBeforeTransitive(last, d, b);
        }
      }
    }
  }

  lemma ForemostIsUnique(xs: seq<Account>, ys: seq<Account>, realm: Realm, a: Account, b: Account)
    requires DistinctAccounts(xs) && Foremost(xs, realm, a) && Foremost(ys, realm, b) && forall x :: x in xs <==> x in ys
    ensures a == b
  {
    assert b in xs && a in ys;
    SourceWinsTotal(SourceOf(a), SourceOf(b));
    var i, j :| 0 <= i < |xs| && 0 <= j < |xs| && xs[i] == a && xs[j] == b;
  }

  /** What a realm shows does not depend on the order in which the accounts are listed. */
  lemma SelectionIgnoresOrder(xs: seq<Account>, ys: seq<Account>, realm: Realm)
    requires DistinctAccounts(xs) && DistinctAccounts(ys) && forall a :: a in xs <==> a in ys
    ensures var s, t := Select(xs, realm), Select(ys, realm);
            s.facts == t.facts && s.campaigns == t.campaigns && s.display == t.display && s.loaded == t.loaded
  {
    var from, into := Contributing(xs, realm), Contributing(ys, realm);
    ContributingDistinct(xs, realm);
    ContributingDistinct(ys, realm);
    forall a ensures a in from <==> a in into {
      ContributingMeaning(xs, realm, a);
      ContributingMeaning(ys, realm, a);
    }
    FactsAreUnion(xs, realm);
    FactsAreUnion(ys, realm);
    CampaignsAreUnion(xs, realm);
    CampaignsAreUnion(ys, realm);
    LoadedMeaning(xs, realm);
    LoadedMeaning(ys, realm);
    OffersIgnoreOrder(from, into, FactOffer);
    OffersIgnoreOrder(from, into, CampaignOffer);
    assert (from != [] ==> from[0] in into) && (into != [] ==> into[0] in from);
    DisplayIsForemost(xs, realm);
    DisplayIsForemost(ys, realm);
    var s, t := Select(xs, realm), Select(ys, realm);
    if s.display.Some? && t.display.Some? { ForemostIsUnique(xs, ys, realm, s.display.value, t.display.value); }
  }

  // ----- rows -----

  datatype Cell = Present(fact: Fact) | Absent | NotLoaded

  datatype Row = Row(id: string, name: string, cn: Cell, global: Cell)

  function CellOf(s: Selection, id: string): Cell {
    if id in s.facts then Present(s.facts[id].value) else if s.loaded then Absent else NotLoaded
  }

  /** The later realm's name, unless it is blank and the earlier realm has the model too. */
  function RowOf(cn: Selection, global: Selection, id: string): Row
    requires id in cn.facts || id in global.facts
  {
    var name := if id in global.facts && (id !in cn.facts || !Blank(global.facts[id].value.name)) then global.facts[id].value.name
                else cn.facts[id].value.name;
    Row(id, name, CellOf(cn, id), CellOf(global, id))
  }

  function IdLess(a: Row, b: Row): bool {
    Less(a.id, b.id)
  }

  ghost predicate Proper(s: Selection) {
    Tracks(s.facts, s.order) && (!s.loaded ==> s.facts == map[])
  }

  /** One row for every model of either realm. */
  ghost predicate CoversAll(rows: seq<Row>, cn: Selection, global: Selection) {
    && (forall k | 0 <= k < |rows| :: (rows[k].id in cn.facts || rows[k].id in global.facts) && rows[k] == RowOf(cn, global, rows[k].id))
    && (forall id | id in cn.facts || id in global.facts :: exists k | 0 <= k < |rows| :: rows[k].id == id)
    && (forall i, j | 0 <= i < j < |rows| :: rows[i].id != rows[j].id)
  }

  lemma RowsComparable(rows: seq<Row>, cn: Selection, global: Selection)
    requires CoversAll(rows, cn, global)
    ensures StrictOrder(IdLess) && Comparable(rows, IdLess)
  {
    LessIsStrict();
    forall i, j | 0 <= i < j < |rows| ensures IdLess(rows[i], rows[j]) || IdLess(rows[j], rows[i]) { LessTotal(rows[i].id, rows[j].id); }
  }

  /** What the panel is sent: one row for every model of either realm, in the order of the IDs. */
  ghost predicate IsPanel(rows: seq<Row>, cn: Selection, global: Selection) {
    CoversAll(rows, cn, global) && Ascending(rows, IdLess)
  }

  lemma SortedIsPanel(listed: seq<Row>, cn: Selection, global: Selection)
    requires CoversAll(listed, cn, global)
    ensures IsPanel(Sort(listed, IdLess), cn, global)
  {
    var rows := Sort(listed, IdLess);
    RowsComparable(listed, cn, global);
    SortAscends(listed, IdLess);
    forall k | 0 <= k < |rows|
      ensures (rows[k].id in cn.facts || rows[k].id in global.facts) && rows[k] == RowOf(cn, global, rows[k].id)
    {
      SortHas(listed, IdLess, rows[k]);
    }
    forall id | id in cn.facts || id in global.facts ensures exists k | 0 <= k < |rows| :: rows[k].id == id {
      var i :| 0 <= i < |listed| && listed[i].id == id;
      SortHas(listed, IdLess, listed[i]);
    }
    forall i, j | 0 <= i < j < |rows| ensures rows[i].id != rows[j].id { LessAsymmetric(rows[i].id, rows[j].id); }
  }

  /** Two panels of selections with the same facts are the same. */
  lemma RowsAreDetermined(a: seq<Row>, b: seq<Row>, cn: Selection, global: Selection, cn': Selection, global': Selection)
    requires IsPanel(a, cn, global) && IsPanel(b, cn', global')
    requires cn.facts == cn'.facts && cn.loaded == cn'.loaded && global.facts == global'.facts && global.loaded == global'.loaded
    ensures a == b
  {
    RowsComparable(a, cn, global);
    forall r ensures r in a <==> r in b {
      SameRows(a, b, cn, global, cn', global', r);
      SameRows(b, a, cn', global', cn, global, r);
    }
    AscendingIsUnique(a, b, IdLess);
  }

  lemma SameRows(a: seq<Row>, b: seq<Row>, cn: Selection, global: Selection, cn': Selection, global': Selection, r: Row)
    requires CoversAll(a, cn, global) && CoversAll(b, cn', global')
    requires cn.facts == cn'.facts && cn.loaded == cn'.loaded && global.facts == global'.facts && global.loaded == global'.loaded
    ensures r in a ==> r in b
  {}

  lemma SelectionIsProper(files: seq<Account>, realm: Realm)
    ensures Proper(Select(files, realm))
  {
    SelectTracks(files, realm);
    FactsAreUnion(files, realm);
    LoadedMeaning(files, realm);
  }

  /** A row being built: a name and the realms reached so far. */
  datatype Partial = Partial(name: string, cn: Option<Fact>, global: Option<Fact>)

  function PartialOf(cn: Selection, global: Selection, id: string, reached: bool): Partial
    requires id in cn.facts || (id in global.facts && reached)
  {
    if id in global.facts && reached then
      Partial(RowOf(cn, global, id).name, if id in cn.facts then Some(cn.facts[id].value) else None, Some(global.facts[id].value))
    else Partial(cn.facts[id].value.name, Some(cn.facts[id].value), None)
  }

  method FirstRealm(cn: Selection) returns (byId: map<string, Partial>, order: seq<string>)
    requires Proper(cn)
    ensures forall global :: Built(byId, order, cn, global, [])
  {
    byId, order := map[], [];
    UnloadedIsEmpty(cn);
    if cn.loaded {
      for k := 0 to |cn.order|
        invariant order == cn.order[..k] && forall id :: id in byId <==> id in order
        invariant forall id | id in byId :: id in cn.facts && byId[id] == PartialOf(cn, EMPTY, id, false)
      {
        var id := cn.order[k];
        assert id in cn.order && cn.order[..k + 1] == cn.order[..k] + [id];
        var fact := cn.facts[id].value;
        byId := byId[id := Partial(fact.name, Some(fact), None)];
        order := order + [id];
      }
      assert cn.order[..|cn.order|] == cn.order;
    }
    forall global ensures Built(byId, order, cn, global, []) { FirstIsBuilt(byId, order, cn, global); }
  }

  lemma UnloadedIsEmpty(s: Selection)
    requires Proper(s)
    ensures !s.loaded ==> s.order == []
  {
    assert s.order != [] ==> s.order[0] in s.order;
  }

  lemma FirstIsBuilt(byId: map<string, Partial>, order: seq<string>, cn: Selection, global: Selection)
    requires Proper(cn) && order == cn.order && forall id :: id in byId <==> id in order
    requires forall id | id in byId :: id in cn.facts && byId[id] == PartialOf(cn, EMPTY, id, false)
    ensures Built(byId, order, cn, global, [])
  {}

  ghost predicate Built(byId: map<string, Partial>, order: seq<string>, cn: Selection, global: Selection, reached: seq<string>) {
    && (forall id :: id in byId <==> id in order)
    && (forall i, j | 0 <= i < j < |order| :: order[i] != order[j])
    && (forall id :: id in byId <==> id in cn.facts || (id in global.facts && id in reached))
    && (forall id | id in byId :: byId[id] == PartialOf(cn, global, id, id in reached))
  }

  lemma BuiltNext(byId: map<string, Partial>, order: seq<string>, cn: Selection, global: Selection, reached: seq<string>, id: string)
    requires Built(byId, order, cn, global, reached) && id in global.facts && id !in reached
    ensures Built(byId[id := PartialOf(cn, global, id, true)], if id in byId then order else order + [id], cn, global, reached + [id])
  {}

  /** Adds the second realm's fact to a row, or starts a row with it. */
  function WithGlobal(row: Option<Partial>, fact: Fact): Partial {
    var p := if row.Some? then row.value else Partial(fact.name, None, None);
    p.(name := if Blank(fact.name) then p.name else fact.name, global := Some(fact))
  }

  lemma WithGlobalMeaning(byId: map<string, Partial>, order: seq<string>, cn: Selection, global: Selection, reached: seq<string>, id: string)
    requires Built(byId, order, cn, global, reached) && id in global.facts && id !in reached
    ensures WithGlobal(if id in byId then Some(byId[id]) else None, global.facts[id].value) == PartialOf(cn, global, id, true)
  {}

  lemma BuiltSame(byId: map<string, Partial>, order: seq<string>, cn: Selection, global: Selection)
    requires Proper(global) && !global.loaded && Built(byId, order, cn, global, [])
    ensures Built(byId, order, cn, global, global.order)
  {}

  lemma NextIsNew(order: seq<string>, k: nat)
    requires k < |order| && forall i, j | 0 <= i < j < |order| :: order[i] != order[j]
    ensures order[k] in order && order[..k + 1] == order[..k] + [order[k]] && order[k] !in order[..k]
  {}

  method SecondRealm(first: map<string, Partial>, before: seq<string>, cn: Selection, global: Selection)
    returns (byId: map<string, Partial>, order: seq<string>)
    requires Proper(global) && Built(first, before, cn, global, [])
    ensures Built(byId, order, cn, global, global.order)
  {
    byId, order := first, before;
    if !global.loaded {
      BuiltSame(byId, order, cn, global);
      return;
    }
    for k := 0 to |global.order|
      invariant Built(byId, order, cn, global, global.order[..k])
    {
      var id := global.order[k];
      NextIsNew(global.order, k);
      WithGlobalMeaning(byId, order, cn, global, global.order[..k], id);
      BuiltNext(byId, order, cn, global, global.order[..k], id);
      if id in byId {
        byId := byId[id := WithGlobal(Some(byId[id]), global.facts[id].value)];
      } else {
        byId := byId[id := WithGlobal(None, global.facts[id].value)];
        order := order + [id];
      }
    }
    assert global.order[..|global.order|] == global.order;
  }

  function Filled(fact: Option<Fact>, s: Selection): Cell {
    if fact.Some? then Present(fact.value) else if s.loaded then Absent else NotLoaded
  }

  lemma FinishedRow(cn: Selection, global: Selection, id: string, row: Partial)
    requires (id in cn.facts || id in global.facts) && row == PartialOf(cn, global, id, id in global.facts)
    ensures Row(id, row.name, Filled(row.cn, cn), Filled(row.global, global)) == RowOf(cn, global, id)
  {}

  /** Marks what a realm does not offer. */
  method Finish(byId: map<string, Partial>, order: seq<string>, cn: Selection, global: Selection) returns (out: seq<Row>)
    requires Built(byId, order, cn, global, global.order) && Proper(global)
    ensures |out| == |order| && forall k | 0 <= k < |order| :: out[k].id == order[k] && order[k] in byId && out[k] == RowOf(cn, global, order[k])
  {
    out := [];
    for k := 0 to |order|
      invariant |out| == k
      invariant forall i | 0 <= i < k :: out[i].id == order[i] && order[i] in byId && out[i] == RowOf(cn, global, order[i])
    {
      var id := order[k];
      assert id in order && (id in global.order <==> id in global.facts);
      var row := byId[id];
      FinishedRow(cn, global, id, row);
      out := out + [Row(id, row.name, Filled(row.cn, cn), Filled(row.global, global))];
    }
  }

  lemma FinishedCovers(byId: map<string, Partial>, order: seq<string>, cn: Selection, global: Selection, out: seq<Row>)
    requires Built(byId, order, cn, global, global.order) && Proper(global)
    requires |out| == |order| && forall k | 0 <= k < |order| :: out[k].id == order[k] && order[k] in byId && out[k] == RowOf(cn, global, order[k])
    ensures CoversAll(out, cn, global)
  {}

  /** Builds the rows realm by realm and sorts them by model. */
  method BuildPanelRealmModels(cn: Selection, global: Selection) returns (rows: seq<Row>)
    requires Proper(cn) && Proper(global)
    ensures IsPanel(rows, cn, global)
  {
    var byId, order := FirstRealm(cn);
    byId, order := SecondRealm(byId, order, cn, global);
    rows := Finish(byId, order, cn, global);
    FinishedCovers(byId, order, cn, global, rows);
    SortedIsPanel(rows, cn, global);
    rows := Sort(rows, IdLess);
  }
}
