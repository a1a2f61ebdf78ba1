/** The panel as sent: its rows and statuses, in terms of the accounts it was built from. */
module RealmPanel {
  import opened Basics
  import opened Sorting
  import opened TextOrder
  import opened RealmUnion
  import opened RealmCatalog

  /** What the panel says of a realm: whether it has anything to show, and how the displayed account is. */
  datatype Status = Status(loaded: bool, report: string, fetched: Option<int>)

  function StatusOf(s: Selection): Status {
    if s.display.Some? then Status(s.loaded, s.display.value.snapshot.report, Some(s.display.value.snapshot.fetched))
    else Status(s.loaded, if s.loaded then "loaded" else "not_loaded", None)
  }

  /** Status and rows agree: a cell says that its realm is not loaded exactly when the realm is reported so. */
  lemma StatusAgreesWithRows(rows: seq<Row>, cn: Selection, global: Selection, k: nat)
    requires Proper(cn) && Proper(global) && IsPanel(rows, cn, global) && k < |rows|
    ensures StatusOf(cn).loaded <==> !rows[k].cn.NotLoaded?
    ensures StatusOf(global).loaded <==> !rows[k].global.NotLoaded?
  {}

  // ----- what the panel says of the accounts -----

  predicate Newer(a: Account, b: Account) {
    a.snapshot.fetched > b.snapshot.fetched || (a.snapshot.fetched == b.snapshot.fetched && Less(a.auth, b.auth))
  }

  predicate InRealm(files: seq<Account>, a: Account, realm: Realm) {
    a in files && a.snapshot.realm == realm
  }

  predicate Serves(files: seq<Account>, a: Account, realm: Realm) {
    InRealm(files, a, realm) && a.snapshot.executable && a.snapshot.facts != []
  }

  /** The first fact of a list with this ID. */
  ghost predicate FirstFact(facts: seq<Item<Fact>>, id: string, fact: Fact) {
    exists k | 0 <= k < |facts| :: facts[k] == Item(id, fact) && forall j | 0 <= j < k :: facts[j].id != id
  }

  ghost predicate Knows(files: seq<Account>, a: Account, realm: Realm, id: string) {
    Serves(files, a, realm) && id != "" && exists fact :: FirstFact(a.snapshot.facts, id, fact)
  }

  /** A cell shows the fact of the newest account of the realm that knows the model, among equally new ones that of the
      smallest auth ID; the model is absent if only others of the realm could be read, and not loaded if none could. */
  ghost predicate CellMeans(files: seq<Account>, realm: Realm, id: string, cell: Cell) {
    match cell
    case Present(fact) =>
      exists a :: && Knows(files, a, realm, id) && FirstFact(a.snapshot.facts, id, fact)
                  && forall b | Knows(files, b, realm, id) && b.auth != a.auth :: Newer(a, b)
    case Absent => (forall a :: !Knows(files, a, realm, id)) && exists a :: Serves(files, a, realm)
    case NotLoaded => forall a :: !Serves(files, a, realm)
  }

  /** A realm reports the account shown for it: a usable one before a failed one, then the newest, then the smallest auth
      ID; it is loaded if some account of it serves models. */
  ghost predicate StatusMeans(files: seq<Account>, realm: Realm, status: Status) {
    && (status.loaded <==> exists a :: Serves(files, a, realm))
    && (if exists a :: InRealm(files, a, realm) then
          exists a :: && InRealm(files, a, realm) && status.report == a.snapshot.report && status.fetched == Some(a.snapshot.fetched)
                      && forall b | InRealm(files, b, realm) && b.auth != a.auth ::
                           if a.snapshot.executable == b.snapshot.executable then Newer(a, b) else a.snapshot.executable
        else status.report == "not_loaded" && status.fetched.None?)
  }

  predicate NameMeans(row: Row) {
    match (row.cn, row.global)
    case (Present(c), Present(g)) => row.name == if TrimSpace(g.name) != "" then g.name else c.name
    case (Present(c), _) => row.name == c.name
    case (_, Present(g)) => row.name == g.name
    case _ => false
  }

  ghost predicate PanelMeans(files: seq<Account>, rows: seq<Row>, statusCn: Status, statusGlobal: Status) {
    && (forall k | 0 <= k < |rows| ::
          CellMeans(files, Cn, rows[k].id, rows[k].cn) && CellMeans(files, Global, rows[k].id, rows[k].global) && NameMeans(rows[k]))
    && (forall a, realm, id | realm != Unreported && Knows(files, a, realm, id) :: exists k | 0 <= k < |rows| :: rows[k].id == id)
    && (forall i, j | 0 <= i < j < |rows| :: Less(rows[i].id, rows[j].id))
    && StatusMeans(files, Cn, statusCn) && StatusMeans(files, Global, statusGlobal)
  }

  lemma FirstStays(init: seq<Item<Fact>>, last: Item<Fact>, id: string, fact: Fact)
    requires FirstFact(init, id, fact)
    ensures FirstFact(init + [last], id, fact)
  {
    var items := init + [last];
    var k :| 0 <= k < |init| && init[k] == Item(id, fact) && forall j | 0 <= j < k :: init[j].id != id;
    assert items[k] == Item(id, fact) && forall j | 0 <= j < k :: items[j].id != id;
  }

  lemma LastIsFirst(init: seq<Item<Fact>>, id: string, fact: Fact)
    requires Said(init, id).None?
    ensures FirstFact(init + [Item(id, fact)], id, fact)
  {
    NotSaid(init, id);
    assert (init + [Item(id, fact)])[|init|] == Item(id, fact);
  }

  lemma {:induction false} SaidHolds(items: seq<Item<Fact>>, id: string)
    requires Said(items, id).Some?
    ensures FirstFact(items, id, Said(items, id).value)
  {
    var init, last := items[..|items| - 1], items[|items| - 1];
    assert items == init + [last];
    if Said(init, id).Some? {
      SaidHolds(init, id);
      FirstStays(init, last, id, Said(init, id).value);
    } else {
      LastIsFirst(init, id, last.value);
    }
  }

  lemma SaidIsFirst(items: seq<Item<Fact>>, id: string)
    ensures Said(items, id).Some? ==> FirstFact(items, id, Said(items, id).value)
    ensures (exists fact :: FirstFact(items, id, fact)) ==> Said(items, id).Some?
  {
    if Said(items, id).Some? { SaidHolds(items, id); } else { NotSaid(items, id); }
  }

  lemma {:induction false} NotSaid(items: seq<Item<Fact>>, id: string)
    requires Said(items, id).None?
    ensures forall k | 0 <= k < |items| :: items[k].id != id
  {
    if items != [] { NotSaid(items[..|items| - 1], id); }
  }

  lemma OfferKnows(files: seq<Account>, realm: Realm, a: Account, id: string)
    ensures Knows(files, a, realm, id) <==> a in Contributing(files, realm) && Speaks(FactOffer(a), id)
  {
    ContributingMeaning(files, realm, a);
    SaidIsFirst(a.snapshot.facts, id);
  }

  lemma OfferOf(from: seq<Account>, o: Offer<Fact>) returns (a: Account)
    requires o in Offers(from, FactOffer)
    ensures a in from && o == FactOffer(a)
  {
    var k :| 0 <= k < |from| && Offers(from, FactOffer)[k] == o;
    a := from[k];
  }

  lemma OfferIn(from: seq<Account>, a: Account)
    requires a in from
    ensures FactOffer(a) in Offers(from, FactOffer)
  {
    var k :| 0 <= k < |from| && from[k] == a;
    assert Offers(from, FactOffer)[k] == FactOffer(a);
  }

  lemma CellMeaning(files: seq<Account>, realm: Realm, id: string)
    requires DistinctAccounts(files)
    ensures CellMeans(files, realm, id, CellOf(Select(files, realm), id))
  {
    var s, from := Select(files, realm), Contributing(files, realm);
    FactsAreUnion(files, realm);
    ContributingDistinct(files, realm);
    UnionIsBest(Offers(from, FactOffer), id);
    if id in s.facts {
      PresentMeaning(files, realm, id);
    } else {
      LoadedIsServed(files, realm);
      forall a ensures !Knows(files, a, realm, id) {
        OfferKnows(files, realm, a, id);
        if a in from { OfferIn(from, a); }
      }
    }
  }

  lemma PresentMeaning(files: seq<Account>, realm: Realm, id: string)
    requires DistinctAccounts(files) && id in Select(files, realm).facts
    ensures CellMeans(files, realm, id, Present(Select(files, realm).facts[id].value))
  {
    var s, from := Select(files, realm), Contributing(files, realm);
    var offers := Offers(from, FactOffer);
    FactsAreUnion(files, realm);
    ContributingDistinct(files, realm);
    UnionIsBest(offers, id);
    var o :| Best(offers, o, id) && Union(offers)[id] == Sourced(Said(o.items, id).value, o.source);
    var a := OfferOf(from, o);
    OfferKnows(files, realm, a, id);
    SaidIsFirst(a.snapshot.facts, id);
    forall b | Knows(files, b, realm, id) && b.auth != a.auth ensures Newer(a, b) {
      OfferKnows(files, realm, b, id);
      OfferIn(from, b);
    }
  }

  lemma LoadedIsServed(files: seq<Account>, realm: Realm)
    ensures Select(files, realm).loaded <==> exists a :: Serves(files, a, realm)
  {
    var from := Contributing(files, realm);
    LoadedMeaning(files, realm);
    if from != [] {
      ContributingMeaning(files, realm, from[0]);
      assert Serves(files, from[0], realm);
    }
    if a :| Serves(files, a, realm) { ContributingMeaning(files, realm, a); }
  }

  lemma StatusMeaning(files: seq<Account>, realm: Realm)
    requires DistinctAccounts(files)
    ensures StatusMeans(files, realm, StatusOf(Select(files, realm)))
  {
    LoadedIsServed(files, realm);
    DisplayIsForemost(files, realm);
    var d := Select(files, realm).display;
    if d.Some? { assert InRealm(files, d.value, realm); }
  }

  lemma NameMeaning(cn: Selection, global: Selection, id: string)
    requires id in cn.facts || id in global.facts
    ensures NameMeans(RowOf(cn, global, id))
  {
    if id in global.facts { BlankMeaning(global.facts[id].value.name); }
  }

  /** Every panel of distinct accounts says this of them. */
  lemma PanelMeaning(files: seq<Account>, rows: seq<Row>)
    requires DistinctAccounts(files) && IsPanel(rows, Select(files, Cn), Select(files, Global))
    ensures PanelMeans(files, rows, StatusOf(Select(files, Cn)), StatusOf(Select(files, Global)))
  {
    var cn, global := Select(files, Cn), Select(files, Global);
    forall k | 0 <= k < |rows|
      ensures CellMeans(files, Cn, rows[k].id, rows[k].cn) && CellMeans(files, Global, rows[k].id, rows[k].global) && NameMeans(rows[k])
    {
      CellMeaning(files, Cn, rows[k].id);
      CellMeaning(files, Global, rows[k].id);
      NameMeaning(cn, global, rows[k].id);
    }
    forall a, realm, id | realm != Unreported && Knows(files, a, realm, id) ensures exists k | 0 <= k < |rows| :: rows[k].id == id {
      KnownIsKept(files, a, realm, id);
    }
    StatusMeaning(files, Cn);
    StatusMeaning(files, Global);
  }

  lemma KnownIsKept(files: seq<Account>, a: Account, realm: Realm, id: string)
    requires DistinctAccounts(files) && Knows(files, a, realm, id)
    ensures id in Select(files, realm).facts
  {
    CellMeaning(files, realm, id);
    LoadedIsServed(files, realm);
  }

  method BuildPanelRealmCatalog(files: seq<Account>) returns (rows: seq<Row>, statusCn: Status, statusGlobal: Status)
    ensures IsPanel(rows, Select(files, Cn), Select(files, Global))
    ensures statusCn == StatusOf(Select(files, Cn)) && statusGlobal == StatusOf(Select(files, Global))
    ensures DistinctAccounts(files) ==> PanelMeans(files, rows, statusCn, statusGlobal)
  {
    var cn, global := PanelRealmSelections(files);
    SelectionIsProper(files, Cn);
    SelectionIsProper(files, Global);
    rows := BuildPanelRealmModels(cn, global);
    statusCn, statusGlobal := StatusOf(cn), StatusOf(global);
    if DistinctAccounts(files) { PanelMeaning(files, rows); }
  }

  /** Two listings of the same accounts give the same panel and the same statuses. */
  lemma PanelIgnoresOrder(xs: seq<Account>, ys: seq<Account>, a: seq<Row>, b: seq<Row>)
    requires DistinctAccounts(xs) && DistinctAccounts(ys) && forall x :: x in xs <==> x in ys
    requires IsPanel(a, Select(xs, Cn), Select(xs, Global)) && IsPanel(b, Select(ys, Cn), Select(ys, Global))
    ensures a == b
    ensures StatusOf(Select(xs, Cn)) == StatusOf(Select(ys, Cn)) && StatusOf(Select(xs, Global)) == StatusOf(Select(ys, Global))
  {
    SelectionIgnoresOrder(xs, ys, Cn);
    SelectionIgnoresOrder(xs, ys, Global);
    RowsAreDetermined(a, b, Select(xs, Cn), Select(xs, Global), Select(ys, Cn), Select(ys, Global));
  }
}
