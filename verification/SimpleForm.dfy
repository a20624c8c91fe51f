/** The batched eager load against the simple form, which asks for the children of each account separately. */
module SimpleForm {
  import opened Wrappers
  import opened Seqs
  import opened Rows
  import opened Joins
  import opened Query
  import opened Sharing
  import opened EagerLoad
  import opened AccountQuery
  import Batching

  // ----- A child query without its window

  /** The limit of a node query; 0 stands for none. */
  function Cap(q: State): nat {
    if q.limit.Some? then q.limit.value else 0
  }

  /** The rows a child query would read without OFFSET and LIMIT. */
  function Whole(t: Table, a: Ask, col: string, ids: seq<int>): seq<Row> {
    ProjectAll(Batching.Found(t, a.entity, a.state, a.traversed, col, ids), SpecColumns(a.entity, a.state.fields, []))
  }

  function ReadBy(t: Table, a: Ask, col: string, ids: seq<int>): seq<Row> {
    EagerLoad.Children(t, a.entity, a.state, a.traversed, col, ids)
  }

  function Owner(col: string): Row -> int {
    (r: Row) => IntCol(r, col)
  }

  lemma {:induction false} ReadIsAWindow(t: Table, a: Ask, col: string, ids: seq<int>)
    ensures ReadBy(t, a, col, ids) == Kept(Whole(t, a, col, ids), Skipped(a.state), Cap(a.state))
  {
    var asked := a.state.(predicates := a.state.predicates + [InValues(col, ids)]);
    var cols := SpecColumns(a.entity, a.state.fields, []);
    SpecIsKept(t, a.entity, asked, a.traversed);
    KeptProjected(Batching.Found(t, a.entity, a.state, a.traversed, col, ids), cols, Skipped(a.state), Cap(a.state));
  }

  lemma {:induction false} SpecIsKept(t: Table, e: Entity, q: State, traversed: bool)
    ensures RunSpec(t, SpecOf(e, q, traversed, [])) == Kept(Candidates(e, q, t, traversed), Skipped(q), Cap(q))
  {
  }

  lemma {:induction false} KeptProjected(rows: seq<Row>, cols: seq<string>, offset: nat, limit: nat)
    ensures ProjectAll(Kept(rows, offset, limit), cols) == Kept(ProjectAll(rows, cols), offset, limit)
  {
    var all, kept := ProjectAll(rows, cols), Kept(rows, offset, limit);
    assert |Kept(all, offset, limit)| == |kept|;
    forall i | 0 <= i < |kept| ensures Kept(all, offset, limit)[i] == Project(kept[i], cols) {
      assert kept[i] == rows[offset + i] && Kept(all, offset, limit)[i] == all[offset + i];
    }
  }

  lemma {:induction false} OwnIsOwnedBy(rows: seq<Row>, col: string, a: int)
    ensures Own(rows, Owner(col), a) == OwnedBy(rows, col, a)
  {
    FilterAgree(rows, Is(Owner(col), a), ColumnIs(col, a));
  }

  lemma {:induction false} ProjectOwned(rows: seq<Row>, cols: seq<string>, col: string, a: int)
    requires col in cols
    ensures OwnedBy(ProjectAll(rows, cols), col, a) == ProjectAll(OwnedBy(rows, col, a), cols)
  {
    if rows != [] {
      var n := |rows| - 1;
      ProjectOwned(rows[..n], cols, col, a);
      ProjectKeeps(rows[n], cols, col);
      assert ProjectAll(rows, cols)[..n] == ProjectAll(rows[..n], cols);
    }
  }

  /** Restricted to one of its keys, the batched query is that key's own query. */
  lemma {:induction false} WholeForOne(t: Table, a: Ask, col: string, ids: seq<int>, id: int)
    requires id in ids && col in SpecColumns(a.entity, a.state.fields, [])
    ensures Own(Whole(t, a, col, ids), Owner(col), id) == Whole(t, a, col, [id])
  {
    Batching.FoundForOne(t, a.entity, a.state, a.traversed, col, ids, id);
    ProjectOwned(Batching.Found(t, a.entity, a.state, a.traversed, col, ids), SpecColumns(a.entity, a.state.fields, []), col, id);
    OwnIsOwnedBy(Whole(t, a, col, ids), col, id);
  }

  lemma {:induction false} WholeCarriesKeys(t: Table, a: Ask, col: string, ids: seq<int>)
    requires col in SpecColumns(a.entity, a.state.fields, [])
    ensures forall r | r in Whole(t, a, col, ids) :: IntCol(r, col) in ids
  {
    var found := Batching.Found(t, a.entity, a.state, a.traversed, col, ids);
    Batching.FoundCarriesKeys(t, a.entity, a.state, a.traversed, col, ids);
    forall i | 0 <= i < |found| ensures IntCol(Whole(t, a, col, ids)[i], col) in ids {
      assert found[i] in found;
      ProjectKeeps(found[i], SpecColumns(a.entity, a.state.fields, []), col);
    }
  }

  /** For every key, the batched rows with that key are the rows of its own query: exactly when the window is fair. */
  lemma {:induction false} RowsUnderWindow(t: Table, a: Ask, col: string, ids: seq<int>)
    requires col in SpecColumns(a.entity, a.state.fields, [])
    ensures var whole, offset, limit := Whole(t, a, col, ids), Skipped(a.state), Cap(a.state);
      var alike := forall id | id in ids :: OwnedBy(ReadBy(t, a, col, ids), col, id) == ReadBy(t, a, col, [id]);
      && (Fair(whole, Owner(col), offset, limit) ==> alike)
      && (offset == 0 || limit == 0 || Distinct(whole) ==> (alike <==> Fair(whole, Owner(col), offset, limit)))
  {
    var whole, offset, limit := Whole(t, a, col, ids), Skipped(a.state), Cap(a.state);
    ReadIsAWindow(t, a, col, ids);
    WholeCarriesKeys(t, a, col, ids);
    WindowIsShared(whole, Owner(col), ids, offset, limit);
    forall id | id in ids
      ensures OwnedBy(ReadBy(t, a, col, ids), col, id) == Own(Kept(whole, offset, limit), Owner(col), id)
      ensures ReadBy(t, a, col, [id]) == Kept(Own(whole, Owner(col), id), offset, limit)
    {
      OwnIsOwnedBy(Kept(whole, offset, limit), col, id);
      WholeForOne(t, a, col, ids, id);
      ReadIsAWindow(t, a, col, [id]);
    }
  }

  // ----- Lists

  function WithKey(a: Ask): Ask {
    a.(state := WithField(a.state, "account_id"))
  }

  /** The one-to-many child query of a single account. */
  function OwnQuery(t: Table, a: Ask, id: int): seq<Row> {
    ReadBy(t, WithKey(a), "account_id", [id])
  }

  /** Which columns a list query reads: with nothing selected it is the query as it was asked, with all columns;
      otherwise exactly the selected columns, the ID and the foreign key. */
  lemma {:induction false} ListColumns(a: Ask)
    ensures a.state.fields == [] ==> WithKey(a) == a && SpecColumns(a.entity, a.state.fields, []) == a.entity.columns
    ensures a.state.fields != [] ==> forall c ::
      c in SpecColumns(a.entity, WithKey(a).state.fields, []) <==> c in a.state.fields || c == "account_id" || a.entity.idColumn == Some(c)
  {
    AddOnceMembers(a.state.fields, ["account_id"]);
    ColumnsRead(a.entity, WithKey(a).state.fields, []);
  }

  /** Neither DISTINCT nor a window. */
  predicate Straight(a: Ask) {
    && (a.state.unique == Some(false) || (a.state.unique.None? && !a.traversed))
    && Skipped(a.state) == 0 && Cap(a.state) == 0
  }

  /** The row meets every condition asked for, and its key is among those given. */
  function Asked(a: Ask, col: string, ids: seq<int>): Pred {
    (r: Row) => (forall i | 0 <= i < |a.state.predicates| :: a.state.predicates[i](r)) && col in r && r[col].Int? && r[col].i in ids
  }

  /** What a child query reads: the rows of the table in the order asked for that meet the conditions and have one of
      the keys, each cut to the columns read. */
  lemma {:induction false} ReadMeans(t: Table, a: Ask, col: string, ids: seq<int>)
    requires Straight(a)
    ensures ReadBy(t, a, col, ids) == ProjectAll(Filter(t(a.state.order), Asked(a, col, ids)), SpecColumns(a.entity, a.state.fields, []))
  {
    ReadIsAWindow(t, a, col, ids);
    var all := a.state.predicates + [InValues(col, ids)];
    forall r | r in t(a.state.order) ensures AllOf(all)(r) == Asked(a, col, ids)(r) {
      HoldsAppend(a.state.predicates, InValues(col, ids), r);
    }
    FilterAgree(t(a.state.order), AllOf(all), Asked(a, col, ids));
  }

  /** The usage logs and joining rows of an account: with nothing selected, every row of the table that meets the
      conditions and is the account's, with all its columns, in the order asked for. */
  lemma {:induction false} ListMeans(t: Table, a: Ask, full: seq<Row>, j: nat)
    requires HasColumn(a.entity, "account_id") && Straight(a) && a.state.fields == []
    requires j < |full| && LastWithID(RowIDs(full), j)
    ensures OwnedEdge(t, Some(a), full, j) ==
      ProjectAll(Filter(t(a.state.order), Asked(a, "account_id", [IntCol(full[j], "id")])), a.entity.columns)
  {
    ListsUnderWindow(t, a, full);
    ListColumns(a);
    ReadMeans(t, a, "account_id", [IntCol(full[j], "id")]);
    assert OwnedEdge(t, Some(a), full, j) == OwnQuery(t, a, RowIDs(full)[j]);
  }

  /** Every account object that edges are loaded on has the list its own query gives. */
  ghost predicate ListsAsAlone(t: Table, a: Ask, full: seq<Row>) {
    forall j | 0 <= j < |full| && LastWithID(RowIDs(full), j) :: OwnedEdge(t, Some(a), full, j) == OwnQuery(t, a, RowIDs(full)[j])
  }

  /** The rows of the list query before its window. */
  function AllListed(t: Table, a: Ask, full: seq<Row>): seq<Row> {
    Whole(t, WithKey(a), "account_id", RowIDs(full))
  }

  ghost predicate FairLists(t: Table, a: Ask, full: seq<Row>) {
    Fair(AllListed(t, a, full), Owner("account_id"), Skipped(a.state), Cap(a.state))
  }

  lemma {:induction false} LastExists(ids: seq<int>, i: nat) returns (j: nat)
    requires i < |ids|
    ensures i <= j < |ids| && ids[j] == ids[i] && LastWithID(ids, j)
    decreases |ids| - i
  {
    if LastWithID(ids, i) {
      j := i;
    } else {
      var k :| i < k < |ids| && ids[k] == ids[i];
      j := LastExists(ids, k);
    }
  }

  /** The lists of a batched load are those of one query per account exactly when the window is fair; with both
      an offset and a limit this is exact if the rows differ. */
  lemma {:induction false} ListsUnderWindow(t: Table, a: Ask, full: seq<Row>)
    requires HasColumn(a.entity, "account_id")
    ensures FairLists(t, a, full) ==> ListsAsAlone(t, a, full)
    ensures Skipped(a.state) == 0 || Cap(a.state) == 0 || Distinct(AllListed(t, a, full)) ==> (ListsAsAlone(t, a, full) <==> FairLists(t, a, full))
  {
    var ids := RowIDs(full);
    AddOnceMembers(a.state.fields, ["account_id"]);
    SelectedColumn(a.entity, WithKey(a).state.fields, "account_id");
    RowsUnderWindow(t, WithKey(a), "account_id", ids);
    if ListsAsAlone(t, a, full) {
      forall id | id in ids ensures OwnedBy(ReadBy(t, WithKey(a), "account_id", ids), "account_id", id) == OwnQuery(t, a, id) {
        var i :| 0 <= i < |ids| && ids[i] == id;
        var j := LastExists(ids, i);
        assert OwnedEdge(t, Some(a), full, j) == OwnQuery(t, a, id);
      }
    }
  }

  /** A limit of 1 over the logs of two accounts leaves one of them without the log that its own query finds. */
  lemma {:induction false} LimitStarvesAnAccount(t: Table, full: seq<Row>, r: Row, s: Row)
    requires t([]) == [r, s] && r["account_id" := Int(1)] == r && s["account_id" := Int(2)] == s
    requires RowIDs(full) == [1, 2]
    ensures var a := Ask(Entity(["id", "account_id"], Some("id")), State([], Some(1), None, None, [], [], []), false);
      !ListsAsAlone(t, a, full)
  {
    var a := Ask(Entity(["id", "account_id"], Some("id")), State([], Some(1), None, None, [], [], []), false);
    var cols := a.entity.columns;
    var found := Batching.Found(t, a.entity, a.state, false, "account_id", [1, 2]);
    assert r["account_id"] == Int(1) && s["account_id"] == Int(2);
    FilterAll([r, s], AllOf([] + [InValues("account_id", [1, 2])]));
    assert found == [r, s];
    var whole := AllListed(t, a, full);
    assert whole == [Project(r, cols), Project(s, cols)];
    assert cols[1] == "account_id";
    ProjectKeeps(r, cols, "account_id");
    ProjectKeeps(s, cols, "account_id");
    assert whole[0] in whole && whole[1] in whole && Owner("account_id")(whole[0]) != Owner("account_id")(whole[1]);
    ListsUnderWindow(t, a, full);
  }

  // ----- Lookups

  lemma {:induction false} LookupOwned(rows: seq<Row>, p: int)
    ensures Lookup(rows, p) == Lookup(OwnedBy(rows, "id", p), p)
  {
    if rows != [] {
      LookupOwned(rows[..|rows| - 1], p);
      var front := OwnedBy(rows[..|rows| - 1], "id", p);
      if IntCol(rows[|rows| - 1], "id") == p {
        assert OwnedBy(rows, "id", p) == front + [rows[|rows| - 1]];
      }
    }
  }

  ghost predicate DistinctIDs(rows: seq<Row>) {
    forall i, j | 0 <= i < j < |rows| :: IntCol(rows[i], "id") != IntCol(rows[j], "id")
  }

  /** Every key finds the row that its own query finds. */
  ghost predicate LookupsAsAlone(t: Table, a: Ask, keys: seq<int>) {
    forall k | k in keys :: Lookup(ReadBy(t, a, "id", keys), k) == Lookup(ReadBy(t, a, "id", [k]), k)
  }

  /** Without an offset no row is cut off; with one, all rows are skipped. */
  predicate NothingCut(n: nat, offset: nat, limit: nat) {
    if offset == 0 then limit == 0 || n <= limit else n <= offset
  }

  lemma {:induction false} OnlyOne(rows: seq<Row>, i: nat)
    requires DistinctIDs(rows) && i < |rows|
    ensures OwnedBy(rows, "id", IntCol(rows[i], "id")) == [rows[i]]
  {
    var n, k := |rows| - 1, IntCol(rows[i], "id");
    var front := rows[..n];
    if i == n {
      forall x | x in front ensures !ColumnIs("id", k)(x) {
        var m :| 0 <= m < n && front[m] == x;
        assert rows[m] == x;
      }
      FilterNone(front, ColumnIs("id", k));
    } else {
      assert front[i] == rows[i];
      OnlyOne(front, i);
    }
  }

  lemma {:induction false} KeyCutOff(whole: seq<Row>, limit: nat)
    requires DistinctIDs(whole) && 0 < limit < |whole|
    ensures var k := IntCol(whole[limit], "id");
      Lookup(whole[..limit], k) == None && Lookup(Kept(OwnedBy(whole, "id", k), 0, limit), k) == Some(whole[limit])
  {
    var k := IntCol(whole[limit], "id");
    LookupFinds(whole[..limit], k);
    OnlyOne(whole, limit);
    assert [whole[limit]][..0] == [];
  }

  /** Under a window, keys find what they would find alone exactly when no row is cut off, or none is kept. Where
      nothing is skipped and no limit is set this needs nothing of the rows; otherwise their IDs are the key. */
  lemma {:induction false} LookupsUnderWindow(t: Table, a: Ask, keys: seq<int>)
    requires HasID(a.entity)
    ensures Skipped(a.state) == 0 && Cap(a.state) == 0 ==> LookupsAsAlone(t, a, keys)
    ensures var whole := Whole(t, a, "id", keys);
      DistinctIDs(whole) ==> (LookupsAsAlone(t, a, keys) <==> NothingCut(|whole|, Skipped(a.state), Cap(a.state)))
  {
    var whole, offset, limit := Whole(t, a, "id", keys), Skipped(a.state), Cap(a.state);
    ProjectionKeepsKeys(a.entity, a.state.fields, []);
    ReadIsAWindow(t, a, "id", keys);
    WholeCarriesKeys(t, a, "id", keys);
    forall k | k in keys ensures ReadBy(t, a, "id", [k]) == Kept(OwnedBy(whole, "id", k), offset, limit) {
      WholeForOne(t, a, "id", keys, k);
      OwnIsOwnedBy(whole, "id", k);
      ReadIsAWindow(t, a, "id", [k]);
    }
    forall k | k in keys ensures Lookup(whole, k) == Lookup(OwnedBy(whole, "id", k), k) {
      LookupOwned(whole, k);
    }
    if DistinctIDs(whole) {
      LookupsOfKeys(whole, keys, offset, limit);
      assert ReadBy(t, a, "id", keys) == Kept(whole, offset, limit);
    }
  }

  lemma {:induction false} LookupsOfKeys(whole: seq<Row>, keys: seq<int>, offset: nat, limit: nat)
    requires DistinctIDs(whole) && forall r | r in whole :: IntCol(r, "id") in keys
    ensures (forall k | k in keys :: Lookup(Kept(whole, offset, limit), k) == Lookup(Kept(OwnedBy(whole, "id", k), offset, limit), k)) <==>
      NothingCut(|whole|, offset, limit)
  {
    forall k | k in keys ensures |OwnedBy(whole, "id", k)| <= 1 && Lookup(OwnedBy(whole, "id", k), k) == Lookup(whole, k) {
      LookupOwned(whole, k);
      AtMostOne(whole, k);
    }
    if offset > 0 {
      var kept := Kept(whole, offset, limit);
      if kept != [] {
        assert kept[0] in whole;
        LookupFinds(kept, IntCol(kept[0], "id"));
      }
    } else if 0 < limit < |whole| {
      KeyCutOff(whole, limit);
      assert whole[limit] in whole;
    }
  }

  lemma {:induction false} AtMostOne(whole: seq<Row>, k: int)
    requires DistinctIDs(whole)
    ensures |OwnedBy(whole, "id", k)| <= 1
  {
    if i :| 0 <= i < |whole| && IntCol(whole[i], "id") == k {
      OnlyOne(whole, i);
    } else {
      FilterNone(whole, ColumnIs("id", k));
    }
  }

  /** Every account has the proxy its own query finds. */
  ghost predicate ProxiesAsAlone(db: Database, p: Plan, full: seq<Row>)
    requires p.proxy.Some?
  {
    forall j | 0 <= j < |full| :: ProxyEdge(db, p, full, j) ==
      match RowProxyIDs(full)[j]
      case None => None
      case Some(k) => Lookup(ReadBy(db.proxies, p.proxy.value, "id", [k]), k)
  }

  lemma {:induction false} ProxiesUnderWindow(db: Database, p: Plan, full: seq<Row>)
    requires p.proxy.Some?
    ensures ProxiesAsAlone(db, p, full) <==> LookupsAsAlone(db.proxies, p.proxy.value, Keys(RowProxyIDs(full)))
  {
    var keys := RowProxyIDs(full);
    KeysAreTheForeignKeys(keys);
    forall j | 0 <= j < |full| && keys[j].Some? ensures keys[j].value in Keys(keys) {
      assert keys[j] in keys;
    }
    forall k | k in Keys(keys) ensures exists j :: 0 <= j < |full| && keys[j] == Some(k) {
      assert Some(k) in keys;
    }
  }

  /** An account's proxy is a row with the ID that its own foreign key names, and there is one if any row of the child
      query has that ID. */
  lemma {:induction false} ProxyPointsAtItsKey(db: Database, p: Plan, full: seq<Row>, j: nat)
    requires p.proxy.Some? && j < |full|
    ensures var rows := ReadBy(db.proxies, p.proxy.value, "id", Keys(RowProxyIDs(full)));
      var key := OptIntCol(full[j], "proxy_id");
      && (ProxyEdge(db, p, full, j).Some? <==> key.Some? && exists r :: r in rows && IntCol(r, "id") == key.value)
      && (ProxyEdge(db, p, full, j).Some? ==> ProxyEdge(db, p, full, j).value in rows && IntCol(ProxyEdge(db, p, full, j).value, "id") == key.value)
  {
    var rows := ReadBy(db.proxies, p.proxy.value, "id", Keys(RowProxyIDs(full)));
    var key := RowProxyIDs(full)[j];
    assert ProxyEdge(db, p, full, j) == PointedAt(rows, key, None);
    if key.Some? {
      LookupFinds(rows, key.value);
    }
  }

  // ----- Groups

  /** An account's groups, before any window: those of the joined rows that meet the conditions and name the account in
      their join column, each row cut to the columns read, its group being that of its ID. */
  lemma {:induction false} LinksMean(t: Table, a: Ask, ids: seq<int>)
    requires HasID(a.entity)
    ensures var rows, links := Filter(t(a.state.order), Asked(a, "account_groups.account_id", ids)), AllLinks(t, a, ids);
      && |links| == |rows|
      && forall i | 0 <= i < |rows| ::
           links[i] == Link(IntCol(rows[i], "account_groups.account_id"), IntCol(rows[i], "id"), Project(rows[i], SpecColumns(a.entity, a.state.fields, [])))
  {
    ProjectionKeepsKeys(a.entity, a.state.fields, []);
    var all := a.state.predicates + [InValues(JOIN_COL, ids)];
    forall r | r in t(a.state.order) ensures AllOf(all)(r) == Asked(a, JOIN_COL, ids)(r) {
      HoldsAppend(a.state.predicates, InValues(JOIN_COL, ids), r);
    }
    FilterAgree(t(a.state.order), AllOf(all), Asked(a, JOIN_COL, ids));
  }

  function AccountOf(l: Link): int { l.account }

  /** The links of a groups' query before its window. */
  function AllLinks(t: Table, a: Ask, ids: seq<int>): seq<Link>
    requires HasID(a.entity)
  {
    ProjectionKeepsKeys(a.entity, a.state.fields, []);
    ToLinks(Matching(t(a.state.order), a.state.predicates + [InValues(JOIN_COL, ids)]), SpecColumns(a.entity, a.state.fields, []))
  }

  function Stream(t: Table, a: Ask, ids: seq<int>): seq<Link>
    requires HasID(a.entity)
  {
    GroupStream(t, a.entity, a.state, a.traversed, ids)
  }

  lemma {:induction false} StreamIsAWindow(t: Table, a: Ask, ids: seq<int>)
    requires HasID(a.entity)
    ensures Stream(t, a, ids) == Kept(AllLinks(t, a, ids), Skipped(a.state), Cap(a.state))
  {
    ProjectionKeepsKeys(a.entity, a.state.fields, []);
    var rows := Matching(t(a.state.order), a.state.predicates + [InValues(JOIN_COL, ids)]);
    KeptLinks(rows, SpecColumns(a.entity, a.state.fields, []), Skipped(a.state), Cap(a.state));
  }

  lemma {:induction false} KeptLinks(rows: seq<Row>, cols: seq<string>, offset: nat, limit: nat)
    requires cols != []
    ensures ToLinks(Kept(rows, offset, limit), cols) == Kept(ToLinks(rows, cols), offset, limit)
  {
    var all, kept := ToLinks(rows, cols), Kept(rows, offset, limit);
    assert |Kept(all, offset, limit)| == |kept|;
    forall i | 0 <= i < |kept| ensures Kept(all, offset, limit)[i] == ToLinks(kept, cols)[i] {
      assert kept[i] == rows[offset + i] && Kept(all, offset, limit)[i] == all[offset + i];
    }
  }

  lemma {:induction false} FilterLinks(rows: seq<Row>, cols: seq<string>, id: int)
    requires cols != []
    ensures Filter(ToLinks(rows, cols), ThroughAccount(id)) == ToLinks(OwnedBy(rows, JOIN_COL, id), cols)
  {
    if rows != [] {
      var n := |rows| - 1;
      FilterLinks(rows[..n], cols, id);
      assert ToLinks(rows, cols)[..n] == ToLinks(rows[..n], cols);
    }
  }

  lemma {:induction false} LinksForOne(t: Table, a: Ask, ids: seq<int>, id: int)
    requires HasID(a.entity) && id in ids
    ensures Own(AllLinks(t, a, ids), AccountOf, id) == AllLinks(t, a, [id])
  {
    ProjectionKeepsKeys(a.entity, a.state.fields, []);
    var cols := SpecColumns(a.entity, a.state.fields, []);
    var many, one := a.state.predicates + [InValues(JOIN_COL, ids)], a.state.predicates + [InValues(JOIN_COL, [id])];
    var all := t(a.state.order);
    forall r | r in all ensures AllOf(one)(r) == (AllOf(many)(r) && ColumnIs(JOIN_COL, id)(r)) {
      HoldsAppend(a.state.predicates, InValues(JOIN_COL, ids), r);
      HoldsAppend(a.state.predicates, InValues(JOIN_COL, [id]), r);
    }
    FilterTwice(all, AllOf(many), ColumnIs(JOIN_COL, id), AllOf(one));
    FilterLinks(Matching(all, many), cols, id);
    OwnIsThrough(AllLinks(t, a, ids), id);
  }

  lemma {:induction false} LinksCarryKeys(t: Table, a: Ask, ids: seq<int>)
    requires HasID(a.entity)
    ensures forall l | l in AllLinks(t, a, ids) :: l.account in ids
  {
    var many := a.state.predicates + [InValues(JOIN_COL, ids)];
    var rows := Matching(t(a.state.order), many);
    FilterMembers(t(a.state.order), AllOf(many));
    forall i | 0 <= i < |rows| ensures AllLinks(t, a, ids)[i].account in ids {
      assert rows[i] in rows;
      HoldsAppend(a.state.predicates, InValues(JOIN_COL, ids), rows[i]);
    }
  }

  lemma {:induction false} OwnIsThrough(links: seq<Link>, id: int)
    ensures Own(links, AccountOf, id) == Filter(links, ThroughAccount(id))
  {
    forall l | l in links ensures Is(AccountOf, id)(l) == ThroughAccount(id)(l) {
      assert Is(AccountOf, id)(l) == (AccountOf(l) == id);
    }
    FilterAgree(links, Is(AccountOf, id), ThroughAccount(id));
  }

  ghost predicate SameGroups(a: seq<Link>, b: seq<Link>) {
    forall g :: Appears(a, g) <==> Appears(b, g)
  }

  /** Every account has the groups its own query finds. */
  ghost predicate GroupsAsAlone(t: Table, a: Ask, ids: seq<int>)
    requires HasID(a.entity)
  {
    forall id | id in ids :: SameGroups(Joined(Stream(t, a, ids), id), Firsts(Stream(t, a, [id])))
  }

  /** No account is linked to a group twice. */
  ghost predicate LinkedOnce(links: seq<Link>) {
    forall i, j | 0 <= i < j < |links| :: links[i].account != links[j].account || links[i].gid != links[j].gid
  }

  ghost predicate FairGroups(t: Table, a: Ask, ids: seq<int>)
    requires HasID(a.entity)
  {
    Fair(AllLinks(t, a, ids), AccountOf, Skipped(a.state), Cap(a.state))
  }

  lemma {:induction false} JoinedShows(links: seq<Link>, id: int)
    ensures SameGroups(Joined(links, id), Own(links, AccountOf, id))
    ensures JoinedAlone(links, id) == Firsts(Own(links, AccountOf, id))
  {
    BatchedGroupsVersusAlone(links, id);
    OwnIsThrough(links, id);
    FirstsByRank(Own(links, AccountOf, id));
  }

  ghost predicate GidsDiffer(links: seq<Link>) {
    forall i, j | 0 <= i < j < |links| :: links[i].gid != links[j].gid
  }

  lemma {:induction false} InBothSegments(links: seq<Link>, x: nat, y: nat, u: nat, v: nat, k: nat)
    requires x <= k < y <= |links| && u <= v <= |links| && GidsDiffer(links)
    requires SameGroups(links[x..y], links[u..v])
    ensures u <= k < v
  {
    var g := links[k].gid;
    assert links[x..y][k - x].gid == g;
    assert Appears(links[u..v], g);
    var m :| 0 <= m < |links[u..v]| && links[u..v][m].gid == g;
    assert links[u..v][m] == links[u + m];
    assert links[u + m].gid == links[k].gid;
  }

  /** Two segments of links that name each group once show the same groups only if they are the same. */
  lemma {:induction false} SegmentsAlike(links: seq<Link>, x: nat, y: nat, u: nat, v: nat)
    requires x <= y <= |links| && u <= v <= |links| && GidsDiffer(links)
    requires SameGroups(links[x..y], links[u..v])
    ensures links[x..y] == links[u..v]
  {
    if x < y {
      InBothSegments(links, x, y, u, v, x);
      InBothSegments(links, x, y, u, v, y - 1);
    }
    if u < v {
      InBothSegments(links, u, v, x, y, u);
      InBothSegments(links, u, v, x, y, v - 1);
    }
  }

  lemma {:induction false} OwnGidsDiffer(links: seq<Link>, id: int)
    requires LinkedOnce(links)
    ensures GidsDiffer(Own(links, AccountOf, id))
  {
    if links != [] {
      var n := |links| - 1;
      var front := Own(links[..n], AccountOf, id);
      assert LinkedOnce(links[..n]) by {
        assert forall i | 0 <= i < n :: links[..n][i] == links[i];
      }
      OwnGidsDiffer(links[..n], id);
      FilterMembers(links[..n], Is(AccountOf, id));
      forall i | 0 <= i < |front| && links[n].account == id ensures front[i].gid != links[n].gid {
        assert front[i] in front && Is(AccountOf, id)(front[i]);
        var k :| 0 <= k < n && links[..n][k] == front[i];
        assert links[k] == front[i] && AccountOf(front[i]) == id;
      }
    }
  }

  /** A segment of links that name each group once shows the groups that a window keeps only if it is that window. */
  lemma {:induction false} SegmentIsTheWindow(links: seq<Link>, x: nat, y: nat, offset: nat, limit: nat)
    requires x <= y <= |links| && GidsDiffer(links)
    requires SameGroups(links[x..y], Kept(links, offset, limit))
    ensures links[x..y] == Kept(links, offset, limit)
  {
    if offset <= |links| {
      assert Kept(links, offset, limit) == links[offset..End(|links|, offset, limit)];
      SegmentsAlike(links, x, y, offset, End(|links|, offset, limit));
    } else {
      assert links[0..0] == [] == Kept(links, offset, limit);
      SegmentsAlike(links, x, y, 0, 0);
    }
  }

  /** Where each group is named once, equal sets of groups mean that the window is shared. */
  lemma {:induction false} SameGroupsSameLinks(links: seq<Link>, id: int, offset: nat, limit: nat)
    requires LinkedOnce(links)
    requires SameGroups(Own(Kept(links, offset, limit), AccountOf, id), Kept(Own(links, AccountOf, id), offset, limit))
    ensures Own(Kept(links, offset, limit), AccountOf, id) == Kept(Own(links, AccountOf, id), offset, limit)
  {
    var own := Own(links, AccountOf, id);
    FilterSize(links, Is(AccountOf, id));
    if offset < |links| {
      OwnParts(links, AccountOf, id, offset, limit);
      OwnGidsDiffer(links, id);
      var x := |Own(links[..offset], AccountOf, id)|;
      var y := x + |Own(Kept(links, offset, limit), AccountOf, id)|;
      assert own[x..y] == Own(Kept(links, offset, limit), AccountOf, id);
      SegmentIsTheWindow(own, x, y, offset, limit);
    }
  }

  /** The groups of a batched load are those of one query per account exactly when the window over the joined rows
      is fair; they come in the same order exactly when the links read for other accounts do not reorder them. */
  lemma {:induction false} GroupsUnderWindow(t: Table, a: Ask, ids: seq<int>)
    requires HasID(a.entity)
    ensures FairGroups(t, a, ids) ==> GroupsAsAlone(t, a, ids)
    ensures LinkedOnce(AllLinks(t, a, ids)) ==> (GroupsAsAlone(t, a, ids) <==> FairGroups(t, a, ids))
    ensures FairGroups(t, a, ids) ==> forall id | id in ids ::
      Gids(Joined(Stream(t, a, ids), id)) == Gids(Firsts(Stream(t, a, [id]))) <==> SameOrder(Stream(t, a, ids), id)
  {
    var links, offset, limit := AllLinks(t, a, ids), Skipped(a.state), Cap(a.state);
    LinksCarryKeys(t, a, ids);
    WindowIsShared(links, AccountOf, ids, offset, limit);
    forall id | id in ids ensures GroupsOfOne(t, a, ids, id) {
      GroupsOf(t, a, ids, id);
    }
    if LinkedOnce(links) {
      assert Distinct(links);
      if GroupsAsAlone(t, a, ids) {
        forall id | id in ids ensures Own(Kept(links, offset, limit), AccountOf, id) == Kept(Own(links, AccountOf, id), offset, limit) {
          assert GroupsOfOne(t, a, ids, id);
          SameGroupsSameLinks(links, id, offset, limit);
        }
      }
    }
  }

  /** One account's groups, batched and alone, in terms of its own links in and before the window. */
  ghost predicate GroupsOfOne(t: Table, a: Ask, ids: seq<int>, id: int)
    requires HasID(a.entity)
  {
    var links, offset, limit := AllLinks(t, a, ids), Skipped(a.state), Cap(a.state);
    var shared, alone := Own(Kept(links, offset, limit), AccountOf, id), Kept(Own(links, AccountOf, id), offset, limit);
    && (SameGroups(Joined(Stream(t, a, ids), id), Firsts(Stream(t, a, [id]))) <==> SameGroups(shared, alone))
    && (shared == alone ==> (Gids(Joined(Stream(t, a, ids), id)) == Gids(Firsts(Stream(t, a, [id]))) <==> SameOrder(Stream(t, a, ids), id)))
  }

  lemma {:induction false} GroupsOf(t: Table, a: Ask, ids: seq<int>, id: int)
    requires HasID(a.entity) && id in ids
    ensures GroupsOfOne(t, a, ids, id)
  {
    StreamIsAWindow(t, a, ids);
    StreamIsAWindow(t, a, [id]);
    LinksForOne(t, a, ids, id);
    JoinedShows(Stream(t, a, ids), id);
    FirstsByRank(Stream(t, a, [id]));
    BatchedGroupsVersusAlone(Stream(t, a, ids), id);
  }

  // ----- The whole eager load

  ghost predicate WellShaped(p: Plan) {
    && (p.groups.Some? ==> HasID(p.groups.value.entity)) && (p.proxy.Some? ==> HasID(p.proxy.value.entity))
    && (p.usageLogs.Some? ==> HasColumn(p.usageLogs.value.entity, "account_id"))
    && (p.accountGroups.Some? ==> HasColumn(p.accountGroups.value.entity, "account_id"))
  }

  /** Every requested edge is what asking for it separately for each account gives. */
  ghost predicate EdgesAsAlone(db: Database, p: Plan, full: seq<Row>)
    requires WellShaped(p)
  {
    && (p.groups.Some? ==> GroupsAsAlone(db.groups, p.groups.value, RowIDs(full)))
    && (p.proxy.Some? ==> ProxiesAsAlone(db, p, full))
    && (p.usageLogs.Some? ==> ListsAsAlone(db.usageLogs, p.usageLogs.value, full))
    && (p.accountGroups.Some? ==> ListsAsAlone(db.accountGroups, p.accountGroups.value, full))
  }

  function ProxyRows(db: Database, p: Plan, full: seq<Row>): seq<Row>
    requires p.proxy.Some?
  {
    Whole(db.proxies, p.proxy.value, "id", Keys(RowProxyIDs(full)))
  }

  /** No child query's window treats accounts differently. */
  ghost predicate FairPlan(db: Database, p: Plan, full: seq<Row>)
    requires WellShaped(p)
  {
    && (p.groups.Some? ==> FairGroups(db.groups, p.groups.value, RowIDs(full)))
    && (p.proxy.Some? ==> NothingCut(|ProxyRows(db, p, full)|, Skipped(p.proxy.value.state), Cap(p.proxy.value.state)))
    && (p.usageLogs.Some? ==> FairLists(db.usageLogs, p.usageLogs.value, full))
    && (p.accountGroups.Some? ==> FairLists(db.accountGroups, p.accountGroups.value, full))
  }

  /** What primary keys guarantee: no link and no child row is found twice, and proxies differ in their IDs. */
  ghost predicate KeyedChildren(db: Database, p: Plan, full: seq<Row>)
    requires WellShaped(p)
  {
    && (p.groups.Some? ==> LinkedOnce(AllLinks(db.groups, p.groups.value, RowIDs(full))))
    && (p.proxy.Some? ==> DistinctIDs(ProxyRows(db, p, full)))
    && (p.usageLogs.Some? ==> Distinct(AllListed(db.usageLogs, p.usageLogs.value, full)))
    && (p.accountGroups.Some? ==> Distinct(AllListed(db.accountGroups, p.accountGroups.value, full)))
  }

  predicate Unwindowed(a: Option<Ask>) {
    a.Some? ==> Skipped(a.value.state) == 0 && Cap(a.value.state) == 0
  }

  /** The batched eager load is the simple form exactly when no child query's window treats accounts differently;
      in particular whenever no child query has a window, and then whatever the rows. */
  lemma {:induction false} EagerLoadIsTheSimpleForm(db: Database, p: Plan, full: seq<Row>)
    requires WellShaped(p)
    ensures KeyedChildren(db, p, full) ==> (EdgesAsAlone(db, p, full) <==> FairPlan(db, p, full))
    ensures Unwindowed(p.groups) && Unwindowed(p.proxy) && Unwindowed(p.usageLogs) && Unwindowed(p.accountGroups) ==> EdgesAsAlone(db, p, full)
    ensures p.groups.Some? ==> forall j | 0 <= j < |full| && LastWithID(RowIDs(full), j) ::
      GroupsEdge(db, p, full, j) == RowsOf(Joined(Stream(db.groups, p.groups.value, RowIDs(full)), RowIDs(full)[j]))
  {
    if p.groups.Some? {
      GroupsUnderWindow(db.groups, p.groups.value, RowIDs(full));
    }
    if p.proxy.Some? {
      ProxiesUnderWindow(db, p, full);
      LookupsUnderWindow(db.proxies, p.proxy.value, Keys(RowProxyIDs(full)));
    }
    if p.usageLogs.Some? {
      ListsUnderWindow(db.usageLogs, p.usageLogs.value, full);
    }
    if p.accountGroups.Some? {
      ListsUnderWindow(db.accountGroups, p.accountGroups.value, full);
    }
  }
}
