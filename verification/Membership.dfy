/** Loading the rows that join accounts and groups, with the account and the group at their ends. The
    entity has a composite key: its foreign keys are never nil and take the place of an ID column. */
module Membership {
  import opened Wrappers
  import opened Seqs
  import opened Rows
  import opened Joins
  import opened Query
  import opened EagerLoad
  import opened AccountQuery
  import opened SimpleForm

  datatype End = AccountEnd | GroupEnd

  function ForeignKey(end: End): string {
    match end
    case AccountEnd => "account_id"
    case GroupEnd => "group_id"
  }

  class AccountGroup {
    const cols: Row
    var account: Option<Row>
    var group: Option<Row>

    constructor (cols: Row)
      ensures this.cols == cols && account == None && group == None
    {
      this.cols, account, group := cols, None, None;
    }

    function Key(end: End): int { IntCol(cols, ForeignKey(end)) }

    function At(end: End): Option<Row>
      reads this
    {
      match end
      case AccountEnd => account
      case GroupEnd => group
    }

    method Assign(end: End, e: Row)
      modifies this
      ensures At(end) == Some(e)
      ensures forall other | other != end :: At(other) == old(At(other))
    {
      match end
      case AccountEnd => account := Some(e);
      case GroupEnd => group := Some(e);
    }
  }

  function KeysOf(nodes: seq<AccountGroup>, end: End): (ks: seq<Option<int>>)
    ensures |ks| == |nodes|
  {
    seq(|nodes|, i requires 0 <= i < |nodes| => Some(nodes[i].Key(end)))
  }

  function HasKeyAt(end: End, k: int): AccountGroup -> bool {
    (n: AccountGroup) => n.Key(end) == k
  }

  lemma {:induction false} NoneHasKey(nodes: seq<AccountGroup>, end: End, k: int)
    requires k !in Keys(KeysOf(nodes, end))
    ensures Filter(nodes, HasKeyAt(end, k)) == []
  {
    KeysAreTheForeignKeys(KeysOf(nodes, end));
    forall j | 0 <= j < |nodes| ensures nodes[j].Key(end) != k {
      assert KeysOf(nodes, end)[j] in KeysOf(nodes, end);
    }
    FilterNone(nodes, HasKeyAt(end, k));
  }

  /** What is known of the map after `i` nodes. */
  ghost predicate Grouped(nodeids: map<int, seq<AccountGroup>>, ids: seq<int>, nodes: seq<AccountGroup>, end: End) {
    && (forall k :: k in nodeids <==> k in ids)
    && (forall k | k in nodeids :: nodeids[k] == Filter(nodes, HasKeyAt(end, k)))
  }

  /** The distinct foreign keys, and for each the nodes that use it. */
  method GroupByEnd(nodes: seq<AccountGroup>, end: End) returns (ids: seq<int>, nodeids: map<int, seq<AccountGroup>>)
    ensures ids == Keys(KeysOf(nodes, end)) && Grouped(nodeids, ids, nodes, end)
  {
    ids, nodeids := [], map[];
    for i := 0 to |nodes|
      invariant ids == Keys(KeysOf(nodes[..i], end)) && Grouped(nodeids, ids, nodes[..i], end)
    {
      var fk := nodes[i].Key(end);
      KeysStep(nodes, i, end);
      if fk !in nodeids {
        NoneHasKey(nodes[..i], end, fk);
        ids := ids + [fk];
      }
      nodeids := nodeids[fk := (if fk in nodeids then nodeids[fk] else []) + [nodes[i]]];
      forall k | k in nodeids ensures nodeids[k] == Filter(nodes[..i + 1], HasKeyAt(end, k)) {
        FilterStep(nodes, i, HasKeyAt(end, k));
      }
    }
    assert nodes[..|nodes|] == nodes;
  }

  lemma {:induction false} KeysStep(nodes: seq<AccountGroup>, i: nat, end: End)
    requires i < |nodes|
    ensures var before, key := Keys(KeysOf(nodes[..i], end)), nodes[i].Key(end);
      Keys(KeysOf(nodes[..i + 1], end)) == if key in before then before else before + [key]
  {
    assert KeysOf(nodes[..i + 1], end)[..i] == KeysOf(nodes[..i], end);
  }

  method AssignEach(targets: seq<AccountGroup>, end: End, e: Row)
    modifies targets
    ensures forall a | a in targets :: a.At(end) == Some(e)
    ensures forall a, other | a in targets && other != end :: a.At(other) == old(a.At(other))
  {
    for k := 0 to |targets|
      invariant forall i | 0 <= i < k :: targets[i].At(end) == Some(e)
      invariant forall a, other | a in targets && other != end :: a.At(other) == old(a.At(other))
    {
      targets[k].Assign(end, e);
    }
  }

  /** One returned row: the nodes with its key point at it, and nothing else changes. */
  method AssignNeighbor(n: Row, nodes: seq<AccountGroup>, end: End, targets: seq<AccountGroup>)
    requires targets == Filter(nodes, HasKeyAt(end, IntCol(n, "id")))
    modifies nodes
    ensures forall a | a in nodes :: a.At(end) == if a.Key(end) == IntCol(n, "id") then Some(n) else old(a.At(end))
    ensures forall a, other | a in nodes && other != end :: a.At(other) == old(a.At(other))
  {
    forall a ensures a in targets <==> a in nodes && a.Key(end) == IntCol(n, "id") {
      FilterMember(nodes, HasKeyAt(end, IntCol(n, "id")), a);
    }
    forall k | 0 <= k < |targets| ensures targets[k] in nodes {
      assert targets[k] in targets;
    }
    AssignEach(targets, end, n);
  }

  /** Every node ends up with the last row returned for its key, and no other end is touched. */
  method AssignNeighbors(neighbors: seq<Row>, nodeids: map<int, seq<AccountGroup>>, nodes: seq<AccountGroup>, end: End)
      returns (r: Result<(), LoadError>)
    requires forall k | k in nodeids :: nodeids[k] == Filter(nodes, HasKeyAt(end, k))
    modifies nodes
    ensures r.Success? <==> forall n | n in neighbors :: IntCol(n, "id") in nodeids
    ensures r.Success? ==> forall a | a in nodes :: a.At(end) == PointedAt(neighbors, Some(a.Key(end)), old(a.At(end)))
    ensures forall a, other | a in nodes && other != end :: a.At(other) == old(a.At(other))
  {
    for i := 0 to |neighbors|
      invariant forall n | n in neighbors[..i] :: IntCol(n, "id") in nodeids
      invariant forall a | a in nodes :: a.At(end) == PointedAt(neighbors[..i], Some(a.Key(end)), old(a.At(end)))
      invariant forall a, other | a in nodes && other != end :: a.At(other) == old(a.At(other))
    {
      var id := IntCol(neighbors[i], "id");
      if id !in nodeids {
        assert neighbors[i] in neighbors;
        return Failure(UnexpectedKey(ForeignKey(end), id));
      }
      AssignNeighbor(neighbors[i], nodes, end, nodeids[id]);
      assert neighbors[..i + 1][..i] == neighbors[..i];
    }
    assert neighbors[..|neighbors|] == neighbors;
    return Success(());
  }

  /** What one end of a row is, computed from its own full row alone. */
  function EndOf(t: Table, ask: Option<Ask>, keys: seq<Option<int>>, j: nat): Option<Row>
    requires j < |keys|
  {
    if ask.Some? then PointedAt(Children(t, ask.value.entity, ask.value.state, ask.value.traversed, "id", Keys(keys)), keys[j], None) else None
  }

  /** The child query of one end. */
  method ReadEnd(t: Table, query: Builder, ids: seq<int>) returns (all: Result<seq<Row>, string>)
    requires HasID(query.entity)
    modifies query`predicates
    ensures all.Success? <==> FieldsKnown(old(AskOf(query)).value)
    ensures all.Success? ==>
      && all.value == Children(t, query.entity, old(query.Now()), query.traversed, "id", ids)
      && forall n | n in all.value :: IntCol(n, "id") in ids
  {
    ghost var before := query.Now();
    ProjectionKeepsKeys(query.entity, query.ctx.fields, []);
    ChildrenCarryKeys(t, query.entity, before, query.traversed, "id", ids);
    query.predicates := query.predicates + [InValues("id", ids)];
    all := query.All(t, []);
  }

  /** The rest of the load, once the keys are known. */
  method FollowKeys(t: Table, query: Builder, ids: seq<int>, nodeids: map<int, seq<AccountGroup>>, nodes: seq<AccountGroup>, end: End)
      returns (r: Result<(), LoadError>)
    requires HasID(query.entity) && Grouped(nodeids, ids, nodes, end)
    modifies query`predicates, nodes
    ensures r.Success? <==> FieldsKnown(old(AskOf(query)).value)
    ensures r.Success? ==> forall a | a in nodes ::
      a.At(end) == PointedAt(Children(t, query.entity, old(query.Now()), query.traversed, "id", ids), Some(a.Key(end)), old(a.At(end)))
    ensures forall a, other | a in nodes && other != end :: a.At(other) == old(a.At(other))
  {
    var all := ReadEnd(t, query, ids);
    if all.Failure? {
      return Failure(InvalidField(all.error));
    }
    r := AssignNeighbors(all.value, nodeids, nodes, end);
  }

  /** Many to one, with foreign keys that are never nil. */
  method LoadEnd(t: Table, query: Builder, nodes: seq<AccountGroup>, end: End) returns (r: Result<(), LoadError>)
    requires HasID(query.entity)
    modifies query`predicates, nodes
    ensures r.Success? <==> nodes == [] || FieldsKnown(old(AskOf(query)).value)
    ensures r.Success? ==> forall j | 0 <= j < |nodes| && old(nodes[j].At(end)) == None ::
      nodes[j].At(end) == EndOf(t, old(AskOf(query)), KeysOf(nodes, end), j)
    ensures forall j, other | 0 <= j < |nodes| && other != end :: nodes[j].At(other) == old(nodes[j].At(other))
  {
    var ids, nodeids := GroupByEnd(nodes, end);
    KeysAreTheForeignKeys(KeysOf(nodes, end));
    assert nodes != [] ==> KeysOf(nodes, end)[0] in KeysOf(nodes, end);
    if |ids| == 0 {
      return Success(());
    }
    r := FollowKeys(t, query, ids, nodeids, nodes, end);
  }

  method MakeMembers(rows: seq<Row>, columns: seq<string>) returns (nodes: seq<AccountGroup>)
    ensures |nodes| == |rows| && fresh(nodes)
    ensures forall j | 0 <= j < |nodes| :: nodes[j].cols == Project(rows[j], columns) && nodes[j].account == None && nodes[j].group == None
  {
    nodes := [];
    for i := 0 to |rows|
      invariant |nodes| == i && fresh(nodes)
      invariant forall j | 0 <= j < i :: nodes[j].cols == Project(rows[j], columns) && nodes[j].account == None && nodes[j].group == None
    {
      var node := new AccountGroup(Project(rows[i], columns));
      nodes := nodes + [node];
    }
  }

  /** The foreign keys a projected query reads for the ends it loads. */
  function Extra(withAccount: bool, withGroup: bool): seq<string> {
    (if withAccount then ["account_id"] else []) + (if withGroup then ["group_id"] else [])
  }

  function RowKeys(rows: seq<Row>, end: End): (ks: seq<Option<int>>)
    ensures |ks| == |rows|
  {
    seq(|rows|, i requires 0 <= i < |rows| => Some(IntCol(rows[i], ForeignKey(end))))
  }

  /** The joining rows with all their columns. */
  function MemberRows(t: Table, base: Ask, extra: seq<string>): seq<Row> {
    RunSpec(t, SpecOf(base.entity, base.state, base.traversed, extra))
  }

  lemma {:induction false} EndKeysAreRead(base: Ask, extra: seq<string>, rows: seq<Row>, nodes: seq<AccountGroup>, end: End)
    requires base.entity.idColumn == None
    requires forall c | c in extra :: c in base.entity.columns
    requires ForeignKey(end) in extra && |nodes| == |rows|
    requires forall j | 0 <= j < |nodes| :: nodes[j].cols == Project(rows[j], SpecColumns(base.entity, base.state.fields, extra))
    ensures KeysOf(nodes, end) == RowKeys(rows, end)
  {
    ProjectionKeepsKeys(base.entity, base.state.fields, extra);
    forall j | 0 <= j < |nodes| ensures nodes[j].Key(end) == IntCol(rows[j], ForeignKey(end)) {
      ProjectKeeps(rows[j], SpecColumns(base.entity, base.state.fields, extra), ForeignKey(end));
    }
  }

  method LoadEndIf(t: Table, query: Builder?, nodes: seq<AccountGroup>, end: End, ghost keys: seq<Option<int>>)
      returns (r: Result<(), LoadError>)
    requires |keys| == |nodes|
    requires query != null ==> HasID(query.entity) && KeysOf(nodes, end) == keys
    requires forall j | 0 <= j < |nodes| :: nodes[j].At(end) == None
    modifies Set(query)`predicates, nodes
    ensures r.Success? <==> (query != null && nodes != [] ==> FieldsKnown(old(AskOf(query)).value))
    ensures r.Success? ==> forall j | 0 <= j < |nodes| :: nodes[j].At(end) == EndOf(t, old(AskOf(query)), keys, j)
    ensures forall j, other | 0 <= j < |nodes| && other != end :: nodes[j].At(other) == old(nodes[j].At(other))
  {
    if query == null {
      return Success(());
    }
    r := LoadEnd(t, query, nodes, end);
  }

  /** Both ends of every row are as computed from the full rows. */
  ghost predicate EndsLoaded(nodes: seq<AccountGroup>, accounts: Table, groups: Table, account: Option<Ask>, group: Option<Ask>, full: seq<Row>)
    reads nodes
  {
    && |nodes| == |full|
    && forall j | 0 <= j < |full| ::
         && nodes[j].At(AccountEnd) == EndOf(accounts, account, RowKeys(full, AccountEnd), j)
         && nodes[j].At(GroupEnd) == EndOf(groups, group, RowKeys(full, GroupEnd), j)
  }

  method LoadEnds(accounts: Table, groups: Table, withAccount: Builder?, withGroup: Builder?, nodes: seq<AccountGroup>, ghost full: seq<Row>)
      returns (r: Result<(), LoadError>)
    requires |nodes| == |full|
    requires withAccount != null ==> HasID(withAccount.entity) && KeysOf(nodes, AccountEnd) == RowKeys(full, AccountEnd)
    requires withGroup != null ==> HasID(withGroup.entity) && KeysOf(nodes, GroupEnd) == RowKeys(full, GroupEnd)
    requires Apart(withAccount, withGroup)
    requires forall j | 0 <= j < |nodes| :: nodes[j].At(AccountEnd) == None && nodes[j].At(GroupEnd) == None
    modifies Set(withAccount)`predicates, Set(withGroup)`predicates, nodes
    ensures r.Success? <==>
      && (full != [] && withAccount != null ==> FieldsKnown(old(AskOf(withAccount)).value))
      && (full != [] && withGroup != null ==> FieldsKnown(old(AskOf(withGroup)).value))
    ensures r.Success? ==> EndsLoaded(nodes, accounts, groups, old(AskOf(withAccount)), old(AskOf(withGroup)), full)
  {
    r := LoadEndIf(accounts, withAccount, nodes, AccountEnd, RowKeys(full, AccountEnd));
    if r.Success? {
      r := LoadEndIf(groups, withGroup, nodes, GroupEnd, RowKeys(full, GroupEnd));
    }
  }

  /** The joining rows with both ends: each end asked for is the one computed from the full rows, whatever
      columns were selected, and an end that was not asked for stays empty. */
  method AllMembers(members: Table, accounts: Table, groups: Table, base: Builder, withAccount: Builder?, withGroup: Builder?)
      returns (r: Result<seq<AccountGroup>, LoadError>)
    requires base.entity.idColumn == None && HasColumn(base.entity, "account_id") && HasColumn(base.entity, "group_id")
    requires (withAccount != null ==> HasID(withAccount.entity)) && (withGroup != null ==> HasID(withGroup.entity))
    requires Apart(withAccount, withGroup)
    modifies Set(withAccount)`predicates, Set(withGroup)`predicates
    ensures var full := MemberRows(members, old(AskOf(base)).value, Extra(withAccount != null, withGroup != null));
      r.Success? <==>
        && FieldsKnown(old(AskOf(base)).value)
        && (full != [] && withAccount != null ==> FieldsKnown(old(AskOf(withAccount)).value))
        && (full != [] && withGroup != null ==> FieldsKnown(old(AskOf(withGroup)).value))
    ensures r.Success? ==>
      EndsLoaded(r.value, accounts, groups, old(AskOf(withAccount)), old(AskOf(withGroup)),
        MemberRows(members, old(AskOf(base)).value, Extra(withAccount != null, withGroup != null)))
  {
    var invalid := base.Prepare();
    if invalid.Some? {
      return Failure(InvalidField(invalid.value));
    }
    var extra := Extra(withAccount != null, withGroup != null);
    var spec := base.QuerySpec(extra);
    var nodes := MakeMembers(RunSpec(members, spec), spec.columns);
    ExtraKeys(AskOf(base).value, withAccount != null, withGroup != null, RunSpec(members, spec), nodes);
    var loaded := LoadEnds(accounts, groups, withAccount, withGroup, nodes, RunSpec(members, spec));
    return if loaded.Success? then Success(nodes) else Failure(loaded.error);
  }

  lemma {:induction false} ExtraKeys(base: Ask, withAccount: bool, withGroup: bool, rows: seq<Row>, nodes: seq<AccountGroup>)
    requires base.entity.idColumn == None && HasColumn(base.entity, "account_id") && HasColumn(base.entity, "group_id")
    requires |nodes| == |rows|
    requires forall j | 0 <= j < |nodes| ::
      nodes[j].cols == Project(rows[j], SpecColumns(base.entity, base.state.fields, Extra(withAccount, withGroup)))
    ensures withAccount ==> KeysOf(nodes, AccountEnd) == RowKeys(rows, AccountEnd)
    ensures withGroup ==> KeysOf(nodes, GroupEnd) == RowKeys(rows, GroupEnd)
  {
    var extra := Extra(withAccount, withGroup);
    if withAccount {
      assert extra[0] == "account_id";
      EndKeysAreRead(base, extra, rows, nodes, AccountEnd);
    }
    if withGroup {
      assert extra[|extra| - 1] == "group_id";
      EndKeysAreRead(base, extra, rows, nodes, GroupEnd);
    }
  }

  /** Each end is the row that a query for its key alone returns: always without a window on the child query, and
      with one exactly when it cuts off no row, or skips them all. */
  lemma {:induction false} EndIsFoundAlone(t: Table, ask: Ask, rows: seq<Row>, end: End)
    requires HasID(ask.entity)
    ensures var keys, whole := RowKeys(rows, end), Whole(t, ask, "id", Keys(RowKeys(rows, end)));
      var alike := forall j | 0 <= j < |keys| :: EndOf(t, Some(ask), keys, j) == Lookup(ReadBy(t, ask, "id", [keys[j].value]), keys[j].value);
      && (Skipped(ask.state) == 0 && Cap(ask.state) == 0 ==> alike)
      && (DistinctIDs(whole) ==> (alike <==> NothingCut(|whole|, Skipped(ask.state), Cap(ask.state))))
  {
    var keys := RowKeys(rows, end);
    KeysAreTheForeignKeys(keys);
    LookupsUnderWindow(t, ask, Keys(keys));
    forall j | 0 <= j < |keys| ensures keys[j].value in Keys(keys) {
      assert keys[j] in keys;
    }
    forall k | k in Keys(keys) ensures exists j :: 0 <= j < |keys| && keys[j] == Some(k) {
      assert Some(k) in keys;
    }
  }

  /** The account of a joining row is the one that its account_id names, and its group the one that its group_id does. */
  lemma {:induction false} EndPointsAtItsKey(t: Table, ask: Ask, rows: seq<Row>, end: End, j: nat)
    requires j < |rows|
    ensures var r := EndOf(t, Some(ask), RowKeys(rows, end), j);
      r.Some? ==> IntCol(r.value, "id") == IntCol(rows[j], if end == AccountEnd then "account_id" else "group_id")
  {
    LookupFinds(Children(t, ask.entity, ask.state, ask.traversed, "id", Keys(RowKeys(rows, end))), IntCol(rows[j], ForeignKey(end)));
  }
}
