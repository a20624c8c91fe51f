/** Loading accounts together with their edges: one query for the accounts and one child query per
    requested edge, turned into an object graph with maps from keys to account objects. */
module EagerLoad {
  import opened Wrappers
  import opened Seqs
  import opened Rows
  import opened Joins
  import opened Query

  /** The column through which the groups' child query is joined to the accounts. */
  const JOIN_COL := "account_groups.account_id"

  datatype Loaded = Loaded(groups: bool, proxy: bool, usageLogs: bool, accountGroups: bool)

  datatype EdgeError = NotLoaded(edge: string) | NotFound(entity: string)

  datatype LoadError = InvalidField(field: string) | UnexpectedKey(edge: string, id: int)

  class Account {
    const cols: Row
    const loaded: Loaded
    var groups: seq<Row>
    var proxy: Option<Row>
    var usageLogs: seq<Row>
    var accountGroups: seq<Row>

    constructor (cols: Row, loaded: Loaded)
      ensures this.cols == cols && this.loaded == loaded
      ensures groups == [] && proxy == None && usageLogs == [] && accountGroups == []
    {
      this.cols, this.loaded := cols, loaded;
      groups, proxy, usageLogs, accountGroups := [], None, [], [];
    }

    function ID(): int { IntCol(cols, "id") }

    function ProxyID(): Option<int> { OptIntCol(cols, "proxy_id") }

    function GroupsOrErr(): Result<seq<Row>, EdgeError>
      reads this`groups
    {
      if loaded.groups then Success(groups) else Failure(NotLoaded("groups"))
    }

    function ProxyOrErr(): Result<Row, EdgeError>
      reads this`proxy
    {
      if proxy.Some? then Success(proxy.value)
      else if loaded.proxy then Failure(NotFound("proxy"))
      else Failure(NotLoaded("proxy"))
    }

    function UsageLogsOrErr(): Result<seq<Row>, EdgeError>
      reads this`usageLogs
    {
      if loaded.usageLogs then Success(usageLogs) else Failure(NotLoaded("usage_logs"))
    }

    function AccountGroupsOrErr(): Result<seq<Row>, EdgeError>
      reads this`accountGroups
    {
      if loaded.accountGroups then Success(accountGroups) else Failure(NotLoaded("account_groups"))
    }
  }

  // ----- Specification vocabulary

  function IDs(nodes: seq<Account>): (ids: seq<int>)
    ensures |ids| == |nodes|
  {
    seq(|nodes|, i requires 0 <= i < |nodes| => nodes[i].ID())
  }

  /** No later node has the same ID. */
  predicate IsLast(nodes: seq<Account>, j: nat)
    requires j < |nodes|
  {
    forall k | j < k < |nodes| :: nodes[k].ID() != nodes[j].ID()
  }

  function ProxyIDs(nodes: seq<Account>): (ps: seq<Option<int>>)
    ensures |ps| == |nodes|
  {
    seq(|nodes|, i requires 0 <= i < |nodes| => nodes[i].ProxyID())
  }

  /** The distinct non-nil foreign keys, in order of first use. */
  function Keys(ps: seq<Option<int>>): seq<int> {
    if ps == [] then []
    else
      var front, key := Keys(ps[..|ps| - 1]), ps[|ps| - 1];
      if key.Some? && key.value !in front then front + [key.value] else front
  }

  /** The child query is asked for each foreign key in use exactly once, and for no other. */
  lemma {:induction false} KeysAreTheForeignKeys(ps: seq<Option<int>>)
    ensures Distinct(Keys(ps))
    ensures forall p :: p in Keys(ps) <==> Some(p) in ps
  {
    if ps != [] {
      var n := |ps| - 1;
      KeysAreTheForeignKeys(ps[..n]);
      assert ps == ps[..n] + [ps[n]];
    }
  }

  function ToLinks(rows: seq<Row>, cols: seq<string>): (r: seq<Link>)
    requires cols != []
    ensures |r| == |rows|
  {
    seq(|rows|, i requires 0 <= i < |rows| => Link(IntCol(rows[i], JOIN_COL), IntCol(rows[i], cols[0]), Project(rows[i], cols)))
  }

  predicate HasID(e: Entity) {
    e.idColumn == Some("id") && e.columns != [] && e.columns[0] == "id"
  }

  /** The row stream of the groups' child query. DISTINCT is switched off for it. */
  function GroupStream(t: Table, e: Entity, q: State, traversed: bool, ids: seq<int>): seq<Link>
    requires HasID(e)
  {
    var spec := SpecOf(e, q.(predicates := q.predicates + [InValues(JOIN_COL, ids)]), traversed, []).(unique := false);
    ProjectionKeepsKeys(e, q.fields, []);
    ToLinks(RunSpec(t, spec), spec.columns)
  }

  /** The rows a child query reads for the given keys, projected. */
  function Children(t: Table, e: Entity, q: State, traversed: bool, col: string, ids: seq<int>): seq<Row> {
    var spec := SpecOf(e, q.(predicates := q.predicates + [InValues(col, ids)]), traversed, []);
    ProjectAll(RunSpec(t, spec), spec.columns)
  }

  function WithField(q: State, col: string): State {
    if q.fields == [] then q else q.(fields := AddOnce(q.fields, [col]))
  }

  /** A selection is extended with the key the loader reads; with nothing selected nothing changes. */
  lemma {:induction false} FieldsExtended(q: State, col: string)
    ensures q.fields == [] ==> WithField(q, col) == q
    ensures WithField(q, col) == q.(fields := WithField(q, col).fields)
    ensures q.fields != [] ==> forall c :: c in WithField(q, col).fields <==> c in q.fields || c == col
  {
    AddOnceMembers(q.fields, [col]);
  }

  function PointedAt(rows: seq<Row>, key: Option<int>, before: Option<Row>): Option<Row> {
    if key.Some? && Lookup(rows, key.value).Some? then Lookup(rows, key.value) else before
  }

  /** Every row a child query reads carries one of the keys it was asked for. */
  lemma {:induction false} ChildrenCarryKeys(t: Table, e: Entity, q: State, traversed: bool, col: string, ids: seq<int>)
    requires col in SpecColumns(e, q.fields, [])
    ensures forall r | r in Children(t, e, q, traversed, col, ids) :: IntCol(r, col) in ids
  {
    var ps := q.predicates + [InValues(col, ids)];
    var spec := SpecOf(e, q.(predicates := ps), traversed, []);
    FilterMembers(t(q.order), AllOf(ps));
    DedupMembers(Matching(t(q.order), ps), spec.columns);
    var rows := RunSpec(t, spec);
    forall i | 0 <= i < |rows| ensures IntCol(Children(t, e, q, traversed, col, ids)[i], col) in ids {
      assert rows[i] in Scanned(t, spec.order, spec.predicates, spec.unique, spec.columns);
      HoldsAppend(q.predicates, InValues(col, ids), rows[i]);
      ProjectKeeps(rows[i], spec.columns, col);
    }
  }

  lemma {:induction false} GroupStreamCarriesKeys(t: Table, e: Entity, q: State, traversed: bool, ids: seq<int>)
    requires HasID(e)
    ensures var links := GroupStream(t, e, q, traversed, ids);
      forall k | 0 <= k < |links| :: links[k].account in ids && links[k].gid == IntCol(links[k].row, "id")
  {
    var ps := q.predicates + [InValues(JOIN_COL, ids)];
    var spec := SpecOf(e, q.(predicates := ps), traversed, []).(unique := false);
    ProjectionKeepsKeys(e, q.fields, []);
    FilterMembers(t(q.order), AllOf(ps));
    var rows := RunSpec(t, spec);
    forall k | 0 <= k < |rows| ensures IntCol(rows[k], JOIN_COL) in ids {
      assert rows[k] in Matching(t(q.order), ps);
      HoldsAppend(q.predicates, InValues(JOIN_COL, ids), rows[k]);
    }
  }

  // ----- The maps from keys to account objects

  /** `byID` maps each ID to the last of the first `n` nodes that has it. */
  ghost predicate MapsLast(byID: map<int, Account>, nodes: seq<Account>, n: nat)
    requires n <= |nodes|
  {
    && (forall j | 0 <= j < n :: nodes[j].ID() in byID)
    && (forall id | id in byID :: byID[id].ID() == id && byID[id] in nodes[..n])
    && (forall j | 0 <= j < n :: byID[nodes[j].ID()] == nodes[j] <==> IsLast(nodes[..n], j))
  }

  lemma {:induction false} MapsLastStep(byID: map<int, Account>, nodes: seq<Account>, n: nat)
    requires n < |nodes| && Distinct(nodes)
    requires MapsLast(byID, nodes, n)
    ensures MapsLast(byID[nodes[n].ID() := nodes[n]], nodes, n + 1)
  {
    var next := byID[nodes[n].ID() := nodes[n]];
    assert nodes[..n + 1] == nodes[..n] + [nodes[n]];
    forall j | 0 <= j < n + 1
      ensures next[nodes[j].ID()] == nodes[j] <==> IsLast(nodes[..n + 1], j)
    {
      if j < n {
        assert nodes[..n + 1][n] == nodes[n] != nodes[j];
        if IsLast(nodes[..n + 1], j) {
          assert nodes[..n + 1][n].ID() != nodes[..n + 1][j].ID();
          assert forall k | j < k < n :: nodes[..n][k] == nodes[..n + 1][k];
          assert IsLast(nodes[..n], j);
        } else if nodes[n].ID() != nodes[j].ID() {
          var k :| j < k < n + 1 && nodes[..n + 1][k].ID() == nodes[..n + 1][j].ID();
          assert nodes[..n][k] == nodes[k];
          assert !IsLast(nodes[..n], j);
        }
      }
    }
  }

  predicate Owns(byID: map<int, Account>, n: Account) {
    n.ID() in byID && byID[n.ID()] == n
  }

  function HasKey(p: int): Account -> bool {
    (n: Account) => n.ProxyID() == Some(p)
  }

  // ----- The loaders

  /** The key list of a child query, and the map back from keys to account objects. */
  method IndexByID(nodes: seq<Account>) returns (ids: seq<int>, byID: map<int, Account>)
    requires Distinct(nodes)
    ensures ids == IDs(nodes) && MapsLast(byID, nodes, |nodes|)
  {
    ids, byID := [], map[];
    for i := 0 to |nodes|
      invariant ids == IDs(nodes)[..i]
      invariant MapsLast(byID, nodes, i)
    {
      MapsLastStep(byID, nodes, i);
      ids := ids + [nodes[i].ID()];
      byID := byID[nodes[i].ID() := nodes[i]];
    }
    assert ids == IDs(nodes);
  }

  /** What the collecting pass knows after `k` links: the accounts collected for a group are the
      objects of the accounts linked to it so far. */
  ghost predicate Collected(nids: map<int, set<Account>>, byID: map<int, Account>, links: seq<Link>, k: nat)
    requires k <= |links|
  {
    && (forall g :: g in nids <==> Appears(links[..k], g))
    && (forall g | g in nids :: forall n | n in nids[g] :: Owns(byID, n) && Linked(links[..k], n.ID(), g))
    && (forall g | g in nids :: forall a | a in byID && Linked(links[..k], a, g) :: byID[a] in nids[g])
  }

  lemma {:induction false} CollectedStep(nids: map<int, set<Account>>, byID: map<int, Account>, links: seq<Link>, k: nat)
    requires k < |links| && links[k].account in byID && byID[links[k].account].ID() == links[k].account
    requires Collected(nids, byID, links, k)
    ensures var l := links[k];
      var more := (if l.gid in nids then nids[l.gid] else {}) + {byID[l.account]};
      Collected(nids[l.gid := more], byID, links, k + 1)
  {
    var front, l := links[..k], links[k];
    assert links[..k + 1] == front + [l];
    forall g ensures Appears(links[..k + 1], g) <==> Appears(front, g) || l.gid == g {
      AppearsStep(front, l, g);
    }
    forall a, g ensures Linked(links[..k + 1], a, g) <==> Linked(front, a, g) || (l.account == a && l.gid == g) {
      if Linked(front, a, g) {
        var i :| 0 <= i < k && front[i].account == a && front[i].gid == g;
        assert links[..k + 1][i] == front[i];
      }
      if Linked(links[..k + 1], a, g) {
        var i :| 0 <= i < k + 1 && links[..k + 1][i].account == a && links[..k + 1][i].gid == g;
        assert i < k ==> links[..k + 1][i] == front[i];
      }
      assert links[..k + 1][k] == l;
    }
    forall a, g | Linked(front, a, g) ensures Appears(front, g) {
    }
  }

  /** Every row of the groups' child query passes here: a group node is made only for the first row
      that names the group, and the account object of each row is recorded for the group. */
  method Collect(stream: seq<Row>, columns: seq<string>, byID: map<int, Account>)
      returns (nids: map<int, set<Account>>, neighbors: seq<Row>)
    requires columns != []
    requires forall k | 0 <= k < |stream| :: IntCol(stream[k], JOIN_COL) in byID
    requires forall id | id in byID :: byID[id].ID() == id
    ensures neighbors == RowsOf(Firsts(ToLinks(stream, columns)))
    ensures Collected(nids, byID, ToLinks(stream, columns), |stream|)
  {
    ghost var links := ToLinks(stream, columns);
    nids, neighbors := map[], [];
    for k := 0 to |stream|
      invariant neighbors == RowsOf(Firsts(links[..k]))
      invariant Collected(nids, byID, links, k)
    {
      var outValue, inValue := IntCol(stream[k], JOIN_COL), IntCol(stream[k], columns[0]);
      assert links[k] == Link(outValue, inValue, Project(stream[k], columns));
      CollectedStep(nids, byID, links, k);
      assert links[..k + 1][..k] == links[..k];
      if inValue !in nids {
        nids := nids[inValue := {byID[outValue]}];
        neighbors := neighbors + [Project(stream[k], columns)];
      } else {
        nids := nids[inValue := nids[inValue] + {byID[outValue]}];
      }
    }
    assert links[..|links|] == links;
  }

  /** Go visits the account objects of a group in any order. */
  method AppendGroup(targets: set<Account>, n: Row)
    modifies targets`groups
    ensures forall a | a in targets :: a.groups == old(a.groups) + [n]
  {
    var left := targets;
    while left != {}
      invariant left <= targets
      invariant forall a | a in targets :: a.groups == if a in left then old(a.groups) else old(a.groups) + [n]
      decreases left
    {
      var kn :| kn in left;
      kn.groups := kn.groups + [n];
      left := left - {kn};
    }
  }

  function Receives(nids: map<int, set<Account>>, a: Account): Pred {
    (r: Row) => IntCol(r, "id") in nids && a in nids[IntCol(r, "id")]
  }

  method AssignGroups(neighbors: seq<Row>, nids: map<int, set<Account>>, nodes: seq<Account>)
      returns (r: Result<(), LoadError>)
    requires forall id | id in nids :: forall a | a in nids[id] :: a in nodes
    requires forall j | 0 <= j < |nodes| :: nodes[j].groups == []
    modifies nodes`groups
    ensures r.Success? <==> forall n | n in neighbors :: IntCol(n, "id") in nids
    ensures r.Success? ==> forall j | 0 <= j < |nodes| :: nodes[j].groups == Filter(neighbors, Receives(nids, nodes[j]))
  {
    for i := 0 to |neighbors|
      invariant forall k | 0 <= k < i :: IntCol(neighbors[k], "id") in nids
      invariant forall j | 0 <= j < |nodes| :: nodes[j].groups == Filter(neighbors[..i], Receives(nids, nodes[j]))
    {
      var id := IntCol(neighbors[i], "id");
      assert neighbors[i] in neighbors;
      if id !in nids {
        return Failure(UnexpectedKey("groups", id));
      }
      label before:
      AppendGroup(nids[id], neighbors[i]);
      forall j | 0 <= j < |nodes| ensures nodes[j].groups == Filter(neighbors[..i + 1], Receives(nids, nodes[j])) {
        FilterStep(neighbors, i, Receives(nids, nodes[j]));
        assert nodes[j] !in nids[id] ==> nodes[j].groups == old@before(nodes[j].groups);
      }
    }
    assert neighbors[..|neighbors|] == neighbors;
    return Success(());
  }

  /** What a node receives is its join, if it is the object its ID is mapped to. */
  lemma {:induction false} ReceivedIsJoined(nids: map<int, set<Account>>, byID: map<int, Account>, links: seq<Link>, a: Account)
    requires Collected(nids, byID, links, |links|)
    requires forall l | l in links :: l.gid == IntCol(l.row, "id")
    ensures forall l | l in Firsts(links) :: l.gid in nids && IntCol(l.row, "id") == l.gid
    ensures Filter(RowsOf(Firsts(links)), Receives(nids, a)) == if Owns(byID, a) then RowsOf(Joined(links, a.ID())) else []
  {
    var firsts := Firsts(links);
    FirstsByRank(links);
    assert links[..|links|] == links;
    forall l | l in firsts ensures l in links && l.gid in nids {
      RankIsFirst(links, l.gid);
    }
    forall l | l in firsts
      ensures Receives(nids, a)(l.row) <==> Owns(byID, a) && OnAccount(links, a.ID())(l)
    {
    }
    if Owns(byID, a) {
      FilterRows(firsts, Receives(nids, a), OnAccount(links, a.ID()));
    } else {
      forall r | r in RowsOf(firsts) ensures !Receives(nids, a)(r) {
        var i :| 0 <= i < |firsts| && RowsOf(firsts)[i] == r;
        assert firsts[i] in firsts;
      }
      FilterNone(RowsOf(firsts), Receives(nids, a));
    }
  }

  lemma {:induction false} FilterRows(links: seq<Link>, p: Pred, q: Link -> bool)
    requires forall l | l in links :: p(l.row) == q(l)
    ensures Filter(RowsOf(links), p) == RowsOf(Filter(links, q))
  {
    if links != [] {
      var n := |links| - 1;
      assert links[n] in links;
      FilterRows(links[..n], p, q);
      assert RowsOf(links)[..n] == RowsOf(links[..n]);
    }
  }

  /** The joined child query of the many-to-many edge. */
  method ReadGroups(t: Table, query: Builder, edgeIDs: seq<int>)
      returns (invalid: Option<string>, stream: seq<Row>, columns: seq<string>)
    requires HasID(query.entity)
    modifies query`predicates
    ensures query.predicates == old(query.predicates) + [InValues(JOIN_COL, edgeIDs)]
    ensures invalid.None? <==> forall f | f in query.ctx.fields :: f in query.entity.columns
    ensures columns != []
    ensures invalid.None? ==> ToLinks(stream, columns) == GroupStream(t, query.entity, old(query.Now()), query.traversed, edgeIDs)
    ensures invalid.None? ==> forall l | l in ToLinks(stream, columns) :: l.account in edgeIDs && l.gid == IntCol(l.row, "id")
  {
    ghost var before := query.Now();
    query.predicates := query.predicates + [InValues(JOIN_COL, edgeIDs)];
    invalid := query.Prepare();
    if invalid.Some? {
      return invalid, [], query.entity.columns;
    }
    var spec := query.QuerySpec([]);
    spec := spec.(unique := false);
    ProjectionKeepsKeys(query.entity, query.ctx.fields, []);
    GroupStreamCarriesKeys(t, query.entity, before, query.traversed, edgeIDs);
    return None, RunSpec(t, spec), spec.columns;
  }

  /** Many to many. */
  method LoadGroups(t: Table, query: Builder, nodes: seq<Account>) returns (r: Result<(), LoadError>)
    requires Distinct(nodes) && HasID(query.entity)
    modifies query`predicates, nodes`groups
    ensures query.predicates == old(query.predicates) + [InValues(JOIN_COL, IDs(nodes))]
    ensures r.Success? <==> forall f | f in query.ctx.fields :: f in query.entity.columns
    ensures r.Failure? ==> r.error.InvalidField?
    ensures r.Success? ==>
      var links := GroupStream(t, query.entity, old(query.Now()), query.traversed, IDs(nodes));
      forall j | 0 <= j < |nodes| ::
        nodes[j].groups == if IsLast(nodes, j) then RowsOf(Joined(links, nodes[j].ID())) else []
  {
    var edgeIDs, byID := IndexByID(nodes);
    forall n | n in nodes {
      n.groups := [];
    }
    var invalid, stream, columns := ReadGroups(t, query, edgeIDs);
    if invalid.Some? {
      return Failure(InvalidField(invalid.value));
    }
    r := LinkGroups(stream, columns, byID, nodes);
  }

  /** The client side of the many-to-many edge. */
  method LinkGroups(stream: seq<Row>, columns: seq<string>, byID: map<int, Account>, nodes: seq<Account>)
      returns (r: Result<(), LoadError>)
    requires columns != [] && MapsLast(byID, nodes, |nodes|)
    requires forall l | l in ToLinks(stream, columns) :: l.account in IDs(nodes) && l.gid == IntCol(l.row, "id")
    requires forall j | 0 <= j < |nodes| :: nodes[j].groups == []
    modifies nodes`groups
    ensures r.Success?
    ensures forall j | 0 <= j < |nodes| ::
      nodes[j].groups == if IsLast(nodes, j) then RowsOf(Joined(ToLinks(stream, columns), nodes[j].ID())) else []
  {
    ghost var links := ToLinks(stream, columns);
    KnownKeys(byID, nodes);
    forall k | 0 <= k < |stream| ensures IntCol(stream[k], JOIN_COL) in byID {
      assert links[k] in links;
    }
    var nids, neighbors := Collect(stream, columns, byID);
    AllReceived(nids, byID, links, neighbors);
    r := AssignGroups(neighbors, nids, nodes);
    OwnersAreLast(byID, nodes);
    forall j | 0 <= j < |nodes|
      ensures nodes[j].groups == if IsLast(nodes, j) then RowsOf(Joined(links, nodes[j].ID())) else []
    {
      ReceivedIsJoined(nids, byID, links, nodes[j]);
    }
  }

  lemma {:induction false} AllReceived(nids: map<int, set<Account>>, byID: map<int, Account>, links: seq<Link>, neighbors: seq<Row>)
    requires Collected(nids, byID, links, |links|)
    requires forall l | l in links :: l.gid == IntCol(l.row, "id")
    requires neighbors == RowsOf(Firsts(links))
    ensures forall n | n in neighbors :: IntCol(n, "id") in nids
  {
    var firsts := Firsts(links);
    FirstsByRank(links);
    assert links[..|links|] == links;
    forall i | 0 <= i < |neighbors| ensures IntCol(neighbors[i], "id") in nids {
      assert firsts[i] in firsts;
      RankIsFirst(links, firsts[i].gid);
    }
  }

  lemma {:induction false} OwnersAreLast(byID: map<int, Account>, nodes: seq<Account>)
    requires MapsLast(byID, nodes, |nodes|)
    ensures forall j | 0 <= j < |nodes| :: Owns(byID, nodes[j]) <==> IsLast(nodes, j)
  {
    assert nodes[..|nodes|] == nodes;
  }

  /** The distinct foreign keys, and for each the nodes that use it, in node order. */
  method GroupByKey(nodes: seq<Account>) returns (ids: seq<int>, nodeids: map<int, seq<Account>>)
    ensures ids == Keys(ProxyIDs(nodes))
    ensures forall p :: p in nodeids <==> p in ids
    ensures forall p | p in nodeids :: nodeids[p] == Filter(nodes, HasKey(p))
  {
    ids, nodeids := [], map[];
    for i := 0 to |nodes|
      invariant ids == Keys(ProxyIDs(nodes)[..i])
      invariant forall p :: p in nodeids <==> p in ids
      invariant forall p | p in nodeids :: nodeids[p] == Filter(nodes[..i], HasKey(p))
    {
      assert nodes[..i + 1][..i] == nodes[..i] && ProxyIDs(nodes)[..i + 1][..i] == ProxyIDs(nodes)[..i];
      if nodes[i].ProxyID().Some? {
        var fk := nodes[i].ProxyID().value;
        if fk !in nodeids {
          assert ProxyIDs(nodes)[..i] == ProxyIDs(nodes[..i]);
          NoKeyYet(nodes[..i], fk);
          ids := ids + [fk];
        }
        nodeids := nodeids[fk := (if fk in nodeids then nodeids[fk] else []) + [nodes[i]]];
      }
    }
    assert nodes[..|nodes|] == nodes && ProxyIDs(nodes)[..|nodes|] == ProxyIDs(nodes);
  }

  lemma {:induction false} NoKeyYet(nodes: seq<Account>, p: int)
    requires p !in Keys(ProxyIDs(nodes))
    ensures Filter(nodes, HasKey(p)) == []
  {
    KeysAreTheForeignKeys(ProxyIDs(nodes));
    forall j | 0 <= j < |nodes| ensures nodes[j].ProxyID() != Some(p) {
      assert ProxyIDs(nodes)[j] in ProxyIDs(nodes);
    }
    FilterNone(nodes, HasKey(p));
  }

  method PointAll(targets: seq<Account>, n: Row)
    modifies targets`proxy
    ensures forall a | a in targets :: a.proxy == Some(n)
  {
    for k := 0 to |targets|
      invariant forall i | 0 <= i < k :: targets[i].proxy == Some(n)
    {
      targets[k].proxy := Some(n);
    }
  }

  method AssignProxies(neighbors: seq<Row>, nodeids: map<int, seq<Account>>, nodes: seq<Account>)
      returns (r: Result<(), LoadError>)
    requires forall p | p in nodeids :: nodeids[p] == Filter(nodes, HasKey(p))
    modifies nodes`proxy
    ensures r.Success? <==> forall n | n in neighbors :: IntCol(n, "id") in nodeids
    ensures r.Success? ==> forall j | 0 <= j < |nodes| :: nodes[j].proxy == PointedAt(neighbors, nodes[j].ProxyID(), old(nodes[j].proxy))
  {
    for i := 0 to |neighbors|
      invariant forall k | 0 <= k < i :: IntCol(neighbors[k], "id") in nodeids
      invariant forall j | 0 <= j < |nodes| ::
        nodes[j].proxy == PointedAt(neighbors[..i], nodes[j].ProxyID(), old(nodes[j].proxy))
    {
      var id := IntCol(neighbors[i], "id");
      assert neighbors[i] in neighbors;
      if id !in nodeids {
        return Failure(UnexpectedKey("proxy_id", id));
      }
      var targets := nodeids[id];
      forall k | 0 <= k < |targets| ensures targets[k] in nodes {
        assert targets[k] in targets;
        FilterMember(nodes, HasKey(id), targets[k]);
      }
      label before:
      PointAll(targets, neighbors[i]);
      assert neighbors[..i + 1][..i] == neighbors[..i];
      forall j | 0 <= j < |nodes|
        ensures nodes[j].proxy == PointedAt(neighbors[..i + 1], nodes[j].ProxyID(), old(nodes[j].proxy))
      {
        var a := nodes[j];
        FilterMember(nodes, HasKey(id), a);
        assert a !in nodeids[id] ==> a.proxy == old@before(a.proxy);
      }
    }
    assert neighbors[..|neighbors|] == neighbors;
    return Success(());
  }

  /** Many to one. Nodes without the foreign key, and keys no row was returned for, are left alone;
      with no key at all the child query is not executed. */
  method LoadProxy(t: Table, query: Builder, nodes: seq<Account>) returns (r: Result<(), LoadError>)
    requires HasID(query.entity)
    modifies query`predicates, nodes`proxy
    ensures query.predicates == old(query.predicates) + (if Keys(ProxyIDs(nodes)) == [] then [] else [InValues("id", Keys(ProxyIDs(nodes)))])
    ensures r.Success? <==> Keys(ProxyIDs(nodes)) == [] || forall f | f in query.ctx.fields :: f in query.entity.columns
    ensures r.Failure? ==> r.error.InvalidField?
    ensures r.Success? ==>
      var rows := Children(t, query.entity, old(query.Now()), query.traversed, "id", Keys(ProxyIDs(nodes)));
      forall j | 0 <= j < |nodes| :: nodes[j].proxy == PointedAt(rows, nodes[j].ProxyID(), old(nodes[j].proxy))
  {
    ghost var before := query.Now();
    var ids, nodeids := GroupByKey(nodes);
    ProjectionKeepsKeys(query.entity, query.ctx.fields, []);
    ChildrenCarryKeys(t, query.entity, before, query.traversed, "id", ids);
    ghost var rows := Children(t, query.entity, before, query.traversed, "id", ids);
    KeysAreTheForeignKeys(ProxyIDs(nodes));
    assert |rows| > 0 ==> rows[0] in rows;
    if |ids| == 0 {
      return Success(());
    }
    query.predicates := query.predicates + [InValues("id", ids)];
    var all := query.All(t, []);
    if all.Failure? {
      return Failure(InvalidField(all.error));
    }
    assert all.value == rows;
    r := AssignProxies(all.value, nodeids, nodes);
  }

  function GoesTo(nodeids: map<int, Account>, a: Account): Pred {
    (r: Row) => IntCol(r, "account_id") in nodeids && nodeids[IntCol(r, "account_id")] == a
  }

  lemma {:induction false} ReceivedIsOwned(rows: seq<Row>, nodeids: map<int, Account>, a: Account)
    requires forall id | id in nodeids :: nodeids[id].ID() == id
    ensures Filter(rows, GoesTo(nodeids, a)) == if Owns(nodeids, a) then OwnedBy(rows, "account_id", a.ID()) else []
  {
    if Owns(nodeids, a) {
      FilterAgree(rows, GoesTo(nodeids, a), ColumnIs("account_id", a.ID()));
    } else {
      FilterNone(rows, GoesTo(nodeids, a));
    }
  }

  /** The child query of a one-to-many edge; a projection is extended with the foreign key. */
  method ReadOwned(t: Table, query: Builder, fks: seq<int>) returns (all: Result<seq<Row>, string>)
    requires "account_id" in query.entity.columns
    modifies query`predicates, query.ctx`fields
    ensures query.Now() == WithField(old(query.Now()), "account_id").(predicates := old(query.predicates) + [InValues("account_id", fks)])
    ensures all.Success? <==> forall f | f in old(query.ctx.fields) :: f in query.entity.columns
    ensures all.Success? ==>
      && all.value == Children(t, query.entity, WithField(old(query.Now()), "account_id"), query.traversed, "account_id", fks)
      && forall w | w in all.value :: IntCol(w, "account_id") in fks
  {
    ghost var before := query.Now();
    AddOnceMembers(query.ctx.fields, ["account_id"]);
    if |query.ctx.fields| > 0 {
      query.ctx.AppendFieldOnce("account_id");
    }
    query.predicates := query.predicates + [InValues("account_id", fks)];
    SelectedColumn(query.entity, query.ctx.fields, "account_id");
    ChildrenCarryKeys(t, query.entity, WithField(before, "account_id"), query.traversed, "account_id", fks);
    all := query.All(t, []);
  }

  method AssignUsageLogs(neighbors: seq<Row>, nodeids: map<int, Account>, nodes: seq<Account>)
      returns (r: Result<(), LoadError>)
    requires forall id | id in nodeids :: nodeids[id] in nodes
    requires forall j | 0 <= j < |nodes| :: nodes[j].usageLogs == []
    modifies nodes`usageLogs
    ensures r.Success? <==> forall n | n in neighbors :: IntCol(n, "account_id") in nodeids
    ensures r.Success? ==> forall j | 0 <= j < |nodes| :: nodes[j].usageLogs == Filter(neighbors, GoesTo(nodeids, nodes[j]))
  {
    for i := 0 to |neighbors|
      invariant forall k | 0 <= k < i :: IntCol(neighbors[k], "account_id") in nodeids
      invariant forall j | 0 <= j < |nodes| :: nodes[j].usageLogs == Filter(neighbors[..i], GoesTo(nodeids, nodes[j]))
    {
      var fk := IntCol(neighbors[i], "account_id");
      assert neighbors[i] in neighbors;
      if fk !in nodeids {
        return Failure(UnexpectedKey("account_id", fk));
      }
      var node := nodeids[fk];
      label before:
      node.usageLogs := node.usageLogs + [neighbors[i]];
      forall j | 0 <= j < |nodes| ensures nodes[j].usageLogs == Filter(neighbors[..i + 1], GoesTo(nodeids, nodes[j])) {
        FilterStep(neighbors, i, GoesTo(nodeids, nodes[j]));
        assert nodes[j] != node ==> nodes[j].usageLogs == old@before(nodes[j].usageLogs);
      }
    }
    assert neighbors[..|neighbors|] == neighbors;
    return Success(());
  }

  /** The logs of all nodes, one list after the other. */
  function AllLogs(nodes: seq<Account>): seq<Row>
    reads nodes`usageLogs
  {
    if nodes == [] then [] else AllLogs(nodes[..|nodes| - 1]) + nodes[|nodes| - 1].usageLogs
  }

  ghost predicate HoldTheirOwn(nodes: seq<Account>, rows: seq<Row>)
    reads nodes`usageLogs
  {
    forall j | 0 <= j < |nodes| :: nodes[j].usageLogs == OwnedBy(rows, "account_id", nodes[j].ID())
  }

  lemma {:induction false} AllLogsGather(nodes: seq<Account>, rows: seq<Row>)
    requires HoldTheirOwn(nodes, rows)
    ensures AllLogs(nodes) == Gather(rows, "account_id", IDs(nodes))
  {
    if nodes != [] {
      AllLogsGather(nodes[..|nodes| - 1], rows);
      assert IDs(nodes)[..|nodes| - 1] == IDs(nodes[..|nodes| - 1]);
    }
  }

  lemma {:induction false} DistinctIsLast(nodes: seq<Account>, j: nat)
    requires j < |nodes| && Distinct(IDs(nodes))
    ensures IsLast(nodes, j)
  {
    forall k | j < k < |nodes| ensures nodes[k].ID() != nodes[j].ID() {
      assert IDs(nodes)[k] != IDs(nodes)[j];
    }
  }

  /** Conservation: with distinct IDs the nodes hold every log of the child result exactly as often as it does. */
  lemma {:induction false} LogsAreConserved(nodes: seq<Account>, rows: seq<Row>, ids: seq<int>)
    requires ids == IDs(nodes) && Distinct(ids) && HoldTheirOwn(nodes, rows)
    requires forall w | w in rows :: IntCol(w, "account_id") in ids
    ensures multiset(AllLogs(nodes)) == multiset(rows)
  {
    AllLogsGather(nodes, rows);
    GatheredIsConserved(rows, AllLogs(nodes), ids);
  }

  lemma {:induction false} GatheredIsConserved(rows: seq<Row>, gathered: seq<Row>, ids: seq<int>)
    requires gathered == Gather(rows, "account_id", ids) && Distinct(ids)
    requires forall w | w in rows :: IntCol(w, "account_id") in ids
    ensures multiset(gathered) == multiset(rows)
  {
    ListsPartitionTheResult(rows, "account_id", ids);
  }

  /** One to many, usage logs. */
  method LoadUsageLogs(t: Table, query: Builder, nodes: seq<Account>) returns (r: Result<(), LoadError>)
    requires Distinct(nodes) && "account_id" in query.entity.columns
    modifies query`predicates, query.ctx`fields, nodes`usageLogs
    ensures query.Now() == WithField(old(query.Now()), "account_id").(predicates := old(query.predicates) + [InValues("account_id", IDs(nodes))])
    ensures r.Success? <==> forall f | f in old(query.ctx.fields) :: f in query.entity.columns
    ensures r.Failure? ==> r.error.InvalidField?
    ensures r.Success? ==>
      var rows := Children(t, query.entity, WithField(old(query.Now()), "account_id"), query.traversed, "account_id", IDs(nodes));
      && (forall w | w in rows :: IntCol(w, "account_id") in IDs(nodes))
      && forall j | 0 <= j < |nodes| ::
           nodes[j].usageLogs == if IsLast(nodes, j) then OwnedBy(rows, "account_id", nodes[j].ID()) else []
    ensures r.Success? && Distinct(IDs(nodes)) ==>
      multiset(AllLogs(nodes)) ==
      multiset(Children(t, query.entity, WithField(old(query.Now()), "account_id"), query.traversed, "account_id", IDs(nodes)))
  {
    var fks, nodeids := IndexByID(nodes);
    forall n | n in nodes {
      n.usageLogs := [];
    }
    var all := ReadOwned(t, query, fks);
    if all.Failure? {
      return Failure(InvalidField(all.error));
    }
    KnownKeys(nodeids, nodes);
    r := AssignUsageLogs(all.value, nodeids, nodes);
    OwnersAreLast(nodeids, nodes);
    forall j | 0 <= j < |nodes| {
      ReceivedIsOwned(all.value, nodeids, nodes[j]);
    }
    if Distinct(IDs(nodes)) {
      forall j | 0 <= j < |nodes| ensures IsLast(nodes, j) {
        DistinctIsLast(nodes, j);
      }
      LogsAreConserved(nodes, all.value, IDs(nodes));
    }
  }

  method AssignAccountGroups(neighbors: seq<Row>, nodeids: map<int, Account>, nodes: seq<Account>)
      returns (r: Result<(), LoadError>)
    requires forall id | id in nodeids :: nodeids[id] in nodes
    requires forall j | 0 <= j < |nodes| :: nodes[j].accountGroups == []
    modifies nodes`accountGroups
    ensures r.Success? <==> forall n | n in neighbors :: IntCol(n, "account_id") in nodeids
    ensures r.Success? ==> forall j | 0 <= j < |nodes| :: nodes[j].accountGroups == Filter(neighbors, GoesTo(nodeids, nodes[j]))
  {
    for i := 0 to |neighbors|
      invariant forall k | 0 <= k < i :: IntCol(neighbors[k], "account_id") in nodeids
      invariant forall j | 0 <= j < |nodes| :: nodes[j].accountGroups == Filter(neighbors[..i], GoesTo(nodeids, nodes[j]))
    {
      var fk := IntCol(neighbors[i], "account_id");
      assert neighbors[i] in neighbors;
      if fk !in nodeids {
        return Failure(UnexpectedKey("account_id", fk));
      }
      var node := nodeids[fk];
      label before:
      node.accountGroups := node.accountGroups + [neighbors[i]];
      forall j | 0 <= j < |nodes| ensures nodes[j].accountGroups == Filter(neighbors[..i + 1], GoesTo(nodeids, nodes[j])) {
        FilterStep(neighbors, i, GoesTo(nodeids, nodes[j]));
        assert nodes[j] != node ==> nodes[j].accountGroups == old@before(nodes[j].accountGroups);
        assert GoesTo(nodeids, nodes[j])(neighbors[i]) == (nodes[j] == node);
      }
    }
    assert neighbors[..|neighbors|] == neighbors;
    return Success(());
  }

  /** One to many, rows of the join entity. */
  method LoadAccountGroups(t: Table, query: Builder, nodes: seq<Account>) returns (r: Result<(), LoadError>)
    requires Distinct(nodes) && "account_id" in query.entity.columns
    modifies query`predicates, query.ctx`fields, nodes`accountGroups
    ensures query.Now() == WithField(old(query.Now()), "account_id").(predicates := old(query.predicates) + [InValues("account_id", IDs(nodes))])
    ensures r.Success? <==> forall f | f in old(query.ctx.fields) :: f in query.entity.columns
    ensures r.Failure? ==> r.error.InvalidField?
    ensures r.Success? ==>
      var rows := Children(t, query.entity, WithField(old(query.Now()), "account_id"), query.traversed, "account_id", IDs(nodes));
      && (forall w | w in rows :: IntCol(w, "account_id") in IDs(nodes))
      && forall j | 0 <= j < |nodes| ::
           nodes[j].accountGroups == if IsLast(nodes, j) then OwnedBy(rows, "account_id", nodes[j].ID()) else []
  {
    var fks, nodeids := IndexByID(nodes);
    forall n | n in nodes {
      n.accountGroups := [];
    }
    var all := ReadOwned(t, query, fks);
    if all.Failure? {
      return Failure(InvalidField(all.error));
    }
    KnownKeys(nodeids, nodes);
    r := AssignAccountGroups(all.value, nodeids, nodes);
    OwnersAreLast(nodeids, nodes);
    forall j | 0 <= j < |nodes| {
      ReceivedIsOwned(all.value, nodeids, nodes[j]);
    }
  }

  lemma {:induction false} KnownKeys(nodeids: map<int, Account>, nodes: seq<Account>)
    requires MapsLast(nodeids, nodes, |nodes|)
    ensures forall id :: id in nodeids <==> id in IDs(nodes)
    ensures forall id | id in nodeids :: nodeids[id] in nodes
  {
    assert nodes[..|nodes|] == nodes;
    forall id ensures id in nodeids <==> id in IDs(nodes) {
      if id in nodeids {
        var j :| 0 <= j < |nodes| && nodes[j] == nodeids[id];
        assert IDs(nodes)[j] == id;
      }
      if id in IDs(nodes) {
        var j :| 0 <= j < |nodes| && IDs(nodes)[j] == id;
        assert nodes[j].ID() in nodeids;
      }
    }
  }

  /** A selected column, or any column when nothing is selected, is read. */
  lemma {:induction false} SelectedColumn(e: Entity, fields: seq<string>, c: string)
    requires c in e.columns
    requires fields != [] ==> c in fields
    ensures c in SpecColumns(e, fields, [])
  {
    if fields != [] && e.idColumn.Some? {
      FilterMember(fields, NotEqual(e.idColumn.value), c);
    }
  }
}
