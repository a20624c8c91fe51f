/** The account query with its requested edges: the whole eager load, and copies of the query. */
module AccountQuery {
  import opened Wrappers
  import opened Seqs
  import opened Rows
  import opened Joins
  import opened Query
  import opened EagerLoad

  datatype Database = Database(accounts: Table, groups: Table, proxies: Table, usageLogs: Table, accountGroups: Table)

  /** What a builder asks for, as a value. */
  datatype Ask = Ask(entity: Entity, state: State, traversed: bool)

  datatype Plan = Plan(account: Ask, groups: Option<Ask>, proxy: Option<Ask>, usageLogs: Option<Ask>, accountGroups: Option<Ask>)

  predicate HasColumn(e: Entity, c: string) {
    c in e.columns
  }

  predicate FieldsKnown(a: Ask) {
    forall f | f in a.state.fields :: f in a.entity.columns
  }

  function ReadColumns(p: Plan): seq<string> {
    SpecColumns(p.account.entity, p.account.state.fields, if p.proxy.Some? then ["proxy_id"] else [])
  }

  /** The account rows with all their columns. */
  function FullRows(db: Database, p: Plan): seq<Row> {
    RunSpec(db.accounts, SpecOf(p.account.entity, p.account.state, p.account.traversed, if p.proxy.Some? then ["proxy_id"] else []))
  }

  function RowIDs(rows: seq<Row>): (ids: seq<int>)
    ensures |ids| == |rows|
  {
    seq(|rows|, i requires 0 <= i < |rows| => IntCol(rows[i], "id"))
  }

  function RowProxyIDs(rows: seq<Row>): (ids: seq<Option<int>>)
    ensures |ids| == |rows|
  {
    seq(|rows|, i requires 0 <= i < |rows| => OptIntCol(rows[i], "proxy_id"))
  }

  predicate LastWithID(ids: seq<int>, j: nat)
    requires j < |ids|
  {
    forall k | j < k < |ids| :: ids[k] != ids[j]
  }

  // The edges of row `j`, computed from the full rows.

  function GroupsEdge(db: Database, p: Plan, full: seq<Row>, j: nat): seq<Row>
    requires j < |full|
    requires p.groups.Some? ==> HasID(p.groups.value.entity)
  {
    if p.groups.Some? && LastWithID(RowIDs(full), j) then
      var a := p.groups.value;
      RowsOf(Joined(GroupStream(db.groups, a.entity, a.state, a.traversed, RowIDs(full)), RowIDs(full)[j]))
    else []
  }

  function ProxyEdge(db: Database, p: Plan, full: seq<Row>, j: nat): Option<Row>
    requires j < |full|
  {
    if p.proxy.Some? then
      var a, keys := p.proxy.value, Keys(RowProxyIDs(full));
      PointedAt(Children(db.proxies, a.entity, a.state, a.traversed, "id", keys), RowProxyIDs(full)[j], None)
    else None
  }

  function OwnedEdge(t: Table, ask: Option<Ask>, full: seq<Row>, j: nat): seq<Row>
    requires j < |full|
  {
    if ask.Some? && LastWithID(RowIDs(full), j) then
      var a := ask.value;
      OwnedBy(Children(t, a.entity, WithField(a.state, "account_id"), a.traversed, "account_id", RowIDs(full)), "account_id", RowIDs(full)[j])
    else []
  }

  /** No executed query selects an unknown field. A child query is executed only if there are
      accounts, and the proxies' only if some account has a proxy. */
  predicate Executes(p: Plan, full: seq<Row>) {
    FieldsKnown(p.account) && (full != [] ==> PointersExecute(p, full) && ListsExecute(p))
  }

  predicate PointersExecute(p: Plan, full: seq<Row>) {
    && (p.groups.Some? ==> FieldsKnown(p.groups.value))
    && (p.proxy.Some? && Keys(RowProxyIDs(full)) != [] ==> FieldsKnown(p.proxy.value))
  }

  predicate ListsExecute(p: Plan) {
    && (p.usageLogs.Some? ==> FieldsKnown(p.usageLogs.value))
    && (p.accountGroups.Some? ==> FieldsKnown(p.accountGroups.value))
  }

  ghost predicate PointersLoaded(nodes: seq<Account>, db: Database, p: Plan, full: seq<Row>)
    requires p.groups.Some? ==> HasID(p.groups.value.entity)
    reads nodes`groups, nodes`proxy
  {
    && |nodes| == |full|
    && forall j | 0 <= j < |full| :: nodes[j].groups == GroupsEdge(db, p, full, j) && nodes[j].proxy == ProxyEdge(db, p, full, j)
  }

  ghost predicate ListsLoaded(nodes: seq<Account>, db: Database, p: Plan, full: seq<Row>)
    reads nodes`usageLogs, nodes`accountGroups
  {
    && |nodes| == |full|
    && forall j | 0 <= j < |full| ::
      && nodes[j].usageLogs == OwnedEdge(db.usageLogs, p.usageLogs, full, j)
      && nodes[j].accountGroups == OwnedEdge(db.accountGroups, p.accountGroups, full, j)
  }

  /** One node per full row, with exactly the requested edges, each computed from the full rows. */
  ghost predicate IsGraphOf(nodes: seq<Account>, db: Database, p: Plan, full: seq<Row>)
    requires p.groups.Some? ==> HasID(p.groups.value.entity)
    reads nodes
  {
    && PointersLoaded(nodes, db, p, full) && ListsLoaded(nodes, db, p, full)
    && forall j | 0 <= j < |nodes| ::
      && nodes[j].cols == Project(full[j], ReadColumns(p))
      && nodes[j].loaded == Loaded(p.groups.Some?, p.proxy.Some?, p.usageLogs.Some?, p.accountGroups.Some?)
  }

  /** The full rows determine the keys the loaders read from the projected ones. */
  lemma {:induction false} ProjectedKeys(p: Plan, full: seq<Row>, nodes: seq<Account>)
    requires HasID(p.account.entity) && HasColumn(p.account.entity, "proxy_id")
    requires |nodes| == |full|
    requires forall j | 0 <= j < |nodes| :: nodes[j].cols == Project(full[j], ReadColumns(p))
    ensures IDs(nodes) == RowIDs(full)
    ensures p.proxy.Some? ==> ProxyIDs(nodes) == RowProxyIDs(full)
  {
    var extra := if p.proxy.Some? then ["proxy_id"] else [];
    var cols := SpecColumns(p.account.entity, p.account.state.fields, extra);
    ProjectionKeepsKeys(p.account.entity, p.account.state.fields, extra);
    forall j | 0 <= j < |nodes|
      ensures nodes[j].ID() == IntCol(full[j], "id")
      ensures p.proxy.Some? ==> nodes[j].ProxyID() == OptIntCol(full[j], "proxy_id")
    {
      ProjectKeeps(full[j], cols, "id");
      if p.proxy.Some? {
        assert extra[0] in extra;
        ProjectKeeps(full[j], cols, "proxy_id");
      }
    }
  }

  function AskOf(b: Builder?): Option<Ask>
    reads Set(b), Ctx(b)
  {
    if b == null then None else Some(Ask(b.entity, b.Now(), b.traversed))
  }

  function Set(b: Builder?): set<Builder> {
    if b != null then {b} else {}
  }

  function Ctx(b: Builder?): set<QueryContext>
    reads Set(b)`ctx
  {
    if b != null then {b.ctx} else {}
  }

  ghost predicate Apart(a: Builder?, b: Builder?)
    reads Set(a)`ctx, Set(b)`ctx
  {
    a != null && b != null ==> a != b && a.ctx != b.ctx
  }

  datatype FetchError = LoadFailed(error: LoadError) | NotFoundError | NotSingularError

  function Unlimited(p: Plan): Plan {
    p.(account := p.account.(state := p.account.state.(limit := None)))
  }

  function Limited(p: Plan, n: nat): Plan {
    p.(account := p.account.(state := p.account.state.(limit := Some(n))))
  }

  /** A positive limit keeps a prefix of what the query without a limit denotes. */
  lemma {:induction false} LimitedRows(db: Database, p: Plan, n: nat)
    requires n > 0 && p.account.state.limit == Some(n)
    ensures var all := FullRows(db, Unlimited(p)); FullRows(db, p) == if n < |all| then all[..n] else all
  {
  }

  function UnlockedAsk(a: Ask): Ask {
    a.(state := a.state.(modifiers := []))
  }

  function UnlockedIf(a: Option<Ask>): Option<Ask> {
    if a.None? then None else Some(UnlockedAsk(a.value))
  }

  /** A row lock is taken on the rows that are read, so a copy, which takes none, reads the same. */
  lemma {:induction false} LocksReadTheSame(t: Table, a: Ask, extra: seq<string>)
    ensures var u := UnlockedAsk(a);
      RunSpec(t, SpecOf(u.entity, u.state, u.traversed, extra)) == RunSpec(t, SpecOf(a.entity, a.state, a.traversed, extra))
  {
  }

  // ----- Selecting columns

  function Unselected(p: Plan): Plan {
    p.(account := p.account.(state := p.account.state.(fields := [])))
  }

  /** The account query compares whole rows only where that makes no difference: it is not DISTINCT, or the IDs differ. */
  ghost predicate SelectionSafe(db: Database, p: Plan) {
    var q := p.account.state;
    var rows := Matching(db.accounts(q.order), q.predicates);
    || q.unique == Some(false) || (q.unique.None? && !p.account.traversed)
    || forall i, j | 0 <= i < j < |rows| :: IntCol(rows[i], "id") != IntCol(rows[j], "id")
  }

  lemma {:induction false} DedupKeepsIDs(rows: seq<Row>, cols: seq<string>)
    requires "id" in cols && forall i, j | 0 <= i < j < |rows| :: IntCol(rows[i], "id") != IntCol(rows[j], "id")
    ensures Dedup(rows, cols) == rows
  {
    forall i, j | 0 <= i < j < |rows| ensures Project(rows[i], cols) != Project(rows[j], cols) {
      ProjectKeeps(rows[i], cols, "id");
      ProjectKeeps(rows[j], cols, "id");
    }
    DedupSize(rows, cols);
  }

  /** Selecting columns changes neither which accounts are read nor any of their edges. */
  lemma {:induction false} SelectionLeavesEdges(db: Database, p: Plan)
    requires HasID(p.account.entity) && HasColumn(p.account.entity, "proxy_id") && SelectionSafe(db, p)
    requires p.groups.Some? ==> HasID(p.groups.value.entity)
    ensures FullRows(db, p) == FullRows(db, Unselected(p))
    ensures forall j | 0 <= j < |FullRows(db, p)| ::
      var full, u := FullRows(db, p), Unselected(p);
      && GroupsEdge(db, p, full, j) == GroupsEdge(db, u, FullRows(db, u), j)
      && ProxyEdge(db, p, full, j) == ProxyEdge(db, u, FullRows(db, u), j)
      && OwnedEdge(db.usageLogs, p.usageLogs, full, j) == OwnedEdge(db.usageLogs, u.usageLogs, FullRows(db, u), j)
      && OwnedEdge(db.accountGroups, p.accountGroups, full, j) == OwnedEdge(db.accountGroups, u.accountGroups, FullRows(db, u), j)
  {
    var q := p.account.state;
    var rows := Matching(db.accounts(q.order), q.predicates);
    var extra := if p.proxy.Some? then ["proxy_id"] else [];
    if !(q.unique == Some(false) || (q.unique.None? && !p.account.traversed)) {
      ProjectionKeepsKeys(p.account.entity, q.fields, extra);
      DedupKeepsIDs(rows, SpecColumns(p.account.entity, q.fields, extra));
      DedupKeepsIDs(rows, p.account.entity.columns);
    }
  }

  method CloneAll(parts: seq<Builder?>) returns (copies: seq<Builder?>)
    ensures |copies| == |parts| && Separate(copies) && (forall k | 0 <= k < |copies| && copies[k] != null :: fresh(copies[k]) && fresh(copies[k].ctx))
    ensures forall i | 0 <= i < |parts| :: AskOf(copies[i]) == UnlockedIf(AskOf(parts[i]))
  {
    copies := [];
    for i := 0 to |parts|
      invariant |copies| == i && Separate(copies) && (forall k | 0 <= k < |copies| && copies[k] != null :: fresh(copies[k]) && fresh(copies[k].ctx))
      invariant forall k | 0 <= k < i :: AskOf(copies[k]) == UnlockedIf(AskOf(parts[k]))
    {
      var c: Builder? := null;
      if parts[i] != null {
        c := parts[i].Clone();
      }
      copies := copies + [c];
    }
  }

  // ----- Using a query and its copy side by side

  function Objects(parts: seq<Builder?>): set<Builder> {
    set b: Builder | b in parts
  }

  ghost function Contexts(parts: seq<Builder?>): set<QueryContext>
    reads Objects(parts)
  {
    set b: Builder | b in parts :: b.ctx
  }

  ghost predicate Separate(parts: seq<Builder?>)
    reads Objects(parts)
  {
    forall i, j | 0 <= i < j < |parts| && parts[i] != null && parts[j] != null :: parts[i] != parts[j] && parts[i].ctx != parts[j].ctx
  }

  function StepIf(a: Option<Ask>, op: Op): Option<Ask> {
    if a.None? then None else Some(a.value.(state := Step(a.value.state, op)))
  }

  /** One call in a script: on which builder, doing what. */
  datatype Call = Call(part: nat, op: Op)

  /** The effect of a script on builder `i`: the calls made on it, in order. */
  function Played(a: Option<Ask>, script: seq<Call>, i: nat): Option<Ask> {
    if script == [] then a
    else
      var before, last := Played(a, script[..|script| - 1], i), script[|script| - 1];
      if last.part == i then StepIf(before, last.op) else before
  }

  method DoIf(b: Builder?, op: Op)
    modifies Set(b)`order, Set(b)`predicates, Set(b)`modifiers, Ctx(b)
    ensures AskOf(b) == StepIf(old(AskOf(b)), op)
  {
    if b != null {
      b.Do(op);
    }
  }

  /** Calls on separate builders, in any interleaving, affect only the builder they are made on. */
  method Play(parts: seq<Builder?>, script: seq<Call>)
    requires Separate(parts)
    requires forall k | 0 <= k < |script| :: script[k].part < |parts|
    modifies Objects(parts), Contexts(parts)
    ensures forall i | 0 <= i < |parts| :: AskOf(parts[i]) == Played(old(AskOf(parts[i])), script, i)
  {
    for k := 0 to |script|
      invariant Separate(parts)
      invariant forall i | 0 <= i < |parts| :: Ctx(parts[i]) == old(Ctx(parts[i]))
      invariant forall i | 0 <= i < |parts| :: AskOf(parts[i]) == Played(old(AskOf(parts[i])), script[..k], i)
    {
      assert script[..k + 1][..k] == script[..k];
      var call := script[k];
      if parts[call.part] != null {
        assert parts[call.part] in Objects(parts) && old(parts[call.part].ctx) in old(Contexts(parts));
      }
      label before:
      DoIf(parts[call.part], call.op);
      forall i | 0 <= i < |parts|
        ensures AskOf(parts[i]) == Played(old(AskOf(parts[i])), script[..k + 1], i)
      {
        assert i != call.part ==> AskOf(parts[i]) == old@before(AskOf(parts[i]));
      }
    }
    assert script[..|script|] == script;
  }

  method PlayBoth(mine: seq<Builder?>, others: seq<Builder?>, script: seq<Call>)
    requires |mine| == |others| == 5 && Separate(mine) && Separate(others)
    requires forall i, j | 0 <= i < 5 && 0 <= j < 5 && mine[i] != null && others[j] != null :: mine[i] != others[j] && mine[i].ctx != others[j].ctx
    requires forall k | 0 <= k < |script| :: script[k].part < 10
    modifies Objects(mine), Contexts(mine), Objects(others), Contexts(others)
    ensures forall i | 0 <= i < 5 :: AskOf(mine[i]) == Played(old(AskOf(mine[i])), script, i)
    ensures forall i | 0 <= i < 5 :: AskOf(others[i]) == Played(old(AskOf(others[i])), script, i + 5)
  {
    var parts := mine + others;
    Play(parts, script);
    forall i | 0 <= i < 5
      ensures AskOf(mine[i]) == Played(old(AskOf(mine[i])), script, i)
      ensures AskOf(others[i]) == Played(old(AskOf(others[i])), script, i + 5)
    {
      assert parts[i] == mine[i] && parts[i + 5] == others[i];
    }
  }

  twostate lemma {:induction false} AllNew(mine: seq<Builder?>, new others: seq<Builder?>)
    requires |mine| == |others| == 5
    requires forall i | 0 <= i < 5 && others[i] != null :: fresh(others[i]) && fresh(others[i].ctx)
    ensures forall i, j | 0 <= i < 5 && 0 <= j < 5 && mine[i] != null && others[j] != null :: mine[i] != others[j] && old(mine[i].ctx) != others[j].ctx
  {
  }

  /** A copy is independent: whatever is called, in whatever interleaving, on the builders of a query
      (0 to 4) and of its copy (5 to 9), each ends up as if only its own calls had happened. */
  method CopyAndUse(q: AccountQuery, script: seq<Call>) returns (c: AccountQuery)
    requires Separate(q.Parts())
    requires forall k | 0 <= k < |script| :: script[k].part < 10
    modifies Objects(q.Parts()), Contexts(q.Parts())
    ensures forall i | 0 <= i < 5 :: AskOf(q.Parts()[i]) == Played(old(AskOf(q.Parts()[i])), script, i)
    ensures forall i | 0 <= i < 5 :: AskOf(c.Parts()[i]) == Played(UnlockedIf(old(AskOf(q.Parts()[i]))), script, i + 5)
  {
    var mine := q.Parts();
    c := q.Clone();
    AllNew(mine, c.Parts());
    PlayBoth(mine, c.Parts(), script);
  }

  class AccountQuery {
    const base: Builder
    var withGroups: Builder?
    var withProxy: Builder?
    var withUsageLogs: Builder?
    var withAccountGroups: Builder?

    constructor (base: Builder, withGroups: Builder?, withProxy: Builder?, withUsageLogs: Builder?, withAccountGroups: Builder?)
      ensures this.base == base
      ensures this.withGroups == withGroups && this.withProxy == withProxy
      ensures this.withUsageLogs == withUsageLogs && this.withAccountGroups == withAccountGroups
    {
      this.base, this.withGroups, this.withProxy, this.withUsageLogs, this.withAccountGroups :=
        base, withGroups, withProxy, withUsageLogs, withAccountGroups;
    }

    /** The builders of a query are separate objects, each over the entity of its edge. */
    ghost predicate Valid()
      reads this, base, Set(withGroups), Set(withProxy), Set(withUsageLogs), Set(withAccountGroups)
    {
      && HasID(base.entity) && HasColumn(base.entity, "proxy_id")
      && Apart(base, withGroups) && Apart(base, withProxy) && Apart(base, withUsageLogs) && Apart(base, withAccountGroups)
      && Apart(withGroups, withProxy) && Apart(withGroups, withUsageLogs) && Apart(withGroups, withAccountGroups)
      && Apart(withProxy, withUsageLogs) && Apart(withProxy, withAccountGroups) && Apart(withUsageLogs, withAccountGroups)
      && (withGroups != null ==> HasID(withGroups.entity))
      && (withProxy != null ==> HasID(withProxy.entity))
      && (withUsageLogs != null ==> HasColumn(withUsageLogs.entity, "account_id"))
      && (withAccountGroups != null ==> HasColumn(withAccountGroups.entity, "account_id"))
    }

    ghost function Asked(): Plan
      reads this, base, base.ctx
      reads Set(withGroups), Set(withProxy), Set(withUsageLogs), Set(withAccountGroups)
      reads Ctx(withGroups), Ctx(withProxy), Ctx(withUsageLogs), Ctx(withAccountGroups)
    {
      Plan(Ask(base.entity, base.Now(), base.traversed), AskOf(withGroups), AskOf(withProxy), AskOf(withUsageLogs), AskOf(withAccountGroups))
    }

    function Parts(): seq<Builder?>
      reads this
    {
      [base, withGroups, withProxy, withUsageLogs, withAccountGroups]
    }

    /** A copy made of new objects throughout, which asks for the same but takes no row locks. */
    method Clone() returns (c: AccountQuery)
      ensures fresh(c) && Separate(c.Parts())
      ensures forall i | 0 <= i < 5 && c.Parts()[i] != null :: fresh(c.Parts()[i]) && fresh(c.Parts()[i].ctx)
      ensures forall i | 0 <= i < 5 :: AskOf(c.Parts()[i]) == UnlockedIf(AskOf(Parts()[i]))
    {
      var copies := CloneAll(Parts());
      assert Parts()[0] == base;
      c := new AccountQuery(copies[0], copies[1], copies[2], copies[3], copies[4]);
      assert c.Parts() == copies;
    }

    /** The whole eager load. Every edge of every node is the one computed from the full rows,
        whatever columns were selected, and an edge that was not asked for stays empty. */
    method All(db: Database) returns (r: Result<seq<Account>, LoadError>)
      requires Valid()
      modifies Set(withGroups)`predicates, Set(withProxy)`predicates, Set(withUsageLogs)`predicates, Set(withAccountGroups)`predicates
      modifies Ctx(withUsageLogs)`fields, Ctx(withAccountGroups)`fields
      ensures Valid()
      ensures r.Success? <==> Executes(old(Asked()), FullRows(db, old(Asked())))
      ensures r.Success? ==> fresh(r.value) && Distinct(r.value) && IsGraphOf(r.value, db, old(Asked()), FullRows(db, old(Asked())))
      ensures base.Now() == old(base.Now())
    {
      r := LoadGraph(db, base, withGroups, withProxy, withUsageLogs, withAccountGroups, Asked());
    }

    /** The first account of the query, with edges loaded for it alone; the limit of 1 it sets stays set.
        There is none exactly when the query without any limit has no row. */
    method First(db: Database) returns (r: Result<Account, FetchError>)
      requires Valid()
      modifies Set(withGroups)`predicates, Set(withProxy)`predicates, Set(withUsageLogs)`predicates, Set(withAccountGroups)`predicates
      modifies Ctx(withUsageLogs)`fields, Ctx(withAccountGroups)`fields, base.ctx`limit
      ensures base.Now() == old(base.Now()).(limit := Some(1))
      ensures var p := Limited(old(Asked()), 1);
        var all, seen := FullRows(db, Unlimited(p)), FullRows(db, p);
        && (r.Failure? && r.error.LoadFailed? <==> !Executes(p, seen))
        && (r == Failure(NotFoundError) <==> Executes(p, seen) && |all| == 0)
        && r != Failure(NotSingularError)
        && (r.Success? ==> fresh(r.value) && |all| > 0 && IsGraphOf([r.value], db, p, [all[0]]))
    {
      base.ctx.limit := Some(1);
      ghost var p := Asked();
      assert p == Limited(old(Asked()), 1);
      LimitedRows(db, p, 1);
      var nodes := All(db);
      if nodes.Failure? {
        return Failure(LoadFailed(nodes.error));
      }
      if |nodes.value| == 0 {
        return Failure(NotFoundError);
      }
      assert nodes.value == [nodes.value[0]] && FullRows(db, p) == [FullRows(db, Unlimited(p))[0]];
      return Success(nodes.value[0]);
    }

    /** The only account of the query; the limit of 2 it sets stays set. Whether there is none, one
        or more than one row is judged on the query without any limit. */
    method Only(db: Database) returns (r: Result<Account, FetchError>)
      requires Valid()
      modifies Set(withGroups)`predicates, Set(withProxy)`predicates, Set(withUsageLogs)`predicates, Set(withAccountGroups)`predicates
      modifies Ctx(withUsageLogs)`fields, Ctx(withAccountGroups)`fields, base.ctx`limit
      ensures base.Now() == old(base.Now()).(limit := Some(2))
      ensures var p := Limited(old(Asked()), 2);
        var all, seen := FullRows(db, Unlimited(p)), FullRows(db, p);
        && (r.Failure? && r.error.LoadFailed? <==> !Executes(p, seen))
        && (r == Failure(NotFoundError) <==> Executes(p, seen) && |all| == 0)
        && (r == Failure(NotSingularError) <==> Executes(p, seen) && |all| > 1)
        && (r.Success? ==> fresh(r.value) && IsGraphOf([r.value], db, p, all))
    {
      base.ctx.limit := Some(2);
      ghost var p := Asked();
      assert p == Limited(old(Asked()), 2);
      LimitedRows(db, p, 2);
      var nodes := All(db);
      if nodes.Failure? {
        return Failure(LoadFailed(nodes.error));
      }
      if |nodes.value| == 0 {
        return Failure(NotFoundError);
      }
      if |nodes.value| > 1 {
        return Failure(NotSingularError);
      }
      assert nodes.value == [nodes.value[0]];
      return Success(nodes.value[0]);
    }
  }

  lemma {:induction false} SameKeys(nodes: seq<Account>, full: seq<Row>)
    requires |nodes| == |full| && IDs(nodes) == RowIDs(full)
    ensures forall j | 0 <= j < |nodes| :: RowIDs(full)[j] == nodes[j].ID() && ProxyIDs(nodes)[j] == nodes[j].ProxyID()
    ensures forall j | 0 <= j < |nodes| :: IsLast(nodes, j) <==> LastWithID(RowIDs(full), j)
  {
    assert forall j | 0 <= j < |nodes| :: IDs(nodes)[j] == nodes[j].ID();
  }

  ghost predicate KeyedLike(nodes: seq<Account>, p: Plan, full: seq<Row>) {
    && Distinct(nodes) && |nodes| == |full|
    && IDs(nodes) == RowIDs(full)
    && (p.proxy.Some? ==> ProxyIDs(nodes) == RowProxyIDs(full))
  }

  method LoadGroupsIf(t: Table, query: Builder?, nodes: seq<Account>, ghost db: Database, ghost p: Plan, ghost full: seq<Row>)
      returns (r: Result<(), LoadError>)
    requires query != null ==> HasID(query.entity)
    requires p.groups == AskOf(query) && t == db.groups
    requires KeyedLike(nodes, p, full)
    requires forall j | 0 <= j < |nodes| :: nodes[j].groups == []
    modifies Set(query)`predicates, nodes`groups
    ensures r.Success? <==> (p.groups.Some? ==> FieldsKnown(p.groups.value))
    ensures r.Success? ==> forall j | 0 <= j < |nodes| :: nodes[j].groups == GroupsEdge(db, p, full, j)
  {
    if query == null {
      return Success(());
    }
    r := LoadGroups(t, query, nodes);
    SameKeys(nodes, full);
  }

  method LoadProxyIf(t: Table, query: Builder?, nodes: seq<Account>, ghost db: Database, ghost p: Plan, ghost full: seq<Row>)
      returns (r: Result<(), LoadError>)
    requires query != null ==> HasID(query.entity)
    requires p.proxy == AskOf(query) && t == db.proxies
    requires KeyedLike(nodes, p, full)
    requires forall j | 0 <= j < |nodes| :: nodes[j].proxy == None
    modifies Set(query)`predicates, nodes`proxy
    ensures r.Success? <==> (p.proxy.Some? && Keys(RowProxyIDs(full)) != [] ==> FieldsKnown(p.proxy.value))
    ensures r.Success? ==> forall j | 0 <= j < |nodes| :: nodes[j].proxy == ProxyEdge(db, p, full, j)
  {
    if query == null {
      return Success(());
    }
    r := LoadProxy(t, query, nodes);
    SameKeys(nodes, full);
  }

  method LoadUsageLogsIf(t: Table, query: Builder?, nodes: seq<Account>, ghost db: Database, ghost p: Plan, ghost full: seq<Row>)
      returns (r: Result<(), LoadError>)
    requires query != null ==> HasColumn(query.entity, "account_id")
    requires p.usageLogs == AskOf(query) && t == db.usageLogs
    requires KeyedLike(nodes, p, full)
    requires forall j | 0 <= j < |nodes| :: nodes[j].usageLogs == []
    modifies Set(query)`predicates, Ctx(query)`fields, nodes`usageLogs
    ensures r.Success? <==> (p.usageLogs.Some? ==> FieldsKnown(p.usageLogs.value))
    ensures r.Success? ==> forall j | 0 <= j < |nodes| :: nodes[j].usageLogs == OwnedEdge(db.usageLogs, p.usageLogs, full, j)
  {
    if query == null {
      return Success(());
    }
    r := LoadUsageLogs(t, query, nodes);
    SameKeys(nodes, full);
  }

  method LoadAccountGroupsIf(t: Table, query: Builder?, nodes: seq<Account>, ghost db: Database, ghost p: Plan, ghost full: seq<Row>)
      returns (r: Result<(), LoadError>)
    requires query != null ==> HasColumn(query.entity, "account_id")
    requires p.accountGroups == AskOf(query) && t == db.accountGroups
    requires KeyedLike(nodes, p, full)
    requires forall j | 0 <= j < |nodes| :: nodes[j].accountGroups == []
    modifies Set(query)`predicates, Ctx(query)`fields, nodes`accountGroups
    ensures r.Success? <==> (p.accountGroups.Some? ==> FieldsKnown(p.accountGroups.value))
    ensures r.Success? ==> forall j | 0 <= j < |nodes| :: nodes[j].accountGroups == OwnedEdge(db.accountGroups, p.accountGroups, full, j)
  {
    if query == null {
      return Success(());
    }
    r := LoadAccountGroups(t, query, nodes);
    SameKeys(nodes, full);
  }

  ghost predicate PointersReady(groups: Builder?, proxy: Builder?, nodes: seq<Account>, p: Plan, full: seq<Row>)
    reads Set(groups), Set(proxy), Ctx(groups), Ctx(proxy), nodes`groups, nodes`proxy
  {
    && Apart(groups, proxy)
    && (groups != null ==> HasID(groups.entity))
    && (proxy != null ==> HasID(proxy.entity))
    && p.groups == AskOf(groups) && p.proxy == AskOf(proxy)
    && KeyedLike(nodes, p, full)
    && forall j | 0 <= j < |nodes| :: nodes[j].groups == [] && nodes[j].proxy == None
  }

  ghost predicate ListsReady(logs: Builder?, links: Builder?, nodes: seq<Account>, p: Plan, full: seq<Row>)
    reads Set(logs), Set(links), Ctx(logs), Ctx(links), nodes`usageLogs, nodes`accountGroups
  {
    && Apart(logs, links)
    && (logs != null ==> HasColumn(logs.entity, "account_id"))
    && (links != null ==> HasColumn(links.entity, "account_id"))
    && p.usageLogs == AskOf(logs) && p.accountGroups == AskOf(links)
    && KeyedLike(nodes, p, full)
    && forall j | 0 <= j < |nodes| :: nodes[j].usageLogs == [] && nodes[j].accountGroups == []
  }

  method LoadPointers(db: Database, groups: Builder?, proxy: Builder?, nodes: seq<Account>, ghost p: Plan, ghost full: seq<Row>)
      returns (r: Result<(), LoadError>)
    requires PointersReady(groups, proxy, nodes, p, full)
    modifies Set(groups)`predicates, Set(proxy)`predicates, nodes`groups, nodes`proxy
    ensures r.Success? <==> PointersExecute(p, full)
    ensures r.Success? ==> PointersLoaded(nodes, db, p, full)
  {
    r := LoadGroupsIf(db.groups, groups, nodes, db, p, full);
    if r.Success? {
      r := LoadProxyIf(db.proxies, proxy, nodes, db, p, full);
    }
  }

  method LoadLists(db: Database, logs: Builder?, links: Builder?, nodes: seq<Account>, ghost p: Plan, ghost full: seq<Row>)
      returns (r: Result<(), LoadError>)
    requires ListsReady(logs, links, nodes, p, full)
    modifies Set(logs)`predicates, Set(links)`predicates, Ctx(logs)`fields, Ctx(links)`fields
    modifies nodes`usageLogs, nodes`accountGroups
    ensures r.Success? <==> ListsExecute(p)
    ensures r.Success? ==> ListsLoaded(nodes, db, p, full)
  {
    r := LoadUsageLogsIf(db.usageLogs, logs, nodes, db, p, full);
    if r.Success? {
      r := LoadAccountGroupsIf(db.accountGroups, links, nodes, db, p, full);
    }
  }

  /** The accounts without their edges. */
  method ScanAccounts(db: Database, base: Builder, extra: seq<string>, loaded: Loaded, ghost p: Plan)
      returns (r: Result<seq<Account>, LoadError>)
    requires HasID(base.entity) && HasColumn(base.entity, "proxy_id")
    requires p.account == Ask(base.entity, base.Now(), base.traversed)
    requires extra == if p.proxy.Some? then ["proxy_id"] else []
    ensures r.Success? <==> FieldsKnown(p.account)
    ensures r.Success? ==> fresh(r.value) && KeyedLike(r.value, p, FullRows(db, p))
    ensures r.Success? ==> forall j | 0 <= j < |r.value| ::
      && r.value[j].loaded == loaded && r.value[j].cols == Project(FullRows(db, p)[j], ReadColumns(p))
      && r.value[j].groups == [] && r.value[j].proxy == None && r.value[j].usageLogs == [] && r.value[j].accountGroups == []
  {
    var invalid := base.Prepare();
    if invalid.Some? {
      return Failure(InvalidField(invalid.value));
    }
    var spec := base.QuerySpec(extra);
    var nodes := MakeNodes(RunSpec(db.accounts, spec), spec.columns, loaded);
    ProjectedKeys(p, FullRows(db, p), nodes);
    return Success(nodes);
  }

  method LoadEdges(db: Database, groups: Builder?, proxy: Builder?, logs: Builder?, links: Builder?,
      nodes: seq<Account>, ghost p: Plan, ghost full: seq<Row>)
      returns (r: Result<(), LoadError>)
    requires PointersReady(groups, proxy, nodes, p, full) && ListsReady(logs, links, nodes, p, full)
    requires Apart(groups, logs) && Apart(groups, links) && Apart(proxy, logs) && Apart(proxy, links)
    modifies Set(groups)`predicates, Set(proxy)`predicates, Set(logs)`predicates, Set(links)`predicates
    modifies Ctx(logs)`fields, Ctx(links)`fields, nodes
    ensures r.Success? <==> PointersExecute(p, full) && ListsExecute(p)
    ensures r.Success? ==> PointersLoaded(nodes, db, p, full) && ListsLoaded(nodes, db, p, full)
  {
    assert Set(groups) + Set(proxy) !! Set(logs) + Set(links);
    r := LoadPointers(db, groups, proxy, nodes, p, full);
    if r.Failure? {
      return;
    }
    assert Ctx(logs) == old(Ctx(logs)) && Ctx(links) == old(Ctx(links));
    r := LoadLists(db, logs, links, nodes, p, full);
  }

  method LoadGraph(db: Database, base: Builder, groups: Builder?, proxy: Builder?, logs: Builder?, links: Builder?, ghost p: Plan)
      returns (r: Result<seq<Account>, LoadError>)
    requires HasID(base.entity) && HasColumn(base.entity, "proxy_id")
    requires groups != null ==> HasID(groups.entity)
    requires proxy != null ==> HasID(proxy.entity)
    requires logs != null ==> HasColumn(logs.entity, "account_id")
    requires links != null ==> HasColumn(links.entity, "account_id")
    requires Apart(groups, proxy) && Apart(groups, logs) && Apart(groups, links) && Apart(proxy, logs) && Apart(proxy, links) && Apart(logs, links)
    requires p == Plan(Ask(base.entity, base.Now(), base.traversed), AskOf(groups), AskOf(proxy), AskOf(logs), AskOf(links))
    modifies Set(groups)`predicates, Set(proxy)`predicates, Set(logs)`predicates, Set(links)`predicates
    modifies Ctx(logs)`fields, Ctx(links)`fields
    ensures r.Success? <==> Executes(p, FullRows(db, p))
    ensures r.Success? ==> fresh(r.value) && Distinct(r.value) && IsGraphOf(r.value, db, p, FullRows(db, p))
  {
    ghost var full := FullRows(db, p);
    var loaded := Loaded(groups != null, proxy != null, logs != null, links != null);
    r := ScanAccounts(db, base, if proxy != null then ["proxy_id"] else [], loaded, p);
    if r.Failure? || |r.value| == 0 {
      return;
    }
    var nodes := r.value;
    var e := LoadEdges(db, groups, proxy, logs, links, nodes, p, full);
    if e.Failure? {
      return Failure(e.error);
    }
  }

  /** One account object per row scanned. */
  method MakeNodes(rows: seq<Row>, columns: seq<string>, loaded: Loaded) returns (nodes: seq<Account>)
    ensures |nodes| == |rows| && fresh(nodes) && Distinct(nodes)
    ensures forall j | 0 <= j < |nodes| ::
      && nodes[j].cols == Project(rows[j], columns) && nodes[j].loaded == loaded
      && nodes[j].groups == [] && nodes[j].proxy == None && nodes[j].usageLogs == [] && nodes[j].accountGroups == []
  {
    nodes := [];
    for i := 0 to |rows|
      invariant |nodes| == i && fresh(nodes) && Distinct(nodes)
      invariant forall j | 0 <= j < i ::
        && nodes[j].cols == Project(rows[j], columns) && nodes[j].loaded == loaded
        && nodes[j].groups == [] && nodes[j].proxy == None && nodes[j].usageLogs == [] && nodes[j].accountGroups == []
    {
      var node := new Account(Project(rows[i], columns), loaded);
      nodes := nodes + [node];
    }
  }

  // ----- The accessors

  predicate Unmatched(db: Database, a: Ask, full: seq<Row>, j: nat)
    requires j < |full|
  {
    var key, rows := RowProxyIDs(full)[j], Children(db.proxies, a.entity, a.state, a.traversed, "id", Keys(RowProxyIDs(full)));
    key.None? || forall r | r in rows :: IntCol(r, "id") != key.value
  }

  /** The accessors answer "not loaded" exactly for edges that were not requested, and "not found"
      for the proxy exactly when it was requested and the account has no matching proxy. */
  lemma {:induction false} AccessorsTellLoadedFromMissing(nodes: seq<Account>, db: Database, p: Plan, full: seq<Row>, j: nat)
    requires p.groups.Some? ==> HasID(p.groups.value.entity)
    requires IsGraphOf(nodes, db, p, full) && j < |nodes|
    ensures nodes[j].GroupsOrErr() == if p.groups.Some? then Success(GroupsEdge(db, p, full, j)) else Failure(NotLoaded("groups"))
    ensures nodes[j].UsageLogsOrErr() == if p.usageLogs.Some? then Success(OwnedEdge(db.usageLogs, p.usageLogs, full, j)) else Failure(NotLoaded("usage_logs"))
    ensures nodes[j].AccountGroupsOrErr() == if p.accountGroups.Some? then Success(OwnedEdge(db.accountGroups, p.accountGroups, full, j)) else Failure(NotLoaded("account_groups"))
    ensures nodes[j].ProxyOrErr() == Failure(NotLoaded("proxy")) <==> p.proxy.None?
    ensures nodes[j].ProxyOrErr() == Failure(NotFound("proxy")) <==> p.proxy.Some? && Unmatched(db, p.proxy.value, full, j)
  {
    if p.proxy.Some? && RowProxyIDs(full)[j].Some? {
      var a, key := p.proxy.value, RowProxyIDs(full)[j].value;
      var rows := Children(db.proxies, a.entity, a.state, a.traversed, "id", Keys(RowProxyIDs(full)));
      LookupFinds(rows, key);
    }
  }
}
