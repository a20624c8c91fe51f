/** The query builder: its mutable state, the two statements it is lowered to, and its copies. */
module Query {
  import opened Wrappers
  import opened Seqs
  import opened Rows

  const MAX_INT32: nat := 0x7FFF_FFFF

  datatype Lock = ForUpdate | ForShare

  /** Everything a builder has been told, as a value. */
  datatype State = State(
    fields: seq<string>,
    limit: Option<nat>,
    offset: Option<nat>,
    unique: Option<bool>,
    order: seq<string>,
    predicates: seq<Pred>,
    modifiers: seq<Lock>)

  /** The entity a builder queries. A composite-key entity has no ID column. */
  datatype Entity = Entity(columns: seq<string>, idColumn: Option<string>)

  /** The node query handed to the graph library. A limit or offset of 0 means none was set. */
  datatype Spec = Spec(
    columns: seq<string>,
    unique: bool,
    predicates: seq<Pred>,
    order: seq<string>,
    limit: nat,
    offset: nat,
    modifiers: seq<Lock>)

  /** The SELECT statement built directly. */
  datatype Selector = Selector(
    columns: seq<string>,
    distinct: bool,
    predicates: seq<Pred>,
    order: seq<string>,
    limit: Option<nat>,
    offset: Option<nat>,
    locks: seq<Lock>)

  function Scanned(t: Table, order: seq<string>, ps: seq<Pred>, distinct: bool, cols: seq<string>): seq<Row> {
    var rows := Matching(t(order), ps);
    if distinct then Dedup(rows, cols) else rows
  }

  /** The rows a node query denotes; the caller reads only `s.columns` of each. */
  function RunSpec(t: Table, s: Spec): seq<Row> {
    Window(Scanned(t, s.order, s.predicates, s.unique, s.columns), s.offset, if s.limit == 0 then None else Some(s.limit))
  }

  function RunSelector(t: Table, s: Selector): seq<Row> {
    Window(Scanned(t, s.order, s.predicates, s.distinct, s.columns), if s.offset.Some? then s.offset.value else 0, s.limit)
  }

  // ----- Lowering

  function NotEqual(c: string): string -> bool {
    x => x != c
  }

  function AddOnce(cols: seq<string>, extra: seq<string>): seq<string> {
    if extra == [] then cols
    else
      var front := AddOnce(cols, extra[..|extra| - 1]);
      var c := extra[|extra| - 1];
      if c in front then front else front + [c]
  }

  /** The columns of a node query. `extra` are the foreign keys the requested edges read. */
  function SpecColumns(e: Entity, fields: seq<string>, extra: seq<string>): seq<string> {
    if fields == [] then e.columns
    else match e.idColumn
      case Some(id) => AddOnce([id] + Filter(fields, NotEqual(id)), extra)
      case None => AddOnce(fields, extra)
  }

  function SpecOf(e: Entity, q: State, traversed: bool, extra: seq<string>): Spec {
    Spec(SpecColumns(e, q.fields, extra),
         if q.unique.Some? then q.unique.value else traversed,
         q.predicates, q.order,
         if q.limit.Some? then q.limit.value else 0,
         if q.offset.Some? then q.offset.value else 0,
         q.modifiers)
  }

  function SelectorOf(e: Entity, q: State): Selector {
    Selector(if q.fields == [] then e.columns else q.fields,
             q.unique == Some(true),
             q.predicates, q.order,
             if q.limit.Some? then q.limit else if q.offset.Some? then Some(MAX_INT32) else None,
             q.offset,
             q.modifiers)
  }

  lemma {:induction false} AddOnceMembers(cols: seq<string>, extra: seq<string>)
    ensures cols <= AddOnce(cols, extra)
    ensures forall c :: c in AddOnce(cols, extra) <==> c in cols || c in extra
  {
    if extra != [] {
      AddOnceMembers(cols, extra[..|extra| - 1]);
      assert extra == extra[..|extra| - 1] + [extra[|extra| - 1]];
    }
  }

  /** A projection keeps everything the loaders read: the lowered columns are the selected ones,
      the ID in front, and every requested foreign key; for an entity that lists its own columns
      the unprojected query has them all. */
  lemma {:induction false} ProjectionKeepsKeys(e: Entity, fields: seq<string>, extra: seq<string>)
    requires forall c | c in extra :: c in e.columns
    requires e.idColumn.Some? ==> e.columns != [] && e.columns[0] == e.idColumn.value
    ensures var cols := SpecColumns(e, fields, extra);
      && (e.idColumn.Some? ==> cols != [] && cols[0] == e.idColumn.value)
      && (forall c | c in extra || c in fields :: fields != [] || c in extra ==> c in cols)
      && (fields != [] ==> forall c | c in cols :: c in fields || c in extra || e.idColumn == Some(c))
  {
    if fields != [] {
      match e.idColumn
      case Some(id) =>
        var kept := Filter(fields, NotEqual(id));
        AddOnceMembers([id] + kept, extra);
        forall c ensures c in kept <==> c in fields && c != id {
          FilterMember(fields, NotEqual(id), c);
        }
      case None => AddOnceMembers(fields, extra);
    }
  }

  /** Which columns are read: all of the entity's when none is selected; otherwise exactly those selected, the ID and
      the extra ones. */
  lemma {:induction false} ColumnsRead(e: Entity, fields: seq<string>, extra: seq<string>)
    ensures fields == [] ==> SpecColumns(e, fields, extra) == e.columns
    ensures fields != [] ==> forall c :: c in SpecColumns(e, fields, extra) <==> c in fields || c in extra || e.idColumn == Some(c)
  {
    if fields != [] {
      match e.idColumn
      case Some(id) =>
        AddOnceMembers([id] + Filter(fields, NotEqual(id)), extra);
        forall c ensures c in Filter(fields, NotEqual(id)) <==> c in fields && c != id {
          FilterMember(fields, NotEqual(id), c);
        }
      case None => AddOnceMembers(fields, extra);
    }
  }

  /** The statement the window of a builder leaves for both lowerings, before OFFSET and LIMIT. */
  function Candidates(e: Entity, q: State, t: Table, traversed: bool): seq<Row> {
    var s := SpecOf(e, q, traversed, []);
    Scanned(t, s.order, s.predicates, s.unique, s.columns)
  }

  function Skipped(q: State): nat {
    if q.offset.Some? then q.offset.value else 0
  }

  /** The columns on which one lowering is more distinct than the other: `Unique(true)` compares fewer columns in
      the direct statement, and a traversal with `Unique` unset is DISTINCT in the node query only. */
  function ComparedMore(e: Entity, q: State, traversed: bool): Option<seq<string>> {
    if q.unique == Some(true) then Some(SelectorOf(e, q).columns)
    else if q.unique.None? && traversed then Some(SpecColumns(e, q.fields, []))
    else None
  }

  /** The candidates of the less distinct lowering. */
  function MoreCandidates(e: Entity, q: State, t: Table, traversed: bool): seq<Row> {
    var rows := Matching(t(q.order), q.predicates);
    if q.unique == Some(true) then Dedup(rows, SpecColumns(e, q.fields, [])) else rows
  }

  /** Where the window over the less distinct candidates ends. */
  function WindowEnd(q: State, n: nat): nat {
    var cap: Option<nat> := if q.limit.Some? then q.limit else if q.offset.Some? then Some(2147483647) else None;
    if cap.Some? && Skipped(q) + cap.value < n then Skipped(q) + cap.value else n
  }

  /** No row before the end of the window repeats an earlier one for the more distinct lowering. */
  ghost predicate DistinctAlike(e: Entity, q: State, t: Table, traversed: bool) {
    var cols := ComparedMore(e, q, traversed);
    cols.Some? ==> NoRepetition(q, MoreCandidates(e, q, t, traversed), cols.value)
  }

  /** The two lowerings denote the same rows except in exactly three cases: `Limit(0)`, which the node query reads
      as "no limit"; an offset without a limit that leaves more than MAX_INT32 rows, which only the direct statement
      truncates; and a row in the window, or before it, that only one of the two takes for a repetition. */
  lemma {:induction false} LoweringsAgree(e: Entity, q: State, t: Table, traversed: bool)
    ensures forall c | c in SelectorOf(e, q).columns :: c in SpecOf(e, q, traversed, []).columns
    ensures RunSpec(t, SpecOf(e, q, traversed, [])) == RunSelector(t, SelectorOf(e, q)) <==>
      LimitsAlike(q, |Candidates(e, q, t, traversed)| - Skipped(q)) && DistinctAlike(e, q, t, traversed)
  {
    SelectorReadsFewer(e, q, traversed);
    RunSpecWindow(e, q, t, traversed);
    if q.unique == Some(true) {
      UniqueAgrees(e, q, t, traversed);
    } else if q.unique.None? && traversed {
      TraversalAgrees(e, q, t);
    } else {
      SameInBoth(q, Matching(t(q.order), q.predicates));
    }
  }

  /** The rows of the direct statement before its window. */
  function SelectorCandidates(e: Entity, q: State, t: Table): seq<Row> {
    Scanned(t, q.order, q.predicates, q.unique == Some(true), SelectorOf(e, q).columns)
  }

  ghost predicate WindowsAgree(e: Entity, q: State, t: Table, traversed: bool) {
    Window(Candidates(e, q, t, traversed), Skipped(q), SpecLimit(q)) == Window(SelectorCandidates(e, q, t), Skipped(q), SelectorLimit(q))
  }

  lemma {:induction false} UniqueAgrees(e: Entity, q: State, t: Table, traversed: bool)
    requires q.unique == Some(true)
    ensures WindowsAgree(e, q, t, traversed) <==> LimitsAlike(q, |Candidates(e, q, t, traversed)| - Skipped(q)) && DistinctAlike(e, q, t, traversed)
  {
    var rows, fine, coarse := Matching(t(q.order), q.predicates), SpecColumns(e, q.fields, []), SelectorOf(e, q).columns;
    SelectorReadsFewer(e, q, traversed);
    DedupCoarser(rows, fine, coarse);
    MoreInSpec(q, Dedup(rows, fine), coarse);
  }

  lemma {:induction false} TraversalAgrees(e: Entity, q: State, t: Table)
    requires q.unique.None?
    ensures WindowsAgree(e, q, t, true) <==> LimitsAlike(q, |Candidates(e, q, t, true)| - Skipped(q)) && DistinctAlike(e, q, t, true)
  {
    var rows, cols := Matching(t(q.order), q.predicates), SpecColumns(e, q.fields, []);
    assert Candidates(e, q, t, true) == Dedup(rows, cols) && SelectorCandidates(e, q, t) == rows;
    MoreInSelector(q, rows, cols);
  }

  function SpecLimit(q: State): Option<nat> {
    if q.limit == Some(0) then None else q.limit
  }

  function SelectorLimit(q: State): Option<nat> {
    if q.limit.None? && q.offset.Some? then Some(MAX_INT32) else q.limit
  }

  lemma {:induction false} RunSpecWindow(e: Entity, q: State, t: Table, traversed: bool)
    ensures RunSpec(t, SpecOf(e, q, traversed, [])) == Window(Candidates(e, q, t, traversed), Skipped(q), SpecLimit(q))
    ensures RunSelector(t, SelectorOf(e, q)) == Window(SelectorCandidates(e, q, t), Skipped(q), SelectorLimit(q))
  {
  }

  /** `left` rows remain after the offset for the node query. */
  predicate LimitsAlike(q: State, left: int) {
    !(q.limit == Some(0) && left > 0) && !(q.limit.None? && q.offset.Some? && left > 2147483647)
  }

  lemma {:induction false} SameInBoth(q: State, rows: seq<Row>)
    ensures Window(rows, Skipped(q), SpecLimit(q)) == Window(rows, Skipped(q), SelectorLimit(q)) <==> LimitsAlike(q, |rows| - Skipped(q))
  {
    var spec, sel := Window(rows, Skipped(q), SpecLimit(q)), Window(rows, Skipped(q), SelectorLimit(q));
    if LimitsAlike(q, |rows| - Skipped(q)) {
      assert |spec| == |sel|;
    } else {
      assert |spec| > |sel|;
    }
  }

  ghost predicate NoRepetition(q: State, rows: seq<Row>, cols: seq<string>) {
    q.limit != Some(0) && |rows| > Skipped(q) ==> AllDiffer(rows, cols, WindowEnd(q, |rows|))
  }

  lemma {:induction false} MoreInSpec(q: State, rows: seq<Row>, cols: seq<string>)
    ensures Window(rows, Skipped(q), SpecLimit(q)) == Window(Dedup(rows, cols), Skipped(q), SelectorLimit(q)) <==>
      LimitsAlike(q, |rows| - Skipped(q)) && NoRepetition(q, rows, cols)
  {
    WindowOfDistinct(rows, cols, Skipped(q), SpecLimit(q), SelectorLimit(q));
    DedupBounds(rows, cols, WindowEnd(q, |rows|));
    DedupBounds(rows, cols, |rows|);
  }

  lemma {:induction false} MoreInSelector(q: State, rows: seq<Row>, cols: seq<string>)
    ensures Window(Dedup(rows, cols), Skipped(q), SpecLimit(q)) == Window(rows, Skipped(q), SelectorLimit(q)) <==>
      LimitsAlike(q, |Dedup(rows, cols)| - Skipped(q)) && NoRepetition(q, rows, cols)
  {
    WindowOfDistinct(rows, cols, Skipped(q), SelectorLimit(q), SpecLimit(q));
    DedupBounds(rows, cols, WindowEnd(q, |rows|));
    DedupBounds(rows, cols, |rows|);
  }

  lemma {:induction false} SelectorReadsFewer(e: Entity, q: State, traversed: bool)
    ensures forall c | c in SelectorOf(e, q).columns :: c in SpecOf(e, q, traversed, []).columns
  {
    if q.fields != [] && e.idColumn.Some? {
      forall c ensures c in Filter(q.fields, NotEqual(e.idColumn.value)) <==> c in q.fields && c != e.idColumn.value {
        FilterMember(q.fields, NotEqual(e.idColumn.value), c);
      }
    }
  }

  lemma {:induction false} DedupBounds(rows: seq<Row>, cols: seq<string>, n: nat)
    requires n <= |rows|
    ensures |Dedup(rows, cols)| <= |rows|
    ensures AllDiffer(rows, cols, n) ==> n <= |Dedup(rows, cols)|
    ensures AllDiffer(rows, cols, n) && n == |rows| ==> |Dedup(rows, cols)| == |rows|
  {
    DedupSize(rows, cols);
    if AllDiffer(rows, cols, n) {
      DedupKeepsHead(rows, cols, n);
    }
  }

  /** With no window, `Unique(true)` reads alike in both lowerings exactly when no two rows agree on the selected
      columns and differ in the ID; and a traversal does exactly when no two rows agree on the columns read. */
  lemma {:induction false} DistinctAgreesExactly(e: Entity, q: State, t: Table, traversed: bool)
    requires q.limit.None? && q.offset.None? && ComparedMore(e, q, traversed).Some?
    ensures RunSpec(t, SpecOf(e, q, traversed, [])) == RunSelector(t, SelectorOf(e, q)) <==>
      var rows := MoreCandidates(e, q, t, traversed);
      forall i, j | 0 <= i < j < |rows| :: Project(rows[i], ComparedMore(e, q, traversed).value) != Project(rows[j], ComparedMore(e, q, traversed).value)
  {
    LoweringsAgree(e, q, t, traversed);
  }

  /** Two rows that agree on the selected columns and differ in the ID: the node query, which compares the ID as
      well, keeps both, and the direct statement one; as for the distinct names of two accounts of the same name. */
  lemma {:induction false} DistinctNamesDiffer(e: Entity, t: Table, r: Row, s: Row, id: string, fields: seq<string>)
    requires e.idColumn == Some(id) && e.columns != [] && e.columns[0] == id && fields != []
    requires t([]) == [r, s] && IntCol(r, id) != IntCol(s, id) && Project(r, fields) == Project(s, fields)
    ensures var q := State(fields, None, None, Some(true), [], [], []);
      RunSpec(t, SpecOf(e, q, false, [])) != RunSelector(t, SelectorOf(e, q))
  {
    var q := State(fields, None, None, Some(true), [], [], []);
    FilterAll([r, s], AllOf([]));
    TwoRowsStay(e, r, s, id, fields);
    var rows := MoreCandidates(e, q, t, false);
    assert rows == [r, s];
    assert Project(rows[0], fields) == Project(rows[1], fields);
    DistinctAgreesExactly(e, q, t, false);
  }

  lemma {:induction false} TwoRowsStay(e: Entity, r: Row, s: Row, id: string, fields: seq<string>)
    requires e.idColumn == Some(id) && e.columns != [] && e.columns[0] == id && IntCol(r, id) != IntCol(s, id)
    ensures Dedup([r, s], SpecColumns(e, fields, [])) == [r, s]
  {
    var cols := SpecColumns(e, fields, []);
    ProjectionKeepsKeys(e, fields, []);
    ProjectKeeps(r, cols, id);
    ProjectKeeps(s, cols, id);
    DedupSize([r, s], cols);
  }

  // ----- The builder

  datatype Op =
    | Where(ps: seq<Pred>)
    | Order(terms: seq<string>)
    | Limit(n: nat)
    | Offset(k: nat)
    | Unique(u: bool)
    | Select(cols: seq<string>)
    | LockRows(lock: Lock, postgres: bool)

  function Step(s: State, op: Op): State {
    match op
    case Where(ps) => s.(predicates := s.predicates + ps)
    case Order(terms) => s.(order := s.order + terms)
    case Limit(n) => s.(limit := Some(n))
    case Offset(k) => s.(offset := Some(k))
    case Unique(u) => s.(unique := Some(u))
    case Select(cols) => s.(fields := s.fields + cols)
    case LockRows(lock, postgres) =>
      s.(modifiers := s.modifiers + [lock], unique := if postgres then Some(false) else s.unique)
  }

  // What the calls mean for the rows that a node query reads

  /** Conditions add up: after another Where the rows are those of before that meet the new conditions as well. */
  lemma {:induction false} WhereNarrows(rows: seq<Row>, q: State, ps: seq<Pred>)
    ensures Matching(rows, Step(q, Where(ps)).predicates) == Filter(Matching(rows, q.predicates), AllOf(ps))
    ensures forall r :: r in Matching(rows, q.predicates) <==> r in rows && forall i | 0 <= i < |q.predicates| :: q.predicates[i](r)
  {
    var all := q.predicates + ps;
    forall r | r in rows ensures AllOf(all)(r) == (AllOf(q.predicates)(r) && AllOf(ps)(r)) {
      assert forall i | 0 <= i < |ps| :: all[|q.predicates| + i] == ps[i];
      assert forall i | 0 <= i < |q.predicates| :: all[i] == q.predicates[i];
    }
    FilterTwice(rows, AllOf(q.predicates), AllOf(ps), AllOf(all));
    forall r ensures r in Matching(rows, q.predicates) <==> r in rows && forall i | 0 <= i < |q.predicates| :: q.predicates[i](r) {
      FilterMember(rows, AllOf(q.predicates), r);
    }
  }

  /** The candidates after a call that sets the window are those before it. */
  lemma {:induction false} WindowCallsMean(e: Entity, q: State, t: Table, traversed: bool, n: nat)
    ensures var rows, skipped := Candidates(e, q, t, traversed), Skipped(q);
      var rest := if skipped <= |rows| then rows[skipped..] else [];
      n > 0 ==> RunSpec(t, SpecOf(e, Step(q, Limit(n)), traversed, [])) == if n < |rest| then rest[..n] else rest
    ensures var rows := Candidates(e, q, t, traversed);
      var rest := if n <= |rows| then rows[n..] else [];
      RunSpec(t, SpecOf(e, Step(q, Offset(n)), traversed, [])) ==
        if q.limit.Some? && 0 < q.limit.value < |rest| then rest[..q.limit.value] else rest
  {
    assert Candidates(e, Step(q, Limit(n)), t, traversed) == Candidates(e, q, t, traversed);
    assert Candidates(e, Step(q, Offset(n)), t, traversed) == Candidates(e, q, t, traversed);
    RunSpecWindow(e, Step(q, Limit(n)), t, traversed);
    RunSpecWindow(e, Step(q, Offset(n)), t, traversed);
  }

  /** DISTINCT as asked for, or else exactly in a traversal; the order as asked for; further orders come after. */
  lemma {:induction false} CandidatesMean(e: Entity, q: State, t: Table, traversed: bool, u: bool, terms: seq<string>, lock: Lock)
    ensures var rows := Matching(t(q.order), q.predicates);
      Candidates(e, Step(q, Unique(u)), t, traversed) == if u then Dedup(rows, SpecColumns(e, q.fields, [])) else rows
    ensures q.unique.None? ==>
      Candidates(e, q, t, traversed) ==
      (if traversed then Dedup(Matching(t(q.order), q.predicates), SpecColumns(e, q.fields, [])) else Matching(t(q.order), q.predicates))
    ensures q.unique == Some(false) ==>
      Candidates(e, Step(q, Order(terms)), t, traversed) == Matching(t(q.order + terms), q.predicates)
    ensures Candidates(e, Step(q, LockRows(lock, true)), t, traversed) == Matching(t(q.order), q.predicates)
    ensures Candidates(e, Step(q, LockRows(lock, false)), t, traversed) == Candidates(e, q, t, traversed)
  {
  }

  /** Selections and row locks add up: what was selected stays selected, and every lock reaches both statements. */
  lemma {:induction false} SelectionsAndLocksAddUp(e: Entity, q: State, traversed: bool, cols: seq<string>, lock: Lock, postgres: bool)
    ensures cols != [] ==> forall c :: c in SpecColumns(e, Step(q, Select(cols)).fields, []) <==> c in q.fields || c in cols || e.idColumn == Some(c)
    ensures SpecOf(e, Step(q, LockRows(lock, postgres)), traversed, []).modifiers == SpecOf(e, q, traversed, []).modifiers + [lock]
    ensures SelectorOf(e, Step(q, LockRows(lock, postgres))).locks == SelectorOf(e, q).locks + [lock]
  {
    ColumnsRead(e, q.fields + cols, []);
  }

  class QueryContext {
    var fields: seq<string>
    var limit: Option<nat>
    var offset: Option<nat>
    var unique: Option<bool>

    constructor (fields: seq<string>, limit: Option<nat>, offset: Option<nat>, unique: Option<bool>)
      ensures this.fields == fields && this.limit == limit && this.offset == offset && this.unique == unique
    {
      this.fields, this.limit, this.offset, this.unique := fields, limit, offset, unique;
    }

    method Clone() returns (c: QueryContext)
      ensures fresh(c)
      ensures c.fields == fields && c.limit == limit && c.offset == offset && c.unique == unique
    {
      c := new QueryContext(fields, limit, offset, unique);
    }

    method AppendFieldOnce(f: string)
      modifies this`fields
      ensures fields == AddOnce(old(fields), [f])
    {
      assert AddOnce(fields, [f][..0]) == fields;
      if f !in fields {
        fields := fields + [f];
      }
    }
  }

  class Builder {
    const entity: Entity
    // set when the builder continues another query along an edge
    const traversed: bool
    var ctx: QueryContext
    var order: seq<string>
    var predicates: seq<Pred>
    var modifiers: seq<Lock>

    constructor (entity: Entity, traversed: bool)
      ensures fresh(ctx)
      ensures this.entity == entity && this.traversed == traversed
      ensures Now() == State([], None, None, None, [], [], [])
    {
      this.entity, this.traversed := entity, traversed;
      ctx := new QueryContext([], None, None, None);
      order, predicates, modifiers := [], [], [];
    }

    constructor Copy(entity: Entity, traversed: bool, ctx: QueryContext, order: seq<string>, predicates: seq<Pred>)
      ensures this.ctx == ctx && this.entity == entity && this.traversed == traversed
      ensures this.order == order && this.predicates == predicates && this.modifiers == []
    {
      this.entity, this.traversed, this.ctx, this.order, this.predicates, this.modifiers :=
        entity, traversed, ctx, order, predicates, [];
    }

    function Now(): State
      reads this, ctx
    {
      State(ctx.fields, ctx.limit, ctx.offset, ctx.unique, order, predicates, modifiers)
    }

    method Do(op: Op)
      modifies this`order, this`predicates, this`modifiers, ctx
      ensures Now() == Step(old(Now()), op)
    {
      match op {
        case Where(ps) => predicates := predicates + ps;
        case Order(terms) => order := order + terms;
        case Limit(n) => ctx.limit := Some(n);
        case Offset(k) => ctx.offset := Some(k);
        case Unique(u) => ctx.unique := Some(u);
        case Select(cols) => ctx.fields := ctx.fields + cols;
        case LockRows(lock, postgres) =>
          if postgres {
            ctx.unique := Some(false);
          }
          modifiers := modifiers + [lock];
      }
    }

    /** The first selected field the entity does not have, if any. */
    method Prepare() returns (invalid: Option<string>)
      ensures invalid.None? <==> forall f | f in ctx.fields :: f in entity.columns
      ensures invalid.Some? ==> exists i | 0 <= i < |ctx.fields| ::
        ctx.fields[i] == invalid.value && invalid.value !in entity.columns && forall j | 0 <= j < i :: ctx.fields[j] in entity.columns
    {
      for i := 0 to |ctx.fields|
        invariant forall j | 0 <= j < i :: ctx.fields[j] in entity.columns
      {
        if ctx.fields[i] !in entity.columns {
          return Some(ctx.fields[i]);
        }
      }
      return None;
    }

    /** The ID first, then the other selected columns, then the keys the edges need. */
    method LowerColumns(extra: seq<string>) returns (cols: seq<string>)
      requires ctx.fields != []
      ensures cols == SpecColumns(entity, ctx.fields, extra)
    {
      cols := if entity.idColumn.Some? then [entity.idColumn.value] else [];
      ghost var head := cols;
      for i := 0 to |ctx.fields|
        invariant cols == head + (if entity.idColumn.Some? then Filter(ctx.fields[..i], NotEqual(entity.idColumn.value)) else ctx.fields[..i])
      {
        if entity.idColumn != Some(ctx.fields[i]) {
          cols := cols + [ctx.fields[i]];
        }
        if entity.idColumn.Some? {
          FilterStep(ctx.fields, i, NotEqual(entity.idColumn.value));
        }
      }
      assert ctx.fields[..|ctx.fields|] == ctx.fields;
      ghost var selected := cols;
      assert entity.idColumn.None? ==> selected == ctx.fields;
      for i := 0 to |extra|
        invariant cols == AddOnce(selected, extra[..i])
      {
        assert extra[..i + 1][..i] == extra[..i];
        if extra[i] !in cols {
          cols := cols + [extra[i]];
        }
      }
      assert extra[..|extra|] == extra;
    }

    method QuerySpec(extra: seq<string>) returns (spec: Spec)
      ensures spec == SpecOf(entity, Now(), traversed, extra)
    {
      spec := Spec(entity.columns, false, [], [], 0, 0, modifiers);
      if ctx.unique.Some? {
        spec := spec.(unique := ctx.unique.value);
      } else if traversed {
        spec := spec.(unique := true);
      }
      if |ctx.fields| > 0 {
        var cols := LowerColumns(extra);
        spec := spec.(columns := cols);
      }
      if |predicates| > 0 {
        spec := spec.(predicates := predicates);
      }
      if ctx.limit.Some? {
        spec := spec.(limit := ctx.limit.value);
      }
      if ctx.offset.Some? {
        spec := spec.(offset := ctx.offset.value);
      }
      if |order| > 0 {
        spec := spec.(order := order);
      }
      assert |predicates| == 0 ==> predicates == [];
      assert |order| == 0 ==> order == [];
    }

    method SqlQuery() returns (s: Selector)
      ensures s == SelectorOf(entity, Now())
    {
      var columns := ctx.fields;
      if |columns| == 0 {
        columns := entity.columns;
      }
      s := Selector(columns, false, [], [], None, None, []);
      if ctx.unique == Some(true) {
        s := s.(distinct := true);
      }
      s := s.(locks := modifiers, predicates := predicates, order := order);
      if ctx.offset.Some? {
        s := s.(offset := ctx.offset, limit := Some(MAX_INT32));
      }
      if ctx.limit.Some? {
        s := s.(limit := ctx.limit);
      }
    }

    /** Row locks are the one thing a copy does not inherit. */
    method Clone() returns (c: Builder)
      ensures fresh(c) && fresh(c.ctx)
      ensures c.entity == entity && c.traversed == traversed
      ensures c.Now() == Now().(modifiers := [])
    {
      var x := ctx.Clone();
      c := new Builder.Copy(entity, traversed, x, order, predicates);
    }

    /** The rows read by this builder, one projected row each. */
    method All(t: Table, extra: seq<string>) returns (r: Result<seq<Row>, string>)
      ensures r.Success? <==> forall f | f in ctx.fields :: f in entity.columns
      ensures r.Success? ==> var spec := SpecOf(entity, Now(), traversed, extra);
        r.value == ProjectAll(RunSpec(t, spec), spec.columns)
    {
      var invalid := Prepare();
      if invalid.Some? {
        return Failure(invalid.value);
      }
      var spec := QuerySpec(extra);
      return Success(ProjectAll(RunSpec(t, spec), spec.columns));
    }
  }
}
