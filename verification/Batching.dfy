/** When one child query for all accounts gives each account what its own child query would. */
module Batching {
  import opened Seqs
  import opened Rows
  import opened Joins
  import Query

  /** The rows a child query finds before OFFSET and LIMIT, restricted to the given keys. */
  function Found(t: Table, e: Query.Entity, q: Query.State, traversed: bool, col: string, ids: seq<int>): seq<Row> {
    Query.Candidates(e, q.(predicates := q.predicates + [InValues(col, ids)]), t, traversed)
  }

  lemma {:induction false} FilterRepeats(d: seq<Row>, cols: seq<string>, p: Pred, r: Row)
    requires p(r)
    requires forall s | s in d && Project(s, cols) == Project(r, cols) :: p(s)
    ensures Repeats(Filter(d, p), cols, r) <==> Repeats(d, cols, r)
  {
    var f := Filter(d, p);
    if Repeats(d, cols, r) {
      var k :| 0 <= k < |d| && Project(d[k], cols) == Project(r, cols);
      FilterMember(d, p, d[k]);
      var j :| 0 <= j < |f| && f[j] == d[k];
    }
    if Repeats(f, cols, r) {
      var k :| 0 <= k < |f| && Project(f[k], cols) == Project(r, cols);
      FilterMember(d, p, f[k]);
      var j :| 0 <= j < |d| && d[j] == f[k];
    }
  }

  /** DISTINCT commutes with a filter that only looks at the columns compared. */
  lemma {:induction false} DedupFilter(rows: seq<Row>, cols: seq<string>, p: Pred)
    requires forall a, b | a in rows && b in rows && Project(a, cols) == Project(b, cols) :: p(a) == p(b)
    ensures Filter(Dedup(rows, cols), p) == Dedup(Filter(rows, p), cols)
  {
    if rows != [] {
      var n := |rows| - 1;
      var front, last := rows[..n], rows[n];
      assert rows == front + [last];
      DedupFilter(front, cols, p);
      DedupMembers(front, cols);
      if p(last) {
        FilterRepeats(Dedup(front, cols), cols, p, last);
      }
    }
  }

  /** Before OFFSET and LIMIT, the batched child query restricted to one of its accounts is that
      account's own child query; the foreign key must be among the columns read. */
  lemma {:induction false} FoundForOne(t: Table, e: Query.Entity, q: Query.State, traversed: bool, col: string, ids: seq<int>, a: int)
    requires a in ids
    requires col in Query.SpecColumns(e, q.fields, [])
    ensures OwnedBy(Found(t, e, q, traversed, col, ids), col, a) == Found(t, e, q, traversed, col, [a])
  {
    var all, cols := t(q.order), Query.SpecColumns(e, q.fields, []);
    var many, one := q.predicates + [InValues(col, ids)], q.predicates + [InValues(col, [a])];
    forall r | r in all ensures AllOf(one)(r) == (AllOf(many)(r) && ColumnIs(col, a)(r)) {
      HoldsAppend(q.predicates, InValues(col, ids), r);
      HoldsAppend(q.predicates, InValues(col, [a]), r);
    }
    FilterTwice(all, AllOf(many), ColumnIs(col, a), AllOf(one));
    var rows := Matching(all, many);
    forall r, s | Project(r, cols) == Project(s, cols) ensures IntCol(r, col) == IntCol(s, col) {
      ProjectKeeps(r, cols, col);
      ProjectKeeps(s, cols, col);
    }
    DedupFilter(rows, cols, ColumnIs(col, a));
  }

  lemma {:induction false} FoundCarriesKeys(t: Table, e: Query.Entity, q: Query.State, traversed: bool, col: string, ids: seq<int>)
    ensures forall r | r in Found(t, e, q, traversed, col, ids) :: IntCol(r, col) in ids
  {
    var all, many := t(q.order), q.predicates + [InValues(col, ids)];
    var rows := Matching(all, many);
    DedupMembers(rows, Query.SpecColumns(e, q.fields, []));
    FilterMembers(all, AllOf(many));
    forall r | r in rows ensures IntCol(r, col) in ids {
      HoldsAppend(q.predicates, InValues(col, ids), r);
    }
  }

  /** Loading appends its key list to the child builder, so a builder that is executed again
      intersects the old and the new keys: an account is loaded again exactly as a fresh child query
      would if it was among the keys of the first execution, and otherwise it gets nothing. */
  lemma {:induction false} SecondExecution(t: Table, e: Query.Entity, q: Query.State, traversed: bool, col: string, first: seq<int>, second: seq<int>, a: int)
    requires a in second
    requires col in Query.SpecColumns(e, q.fields, [])
    ensures var q' := q.(predicates := q.predicates + [InValues(col, first)]);
      OwnedBy(Found(t, e, q', traversed, col, second), col, a) == if a in first then Found(t, e, q, traversed, col, [a]) else []
  {
    var q' := q.(predicates := q.predicates + [InValues(col, first)]);
    FoundForOne(t, e, q', traversed, col, second, a);
    var all := t(q.order);
    var once, twice := q.predicates + [InValues(col, [a])], q'.predicates + [InValues(col, [a])];
    forall r | r in all ensures AllOf(twice)(r) == (AllOf(once)(r) && a in first) {
      HoldsAppend(q'.predicates, InValues(col, [a]), r);
      HoldsAppend(q.predicates, InValues(col, first), r);
      HoldsAppend(q.predicates, InValues(col, [a]), r);
    }
    if a in first {
      FilterAgree(all, AllOf(twice), AllOf(once));
    } else {
      FilterNone(all, AllOf(twice));
    }
  }
}
