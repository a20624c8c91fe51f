/** Database rows as the query builders see them: a row maps column names to values, a table is
    the list of its rows in a requested order, and a statement filters, deduplicates and windows
    that list. This is the interface assumed of the SQL library. */
module Rows {
  import opened Wrappers
  import opened Seqs

  datatype Value = Null | Int(i: int) | Text(s: string)

  type Row = map<string, Value>

  type Pred = Row -> bool

  /** The rows of a table sorted by the given order terms (ties are broken deterministically). */
  type Table = seq<string> -> seq<Row>

  /** An integer column read into a plain field: absent and NULL leave the zero value. */
  function IntCol(r: Row, c: string): int {
    if c in r && r[c].Int? then r[c].i else 0
  }

  /** An integer column read into a pointer field: absent and NULL leave it nil. */
  function OptIntCol(r: Row, c: string): Option<int> {
    if c in r && r[c].Int? then Some(r[c].i) else None
  }

  function Project(r: Row, cols: seq<string>): Row {
    map c | c in r.Keys && c in cols :: r[c]
  }

  function ProjectAll(rows: seq<Row>, cols: seq<string>): (r: seq<Row>)
    ensures |r| == |rows|
  {
    seq(|rows|, i requires 0 <= i < |rows| => Project(rows[i], cols))
  }

  lemma {:induction false} ProjectKeeps(r: Row, cols: seq<string>, c: string)
    requires c in cols
    ensures IntCol(Project(r, cols), c) == IntCol(r, c)
    ensures OptIntCol(Project(r, cols), c) == OptIntCol(r, c)
  {
  }

  predicate Holds(ps: seq<Pred>, r: Row) {
    forall i | 0 <= i < |ps| :: ps[i](r)
  }

  function AllOf(ps: seq<Pred>): Pred {
    (r: Row) => Holds(ps, r)
  }

  /** The predicate `col IN (ids...)`; NULL is in no list. */
  function InValues(col: string, ids: seq<int>): Pred {
    (r: Row) => col in r && r[col].Int? && r[col].i in ids
  }

  /** The rows whose integer column `col` reads as `v`. */
  function ColumnIs(col: string, v: int): Pred {
    (r: Row) => IntCol(r, col) == v
  }

  function Matching(rows: seq<Row>, ps: seq<Pred>): seq<Row> {
    Filter(rows, AllOf(ps))
  }

  lemma {:induction false} HoldsAppend(ps: seq<Pred>, p: Pred, r: Row)
    ensures Holds(ps + [p], r) == (Holds(ps, r) && p(r))
  {
    assert (ps + [p])[|ps|] == p;
    assert forall i | 0 <= i < |ps| :: (ps + [p])[i] == ps[i];
  }

  /** Some row of `rows` reads like `r` on the columns `cols`. */
  predicate Repeats(rows: seq<Row>, cols: seq<string>, r: Row) {
    exists k | 0 <= k < |rows| :: Project(rows[k], cols) == Project(r, cols)
  }

  /** SELECT DISTINCT over the columns `cols`: the first row of each class is kept. */
  function Dedup(rows: seq<Row>, cols: seq<string>): seq<Row> {
    if rows == [] then []
    else
      var front := Dedup(rows[..|rows| - 1], cols);
      var last := rows[|rows| - 1];
      if Repeats(front, cols, last) then front else front + [last]
  }

  /** OFFSET and LIMIT; no limit keeps everything. */
  function Window<T>(rows: seq<T>, offset: nat, limit: Option<nat>): seq<T> {
    var rest := if offset <= |rows| then rows[offset..] else [];
    if limit.Some? && limit.value < |rest| then rest[..limit.value] else rest
  }

  lemma {:induction false} DedupMembers(rows: seq<Row>, cols: seq<string>)
    ensures forall r | r in Dedup(rows, cols) :: r in rows
  {
    if rows != [] {
      DedupMembers(rows[..|rows| - 1], cols);
    }
  }

  /** DISTINCT depends on the set of columns only, not on their order or repetition. */
  lemma {:induction false} DedupSameColumns(rows: seq<Row>, a: seq<string>, b: seq<string>)
    requires forall c :: c in a <==> c in b
    ensures Dedup(rows, a) == Dedup(rows, b)
  {
    if rows != [] {
      DedupSameColumns(rows[..|rows| - 1], a, b);
      forall r: Row ensures Project(r, a) == Project(r, b) {
      }
      assert Repeats(Dedup(rows[..|rows| - 1], a), a, rows[|rows| - 1]) == Repeats(Dedup(rows[..|rows| - 1], a), b, rows[|rows| - 1]);
    }
  }

  // ----- What DISTINCT leaves of a window

  /** No two of the first `n` rows read alike on `cols`. */
  ghost predicate AllDiffer(rows: seq<Row>, cols: seq<string>, n: nat) {
    forall i, j | 0 <= i < j < n && j < |rows| :: Project(rows[i], cols) != Project(rows[j], cols)
  }

  /** DISTINCT keeps one row of each class, and all rows exactly when they all differ. */
  lemma {:induction false} DedupSize(rows: seq<Row>, cols: seq<string>)
    ensures |Dedup(rows, cols)| <= |rows|
    ensures |Dedup(rows, cols)| == |rows| <==> AllDiffer(rows, cols, |rows|)
    ensures AllDiffer(rows, cols, |rows|) ==> Dedup(rows, cols) == rows
    ensures forall r | r in rows :: Repeats(Dedup(rows, cols), cols, r)
    ensures AllDiffer(Dedup(rows, cols), cols, |Dedup(rows, cols)|)
  {
    if rows != [] {
      var n := |rows| - 1;
      DedupSize(rows[..n], cols);
      assert rows == rows[..n] + [rows[n]];
      var front := Dedup(rows[..n], cols);
      AllDifferLast(rows, cols);
      forall r | r in rows ensures Repeats(Dedup(rows, cols), cols, r) {
        if r in rows[..n] && Dedup(rows, cols) != front {
          RepeatsGrows(front, cols, r, rows[n]);
        }
        if r == rows[n] && Dedup(rows, cols) != front {
          assert Dedup(rows, cols)[|front|] == r;
        }
      }
    }
  }

  lemma {:induction false} AllDifferLast(rows: seq<Row>, cols: seq<string>)
    requires rows != []
    ensures var front := rows[..|rows| - 1];
      AllDiffer(rows, cols, |rows|) <==> AllDiffer(front, cols, |front|) && !Repeats(front, cols, rows[|rows| - 1])
  {
    var front := rows[..|rows| - 1];
    assert forall i | 0 <= i < |front| :: front[i] == rows[i];
  }

  lemma {:induction false} RepeatsGrows(rows: seq<Row>, cols: seq<string>, r: Row, more: Row)
    requires Repeats(rows, cols, r)
    ensures Repeats(rows + [more], cols, r)
  {
    var k :| 0 <= k < |rows| && Project(rows[k], cols) == Project(r, cols);
    assert (rows + [more])[k] == rows[k];
  }

  lemma {:induction false} DedupPrefix(rows: seq<Row>, cols: seq<string>, n: nat)
    requires n <= |rows|
    ensures Dedup(rows[..n], cols) <= Dedup(rows, cols)
  {
    if n == |rows| {
      assert rows[..n] == rows;
    } else {
      assert rows[..|rows| - 1][..n] == rows[..n];
      DedupPrefix(rows[..|rows| - 1], cols, n);
    }
  }

  /** DISTINCT over fewer columns, applied after DISTINCT over more, is DISTINCT over fewer. */
  lemma {:induction false} DedupCoarser(rows: seq<Row>, fine: seq<string>, coarse: seq<string>)
    requires forall c | c in coarse :: c in fine
    ensures Dedup(Dedup(rows, fine), coarse) == Dedup(rows, coarse)
  {
    if rows != [] {
      var front, last := rows[..|rows| - 1], rows[|rows| - 1];
      DedupCoarser(front, fine, coarse);
      var kept := Dedup(front, fine);
      if Repeats(kept, fine, last) {
        var k :| 0 <= k < |kept| && Project(kept[k], fine) == Project(last, fine);
        AlikeOnFewer(kept[k], last, fine, coarse);
        DedupSize(kept, coarse);
        assert kept[k] in kept && Repeats(Dedup(kept, coarse), coarse, kept[k]);
      } else {
        assert (kept + [last])[..|kept|] == kept;
      }
    }
  }

  lemma {:induction false} AlikeOnFewer(r: Row, s: Row, fine: seq<string>, coarse: seq<string>)
    requires forall c | c in coarse :: c in fine
    requires Project(r, fine) == Project(s, fine)
    ensures Project(r, coarse) == Project(s, coarse)
  {
    forall c | c in coarse ensures (c in r <==> c in s) && (c in r ==> r[c] == s[c]) {
      assert c in Project(r, fine) <==> c in r;
      assert c in Project(s, fine) <==> c in s;
    }
  }

  /** Once two of the first `n` rows read alike, DISTINCT has another row in the last of these places, or none. */
  lemma {:induction false} DedupShifts(rows: seq<Row>, cols: seq<string>, n: nat)
    requires 0 < n <= |rows| && !AllDiffer(rows, cols, n) && n <= |Dedup(rows, cols)|
    ensures Dedup(rows, cols)[n - 1] != rows[n - 1]
  {
    var head, kept := Dedup(rows[..n], cols), Dedup(rows, cols);
    DedupPrefix(rows, cols, n);
    DedupSize(rows[..n], cols);
    DedupSize(rows, cols);
    assert !AllDiffer(rows[..n], cols, n) by {
      var i, j :| 0 <= i < j < n && Project(rows[i], cols) == Project(rows[j], cols);
      assert rows[..n][i] == rows[i] && rows[..n][j] == rows[j];
    }
    assert rows[..n][n - 1] == rows[n - 1] && rows[n - 1] in rows[..n];
    var k :| 0 <= k < |head| && Project(head[k], cols) == Project(rows[n - 1], cols);
    assert kept[k] == head[k] && k < n - 1;
  }

  /** A window of the rows and a window at the same offset of what DISTINCT leaves of them are the same exactly
      when they are equally long and, unless empty, end before the first row that repeats an earlier one. */
  lemma {:induction false} WindowOfDistinct(rows: seq<Row>, cols: seq<string>, offset: nat, limit: Option<nat>, distinctLimit: Option<nat>)
    ensures var all, distinct := Window(rows, offset, limit), Window(Dedup(rows, cols), offset, distinctLimit);
      all == distinct <==> |all| == |distinct| && (all == [] || AllDiffer(rows, cols, offset + |all|))
  {
    var kept := Dedup(rows, cols);
    var all, distinct := Window(rows, offset, limit), Window(kept, offset, distinctLimit);
    WindowIsASegment(rows, offset, limit);
    WindowIsASegment(kept, offset, distinctLimit);
    if |all| == |distinct| && all != [] {
      var n := offset + |all|;
      if AllDiffer(rows, cols, n) {
        DedupKeepsHead(rows, cols, n);
        SegmentOfHead(rows, kept, offset, n);
      } else {
        DedupShifts(rows, cols, n);
        assert all[|all| - 1] == rows[n - 1] && distinct[|all| - 1] == kept[n - 1];
      }
    }
  }

  lemma {:induction false} WindowIsASegment<T>(s: seq<T>, offset: nat, limit: Option<nat>)
    ensures var w := Window(s, offset, limit); w != [] ==> offset + |w| <= |s| && w == s[offset..offset + |w|]
  {
  }

  lemma {:induction false} SegmentOfHead<T>(s: seq<T>, t: seq<T>, from: nat, to: nat)
    requires from <= to <= |s| && to <= |t| && s[..to] == t[..to]
    ensures s[from..to] == t[from..to]
  {
    assert s[from..to] == s[..to][from..] && t[from..to] == t[..to][from..];
  }

  lemma {:induction false} DedupKeepsHead(rows: seq<Row>, cols: seq<string>, n: nat)
    requires n <= |rows| && AllDiffer(rows, cols, n)
    ensures n <= |Dedup(rows, cols)| && Dedup(rows, cols)[..n] == rows[..n]
  {
    var head := rows[..n];
    assert AllDiffer(head, cols, |head|) by {
      forall i, j | 0 <= i < j < |head| ensures Project(head[i], cols) != Project(head[j], cols) {
        assert head[i] == rows[i] && head[j] == rows[j];
      }
    }
    DedupPrefix(rows, cols, n);
    DedupSize(head, cols);
  }
}
