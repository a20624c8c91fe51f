/** What loading an edge means, as relational joins over row streams, and how the batched form
    (one child query for all nodes) compares with the simple form (one child query per node). */
module Joins {
  import opened Wrappers
  import opened Seqs
  import opened Rows

  // ----- Many to many

  /** One row of the child query of a many-to-many edge: the account it was joined through, the
      group's ID and the group's columns. */
  datatype Link = Link(account: int, gid: int, row: Row)

  function RowsOf(links: seq<Link>): (r: seq<Row>)
    ensures |r| == |links|
  {
    seq(|links|, i requires 0 <= i < |links| => links[i].row)
  }

  function Gids(links: seq<Link>): (r: seq<int>)
    ensures |r| == |links|
  {
    seq(|links|, i requires 0 <= i < |links| => links[i].gid)
  }

  predicate Appears(links: seq<Link>, g: int) {
    exists k | 0 <= k < |links| :: links[k].gid == g
  }

  predicate Linked(links: seq<Link>, a: int, g: int) {
    exists k | 0 <= k < |links| :: links[k].account == a && links[k].gid == g
  }

  /** The first link of each group, in stream order. */
  function Firsts(links: seq<Link>): seq<Link> {
    if links == [] then []
    else
      var front, last := links[..|links| - 1], links[|links| - 1];
      if Appears(front, last.gid) then Firsts(front) else Firsts(front) + [last]
  }

  function OnAccount(links: seq<Link>, a: int): Link -> bool {
    (l: Link) => Linked(links, a, l.gid)
  }

  function ThroughAccount(a: int): Link -> bool {
    (l: Link) => l.account == a
  }

  /** The groups of account `a` in the batched form: each once, in the order in which the groups
      first appear anywhere in the stream. */
  function Joined(links: seq<Link>, a: int): seq<Link> {
    Filter(Firsts(links), OnAccount(links, a))
  }

  /** The groups of account `a` when only its own links are read. */
  function JoinedAlone(links: seq<Link>, a: int): seq<Link> {
    Firsts(Filter(links, ThroughAccount(a)))
  }

  /** Where a group first appears; the length of the stream if it does not. */
  function Rank(links: seq<Link>, g: int): (k: nat)
    ensures k <= |links|
    ensures k < |links| ==> links[k].gid == g
  {
    if links == [] || links[0].gid == g then 0 else 1 + Rank(links[1..], g)
  }

  lemma {:induction false} RankIsFirst(links: seq<Link>, g: int)
    ensures Rank(links, g) < |links| <==> Appears(links, g)
    ensures forall i | 0 <= i < Rank(links, g) :: links[i].gid != g
  {
    if links != [] && links[0].gid != g {
      RankIsFirst(links[1..], g);
      if Appears(links, g) {
        var k :| 0 <= k < |links| && links[k].gid == g;
        assert links[1..][k - 1].gid == g;
      }
      forall i | 0 <= i < Rank(links, g) ensures links[i].gid != g {
        assert i > 0 ==> links[i] == links[1..][i - 1];
      }
    }
  }

  ghost predicate SortedByRank(ranking: seq<Link>, s: seq<Link>) {
    forall i, j | 0 <= i < j < |s| :: Rank(ranking, s[i].gid) < Rank(ranking, s[j].gid)
  }

  lemma {:induction false} AppearsStep(front: seq<Link>, last: Link, g: int)
    ensures Appears(front + [last], g) <==> Appears(front, g) || last.gid == g
    ensures Appears(front, g) ==> Rank(front + [last], g) == Rank(front, g)
    ensures !Appears(front, g) && last.gid == g ==> Rank(front + [last], g) == |front|
  {
    var s := front + [last];
    assert s[|front|] == last;
    assert forall k | 0 <= k < |front| :: s[k] == front[k];
    RankIsFirst(front, g);
    RankIsFirst(s, g);
    if Appears(front, g) {
      assert s[Rank(front, g)].gid == g;
    }
  }

  lemma {:induction false} FirstsByRank(links: seq<Link>)
    ensures SortedByRank(links, Firsts(links))
    ensures forall l | l in Firsts(links) :: Rank(links, l.gid) < |links| && l == links[Rank(links, l.gid)]
    ensures forall g :: Appears(Firsts(links), g) <==> Appears(links, g)
  {
    if links != [] {
      var front, last := links[..|links| - 1], links[|links| - 1];
      assert links == front + [last];
      FirstsByRank(front);
      var s := Firsts(front);
      forall g ensures Appears(Firsts(links), g) <==> Appears(links, g) {
        AppearsStep(front, last, g);
        AppearsStep(s, last, g);
      }
      forall l | l in s ensures Rank(links, l.gid) < |links| && l == links[Rank(links, l.gid)] && Rank(links, l.gid) < |front| {
        AppearsStep(front, last, l.gid);
        RankIsFirst(front, l.gid);
      }
      AppearsStep(front, last, last.gid);
      FirstsStillSorted(links, s, Rank(links, last.gid), last);
    }
  }

  lemma {:induction false} FirstsStillSorted(links: seq<Link>, s: seq<Link>, n: nat, last: Link)
    requires forall i, j | 0 <= i < j < |s| :: links != [] && Rank(links[..|links| - 1], s[i].gid) < Rank(links[..|links| - 1], s[j].gid)
    requires links != [] && forall l | l in s :: Appears(links[..|links| - 1], l.gid)
    requires links[|links| - 1] == last
    ensures SortedByRank(links, s)
    ensures !Appears(links[..|links| - 1], last.gid) ==> SortedByRank(links, s + [last])
  {
    var front := links[..|links| - 1];
    assert links == front + [last];
    forall i | 0 <= i < |s| ensures Rank(links, s[i].gid) == Rank(front, s[i].gid) < |front| {
      assert s[i] in s;
      AppearsStep(front, last, s[i].gid);
      RankIsFirst(front, s[i].gid);
    }
    AppearsStep(front, last, last.gid);
  }

  lemma {:induction false} FilterSortedByRank(ranking: seq<Link>, s: seq<Link>, p: Link -> bool)
    requires SortedByRank(ranking, s)
    ensures SortedByRank(ranking, Filter(s, p))
  {
    if s != [] {
      var n := |s| - 1;
      FilterSortedByRank(ranking, s[..n], p);
      var front := Filter(s[..n], p);
      FilterMembers(s[..n], p);
      forall i | 0 <= i < |front| ensures Rank(ranking, front[i].gid) < Rank(ranking, s[n].gid) {
        assert front[i] in front;
        var k :| 0 <= k < n && s[k] == front[i];
      }
    }
  }

  lemma {:induction false} SortedLast(ranking: seq<Link>, a: seq<Link>, b: seq<Link>)
    requires a != [] && b != []
    requires SortedByRank(ranking, a) && SortedByRank(ranking, b)
    requires Appears(b, a[|a| - 1].gid) && Appears(a, b[|b| - 1].gid)
    ensures a[|a| - 1].gid == b[|b| - 1].gid
  {
    var x, y := a[|a| - 1].gid, b[|b| - 1].gid;
    var i :| 0 <= i < |b| && b[i].gid == x;
    var j :| 0 <= j < |a| && a[j].gid == y;
    assert i < |b| - 1 ==> Rank(ranking, x) < Rank(ranking, y);
    assert j < |a| - 1 ==> Rank(ranking, y) < Rank(ranking, x);
  }

  lemma {:induction false} SortedInit(ranking: seq<Link>, s: seq<Link>)
    requires s != [] && SortedByRank(ranking, s)
    ensures SortedByRank(ranking, s[..|s| - 1])
    ensures forall g :: Appears(s[..|s| - 1], g) <==> Appears(s, g) && g != s[|s| - 1].gid
  {
    var front, last := s[..|s| - 1], s[|s| - 1];
    assert s == front + [last];
    forall g ensures Appears(front, g) <==> Appears(s, g) && g != last.gid {
      AppearsStep(front, last, g);
      if Appears(front, g) {
        var k :| 0 <= k < |front| && front[k].gid == g;
        assert Rank(ranking, s[k].gid) < Rank(ranking, s[|s| - 1].gid);
      }
    }
  }

  /** The groups of a list sorted by rank are determined by which groups appear in it. */
  lemma {:induction false} SortedUnique(ranking: seq<Link>, a: seq<Link>, b: seq<Link>)
    requires SortedByRank(ranking, a) && SortedByRank(ranking, b)
    requires forall g :: Appears(a, g) <==> Appears(b, g)
    ensures Gids(a) == Gids(b)
  {
    if a == [] || b == [] {
      assert a != [] ==> Appears(a, a[0].gid);
      assert b != [] ==> Appears(b, b[0].gid);
    } else {
      assert Appears(a, a[|a| - 1].gid) && Appears(b, b[|b| - 1].gid);
      SortedLast(ranking, a, b);
      SortedInit(ranking, a);
      SortedInit(ranking, b);
      var a', b' := a[..|a| - 1], b[..|b| - 1];
      forall g ensures Appears(a', g) <==> Appears(b', g) {
        assert Appears(a, g) <==> Appears(b, g);
      }
      SortedUnique(ranking, a', b');
      assert Gids(a) == Gids(a[..|a| - 1]) + [a[|a| - 1].gid];
      assert Gids(b) == Gids(b[..|b| - 1]) + [b[|b| - 1].gid];
    }
  }

  /** The batched many-to-many result is the relational join: exactly the linked groups, each once
      however often the link repeats, ordered by first appearance in the whole stream. */
  lemma {:induction false} JoinedIsTheJoin(links: seq<Link>, a: int)
    ensures forall g :: Appears(Joined(links, a), g) <==> Linked(links, a, g)
    ensures SortedByRank(links, Joined(links, a)) && Distinct(Gids(Joined(links, a)))
    ensures forall l | l in Joined(links, a) :: Rank(links, l.gid) < |links| && l == links[Rank(links, l.gid)]
  {
    FirstsByRank(links);
    FilterSortedByRank(links, Firsts(links), OnAccount(links, a));
    FilterMembers(Firsts(links), OnAccount(links, a));
    forall g ensures Appears(Joined(links, a), g) <==> Linked(links, a, g) {
      JoinedMember(links, a, g);
    }
  }

  lemma {:induction false} JoinedMember(links: seq<Link>, a: int, g: int)
    ensures Appears(Joined(links, a), g) <==> Linked(links, a, g)
  {
    var firsts, joined := Firsts(links), Joined(links, a);
    if Appears(joined, g) {
      var k :| 0 <= k < |joined| && joined[k].gid == g;
      assert joined[k] in joined;
      FilterMember(firsts, OnAccount(links, a), joined[k]);
    }
    if Linked(links, a, g) {
      var i :| 0 <= i < |links| && links[i].account == a && links[i].gid == g;
      assert Appears(links, g);
      FirstsByRank(links);
      var k :| 0 <= k < |firsts| && firsts[k].gid == g;
      FilterMember(firsts, OnAccount(links, a), firsts[k]);
      var j :| 0 <= j < |joined| && joined[j] == firsts[k];
      assert joined[j].gid == g;
    }
  }

  lemma {:induction false} AloneIsTheJoin(links: seq<Link>, a: int)
    ensures forall g :: Appears(JoinedAlone(links, a), g) <==> Linked(links, a, g)
    ensures SortedByRank(Filter(links, ThroughAccount(a)), JoinedAlone(links, a))
  {
    var own := Filter(links, ThroughAccount(a));
    FirstsByRank(own);
    FilterMembers(links, ThroughAccount(a));
    forall g ensures Appears(own, g) <==> Linked(links, a, g) {
      RankIsFirst(own, g);
      if Appears(own, g) {
        assert own[Rank(own, g)] in own;
      }
      if Linked(links, a, g) {
        var k :| 0 <= k < |links| && links[k].account == a && links[k].gid == g;
        FilterMember(links, ThroughAccount(a), links[k]);
      }
    }
  }

  /** The account's own links bring its groups in the order the whole stream does. */
  ghost predicate SameOrder(links: seq<Link>, a: int) {
    var own := Filter(links, ThroughAccount(a));
    forall g, h | Linked(links, a, g) && Linked(links, a, h) ::
      Rank(links, g) < Rank(links, h) <==> Rank(own, g) < Rank(own, h)
  }

  /** Batched and per-account many-to-many loading always give the same set of groups; they give
      the same list exactly when other accounts' links do not reorder the groups. */
  lemma {:induction false} BatchedGroupsVersusAlone(links: seq<Link>, a: int)
    ensures forall g :: Appears(Joined(links, a), g) <==> Appears(JoinedAlone(links, a), g)
    ensures Gids(Joined(links, a)) == Gids(JoinedAlone(links, a)) <==> SameOrder(links, a)
  {
    JoinedIsTheJoin(links, a);
    AloneIsTheJoin(links, a);
    var own, batched, alone := Filter(links, ThroughAccount(a)), Joined(links, a), JoinedAlone(links, a);
    if SameOrder(links, a) {
      forall i, j | 0 <= i < j < |alone| ensures Rank(links, alone[i].gid) < Rank(links, alone[j].gid) {
        assert Rank(own, alone[i].gid) < Rank(own, alone[j].gid);
        assert Appears(alone, alone[i].gid) && Appears(alone, alone[j].gid);
      }
      SortedUnique(links, batched, alone);
    }
    if Gids(batched) == Gids(alone) {
      SameListSameOrder(links, a);
    }
  }

  lemma {:induction false} SameListSameOrder(links: seq<Link>, a: int)
    requires Gids(Joined(links, a)) == Gids(JoinedAlone(links, a))
    ensures SameOrder(links, a)
  {
    JoinedIsTheJoin(links, a);
    AloneIsTheJoin(links, a);
    var own, batched, alone := Filter(links, ThroughAccount(a)), Joined(links, a), JoinedAlone(links, a);
    forall g, h | Linked(links, a, g) && Linked(links, a, h)
      ensures Rank(links, g) < Rank(links, h) <==> Rank(own, g) < Rank(own, h)
    {
      assert Appears(batched, g) && Appears(batched, h);
      SameListSamePlaces(links, own, batched, alone, g, h);
    }
  }

  lemma {:induction false} SameListSamePlaces(links: seq<Link>, own: seq<Link>, batched: seq<Link>, alone: seq<Link>, g: int, h: int)
    requires SortedByRank(links, batched) && SortedByRank(own, alone) && Gids(batched) == Gids(alone)
    requires Appears(batched, g) && Appears(batched, h)
    ensures Rank(links, g) < Rank(links, h) <==> Rank(own, g) < Rank(own, h)
  {
    var i :| 0 <= i < |batched| && batched[i].gid == g;
    var j :| 0 <= j < |batched| && batched[j].gid == h;
    assert Gids(batched)[i] == Gids(alone)[i] && Gids(batched)[j] == Gids(alone)[j];
    assert alone[i].gid == g && alone[j].gid == h;
  }

  ghost predicate SortedByKey(key: int -> int, s: seq<Link>) {
    forall i, j | 0 <= i < j < |s| :: key(s[i].gid) <= key(s[j].gid)
  }

  /** A stream sorted by a property of the group alone keeps every account's order. */
  lemma {:induction false} GroupOrderedStreamKeepsOrder(links: seq<Link>, key: int -> int, a: int)
    requires SortedByKey(key, links)
    requires forall g, h | Appears(links, g) && Appears(links, h) && key(g) == key(h) :: g == h
    ensures Gids(Joined(links, a)) == Gids(JoinedAlone(links, a))
  {
    var own := Filter(links, ThroughAccount(a));
    FilterKeepsKeyOrder(links, key, ThroughAccount(a));
    AloneIsTheJoin(links, a);
    FirstsByRank(own);
    forall g, h | Linked(links, a, g) && Linked(links, a, h)
      ensures Rank(links, g) < Rank(links, h) <==> Rank(own, g) < Rank(own, h)
    {
      assert Appears(JoinedAlone(links, a), g) && Appears(JoinedAlone(links, a), h);
      RankFollowsKey(links, key, g, h);
      RankFollowsKey(own, key, g, h);
    }
    BatchedGroupsVersusAlone(links, a);
  }

  lemma {:induction false} RankFollowsKey(s: seq<Link>, key: int -> int, g: int, h: int)
    requires SortedByKey(key, s)
    requires Appears(s, g) && Appears(s, h) && (key(g) == key(h) ==> g == h)
    ensures Rank(s, g) < Rank(s, h) <==> key(g) < key(h)
  {
    RankIsFirst(s, g);
    RankIsFirst(s, h);
  }

  lemma {:induction false} FilterKeepsKeyOrder(s: seq<Link>, key: int -> int, p: Link -> bool)
    requires SortedByKey(key, s)
    ensures SortedByKey(key, Filter(s, p))
  {
    if s != [] {
      var n := |s| - 1;
      FilterKeepsKeyOrder(s[..n], key, p);
      FilterMembers(s[..n], p);
      var front := Filter(s[..n], p);
      forall i | 0 <= i < |front| ensures key(front[i].gid) <= key(s[n].gid) {
        assert front[i] in front;
        var k :| 0 <= k < n && s[k] == front[i];
      }
    }
  }

  /** Account 2's link to group 1 precedes account 1's links, so account 1 is given its groups as
      1, 2 although its own links name 2 first. */
  lemma {:induction false} OtherAccountReorders()
    ensures var links := [Link(2, 1, map[]), Link(1, 2, map[]), Link(1, 1, map[])];
      Gids(Joined(links, 1)) != Gids(JoinedAlone(links, 1))
  {
    var l0, l1, l2 := Link(2, 1, map[]), Link(1, 2, map[]), Link(1, 1, map[]);
    var links := [l0, l1, l2];
    FilterAppend([l0], [l1, l2], ThroughAccount(1));
    FilterAll([l1, l2], ThroughAccount(1));
    assert Filter([l0], ThroughAccount(1)) == [];
    assert links == [l0] + [l1, l2];
    var own := Filter(links, ThroughAccount(1));
    assert own == [l1, l2];
    assert links[0].gid == 1 && links[1].gid == 2 && own[0].gid == 2 && own[1].gid == 1;
    assert !SameOrder(links, 1) by {
      assert Rank(links, 1) < Rank(links, 2) && Rank(own, 2) < Rank(own, 1);
      assert Linked(links, 1, 1) by { assert links[2] == l2; }
      assert Linked(links, 1, 2) by { assert links[1] == l1; }
    }
    BatchedGroupsVersusAlone(links, 1);
  }

  // ----- One to many

  function OwnedBy(rows: seq<Row>, col: string, a: int): seq<Row> {
    Filter(rows, ColumnIs(col, a))
  }

  /** The lists of all the given accounts, one after the other. */
  function Gather(rows: seq<Row>, col: string, ids: seq<int>): seq<Row> {
    if ids == [] then [] else Gather(rows, col, ids[..|ids| - 1]) + OwnedBy(rows, col, ids[|ids| - 1])
  }

  function NotColumn(col: string, a: int): Pred {
    (r: Row) => IntCol(r, col) != a
  }

  lemma {:induction false} SplitOwned(rows: seq<Row>, col: string, a: int)
    ensures multiset(rows) == multiset(Filter(rows, NotColumn(col, a))) + multiset(OwnedBy(rows, col, a))
  {
    if rows != [] {
      var n := |rows| - 1;
      assert rows == rows[..n] + [rows[n]];
      SplitOwned(rows[..n], col, a);
    }
  }

  lemma {:induction false} GatherIgnoresOthers(rows: seq<Row>, col: string, ids: seq<int>, a: int)
    requires a !in ids
    ensures Gather(Filter(rows, NotColumn(col, a)), col, ids) == Gather(rows, col, ids)
  {
    if ids != [] {
      var last := ids[|ids| - 1];
      GatherIgnoresOthers(rows, col, ids[..|ids| - 1], a);
      FilterTwice(rows, NotColumn(col, a), ColumnIs(col, last), ColumnIs(col, last));
    }
  }

  /** Conservation: over pairwise distinct accounts that cover the foreign keys, the per-account
      lists hold every child row exactly as often as the child result does. */
  lemma {:induction false} ListsPartitionTheResult(rows: seq<Row>, col: string, ids: seq<int>)
    requires Distinct(ids)
    requires forall r | r in rows :: IntCol(r, col) in ids
    ensures multiset(Gather(rows, col, ids)) == multiset(rows)
    decreases |ids|
  {
    assert rows != [] ==> rows[0] in rows;
    if ids != [] {
      var n := |ids| - 1;
      var a, rest := ids[n], Filter(rows, NotColumn(col, ids[n]));
      FilterMembers(rows, NotColumn(col, a));
      assert ids == ids[..n] + [a];
      ListsPartitionTheResult(rest, col, ids[..n]);
      GatherIgnoresOthers(rows, col, ids[..n], a);
      SplitOwned(rows, col, a);
    }
  }

  // ----- Many to one

  /** The row an edge with key `p` ends up pointing at: the last one returned with that ID. */
  function Lookup(rows: seq<Row>, p: int): Option<Row> {
    if rows == [] then None
    else if IntCol(rows[|rows| - 1], "id") == p then Some(rows[|rows| - 1])
    else Lookup(rows[..|rows| - 1], p)
  }

  lemma {:induction false} LookupFinds(rows: seq<Row>, p: int)
    ensures Lookup(rows, p).Some? <==> exists k | 0 <= k < |rows| :: IntCol(rows[k], "id") == p
    ensures Lookup(rows, p).Some? ==> Lookup(rows, p).value in rows && IntCol(Lookup(rows, p).value, "id") == p
  {
    if rows != [] {
      var n := |rows| - 1;
      LookupFinds(rows[..n], p);
      if Lookup(rows[..n], p).Some? {
        var k :| 0 <= k < n && IntCol(rows[..n][k], "id") == p;
        assert IntCol(rows[k], "id") == p;
      }
      if exists k | 0 <= k < |rows| :: IntCol(rows[k], "id") == p {
        var k :| 0 <= k < |rows| && IntCol(rows[k], "id") == p;
        assert k < n ==> IntCol(rows[..n][k], "id") == p;
      }
    }
  }
}
