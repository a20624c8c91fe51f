/** The decision the audit gate takes, over records and findings already normalised. */
module Verdict {

  type Key = (string, string)

  /** An exception record: whether it is usable, its package and advisory, and what it states. */
  datatype Rec = Rec(valid: bool, key: Key, severity: string, expiresOn: int)

  /** A reported tuple: whether it is a named high or critical one, and how it is looked up. */
  datatype Hit = Hit(high: bool, key: Key, severity: string)

  // ----- The index

  /** Every record is usable and no two share a key. */
  ghost predicate Sound(recs: seq<Rec>) {
    && (forall i | 0 <= i < |recs| :: recs[i].valid)
    && (forall i, j | 0 <= i < j < |recs| :: recs[i].key != recs[j].key)
  }

  /** Under each key, the first usable record that has it. */
  function IndexOf(recs: seq<Rec>): map<Key, Rec> {
    if recs == [] then map[]
    else
      var before, last := IndexOf(recs[..|recs| - 1]), recs[|recs| - 1];
      if last.valid && last.key !in before then before[last.key := last] else before
  }

  lemma {:induction false} IndexHolds(recs: seq<Rec>)
    ensures forall r | r in recs && r.valid :: r.key in IndexOf(recs)
    ensures forall k | k in IndexOf(recs) :: IndexOf(recs)[k] in recs && IndexOf(recs)[k].valid && IndexOf(recs)[k].key == k
  {
    if recs != [] {
      assert recs == recs[..|recs| - 1] + [recs[|recs| - 1]];
      IndexHolds(recs[..|recs| - 1]);
    }
  }

  /** Appending a record keeps a list sound exactly when it is usable and its key is not indexed. */
  lemma {:induction false} SoundSnoc(recs: seq<Rec>, last: Rec)
    ensures Sound(recs + [last]) <==> Sound(recs) && last.valid && last.key !in IndexOf(recs)
  {
    var all := recs + [last];
    IndexHolds(recs);
    assert all[|recs|] == last && forall i | 0 <= i < |recs| :: all[i] == recs[i] && recs[i] in recs;
    if last.key in IndexOf(recs) {
      var i :| 0 <= i < |recs| && recs[i] == IndexOf(recs)[last.key];
      assert all[i].key == all[|recs|].key;
    }
    if Sound(all) {
      assert forall i, j | 0 <= i < j < |recs| :: all[i].key != all[j].key;
    }
  }

  lemma {:induction false} SoundIndexIsExact(recs: seq<Rec>, r: Rec)
    requires Sound(recs) && r in recs
    ensures r.key in IndexOf(recs) && IndexOf(recs)[r.key] == r
  {
    IndexHolds(recs);
    var i :| 0 <= i < |recs| && recs[i] == r;
    var j :| 0 <= j < |recs| && recs[j] == IndexOf(recs)[r.key];
    assert i == j;
  }

  // ----- The scan

  /** A high tuple that can be looked up. */
  predicate Identified(t: Hit) {
    t.high && t.key.1 != ""
  }

  ghost predicate Seen(hits: seq<Hit>, n: nat, key: Key) {
    exists k: nat | k < n && k < |hits| :: Identified(hits[k]) && hits[k].key == key
  }

  /** The first high tuple with its key. */
  ghost predicate FirstHigh(hits: seq<Hit>, k: nat) {
    k < |hits| && Identified(hits[k]) && !Seen(hits, k, hits[k].key)
  }

  ghost predicate Missing(hits: seq<Hit>, index: map<Key, Rec>, k: nat) {
    FirstHigh(hits, k) && hits[k].key !in index
  }

  ghost predicate Expired(hits: seq<Hit>, index: map<Key, Rec>, today: int, k: nat) {
    FirstHigh(hits, k) && hits[k].key in index && index[hits[k].key].expiresOn < today
  }

  predicate Disagrees(r: Rec, t: Hit) {
    r.severity != "" && r.severity != t.severity
  }

  /** The tuple is reported on its own: it cannot be looked up, or its exception states another
      severity. */
  ghost predicate Troubled(hits: seq<Hit>, index: map<Key, Rec>, k: nat) {
    && k < |hits| && hits[k].high
    && (hits[k].key.1 == "" || (FirstHigh(hits, k) && hits[k].key in index && Disagrees(index[hits[k].key], hits[k])))
  }

  predicate Ascending(positions: seq<nat>) {
    forall i, j | 0 <= i < j < |positions| :: positions[i] < positions[j]
  }

  // What the scan collects over the first `n` tuples: the keys met, the positions of the tuples
  // reported as missing an exception or having an expired one, and whether all are untroubled.

  function SeenKeys(hits: seq<Hit>, n: nat): set<Key>
    requires n <= |hits|
  {
    if n == 0 then {} else SeenKeys(hits, n - 1) + (if Identified(hits[n - 1]) then {hits[n - 1].key} else {})
  }

  /** The tuple at `n` is the one its key is judged by. */
  predicate Decisive(hits: seq<Hit>, n: nat)
    requires n < |hits|
  {
    Identified(hits[n]) && hits[n].key !in SeenKeys(hits, n)
  }

  function MissingList(hits: seq<Hit>, index: map<Key, Rec>, n: nat): seq<nat>
    requires n <= |hits|
  {
    if n == 0 then []
    else MissingList(hits, index, n - 1) + (if Decisive(hits, n - 1) && hits[n - 1].key !in index then [n - 1] else [])
  }

  function ExpiredList(hits: seq<Hit>, index: map<Key, Rec>, today: int, n: nat): seq<nat>
    requires n <= |hits|
  {
    if n == 0 then []
    else
      var key := hits[n - 1].key;
      ExpiredList(hits, index, today, n - 1) +
        (if Decisive(hits, n - 1) && key in index && index[key].expiresOn < today then [n - 1] else [])
  }

  function Untroubled(hits: seq<Hit>, index: map<Key, Rec>, n: nat): bool
    requires n <= |hits|
  {
    n == 0 || (Untroubled(hits, index, n - 1) &&
      var t := hits[n - 1];
      !(t.high && (t.key.1 == "" || (Decisive(hits, n - 1) && t.key in index && Disagrees(index[t.key], t)))))
  }

  lemma {:induction false} SeenKeysAreSeen(hits: seq<Hit>, n: nat, key: Key)
    requires n <= |hits|
    ensures key in SeenKeys(hits, n) <==> Seen(hits, n, key)
  {
    if n > 0 {
      SeenKeysAreSeen(hits, n - 1, key);
      if k: nat :| k < n - 1 && Identified(hits[k]) && hits[k].key == key {
        assert Seen(hits, n, key);
      }
    }
  }

  lemma {:induction false} DecisiveIsFirstHigh(hits: seq<Hit>, k: nat)
    requires k < |hits|
    ensures Decisive(hits, k) <==> FirstHigh(hits, k)
  {
    SeenKeysAreSeen(hits, k, hits[k].key);
  }

  /** The missing report names exactly the first high tuples without an exception, each once. */
  lemma {:induction false} MissingListIsExact(hits: seq<Hit>, index: map<Key, Rec>, n: nat)
    requires n <= |hits|
    ensures Ascending(MissingList(hits, index, n))
    ensures forall k: nat :: k in MissingList(hits, index, n) <==> k < n && Missing(hits, index, k)
  {
    if n > 0 {
      MissingListIsExact(hits, index, n - 1);
      DecisiveIsFirstHigh(hits, n - 1);
      var before := MissingList(hits, index, n - 1);
      assert forall i | 0 <= i < |before| :: before[i] in before;
    }
  }

  /** The expiry report names exactly the first high tuples whose exception has expired, each once. */
  lemma {:induction false} ExpiredListIsExact(hits: seq<Hit>, index: map<Key, Rec>, today: int, n: nat)
    requires n <= |hits|
    ensures Ascending(ExpiredList(hits, index, today, n))
    ensures forall k: nat :: k in ExpiredList(hits, index, today, n) <==> k < n && Expired(hits, index, today, k)
  {
    if n > 0 {
      ExpiredListIsExact(hits, index, today, n - 1);
      DecisiveIsFirstHigh(hits, n - 1);
      var before := ExpiredList(hits, index, today, n - 1);
      assert forall i | 0 <= i < |before| :: before[i] in before;
    }
  }

  lemma {:induction false} UntroubledIsExact(hits: seq<Hit>, index: map<Key, Rec>, n: nat)
    requires n <= |hits|
    ensures Untroubled(hits, index, n) <==> forall k: nat | k < n :: !Troubled(hits, index, k)
  {
    if n > 0 {
      UntroubledIsExact(hits, index, n - 1);
      DecisiveIsFirstHigh(hits, n - 1);
      assert Untroubled(hits, index, n) <==> Untroubled(hits, index, n - 1) && !Troubled(hits, index, n - 1);
    }
  }

  lemma {:induction false} NoneMissing(hits: seq<Hit>, index: map<Key, Rec>, n: nat)
    requires n <= |hits|
    ensures MissingList(hits, index, n) == [] <==> forall k: nat | k < n :: !Missing(hits, index, k)
  {
    MissingListIsExact(hits, index, n);
    var missing := MissingList(hits, index, n);
    assert missing != [] ==> missing[0] in missing;
  }

  lemma {:induction false} NoneExpired(hits: seq<Hit>, index: map<Key, Rec>, today: int, n: nat)
    requires n <= |hits|
    ensures ExpiredList(hits, index, today, n) == [] <==> forall k: nat | k < n :: !Expired(hits, index, today, k)
  {
    ExpiredListIsExact(hits, index, today, n);
    var expired := ExpiredList(hits, index, today, n);
    assert expired != [] ==> expired[0] in expired;
  }

  /** A scan that collected nothing is silent. */
  lemma {:induction false} NothingCollected(hits: seq<Hit>, index: map<Key, Rec>, today: int)
    ensures Silent(hits, index, today) <==>
      MissingList(hits, index, |hits|) == [] && ExpiredList(hits, index, today, |hits|) == [] && Untroubled(hits, index, |hits|)
  {
    NoneMissing(hits, index, |hits|);
    NoneExpired(hits, index, today, |hits|);
    UntroubledIsExact(hits, index, |hits|);
  }

  lemma {:induction false} FirstHighExists(hits: seq<Hit>, k: nat) returns (j: nat)
    requires k < |hits| && Identified(hits[k])
    ensures j <= k && FirstHigh(hits, j) && hits[j].key == hits[k].key
  {
    if FirstHigh(hits, k) {
      j := k;
    } else {
      var i: nat :| i < k && Identified(hits[i]) && hits[i].key == hits[k].key;
      j := FirstHighExists(hits, i);
    }
  }

  /** The scan reports nothing. */
  ghost predicate Silent(hits: seq<Hit>, index: map<Key, Rec>, today: int) {
    forall k: nat | k < |hits| :: !Missing(hits, index, k) && !Expired(hits, index, today, k) && !Troubled(hits, index, k)
  }

  // ----- The specification

  /** Some unexpired exception is for this tuple. */
  ghost predicate Excused(recs: seq<Rec>, t: Hit, today: int) {
    t.key.1 != "" && exists r | r in recs :: r.key == t.key && r.expiresOn >= today
  }

  /** When the gate should pass, said without an index or a scan: the records are usable and their
      keys differ, every high tuple is excused, and for each key the first high tuple's severity is
      the exception's, unless that is blank. */
  ghost predicate Acceptable(recs: seq<Rec>, hits: seq<Hit>, today: int) {
    && Sound(recs)
    && (forall t | t in hits && t.high :: Excused(recs, t, today))
    && (forall k: nat, r | FirstHigh(hits, k) && r in recs && r.key == hits[k].key :: !Disagrees(r, hits[k]))
  }

  lemma {:induction false} AcceptableSilences(recs: seq<Rec>, hits: seq<Hit>, today: int, k: nat)
    requires Acceptable(recs, hits, today) && k < |hits|
    ensures var index := IndexOf(recs);
      !Missing(hits, index, k) && !Expired(hits, index, today, k) && !Troubled(hits, index, k)
  {
    var t := hits[k];
    if t.high {
      assert Excused(recs, t, today);
      var r :| r in recs && r.key == t.key && r.expiresOn >= today;
      SoundIndexIsExact(recs, r);
    }
  }

  lemma {:induction false} SilenceExcuses(recs: seq<Rec>, hits: seq<Hit>, today: int, k: nat)
    requires Sound(recs) && Silent(hits, IndexOf(recs), today) && k < |hits| && hits[k].high
    ensures Excused(recs, hits[k], today)
  {
    var index, t := IndexOf(recs), hits[k];
    assert !Troubled(hits, index, k);
    var j := FirstHighExists(hits, k);
    assert !Missing(hits, index, j) && !Expired(hits, index, today, j);
    IndexHolds(recs);
    assert index[t.key] in recs && index[t.key].key == t.key;
  }

  /** Indexing and scanning decide the specification. */
  lemma {:induction false} ScanDecides(recs: seq<Rec>, hits: seq<Hit>, today: int)
    ensures Sound(recs) && Silent(hits, IndexOf(recs), today) <==> Acceptable(recs, hits, today)
  {
    if Acceptable(recs, hits, today) {
      forall k: nat | k < |hits|
        ensures !Missing(hits, IndexOf(recs), k) && !Expired(hits, IndexOf(recs), today, k) && !Troubled(hits, IndexOf(recs), k)
      {
        AcceptableSilences(recs, hits, today, k);
      }
    }
    if Sound(recs) && Silent(hits, IndexOf(recs), today) {
      forall t | t in hits && t.high ensures Excused(recs, t, today) {
        var k :| 0 <= k < |hits| && hits[k] == t;
        SilenceExcuses(recs, hits, today, k);
      }
      forall k: nat, r | FirstHigh(hits, k) && r in recs && r.key == hits[k].key ensures !Disagrees(r, hits[k]) {
        SoundIndexIsExact(recs, r);
        assert !Troubled(hits, IndexOf(recs), k);
      }
    }
  }
}
