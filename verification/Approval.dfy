/** When the audit gate passes, said of the records and tuples themselves. */
module Approval {
  import opened Wrappers
  import opened Text
  import opened Exceptions
  import opened Vulns
  import opened Verdict
  import opened Gate

  // ----- The condition

  /** A field that is there and not empty. */
  predicate States(rec: Record, field: string) {
    field in rec && rec[field] != ""
  }

  /** A complete record: all five fields, a date, and a package and an advisory that are not blank. */
  predicate Complete(h: Host, rec: Record) {
    && States(rec, "package") && States(rec, "advisory") && States(rec, "severity") && States(rec, "mitigation")
    && States(rec, "expires_on") && h.date(rec["expires_on"]).Some?
    && Strip(rec["package"]) != "" && h.lower(Strip(rec["advisory"])) != ""
  }

  predicate SameSubject(h: Host, a: Record, b: Record)
    requires Complete(h, a) && Complete(h, b)
  {
    Strip(a["package"]) == Strip(b["package"]) && h.lower(Strip(a["advisory"])) == h.lower(Strip(b["advisory"]))
  }

  function Worded(h: Host, j: Json): string {
    if j.Str? then j.s else h.text(j)
  }

  function SeverityOf(h: Host, v: Vuln): string {
    h.lower(if v.severity.Str? then Strip(v.severity.s) else "")
  }

  function PackageOf(h: Host, v: Vuln): string {
    if v.name.Null? then "" else Strip(Worded(h, v.name))
  }

  function AdvisoryOf(h: Host, v: Vuln): string {
    if v.advisory.Null? then "" else h.lower(Strip(Worded(h, v.advisory)))
  }

  /** A named tuple of high or critical severity. */
  predicate Alarming(h: Host, v: Vuln) {
    Truthy(v.name) && (SeverityOf(h, v) == "high" || SeverityOf(h, v) == "critical")
  }

  /** The record is for the package and the advisory of the tuple. */
  predicate Covers(h: Host, rec: Record, v: Vuln)
    requires Complete(h, rec)
  {
    Strip(rec["package"]) == PackageOf(h, v) && h.lower(Strip(rec["advisory"])) == AdvisoryOf(h, v)
  }

  predicate Unexpired(h: Host, rec: Record)
    requires Complete(h, rec)
  {
    h.date(rec["expires_on"]).value >= h.today
  }

  /** The tuple is alarming and about the package and advisory of another. */
  predicate AlarmsAbout(h: Host, v: Vuln, other: Vuln) {
    Alarming(h, v) && PackageOf(h, v) == PackageOf(h, other) && AdvisoryOf(h, v) == AdvisoryOf(h, other)
  }

  /** The first alarming tuple of its package and advisory. */
  ghost predicate FirstAlarm(h: Host, vulns: seq<Vuln>, k: nat) {
    && k < |vulns| && Alarming(h, vulns[k]) && AdvisoryOf(h, vulns[k]) != ""
    && forall i | 0 <= i < k :: !AlarmsAbout(h, vulns[i], vulns[k])
  }

  predicate Agrees(h: Host, rec: Record, v: Vuln)
    requires Complete(h, rec)
  {
    h.lower(Strip(rec["severity"])) == "" || h.lower(Strip(rec["severity"])) == SeverityOf(h, v)
  }

  ghost predicate AllComplete(h: Host, records: seq<Record>) {
    forall i | 0 <= i < |records| :: Complete(h, records[i])
  }

  ghost predicate OnePerSubject(h: Host, records: seq<Record>)
    requires AllComplete(h, records)
  {
    forall i, j | 0 <= i < j < |records| :: !SameSubject(h, records[i], records[j])
  }

  /** A tuple for which there is an unexpired record. */
  ghost predicate Covered(h: Host, records: seq<Record>, v: Vuln)
    requires AllComplete(h, records)
  {
    AdvisoryOf(h, v) != "" && exists i | 0 <= i < |records| :: Covers(h, records[i], v) && Unexpired(h, records[i])
  }

  /** Every record is complete and no two have the same subject; every alarming tuple is covered by an unexpired
      record; and of each subject the first alarming tuple has the severity its record states, unless that is blank. */
  ghost predicate Approved(h: Host, records: seq<Record>, vulns: seq<Vuln>) {
    && AllComplete(h, records) && OnePerSubject(h, records)
    && (forall v | v in vulns && Alarming(h, v) :: Covered(h, records, v))
    && (forall k: nat, i | FirstAlarm(h, vulns, k) && 0 <= i < |records| && Covers(h, records[i], vulns[k]) :: Agrees(h, records[i], vulns[k]))
  }

  // ----- What the gate looks at is what they say

  lemma {:induction false} FaultlessIsComplete(h: Host, rec: Record)
    ensures FaultOf(h, rec).None? <==> Complete(h, rec)
  {
    FieldsMissing(rec);
  }

  lemma {:induction false} FieldsMissing(rec: Record)
    ensures (exists f | f in REQUIRED_FIELDS :: Value(rec, f) == "") <==>
      !(States(rec, "package") && States(rec, "advisory") && States(rec, "severity") && States(rec, "mitigation") && States(rec, "expires_on"))
  {
    var fields := REQUIRED_FIELDS;
    assert fields[0] == "package" && fields[1] == "advisory" && fields[2] == "severity" && fields[3] == "mitigation" && fields[4] == "expires_on";
    assert forall i | 0 <= i < |fields| :: fields[i] in fields && (Value(rec, fields[i]) == "" <==> !States(rec, fields[i]));
    if f :| f in fields && Value(rec, f) == "" {
      var i :| 0 <= i < |fields| && fields[i] == f;
      assert i == 0 || i == 1 || i == 2 || i == 3 || i == 4;
    }
  }

  lemma {:induction false} ViewSays(h: Host, rec: Record)
    ensures View(h, rec).valid <==> Complete(h, rec)
    ensures Complete(h, rec) ==>
      View(h, rec) == Rec(true, (Strip(rec["package"]), h.lower(Strip(rec["advisory"]))), h.lower(Strip(rec["severity"])), h.date(rec["expires_on"]).value)
  {
    FaultlessIsComplete(h, rec);
  }

  lemma {:induction false} SightSays(h: Host, v: Vuln)
    requires SeverityReadable(v)
    ensures Sight(h, v).high <==> Alarming(h, v)
    ensures Sight(h, v).key == (PackageOf(h, v), AdvisoryOf(h, v)) && Sight(h, v).severity == SeverityOf(h, v)
  {
    StripTrimmed("");
  }

  lemma {:induction false} SoundSays(h: Host, records: seq<Record>)
    ensures Sound(Views(h, records)) <==> AllComplete(h, records) && OnePerSubject(h, records)
  {
    var recs := Views(h, records);
    forall i | 0 <= i < |records|
      ensures recs[i].valid <==> Complete(h, records[i])
      ensures Complete(h, records[i]) ==> recs[i].key == (Strip(records[i]["package"]), h.lower(Strip(records[i]["advisory"])))
    {
      ViewsAt(h, records, i);
      ViewSays(h, records[i]);
    }
  }

  lemma {:induction false} ExcusedSays(h: Host, records: seq<Record>, v: Vuln)
    requires AllComplete(h, records) && SeverityReadable(v)
    ensures Excused(Views(h, records), Sight(h, v), h.today) <==> Covered(h, records, v)
  {
    var recs := Views(h, records);
    SightSays(h, v);
    forall i | 0 <= i < |records|
      ensures recs[i].key == Sight(h, v).key && recs[i].expiresOn >= h.today <==> Covers(h, records[i], v) && Unexpired(h, records[i])
      ensures recs[i] in recs
    {
      ViewsAt(h, records, i);
      ViewSays(h, records[i]);
    }
    if Excused(recs, Sight(h, v), h.today) {
      var r :| r in recs && r.key == Sight(h, v).key && r.expiresOn >= h.today;
      var i :| 0 <= i < |recs| && recs[i] == r;
    }
  }

  lemma {:induction false} FirstSays(h: Host, vulns: seq<Vuln>, k: nat)
    requires forall v | v in vulns :: SeverityReadable(v)
    ensures FirstHigh(Sights(h, vulns), k) <==> FirstAlarm(h, vulns, k)
  {
    var hits := Sights(h, vulns);
    forall i | 0 <= i < |vulns|
      ensures hits[i].high <==> Alarming(h, vulns[i])
      ensures hits[i].key == (PackageOf(h, vulns[i]), AdvisoryOf(h, vulns[i]))
    {
      SightsAt(h, vulns, i);
      SightSays(h, vulns[i]);
    }
  }

  lemma {:induction false} DisagreesSays(h: Host, records: seq<Record>, vulns: seq<Vuln>, k: nat, i: nat)
    requires AllComplete(h, records) && i < |records| && k < |vulns| && SeverityReadable(vulns[k])
    ensures var r, t := Views(h, records)[i], Sights(h, vulns)[k];
      && (r.key == t.key <==> Covers(h, records[i], vulns[k]))
      && (Disagrees(r, t) <==> !Agrees(h, records[i], vulns[k]))
  {
    ViewsAt(h, records, i);
    ViewSays(h, records[i]);
    SightsAt(h, vulns, k);
    SightSays(h, vulns[k]);
  }

  ghost predicate AllExcused(recs: seq<Rec>, hits: seq<Hit>, today: int) {
    forall t | t in hits && t.high :: Excused(recs, t, today)
  }

  ghost predicate AllCovered(h: Host, records: seq<Record>, vulns: seq<Vuln>)
    requires AllComplete(h, records)
  {
    forall v | v in vulns && Alarming(h, v) :: Covered(h, records, v)
  }

  lemma {:induction false} TupleSays(h: Host, records: seq<Record>, vulns: seq<Vuln>, i: nat)
    requires AllComplete(h, records) && i < |vulns| && SeverityReadable(vulns[i])
    ensures var t := Sights(h, vulns)[i];
      (t.high ==> Excused(Views(h, records), t, h.today)) <==> (Alarming(h, vulns[i]) ==> Covered(h, records, vulns[i]))
  {
    SightsAt(h, vulns, i);
    SightSays(h, vulns[i]);
    ExcusedSays(h, records, vulns[i]);
  }

  lemma {:induction false} HighExcusedSays(h: Host, records: seq<Record>, vulns: seq<Vuln>)
    requires AllComplete(h, records) && forall v | v in vulns :: SeverityReadable(v)
    ensures AllExcused(Views(h, records), Sights(h, vulns), h.today) <==> AllCovered(h, records, vulns)
  {
    var hits := Sights(h, vulns);
    if AllCovered(h, records, vulns) {
      forall t | t in hits && t.high ensures Excused(Views(h, records), t, h.today) {
        var i :| 0 <= i < |hits| && hits[i] == t;
        assert vulns[i] in vulns;
        TupleSays(h, records, vulns, i);
      }
    }
    if AllExcused(Views(h, records), hits, h.today) {
      forall v | v in vulns && Alarming(h, v) ensures Covered(h, records, v) {
        var i :| 0 <= i < |vulns| && vulns[i] == v;
        assert hits[i] in hits;
        TupleSays(h, records, vulns, i);
      }
    }
  }

  ghost predicate SeveritiesAgree(h: Host, records: seq<Record>, vulns: seq<Vuln>)
    requires AllComplete(h, records)
  {
    forall k: nat, i | FirstAlarm(h, vulns, k) && 0 <= i < |records| && Covers(h, records[i], vulns[k]) :: Agrees(h, records[i], vulns[k])
  }

  ghost predicate NoneDisagrees(recs: seq<Rec>, hits: seq<Hit>) {
    forall k: nat, r | FirstHigh(hits, k) && r in recs && r.key == hits[k].key :: !Disagrees(r, hits[k])
  }

  lemma {:induction false} SeveritiesSay(h: Host, records: seq<Record>, vulns: seq<Vuln>)
    requires AllComplete(h, records) && forall v | v in vulns :: SeverityReadable(v)
    ensures NoneDisagrees(Views(h, records), Sights(h, vulns)) <==> SeveritiesAgree(h, records, vulns)
  {
    var recs, hits := Views(h, records), Sights(h, vulns);
    if SeveritiesAgree(h, records, vulns) {
      forall k: nat, r | FirstHigh(hits, k) && r in recs && r.key == hits[k].key ensures !Disagrees(r, hits[k]) {
        var i :| 0 <= i < |recs| && recs[i] == r;
        FirstSays(h, vulns, k);
        DisagreesSays(h, records, vulns, k, i);
      }
    }
    if NoneDisagrees(recs, hits) {
      forall k: nat, i | FirstAlarm(h, vulns, k) && 0 <= i < |records| && Covers(h, records[i], vulns[k]) ensures Agrees(h, records[i], vulns[k]) {
        FirstSays(h, vulns, k);
        DisagreesSays(h, records, vulns, k, i);
        assert recs[i] in recs;
      }
    }
  }

  lemma {:induction false} ApprovedIsAcceptable(h: Host, records: seq<Record>, vulns: seq<Vuln>)
    requires forall v | v in vulns :: SeverityReadable(v)
    ensures Acceptable(Views(h, records), Sights(h, vulns), h.today) <==> Approved(h, records, vulns)
  {
    SoundSays(h, records);
    if AllComplete(h, records) {
      HighExcusedSays(h, records, vulns);
      SeveritiesSay(h, records, vulns);
    }
  }

  // ----- The whole gate

  datatype Outcome = Exit(code: int) | Crashed

  /** An exception ends the run: an item without a colon, a report of the wrong shape, or a severity
      that is not text. */
  ghost predicate Crashes(h: Host, lines: seq<string>, audit: Json) {
    || Parsed(lines).Failure? || Enumerated(h, audit).Failure?
    || exists v | v in Enumerated(h, audit).value :: !SeverityReadable(v)
  }

  /** The tool after its two files are read: unless it crashes, it exits 0 exactly when the records approve of the tuples. */
  method Validate(h: Host, lines: seq<string>, audit: Json) returns (r: Outcome)
    ensures r == Crashed <==> Crashes(h, lines, audit)
    ensures r != Crashed ==>
      r == Exit(if Approved(h, Parsed(lines).value, Enumerated(h, audit).value) then 0 else 1)
  {
    var records := ParseExceptions(lines);
    if records.Failure? {
      return Crashed;
    }
    var index, errors := BuildIndex(h, records.value);
    var vulns := IterVulns(h, audit);
    if vulns.Failure? {
      return Crashed;
    }
    var crash, more, missing, expired := Scan(h, vulns.value, index);
    if crash {
      return Crashed;
    }
    ghost var recs, hits := Views(h, records.value), Sights(h, vulns.value);
    NothingCollected(hits, index, h.today);
    ScanDecides(recs, hits, h.today);
    ApprovedIsAcceptable(h, records.value, vulns.value);
    if errors + more != [] || missing != [] || expired != [] {
      return Exit(1);
    }
    return Exit(0);
  }

  /** A tuple that is not alarming contributes nothing, wherever it stands. */
  lemma {:induction false} QuietTupleContributesNothing(h: Host, records: seq<Record>, a: seq<Vuln>, v: Vuln, b: seq<Vuln>)
    requires !Alarming(h, v)
    ensures Approved(h, records, a + [v] + b) <==> Approved(h, records, a + b)
  {
    var with, without := a + [v] + b, a + b;
    assert forall x :: x in with <==> x in without || x == v;
    forall k: nat | k < |without| ensures FirstAlarm(h, without, k) <==> FirstAlarm(h, with, Shifted(|a|, k)) {
      QuietFirst(h, a, v, b, k);
    }
    assert forall k: nat | k < |without| :: with[Shifted(|a|, k)] == without[k];
    if AllComplete(h, records) {
      if SeveritiesAgree(h, records, without) {
        forall k: nat, i | FirstAlarm(h, with, k) && 0 <= i < |records| && Covers(h, records[i], with[k]) ensures Agrees(h, records[i], with[k]) {
          var m: nat := if k < |a| then k else k - 1;
          assert Shifted(|a|, m) == k && FirstAlarm(h, without, m) && without[m] == with[k];
        }
      }
      if SeveritiesAgree(h, records, with) {
        forall k: nat, i | FirstAlarm(h, without, k) && 0 <= i < |records| && Covers(h, records[i], without[k])
          ensures Agrees(h, records[i], without[k])
        {
          assert FirstAlarm(h, with, Shifted(|a|, k));
        }
      }
      assert SeveritiesAgree(h, records, with) <==> SeveritiesAgree(h, records, without);
    }
  }

  function Shifted(n: nat, k: nat): nat {
    if k < n then k else k + 1
  }

  lemma {:induction false} QuietFirst(h: Host, a: seq<Vuln>, v: Vuln, b: seq<Vuln>, k: nat)
    requires !Alarming(h, v) && k < |a + b|
    ensures FirstAlarm(h, a + b, k) <==> FirstAlarm(h, a + [v] + b, Shifted(|a|, k))
  {
    FirstWith(h, a + [v] + b, a + b, |a|, k);
  }

  lemma {:induction false} FirstWith(h: Host, with: seq<Vuln>, without: seq<Vuln>, n: nat, k: nat)
    requires k < |without| && n <= |without| && |with| == |without| + 1 && !Alarming(h, with[n])
    requires forall i: nat | i < |without| :: with[Shifted(n, i)] == without[i]
    ensures FirstAlarm(h, without, k) <==> FirstAlarm(h, with, Shifted(n, k))
  {
    var m := Shifted(n, k);
    if FirstAlarm(h, with, m) {
      forall i | 0 <= i < k ensures !AlarmsAbout(h, without[i], without[k]) {
        assert without[i] == with[Shifted(n, i)];
      }
    }
    if FirstAlarm(h, without, k) {
      forall i | 0 <= i < m ensures !AlarmsAbout(h, with[i], with[m]) {
        if i != n {
          var j: nat := if i < n then i else i - 1;
          assert Shifted(n, j) == i;
        }
      }
    }
  }
}
