/** The audit gate: every high or critical vulnerability needs a valid, unexpired exception. */
module Gate {
  import opened Wrappers
  import opened Text
  import opened Exceptions
  import opened Vulns
  import opened Verdict

  const REQUIRED_FIELDS: seq<string> := ["package", "advisory", "severity", "mitigation", "expires_on"]

  datatype Fault = MissingFields | InvalidDate | BlankKey

  datatype Issue =
    | Faulty(fault: Fault)
    | Duplicate(key: Key)
    | NoAdvisory(name: Json)
    | SeverityMismatch(key: Key)

  function Value(rec: Record, field: string): string {
    if field in rec then rec[field] else ""
  }

  // ----- Normalisation

  function NormalizeText(h: Host, s: string): string {
    h.lower(Strip(s))
  }

  /** `(severity or "").strip().lower()`, which only text survives. */
  function NormalizeSeverity(h: Host, severity: Json): Result<string, Crash> {
    if !Truthy(severity) then Success(h.lower(""))
    else if severity.Str? then Success(NormalizeText(h, severity.s))
    else Failure(NotText)
  }

  function NormalizePackage(h: Host, name: Json): string {
    if name.Null? then "" else Strip(ToText(h, name))
  }

  function NormalizeAdvisory(h: Host, advisory: Json): string {
    if advisory.Null? then "" else NormalizeText(h, ToText(h, advisory))
  }

  // ----- The exceptions

  function RecordKey(h: Host, rec: Record): Key {
    (Strip(Value(rec, "package")), NormalizeText(h, Value(rec, "advisory")))
  }

  function Expiry(h: Host, rec: Record): Option<int> {
    h.date(Value(rec, "expires_on"))
  }

  /** What is wrong with a record on its own. */
  function FaultOf(h: Host, rec: Record): Option<Fault> {
    if exists f | f in REQUIRED_FIELDS :: Value(rec, f) == "" then Some(MissingFields)
    else if Expiry(h, rec).None? then Some(InvalidDate)
    else if RecordKey(h, rec).0 == "" || RecordKey(h, rec).1 == "" then Some(BlankKey)
    else None
  }

  function View(h: Host, rec: Record): Rec {
    Rec(FaultOf(h, rec).None?, RecordKey(h, rec), NormalizeText(h, Value(rec, "severity")),
        if Expiry(h, rec).Some? then Expiry(h, rec).value else 0)
  }

  function Views(h: Host, records: seq<Record>): (r: seq<Rec>)
    ensures |r| == |records|
  {
    if records == [] then [] else Views(h, records[..|records| - 1]) + [View(h, records[|records| - 1])]
  }

  lemma {:induction false} ViewsAt(h: Host, records: seq<Record>, i: nat)
    requires i < |records|
    ensures Views(h, records)[i] == View(h, records[i])
  {
    if i < |records| - 1 {
      ViewsAt(h, records[..|records| - 1], i);
    }
  }

  method Examine(h: Host, rec: Record) returns (fault: Option<Fault>, entry: Rec)
    ensures fault == FaultOf(h, rec) && entry == View(h, rec)
  {
    entry := View(h, rec);
    var missing := exists f | f in REQUIRED_FIELDS :: Value(rec, f) == "";
    if missing {
      return Some(MissingFields), entry;
    }
    if h.date(Value(rec, "expires_on")).None? {
      return Some(InvalidDate), entry;
    }
    if Strip(Value(rec, "package")) == "" || NormalizeText(h, Value(rec, "advisory")) == "" {
      return Some(BlankKey), entry;
    }
    return None, entry;
  }

  method BuildIndex(h: Host, records: seq<Record>) returns (index: map<Key, Rec>, errors: seq<Issue>)
    ensures index == IndexOf(Views(h, records))
    ensures errors == [] <==> Sound(Views(h, records))
  {
    ghost var recs := Views(h, records);
    index, errors := map[], [];
    for i := 0 to |records|
      invariant index == IndexOf(recs[..i])
      invariant errors == [] <==> Sound(recs[..i])
    {
      assert recs[..i + 1] == recs[..i] + [recs[i]];
      SoundSnoc(recs[..i], recs[i]);
      var fault, entry := Examine(h, records[i]);
      ViewsAt(h, records, i);
      if fault.Some? {
        errors := errors + [Faulty(fault.value)];
        continue;
      }
      if entry.key in index {
        errors := errors + [Duplicate(entry.key)];
        continue;
      }
      index := index[entry.key := entry];
    }
    assert recs[..|records|] == recs;
  }

  // ----- The vulnerabilities

  predicate SeverityReadable(v: Vuln) {
    !Truthy(v.severity) || v.severity.Str?
  }

  function Sight(h: Host, v: Vuln): Hit {
    var sev := if SeverityReadable(v) then NormalizeSeverity(h, v.severity).value else "";
    Hit(SeverityReadable(v) && (sev == "high" || sev == "critical") && Truthy(v.name),
        (NormalizePackage(h, v.name), NormalizeAdvisory(h, v.advisory)), sev)
  }

  function Sights(h: Host, vulns: seq<Vuln>): (r: seq<Hit>)
    ensures |r| == |vulns|
  {
    if vulns == [] then [] else Sights(h, vulns[..|vulns| - 1]) + [Sight(h, vulns[|vulns| - 1])]
  }

  lemma {:induction false} SightsAt(h: Host, vulns: seq<Vuln>, i: nat)
    requires i < |vulns|
    ensures Sights(h, vulns)[i] == Sight(h, vulns[i])
  {
    if i < |vulns| - 1 {
      SightsAt(h, vulns[..|vulns| - 1], i);
    }
  }

  datatype Action = Action(key: Option<Key>, missing: bool, errors: seq<Issue>, expired: bool)

  /** One tuple of the scan. */
  method Judge(h: Host, v: Vuln, index: map<Key, Rec>, seen: set<Key>) returns (a: Action)
    requires SeverityReadable(v)
    ensures var t := Sight(h, v);
      var first := Identified(t) && t.key !in seen;
      && (a.key == if Identified(t) then Some(t.key) else None)
      && (a.missing <==> first && t.key !in index)
      && (a.expired <==> first && t.key in index && index[t.key].expiresOn < h.today)
      && (a.errors != [] <==> t.high && (t.key.1 == "" || (first && t.key in index && Disagrees(index[t.key], t))))
  {
    a := Action(None, false, [], false);
    var sev := NormalizeSeverity(h, v.severity).value;
    if (sev != "high" && sev != "critical") || !Truthy(v.name) {
      return;
    }
    var advisoryKey := NormalizeAdvisory(h, v.advisory);
    if advisoryKey == "" {
      return a.(errors := [NoAdvisory(v.name)]);
    }
    var key := (NormalizePackage(h, v.name), advisoryKey);
    a := a.(key := Some(key));
    if key in seen {
      return;
    }
    if key !in index {
      return a.(missing := true);
    }
    var exc := index[key];
    if exc.severity != "" && exc.severity != sev {
      a := a.(errors := [SeverityMismatch(key)]);
    }
    if exc.expiresOn < h.today {
      a := a.(expired := true);
    }
  }

  /** The de-duplicating scan. `missing` and `expired` are the positions of the tuples reported, in
      order: each key at most once, at its first high occurrence. */
  method Scan(h: Host, vulns: seq<Vuln>, index: map<Key, Rec>)
      returns (crash: bool, errors: seq<Issue>, missing: seq<nat>, expired: seq<nat>)
    ensures crash <==> exists v | v in vulns :: !SeverityReadable(v)
    ensures !crash ==> missing == MissingList(Sights(h, vulns), index, |vulns|)
    ensures !crash ==> expired == ExpiredList(Sights(h, vulns), index, h.today, |vulns|)
    ensures !crash ==> (errors == [] <==> Untroubled(Sights(h, vulns), index, |vulns|))
  {
    ghost var hits := Sights(h, vulns);
    crash, errors, missing, expired := false, [], [], [];
    var seen: set<Key> := {};
    for i := 0 to |vulns|
      invariant !crash && forall k | 0 <= k < i :: SeverityReadable(vulns[k])
      invariant seen == SeenKeys(hits, i)
      invariant missing == MissingList(hits, index, i)
      invariant expired == ExpiredList(hits, index, h.today, i)
      invariant errors == [] <==> Untroubled(hits, index, i)
    {
      if !SeverityReadable(vulns[i]) {
        return true, [], [], [];
      }
      SightsAt(h, vulns, i);
      var action := Judge(h, vulns[i], index, seen);
      assert Decisive(hits, i) <==> Identified(hits[i]) && hits[i].key !in seen;
      if action.key.Some? {
        seen := seen + {action.key.value};
      }
      if action.missing {
        missing := missing + [i];
      }
      errors := errors + action.errors;
      if action.expired {
        expired := expired + [i];
      }
    }
  }
}
