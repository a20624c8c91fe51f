/** Enumerating the vulnerabilities of an audit report, whose shape is not under the tool's control:
    any access the data does not support ends the run. */
module Vulns {
  import opened Wrappers

  datatype Json =
    | Null
    | Bool(b: bool)
    | Num(n: real)
    | Str(s: string)
    | List(items: seq<Json>)
    | Obj(members: seq<(string, Json)>)

  /** An uncaught exception. */
  datatype Crash = NotAnObject | BadSubscript | NotText

  /** What the host language supplies: lower-casing, text of non-text values, the date parser (dates
      as day numbers) and today's date. */
  datatype Host = Host(lower: string -> string, text: Json -> string, date: string -> Option<int>, today: int)

  datatype Vuln = Vuln(name: Json, severity: Json, advisory: Json, title: Json)

  predicate Truthy(j: Json) {
    match j
    case Null => false
    case Bool(b) => b
    case Num(n) => n != 0.0
    case Str(s) => s != ""
    case List(items) => items != []
    case Obj(members) => members != []
  }

  /** `a or b` */
  function Or(a: Json, b: Json): Json {
    if Truthy(a) then a else b
  }

  /** `get(key)`; a missing key reads as null. */
  function Get(members: seq<(string, Json)>, key: string): Json {
    if members == [] then Null else if members[0].0 == key then members[0].1 else Get(members[1..], key)
  }

  function ToText(h: Host, j: Json): string {
    if j.Str? then j.s else h.text(j)
  }

  /** `(cves or [None])[0]` */
  function FirstOf(cves: Json): Result<Json, Crash> {
    if !Truthy(cves) then Success(Null)
    else match cves
      case List(items) => Success(items[0])
      case Str(s) => Success(Str(s[..1]))
      case _ => Failure(BadSubscript)
  }

  function PickAdvisoryId(h: Host, m: seq<(string, Json)>): Result<Json, Crash> {
    var stable := Or(Get(m, "github_advisory_id"), Get(m, "url"));
    if Truthy(stable) then Success(stable)
    else
      var cve := FirstOf(Get(m, "cves"));
      if cve.Failure? then cve
      else
        var id := if Get(m, "id") != Null then Str(ToText(h, Get(m, "id"))) else Null;
        Success(Or(cve.value, Or(id, Or(Get(m, "title"), Or(Get(m, "advisory"), Get(m, "overview"))))))
  }

  // ----- One entry

  function FromAdvisory(h: Host, advisory: Json): Result<Vuln, Crash> {
    if !advisory.Obj? then Failure(NotAnObject)
    else
      var m := advisory.members;
      var id := PickAdvisoryId(h, m);
      if id.Failure? then Failure(id.error)
      else Success(Vuln(Or(Get(m, "module_name"), Get(m, "name")), Get(m, "severity"), id.value,
                        Or(Get(m, "title"), Or(Get(m, "advisory"), Or(Get(m, "overview"), Get(m, "url"))))))
  }

  function ItemAdvisory(item: Json): Json {
    if item.Obj? then
      var m := item.members;
      Or(Get(m, "github_advisory_id"), Or(Get(m, "url"), Or(Get(m, "source"), Or(Get(m, "title"), Get(m, "name")))))
    else item
  }

  function ItemTitle(item: Json): Json {
    if item.Obj? then
      var m := item.members;
      Or(Get(m, "title"), Or(Get(m, "url"), Or(Get(m, "advisory"), Get(m, "source"))))
    else item
  }

  /** The entries of `via` that are looked at. */
  function Items(via: Json): seq<Json> {
    match via
    case List(items) => Usable(items)
    case Str(_) => [via]
    case _ => []
  }

  function Usable(items: seq<Json>): seq<Json> {
    if items == [] then []
    else
      var last := items[|items| - 1];
      Usable(items[..|items| - 1]) + (if last.Obj? || last.Str? then [last] else [])
  }

  function Via(m: seq<(string, Json)>): Json {
    if HasKey(m, "via") then Get(m, "via") else List([])
  }

  predicate HasKey(m: seq<(string, Json)>, key: string) {
    exists i | 0 <= i < |m| :: m[i].0 == key
  }

  function Advisories(items: seq<Json>): (r: seq<Json>)
    ensures |r| == |items|
  {
    seq(|items|, i requires 0 <= i < |items| => ItemAdvisory(items[i]))
  }

  function Titles(items: seq<Json>): (r: seq<Json>)
    ensures |r| == |items|
  {
    seq(|items|, i requires 0 <= i < |items| => ItemTitle(items[i]))
  }

  function OnlyTruthy(s: seq<Json>): seq<Json> {
    if s == [] then []
    else OnlyTruthy(s[..|s| - 1]) + (if Truthy(s[|s| - 1]) then [s[|s| - 1]] else [])
  }

  predicate HasNonText(parts: seq<Json>) {
    exists i | 0 <= i < |parts| :: !parts[i].Str?
  }

  /** `"; ".join(parts)`, which only joins text. */
  function Join(parts: seq<Json>): Result<string, Crash> {
    if HasNonText(parts) then Failure(NotText) else Success(Joined(parts))
  }

  function Joined(parts: seq<Json>): string
    requires !HasNonText(parts)
  {
    if parts == [] then ""
    else if |parts| == 1 then parts[0].s
    else
      assert forall i | 0 <= i < |parts| - 1 :: parts[..|parts| - 1][i] == parts[i];
      Joined(parts[..|parts| - 1]) + "; " + parts[|parts| - 1].s
  }

  /** The first part, and then the others, each after a semicolon and a space. */
  lemma {:induction false} JoinedMeans(parts: seq<Json>)
    requires !HasNonText(parts)
    ensures Joined(parts) == if parts == [] then "" else parts[0].s + Tail(parts[1..])
  {
    if |parts| > 1 {
      var front := parts[..|parts| - 1];
      assert forall i | 0 <= i < |front| :: front[i] == parts[i];
      JoinedMeans(front);
      assert parts[1..] == front[1..] + [parts[|parts| - 1]];
      TailAppend(front[1..], parts[|parts| - 1]);
    }
  }

  function Tail(parts: seq<Json>): string {
    if parts == [] then "" else "; " + (if parts[0].Str? then parts[0].s else "") + Tail(parts[1..])
  }

  lemma {:induction false} TailAppend(parts: seq<Json>, last: Json)
    ensures Tail(parts + [last]) == Tail(parts) + "; " + (if last.Str? then last.s else "")
  {
    if parts == [] {
      assert ([] + [last])[1..] == [];
    } else {
      assert (parts + [last])[1..] == parts[1..] + [last];
      TailAppend(parts[1..], last);
    }
  }

  function Tuples(name: string, severity: Json, ids: seq<Json>, title: string): (r: seq<Vuln>)
    ensures |r| == |ids|
  {
    seq(|ids|, i requires 0 <= i < |ids| => Vuln(Str(name), severity, ids[i], Str(title)))
  }

  function FromVulnerability(name: string, vuln: Json): Result<seq<Vuln>, Crash> {
    if !vuln.Obj? then Failure(NotAnObject)
    else
      var items := Items(Via(vuln.members));
      var title := Join(OnlyTruthy(Titles(items)));
      if title.Failure? then Failure(title.error)
      else Success(Tuples(name, Get(vuln.members, "severity"), OnlyTruthy(Advisories(items)), title.value))
  }

  // ----- All entries

  function FromAdvisories(h: Host, m: seq<(string, Json)>): Result<seq<Vuln>, Crash> {
    if m == [] then Success([])
    else
      var before := FromAdvisories(h, m[..|m| - 1]);
      if before.Failure? then before
      else
        var v := FromAdvisory(h, m[|m| - 1].1);
        if v.Failure? then Failure(v.error) else Success(before.value + [v.value])
  }

  function FromVulnerabilities(m: seq<(string, Json)>): Result<seq<Vuln>, Crash> {
    if m == [] then Success([])
    else
      var before := FromVulnerabilities(m[..|m| - 1]);
      if before.Failure? then before
      else
        var vs := FromVulnerability(m[|m| - 1].0, m[|m| - 1].1);
        if vs.Failure? then vs else Success(before.value + vs.value)
  }

  /** The members of an object; anything else is passed over. */
  function MembersOf(j: Json): seq<(string, Json)> {
    if j.Obj? then j.members else []
  }

  function Enumerated(h: Host, data: Json): Result<seq<Vuln>, Crash> {
    if !data.Obj? then Failure(NotAnObject)
    else
      var direct := FromAdvisories(h, MembersOf(Get(data.members, "advisories")));
      if direct.Failure? then direct
      else
        var more := FromVulnerabilities(MembersOf(Get(data.members, "vulnerabilities")));
        if more.Failure? then more else Success(direct.value + more.value)
  }

  method IterVulns(h: Host, data: Json) returns (r: Result<seq<Vuln>, Crash>)
    ensures r == Enumerated(h, data)
  {
    if !data.Obj? {
      return Failure(NotAnObject);
    }
    var out: seq<Vuln> := [];
    var advisories := Get(data.members, "advisories");
    if advisories.Obj? {
      var direct := IterAdvisories(h, advisories.members);
      if direct.Failure? {
        return direct;
      }
      out := direct.value;
    }
    var vulnerabilities := Get(data.members, "vulnerabilities");
    if vulnerabilities.Obj? {
      var more := IterVulnerabilities(vulnerabilities.members);
      if more.Failure? {
        return more;
      }
      out := out + more.value;
    }
    assert out + [] == out;
    return Success(out);
  }

  method IterAdvisories(h: Host, m: seq<(string, Json)>) returns (r: Result<seq<Vuln>, Crash>)
    ensures r == FromAdvisories(h, m)
  {
    var out: seq<Vuln> := [];
    for i := 0 to |m|
      invariant FromAdvisories(h, m[..i]) == Success(out)
    {
      assert m[..i + 1][..i] == m[..i];
      var v := FromAdvisory(h, m[i].1);
      if v.Failure? {
        AdvisoriesStayFailed(h, m, i + 1);
        return Failure(v.error);
      }
      out := out + [v.value];
    }
    assert m[..|m|] == m;
    return Success(out);
  }

  method IterVulnerabilities(m: seq<(string, Json)>) returns (r: Result<seq<Vuln>, Crash>)
    ensures r == FromVulnerabilities(m)
  {
    var out: seq<Vuln> := [];
    for i := 0 to |m|
      invariant FromVulnerabilities(m[..i]) == Success(out)
    {
      assert m[..i + 1][..i] == m[..i];
      var vs := IterVia(m[i].0, m[i].1);
      if vs.Failure? {
        VulnerabilitiesStayFailed(m, i + 1);
        return vs;
      }
      out := out + vs.value;
    }
    assert m[..|m|] == m;
    return Success(out);
  }

  /** The tuples of one `vulnerabilities` entry. */
  method IterVia(name: string, vuln: Json) returns (r: Result<seq<Vuln>, Crash>)
    ensures r == FromVulnerability(name, vuln)
  {
    if !vuln.Obj? {
      return Failure(NotAnObject);
    }
    var via := Via(vuln.members);
    var titles: seq<Json>, advisories: seq<Json> := [], [];
    if via.List? {
      for i := 0 to |via.items|
        invariant titles == Titles(Usable(via.items[..i])) && advisories == Advisories(Usable(via.items[..i]))
      {
        assert via.items[..i + 1][..i] == via.items[..i];
        var item := via.items[i];
        if item.Obj? {
          advisories := advisories + [ItemAdvisory(item)];
          titles := titles + [ItemTitle(item)];
        } else if item.Str? {
          advisories := advisories + [item];
          titles := titles + [item];
        }
      }
      assert via.items[..|via.items|] == via.items;
    } else if via.Str? {
      advisories := [via];
      titles := [via];
    }
    assert titles == Titles(Items(via)) && advisories == Advisories(Items(via));
    var title := Join(OnlyTruthy(titles));
    if title.Failure? {
      return Failure(title.error);
    }
    var ids := OnlyTruthy(advisories);
    var out: seq<Vuln> := [];
    for i := 0 to |ids|
      invariant out == Tuples(name, Get(vuln.members, "severity"), ids, title.value)[..i]
    {
      out := out + [Vuln(Str(name), Get(vuln.members, "severity"), ids[i], Str(title.value))];
    }
    assert out == Tuples(name, Get(vuln.members, "severity"), ids, title.value);
    return Success(out);
  }

  lemma {:induction false} AdvisoriesStayFailed(h: Host, m: seq<(string, Json)>, k: nat)
    requires k <= |m| && FromAdvisories(h, m[..k]).Failure?
    ensures FromAdvisories(h, m) == FromAdvisories(h, m[..k])
    decreases |m| - k
  {
    if k == |m| {
      assert m[..k] == m;
    } else {
      assert m[..k + 1][..k] == m[..k];
      AdvisoriesStayFailed(h, m, k + 1);
    }
  }

  lemma {:induction false} VulnerabilitiesStayFailed(m: seq<(string, Json)>, k: nat)
    requires k <= |m| && FromVulnerabilities(m[..k]).Failure?
    ensures FromVulnerabilities(m) == FromVulnerabilities(m[..k])
    decreases |m| - k
  {
    if k == |m| {
      assert m[..k] == m;
    } else {
      assert m[..k + 1][..k] == m[..k];
      VulnerabilitiesStayFailed(m, k + 1);
    }
  }

  // ----- When the enumeration fails

  predicate AdvisoryFails(entry: Json) {
    || !entry.Obj?
    || var m := entry.members;
       && !Truthy(Get(m, "github_advisory_id")) && !Truthy(Get(m, "url"))
       && Truthy(Get(m, "cves")) && !Get(m, "cves").List? && !Get(m, "cves").Str?
  }

  /** Some title that is present is not text. */
  predicate EntryFails(entry: Json) {
    !entry.Obj? || HasTruthyNonText(Titles(Items(Via(entry.members))))
  }

  ghost predicate AnyFails(m: seq<(string, Json)>, fails: Json -> bool) {
    exists i | 0 <= i < |m| :: fails(m[i].1)
  }

  lemma {:induction false} AnyFailsStep(m: seq<(string, Json)>, fails: Json -> bool)
    requires m != []
    ensures AnyFails(m, fails) <==> AnyFails(m[..|m| - 1], fails) || fails(m[|m| - 1].1)
  {
    var front := m[..|m| - 1];
    assert forall i | 0 <= i < |front| :: front[i] == m[i];
    if AnyFails(front, fails) {
      var i :| 0 <= i < |front| && fails(front[i].1);
      assert fails(m[i].1);
    }
  }

  lemma {:induction false} AdvisoriesFailExactly(h: Host, m: seq<(string, Json)>)
    ensures FromAdvisories(h, m).Failure? <==> AnyFails(m, AdvisoryFails)
  {
    if m != [] {
      AdvisoriesFailExactly(h, m[..|m| - 1]);
      AnyFailsStep(m, AdvisoryFails);
      if m[|m| - 1].1.Obj? {
        AdvisoryIdentifier(h, m[|m| - 1].1.members);
      }
    }
  }

  lemma {:induction false} EntryFailsExactly(name: string, entry: Json)
    ensures FromVulnerability(name, entry).Failure? <==> EntryFails(entry)
  {
    if entry.Obj? {
      TitleCrashesExactly(name, entry);
    }
  }

  lemma {:induction false} VulnerabilitiesFailExactly(m: seq<(string, Json)>)
    ensures FromVulnerabilities(m).Failure? <==> AnyFails(m, EntryFails)
  {
    if m != [] {
      VulnerabilitiesFailExactly(m[..|m| - 1]);
      AnyFailsStep(m, EntryFails);
      EntryFailsExactly(m[|m| - 1].0, m[|m| - 1].1);
    }
  }

  /** The enumeration fails exactly on a report that is no object, an advisory that is no object or cannot be
      identified, or a vulnerability that is no object or has a title that is not text. */
  lemma {:induction false} EnumerationFailsExactly(h: Host, data: Json)
    ensures Enumerated(h, data).Failure? <==>
      || !data.Obj?
      || AnyFails(MembersOf(Get(data.members, "advisories")), AdvisoryFails)
      || AnyFails(MembersOf(Get(data.members, "vulnerabilities")), EntryFails)
  {
    if data.Obj? {
      var am, vm := MembersOf(Get(data.members, "advisories")), MembersOf(Get(data.members, "vulnerabilities"));
      AdvisoriesFailExactly(h, am);
      VulnerabilitiesFailExactly(vm);
    }
  }

  // ----- What a tuple says of its entry

  /** The value under a key is that of the first member with this key, or null without one. */
  lemma {:induction false} GetFinds(m: seq<(string, Json)>, key: string)
    ensures (forall i | 0 <= i < |m| :: m[i].0 != key) ==> Get(m, key) == Null
    ensures forall i | 0 <= i < |m| && m[i].0 == key && (forall j | 0 <= j < i :: m[j].0 != key) :: Get(m, key) == m[i].1
  {
    if m != [] {
      GetFinds(m[1..], key);
      forall i | 0 <= i < |m| && m[i].0 == key && (forall j | 0 <= j < i :: m[j].0 != key) ensures Get(m, key) == m[i].1 {
        if i > 0 {
          assert m[1..][i - 1] == m[i];
          assert forall j | 0 <= j < i - 1 :: m[1..][j] == m[j + 1];
        }
      }
      assert (forall i | 0 <= i < |m| :: m[i].0 != key) ==> forall i | 0 <= i < |m| - 1 :: m[1..][i].0 != key;
    }
  }

  /** The first truthy of some values in order of preference, or the last of them when none is. */
  ghost predicate Preferred(values: seq<Json>, v: Json) {
    exists i | 0 <= i < |values| :: PreferredAt(values, i, v)
  }

  ghost predicate PreferredAt(values: seq<Json>, i: nat, v: Json)
    requires i < |values|
  {
    && v == values[i] && (forall j | 0 <= j < i :: !Truthy(values[j]))
    && (Truthy(v) || i == |values| - 1)
  }

  /** A choice between the first value and one preferred among the rest is one among all. */
  lemma {:induction false} PreferFirst(first: Json, rest: seq<Json>, v: Json)
    requires Preferred(rest, v)
    ensures Preferred([first] + rest, Or(first, v))
  {
    var all := [first] + rest;
    if Truthy(first) {
      assert PreferredAt(all, 0, first);
    } else {
      var i :| 0 <= i < |rest| && PreferredAt(rest, i, v);
      assert forall j | 0 < j < i + 1 :: all[j] == rest[j - 1];
      assert PreferredAt(all, i + 1, v);
    }
  }

  lemma {:induction false} PreferOnly(v: Json)
    ensures Preferred([v], v)
  {
    assert PreferredAt([v], 0, v);
  }

  /** The first of an advisory's CVEs, or nothing. */
  function FirstCve(cves: Json): Json {
    if cves.List? && cves.items != [] then cves.items[0]
    else if cves.Str? && cves.s != "" then Str([cves.s[0]])
    else Null
  }

  function IdText(h: Host, id: Json): Json {
    if id.Null? then Null else if id.Str? then id else Str(h.text(id))
  }

  /** What identifies an advisory, in order of preference. */
  function AdvisoryPreferences(h: Host, m: seq<(string, Json)>): seq<Json> {
    [Get(m, "github_advisory_id")] + ([Get(m, "url")] + ([FirstCve(Get(m, "cves"))] + ([IdText(h, Get(m, "id"))] +
      ([Get(m, "title")] + ([Get(m, "advisory")] + [Get(m, "overview")])))))
  }

  lemma {:induction false} CveIsFirst(cves: Json)
    ensures FirstOf(cves).Failure? <==> Truthy(cves) && !cves.List? && !cves.Str?
    ensures FirstOf(cves).Success? ==> FirstOf(cves).value == FirstCve(cves)
  {
    if cves.Str? && cves.s != "" {
      assert cves.s[..1] == [cves.s[0]];
    }
  }

  /** A GitHub advisory identifier is the identifier whatever else the entry holds, only without it a URL, and only
      without both one of the others; and only then can CVEs that are neither a list nor text be the end of the run. */
  lemma {:induction false} AdvisoryIdentifier(h: Host, m: seq<(string, Json)>)
    ensures Truthy(Get(m, "github_advisory_id")) ==> PickAdvisoryId(h, m) == Success(Get(m, "github_advisory_id"))
    ensures !Truthy(Get(m, "github_advisory_id")) && Truthy(Get(m, "url")) ==> PickAdvisoryId(h, m) == Success(Get(m, "url"))
    ensures PickAdvisoryId(h, m).Failure? <==>
      && !Truthy(Get(m, "github_advisory_id")) && !Truthy(Get(m, "url"))
      && Truthy(Get(m, "cves")) && !Get(m, "cves").List? && !Get(m, "cves").Str?
    ensures PickAdvisoryId(h, m).Success? ==> Preferred(AdvisoryPreferences(h, m), PickAdvisoryId(h, m).value)
  {
    CveIsFirst(Get(m, "cves"));
    if PickAdvisoryId(h, m).Success? {
      PreferSeven(Get(m, "github_advisory_id"), Get(m, "url"), FirstCve(Get(m, "cves")), IdText(h, Get(m, "id")),
        Get(m, "title"), Get(m, "advisory"), Get(m, "overview"));
    }
  }

  lemma {:induction false} PreferSeven(a: Json, b: Json, c: Json, d: Json, e: Json, f: Json, g: Json)
    ensures Preferred([a] + ([b] + ([c] + ([d] + ([e] + ([f] + [g]))))), Or(a, Or(b, Or(c, Or(d, Or(e, Or(f, g)))))))
  {
    PreferOnly(g);
    PreferFirst(f, [g], g);
    PreferFirst(e, [f] + [g], Or(f, g));
    PreferFirst(d, [e] + ([f] + [g]), Or(e, Or(f, g)));
    PreferFirst(c, [d] + ([e] + ([f] + [g])), Or(d, Or(e, Or(f, g))));
    PreferFirst(b, [c] + ([d] + ([e] + ([f] + [g]))), Or(c, Or(d, Or(e, Or(f, g)))));
    PreferFirst(a, [b] + ([c] + ([d] + ([e] + ([f] + [g])))), Or(b, Or(c, Or(d, Or(e, Or(f, g))))));
  }

  /** What a tuple of an `advisories` entry says: a name and a title by preference, the severity, the identifier. */
  ghost predicate Describes(h: Host, entry: Json, v: Vuln) {
    && entry.Obj?
    && var m := entry.members;
       && Preferred([Get(m, "module_name")] + [Get(m, "name")], v.name)
       && v.severity == Get(m, "severity")
       && Preferred(AdvisoryPreferences(h, m), v.advisory)
       && Preferred([Get(m, "title")] + ([Get(m, "advisory")] + ([Get(m, "overview")] + [Get(m, "url")])), v.title)
  }

  lemma {:induction false} AdvisoryDescribes(h: Host, entry: Json)
    requires FromAdvisory(h, entry).Success?
    ensures Describes(h, entry, FromAdvisory(h, entry).value)
  {
    var m := entry.members;
    AdvisoryIdentifier(h, m);
    PreferOnly(Get(m, "name"));
    PreferFirst(Get(m, "module_name"), [Get(m, "name")], Get(m, "name"));
    PreferOnly(Get(m, "url"));
    PreferFirst(Get(m, "overview"), [Get(m, "url")], Get(m, "url"));
    PreferFirst(Get(m, "advisory"), [Get(m, "overview")] + [Get(m, "url")], Or(Get(m, "overview"), Get(m, "url")));
    PreferFirst(Get(m, "title"), [Get(m, "advisory")] + ([Get(m, "overview")] + [Get(m, "url")]),
      Or(Get(m, "advisory"), Or(Get(m, "overview"), Get(m, "url"))));
  }

  /** What identifies an item of `via`: text itself, an object by preference. */
  ghost predicate Identifies(item: Json, id: Json) {
    if item.Obj? then
      var m := item.members;
      Preferred([Get(m, "github_advisory_id")] + ([Get(m, "url")] + ([Get(m, "source")] + ([Get(m, "title")] + [Get(m, "name")]))), id)
    else item.Str? && id == item
  }

  lemma {:induction false} ItemIdentified(item: Json)
    requires item.Obj? || item.Str?
    ensures Identifies(item, ItemAdvisory(item))
  {
    if item.Obj? {
      var m := item.members;
      PreferOnly(Get(m, "name"));
      PreferFirst(Get(m, "title"), [Get(m, "name")], Get(m, "name"));
      PreferFirst(Get(m, "source"), [Get(m, "title")] + [Get(m, "name")], Or(Get(m, "title"), Get(m, "name")));
      PreferFirst(Get(m, "url"), [Get(m, "source")] + ([Get(m, "title")] + [Get(m, "name")]), Or(Get(m, "source"), Or(Get(m, "title"), Get(m, "name"))));
      PreferFirst(Get(m, "github_advisory_id"), [Get(m, "url")] + ([Get(m, "source")] + ([Get(m, "title")] + [Get(m, "name")])),
        Or(Get(m, "url"), Or(Get(m, "source"), Or(Get(m, "title"), Get(m, "name")))));
    }
  }

  /** What an item of `via` adds to the title: text itself, an object by preference. */
  ghost predicate Titled(item: Json, title: Json) {
    if item.Obj? then
      var m := item.members;
      Preferred([Get(m, "title")] + ([Get(m, "url")] + ([Get(m, "advisory")] + [Get(m, "source")])), title)
    else item.Str? && title == item
  }

  lemma {:induction false} ItemTitled(item: Json)
    requires item.Obj? || item.Str?
    ensures Titled(item, ItemTitle(item))
  {
    if item.Obj? {
      var m := item.members;
      PreferOnly(Get(m, "source"));
      PreferFirst(Get(m, "advisory"), [Get(m, "source")], Get(m, "source"));
      PreferFirst(Get(m, "url"), [Get(m, "advisory")] + [Get(m, "source")], Or(Get(m, "advisory"), Get(m, "source")));
      PreferFirst(Get(m, "title"), [Get(m, "url")] + ([Get(m, "advisory")] + [Get(m, "source")]),
        Or(Get(m, "url"), Or(Get(m, "advisory"), Get(m, "source"))));
    }
  }

  /** The items of `via`: its entries if it is a list, itself if it is text, and nothing else. */
  function Looked(via: Json): seq<Json> {
    if via.List? then via.items else if via.Str? then [via] else []
  }

  /** Text or an object: nothing else in `via` is looked at. */
  predicate Speaks(item: Json) {
    item.Obj? || item.Str?
  }

  /** The identifiers of an entry are those of its items at some ascending positions, which are all of those that
      speak and whose identifier is truthy. */
  ghost predicate FoundAt(items: seq<Json>, ids: seq<Json>, places: seq<nat>) {
    && |places| == |ids|
    && (forall i, j | 0 <= i < j < |places| :: places[i] < places[j])
    && (forall i | 0 <= i < |places| :: places[i] < |items| && Speaks(items[places[i]]) && ids[i] == ItemAdvisory(items[places[i]]))
    && (forall k: nat | k < |items| :: k in places <==> Speaks(items[k]) && Truthy(ItemAdvisory(items[k])))
  }

  function Identifiers(items: seq<Json>): seq<Json> {
    OnlyTruthy(Advisories(Usable(items)))
  }

  lemma {:induction false} IdentifiersStep(items: seq<Json>)
    requires items != []
    ensures var front, last := items[..|items| - 1], items[|items| - 1];
      Identifiers(items) == Identifiers(front) + (if Speaks(last) && Truthy(ItemAdvisory(last)) then [ItemAdvisory(last)] else [])
  {
    var front, last := items[..|items| - 1], items[|items| - 1];
    if Speaks(last) {
      var more := Advisories(Usable(items));
      assert more[..|more| - 1] == Advisories(Usable(front)) && more[|more| - 1] == ItemAdvisory(last);
    } else {
      assert Usable(items) == Usable(front);
    }
  }

  lemma {:induction false} IdentifiersInOrder(items: seq<Json>) returns (places: seq<nat>)
    ensures FoundAt(items, Identifiers(items), places)
  {
    if items == [] {
      places := [];
    } else {
      var front, last := items[..|items| - 1], items[|items| - 1];
      var before := IdentifiersInOrder(front);
      IdentifiersStep(items);
      assert items == front + [last];
      if Speaks(last) && Truthy(ItemAdvisory(last)) {
        places := before + [|front|];
        OneMore(front, last, Identifiers(front), before);
      } else {
        places := before;
        NoMore(front, last, Identifiers(front), before);
      }
    }
  }

  lemma {:induction false} OneMore(front: seq<Json>, last: Json, ids: seq<Json>, places: seq<nat>)
    requires FoundAt(front, ids, places) && Speaks(last) && Truthy(ItemAdvisory(last))
    ensures FoundAt(front + [last], ids + [ItemAdvisory(last)], places + [|front|])
  {
    var items, all := front + [last], places + [|front|];
    forall k: nat | k < |items| ensures k in all <==> Speaks(items[k]) && Truthy(ItemAdvisory(items[k])) {
      assert k < |front| ==> items[k] == front[k];
      assert all[|places|] == |front|;
    }
  }

  lemma {:induction false} NoMore(front: seq<Json>, last: Json, ids: seq<Json>, places: seq<nat>)
    requires FoundAt(front, ids, places) && !(Speaks(last) && Truthy(ItemAdvisory(last)))
    ensures FoundAt(front + [last], ids, places)
  {
    var items := front + [last];
    forall k: nat | k < |items| ensures k in places <==> Speaks(items[k]) && Truthy(ItemAdvisory(items[k])) {
      assert k < |front| ==> items[k] == front[k];
    }
  }

  // ----- What is enumerated

  /** How many tuples an entry of `vulnerabilities` stands for: its truthy identifiers. */
  function Count(entry: (string, Json)): nat {
    if entry.1.Obj? then |OnlyTruthy(Advisories(Items(Via(entry.1.members))))| else 0
  }

  function Offset(m: seq<(string, Json)>): nat {
    if m == [] then 0 else Offset(m[..|m| - 1]) + Count(m[|m| - 1])
  }

  /** Entry `k` produced the tuples at its place in `out`: one per truthy identifier, in order. */
  ghost predicate EntryAt(m: seq<(string, Json)>, k: nat, out: seq<Vuln>)
    requires k < |m|
  {
    && m[k].1.Obj? && Offset(m[..k]) + Count(m[k]) <= |out|
    && var ids := OnlyTruthy(Advisories(Items(Via(m[k].1.members))));
       forall i | 0 <= i < |ids| :: ProducedBy(m[k], ids[i], out[Offset(m[..k]) + i])
  }

  ghost predicate ProducedBy(entry: (string, Json), id: Json, v: Vuln) {
    && entry.1.Obj? && v.name == Str(entry.0) && v.severity == Get(entry.1.members, "severity") && v.advisory == id
    && Join(OnlyTruthy(Titles(Items(Via(entry.1.members))))) == Success(if v.title.Str? then v.title.s else "") && v.title.Str?
  }

  /** Complete and exact: the first tuples are one per `advisories` entry, in order; the rest are, for
      each `vulnerabilities` entry in order, one per truthy identifier of its `via`, in order. */
  lemma {:induction false} EnumerationIsExact(h: Host, data: Json)
    requires Enumerated(h, data).Success?
    ensures var am, vm := MembersOf(Get(data.members, "advisories")), MembersOf(Get(data.members, "vulnerabilities"));
      var out := Enumerated(h, data).value;
      && |out| == |am| + Offset(vm)
      && (forall i | 0 <= i < |am| :: Describes(h, am[i].1, out[i]))
      && (forall k | 0 <= k < |vm| :: EntryAt(vm, k, out[|am|..]) && EntryFound(vm, k))
  {
    var am, vm := MembersOf(Get(data.members, "advisories")), MembersOf(Get(data.members, "vulnerabilities"));
    AdvisoriesExact(h, am);
    VulnerabilitiesExact(vm);
    assert Enumerated(h, data).value[|am|..] == FromVulnerabilities(vm).value;
    forall i | 0 <= i < |am| ensures Describes(h, am[i].1, Enumerated(h, data).value[i]) {
      AdvisoryDescribes(h, am[i].1);
    }
    forall k | 0 <= k < |vm| ensures EntryFound(vm, k) {
      EntryIsFound(vm, k, FromVulnerabilities(vm).value);
    }
  }

  /** The identifiers that entry `k` produces tuples for are those of its `via`, in order: text as it is, and of an
      object the preferred one. */
  ghost predicate EntryFound(m: seq<(string, Json)>, k: nat)
    requires k < |m|
  {
    && m[k].1.Obj?
    && var items := Looked(Get(m[k].1.members, "via"));
       && (exists places :: FoundAt(items, OnlyTruthy(Advisories(Items(Via(m[k].1.members)))), places))
       && (forall item | item in items && Speaks(item) :: Identifies(item, ItemAdvisory(item)) && Titled(item, ItemTitle(item)))
  }

  lemma {:induction false} EntryIsFound(m: seq<(string, Json)>, k: nat, out: seq<Vuln>)
    requires k < |m| && EntryAt(m, k, out)
    ensures EntryFound(m, k)
  {
    var via, items := Via(m[k].1.members), Looked(Get(m[k].1.members, "via"));
    LookedUnderVia(m[k].1.members);
    var places := IdentifiersInOrder(items);
    LookedAreItems(via);
    assert FoundAt(items, OnlyTruthy(Advisories(Items(via))), places);
    forall item | item in items && Speaks(item) ensures Identifies(item, ItemAdvisory(item)) && Titled(item, ItemTitle(item)) {
      ItemIdentified(item);
      ItemTitled(item);
    }
  }

  lemma {:induction false} LookedUnderVia(m: seq<(string, Json)>)
    ensures Looked(Via(m)) == Looked(Get(m, "via"))
  {
    GetFinds(m, "via");
  }

  lemma {:induction false} LookedAreItems(via: Json)
    ensures Items(via) == Usable(Looked(via))
  {
    if via.Str? {
      assert [via][..0] == [];
    }
  }

  lemma {:induction false} AdvisoriesExact(h: Host, m: seq<(string, Json)>)
    requires FromAdvisories(h, m).Success?
    ensures |FromAdvisories(h, m).value| == |m|
    ensures forall i | 0 <= i < |m| :: FromAdvisory(h, m[i].1) == Success(FromAdvisories(h, m).value[i])
  {
    if m != [] {
      AdvisoriesExact(h, m[..|m| - 1]);
    }
  }

  lemma {:induction false} EntryStays(m: seq<(string, Json)>, front: seq<(string, Json)>, k: nat, out: seq<Vuln>, more: seq<Vuln>)
    requires k < |front| < |m| && front == m[..|front|] && EntryAt(front, k, out)
    ensures EntryAt(m, k, out + more)
  {
    assert front[..k] == m[..k] && front[k] == m[k];
    var ids := OnlyTruthy(Advisories(Items(Via(m[k].1.members))));
    forall i | 0 <= i < |ids| ensures ProducedBy(m[k], ids[i], (out + more)[Offset(m[..k]) + i]) {
      assert ProducedBy(front[k], ids[i], out[Offset(front[..k]) + i]);
    }
  }

  lemma {:induction false} VulnerabilitiesExact(m: seq<(string, Json)>)
    requires FromVulnerabilities(m).Success?
    ensures |FromVulnerabilities(m).value| == Offset(m)
    ensures forall k | 0 <= k < |m| :: EntryAt(m, k, FromVulnerabilities(m).value)
  {
    if m != [] {
      var n := |m| - 1;
      VulnerabilitiesStep(m);
      VulnerabilitiesExact(m[..n]);
      LastCount(m[n]);
      var before, last := FromVulnerabilities(m[..n]).value, FromVulnerability(m[n].0, m[n].1).value;
      AllEntries(m, m[..n], before, last);
    }
  }

  lemma {:induction false} VulnerabilitiesStep(m: seq<(string, Json)>)
    requires m != [] && FromVulnerabilities(m).Success?
    ensures var n := |m| - 1;
      && FromVulnerabilities(m[..n]).Success? && FromVulnerability(m[n].0, m[n].1).Success?
      && FromVulnerabilities(m).value == FromVulnerabilities(m[..n]).value + FromVulnerability(m[n].0, m[n].1).value
  {
  }

  lemma {:induction false} AllEntries(m: seq<(string, Json)>, front: seq<(string, Json)>, before: seq<Vuln>, last: seq<Vuln>)
    requires m != [] && front == m[..|m| - 1] && |before| == Offset(front)
    requires FromVulnerability(m[|m| - 1].0, m[|m| - 1].1) == Success(last)
    requires forall k | 0 <= k < |front| :: EntryAt(front, k, before)
    ensures forall k | 0 <= k < |m| :: EntryAt(m, k, before + last)
  {
    forall k | 0 <= k < |m| ensures EntryAt(m, k, before + last) {
      if k < |front| {
        assert EntryAt(front, k, before);
        EntryStays(m, front, k, before, last);
      } else {
        LastEntry(m, front, k, before, last);
      }
    }
  }

  lemma {:induction false} LastCount(entry: (string, Json))
    requires FromVulnerability(entry.0, entry.1).Success?
    ensures |FromVulnerability(entry.0, entry.1).value| == Count(entry)
  {
  }

  lemma {:induction false} LastEntry(m: seq<(string, Json)>, front: seq<(string, Json)>, k: nat, before: seq<Vuln>, last: seq<Vuln>)
    requires |m| == k + 1 && front == m[..k] && |before| == Offset(front)
    requires FromVulnerability(m[k].0, m[k].1) == Success(last)
    ensures EntryAt(m, k, before + last)
  {
    var ids := OnlyTruthy(Advisories(Items(Via(m[k].1.members))));
    LastCount(m[k]);
    forall i | 0 <= i < |ids| ensures ProducedBy(m[k], ids[i], (before + last)[Offset(m[..k]) + i]) {
      assert (before + last)[|before| + i] == last[i];
    }
  }

  predicate HasTruthyNonText(s: seq<Json>) {
    exists i | 0 <= i < |s| :: Truthy(s[i]) && !s[i].Str?
  }

  /** Building the title is what can go wrong with a well-formed entry: it crashes exactly when an
      item's title is present and not text. */
  lemma {:induction false} TitleCrashesExactly(name: string, vuln: Json)
    requires vuln.Obj?
    ensures FromVulnerability(name, vuln).Failure? <==> HasTruthyNonText(Titles(Items(Via(vuln.members))))
  {
    TruthyNonText(Titles(Items(Via(vuln.members))));
  }

  lemma {:induction false} TruthyNonText(s: seq<Json>)
    ensures HasNonText(OnlyTruthy(s)) <==> HasTruthyNonText(s)
  {
    if s != [] {
      var front, last := s[..|s| - 1], s[|s| - 1];
      TruthyNonText(front);
      assert s == front + [last];
      var kept := OnlyTruthy(front);
      NonTextSnoc(kept, last);
      assert OnlyTruthy(s) == if Truthy(last) then kept + [last] else kept;
      assert HasTruthyNonText(s) <==> HasTruthyNonText(front) || (Truthy(last) && !last.Str?) by {
        assert s[|front|] == last;
        assert forall i | 0 <= i < |front| :: s[i] == front[i];
      }
    }
  }

  lemma {:induction false} NonTextSnoc(parts: seq<Json>, last: Json)
    ensures HasNonText(parts + [last]) <==> HasNonText(parts) || !last.Str?
  {
    assert (parts + [last])[|parts|] == last;
    assert forall i | 0 <= i < |parts| :: (parts + [last])[i] == parts[i];
  }

  /** A numeric `source` is accepted as an identifier, but an item with nothing else to use as a title
      ends the whole run. */
  lemma {:induction false} NumericSourceCrashes(name: string, n: real)
    requires n != 0.0
    ensures FromVulnerability(name, Obj([("via", List([Obj([("source", Num(n))])]))])).Failure?
  {
    var item := Obj([("source", Num(n))]);
    var vuln := Obj([("via", List([item]))]);
    assert vuln.members[0].0 == "via";
    assert Via(vuln.members) == List([item]);
    assert [item][..0] == [];
    assert Usable([item]) == [item];
    var m := item.members;
    assert m[1..] == [] && Get(m[1..], "title") == Null && Get(m[1..], "url") == Null && Get(m[1..], "advisory") == Null;
    assert "source"[0] == 's' && "title"[0] == 't' && "url"[0] == 'u' && "advisory"[0] == 'a';
    assert ItemTitle(item) == Num(n);
    assert Titles(Items(Via(vuln.members)))[0] == Num(n);
    TitleCrashesExactly(name, vuln);
  }
}
