/** Creating an account: defaults, checks, and the insert specification with the node it returns. */
module Create {
  import opened Wrappers
  import opened Columns
  import opened Seqs

  /** What has been set on a new account. */
  datatype Mutation = Mutation(fields: map<Column, Val>, groups: seq<int>, proxy: Option<int>, usageLogs: seq<int>)

  /** The schema's defaults and validators. A lazy default may not have been installed. */
  datatype Schema = Schema(constants: Column -> Val, installed: map<Column, Val>, valid: (Column, Val) -> bool)

  function DefaultOf(schema: Schema, c: Column): Option<Val> {
    if !Lazy(c) then Some(schema.constants(c))
    else if c in schema.installed then Some(schema.installed[c])
    else None
  }

  // ----- Defaults

  /** The defaults of `cols` applied in order; stops at the first one that is not installed. */
  function Defaulted(schema: Schema, m: Mutation, cols: seq<Column>): (Mutation, bool)
    decreases |cols|, m
  {
    if cols == [] then (m, true)
    else
      var c := cols[0];
      if c in m.fields then Defaulted(schema, m, cols[1..])
      else match DefaultOf(schema, c)
        case None => (m, false)
        case Some(v) => Defaulted(schema, m.(fields := m.fields[c := v]), cols[1..])
  }

  method Defaults(schema: Schema, m: Mutation) returns (r: Mutation, ok: bool)
    ensures (r, ok) == Defaulted(schema, m, DEFAULTED)
  {
    r, ok := m, true;
    for k := 0 to |DEFAULTED|
      invariant Defaulted(schema, r, DEFAULTED[k..]) == Defaulted(schema, m, DEFAULTED) && ok
    {
      var c := DEFAULTED[k];
      if c !in r.fields {
        var default := DefaultOf(schema, c);
        if default == None {
          return r, false;
        }
        r := r.(fields := r.fields[c := default.value]);
      }
    }
  }

  /** What `r` may hold after defaults were applied to `m`: every value that was set, and defaults. */
  ghost predicate FilledFrom(schema: Schema, r: Mutation, m: Mutation, cols: seq<Column>) {
    && r == m.(fields := r.fields)
    && (forall c | c in m.fields :: c in r.fields && r.fields[c] == m.fields[c])
    && (forall c | c in r.fields && c !in m.fields :: c in cols && DefaultOf(schema, c) == Some(r.fields[c]))
  }

  /** Defaults never replace a value and add nothing but defaults; they fail exactly when a default is
      needed that is not installed, and that field is then unset; when they succeed every field is set. */
  lemma {:induction false} DefaultsFill(schema: Schema, m: Mutation, cols: seq<Column>)
    ensures FilledFrom(schema, Defaulted(schema, m, cols).0, m, cols)
    ensures Defaulted(schema, m, cols).1 ==> forall c | c in cols :: c in Defaulted(schema, m, cols).0.fields
    ensures !Defaulted(schema, m, cols).1 <==> exists c :: c in cols && c !in m.fields && DefaultOf(schema, c) == None
    ensures forall c | DefaultOf(schema, c) == None && c !in m.fields :: c !in Defaulted(schema, m, cols).0.fields
    decreases |cols|
  {
    if cols != [] {
      assert cols == [cols[0]] + cols[1..];
      if cols[0] in m.fields {
        DefaultsFill(schema, m, cols[1..]);
      } else if DefaultOf(schema, cols[0]).Some? {
        DefaultsFill(schema, m.(fields := m.fields[cols[0] := DefaultOf(schema, cols[0]).value]), cols[1..]);
      }
    }
  }

  lemma {:induction false} DefaultsStopIn(schema: Schema, m: Mutation, cols: seq<Column>) returns (c: Column)
    requires InOrder(cols) && !Defaulted(schema, m, cols).1
    ensures c in cols && c !in m.fields && DefaultOf(schema, c) == None
    ensures forall x | x in cols && Place(x) < Place(c) :: x in Defaulted(schema, m, cols).0.fields
    ensures forall x | Place(x) >= Place(c) && x !in m.fields :: x !in Defaulted(schema, m, cols).0.fields
    decreases |cols|
  {
    var first, rest := cols[0], cols[1..];
    assert InOrder(rest) && cols == [first] + rest;
    if first in m.fields {
      c := DefaultsStopIn(schema, m, rest);
      DefaultsFill(schema, m, rest);
    } else if DefaultOf(schema, first).Some? {
      var filled := m.(fields := m.fields[first := DefaultOf(schema, first).value]);
      c := DefaultsStopIn(schema, filled, rest);
      DefaultsFill(schema, filled, rest);
    } else {
      c := first;
    }
  }

  // ----- Checks

  datatype CheckError = MissingField(c: Column) | InvalidField(c: Column)

  predicate FieldOk(schema: Schema, m: Mutation, c: Column) {
    c in m.fields ==> !Validated(c) || schema.valid(c, m.fields[c])
  }

  /** What the check of one required field reports. */
  function RequiredError(schema: Schema, m: Mutation, c: Column): Option<CheckError> {
    if c !in m.fields then Some(MissingField(c))
    else if !FieldOk(schema, m, c) then Some(InvalidField(c))
    else None
  }

  /** The first complaint about required fields `cols`, then about the one optional field that is validated. */
  function ComplaintFrom(schema: Schema, m: Mutation, cols: seq<Column>): Option<CheckError> {
    if cols == [] then if FieldOk(schema, m, SessionWindowStatus) then None else Some(InvalidField(SessionWindowStatus))
    else if RequiredError(schema, m, cols[0]).Some? then RequiredError(schema, m, cols[0])
    else ComplaintFrom(schema, m, cols[1..])
  }

  function Complaint(schema: Schema, m: Mutation): Option<CheckError> {
    ComplaintFrom(schema, m, REQUIRED)
  }

  method Check(schema: Schema, m: Mutation) returns (e: Option<CheckError>)
    ensures e == Complaint(schema, m)
  {
    for k := 0 to |REQUIRED|
      invariant ComplaintFrom(schema, m, REQUIRED[k..]) == Complaint(schema, m)
    {
      e := RequiredError(schema, m, REQUIRED[k]);
      if e.Some? {
        return;
      }
    }
    if FieldOk(schema, m, SessionWindowStatus) {
      e := None;
    } else {
      e := Some(InvalidField(SessionWindowStatus));
    }
  }

  /** The required fields of an account, by name. */
  predicate HasRequired(m: Mutation) {
    && CreatedAt in m.fields && UpdatedAt in m.fields && Name in m.fields && Platform in m.fields && Type in m.fields
    && Credentials in m.fields && Extra in m.fields && Concurrency in m.fields && Priority in m.fields && RateMultiplier in m.fields
    && Status in m.fields && AutoPauseOnExpired in m.fields && Schedulable in m.fields
  }

  predicate Accepts(schema: Schema, m: Mutation, c: Column) {
    c in m.fields ==> schema.valid(c, m.fields[c])
  }

  /** A mutation that may be inserted: the required fields are set, and the validators of the name, the platform,
      the type, the status and, if it is set, the session window's status accept them. */
  predicate Insertable(schema: Schema, m: Mutation) {
    && HasRequired(m)
    && Accepts(schema, m, Name) && Accepts(schema, m, Platform) && Accepts(schema, m, Type) && Accepts(schema, m, Status)
    && Accepts(schema, m, SessionWindowStatus)
  }

  lemma {:induction false} ComplaintFromFinds(schema: Schema, m: Mutation, cols: seq<Column>)
    ensures ComplaintFrom(schema, m, cols).None? <==>
      (forall c | c in cols :: c in m.fields && FieldOk(schema, m, c)) && FieldOk(schema, m, SessionWindowStatus)
  {
    if cols != [] {
      ComplaintFromFinds(schema, m, cols[1..]);
      assert cols == [cols[0]] + cols[1..];
    }
  }

  /** The check passes exactly on insertable mutations. */
  lemma {:induction false} CheckDecidesInsertable(schema: Schema, m: Mutation)
    ensures Complaint(schema, m).None? <==> Insertable(schema, m)
  {
    ComplaintFromFinds(schema, m, REQUIRED);
    forall c ensures c in REQUIRED <==> ByFunction(c) || ByConstant(c) || c == Name || c == Platform || c == Type {
      RequiredColumns(c);
    }
    RequiredIsInsertable(schema, m, REQUIRED);
  }

  lemma {:induction false} RequiredIsInsertable(schema: Schema, m: Mutation, cols: seq<Column>)
    requires forall c :: c in cols <==> ByFunction(c) || ByConstant(c) || c == Name || c == Platform || c == Type
    ensures (forall c | c in cols :: c in m.fields && FieldOk(schema, m, c)) && FieldOk(schema, m, SessionWindowStatus) <==> Insertable(schema, m)
  {
    RequiredByName(m, cols);
    ValidatedByName(schema, m, cols);
  }

  lemma {:induction false} RequiredByName(m: Mutation, cols: seq<Column>)
    requires forall c :: c in cols <==> ByFunction(c) || ByConstant(c) || c == Name || c == Platform || c == Type
    ensures (forall c | c in cols :: c in m.fields) <==> HasRequired(m)
  {
  }

  lemma {:induction false} ValidatedByName(schema: Schema, m: Mutation, cols: seq<Column>)
    requires forall c :: c in cols <==> ByFunction(c) || ByConstant(c) || c == Name || c == Platform || c == Type
    ensures (forall c | c in cols :: FieldOk(schema, m, c)) && FieldOk(schema, m, SessionWindowStatus) <==>
      (Accepts(schema, m, Name) && Accepts(schema, m, Platform) && Accepts(schema, m, Type) && Accepts(schema, m, Status)
       && Accepts(schema, m, SessionWindowStatus))
  {
    assert Name in cols && Platform in cols && Type in cols && Status in cols;
    if Accepts(schema, m, Name) && Accepts(schema, m, Platform) && Accepts(schema, m, Type) && Accepts(schema, m, Status) {
      forall c | c in cols ensures FieldOk(schema, m, c) {
        assert Validated(c) ==> c == Name || c == Platform || c == Type || c == Status || c == SessionWindowStatus;
      }
    }
  }

  /** What a complaint says is true of the mutation: the field is missing, or its validator rejects it. */
  lemma {:induction false} ComplaintIsTrue(schema: Schema, m: Mutation, cols: seq<Column>)
    ensures match ComplaintFrom(schema, m, cols)
      case None => true
      case Some(MissingField(c)) => c in cols && c !in m.fields
      case Some(InvalidField(c)) => c in m.fields && Validated(c) && !schema.valid(c, m.fields[c])
  {
    if cols != [] {
      ComplaintIsTrue(schema, m, cols[1..]);
    }
  }

  /** The check finds a fault with a field: it is required and not set, or its validator rejects it. */
  predicate Faulty(schema: Schema, m: Mutation, c: Column) {
    || (c !in m.fields && (ByFunction(c) || ByConstant(c) || c == Name || c == Platform || c == Type))
    || (!Accepts(schema, m, c) && (c == Name || c == Platform || c == Type || c == Status || c == SessionWindowStatus))
  }

  lemma {:induction false} ComplaintFromIsFirst(schema: Schema, m: Mutation, cols: seq<Column>)
    requires InOrder(cols) && ComplaintFrom(schema, m, cols).Some?
    ensures forall c | c in cols && Place(c) < Place(ComplaintFrom(schema, m, cols).value.c) :: c in m.fields && FieldOk(schema, m, c)
  {
    if cols != [] && RequiredError(schema, m, cols[0]).None? {
      assert InOrder(cols[1..]) && cols == [cols[0]] + cols[1..];
      ComplaintFromIsFirst(schema, m, cols[1..]);
    } else if cols != [] {
      assert forall i | 0 < i < |cols| :: Place(cols[0]) < Place(cols[i]);
    }
  }

  /** The check complains about the first field, in the order of the schema, that is at fault. */
  lemma {:induction false} FirstFaultIsReported(schema: Schema, m: Mutation)
    requires Complaint(schema, m).Some?
    ensures var c := Complaint(schema, m).value.c;
      Faulty(schema, m, c) && forall x | Place(x) < Place(c) :: !Faulty(schema, m, x)
  {
    RequiredInOrder();
    forall c ensures c in REQUIRED <==> ByFunction(c) || ByConstant(c) || c == Name || c == Platform || c == Type {
      RequiredColumns(c);
    }
    FirstFaultAmong(schema, m, REQUIRED);
  }

  lemma {:induction false} FirstFaultAmong(schema: Schema, m: Mutation, cols: seq<Column>)
    requires forall c :: c in cols <==> ByFunction(c) || ByConstant(c) || c == Name || c == Platform || c == Type
    requires InOrder(cols) && ComplaintFrom(schema, m, cols).Some?
    ensures var c := ComplaintFrom(schema, m, cols).value.c;
      Faulty(schema, m, c) && forall x | Place(x) < Place(c) :: !Faulty(schema, m, x)
  {
    ComplaintIsTrue(schema, m, cols);
    ComplaintFromIsFirst(schema, m, cols);
    var c := ComplaintFrom(schema, m, cols).value.c;
    forall x | Place(x) < Place(c) ensures !Faulty(schema, m, x) {
      if x in cols {
        FaultlessField(schema, m, x);
      }
      BeforeTheLast(x, c);
    }
  }

  lemma {:induction false} BeforeTheLast(x: Column, c: Column)
    requires Place(x) < Place(c)
    requires c == SessionWindowStatus || ByFunction(c) || ByConstant(c) || c == Name || c == Platform || c == Type
    ensures x != SessionWindowStatus
  {
  }

  lemma {:induction false} FaultlessField(schema: Schema, m: Mutation, x: Column)
    requires x in m.fields && FieldOk(schema, m, x)
    ensures !Faulty(schema, m, x)
  {
  }

  /** Ignoring a failed default is harmless: it leaves some field unset, and the check rejects this
      mutation and every other one that lacks that field. */
  lemma {:induction false} FailedDefaultIsRejected(schema: Schema, m: Mutation) returns (c: Column)
    requires !Defaulted(schema, m, DEFAULTED).1
    ensures DefaultOf(schema, c) == None && c !in m.fields && c !in Defaulted(schema, m, DEFAULTED).0.fields
    ensures forall later: Mutation | c !in later.fields :: Complaint(schema, later).Some?
  {
    DefaultsFill(schema, m, DEFAULTED);
    c :| c in DEFAULTED && c !in m.fields && DefaultOf(schema, c) == None;
    IsDefaulted(c);
    forall later: Mutation | c !in later.fields ensures Complaint(schema, later).Some? {
      CheckDecidesInsertable(schema, later);
    }
  }

  /** Which mutations the defaults complete, and with what: creation and update times, credentials and extra from the
      installed functions, and the other six fields from constants. */
  lemma {:induction false} DefaultsMean(schema: Schema, m: Mutation)
    ensures Defaulted(schema, m, DEFAULTED).1 <==> forall c | ByFunction(c) :: c in m.fields || c in schema.installed
    ensures var (r, ok) := Defaulted(schema, m, DEFAULTED);
      ok ==>
        && (forall c | ByFunction(c) :: c in r.fields && r.fields[c] == if c in m.fields then m.fields[c] else schema.installed[c])
        && (forall c | ByConstant(c) :: c in r.fields && r.fields[c] == if c in m.fields then m.fields[c] else schema.constants(c))
  {
    forall c ensures c in DEFAULTED <==> ByFunction(c) || ByConstant(c) {
      DefaultedColumns(c);
    }
    DefaultsOver(schema, m, DEFAULTED);
  }

  /** When defaults fail at a field, those before it in the schema have been applied, and none after it. */
  lemma {:induction false} DefaultsStop(schema: Schema, m: Mutation) returns (c: Column)
    requires !Defaulted(schema, m, DEFAULTED).1
    ensures ByFunction(c) && c !in m.fields && c !in schema.installed
    ensures forall x | (ByFunction(x) || ByConstant(x)) && Place(x) < Place(c) :: x in Defaulted(schema, m, DEFAULTED).0.fields
    ensures forall x | Place(x) >= Place(c) && x !in m.fields :: x !in Defaulted(schema, m, DEFAULTED).0.fields
  {
    DefaultedInOrder();
    forall c ensures c in DEFAULTED <==> ByFunction(c) || ByConstant(c) {
      DefaultedColumns(c);
    }
    c := DefaultsStopIn(schema, m, DEFAULTED);
  }

  lemma {:induction false} DefaultsOver(schema: Schema, m: Mutation, cols: seq<Column>)
    requires forall c :: c in cols <==> ByFunction(c) || ByConstant(c)
    ensures Defaulted(schema, m, cols).1 <==> forall c | ByFunction(c) :: c in m.fields || c in schema.installed
    ensures var (r, ok) := Defaulted(schema, m, cols);
      ok ==>
        && (forall c | ByFunction(c) :: c in r.fields && r.fields[c] == if c in m.fields then m.fields[c] else schema.installed[c])
        && (forall c | ByConstant(c) :: c in r.fields && r.fields[c] == if c in m.fields then m.fields[c] else schema.constants(c))
  {
    DefaultsFill(schema, m, cols);
  }

  /** After successful defaults, only the name, the platform, the type and the validators can be at fault. */
  lemma {:induction false} CheckAfterDefaults(schema: Schema, m: Mutation)
    requires Defaulted(schema, m, DEFAULTED).1
    ensures var r := Defaulted(schema, m, DEFAULTED).0;
      Complaint(schema, r).None? <==>
        && Name in m.fields && Platform in m.fields && Type in m.fields
        && Accepts(schema, r, Name) && Accepts(schema, r, Platform) && Accepts(schema, r, Type) && Accepts(schema, r, Status)
        && Accepts(schema, r, SessionWindowStatus)
  {
    CheckDecidesInsertable(schema, Defaulted(schema, m, DEFAULTED).0);
    DefaultsMean(schema, m);
    forall c ensures c in DEFAULTED <==> ByFunction(c) || ByConstant(c) {
      DefaultedColumns(c);
    }
    DefaultsLeave(schema, m, DEFAULTED);
    FilledHasRequired(Defaulted(schema, m, DEFAULTED).0);
  }

  lemma {:induction false} FilledHasRequired(r: Mutation)
    requires forall c | ByFunction(c) || ByConstant(c) :: c in r.fields
    ensures HasRequired(r) <==> Name in r.fields && Platform in r.fields && Type in r.fields
  {
  }

  lemma {:induction false} DefaultsLeave(schema: Schema, m: Mutation, cols: seq<Column>)
    requires forall c :: c in cols <==> ByFunction(c) || ByConstant(c)
    ensures forall c | c == Name || c == Platform || c == Type :: c in Defaulted(schema, m, cols).0.fields <==> c in m.fields
  {
    DefaultsFill(schema, m, cols);
  }

  // ----- The insert specification

  /** A column of an account node in memory. */
  datatype Cell = Nil | Ptr(v: Val) | Plain(v: Val)

  function ZeroVal(k: Kind): Val {
    match k
    case TimeKind => Time(0)
    case StringKind => Str("")
    case JsonKind => Json(map[])
    case IntKind => Int(0)
    case FloatKind => Float(0.0)
    case BoolKind => Bool(false)
  }

  type Node = map<Column, Cell>

  /** A column that was never assigned holds the zero value of its type, or nil. */
  function CellOf(node: Node, c: Column): Cell
    requires !c.Other?
  {
    if c in node then node[c] else if Nillable(c) then Nil else Plain(ZeroVal(KindOf(c)))
  }

  function CellWith(c: Column, v: Val): Cell {
    if Nillable(c) then Ptr(v) else Plain(v)
  }

  /** The insert: fields in order, and the edges by kind. */
  datatype Spec = Spec(fields: seq<(Column, Val)>, groups: seq<int>, proxy: Option<int>, usageLogs: seq<int>)

  function SpecFields(m: Mutation, cols: seq<Column>): seq<(Column, Val)> {
    if cols == [] then []
    else (if cols[0] in m.fields then [(cols[0], m.fields[cols[0]])] else []) + SpecFields(m, cols[1..])
  }

  function SpecOf(m: Mutation): Spec {
    Spec(SpecFields(m, FIELDS), m.groups, m.proxy, m.usageLogs)
  }

  function NodeFields(m: Mutation, cols: seq<Column>, node: Node): Node {
    if cols == [] then node
    else NodeFields(m, cols[1..], if cols[0] in m.fields then node[cols[0] := CellWith(cols[0], m.fields[cols[0]])] else node)
  }

  function NodeOf(m: Mutation): Node {
    var node := NodeFields(m, FIELDS, map[]);
    if m.proxy.Some? then node[ProxyID := Ptr(Int(m.proxy.value))] else node
  }

  method CreateFields(m: Mutation, cols: seq<Column>) returns (node: Node, fields: seq<(Column, Val)>)
    ensures node == NodeFields(m, cols, map[]) && fields == SpecFields(m, cols)
  {
    node, fields := map[], [];
    for k := 0 to |cols|
      invariant fields + SpecFields(m, cols[k..]) == SpecFields(m, cols)
      invariant NodeFields(m, cols[k..], node) == NodeFields(m, cols, map[])
    {
      var c := cols[k];
      if c in m.fields {
        fields := fields + [(c, m.fields[c])];
        node := node[c := CellWith(c, m.fields[c])];
      }
    }
  }

  /** What an insert lists: every field that is set, once and with its value, and the edges; and what its node holds:
      the same values, behind pointers where the column may be NULL, and the proxy of the edge. */
  ghost predicate Lists(spec: Spec, node: Node, m: Mutation) {
    && (forall c, v :: (c, v) in spec.fields <==> c != ID && c != ProxyID && !c.Other? && c in m.fields && v == m.fields[c])
    && Distinct(spec.fields)
    && spec.groups == m.groups && spec.proxy == m.proxy && spec.usageLogs == m.usageLogs
    && ID !in node && (ProxyID in node <==> m.proxy.Some?) && (m.proxy.Some? ==> node[ProxyID] == Ptr(Int(m.proxy.value)))
    && (forall c: Column | c != ID && c != ProxyID && !c.Other? :: c in node <==> c in m.fields)
    && (forall c: Column | c != ID && c != ProxyID && !c.Other? && c in m.fields ::
          node[c] == if Nillable(c) then Ptr(m.fields[c]) else Plain(m.fields[c]))
  }

  lemma {:induction false} SpecListsFields(m: Mutation)
    ensures Lists(SpecOf(m), NodeOf(m), m)
  {
    forall c ensures c in FIELDS <==> c != ID && c != ProxyID && !c.Other? {
      IsField(c);
    }
    FieldsDistinct();
    ListsFields(m, FIELDS);
  }

  lemma {:induction false} ListsFields(m: Mutation, cols: seq<Column>)
    requires Distinct(cols) && forall c :: c in cols <==> c != ID && c != ProxyID && !c.Other?
    ensures var node := NodeFields(m, cols, map[]);
      Lists(Spec(SpecFields(m, cols), m.groups, m.proxy, m.usageLogs), if m.proxy.Some? then node[ProxyID := Ptr(Int(m.proxy.value))] else node, m)
  {
    SpecFieldsAreTheSetFields(m, cols);
    NodeFieldsHold(m, cols, map[]);
  }

  method CreateSpec(m: Mutation) returns (node: Node, spec: Spec)
    ensures node == NodeOf(m) && spec == SpecOf(m)
  {
    var fields;
    node, fields := CreateFields(m, FIELDS);
    spec := Spec(fields, [], None, []);
    if |m.groups| > 0 {
      spec := spec.(groups := m.groups);
    }
    if m.proxy.Some? {
      node := node[ProxyID := Ptr(Int(m.proxy.value))];
      spec := spec.(proxy := m.proxy);
    }
    if |m.usageLogs| > 0 {
      spec := spec.(usageLogs := m.usageLogs);
    }
  }

  /** The insert lists each field that is set once, with its value, and nothing else. */
  lemma {:induction false} SpecFieldsAreTheSetFields(m: Mutation, cols: seq<Column>)
    requires Distinct(cols)
    ensures forall c, v :: (c, v) in SpecFields(m, cols) <==> c in cols && c in m.fields && v == m.fields[c]
    ensures Distinct(SpecFields(m, cols))
  {
    if cols != [] {
      assert cols == [cols[0]] + cols[1..];
      SpecFieldsAreTheSetFields(m, cols[1..]);
    }
  }

  lemma {:induction false} NodeFieldsHold(m: Mutation, cols: seq<Column>, node: Node)
    ensures forall c :: c in NodeFields(m, cols, node) <==> c in node || (c in cols && c in m.fields)
    ensures forall c | c in NodeFields(m, cols, node) ::
      NodeFields(m, cols, node)[c] == if c in cols && c in m.fields then CellWith(c, m.fields[c]) else node[c]
  {
    if cols != [] {
      assert cols == [cols[0]] + cols[1..];
      NodeFieldsHold(m, cols[1..], if cols[0] in m.fields then node[cols[0] := CellWith(cols[0], m.fields[cols[0]])] else node);
    }
  }
}
