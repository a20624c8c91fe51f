/** The columns of the account table, with the type and nullability each builder assumes of them. */
module Columns {
  import opened Seqs

  datatype Column =
    | ID | CreatedAt | UpdatedAt | DeletedAt | Name | Notes | Platform | Type | Credentials | Extra | ProxyID
    | Concurrency | LoadFactor | Priority | RateMultiplier | Status | ErrorMessage | LastUsedAt | ExpiresAt
    | AutoPauseOnExpired | Schedulable | RateLimitedAt | RateLimitResetAt | OverloadUntil
    | TempUnschedulableUntil | TempUnschedulableReason | SessionWindowStart | SessionWindowEnd | SessionWindowStatus
    | Other(alias: string)  // selected by a modifier, not a column of the table

  datatype Kind = TimeKind | StringKind | JsonKind | IntKind | FloatKind | BoolKind

  type Doc = map<string, string>

  datatype Val = Time(t: int) | Str(s: string) | Json(d: Doc) | Int(i: int) | Float(r: real) | Bool(b: bool)

  function KindOf(c: Column): Kind
    requires !c.Other?
  {
    match c
    case Credentials => JsonKind
    case Extra => JsonKind
    case AutoPauseOnExpired => BoolKind
    case Schedulable => BoolKind
    case RateMultiplier => FloatKind
    case ID => IntKind
    case ProxyID => IntKind
    case Concurrency => IntKind
    case LoadFactor => IntKind
    case Priority => IntKind
    case Name => StringKind
    case Notes => StringKind
    case Platform => StringKind
    case Type => StringKind
    case Status => StringKind
    case ErrorMessage => StringKind
    case TempUnschedulableReason => StringKind
    case SessionWindowStatus => StringKind
    case _ => TimeKind
  }

  function KindOfVal(v: Val): Kind {
    match v
    case Time(_) => TimeKind
    case Str(_) => StringKind
    case Json(_) => JsonKind
    case Int(_) => IntKind
    case Float(_) => FloatKind
    case Bool(_) => BoolKind
  }

  /** Held by a pointer, nil when there is no value. */
  predicate Nillable(c: Column) {
    match c
    case ID => false
    case CreatedAt => false
    case UpdatedAt => false
    case Name => false
    case Platform => false
    case Type => false
    case Credentials => false
    case Extra => false
    case Concurrency => false
    case Priority => false
    case RateMultiplier => false
    case Status => false
    case AutoPauseOnExpired => false
    case Schedulable => false
    case Other(_) => false
    case _ => true
  }

  const BASICS: seq<Column> := [CreatedAt, UpdatedAt, DeletedAt, Name, Notes, Platform, Type, Credentials, Extra]
  const SCHEDULING: seq<Column> :=
    [Concurrency, LoadFactor, Priority, RateMultiplier, Status, ErrorMessage, LastUsedAt, ExpiresAt, AutoPauseOnExpired, Schedulable]
  const LIMITS: seq<Column> :=
    [RateLimitedAt, RateLimitResetAt, OverloadUntil, TempUnschedulableUntil, TempUnschedulableReason, SessionWindowStart,
     SessionWindowEnd, SessionWindowStatus]

  /** The fields of a new account, in the order the insert lists them. */
  const FIELDS: seq<Column> := BASICS + SCHEDULING + LIMITS

  /** The fields with a default, in the order defaults are applied. */
  const DEFAULTED: seq<Column> :=
    [CreatedAt, UpdatedAt, Credentials, Extra, Concurrency, Priority, RateMultiplier, Status, AutoPauseOnExpired, Schedulable]

  /** The fields whose default is a function that the runtime package must have installed. */
  predicate Lazy(c: Column) {
    c == CreatedAt || c == UpdatedAt || c == Credentials || c == Extra
  }

  /** The fields an insert requires, in the order they are checked. */
  const REQUIRED: seq<Column> := REQUIRED_BASICS + REQUIRED_SCHEDULING

  const REQUIRED_BASICS: seq<Column> := [CreatedAt, UpdatedAt, Name, Platform, Type, Credentials, Extra]
  const REQUIRED_SCHEDULING: seq<Column> := [Concurrency, Priority, RateMultiplier, Status, AutoPauseOnExpired, Schedulable]

  /** The fields with a validator. */
  predicate Validated(c: Column) {
    c == Name || c == Platform || c == Type || c == Status || c == SessionWindowStatus
  }

  /** Everything but the key and the proxy is a field. */
  lemma {:induction false} IsField(c: Column)
    ensures c in FIELDS <==> c != ID && c != ProxyID && !c.Other?
  {
  }

  /** The required fields are the non-nillable ones. */
  lemma {:induction false} IsRequired(c: Column)
    ensures c in REQUIRED <==> c != ID && !c.Other? && !Nillable(c)
  {
    RequiredColumns(c);
  }

  /** The defaults fill every required field but name, platform and type. */
  lemma {:induction false} IsDefaulted(c: Column)
    ensures c in DEFAULTED <==> c in REQUIRED && c != Name && c != Platform && c != Type
    ensures Lazy(c) ==> c in DEFAULTED
  {
  }

  /** The fields whose default comes from a function. */
  predicate ByFunction(c: Column) {
    c == CreatedAt || c == UpdatedAt || c == Credentials || c == Extra
  }

  /** The fields whose default is a constant. */
  predicate ByConstant(c: Column) {
    c == Concurrency || c == Priority || c == RateMultiplier || c == Status || c == AutoPauseOnExpired || c == Schedulable
  }

  lemma {:induction false} RequiredColumns(c: Column)
    ensures c in REQUIRED <==> ByFunction(c) || ByConstant(c) || c == Name || c == Platform || c == Type
  {
  }

  lemma {:induction false} DefaultedColumns(c: Column)
    ensures c in DEFAULTED <==> ByFunction(c) || ByConstant(c)
  {
  }

  /** The columns by type, as the table declares them. */
  lemma {:induction false} ColumnKinds(c: Column)
    requires !c.Other?
    ensures KindOf(c) == IntKind <==> (c == ID || c == ProxyID || c == Concurrency || c == LoadFactor || c == Priority)
    ensures KindOf(c) == BoolKind <==> (c == AutoPauseOnExpired || c == Schedulable)
    ensures KindOf(c) == FloatKind <==> c == RateMultiplier
    ensures KindOf(c) == JsonKind <==> (c == Credentials || c == Extra)
    ensures KindOf(c) == StringKind <==>
      (c == Name || c == Notes || c == Platform || c == Type || c == Status || c == ErrorMessage || c == TempUnschedulableReason
       || c == SessionWindowStatus)
  {
  }

  // ----- The order of the fields

  /** The place of a field in the schema. */
  function Place(c: Column): nat {
    match c
    case CreatedAt => 0
    case UpdatedAt => 1
    case DeletedAt => 2
    case Name => 3
    case Notes => 4
    case Platform => 5
    case Type => 6
    case Credentials => 7
    case Extra => 8
    case Concurrency => 9
    case LoadFactor => 10
    case Priority => 11
    case RateMultiplier => 12
    case Status => 13
    case ErrorMessage => 14
    case LastUsedAt => 15
    case ExpiresAt => 16
    case AutoPauseOnExpired => 17
    case Schedulable => 18
    case RateLimitedAt => 19
    case RateLimitResetAt => 20
    case OverloadUntil => 21
    case TempUnschedulableUntil => 22
    case TempUnschedulableReason => 23
    case SessionWindowStart => 24
    case SessionWindowEnd => 25
    case SessionWindowStatus => 26
    case _ => 27
  }

  ghost predicate InOrder(cols: seq<Column>) {
    forall i, j | 0 <= i < j < |cols| :: Place(cols[i]) < Place(cols[j])
  }

  ghost predicate Rises(cols: seq<Column>, i: nat) {
    i + 1 < |cols| ==> Place(cols[i]) < Place(cols[i + 1])
  }

  lemma {:induction false} RisingIsInOrder(cols: seq<Column>)
    requires forall i: nat :: Rises(cols, i)
    ensures InOrder(cols)
  {
    if cols != [] {
      var front := cols[..|cols| - 1];
      forall i: nat ensures Rises(front, i) {
        assert Rises(cols, i);
      }
      RisingIsInOrder(front);
      assert forall i | 0 <= i < |front| :: cols[i] == front[i];
      assert front != [] ==> Rises(cols, |front| - 1);
    }
  }

  lemma {:induction false} BasicsRise(i: nat)
    ensures Rises(BASICS, i)
  {
  }

  lemma {:induction false} SchedulingRises(i: nat)
    ensures Rises(SCHEDULING, i)
  {
  }

  lemma {:induction false} LimitsRise(i: nat)
    ensures Rises(LIMITS, i)
  {
  }

  lemma {:induction false} RequiredBasicsRise(i: nat)
    ensures Rises(REQUIRED_BASICS, i)
  {
  }

  lemma {:induction false} RequiredSchedulingRises(i: nat)
    ensures Rises(REQUIRED_SCHEDULING, i)
  {
  }

  lemma {:induction false} DefaultedRise(i: nat)
    ensures Rises(DEFAULTED, i)
  {
  }

  lemma {:induction false} AppendRises(a: seq<Column>, b: seq<Column>)
    requires (forall i: nat :: Rises(a, i)) && (forall i: nat :: Rises(b, i))
    requires a != [] && b != [] && Place(a[|a| - 1]) < Place(b[0])
    ensures forall i: nat :: Rises(a + b, i)
  {
    forall i: nat ensures Rises(a + b, i) {
      assert Rises(a, i);
      assert i >= |a| ==> Rises(b, i - |a|);
    }
  }

  /** The fields are listed in the order of the schema. */
  lemma {:induction false} FieldsInOrder()
    ensures InOrder(FIELDS)
  {
    forall i: nat ensures Rises(BASICS, i) {
      BasicsRise(i);
    }
    forall i: nat ensures Rises(SCHEDULING, i) {
      SchedulingRises(i);
    }
    forall i: nat ensures Rises(LIMITS, i) {
      LimitsRise(i);
    }
    AppendRises(BASICS, SCHEDULING);
    AppendRises(BASICS + SCHEDULING, LIMITS);
    RisingIsInOrder(FIELDS);
  }

  /** Required fields are checked in the order of the schema. */
  lemma {:induction false} RequiredInOrder()
    ensures InOrder(REQUIRED)
  {
    forall i: nat ensures Rises(REQUIRED_BASICS, i) {
      RequiredBasicsRise(i);
    }
    forall i: nat ensures Rises(REQUIRED_SCHEDULING, i) {
      RequiredSchedulingRises(i);
    }
    AppendRises(REQUIRED_BASICS, REQUIRED_SCHEDULING);
    RisingIsInOrder(REQUIRED);
  }

  /** Defaults are applied in the order of the schema. */
  lemma {:induction false} DefaultedInOrder()
    ensures InOrder(DEFAULTED)
  {
    forall i: nat ensures Rises(DEFAULTED, i) {
      DefaultedRise(i);
    }
    RisingIsInOrder(DEFAULTED);
  }

  /** No field is listed twice. */
  lemma {:induction false} FieldsDistinct()
    ensures Distinct(FIELDS)
  {
    FieldsInOrder();
    OrderedDiffer(FIELDS);
  }

  lemma {:induction false} OrderedDiffer(cols: seq<Column>)
    requires InOrder(cols)
    ensures Distinct(cols)
  {
    forall i, j | 0 <= i < j < |cols| ensures cols[i] != cols[j] {
      assert Place(cols[i]) < Place(cols[j]);
    }
  }
}
