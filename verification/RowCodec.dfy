/** Reading an account row back: the holders a scan fills, and the node assigned from them. */
module RowCodec {
  import opened Wrappers
  import opened Columns
  import opened Create

  /** What the database stores in a column. */
  datatype Raw = Null | Scalar(v: Val) | Bytes(bytes: string)

  /** A destination of a scan. */
  datatype Holder =
    | TimeHolder(valid: bool, t: int)
    | StrHolder(valid: bool, s: string)
    | IntHolder(valid: bool, i: int)
    | FloatHolder(valid: bool, r: real)
    | BoolHolder(valid: bool, b: bool)
    | BytesHolder(bytes: string)
    | AnyHolder(raw: Raw)

  function HolderFor(c: Column): Holder {
    match c
    case Credentials => BytesHolder("")
    case Extra => BytesHolder("")
    case AutoPauseOnExpired => BoolHolder(false, false)
    case Schedulable => BoolHolder(false, false)
    case RateMultiplier => FloatHolder(false, 0.0)
    case ID => IntHolder(false, 0)
    case ProxyID => IntHolder(false, 0)
    case Concurrency => IntHolder(false, 0)
    case LoadFactor => IntHolder(false, 0)
    case Priority => IntHolder(false, 0)
    case Name => StrHolder(false, "")
    case Notes => StrHolder(false, "")
    case Platform => StrHolder(false, "")
    case Type => StrHolder(false, "")
    case Status => StrHolder(false, "")
    case ErrorMessage => StrHolder(false, "")
    case TempUnschedulableReason => StrHolder(false, "")
    case SessionWindowStatus => StrHolder(false, "")
    case Other(_) => AnyHolder(Null)
    case _ => TimeHolder(false, 0)
  }

  method ScanValues(columns: seq<Column>) returns (values: array<Holder>)
    ensures fresh(values) && values.Length == |columns|
    ensures forall i | 0 <= i < |columns| :: values[i] == HolderFor(columns[i])
  {
    values := new Holder[|columns|];
    for i := 0 to |columns|
      invariant forall j | 0 <= j < i :: values[j] == HolderFor(columns[j])
    {
      values[i] := HolderFor(columns[i]);
    }
  }

  /** What the driver leaves in a holder; a value of another type is a scan error. */
  function ScanInto(h: Holder, raw: Raw): Option<Holder> {
    match (h, raw)
    case (AnyHolder(_), _) => Some(AnyHolder(raw))
    case (BytesHolder(_), Null) => Some(BytesHolder(""))
    case (BytesHolder(_), Bytes(bytes)) => Some(BytesHolder(bytes))
    case (_, Null) => Some(h)
    case (TimeHolder(_, _), Scalar(Time(t))) => Some(TimeHolder(true, t))
    case (StrHolder(_, _), Scalar(Str(s))) => Some(StrHolder(true, s))
    case (IntHolder(_, _), Scalar(Int(i))) => Some(IntHolder(true, i))
    case (FloatHolder(_, _), Scalar(Float(r))) => Some(FloatHolder(true, r))
    case (BoolHolder(_, _), Scalar(Bool(b))) => Some(BoolHolder(true, b))
    case _ => None
  }

  /** The JSON codec. */
  datatype Codec = Codec(encode: Doc -> string, decode: string -> Option<Doc>)

  ghost predicate Invertible(codec: Codec) {
    forall d :: codec.encode(d) != "" && codec.decode(codec.encode(d)) == Some(d)
  }

  datatype AssignError = TooFewValues | WrongType(c: Column) | BadDocument(c: Column)

  /** A holder read as a value of kind `k`; None when it holds no value. */
  function Decoded(codec: Codec, c: Column, k: Kind, h: Holder): Result<Option<Val>, AssignError> {
    match (k, h)
    case (TimeKind, TimeHolder(valid, t)) => Success(if valid then Some(Time(t)) else None)
    case (StringKind, StrHolder(valid, s)) => Success(if valid then Some(Str(s)) else None)
    case (IntKind, IntHolder(valid, i)) => Success(if valid then Some(Int(i)) else None)
    case (FloatKind, FloatHolder(valid, r)) => Success(if valid then Some(Float(r)) else None)
    case (BoolKind, BoolHolder(valid, b)) => Success(if valid then Some(Bool(b)) else None)
    case (JsonKind, BytesHolder(bytes)) =>
      if bytes == "" then Success(None)
      else (match codec.decode(bytes)
        case None => Failure(BadDocument(c))
        case Some(d) => Success(Some(Json(d))))
    case _ => Failure(WrongType(c))
  }

  /** One column assigned. The key is assigned whether or not it is valid; a document is merged into the one held. */
  function Put(codec: Codec, node: Node, c: Column, h: Holder): Result<Node, AssignError>
    requires !c.Other?
  {
    match Decoded(codec, c, KindOf(c), h)
    case Failure(e) => Failure(e)
    case Success(None) => Success(if c == ID then node[c := Plain(Int(if h.IntHolder? then h.i else 0))] else node)
    case Success(Some(v)) =>
      var before := CellOf(node, c);
      if v.Json? && before.Plain? && before.v.Json? then Success(node[c := Plain(Json(before.v.d + v.d))])
      else Success(node[c := CellWith(c, v)])
  }

  datatype Scan = Scan(node: Node, selected: map<string, Holder>, error: Option<AssignError>)

  function Assigned(codec: Codec, columns: seq<Column>, values: seq<Holder>, node: Node, selected: map<string, Holder>): Scan
    requires |columns| <= |values|
  {
    if columns == [] then Scan(node, selected, None)
    else if columns[0].Other? then
      Assigned(codec, columns[1..], values[1..], node, selected[columns[0].alias := values[0]])
    else match Put(codec, node, columns[0], values[0])
      case Failure(e) => Scan(node, selected, Some(e))
      case Success(next) => Assigned(codec, columns[1..], values[1..], next, selected)
  }

  /** An account being filled from a row. */
  class Target {
    var node: Node
    var selected: map<string, Holder>

    constructor ()
      ensures node == map[] && selected == map[]
    {
      node, selected := map[], map[];
    }

    method AssignValues(codec: Codec, columns: seq<Column>, values: seq<Holder>) returns (e: Option<AssignError>)
      modifies this
      ensures if |values| < |columns| then e == Some(TooFewValues) && node == old(node) && selected == old(selected)
              else Scan(node, selected, e) == Assigned(codec, columns, values, old(node), old(selected))
    {
      if |values| < |columns| {
        return Some(TooFewValues);
      }
      for i := 0 to |columns|
        invariant Assigned(codec, columns[i..], values[i..], node, selected) == Assigned(codec, columns, values, old(node), old(selected))
      {
        var c := columns[i];
        assert columns[i..][1..] == columns[i + 1..] && values[i..][1..] == values[i + 1..];
        if c.Other? {
          selected := selected[c.alias := values[i]];
        } else {
          var next := Put(codec, node, c, values[i]);
          if next.Failure? {
            return Some(next.error);
          }
          node := next.value;
        }
      }
      e := None;
    }
  }

  // ----- When a row can be read

  ghost predicate Readable(codec: Codec, c: Column, h: Holder) {
    c.Other? || Decoded(codec, c, KindOf(c), h).Success?
  }

  /** Reading fails exactly when some known column's holder has another type, or bytes that do not parse. */
  lemma {:induction false} AssignFailsExactly(codec: Codec, columns: seq<Column>, values: seq<Holder>, node: Node, selected: map<string, Holder>)
    requires |columns| <= |values|
    ensures Assigned(codec, columns, values, node, selected).error == None <==>
      forall i | 0 <= i < |columns| :: Readable(codec, columns[i], values[i])
  {
    if columns != [] && Readable(codec, columns[0], values[0]) {
      var c, h := columns[0], values[0];
      if c.Other? {
        AssignFailsExactly(codec, columns[1..], values[1..], node, selected[c.alias := h]);
      } else {
        AssignFailsExactly(codec, columns[1..], values[1..], Put(codec, node, c, h).value, selected);
      }
      assert forall i | 1 <= i < |columns| :: columns[1..][i - 1] == columns[i] && values[1..][i - 1] == values[i];
    }
  }

  /** What is wrong with a holder: it has another type, or its bytes are no document. */
  lemma {:induction false} WhatFails(codec: Codec, c: Column, h: Holder)
    requires !c.Other? && !Readable(codec, c, h)
    ensures Decoded(codec, c, KindOf(c), h) ==
      Failure(if (c == Credentials || c == Extra) && h.BytesHolder? then BadDocument(c) else WrongType(c))
  {
  }

  /** The holders made for a column always have the type its assignment expects: after any scan that
      succeeds, the only thing that can fail is a document that does not parse. */
  lemma {:induction false} HoldersFit(codec: Codec, c: Column, raw: Raw)
    requires ScanInto(HolderFor(c), raw).Some?
    ensures !Readable(codec, c, ScanInto(HolderFor(c), raw).value) <==>
      (c == Credentials || c == Extra) && raw.Bytes? && raw.bytes != "" && codec.decode(raw.bytes) == None
  {
  }

  /** NULL leaves a field as it is; the key reads as 0. */
  lemma {:induction false} NullReads(codec: Codec, node: Node, c: Column)
    requires !c.Other?
    ensures ScanInto(HolderFor(c), Null).Some?
    ensures Put(codec, node, c, ScanInto(HolderFor(c), Null).value) == Success(if c == ID then node[c := Plain(Int(0))] else node)
  {
  }

  /** What is selected beside the columns of the table is kept under its alias, the last value when it repeats, and
      touches no field. */
  lemma {:induction false} SelectedIsKept(codec: Codec, columns: seq<Column>, values: seq<Holder>, node: Node, selected: map<string, Holder>)
    requires |columns| <= |values| && Assigned(codec, columns, values, node, selected).error == None
    ensures var kept := Assigned(codec, columns, values, node, selected).selected;
      && (forall alias :: alias in kept <==> alias in selected || Other(alias) in columns)
      && (forall i | 0 <= i < |columns| && columns[i].Other? && columns[i] !in columns[i + 1..] :: kept[columns[i].alias] == values[i])
      && (forall alias | alias in selected && Other(alias) !in columns :: kept[alias] == selected[alias])
  {
    if columns != [] {
      var c := columns[0];
      assert columns == [c] + columns[1..];
      if c.Other? {
        SelectedIsKept(codec, columns[1..], values[1..], node, selected[c.alias := values[0]]);
      } else {
        SelectedIsKept(codec, columns[1..], values[1..], Put(codec, node, c, values[0]).value, selected);
      }
      forall i | 0 <= i < |columns| && columns[i].Other? && columns[i] !in columns[i + 1..]
        ensures Assigned(codec, columns, values, node, selected).selected[columns[i].alias] == values[i]
      {
        if i > 0 {
          assert columns[1..][i - 1] == columns[i] && values[1..][i - 1] == values[i] && columns[1..][i..] == columns[i + 1..];
        }
      }
    }
  }

  // ----- Writing and reading back

  /** Fields have the type of their column. */
  ghost predicate WellTyped(m: Mutation) {
    forall c | c in m.fields :: !c.Other? && c != ID && c != ProxyID && KindOf(c) == KindOfVal(m.fields[c])
  }

  function ValueIn(fields: seq<(Column, Val)>, c: Column): Option<Val> {
    if fields == [] then None else if fields[0].0 == c then Some(fields[0].1) else ValueIn(fields[1..], c)
  }

  function Encoded(codec: Codec, v: Val): Raw {
    if v.Json? then Bytes(codec.encode(v.d)) else Scalar(v)
  }

  /** The row an insert writes under key `id`: its fields, the proxy of its edge, and NULL in every other column. */
  function Stored(codec: Codec, spec: Spec, id: int, c: Column): Raw {
    if c == ID then Scalar(Int(id))
    else if c == ProxyID then if spec.proxy.Some? then Scalar(Int(spec.proxy.value)) else Null
    else match ValueIn(spec.fields, c)
      case None => Null
      case Some(v) => Encoded(codec, v)
  }

  lemma {:induction false} ValueInSpec(m: Mutation, cols: seq<Column>, c: Column)
    ensures ValueIn(SpecFields(m, cols), c) == if c in cols && c in m.fields then Some(m.fields[c]) else None
  {
    if cols != [] {
      ValueInSpec(m, cols[1..], c);
      assert cols == [cols[0]] + cols[1..];
      if cols[0] in m.fields {
        assert SpecFields(m, cols)[1..] == SpecFields(m, cols[1..]);
      } else {
        assert SpecFields(m, cols) == SpecFields(m, cols[1..]);
      }
    }
  }

  /** The node a create returns, with the key the insert reported. */
  function Created(m: Mutation, id: int): Node {
    NodeOf(m)[ID := Plain(Int(id))]
  }

  /** The value the created node has in a column, if any. */
  function CreatedVal(m: Mutation, id: int, c: Column): Option<Val> {
    if c == ID then Some(Int(id))
    else if c == ProxyID then if m.proxy.Some? then Some(Int(m.proxy.value)) else None
    else if c in m.fields then Some(m.fields[c])
    else None
  }

  function CreatedCell(m: Mutation, id: int, c: Column): Cell
    requires !c.Other?
  {
    match CreatedVal(m, id, c)
    case None => CellOf(map[], c)
    case Some(v) => CellWith(c, v)
  }

  lemma {:induction false} NodeCell(m: Mutation, cols: seq<Column>, c: Column)
    requires forall x :: x in cols <==> x != ID && x != ProxyID && !x.Other?
    requires WellTyped(m) && !c.Other? && c != ID
    ensures var node := NodeFields(m, cols, map[]);
      CellOf(if m.proxy.Some? then node[ProxyID := Ptr(Int(m.proxy.value))] else node, c) == CreatedCell(m, 0, c)
  {
    NodeFieldsHold(m, cols, map[]);
  }

  lemma {:induction false} CreatedHolds(m: Mutation, id: int, c: Column)
    requires WellTyped(m) && !c.Other?
    ensures CellOf(Created(m, id), c) == CreatedCell(m, id, c)
  {
    forall x ensures x in FIELDS <==> x != ID && x != ProxyID && !x.Other? {
      IsField(x);
    }
    if c != ID {
      NodeCell(m, FIELDS, c);
    }
  }

  lemma {:induction false} StoredVal(codec: Codec, m: Mutation, id: int, c: Column)
    requires WellTyped(m) && !c.Other?
    ensures Stored(codec, SpecOf(m), id, c) == match CreatedVal(m, id, c) case None => Null case Some(v) => Encoded(codec, v)
  {
    IsField(c);
    ValueInSpec(m, FIELDS, c);
  }

  lemma {:induction false} ScanRoundTrip(codec: Codec, c: Column, v: Val)
    requires Invertible(codec) && !c.Other? && KindOfVal(v) == KindOf(c)
    ensures ScanInto(HolderFor(c), Encoded(codec, v)).Some?
    ensures Decoded(codec, c, KindOf(c), ScanInto(HolderFor(c), Encoded(codec, v)).value) == Success(Some(v))
  {
  }

  lemma {:induction false} ScanNull(codec: Codec, c: Column)
    requires !c.Other?
    ensures ScanInto(HolderFor(c), Null) == Some(HolderFor(c))
    ensures Decoded(codec, c, KindOf(c), HolderFor(c)) == Success(None)
    ensures forall node :: c != ID ==> Put(codec, node, c, HolderFor(c)) == Success(node)
  {
  }

  lemma {:induction false} PutHolds(codec: Codec, node: Node, c: Column, h: Holder, v: Val)
    requires !c.Other? && KindOfVal(v) == KindOf(c)
    requires Decoded(codec, c, KindOf(c), h) == Success(Some(v))
    requires CellOf(node, c) == CellOf(map[], c) || CellOf(node, c) == CellWith(c, v)
    ensures Put(codec, node, c, h) == Success(node[c := CellWith(c, v)])
  {
    if v.Json? {
      assert map[] + v.d == v.d && v.d + v.d == v.d;
    }
  }

  /** One column of the row, scanned and assigned into a node that does not hold it yet or holds it already. */
  lemma {:induction false} ColumnRoundTrip(codec: Codec, m: Mutation, id: int, c: Column, node: Node)
    requires Invertible(codec) && WellTyped(m) && !c.Other?
    requires CellOf(node, c) == CellOf(map[], c) || CellOf(node, c) == CreatedCell(m, id, c)
    ensures var h := ScanInto(HolderFor(c), Stored(codec, SpecOf(m), id, c));
      && h.Some?
      && Put(codec, node, c, h.value) == Success(if CreatedVal(m, id, c).Some? then node[c := CreatedCell(m, id, c)] else node)
  {
    StoredVal(codec, m, id, c);
    match CreatedVal(m, id, c)
    case None => ScanNull(codec, c);
    case Some(v) =>
      ScanRoundTrip(codec, c, v);
      PutHolds(codec, node, c, ScanInto(HolderFor(c), Encoded(codec, v)).value, v);
  }

  /** The holders after scanning the row, with `extra` in the columns a modifier selected. */
  ghost predicate Scanned(codec: Codec, m: Mutation, id: int, columns: seq<Column>, values: seq<Holder>) {
    && |values| == |columns|
    && forall i | 0 <= i < |columns| && !columns[i].Other? ::
         ScanInto(HolderFor(columns[i]), Stored(codec, SpecOf(m), id, columns[i])) == Some(values[i])
  }

  ghost predicate ReadBack(m: Mutation, id: int, node: Node, columns: set<Column>) {
    forall c: Column | !c.Other? :: CellOf(node, c) == if c in columns then CreatedCell(m, id, c) else CellOf(map[], c)
  }

  lemma {:induction false} ReadBackGrows(m: Mutation, id: int, node: Node, columns: set<Column>, c: Column)
    requires ReadBack(m, id, node, columns)
    ensures c.Other? ==> ReadBack(m, id, node, columns + {c})
    ensures !c.Other? ==> ReadBack(m, id, if CreatedVal(m, id, c).Some? then node[c := CreatedCell(m, id, c)] else node, columns + {c})
  {
  }

  lemma {:induction false} AssignedReadsBack(codec: Codec, m: Mutation, id: int, columns: seq<Column>, values: seq<Holder>,
      node: Node, selected: map<string, Holder>, done: set<Column>)
    requires Invertible(codec) && WellTyped(m)
    requires Scanned(codec, m, id, columns, values)
    requires ReadBack(m, id, node, done)
    ensures Assigned(codec, columns, values, node, selected).error == None
    ensures ReadBack(m, id, Assigned(codec, columns, values, node, selected).node, done + (set c | c in columns))
    decreases |columns|
  {
    if columns == [] {
      assert done + (set c | c in columns) == done;
    } else {
      var c := columns[0];
      assert done + {c} + (set x | x in columns[1..]) == done + (set x | x in columns) by {
        assert columns == [c] + columns[1..];
      }
      ReadBackGrows(m, id, node, done, c);
      if c.Other? {
        AssignedReadsBack(codec, m, id, columns[1..], values[1..], node, selected[c.alias := values[0]], done + {c});
      } else {
        ColumnRoundTrip(codec, m, id, c, node);
        AssignedReadsBack(codec, m, id, columns[1..], values[1..], Put(codec, node, c, values[0]).value, selected, done + {c});
      }
    }
  }

  /** Whatever columns are read, in whatever order and with whatever else is selected, the node read back
      equals the created one in every column read, and is empty elsewhere. */
  lemma {:induction false} CreateThenRead(codec: Codec, m: Mutation, id: int, columns: seq<Column>, values: seq<Holder>)
    requires Invertible(codec) && WellTyped(m)
    requires Scanned(codec, m, id, columns, values)
    ensures var read := Assigned(codec, columns, values, map[], map[]);
      && read.error == None
      && forall c: Column | !c.Other? :: CellOf(read.node, c) == CellOf(if c in columns then Created(m, id) else map[], c)
  {
    AssignedReadsBack(codec, m, id, columns, values, map[], map[], {});
    forall c: Column | !c.Other?
      ensures CellOf(Assigned(codec, columns, values, map[], map[]).node, c) == CellOf(if c in columns then Created(m, id) else map[], c)
    {
      CreatedHolds(m, id, c);
      assert c in columns <==> c in {} + (set x | x in columns);
    }
  }
}
