/** Updating an account's edges: what the mutation remembers, the edge specs made from it, and what they do. */
module EdgeUpdate {
  import opened Wrappers

  // ----- What a mutation remembers of an edge to many

  /** The calls a user makes on an edge to many. */
  datatype Op = Add(ids: seq<int>) | Remove(ids: seq<int>) | Clear

  datatype Edits = Edits(added: set<int>, removed: set<int>, cleared: bool)

  function SetOf<T>(ids: seq<T>): set<T> {
    set x | x in ids
  }

  /** Removing takes an identifier back from those added; adding takes none back from those removed; clearing
      forgets neither. */
  function Step(e: Edits, op: Op): Edits {
    match op
    case Add(ids) => e.(added := e.added + SetOf(ids))
    case Remove(ids) => e.(added := e.added - SetOf(ids), removed := e.removed + SetOf(ids))
    case Clear => e.(cleared := true)
  }

  function After(ops: seq<Op>): Edits {
    if ops == [] then Edits({}, {}, false) else Step(After(ops[..|ops| - 1]), ops[|ops| - 1])
  }

  class EdgeMutation {
    var added: set<int>
    var removed: set<int>
    var cleared: bool

    ghost function S(): Edits
      reads this
    {
      Edits(added, removed, cleared)
    }

    constructor ()
      ensures S() == After([])
    {
      added, removed, cleared := {}, {}, false;
    }

    method AddIDs(ids: seq<int>)
      modifies this
      ensures S() == Step(old(S()), Add(ids))
    {
      for i := 0 to |ids|
        invariant S() == old(S()).(added := old(added) + SetOf(ids[..i]))
      {
        added := added + {ids[i]};
        assert ids[..i + 1] == ids[..i] + [ids[i]];
      }
      assert ids[..|ids|] == ids;
    }

    method RemoveIDs(ids: seq<int>)
      modifies this
      ensures S() == Step(old(S()), Remove(ids))
    {
      for i := 0 to |ids|
        invariant S() == old(S()).(added := old(added) - SetOf(ids[..i]), removed := old(removed) + SetOf(ids[..i]))
      {
        added := added - {ids[i]};
        removed := removed + {ids[i]};
        assert ids[..i + 1] == ids[..i] + [ids[i]];
      }
      assert ids[..|ids|] == ids;
    }

    method ClearEdge()
      modifies this
      ensures S() == Step(old(S()), Clear)
    {
      cleared := true;
    }
  }

  // ----- What a mutation remembers of the proxy

  datatype ProxyOp = SetProxyID(id: int) | ClearProxyID | ClearProxy

  datatype ProxyEdits = ProxyEdits(proxy: Option<int>, clearedField: bool, clearedEdge: bool)

  /** Setting takes back no clearing, and clearing by edge does not take back what was set. */
  function ProxyStep(e: ProxyEdits, op: ProxyOp): ProxyEdits {
    match op
    case SetProxyID(id) => e.(proxy := Some(id))
    case ClearProxyID => e.(proxy := None, clearedField := true)
    case ClearProxy => e.(clearedField := true, clearedEdge := true)
  }

  function ProxyAfter(ops: seq<ProxyOp>): ProxyEdits {
    if ops == [] then ProxyEdits(None, false, false) else ProxyStep(ProxyAfter(ops[..|ops| - 1]), ops[|ops| - 1])
  }

  class ProxyMutation {
    var proxy: Option<int>
    var clearedField: bool
    var clearedEdge: bool

    ghost function S(): ProxyEdits
      reads this
    {
      ProxyEdits(proxy, clearedField, clearedEdge)
    }

    constructor ()
      ensures S() == ProxyAfter([])
    {
      proxy, clearedField, clearedEdge := None, false, false;
    }

    method SetProxyID(id: int)
      modifies this
      ensures S() == ProxyStep(old(S()), ProxyOp.SetProxyID(id))
    {
      proxy := Some(id);
    }

    method ClearProxyID()
      modifies this
      ensures S() == ProxyStep(old(S()), ProxyOp.ClearProxyID)
    {
      proxy := None;
      clearedField := true;
    }

    method ClearProxy()
      modifies this
      ensures S() == ProxyStep(old(S()), ProxyOp.ClearProxy)
    {
      clearedEdge := true;
      clearedField := true;
    }
  }

  // ----- The edge specs of an update

  datatype Edge = Groups | Proxy | UsageLogs

  /** One edge to clear or add; a clear without targets clears the whole edge. */
  datatype EdgeSpec = EdgeSpec(edge: Edge, targets: seq<int>)

  /** The edge specs of an update, cleared first and then added. */
  datatype Specs = Specs(clear: seq<EdgeSpec>, add: seq<EdgeSpec>)

  function Cleared(specs: seq<EdgeSpec>, edge: Edge, was: set<int>): set<int> {
    if specs == [] then was
    else
      var before := Cleared(specs[..|specs| - 1], edge, was);
      var spec := specs[|specs| - 1];
      if spec.edge != edge then before else if spec.targets == [] then {} else before - SetOf(spec.targets)
  }

  function Added(specs: seq<EdgeSpec>, edge: Edge, was: set<int>): set<int> {
    if specs == [] then was
    else
      var before := Added(specs[..|specs| - 1], edge, was);
      var spec := specs[|specs| - 1];
      if spec.edge != edge then before else before + SetOf(spec.targets)
  }

  /** An edge to many after an update. */
  function Updated(specs: Specs, edge: Edge, was: set<int>): set<int> {
    Added(specs.add, edge, Cleared(specs.clear, edge, was))
  }

  /** The proxy after an update: the foreign key is set to NULL, then to the last target added. */
  function ProxyUpdated(specs: Specs, was: Option<int>): Option<int> {
    ProxyAdded(specs.add, if ClearsProxy(specs.clear) then None else was)
  }

  function ProxyAdded(specs: seq<EdgeSpec>, was: Option<int>): Option<int> {
    if specs == [] then was
    else
      var spec := specs[|specs| - 1];
      if spec.edge == Proxy && spec.targets != [] then Some(spec.targets[|spec.targets| - 1])
      else ProxyAdded(specs[..|specs| - 1], was)
  }

  /** The identifiers in some order: the order of a map is arbitrary. */
  method Listed<T(==)>(ids: set<T>) returns (r: seq<T>)
    ensures SetOf(r) == ids && |r| == |ids|
  {
    r := [];
    var rest := ids;
    while rest != {}
      invariant SetOf(r) + rest == ids && SetOf(r) !! rest && |r| + |rest| == |ids|
      decreases rest
    {
      var k :| k in rest;
      var was := r;
      r := r + [k];
      assert SetOf(r) == SetOf(was) + {k};
      rest := rest - {k};
    }
  }

  lemma {:induction false} ClearAppended(specs: seq<EdgeSpec>, spec: EdgeSpec, edge: Edge, was: set<int>)
    ensures Cleared(specs + [spec], edge, was) ==
      if spec.edge != edge then Cleared(specs, edge, was) else if spec.targets == [] then {} else Cleared(specs, edge, was) - SetOf(spec.targets)
  {
    assert (specs + [spec])[..|specs|] == specs;
  }

  lemma {:induction false} AddAppended(specs: seq<EdgeSpec>, spec: EdgeSpec, edge: Edge, was: set<int>)
    ensures Added(specs + [spec], edge, was) == if spec.edge != edge then Added(specs, edge, was) else Added(specs, edge, was) + SetOf(spec.targets)
  {
    assert (specs + [spec])[..|specs|] == specs;
  }

  lemma {:induction false} ProxyAppended(specs: seq<EdgeSpec>, spec: EdgeSpec, was: Option<int>)
    ensures ProxyAdded(specs + [spec], was) ==
      if spec.edge == Proxy && spec.targets != [] then Some(spec.targets[|spec.targets| - 1]) else ProxyAdded(specs, was)
  {
    assert (specs + [spec])[..|specs|] == specs;
  }

  /** What an edit of an edge to many is for: what was cleared or removed goes, what was added is there. */
  function Effect(e: Edits, was: set<int>): set<int> {
    (if e.cleared then {} else was - e.removed) + e.added
  }

  function ProxyEffect(e: ProxyEdits, was: Option<int>): Option<int> {
    if e.proxy.Some? then e.proxy else if e.clearedField || e.clearedEdge then None else was
  }

  predicate ClearsProxy(specs: seq<EdgeSpec>) {
    exists spec :: spec in specs && spec.edge == Proxy
  }

  /** `after` clears the edge as edited on top of `before`, and no other. */
  ghost predicate ClearsAlso(before: seq<EdgeSpec>, after: seq<EdgeSpec>, edge: Edge, e: Edits) {
    && (ClearsProxy(after) <==> ClearsProxy(before))
    && forall other, was :: Cleared(after, other, was) ==
         (if other != edge then Cleared(before, other, was) else if e.cleared then {} else Cleared(before, other, was) - e.removed)
  }

  /** `after` adds to the edge as edited on top of `before`, and to no other. */
  ghost predicate AddsAlso(before: seq<EdgeSpec>, after: seq<EdgeSpec>, edge: Edge, e: Edits) {
    && (forall was :: ProxyAdded(after, was) == ProxyAdded(before, was))
    && forall other, was :: Added(after, other, was) == Added(before, other, was) + (if other != edge then {} else e.added)
  }

  lemma {:induction false} ClearedBlock(before: seq<EdgeSpec>, edge: Edge, e: Edits, spec: EdgeSpec)
    requires edge != Proxy && spec.edge == edge
    requires if e.cleared then spec.targets == [] else spec.targets != [] && SetOf(spec.targets) == e.removed
    ensures ClearsAlso(before, before + [spec], edge, e)
  {
    forall other, was
      ensures Cleared(before + [spec], other, was) ==
        (if other != edge then Cleared(before, other, was) else if e.cleared then {} else Cleared(before, other, was) - e.removed)
    {
      ClearAppended(before, spec, other, was);
    }
    ClearsProxyAppended(before, spec);
  }

  lemma {:induction false} ClearsProxyAppended(specs: seq<EdgeSpec>, spec: EdgeSpec)
    ensures ClearsProxy(specs + [spec]) <==> ClearsProxy(specs) || spec.edge == Proxy
  {
    assert spec in specs + [spec];
    if ClearsProxy(specs) {
      var x :| x in specs && x.edge == Proxy;
      assert x in specs + [spec];
    }
  }

  lemma {:induction false} AddedBlock(before: seq<EdgeSpec>, edge: Edge, e: Edits, spec: EdgeSpec)
    requires edge != Proxy && spec.edge == edge && SetOf(spec.targets) == e.added
    ensures AddsAlso(before, before + [spec], edge, e)
  {
    forall other, was ensures Added(before + [spec], other, was) == Added(before, other, was) + (if other != edge then {} else e.added) {
      AddAppended(before, spec, other, was);
    }
    forall was ensures ProxyAdded(before + [spec], was) == ProxyAdded(before, was) {
      ProxyAppended(before, spec, was);
    }
  }

  /** The three blocks for an edge to many. */
  method AppendEdge(before: Specs, edge: Edge, m: EdgeMutation) returns (specs: Specs)
    requires edge != Proxy
    ensures ClearsAlso(before.clear, specs.clear, edge, m.S()) && AddsAlso(before.add, specs.add, edge, m.S())
  {
    specs := before;
    if m.cleared {
      specs := specs.(clear := specs.clear + [EdgeSpec(edge, [])]);
      ClearedBlock(before.clear, edge, m.S(), EdgeSpec(edge, []));
    }
    var removed := Listed(m.removed);
    if |removed| > 0 && !m.cleared {
      specs := specs.(clear := specs.clear + [EdgeSpec(edge, removed)]);
      ClearedBlock(before.clear, edge, m.S(), EdgeSpec(edge, removed));
    }
    var added := Listed(m.added);
    if |added| > 0 {
      specs := specs.(add := specs.add + [EdgeSpec(edge, added)]);
      AddedBlock(before.add, edge, m.S(), EdgeSpec(edge, added));
    }
  }

  /** The edge specs of an update, the same in the bulk and in the single-row update. Whatever order maps are
      iterated in, each edge ends as edited, independently of the others. */
  method SqlSave(groups: EdgeMutation, proxy: ProxyMutation, logs: EdgeMutation) returns (specs: Specs)
    ensures forall was :: Updated(specs, Groups, was) == Effect(groups.S(), was)
    ensures forall was :: ProxyUpdated(specs, was) == ProxyEffect(proxy.S(), was)
    ensures forall was :: Updated(specs, UsageLogs, was) == Effect(logs.S(), was)
  {
    var first := AppendEdge(Specs([], []), Groups, groups);
    var second := first;
    if proxy.clearedField || proxy.clearedEdge {
      second := second.(clear := second.clear + [EdgeSpec(Proxy, [])]);
    }
    if proxy.proxy.Some? {
      second := second.(add := second.add + [EdgeSpec(Proxy, [proxy.proxy.value])]);
    }
    ProxyBlocks(first, second, proxy.S());
    specs := AppendEdge(second, UsageLogs, logs);
  }

  lemma {:induction false} ProxyBlocks(before: Specs, specs: Specs, e: ProxyEdits)
    requires specs.clear == if e.clearedField || e.clearedEdge then before.clear + [EdgeSpec(Proxy, [])] else before.clear
    requires specs.add == if e.proxy.Some? then before.add + [EdgeSpec(Proxy, [e.proxy.value])] else before.add
    requires !ClearsProxy(before.clear) && forall was :: ProxyAdded(before.add, was) == was
    ensures forall was :: ProxyUpdated(specs, was) == ProxyEffect(e, was)
    ensures forall edge, was | edge != Proxy :: Cleared(specs.clear, edge, was) == Cleared(before.clear, edge, was)
    ensures forall edge, was | edge != Proxy :: Added(specs.add, edge, was) == Added(before.add, edge, was)
  {
    if e.clearedField || e.clearedEdge {
      ClearsProxyAppended(before.clear, EdgeSpec(Proxy, []));
      forall edge, was | edge != Proxy ensures Cleared(specs.clear, edge, was) == Cleared(before.clear, edge, was) {
        ClearAppended(before.clear, EdgeSpec(Proxy, []), edge, was);
      }
    }
    if e.proxy.Some? {
      forall edge, was | edge != Proxy ensures Added(specs.add, edge, was) == Added(before.add, edge, was) {
        AddAppended(before.add, EdgeSpec(Proxy, [e.proxy.value]), edge, was);
      }
      forall was ensures ProxyAdded(specs.add, was) == e.proxy {
        ProxyAppended(before.add, EdgeSpec(Proxy, [e.proxy.value]), was);
      }
    }
  }

  // ----- Against the calls one by one

  /** The edge after the calls, each done on its own. */
  function InTurn(ops: seq<Op>, was: set<int>): set<int> {
    if ops == [] then was
    else
      var before := InTurn(ops[..|ops| - 1], was);
      match ops[|ops| - 1]
      case Add(ids) => before + SetOf(ids)
      case Remove(ids) => before - SetOf(ids)
      case Clear => {}
  }

  /** Call `i` adds `x`, and no later call removes it. */
  ghost predicate Adds(ops: seq<Op>, i: nat, x: int) {
    && i < |ops| && ops[i].Add? && x in ops[i].ids
    && forall k | i < k < |ops| :: !(ops[k].Remove? && x in ops[k].ids)
  }

  ghost predicate Live(ops: seq<Op>, x: int) {
    exists i: nat :: Adds(ops, i, x)
  }

  /** `x` was added, then the edge was cleared, and nothing was said about `x` after that. */
  ghost predicate Stranded(ops: seq<Op>, x: int) {
    exists i: nat, j: nat :: StrandedAt(ops, i, j, x)
  }

  ghost predicate StrandedAt(ops: seq<Op>, i: nat, j: nat, x: int) {
    && i < j < |ops| && Adds(ops, i, x) && ops[j].Clear?
    && forall k | j < k < |ops| :: !(ops[k].Add? && x in ops[k].ids)
  }

  lemma {:induction false} AddedMeans(ops: seq<Op>, x: int)
    ensures x in After(ops).added <==> Live(ops, x)
  {
    if ops != [] {
      var before, last := ops[..|ops| - 1], ops[|ops| - 1];
      AddedMeans(before, x);
      if last.Add? && x in last.ids {
        assert Adds(ops, |ops| - 1, x);
      }
      if i: nat :| Adds(before, i, x) && x in After(ops).added {
        assert Adds(ops, i, x);
      }
      if i: nat :| Adds(ops, i, x) && i < |ops| - 1 {
        assert Adds(before, i, x);
      }
    }
  }

  /** How the last call changes what is stranded. */
  lemma {:induction false} StrandedStep(ops: seq<Op>, x: int)
    requires ops != []
    ensures Stranded(ops, x) <==>
      match ops[|ops| - 1]
      case Add(ids) => Stranded(ops[..|ops| - 1], x) && x !in ids
      case Remove(ids) => Stranded(ops[..|ops| - 1], x) && x !in ids
      case Clear => Live(ops[..|ops| - 1], x)
  {
    var before, last := ops[..|ops| - 1], ops[|ops| - 1];
    if i: nat, j: nat :| StrandedAt(ops, i, j, x) {
      assert Adds(before, i, x);
      if j < |before| {
        assert StrandedAt(before, i, j, x);
      }
    }
    if i: nat, j: nat :| StrandedAt(before, i, j, x) && !last.Clear? && x !in last.ids {
      assert Adds(ops, i, x) && StrandedAt(ops, i, j, x);
    }
    if i: nat :| Adds(before, i, x) && last.Clear? {
      assert Adds(ops, i, x) && StrandedAt(ops, i, |ops| - 1, x);
    }
  }

  /** The calls as saved against the calls done one by one: exactly the stranded identifiers are there in addition. */
  lemma {:induction false} SavedVersusInTurn(ops: seq<Op>, was: set<int>, x: int)
    ensures x in Effect(After(ops), was) <==> x in InTurn(ops, was) || Stranded(ops, x)
    ensures !(x in InTurn(ops, was) && Stranded(ops, x))
  {
    if ops != [] {
      var before := ops[..|ops| - 1];
      SavedVersusInTurn(before, was, x);
      StrandedStep(ops, x);
      AddedMeans(before, x);
    }
  }

  /** A save does what its calls say one by one exactly when no identifier is stranded by a later clear. */
  lemma {:induction false} SavedAsCalled(ops: seq<Op>, was: set<int>)
    ensures (forall x :: x in Effect(After(ops), was) <==> x in InTurn(ops, was)) <==> forall x :: !Stranded(ops, x)
  {
    forall x
      ensures x in Effect(After(ops), was) <==> x in InTurn(ops, was) || Stranded(ops, x)
      ensures !(x in InTurn(ops, was) && Stranded(ops, x))
    {
      SavedVersusInTurn(ops, was, x);
    }
  }

  function ProxyInTurn(ops: seq<ProxyOp>, was: Option<int>): Option<int> {
    if ops == [] then was
    else match ops[|ops| - 1]
      case SetProxyID(id) => Some(id)
      case ClearProxyID => None
      case ClearProxy => None
  }

  /** The calls without the ClearProxy calls at the end. */
  function Stripped(ops: seq<ProxyOp>): seq<ProxyOp> {
    if ops != [] && ops[|ops| - 1].ClearProxy? then Stripped(ops[..|ops| - 1]) else ops
  }

  /** Clearing the proxy by edge right after setting it has no effect; in every other case a save does what the
      last call says. */
  lemma {:induction false} ProxySavedAsCalled(ops: seq<ProxyOp>, was: Option<int>)
    ensures var base := Stripped(ops);
      ProxyEffect(ProxyAfter(ops), was) ==
        if base != [] && base[|base| - 1].SetProxyID? then Some(base[|base| - 1].id) else ProxyInTurn(ops, was)
    ensures ProxyEffect(ProxyAfter(ops), was) == ProxyInTurn(ops, was) <==>
      !(|Stripped(ops)| < |ops| && Stripped(ops) != [] && Stripped(ops)[|Stripped(ops)| - 1].SetProxyID?)
  {
    if ops != [] && ops[|ops| - 1].ClearProxy? {
      ProxySavedAsCalled(ops[..|ops| - 1], was);
      StrippedShorter(ops[..|ops| - 1]);
    }
  }

  lemma {:induction false} StrippedShorter(ops: seq<ProxyOp>)
    ensures |Stripped(ops)| <= |ops|
  {
    if ops != [] && ops[|ops| - 1].ClearProxy? {
      StrippedShorter(ops[..|ops| - 1]);
    }
  }
}
