/** Saving many accounts with one insert: a chain of mutators, each wrapped in its builder's hooks, in which
    every link calls the next and only the last one inserts. */
module BulkCreate {
  import opened Wrappers
  import opened Columns
  import opened Create

  // ----- Hooks

  /** What a hook passes to the next mutator: the mutation it was given, another one, or one of another entity. */
  datatype Arg = Same | Fresh(m: Mutation) | OtherEntity

  datatype Error = WrongMutation | Rejected(e: CheckError) | ConstraintError | DriverError | HookError

  datatype Outcome = Done | Failed(error: Error)

  /** A hook: it edits and inspects the mutation it was given, calls next any number of times and looks at
      whether each call succeeded, and ends with an outcome of its own or that of its last call. */
  datatype Hook =
    | Return(out: Outcome)
    | Propagate
    | Edit(change: Mutation -> Mutation, rest: Hook)
    | When(test: Mutation -> bool, yes: Hook, no: Hook)
    | Next(arg: Arg, onDone: Hook, onFailed: Hook)

  // ----- State

  /** A mutation object: what was set, and the key and the mark it gets once saved. */
  datatype Object = Object(m: Mutation, id: Option<int>, done: bool)

  /** A mutation value as hooks see it: a mutation object of this entity, or something else. */
  datatype Ref = Account(at: nat) | Foreign

  datatype Event = Enter(i: nat, h: nat) | Exit(i: nat, h: nat) | Insert

  /** One insert as the database gets it: the specs, and the mutations the builders hold when it is sent. */
  datatype Batch = Batch(specs: seq<Option<Spec>>, held: seq<Mutation>)

  /** The builders' mutations, the nodes and specs under construction, and what hooks and database have seen. */
  datatype State = State(
    store: seq<Object>, current: seq<nat>, nodes: seq<Option<Node>>, specs: seq<Option<Spec>>, ids: seq<Option<int>>,
    batches: seq<Batch>, trace: seq<Event>)

  /** `hooks[0]` is the outermost. */
  datatype Builder = Builder(schema: Schema, hooks: seq<Hook>)

  /** What the database answers to an insert: the keys it reports, or a failure. */
  datatype Answer = Inserted(ids: nat -> Option<int>) | Refused(constraint: bool)

  /** The builders, and the database's answer to each insert in turn. */
  datatype Env = Env(builders: seq<Builder>, db: nat -> Answer)

  predicate Shaped(env: Env, s: State) {
    && |s.current| == |s.nodes| == |s.specs| == |s.ids| == |env.builders|
    && forall j | 0 <= j < |s.current| :: s.current[j] < |s.store|
  }

  predicate RefersInto(s: State, ref: Ref) {
    ref.Account? ==> ref.at < |s.store|
  }

  predicate At(env: Env, i: nat, h: nat) {
    i < |env.builders| && h <= |env.builders[i].hooks|
  }

  /** What running from link `i` never does: shrink the store, or touch the nodes and specs of earlier links. */
  predicate Keeps(env: Env, s: State, after: State, i: nat)
    requires i <= |env.builders| && Shaped(env, s)
  {
    && Shaped(env, after) && |s.store| <= |after.store|
    && after.nodes[..i] == s.nodes[..i] && after.specs[..i] == s.specs[..i] && after.current[..i] == s.current[..i]
  }

  // ----- The chain

  /** Mutator `i` from its hook `h` inwards. */
  function Run(env: Env, s: State, i: nat, h: nat, ref: Ref): (r: (State, Outcome))
    requires At(env, i, h) && Shaped(env, s) && RefersInto(s, ref)
    ensures Keeps(env, s, r.0, i)
    decreases |env.builders| - i, |env.builders[i].hooks| - h, 3
  {
    if h < |env.builders[i].hooks| then
      var (after, out) := Exec(env, Log(s, Enter(i, h)), i, h, ref, env.builders[i].hooks[h], Done);
      (Log(after, Exit(i, h)), out)
    else Link(env, s, i, ref)
  }

  /** Link `i` itself: the check looks at the mutation the builder holds, the spec is made from the one passed. */
  function Link(env: Env, s: State, i: nat, ref: Ref): (r: (State, Outcome))
    requires i < |env.builders| && Shaped(env, s) && RefersInto(s, ref)
    ensures Keeps(env, s, r.0, i)
    decreases |env.builders| - i, 0, 2
  {
    if ref.Foreign? then (s, Failed(WrongMutation))
    else if Complaint(env.builders[i].schema, s.store[s.current[i]].m).Some? then
      (s, Failed(Rejected(Complaint(env.builders[i].schema, s.store[s.current[i]].m).value)))
    else
      var ready := Specified(env, s, i, ref.at);
      var (after, out) := Forward(env, ready, i);
      assert after.nodes[..i + 1][i] == ready.nodes[..i + 1][i];
      assert after.nodes[..i] == after.nodes[..i + 1][..i] && after.specs[..i] == after.specs[..i + 1][..i];
      assert after.current[..i] == after.current[..i + 1][..i];
      if out.Done? then (Finished(env, after, i, ref.at), out) else (after, out)
  }

  /** What link `i` calls: the next mutator, or at the end of the chain the insert. */
  function Forward(env: Env, s: State, i: nat): (r: (State, Outcome))
    requires i < |env.builders| && Shaped(env, s)
    ensures Keeps(env, s, r.0, i + 1)
    decreases |env.builders| - i, 0, 1
  {
    if i + 1 < |env.builders| then Run(env, s, i + 1, 0, Account(s.current[i + 1])) else InsertAll(env, s)
  }

  /** The rest of a hook, after a call of next that ended in `last`. */
  function Exec(env: Env, s: State, i: nat, h: nat, ref: Ref, hook: Hook, last: Outcome): (r: (State, Outcome))
    requires At(env, i, h) && h < |env.builders[i].hooks| && Shaped(env, s) && RefersInto(s, ref)
    ensures Keeps(env, s, r.0, i)
    decreases |env.builders| - i, |env.builders[i].hooks| - h, 0, hook
  {
    match hook
    case Return(out) => (s, out)
    case Propagate => (s, last)
    case Edit(change, rest) => Exec(env, Edited(s, ref, change), i, h, ref, rest, last)
    case When(test, yes, no) =>
      Exec(env, s, i, h, ref, if ref.Account? && test(s.store[ref.at].m) then yes else no, last)
    case Next(arg, onDone, onFailed) =>
      var (passed, passedRef) := Pass(s, ref, arg);
      var (after, out) := Run(env, passed, i, h + 1, passedRef);
      Exec(env, after, i, h, ref, if out.Done? then onDone else onFailed, out)
  }

  function Log(s: State, e: Event): State {
    s.(trace := s.trace + [e])
  }

  function Edited(s: State, ref: Ref, change: Mutation -> Mutation): State
    requires RefersInto(s, ref)
  {
    if ref.Foreign? then s
    else s.(store := s.store[ref.at := s.store[ref.at].(m := change(s.store[ref.at].m))])
  }

  function Pass(s: State, ref: Ref, arg: Arg): (State, Ref) {
    match arg
    case Same => (s, ref)
    case Fresh(m) => (s.(store := s.store + [Object(m, None, false)]), Account(|s.store|))
    case OtherEntity => (s, Foreign)
  }

  /** The builder takes over the mutation and its node and spec are made. */
  function Specified(env: Env, s: State, i: nat, at: nat): State
    requires i < |env.builders| && Shaped(env, s) && at < |s.store|
  {
    var m := s.store[at].m;
    s.(current := s.current[i := at], nodes := s.nodes[i := Some(NodeOf(m))], specs := s.specs[i := Some(SpecOf(m))],
       ids := s.ids[i := None])
  }

  function Held(store: seq<Object>, current: seq<nat>): seq<Mutation>
    requires forall k | 0 <= k < |current| :: current[k] < |store|
  {
    seq(|current|, k requires 0 <= k < |current| => store[current[k]].m)
  }

  /** A spec keeps the key of an earlier insert when the database reports none for it. */
  function Reported(before: seq<Option<int>>, ids: nat -> Option<int>): seq<Option<int>> {
    seq(|before|, j requires 0 <= j < |before| => if ids(j).Some? then ids(j) else before[j])
  }

  /** The one insert, of all specs. */
  function InsertAll(env: Env, s: State): (State, Outcome)
    requires Shaped(env, s)
  {
    var sent := Log(s.(batches := s.batches + [Batch(s.specs, Held(s.store, s.current))]), Insert);
    match env.db(|s.batches|)
    case Inserted(ids) => (sent.(ids := Reported(s.ids, ids)), Done)
    case Refused(constraint) => (sent, Failed(if constraint then ConstraintError else DriverError))
  }

  function WithKey(node: Node, id: Option<int>): Node {
    if id.Some? then node[ID := Plain(Int(id.value))] else node
  }

  function KeyOf(id: Option<int>): int {
    if id.Some? then id.value else 0
  }

  /** The mutation gets its key and its mark, the node its key. */
  function Finished(env: Env, s: State, i: nat, at: nat): State
    requires i < |env.builders| && Shaped(env, s) && at < |s.store| && s.nodes[i].Some?
  {
    s.(store := s.store[at := s.store[at].(id := Some(KeyOf(s.ids[i])), done := true)],
       nodes := s.nodes[i := Some(WithKey(s.nodes[i].value, s.ids[i]))])
  }

  /** Builder `k`'s defaults applied to the mutation it holds; an error in them is dropped. */
  function DefaultsOf(env: Env, s: State, k: nat): (r: State)
    requires k < |env.builders| && Shaped(env, s)
    ensures Shaped(env, r)
  {
    var at := s.current[k];
    s.(store := s.store[at := s.store[at].(m := Defaulted(env.builders[k].schema, s.store[at].m, DEFAULTED).0)])
  }

  /** The defaults of the first `k` builders applied. */
  function Prepared(env: Env, s: State, k: nat): (r: State)
    requires k <= |env.builders| && Shaped(env, s)
    ensures Shaped(env, r)
  {
    if k == 0 then s else DefaultsOf(env, Prepared(env, s, k - 1), k - 1)
  }

  function Saved(env: Env, s: State): (State, Result<seq<Option<Node>>, Error>)
    requires Shaped(env, s)
  {
    var ready := Prepared(env, s, |env.builders|);
    if |env.builders| == 0 then (ready, Success([]))
    else
      var (after, out) := Run(env, ready, 0, 0, Account(ready.current[0]));
      (after, if out.Done? then Success(after.nodes) else Failure(out.error))
  }

  // ----- The builder

  class AccountCreateBulk {
    const env: Env
    const err: Option<Error>
    var store: seq<Object>
    var current: seq<nat>
    var nodes: seq<Option<Node>>
    var specs: seq<Option<Spec>>
    var ids: seq<Option<int>>
    var batches: seq<Batch>
    var trace: seq<Event>

    ghost function S(): State
      reads this
    {
      State(store, current, nodes, specs, ids, batches, trace)
    }

    /** One new mutation for each builder. */
    constructor (env: Env, err: Option<Error>, mutations: seq<Mutation>)
      requires |mutations| == |env.builders|
      ensures this.env == env && this.err == err && S() == Begun(mutations)
    {
      this.env, this.err := env, err;
      store, current := seq(|mutations|, i requires 0 <= i < |mutations| => Object(mutations[i], None, false)), seq(|mutations|, i => i);
      nodes, specs, ids := seq(|mutations|, _ => None), seq(|mutations|, _ => None), seq(|mutations|, _ => None);
      batches, trace := [], [];
    }

    method Save() returns (r: Result<seq<Option<Node>>, Error>)
      requires Shaped(env, S())
      modifies this
      ensures err.Some? ==> r == Failure(err.value) && S() == old(S())
      ensures err.None? ==> (S(), r) == Saved(env, old(S()))
    {
      if err.Some? {
        return Failure(err.value);
      }
      ApplyAllDefaults();
      if |env.builders| > 0 {
        var out := Mutate(0, 0, Account(current[0]));
        if out.Failed? {
          return Failure(out.error);
        }
      }
      r := Success(nodes);
    }

    method ApplyAllDefaults()
      requires Shaped(env, S())
      modifies this`store
      ensures Shaped(env, S()) && S() == Prepared(env, old(S()), |env.builders|)
    {
      for k := 0 to |env.builders|
        invariant Shaped(env, S()) && S() == Prepared(env, old(S()), k)
      {
        ApplyDefaults(k);
      }
    }

    method ApplyDefaults(k: nat)
      requires k < |env.builders| && Shaped(env, S())
      modifies this`store
      ensures S() == DefaultsOf(env, old(S()), k)
    {
      var m, _ := Defaults(env.builders[k].schema, store[current[k]].m);
      store := store[current[k] := store[current[k]].(m := m)];
    }

    method Mutate(i: nat, h: nat, ref: Ref) returns (out: Outcome)
      requires At(env, i, h) && Shaped(env, S()) && RefersInto(S(), ref)
      modifies this
      ensures Shaped(env, S()) && (S(), out) == Run(env, old(S()), i, h, ref)
      decreases |env.builders| - i, |env.builders[i].hooks| - h, 3
    {
      if h < |env.builders[i].hooks| {
        trace := trace + [Enter(i, h)];
        out := RunHook(i, h, ref, env.builders[i].hooks[h], Done);
        trace := trace + [Exit(i, h)];
      } else {
        out := RunLink(i, ref);
      }
    }

    method RunLink(i: nat, ref: Ref) returns (out: Outcome)
      requires i < |env.builders| && Shaped(env, S()) && RefersInto(S(), ref)
      modifies this
      ensures Shaped(env, S()) && (S(), out) == Link(env, old(S()), i, ref)
      decreases |env.builders| - i, 0, 2
    {
      if ref.Foreign? {
        return Failed(WrongMutation);
      }
      var e := Check(env.builders[i].schema, store[current[i]].m);
      if e.Some? {
        return Failed(Rejected(e.value));
      }
      current := current[i := ref.at];
      var node, spec := CreateSpec(store[ref.at].m);
      nodes, specs, ids := nodes[i := Some(node)], specs[i := Some(spec)], ids[i := None];
      ghost var ready := S();
      assert ready == Specified(env, old(S()), i, ref.at);
      if i + 1 < |env.builders| {
        out := Mutate(i + 1, 0, Account(current[i + 1]));
      } else {
        out := BatchCreate();
      }
      if out.Done? {
        assert nodes[..i + 1][i] == ready.nodes[..i + 1][i];
        store := store[ref.at := store[ref.at].(id := Some(KeyOf(ids[i])), done := true)];
        nodes := nodes[i := Some(WithKey(nodes[i].value, ids[i]))];
      }
    }

    method BatchCreate() returns (out: Outcome)
      requires Shaped(env, S())
      modifies this`batches, this`trace, this`ids
      ensures (S(), out) == InsertAll(env, old(S()))
    {
      var answer := env.db(|batches|);
      batches, trace := batches + [Batch(specs, Held(store, current))], trace + [Insert];
      match answer
      case Inserted(keys) =>
        ids, out := Reported(ids, keys), Done;
      case Refused(constraint) =>
        out := Failed(if constraint then ConstraintError else DriverError);
    }

    method RunHook(i: nat, h: nat, ref: Ref, hook: Hook, last: Outcome) returns (out: Outcome)
      requires At(env, i, h) && h < |env.builders[i].hooks| && Shaped(env, S()) && RefersInto(S(), ref)
      modifies this
      ensures Shaped(env, S()) && (S(), out) == Exec(env, old(S()), i, h, ref, hook, last)
      decreases |env.builders| - i, |env.builders[i].hooks| - h, 0, hook
    {
      match hook
      case Return(own) =>
        out := own;
      case Propagate =>
        out := last;
      case Edit(change, rest) =>
        if ref.Account? {
          store := store[ref.at := store[ref.at].(m := change(store[ref.at].m))];
        }
        out := RunHook(i, h, ref, rest, last);
      case When(test, yes, no) =>
        out := RunHook(i, h, ref, if ref.Account? && test(store[ref.at].m) then yes else no, last);
      case Next(arg, onDone, onFailed) =>
        var passed := ref;
        match arg {
          case Same =>
          case Fresh(m) =>
            passed := Account(|store|);
            store := store + [Object(m, None, false)];
          case OtherEntity =>
            passed := Foreign;
        }
        var inner := Mutate(i, h + 1, passed);
        out := RunHook(i, h, ref, if inner.Done? then onDone else onFailed, inner);
    }
  }

  /** The state before a save. */
  function Begun(mutations: seq<Mutation>): State {
    State(seq(|mutations|, i requires 0 <= i < |mutations| => Object(mutations[i], None, false)), seq(|mutations|, i => i),
          seq(|mutations|, _ => None), seq(|mutations|, _ => None), seq(|mutations|, _ => None), [], [])
  }
}
