/** What every bulk save keeps, whatever its hooks do, and what it does when they are well behaved. */
module BulkLaws {
  import opened Wrappers
  import opened Create
  import opened BulkCreate

  // ----- Bracketing

  /** How many hooks the builders before `i` have. */
  function Before(env: Env, i: nat): nat
    requires i <= |env.builders|
  {
    if i == 0 then 0 else Before(env, i - 1) + |env.builders[i - 1].hooks|
  }

  /** The number of open hooks after an event, if the event is in order: hooks open one by one from the first
      hook of the first builder, the last one opened closes first, and the insert comes when all are open. */
  function After(env: Env, open: nat, e: Event): Option<nat> {
    match e
    case Enter(i, h) =>
      if i < |env.builders| && h < |env.builders[i].hooks| && open == Before(env, i) + h then Some(open + 1) else None
    case Exit(i, h) =>
      if i < |env.builders| && h < |env.builders[i].hooks| && open == Before(env, i) + h + 1 then Some(open - 1) else None
    case Insert =>
      if open == Before(env, |env.builders|) then Some(open) else None
  }

  function Replay(env: Env, trace: seq<Event>): Option<nat> {
    if trace == [] then Some(0)
    else match Replay(env, trace[..|trace| - 1])
      case None => None
      case Some(open) => After(env, open, trace[|trace| - 1])
  }

  lemma {:induction false} ReplayLog(env: Env, s: State, e: Event)
    ensures Replay(env, Log(s, e).trace) == match Replay(env, s.trace) case None => None case Some(open) => After(env, open, e)
  {
    assert Log(s, e).trace[..|s.trace|] == s.trace;
  }

  lemma {:induction false} EnterOpens(env: Env, s: State, i: nat, h: nat)
    requires At(env, i, h) && h < |env.builders[i].hooks| && Replay(env, s.trace) == Some(Before(env, i) + h)
    ensures Replay(env, Log(s, Enter(i, h)).trace) == Some(Before(env, i) + h + 1)
  {
    ReplayLog(env, s, Enter(i, h));
  }

  lemma {:induction false} ExitCloses(env: Env, s: State, i: nat, h: nat)
    requires At(env, i, h) && h < |env.builders[i].hooks| && Replay(env, s.trace) == Some(Before(env, i) + h + 1)
    ensures Replay(env, Log(s, Exit(i, h)).trace) == Some(Before(env, i) + h)
  {
    ReplayLog(env, s, Exit(i, h));
  }

  lemma {:induction false} RunBrackets(env: Env, s: State, i: nat, h: nat, ref: Ref)
    requires At(env, i, h) && Shaped(env, s) && RefersInto(s, ref)
    requires Replay(env, s.trace) == Some(Before(env, i) + h)
    ensures Replay(env, Run(env, s, i, h, ref).0.trace) == Replay(env, s.trace)
    decreases |env.builders| - i, |env.builders[i].hooks| - h, 3
  {
    if h < |env.builders[i].hooks| {
      EnterOpens(env, s, i, h);
      ExecBrackets(env, Log(s, Enter(i, h)), i, h, ref, env.builders[i].hooks[h], Done);
      ExitCloses(env, Exec(env, Log(s, Enter(i, h)), i, h, ref, env.builders[i].hooks[h], Done).0, i, h);
    } else {
      LinkBrackets(env, s, i, ref);
    }
  }

  lemma {:induction false} InsertStays(env: Env, s: State)
    requires Shaped(env, s) && Replay(env, s.trace) == Some(Before(env, |env.builders|))
    ensures Replay(env, InsertAll(env, s).0.trace) == Replay(env, s.trace)
  {
    ReplayLog(env, s, Insert);
  }

  lemma {:induction false} LinkBrackets(env: Env, s: State, i: nat, ref: Ref)
    requires i < |env.builders| && Shaped(env, s) && RefersInto(s, ref)
    requires Replay(env, s.trace) == Some(Before(env, i + 1))
    ensures Replay(env, Link(env, s, i, ref).0.trace) == Replay(env, s.trace)
    decreases |env.builders| - i, 0, 2
  {
    if ref.Account? && Complaint(env.builders[i].schema, s.store[s.current[i]].m).None? {
      var ready := Specified(env, s, i, ref.at);
      ForwardBrackets(env, ready, i);
    }
  }

  lemma {:induction false} ForwardBrackets(env: Env, s: State, i: nat)
    requires i < |env.builders| && Shaped(env, s) && Replay(env, s.trace) == Some(Before(env, i + 1))
    ensures Replay(env, Forward(env, s, i).0.trace) == Replay(env, s.trace)
    decreases |env.builders| - i, 0, 1
  {
    if i + 1 < |env.builders| {
      RunBrackets(env, s, i + 1, 0, Account(s.current[i + 1]));
    } else {
      InsertStays(env, s);
    }
  }

  lemma {:induction false} ExecBrackets(env: Env, s: State, i: nat, h: nat, ref: Ref, hook: Hook, last: Outcome)
    requires At(env, i, h) && h < |env.builders[i].hooks| && Shaped(env, s) && RefersInto(s, ref)
    requires Replay(env, s.trace) == Some(Before(env, i) + h + 1)
    ensures Replay(env, Exec(env, s, i, h, ref, hook, last).0.trace) == Replay(env, s.trace)
    decreases |env.builders| - i, |env.builders[i].hooks| - h, 0, hook
  {
    match hook
    case Return(_) =>
    case Propagate =>
    case Edit(change, rest) =>
      ExecBrackets(env, Edited(s, ref, change), i, h, ref, rest, last);
    case When(test, yes, no) =>
      ExecBrackets(env, s, i, h, ref, if ref.Account? && test(s.store[ref.at].m) then yes else no, last);
    case Next(arg, onDone, onFailed) =>
      var (passed, passedRef) := Pass(s, ref, arg);
      assert passed.trace == s.trace;
      RunBrackets(env, passed, i, h + 1, passedRef);
      var (after, out) := Run(env, passed, i, h + 1, passedRef);
      ExecBrackets(env, after, i, h, ref, if out.Done? then onDone else onFailed, out);
  }

  /** Preparing the defaults neither calls hooks nor inserts. */
  lemma {:induction false} PreparedIsQuiet(env: Env, s: State, k: nat)
    requires k <= |env.builders| && Shaped(env, s)
    ensures Prepared(env, s, k) == s.(store := Prepared(env, s, k).store) && |Prepared(env, s, k).store| == |s.store|
  {
    if k > 0 {
      PreparedIsQuiet(env, s, k - 1);
    }
  }

  /** In every save hooks are entered and left like brackets, in the order of the builders and of their hooks,
      and every insert happens inside all of them. */
  lemma {:induction false} SaveIsBracketed(env: Env, s: State)
    requires Shaped(env, s) && s.trace == []
    ensures Replay(env, Saved(env, s).0.trace) == Some(0)
  {
    PreparedIsQuiet(env, s, |env.builders|);
    if |env.builders| > 0 {
      var ready := Prepared(env, s, |env.builders|);
      RunBrackets(env, ready, 0, 0, Account(ready.current[0]));
    }
  }

  // ----- How often the insert runs

  function Max(a: nat, b: nat): nat {
    if a < b then b else a
  }

  /** The most calls of next a hook can make. */
  function Calls(hook: Hook): nat {
    match hook
    case Return(_) => 0
    case Propagate => 0
    case Edit(_, rest) => Calls(rest)
    case When(_, yes, no) => Max(Calls(yes), Calls(no))
    case Next(_, onDone, onFailed) => 1 + Max(Calls(onDone), Calls(onFailed))
  }

  /** The product of two numbers, as repeated addition. */
  function Times(a: nat, b: nat): nat {
    if a == 0 then 0 else b + Times(a - 1, b)
  }

  /** The product of the calls of every hook from (i, h) inwards. */
  function Bound(env: Env, i: nat, h: nat): nat
    requires At(env, i, h)
    decreases |env.builders| - i, |env.builders[i].hooks| - h
  {
    if h < |env.builders[i].hooks| then Times(Calls(env.builders[i].hooks[h]), Bound(env, i, h + 1))
    else if i + 1 < |env.builders| then Bound(env, i + 1, 0)
    else 1
  }

  lemma {:induction false} RunInserts(env: Env, s: State, i: nat, h: nat, ref: Ref)
    requires At(env, i, h) && Shaped(env, s) && RefersInto(s, ref)
    ensures |Run(env, s, i, h, ref).0.batches| <= |s.batches| + Bound(env, i, h)
    decreases |env.builders| - i, |env.builders[i].hooks| - h, 3
  {
    if h < |env.builders[i].hooks| {
      ExecInserts(env, Log(s, Enter(i, h)), i, h, ref, env.builders[i].hooks[h], Done);
    } else {
      LinkInserts(env, s, i, ref);
    }
  }

  lemma {:induction false} LinkInserts(env: Env, s: State, i: nat, ref: Ref)
    requires i < |env.builders| && Shaped(env, s) && RefersInto(s, ref)
    ensures |Link(env, s, i, ref).0.batches| <= |s.batches| + if i + 1 < |env.builders| then Bound(env, i + 1, 0) else 1
    decreases |env.builders| - i, 0, 2
  {
    if ref.Account? && Complaint(env.builders[i].schema, s.store[s.current[i]].m).None? && i + 1 < |env.builders| {
      var ready := Specified(env, s, i, ref.at);
      RunInserts(env, ready, i + 1, 0, Account(ready.current[i + 1]));
    }
  }

  lemma {:induction false} ExecInserts(env: Env, s: State, i: nat, h: nat, ref: Ref, hook: Hook, last: Outcome)
    requires At(env, i, h) && h < |env.builders[i].hooks| && Shaped(env, s) && RefersInto(s, ref)
    ensures |Exec(env, s, i, h, ref, hook, last).0.batches| <= |s.batches| + Times(Calls(hook), Bound(env, i, h + 1))
    decreases |env.builders| - i, |env.builders[i].hooks| - h, 0, hook
  {
    match hook
    case Return(_) =>
    case Propagate =>
    case Edit(change, rest) =>
      ExecInserts(env, Edited(s, ref, change), i, h, ref, rest, last);
    case When(test, yes, no) =>
      var taken := if ref.Account? && test(s.store[ref.at].m) then yes else no;
      ExecInserts(env, s, i, h, ref, taken, last);
      Monotone(Calls(taken), Calls(hook), Bound(env, i, h + 1));
    case Next(arg, onDone, onFailed) =>
      var (passed, passedRef) := Pass(s, ref, arg);
      RunInserts(env, passed, i, h + 1, passedRef);
      var (after, out) := Run(env, passed, i, h + 1, passedRef);
      var taken := if out.Done? then onDone else onFailed;
      ExecInserts(env, after, i, h, ref, taken, out);
      Monotone(1 + Calls(taken), Calls(hook), Bound(env, i, h + 1));
  }

  lemma {:induction false} Monotone(a: nat, b: nat, k: nat)
    requires a <= b
    ensures Times(a, k) <= Times(b, k)
    decreases b
  {
    if a < b {
      Monotone(a, b - 1, k);
    }
  }

  lemma {:induction false} SingleCalls(env: Env, i: nat, h: nat)
    requires At(env, i, h)
    requires forall j, k | 0 <= j < |env.builders| && 0 <= k < |env.builders[j].hooks| :: Calls(env.builders[j].hooks[k]) <= 1
    ensures Bound(env, i, h) <= 1
    decreases |env.builders| - i, |env.builders[i].hooks| - h
  {
    if h < |env.builders[i].hooks| {
      SingleCalls(env, i, h + 1);
      assert Calls(env.builders[i].hooks[h]) <= 1;
    } else if i + 1 < |env.builders| {
      SingleCalls(env, i + 1, 0);
    }
  }

  /** A save inserts at most as often as the product of its hooks' calls of next; at most once when no hook
      calls next twice. */
  lemma {:induction false} SaveInsertsAtMost(env: Env, s: State)
    requires Shaped(env, s) && s.batches == []
    ensures |env.builders| == 0 ==> Saved(env, s).0.batches == [] && Saved(env, s).1 == Success([])
    ensures |env.builders| > 0 ==> |Saved(env, s).0.batches| <= Bound(env, 0, 0)
    ensures (forall j, k | 0 <= j < |env.builders| && 0 <= k < |env.builders[j].hooks| :: Calls(env.builders[j].hooks[k]) <= 1)
      ==> |Saved(env, s).0.batches| <= 1
  {
    PreparedIsQuiet(env, s, |env.builders|);
    if |env.builders| > 0 {
      var ready := Prepared(env, s, |env.builders|);
      RunInserts(env, ready, 0, 0, Account(ready.current[0]));
      if forall j, k | 0 <= j < |env.builders| && 0 <= k < |env.builders[j].hooks| :: Calls(env.builders[j].hooks[k]) <= 1 {
        SingleCalls(env, 0, 0);
      }
    }
  }

  // ----- A hook that does not call next

  /** An event no deeper than hook `h` of builder `i`. */
  predicate NotBeyond(e: Event, i: nat, h: nat) {
    match e
    case Enter(j, k) => j < i || (j == i && k <= h)
    case Exit(j, k) => j < i || (j == i && k <= h)
    case Insert => false
  }

  predicate AllNotBeyond(trace: seq<Event>, i: nat, h: nat) {
    forall e | e in trace :: NotBeyond(e, i, h)
  }

  /** Nothing beyond the hook has happened between two states. */
  ghost predicate StopsAt(s: State, after: State, i: nat, h: nat)
    requires i <= |s.nodes| && i <= |after.nodes| && i <= |s.specs| && i <= |after.specs|
  {
    && after.batches == s.batches && after.nodes[i..] == s.nodes[i..] && after.specs[i..] == s.specs[i..]
    && (AllNotBeyond(s.trace, i, h) ==> AllNotBeyond(after.trace, i, h))
  }

  lemma {:induction false} RunStops(env: Env, s: State, i: nat, h: nat, ref: Ref, i': nat, h': nat)
    requires At(env, i, h) && Shaped(env, s) && RefersInto(s, ref)
    requires At(env, i', h') && h' < |env.builders[i'].hooks| && Calls(env.builders[i'].hooks[h']) == 0
    requires i < i' || (i == i' && h <= h')
    ensures StopsAt(s, Run(env, s, i, h, ref).0, i', h')
    decreases |env.builders| - i, |env.builders[i].hooks| - h, 3
  {
    if h < |env.builders[i].hooks| {
      ExecStops(env, Log(s, Enter(i, h)), i, h, ref, env.builders[i].hooks[h], Done, i', h');
    } else {
      LinkStops(env, s, i, ref, i', h');
    }
  }

  lemma {:induction false} LinkStops(env: Env, s: State, i: nat, ref: Ref, i': nat, h': nat)
    requires i < |env.builders| && Shaped(env, s) && RefersInto(s, ref)
    requires At(env, i', h') && h' < |env.builders[i'].hooks| && Calls(env.builders[i'].hooks[h']) == 0
    requires i < i'
    ensures StopsAt(s, Link(env, s, i, ref).0, i', h')
    decreases |env.builders| - i, 0, 2
  {
    if ref.Account? && Complaint(env.builders[i].schema, s.store[s.current[i]].m).None? {
      var ready := Specified(env, s, i, ref.at);
      RunStops(env, ready, i + 1, 0, Account(ready.current[i + 1]), i', h');
    }
  }

  lemma {:induction false} ExecStops(env: Env, s: State, i: nat, h: nat, ref: Ref, hook: Hook, last: Outcome, i': nat, h': nat)
    requires At(env, i, h) && h < |env.builders[i].hooks| && Shaped(env, s) && RefersInto(s, ref)
    requires At(env, i', h') && h' < |env.builders[i'].hooks| && Calls(env.builders[i'].hooks[h']) == 0
    requires i < i' || (i == i' && h <= h')
    requires i == i' && h == h' ==> Calls(hook) == 0
    ensures StopsAt(s, Exec(env, s, i, h, ref, hook, last).0, i', h')
    decreases |env.builders| - i, |env.builders[i].hooks| - h, 0, hook
  {
    match hook
    case Return(_) =>
    case Propagate =>
    case Edit(change, rest) =>
      ExecStops(env, Edited(s, ref, change), i, h, ref, rest, last, i', h');
    case When(test, yes, no) =>
      ExecStops(env, s, i, h, ref, if ref.Account? && test(s.store[ref.at].m) then yes else no, last, i', h');
    case Next(arg, onDone, onFailed) =>
      var (passed, passedRef) := Pass(s, ref, arg);
      RunStops(env, passed, i, h + 1, passedRef, i', h');
      var (after, out) := Run(env, passed, i, h + 1, passedRef);
      ExecStops(env, after, i, h, ref, if out.Done? then onDone else onFailed, out, i', h');
  }

  /** A hook that never calls next keeps the insert, its own builder and every later builder from happening. */
  lemma {:induction false} SilentHookStopsTheChain(env: Env, s: State, i: nat, h: nat)
    requires Shaped(env, s) && s.trace == []
    requires At(env, i, h) && h < |env.builders[i].hooks| && Calls(env.builders[i].hooks[h]) == 0
    ensures StopsAt(s, Saved(env, s).0, i, h) && AllNotBeyond(Saved(env, s).0.trace, i, h)
  {
    PreparedIsQuiet(env, s, |env.builders|);
    var ready := Prepared(env, s, |env.builders|);
    RunStops(env, ready, 0, 0, Account(ready.current[0]), i, h);
  }

  /** An insert asks the database once, and each spec has the key reported for it, or else the one it had. */
  lemma {:induction false} InsertReports(env: Env, s: State)
    requires Shaped(env, s)
    ensures var (after, out) := InsertAll(env, s);
      && after.batches == s.batches + [Batch(s.specs, Held(s.store, s.current))] && after.store == s.store && after.nodes == s.nodes
      && (out.Done? <==> env.db(|s.batches|).Inserted?)
      && (out.Done? ==> forall j | 0 <= j < |env.builders| ::
            after.ids[j] == if env.db(|s.batches|).ids(j).Some? then env.db(|s.batches|).ids(j) else s.ids[j])
  {
  }

  /** A mutation of another entity, passed on by the innermost hook, is refused by the link: nothing is checked, made or
      inserted. */
  lemma {:induction false} OtherEntityIsRefused(env: Env, s: State, i: nat, ref: Ref, last: Outcome)
    requires i < |env.builders| && env.builders[i].hooks != [] && Shaped(env, s) && RefersInto(s, ref)
    ensures Exec(env, s, i, |env.builders[i].hooks| - 1, ref, Next(OtherEntity, Propagate, Propagate), last) == (s, Failed(WrongMutation))
  {
    var n := |env.builders[i].hooks|;
    assert Run(env, s, i, n, Foreign) == Link(env, s, i, Foreign);
  }
}
