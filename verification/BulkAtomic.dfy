/** What a bulk save does when its hooks call next once and report what next reported. */
module BulkAtomic {
  import opened Wrappers
  import opened Columns
  import opened Create
  import opened BulkCreate
  import opened BulkLaws
  import opened BulkHeld

  // ----- Hooks that forward

  /** After next: a hook that ends with the outcome of its last call, whatever it inspects or edits. */
  predicate Tail(hook: Hook) {
    match hook
    case Return(_) => false
    case Propagate => true
    case Edit(_, rest) => Tail(rest)
    case When(_, yes, no) => Tail(yes) && Tail(no)
    case Next(_, _, _) => false
  }

  /** A hook that calls next exactly once, with the mutation it was given or another account mutation, and reports
      its outcome. */
  predicate Forwards(hook: Hook) {
    match hook
    case Return(_) => false
    case Propagate => false
    case Edit(_, rest) => Forwards(rest)
    case When(_, yes, no) => Forwards(yes) && Forwards(no)
    case Next(arg, onDone, onFailed) => !arg.OtherEntity? && Tail(onDone) && Tail(onFailed)
  }

  predicate AllForward(env: Env) {
    forall j, k | 0 <= j < |env.builders| && 0 <= k < |env.builders[j].hooks| :: Forwards(env.builders[j].hooks[k])
  }

  /** What the hook has made of its mutation when it calls next, and what it passes. */
  function AtNext(hook: Hook, m: Mutation): (Mutation, Arg)
    requires Forwards(hook)
  {
    match hook
    case Edit(change, rest) => AtNext(rest, change(m))
    case When(test, yes, no) => AtNext(if test(m) then yes else no, m)
    case Next(arg, _, _) => (m, arg)
  }

  function PassedOn(hook: Hook, m: Mutation): Mutation
    requires Forwards(hook)
  {
    var (edited, arg) := AtNext(hook, m);
    if arg.Fresh? then arg.m else edited
  }

  /** What arrives at the link, from hook `h` on. */
  function Arrives(hooks: seq<Hook>, h: nat, m: Mutation): Mutation
    requires h <= |hooks| && forall k | 0 <= k < |hooks| :: Forwards(hooks[k])
    decreases |hooks| - h
  {
    if h < |hooks| then Arrives(hooks, h + 1, PassedOn(hooks[h], m)) else m
  }

  /** What the builder's own mutation is by then: no longer edited once a hook has replaced it. */
  function Remains(hooks: seq<Hook>, h: nat, m: Mutation): Mutation
    requires h <= |hooks| && forall k | 0 <= k < |hooks| :: Forwards(hooks[k])
    decreases |hooks| - h
  {
    if h == |hooks| then m
    else if AtNext(hooks[h], m).1.Fresh? then AtNext(hooks[h], m).0
    else Remains(hooks, h + 1, AtNext(hooks[h], m).0)
  }

  // ----- The plan

  /** The mutations that will arrive at the links, and those that the checks will look at. */
  datatype Plan = Plan(arriving: seq<Mutation>, checked: seq<Mutation>)

  /** Builders from `i` on still hold their own mutations. */
  predicate Waiting(env: Env, s: State, i: nat) {
    Shaped(env, s) && |env.builders| <= |s.store| && forall j | i <= j < |env.builders| :: s.current[j] == j
  }

  /** The mutation passed to builder `i` is its own or a new one, and no earlier builder holds it or a later one's. */
  predicate Separated(env: Env, s: State, i: nat, at: nat)
    requires Shaped(env, s) && i < |env.builders|
  {
    && at < |s.store| && (at == i || |env.builders| <= at)
    && forall j | 0 <= j < i :: s.current[j] != at && (s.current[j] < i || |env.builders| <= s.current[j])
  }

  predicate Sized(env: Env, plan: Plan) {
    |plan.arriving| == |plan.checked| == |env.builders|
  }

  /** The plan for builders after `i`. */
  predicate PlannedAfter(env: Env, s: State, i: nat, plan: Plan)
    requires AllForward(env) && Sized(env, plan) && Waiting(env, s, i)
  {
    forall j | i < j < |env.builders| ::
      && plan.arriving[j] == Arrives(env.builders[j].hooks, 0, s.store[j].m)
      && plan.checked[j] == Remains(env.builders[j].hooks, 0, s.store[j].m)
  }

  /** The plan when mutator `i` is entered at hook `h` with the mutation at `at`. */
  predicate Planned(env: Env, s: State, i: nat, h: nat, at: nat, plan: Plan)
    requires AllForward(env) && At(env, i, h) && Waiting(env, s, i) && at < |s.store|
  {
    && Sized(env, plan) && PlannedAfter(env, s, i, plan)
    && plan.arriving[i] == Arrives(env.builders[i].hooks, h, s.store[at].m)
    && plan.checked[i] == if at == i then Remains(env.builders[i].hooks, h, s.store[i].m) else s.store[i].m
  }

  /** The plan in the middle of a hook. */
  predicate PlannedInHook(env: Env, s: State, i: nat, h: nat, at: nat, hook: Hook, plan: Plan)
    requires AllForward(env) && At(env, i, h) && h < |env.builders[i].hooks| && Forwards(hook) && Waiting(env, s, i) && at < |s.store|
  {
    && Sized(env, plan) && PlannedAfter(env, s, i, plan)
    && plan.arriving[i] == Arrives(env.builders[i].hooks, h + 1, PassedOn(hook, s.store[at].m))
    && var (edited, arg) := AtNext(hook, s.store[at].m);
       plan.checked[i] ==
         if at != i then s.store[i].m else if arg.Fresh? then edited else Remains(env.builders[i].hooks, h + 1, edited)
  }

  /** The first complaint of a check. */
  function FirstFault(env: Env, checked: seq<Mutation>, i: nat): Option<CheckError>
    requires i <= |checked| == |env.builders|
    decreases |checked| - i
  {
    if i == |checked| then None
    else if Complaint(env.builders[i].schema, checked[i]).Some? then Complaint(env.builders[i].schema, checked[i])
    else FirstFault(env, checked, i + 1)
  }

  function SpecsFrom(arriving: seq<Mutation>, i: nat): seq<Option<Spec>>
    requires i <= |arriving|
    decreases |arriving| - i
  {
    if i == |arriving| then [] else [Some(SpecOf(arriving[i]))] + SpecsFrom(arriving, i + 1)
  }

  /** What hooks and database see from hook `h` of builder `i` on: every hook is entered once, down to the first
      fault or, without one, to the insert, and they are left in reverse. */
  function ExpectedTrace(env: Env, checked: seq<Mutation>, i: nat, h: nat): seq<Event>
    requires |checked| == |env.builders| && At(env, i, h)
    decreases |env.builders| - i, |env.builders[i].hooks| - h
  {
    if h < |env.builders[i].hooks| then [Enter(i, h)] + ExpectedTrace(env, checked, i, h + 1) + [Exit(i, h)]
    else if Complaint(env.builders[i].schema, checked[i]).Some? then []
    else if i + 1 < |env.builders| then ExpectedTrace(env, checked, i + 1, 0)
    else [Insert]
  }

  // ----- The outcome

  /** The mutation at `x` has the mark it had, or none if it is new. */
  predicate KeepsMark(before: seq<Object>, after: seq<Object>, x: nat)
    requires x < |after|
  {
    if x < |before| then after[x].id == before[x].id && after[x].done == before[x].done
    else after[x].id == None && !after[x].done
  }

  predicate KeepsMarks(before: seq<Object>, after: seq<Object>) {
    |before| <= |after| && forall x | 0 <= x < |after| :: KeepsMark(before, after, x)
  }

  lemma {:induction false} KeepsMarksTwice(before: seq<Object>, mid: seq<Object>, after: seq<Object>)
    requires KeepsMarks(before, mid) && KeepsMarks(mid, after)
    ensures KeepsMarks(before, after)
  {
    forall x | 0 <= x < |after| ensures KeepsMark(before, after, x) {
      assert KeepsMark(mid, after, x) && (x < |mid| ==> KeepsMark(before, mid, x));
    }
  }

  /** The mutation that builder `j` holds is done, and its node is complete. */
  predicate Completed(after: State, j: nat, m: Mutation, id: Option<int>)
    requires j < |after.nodes| && j < |after.current|
  {
    && after.nodes[j] == Some(if id.Some? then NodeOf(m)[ID := Plain(Int(id.value))] else NodeOf(m))
    && after.current[j] < |after.store| && after.store[after.current[j]].done
    && after.store[after.current[j]].id == Some(if id.Some? then id.value else 0)
  }

  /** All builders from `i` on are complete, and no other mutation is. */
  predicate CompletedFrom(env: Env, s: State, after: State, plan: Plan, ids: nat -> Option<int>, i: nat)
    requires Shaped(env, s) && Shaped(env, after) && Sized(env, plan) && i <= |env.builders|
  {
    && |s.store| <= |after.store|
    && after.ids[..i] == Reported(s.ids, ids)[..i] && (forall j | i <= j < |env.builders| :: after.ids[j] == ids(j))
    && (forall j | i <= j < |env.builders| :: Completed(after, j, plan.arriving[j], ids(j)))
    && (forall x | 0 <= x < |after.store| && x !in after.current[i..] :: KeepsMark(s.store, after.store, x))
  }

  function RefusalOf(constraint: bool): Error {
    if constraint then ConstraintError else DriverError
  }

  /** The first fault stops everything; without one there is one insert, and it decides for all. */
  predicate AllOrNothing(env: Env, s: State, after: State, out: Outcome, plan: Plan, i: nat)
    requires Shaped(env, s) && Shaped(env, after) && Sized(env, plan) && i <= |env.builders|
  {
    match FirstFault(env, plan.checked, i)
    case Some(e) => out == Failed(Rejected(e)) && after.batches == s.batches && KeepsMarks(s.store, after.store)
    case None =>
      && after.batches == s.batches + [Batch(s.specs[..i] + SpecsFrom(plan.arriving, i), Held(s.store, s.current)[..i] + plan.arriving[i..])]
      && match env.db(|s.batches|)
         case Refused(constraint) => out == Failed(RefusalOf(constraint)) && KeepsMarks(s.store, after.store)
         case Inserted(ids) => out == Done && CompletedFrom(env, s, after, plan, ids, i)
  }

  // ----- Around one call of next

  /** States that differ only in what is set on the mutations of the first one, in unmarked new ones, and in the trace. */
  predicate SameButMutations(s: State, after: State) {
    && after == s.(store := after.store, trace := after.trace)
    && KeepsMarks(s.store, after.store)
  }

  lemma {:induction false} TailPropagates(env: Env, s: State, i: nat, h: nat, ref: Ref, hook: Hook, last: Outcome)
    requires At(env, i, h) && h < |env.builders[i].hooks| && Shaped(env, s) && RefersInto(s, ref) && Tail(hook)
    ensures var (after, out) := Exec(env, s, i, h, ref, hook, last);
      SameButMutations(s, after) && |after.store| == |s.store| && after.trace == s.trace && out == last
    decreases hook
  {
    match hook
    case Propagate =>
    case Edit(change, rest) =>
      var edited := Edited(s, ref, change);
      TailPropagates(env, edited, i, h, ref, rest, last);
      KeepsMarksTwice(s.store, edited.store, Exec(env, edited, i, h, ref, rest, last).0.store);
    case When(test, yes, no) =>
      TailPropagates(env, s, i, h, ref, if ref.Account? && test(s.store[ref.at].m) then yes else no, last);
  }

  /** Edits before and after do not change what is all or nothing. */
  lemma {:induction false} AllOrNothingKept(env: Env, s0: State, s: State, mid: State, after: State, out: Outcome, plan: Plan, i: nat)
    requires Shaped(env, s0) && Shaped(env, s) && Shaped(env, mid) && Shaped(env, after) && Sized(env, plan) && i <= |env.builders|
    requires SameButMutations(s0, s) && Held(s0.store, s0.current)[..i] == Held(s.store, s.current)[..i]
    requires SameButMutations(mid, after) && |after.store| == |mid.store|
    requires AllOrNothing(env, s, mid, out, plan, i)
    ensures AllOrNothing(env, s0, after, out, plan, i)
  {
    if FirstFault(env, plan.checked, i).None? && env.db(|s.batches|).Inserted? {
      CompletedKept(env, s0, s, mid, after, plan, env.db(|s.batches|).ids, i);
    } else {
      KeepsMarksTwice(s0.store, s.store, mid.store);
      KeepsMarksTwice(s0.store, mid.store, after.store);
    }
  }

  lemma {:induction false} CompletedKept(env: Env, s0: State, s: State, mid: State, after: State, plan: Plan, ids: nat -> Option<int>, i: nat)
    requires Shaped(env, s0) && Shaped(env, s) && Shaped(env, mid) && Shaped(env, after) && Sized(env, plan) && i <= |env.builders|
    requires SameButMutations(s0, s) && SameButMutations(mid, after) && |after.store| == |mid.store|
    requires CompletedFrom(env, s, mid, plan, ids, i)
    ensures CompletedFrom(env, s0, after, plan, ids, i)
  {
    forall j | i <= j < |env.builders| ensures Completed(after, j, plan.arriving[j], ids(j)) {
      assert Completed(mid, j, plan.arriving[j], ids(j)) && KeepsMark(mid.store, after.store, mid.current[j]);
    }
    forall x | 0 <= x < |after.store| && x !in after.current[i..] ensures KeepsMark(s0.store, after.store, x) {
      assert KeepsMark(s.store, mid.store, x) && KeepsMark(mid.store, after.store, x) && (x < |s.store| ==> KeepsMark(s0.store, s.store, x));
    }
  }

  lemma {:induction false} HeldApart(env: Env, s: State, i: nat, at: nat, change: Mutation -> Mutation)
    requires Shaped(env, s) && i < |env.builders| && Separated(env, s, i, at)
    ensures Held(Edited(s, Account(at), change).store, s.current)[..i] == Held(s.store, s.current)[..i]
  {
  }

  lemma {:induction false} HeldPrefix(s: State, passed: State, i: nat)
    requires i <= |s.current| && s.current == passed.current && s.store <= passed.store
    requires forall j | 0 <= j < |s.current| :: s.current[j] < |s.store|
    ensures Held(passed.store, passed.current)[..i] == Held(s.store, s.current)[..i]
  {
  }

  // ----- The chain

  ghost predicate Outcomes(env: Env, s: State, r: (State, Outcome), plan: Plan, i: nat, trace: seq<Event>)
    requires Shaped(env, s) && Sized(env, plan) && i <= |env.builders|
  {
    Shaped(env, r.0) && AllOrNothing(env, s, r.0, r.1, plan, i) && r.0.trace == s.trace + trace
  }

  lemma {:induction false} RunAllOrNothing(env: Env, s: State, i: nat, h: nat, at: nat, plan: Plan)
    requires AllForward(env) && At(env, i, h) && Waiting(env, s, i) && Separated(env, s, i, at) && Planned(env, s, i, h, at, plan)
    ensures Outcomes(env, s, Run(env, s, i, h, Account(at)), plan, i, ExpectedTrace(env, plan.checked, i, h))
    decreases |env.builders| - i, |env.builders[i].hooks| - h, 3
  {
    if h < |env.builders[i].hooks| {
      var entered := Log(s, Enter(i, h));
      ExecAllOrNothing(env, entered, i, h, at, env.builders[i].hooks[h], Done, plan);
      var (left, out) := Exec(env, entered, i, h, Account(at), env.builders[i].hooks[h], Done);
      AllOrNothingKept(env, s, entered, left, Log(left, Exit(i, h)), out, plan, i);
    } else {
      LinkAllOrNothing(env, s, i, at, plan);
    }
  }

  lemma {:induction false} ExecAllOrNothing(env: Env, s: State, i: nat, h: nat, at: nat, hook: Hook, last: Outcome, plan: Plan)
    requires AllForward(env) && At(env, i, h) && h < |env.builders[i].hooks| && Forwards(hook)
    requires Waiting(env, s, i) && Separated(env, s, i, at) && PlannedInHook(env, s, i, h, at, hook, plan)
    ensures Outcomes(env, s, Exec(env, s, i, h, Account(at), hook, last), plan, i, ExpectedTrace(env, plan.checked, i, h + 1))
    decreases |env.builders| - i, |env.builders[i].hooks| - h, 0, hook
  {
    match hook
    case Edit(change, rest) =>
      var edited := Edited(s, Account(at), change);
      EditPlanned(env, s, i, h, at, hook, plan);
      ExecAllOrNothing(env, edited, i, h, at, rest, last, plan);
      EditAllOrNothing(env, s, i, at, change, Exec(env, edited, i, h, Account(at), rest, last), plan, ExpectedTrace(env, plan.checked, i, h + 1));
    case When(test, yes, no) =>
      ExecAllOrNothing(env, s, i, h, at, if test(s.store[at].m) then yes else no, last, plan);
    case Next(arg, onDone, onFailed) =>
      var (passed, passedRef) := Pass(s, Account(at), arg);
      NextPlanned(env, s, i, h, at, hook, plan);
      RunAllOrNothing(env, passed, i, h + 1, passedRef.at, plan);
      var (mid, out) := Run(env, passed, i, h + 1, passedRef);
      ExecNext(env, s, i, h, at, hook, last);
      NextAllOrNothing(env, s, passed, mid, out, i, h, at, if out.Done? then onDone else onFailed, plan, ExpectedTrace(env, plan.checked, i, h + 1));
  }

  lemma {:induction false} EditPlanned(env: Env, s: State, i: nat, h: nat, at: nat, hook: Hook, plan: Plan)
    requires AllForward(env) && At(env, i, h) && h < |env.builders[i].hooks| && Forwards(hook) && hook.Edit?
    requires Waiting(env, s, i) && Separated(env, s, i, at) && PlannedInHook(env, s, i, h, at, hook, plan)
    ensures var edited := Edited(s, Account(at), hook.change);
      Waiting(env, edited, i) && Separated(env, edited, i, at) && PlannedInHook(env, edited, i, h, at, hook.rest, plan)
  {
  }

  lemma {:induction false} EditAllOrNothing(env: Env, s: State, i: nat, at: nat, change: Mutation -> Mutation, r: (State, Outcome), plan: Plan, trace: seq<Event>)
    requires Shaped(env, s) && i < |env.builders| && Separated(env, s, i, at) && Sized(env, plan)
    requires Outcomes(env, Edited(s, Account(at), change), r, plan, i, trace)
    ensures Outcomes(env, s, r, plan, i, trace)
  {
    HeldApart(env, s, i, at, change);
    AllOrNothingKept(env, s, Edited(s, Account(at), change), r.0, r.0, r.1, plan, i);
  }

  lemma {:induction false} NextPlanned(env: Env, s: State, i: nat, h: nat, at: nat, hook: Hook, plan: Plan)
    requires AllForward(env) && At(env, i, h) && h < |env.builders[i].hooks| && Forwards(hook) && hook.Next?
    requires Waiting(env, s, i) && Separated(env, s, i, at) && PlannedInHook(env, s, i, h, at, hook, plan)
    ensures var (passed, ref) := Pass(s, Account(at), hook.arg);
      && ref.Account? && Waiting(env, passed, i) && Separated(env, passed, i, ref.at)
      && Planned(env, passed, i, h + 1, ref.at, plan)
  {
  }

  lemma {:induction false} ExecNext(env: Env, s: State, i: nat, h: nat, at: nat, hook: Hook, last: Outcome)
    requires At(env, i, h) && h < |env.builders[i].hooks| && hook.Next? && Shaped(env, s) && at < |s.store|
    ensures var (passed, ref) := Pass(s, Account(at), hook.arg);
      var (mid, out) := Run(env, passed, i, h + 1, ref);
      Exec(env, s, i, h, Account(at), hook, last) == Exec(env, mid, i, h, Account(at), if out.Done? then hook.onDone else hook.onFailed, out)
  {
  }

  /** From the outcome of the call of next to that of the hook. */
  lemma {:induction false} NextAllOrNothing(env: Env, s: State, passed: State, mid: State, out: Outcome, i: nat, h: nat, at: nat, tail: Hook, plan: Plan, trace: seq<Event>)
    requires At(env, i, h) && h < |env.builders[i].hooks| && Tail(tail)
    requires Shaped(env, s) && Shaped(env, passed) && at < |s.store| && Sized(env, plan) && at < |mid.store|
    requires passed == s.(store := passed.store) && s.store <= passed.store && KeepsMarks(s.store, passed.store)
    requires Outcomes(env, passed, (mid, out), plan, i, trace)
    ensures Outcomes(env, s, Exec(env, mid, i, h, Account(at), tail, out), plan, i, trace)
  {
    TailPropagates(env, mid, i, h, Account(at), tail, out);
    HeldPrefix(s, passed, i);
    AllOrNothingKept(env, s, passed, mid, Exec(env, mid, i, h, Account(at), tail, out).0, out, plan, i);
  }

  lemma {:induction false} LinkAllOrNothing(env: Env, s: State, i: nat, at: nat, plan: Plan)
    requires AllForward(env) && i < |env.builders| && Waiting(env, s, i) && Separated(env, s, i, at)
    requires Sized(env, plan) && PlannedAfter(env, s, i, plan)
    requires plan.arriving[i] == s.store[at].m && plan.checked[i] == s.store[i].m
    ensures Outcomes(env, s, Link(env, s, i, Account(at)), plan, i, ExpectedTrace(env, plan.checked, i, |env.builders[i].hooks|))
    decreases |env.builders| - i, 0, 2
  {
    if Complaint(env.builders[i].schema, plan.checked[i]).None? {
      var ready := Specified(env, s, i, at);
      ForwardAllOrNothing(env, ready, i, plan);
      var (mid, out) := Forward(env, ready, i);
      assert mid.nodes[..i + 1][i] == ready.nodes[..i + 1][i];
      StillApart(env, s, i, at);
      LinkCompletes(env, s, mid, out, i, at, plan);
    }
  }

  lemma {:induction false} ForwardAllOrNothing(env: Env, s: State, i: nat, plan: Plan)
    requires AllForward(env) && i < |env.builders| && Waiting(env, s, i + 1) && Sized(env, plan)
    requires i + 1 < |env.builders| ==> Separated(env, s, i + 1, i + 1) && Planned(env, s, i + 1, 0, i + 1, plan)
    ensures Outcomes(env, s, Forward(env, s, i), plan, i + 1,
      if i + 1 < |env.builders| then ExpectedTrace(env, plan.checked, i + 1, 0) else [Insert])
    decreases |env.builders| - i, 0, 1
  {
    if i + 1 < |env.builders| {
      RunAllOrNothing(env, s, i + 1, 0, i + 1, plan);
    } else {
      InsertAllOrNothing(env, s, plan);
    }
  }

  lemma {:induction false} InsertAllOrNothing(env: Env, s: State, plan: Plan)
    requires Shaped(env, s) && Sized(env, plan)
    ensures Outcomes(env, s, InsertAll(env, s), plan, |env.builders|, [Insert])
  {
    var n := |env.builders|;
    assert s.specs[..n] + SpecsFrom(plan.arriving, n) == s.specs;
    assert Held(s.store, s.current)[..n] + plan.arriving[n..] == Held(s.store, s.current);
  }

  /** The later links leave the mutation of link `i` to it. */
  lemma {:induction false} StillApart(env: Env, s: State, i: nat, at: nat)
    requires i < |env.builders| && Waiting(env, s, i) && Separated(env, s, i, at)
    ensures var after := Forward(env, Specified(env, s, i, at), i).0;
      after.current[i] == at && forall k | i < k < |env.builders| :: after.current[k] != at
  {
    var ready := Specified(env, s, i, at);
    var after := Forward(env, ready, i).0;
    ForwardTakesNew(env, ready, i);
    assert after.current[i] == after.current[..i + 1][i] == ready.current[..i + 1][i];
  }

  lemma {:induction false} SpecsExtend(specs: seq<Option<Spec>>, arriving: seq<Mutation>, i: nat)
    requires i < |arriving| == |specs|
    ensures specs[i := Some(SpecOf(arriving[i]))][..i + 1] + SpecsFrom(arriving, i + 1) == specs[..i] + SpecsFrom(arriving, i)
  {
    assert specs[i := Some(SpecOf(arriving[i]))][..i + 1] == specs[..i] + [Some(SpecOf(arriving[i]))];
  }

  lemma {:induction false} HeldExtends(env: Env, s: State, i: nat, at: nat, arriving: seq<Mutation>)
    requires Shaped(env, s) && i < |env.builders| == |arriving| && at < |s.store| && arriving[i] == s.store[at].m
    ensures var ready := Specified(env, s, i, at);
      Held(ready.store, ready.current)[..i + 1] + arriving[i + 1..] == Held(s.store, s.current)[..i] + arriving[i..]
  {
    var ready := Specified(env, s, i, at);
    assert Held(ready.store, ready.current)[..i + 1] == Held(s.store, s.current)[..i] + [arriving[i]];
  }

  /** From the outcome of the later links to the outcome including link `i`. */
  lemma {:induction false} LinkCompletes(env: Env, s: State, mid: State, out: Outcome, i: nat, at: nat, plan: Plan)
    requires i < |env.builders| && Shaped(env, s) && Shaped(env, mid) && at < |s.store| && Sized(env, plan)
    requires plan.arriving[i] == s.store[at].m && Complaint(env.builders[i].schema, plan.checked[i]).None?
    requires mid.nodes[i] == Some(NodeOf(plan.arriving[i])) && |s.store| <= |mid.store|
    requires mid.current[i] == at && forall k | i < k < |env.builders| :: mid.current[k] != at
    requires AllOrNothing(env, Specified(env, s, i, at), mid, out, plan, i + 1)
    ensures var after := if out.Done? then Finished(env, mid, i, at) else mid; AllOrNothing(env, s, after, out, plan, i)
  {
    SpecsExtend(s.specs, plan.arriving, i);
    HeldExtends(env, s, i, at, plan.arriving);
    if FirstFault(env, plan.checked, i).None? && env.db(|s.batches|).Inserted? {
      FinishedCompletes(env, s, mid, env.db(|s.batches|).ids, i, at, plan);
    }
  }

  lemma {:induction false} FinishedCompletes(env: Env, s: State, mid: State, ids: nat -> Option<int>, i: nat, at: nat, plan: Plan)
    requires i < |env.builders| && Shaped(env, s) && Shaped(env, mid) && at < |s.store| && Sized(env, plan)
    requires mid.nodes[i] == Some(NodeOf(plan.arriving[i])) && |s.store| <= |mid.store|
    requires mid.current[i] == at && forall k | i < k < |env.builders| :: mid.current[k] != at
    requires CompletedFrom(env, Specified(env, s, i, at), mid, plan, ids, i + 1)
    ensures CompletedFrom(env, s, Finished(env, mid, i, at), plan, ids, i)
  {
    var ready, after := Specified(env, s, i, at), Finished(env, mid, i, at);
    assert mid.ids[i] == mid.ids[..i + 1][i] == Reported(ready.ids, ids)[..i + 1][i] == ids(i);
    assert after.ids[..i] == mid.ids[..i + 1][..i] == Reported(ready.ids, ids)[..i + 1][..i] == Reported(s.ids, ids)[..i];
    assert mid.current[i..] == [at] + mid.current[i + 1..];
    forall j | i < j < |env.builders| ensures Completed(after, j, plan.arriving[j], ids(j)) {
      assert Completed(mid, j, plan.arriving[j], ids(j));
    }
    forall x | 0 <= x < |after.store| && x !in after.current[i..] ensures KeepsMark(s.store, after.store, x) {
      assert KeepsMark(ready.store, mid.store, x);
    }
  }

  // ----- The whole save

  /** Each builder's mutation with its defaults. */
  function Filled(env: Env, mutations: seq<Mutation>): (r: seq<Mutation>)
    requires |mutations| == |env.builders|
    ensures |r| == |mutations|
  {
    seq(|mutations|, j requires 0 <= j < |mutations| => Defaulted(env.builders[j].schema, mutations[j], DEFAULTED).0)
  }

  function PlanOf(env: Env, mutations: seq<Mutation>): (plan: Plan)
    requires AllForward(env) && |mutations| == |env.builders|
    ensures Sized(env, plan)
  {
    var filled := Filled(env, mutations);
    Plan(seq(|filled|, j requires 0 <= j < |filled| => Arrives(env.builders[j].hooks, 0, filled[j])),
         seq(|filled|, j requires 0 <= j < |filled| => Remains(env.builders[j].hooks, 0, filled[j])))
  }

  predicate NothingDone(s: State) {
    forall o | o in s.store :: !o.done && o.id == None
  }

  /** Only the mutations that builders hold are done. */
  predicate OnlyHeldDone(s: State) {
    forall x | 0 <= x < |s.store| && x !in s.current :: !s.store[x].done && s.store[x].id == None
  }

  lemma {:induction false} StartsClean(env: Env, mutations: seq<Mutation>)
    requires AllForward(env) && |mutations| == |env.builders| > 0
    ensures var ready := Prepared(env, Begun(mutations), |env.builders|);
      && ready == Begun(mutations).(store := ready.store) && |ready.store| == |mutations|
      && Waiting(env, ready, 0) && NothingDone(ready) && Separated(env, ready, 0, 0) && Planned(env, ready, 0, 0, 0, PlanOf(env, mutations))
  {
    var ready := Prepared(env, Begun(mutations), |env.builders|);
    PreparedOwns(env, Begun(mutations), |env.builders|);
    PreparedIsQuiet(env, Begun(mutations), |env.builders|);
    forall j | 0 <= j < |ready.store| ensures ready.store[j] == Object(Filled(env, mutations)[j], None, false) {
      PreparedFills(env, Begun(mutations), |env.builders|, j);
    }
  }

  lemma {:induction false} StaysClean(s: State, after: State)
    requires NothingDone(s) && KeepsMarks(s.store, after.store)
    ensures NothingDone(after)
  {
    forall o | o in after.store ensures !o.done && o.id == None {
      var x :| 0 <= x < |after.store| && after.store[x] == o;
      assert KeepsMark(s.store, after.store, x);
      assert x < |s.store| ==> s.store[x] in s.store;
    }
  }

  lemma {:induction false} OthersStayClean(env: Env, s: State, after: State, plan: Plan, ids: nat -> Option<int>)
    requires Shaped(env, s) && Shaped(env, after) && Sized(env, plan) && NothingDone(s) && CompletedFrom(env, s, after, plan, ids, 0)
    ensures OnlyHeldDone(after)
  {
    assert after.current[0..] == after.current;
    forall x | 0 <= x < |after.store| && x !in after.current ensures !after.store[x].done && after.store[x].id == None {
      assert KeepsMark(s.store, after.store, x);
      assert x < |s.store| ==> s.store[x] in s.store;
    }
  }

  /** With hooks that forward, a save is all or nothing. It inserts exactly when every builder's own mutation, with
      its defaults and as edited before any hook replaced it, passes its check; the one insert holds the spec of
      what arrived at each link. When it succeeds exactly the mutations that arrived are done and every node has its
      key; in every other case none is. Hooks are entered in order down to the insert or the first fault, and left
      in reverse. */
  lemma {:induction false} BulkIsAllOrNothing(env: Env, mutations: seq<Mutation>)
    requires AllForward(env) && |mutations| == |env.builders| > 0
    ensures var (after, r) := Saved(env, Begun(mutations));
      var plan := PlanOf(env, mutations);
      && after.trace == ExpectedTrace(env, plan.checked, 0, 0)
      && match FirstFault(env, plan.checked, 0)
         case Some(e) => r == Failure(Rejected(e)) && after.batches == [] && NothingDone(after)
         case None =>
           && after.batches == [Batch(SpecsFrom(plan.arriving, 0), plan.arriving)]
           && match env.db(0)
              case Refused(constraint) => r == Failure(RefusalOf(constraint)) && NothingDone(after)
              case Inserted(ids) =>
                && r == Success(after.nodes) && |after.nodes| == |after.current| == |plan.arriving| && OnlyHeldDone(after)
                && forall j | 0 <= j < |plan.arriving| :: Completed(after, j, plan.arriving[j], ids(j))
  {
    var ready, plan := Prepared(env, Begun(mutations), |env.builders|), PlanOf(env, mutations);
    StartsClean(env, mutations);
    RunAllOrNothing(env, ready, 0, 0, 0, plan);
    var (after, out) := Run(env, ready, 0, 0, Account(0));
    assert ready.specs[..0] + SpecsFrom(plan.arriving, 0) == SpecsFrom(plan.arriving, 0);
    assert Held(ready.store, ready.current)[..0] + plan.arriving[0..] == plan.arriving;
    if KeepsMarks(ready.store, after.store) {
      StaysClean(ready, after);
    }
    if FirstFault(env, plan.checked, 0).None? && env.db(0).Inserted? {
      OthersStayClean(env, ready, after, plan, env.db(0).ids);
    }
  }

  lemma {:induction false} SpecsFromAt(arriving: seq<Mutation>, i: nat, j: nat)
    requires i <= j < |arriving|
    ensures j - i < |SpecsFrom(arriving, i)| == |arriving| - i && SpecsFrom(arriving, i)[j - i] == Some(SpecOf(arriving[j]))
    decreases j - i
  {
    SpecsFromLength(arriving, i);
    if i < j {
      SpecsFromAt(arriving, i + 1, j);
      assert SpecsFrom(arriving, i)[j - i] == SpecsFrom(arriving, i + 1)[j - (i + 1)];
    }
  }

  lemma {:induction false} SpecsFromLength(arriving: seq<Mutation>, i: nat)
    requires i <= |arriving|
    ensures |SpecsFrom(arriving, i)| == |arriving| - i
    decreases |arriving| - i
  {
    if i < |arriving| {
      SpecsFromLength(arriving, i + 1);
    }
  }

  lemma {:induction false} FirstFaultFinds(env: Env, checked: seq<Mutation>, i: nat)
    requires i <= |checked| == |env.builders|
    ensures FirstFault(env, checked, i).None? <==> forall j | i <= j < |checked| :: Complaint(env.builders[j].schema, checked[j]).None?
    decreases |checked| - i
  {
    if i < |checked| {
      FirstFaultFinds(env, checked, i + 1);
    }
  }

  /** There is no fault exactly when every mutation that a check looks at may be inserted. */
  lemma {:induction false} FirstFaultDecides(env: Env, checked: seq<Mutation>, i: nat)
    requires i <= |checked| == |env.builders|
    ensures FirstFault(env, checked, i).None? <==> forall j | i <= j < |checked| :: Insertable(env.builders[j].schema, checked[j])
  {
    FirstFaultFinds(env, checked, i);
    forall j | i <= j < |checked| ensures Complaint(env.builders[j].schema, checked[j]).None? <==> Insertable(env.builders[j].schema, checked[j]) {
      CheckDecidesInsertable(env.builders[j].schema, checked[j]);
    }
  }

  // ----- Replaced mutations

  /** A replaced mutation escapes the check: whether there is an insert depends on the mutations that builders hold,
      as edited before they were replaced, and what is inserted is what arrived, insertable or not. */
  lemma {:induction false} ReplacementEscapesTheCheck(env: Env, mutations: seq<Mutation>)
    requires AllForward(env) && |mutations| == |env.builders| > 0
    ensures var batches, plan := Saved(env, Begun(mutations)).0.batches, PlanOf(env, mutations);
      && (batches != [] <==> forall j | 0 <= j < |plan.checked| :: Insertable(env.builders[j].schema, plan.checked[j]))
      && (batches != [] ==> batches == [Batch(SpecsFrom(plan.arriving, 0), plan.arriving)])
  {
    BulkIsAllOrNothing(env, mutations);
    FirstFaultDecides(env, PlanOf(env, mutations).checked, 0);
  }

  /** What a hook passes and what the builder is left with differ only once a hook has replaced the mutation. */
  lemma {:induction false} UnreplacedIsChecked(hooks: seq<Hook>, h: nat, m: Mutation)
    requires h <= |hooks| && forall k | 0 <= k < |hooks| :: Forwards(hooks[k]) && NeverReplaces(hooks[k])
    ensures Arrives(hooks, h, m) == Remains(hooks, h, m)
    decreases |hooks| - h
  {
    if h < |hooks| {
      PassesTheSame(hooks[h], m);
      UnreplacedIsChecked(hooks, h + 1, PassedOn(hooks[h], m));
    }
  }

  lemma {:induction false} PassesTheSame(hook: Hook, m: Mutation)
    requires Forwards(hook) && NeverReplaces(hook)
    ensures !AtNext(hook, m).1.Fresh?
    decreases hook
  {
    match hook
    case Edit(change, rest) => PassesTheSame(rest, change(m));
    case When(test, yes, no) => PassesTheSame(if test(m) then yes else no, m);
    case Next(_, _, _) =>
  }
}
