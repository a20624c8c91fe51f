/** Which mutation each builder holds as a bulk save proceeds, and so what every insert is made of. */
module BulkHeld {
  import opened Wrappers
  import opened Seqs
  import opened Columns
  import opened Create
  import opened BulkCreate
  import opened BulkLaws

  // ----- Who holds which mutation

  /** Each builder still holds its own mutation. */
  predicate Own(env: Env, s: State) {
    Shaped(env, s) && |env.builders| <= |s.store| && forall j | 0 <= j < |env.builders| :: s.current[j] == j
  }

  /** Builders from `i` on may have taken over new mutations, and builder `i` the one it was given. */
  predicate TakesNew(s: State, after: State, i: nat, ref: Ref) {
    && |s.current| == |after.current|
    && forall k | i <= k < |s.current| ::
         after.current[k] == s.current[k] || |s.store| <= after.current[k] || (k == i && ref == Account(after.current[k]))
  }

  lemma {:induction false} RunTakesNew(env: Env, s: State, i: nat, h: nat, ref: Ref)
    requires At(env, i, h) && Shaped(env, s) && RefersInto(s, ref)
    ensures TakesNew(s, Run(env, s, i, h, ref).0, i, ref)
    decreases |env.builders| - i, |env.builders[i].hooks| - h, 3
  {
    if h < |env.builders[i].hooks| {
      ExecTakesNew(env, Log(s, Enter(i, h)), i, h, ref, env.builders[i].hooks[h], Done);
    } else if ref.Account? && Complaint(env.builders[i].schema, s.store[s.current[i]].m).None? {
      var ready := Specified(env, s, i, ref.at);
      ForwardTakesNew(env, ready, i);
      LinkTakesNew(env, s, ready, Forward(env, ready, i).0, i, ref.at);
    }
  }

  lemma {:induction false} ForwardTakesNew(env: Env, s: State, i: nat)
    requires i < |env.builders| && Shaped(env, s)
    ensures i + 1 < |env.builders| ==> TakesNew(s, Forward(env, s, i).0, i + 1, Account(s.current[i + 1]))
    decreases |env.builders| - i, 0, 1
  {
    if i + 1 < |env.builders| {
      RunTakesNew(env, s, i + 1, 0, Account(s.current[i + 1]));
    }
  }

  lemma {:induction false} ExecTakesNew(env: Env, s: State, i: nat, h: nat, ref: Ref, hook: Hook, last: Outcome)
    requires At(env, i, h) && h < |env.builders[i].hooks| && Shaped(env, s) && RefersInto(s, ref)
    ensures TakesNew(s, Exec(env, s, i, h, ref, hook, last).0, i, ref)
    decreases |env.builders| - i, |env.builders[i].hooks| - h, 0, hook
  {
    match hook
    case Return(_) =>
    case Propagate =>
    case Edit(change, rest) =>
      ExecTakesNew(env, Edited(s, ref, change), i, h, ref, rest, last);
    case When(test, yes, no) =>
      ExecTakesNew(env, s, i, h, ref, if ref.Account? && test(s.store[ref.at].m) then yes else no, last);
    case Next(arg, onDone, onFailed) =>
      var (passed, passedRef) := Pass(s, ref, arg);
      RunTakesNew(env, passed, i, h + 1, passedRef);
      var (after, out) := Run(env, passed, i, h + 1, passedRef);
      ExecTakesNew(env, after, i, h, ref, if out.Done? then onDone else onFailed, out);
      assert Keeps(env, passed, after, i);
  }

  lemma {:induction false} LinkTakesNew(env: Env, s: State, ready: State, after: State, i: nat, at: nat)
    requires i < |env.builders| && Shaped(env, s) && at < |s.store| && ready == Specified(env, s, i, at)
    requires Keeps(env, ready, after, i + 1)
    requires i + 1 < |env.builders| ==> TakesNew(ready, after, i + 1, Account(ready.current[i + 1]))
    ensures TakesNew(s, after, i, Account(at))
  {
    assert after.current[i] == after.current[..i + 1][i] == ready.current[..i + 1][i];
  }

  // ----- What the defaults leave

  lemma {:induction false} PreparedOwns(env: Env, s: State, k: nat)
    requires k <= |env.builders| && Own(env, s)
    ensures Own(env, Prepared(env, s, k))
  {
    if k > 0 {
      PreparedOwns(env, s, k - 1);
    }
  }

  function WithDefaults(env: Env, j: nat, o: Object): Object
    requires j < |env.builders|
  {
    o.(m := Defaulted(env.builders[j].schema, o.m, DEFAULTED).0)
  }

  lemma {:induction false} DefaultsOfOwn(env: Env, s: State, k: nat)
    requires k < |env.builders| && Own(env, s)
    ensures DefaultsOf(env, s, k).store == s.store[k := WithDefaults(env, k, s.store[k])]
  {
  }

  lemma {:induction false} PreparedFills(env: Env, s: State, k: nat, j: nat)
    requires k <= |env.builders| && Own(env, s) && j < |env.builders|
    ensures |Prepared(env, s, k).store| == |s.store|
    ensures Prepared(env, s, k).store[j] == if j < k then WithDefaults(env, j, s.store[j]) else s.store[j]
  {
    if k > 0 {
      var before := Prepared(env, s, k - 1);
      PreparedOwns(env, s, k - 1);
      PreparedFills(env, s, k - 1, j);
      DefaultsOfOwn(env, before, k - 1);
      assert Prepared(env, s, k).store == before.store[k - 1 := WithDefaults(env, k - 1, before.store[k - 1])];
    }
  }

  // ----- Every inserted spec was checked, unless a hook replaced the mutation

  /** A hook that never passes a mutation of its own making to next. */
  predicate NeverReplaces(hook: Hook) {
    match hook
    case Return(_) => true
    case Propagate => true
    case Edit(_, rest) => NeverReplaces(rest)
    case When(_, yes, no) => NeverReplaces(yes) && NeverReplaces(no)
    case Next(arg, onDone, onFailed) => !arg.Fresh? && NeverReplaces(onDone) && NeverReplaces(onFailed)
  }

  predicate NoneReplaces(env: Env) {
    forall j, k | 0 <= j < |env.builders| && 0 <= k < |env.builders[j].hooks| :: NeverReplaces(env.builders[j].hooks[k])
  }

  /** A batch with the spec of every builder's mutation; when `strict`, each passes its builder's check. */
  predicate Whole(env: Env, strict: bool, b: Batch) {
    && |b.specs| == |b.held| == |env.builders|
    && forall k | 0 <= k < |b.held| :: b.specs[k] == Some(SpecOf(b.held[k])) && (strict ==> Complaint(env.builders[k].schema, b.held[k]).None?)
  }

  /** What holds when the chain stands at builder `i`: the earlier specs are still those of the mutations held. */
  ghost predicate Vetting(env: Env, strict: bool, s: State, i: nat) {
    && Shaped(env, s) && i <= |env.builders| && Distinct(s.current)
    && (strict ==> NoneReplaces(env) && Own(env, s))
    && (forall k | 0 <= k < i :: s.specs[k] == Some(SpecOf(s.store[s.current[k]].m)) && (strict ==> Complaint(env.builders[k].schema, s.store[s.current[k]].m).None?))
    && (forall b | b in s.batches :: Whole(env, strict, b))
  }

  /** The mutation passed to builder `i` is held by no other builder. */
  predicate Apart(strict: bool, s: State, i: nat, ref: Ref) {
    ref.Account? ==> ref.at < |s.store| && (strict ==> ref.at == i) && forall k | 0 <= k < |s.current| && k != i :: s.current[k] != ref.at
  }

  lemma {:induction false} RunVets(env: Env, strict: bool, s: State, i: nat, h: nat, ref: Ref)
    requires Vetting(env, strict, s, i) && At(env, i, h) && Apart(strict, s, i, ref)
    ensures Vetting(env, strict, Run(env, s, i, h, ref).0, i)
    decreases |env.builders| - i, |env.builders[i].hooks| - h, 3
  {
    if h < |env.builders[i].hooks| {
      ExecVets(env, strict, Log(s, Enter(i, h)), i, h, ref, env.builders[i].hooks[h], Done);
    } else {
      LinkVets(env, strict, s, i, ref);
    }
  }

  lemma {:induction false} LinkVets(env: Env, strict: bool, s: State, i: nat, ref: Ref)
    requires Vetting(env, strict, s, i) && i < |env.builders| && Apart(strict, s, i, ref)
    ensures Vetting(env, strict, Link(env, s, i, ref).0, i)
    decreases |env.builders| - i, 0, 2
  {
    if ref.Account? && Complaint(env.builders[i].schema, s.store[s.current[i]].m).None? {
      var ready := Specified(env, s, i, ref.at);
      SpecifiedVets(env, strict, s, i, ref.at);
      ForwardVets(env, strict, ready, i);
      var after := Forward(env, ready, i).0;
      assert after.nodes[..i + 1][i] == ready.nodes[..i + 1][i];
      FinishedVets(env, strict, after, i, ref.at);
    }
  }

  lemma {:induction false} ForwardVets(env: Env, strict: bool, s: State, i: nat)
    requires Vetting(env, strict, s, i + 1) && i < |env.builders|
    ensures Vetting(env, strict, Forward(env, s, i).0, i + 1)
    decreases |env.builders| - i, 0, 1
  {
    if i + 1 < |env.builders| {
      RunVets(env, strict, s, i + 1, 0, Account(s.current[i + 1]));
    } else {
      InsertVets(env, strict, s);
    }
  }

  lemma {:induction false} SpecifiedVets(env: Env, strict: bool, s: State, i: nat, at: nat)
    requires Vetting(env, strict, s, i) && i < |env.builders| && at < |s.store| && Apart(strict, s, i, Account(at))
    requires Complaint(env.builders[i].schema, s.store[s.current[i]].m).None?
    ensures Vetting(env, strict, Specified(env, s, i, at), i + 1)
  {
  }

  lemma {:induction false} FinishedVets(env: Env, strict: bool, s: State, i: nat, at: nat)
    requires Vetting(env, strict, s, i + 1) && i < |env.builders| && at < |s.store| && s.nodes[i].Some?
    ensures Vetting(env, strict, Finished(env, s, i, at), i)
  {
  }

  lemma {:induction false} EditedVets(env: Env, strict: bool, s: State, i: nat, ref: Ref, change: Mutation -> Mutation)
    requires Vetting(env, strict, s, i) && Apart(strict, s, i, ref)
    ensures Vetting(env, strict, Edited(s, ref, change), i) && Apart(strict, Edited(s, ref, change), i, ref)
  {
  }

  lemma {:induction false} PassVets(env: Env, strict: bool, s: State, i: nat, ref: Ref, arg: Arg)
    requires Vetting(env, strict, s, i) && Apart(strict, s, i, ref) && (strict ==> !arg.Fresh?)
    ensures Vetting(env, strict, Pass(s, ref, arg).0, i) && Apart(strict, Pass(s, ref, arg).0, i, Pass(s, ref, arg).1)
  {
  }

  lemma {:induction false} InsertVets(env: Env, strict: bool, s: State)
    requires Vetting(env, strict, s, |env.builders|)
    ensures Vetting(env, strict, InsertAll(env, s).0, |env.builders|)
  {
    assert Whole(env, strict, Batch(s.specs, Held(s.store, s.current)));
  }

  lemma {:induction false} ExecVets(env: Env, strict: bool, s: State, i: nat, h: nat, ref: Ref, hook: Hook, last: Outcome)
    requires Vetting(env, strict, s, i) && At(env, i, h) && h < |env.builders[i].hooks| && Apart(strict, s, i, ref)
    requires strict ==> NeverReplaces(hook)
    ensures Vetting(env, strict, Exec(env, s, i, h, ref, hook, last).0, i)
    decreases |env.builders| - i, |env.builders[i].hooks| - h, 0, hook
  {
    match hook
    case Return(_) =>
    case Propagate =>
    case Edit(change, rest) =>
      EditedVets(env, strict, s, i, ref, change);
      ExecVets(env, strict, Edited(s, ref, change), i, h, ref, rest, last);
    case When(test, yes, no) =>
      ExecVets(env, strict, s, i, h, ref, if ref.Account? && test(s.store[ref.at].m) then yes else no, last);
    case Next(arg, onDone, onFailed) =>
      var (passed, passedRef) := Pass(s, ref, arg);
      PassVets(env, strict, s, i, ref, arg);
      RunVets(env, strict, passed, i, h + 1, passedRef);
      RunTakesNew(env, passed, i, h + 1, passedRef);
      var (after, out) := Run(env, passed, i, h + 1, passedRef);
      StaysApart(env, strict, s, passed, after, i, ref, passedRef);
      ExecVets(env, strict, after, i, h, ref, if out.Done? then onDone else onFailed, out);
  }

  lemma {:induction false} StaysApart(env: Env, strict: bool, s: State, passed: State, after: State, i: nat, ref: Ref, passedRef: Ref)
    requires i < |env.builders| && Shaped(env, s) && Shaped(env, passed) && Keeps(env, passed, after, i)
    requires passed == s.(store := passed.store) && |s.store| <= |passed.store|
    requires passedRef == ref || passedRef == Account(|s.store|) || passedRef == Foreign
    requires Apart(strict, s, i, ref) && TakesNew(passed, after, i, passedRef)
    ensures Apart(strict, after, i, ref)
  {
    assert forall k | 0 <= k < i :: after.current[k] == after.current[..i][k] && s.current[k] == s.current[..i][k];
  }

  /** Whatever the hooks do, every insert has the spec of the mutation that each builder holds at that moment.
      As long as no hook replaces the mutation, each of them passes its builder's check at that moment. */
  lemma {:induction false} EveryInsertIsChecked(env: Env, mutations: seq<Mutation>)
    requires |mutations| == |env.builders|
    ensures forall b | b in Saved(env, Begun(mutations)).0.batches :: Whole(env, NoneReplaces(env), b)
  {
    var s := Begun(mutations);
    PreparedIsQuiet(env, s, |env.builders|);
    PreparedOwns(env, s, |env.builders|);
    if |env.builders| > 0 {
      var ready := Prepared(env, s, |env.builders|);
      RunVets(env, NoneReplaces(env), ready, 0, 0, Account(ready.current[0]));
    }
  }

  /** So every account that a save inserts, unless a hook replaces mutations, has its required fields and values that
      their validators accept, and the insert lists exactly what was set. */
  lemma {:induction false} EveryInsertIsInsertable(env: Env, mutations: seq<Mutation>)
    requires |mutations| == |env.builders| && NoneReplaces(env)
    ensures forall b | b in Saved(env, Begun(mutations)).0.batches :: AllInsertable(env, b)
  {
    EveryInsertIsChecked(env, mutations);
    forall b | b in Saved(env, Begun(mutations)).0.batches ensures AllInsertable(env, b) {
      WholeIsInsertable(env, b);
    }
  }

  ghost predicate AllInsertable(env: Env, b: Batch) {
    && |b.held| == |b.specs| == |env.builders|
    && forall k | 0 <= k < |env.builders| ::
         && b.specs[k].Some? && Insertable(env.builders[k].schema, b.held[k]) && Lists(b.specs[k].value, NodeOf(b.held[k]), b.held[k])
  }

  lemma {:induction false} WholeIsInsertable(env: Env, b: Batch)
    requires Whole(env, true, b)
    ensures AllInsertable(env, b)
  {
    forall k | 0 <= k < |env.builders|
      ensures b.specs[k].Some? && Insertable(env.builders[k].schema, b.held[k]) && Lists(b.specs[k].value, NodeOf(b.held[k]), b.held[k])
    {
      CheckDecidesInsertable(env.builders[k].schema, b.held[k]);
      SpecListsFields(b.held[k]);
    }
  }

  /** The last link checks the mutation the builder holds, and inserts the one it is given. */
  lemma {:induction false} LastLink(env: Env, s: State, i: nat, ref: Ref)
    requires Shaped(env, s) && RefersInto(s, ref) && ref.Account? && i + 1 == |env.builders|
    ensures Run(env, s, i, |env.builders[i].hooks|, ref).0.batches ==
      s.batches + if Complaint(env.builders[i].schema, s.store[s.current[i]].m).None? then
        [Batch(s.specs[i := Some(SpecOf(s.store[ref.at].m))], Held(s.store, s.current)[i := s.store[ref.at].m])] else []
    ensures var (after, out) := Run(env, s, i, |env.builders[i].hooks|, ref);
      out.Done? ==>
        && env.db(|s.batches|).Inserted?
        && var ids := env.db(|s.batches|).ids;
           && after.ids[i] == ids(i)
           && forall j | 0 <= j < i :: after.ids[j] == if ids(j).Some? then ids(j) else s.ids[j]
  {
    assert Run(env, s, i, |env.builders[i].hooks|, ref) == Link(env, s, i, ref);
    if Complaint(env.builders[i].schema, s.store[s.current[i]].m).None? {
      var ready := Specified(env, s, i, ref.at);
      InsertSends(env, ready, i);
      HeldUpdated(s.store, s.current, i, ref.at);
    }
  }

  lemma {:induction false} HeldUpdated(store: seq<Object>, current: seq<nat>, i: nat, at: nat)
    requires (forall k | 0 <= k < |current| :: current[k] < |store|) && i < |current| && at < |store|
    ensures Held(store, current[i := at]) == Held(store, current)[i := store[at].m]
  {
  }

  lemma {:induction false} InsertSends(env: Env, s: State, i: nat)
    requires Shaped(env, s) && i + 1 == |env.builders|
    ensures Forward(env, s, i).0.batches == s.batches + [Batch(s.specs, Held(s.store, s.current))]
  {
    assert Forward(env, s, i) == InsertAll(env, s);
  }
}
