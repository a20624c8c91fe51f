/** Which accounts a bulk save can insert, whatever its hooks do, and what its result says about that. */
module BulkChecks {
  import opened Wrappers
  import opened Columns
  import opened Create
  import opened RowCodec
  import opened BulkCreate
  import opened BulkLaws
  import opened BulkHeld
  import opened BulkAtomic

  // ----- A field nobody sets

  /** A hook whose edits never set field `c`. */
  ghost predicate Spares(hook: Hook, c: Column) {
    match hook
    case Return(_) => true
    case Propagate => true
    case Edit(change, rest) => (forall m: Mutation | c !in m.fields :: c !in change(m).fields) && Spares(rest, c)
    case When(_, yes, no) => Spares(yes, c) && Spares(no, c)
    case Next(_, onDone, onFailed) => Spares(onDone, c) && Spares(onFailed, c)
  }

  ghost predicate AllSpare(env: Env, j: nat, c: Column) {
    j < |env.builders| && forall k | 0 <= k < |env.builders[j].hooks| :: Spares(env.builders[j].hooks[k], c)
  }

  /** The check rejects every mutation that lacks `c`. */
  ghost predicate Demands(schema: Schema, c: Column) {
    forall m: Mutation | c !in m.fields :: Complaint(schema, m).Some?
  }

  /** Builder `j` holds its own mutation, which lacks `c`, and nobody else holds it. */
  ghost predicate Lacks(env: Env, s: State, j: nat, c: Column) {
    && Shaped(env, s) && j < |env.builders| && s.current[j] == j
    && c !in s.store[j].m.fields
    && forall k | 0 <= k < |s.current| && k != j :: s.current[k] != j
  }

  lemma {:induction false} RunLacks(env: Env, s: State, i: nat, h: nat, ref: Ref, j: nat, c: Column)
    requires AllSpare(env, j, c) && Demands(env.builders[j].schema, c) && Lacks(env, s, j, c) && i <= j && At(env, i, h) && RefersInto(s, ref)
    requires ref.Account? && ref.at == j ==> i == j
    ensures var after := Run(env, s, i, h, ref).0; Lacks(env, after, j, c) && after.batches == s.batches
    decreases |env.builders| - i, |env.builders[i].hooks| - h, 3
  {
    if h < |env.builders[i].hooks| {
      ExecLacks(env, Log(s, Enter(i, h)), i, h, ref, env.builders[i].hooks[h], Done, j, c);
    } else {
      LinkLacks(env, s, i, ref, j, c);
    }
  }

  lemma {:induction false} LinkLacks(env: Env, s: State, i: nat, ref: Ref, j: nat, c: Column)
    requires AllSpare(env, j, c) && Demands(env.builders[j].schema, c) && Lacks(env, s, j, c) && i <= j && RefersInto(s, ref)
    requires ref.Account? && ref.at == j ==> i == j
    ensures var after := Link(env, s, i, ref).0; Lacks(env, after, j, c) && after.batches == s.batches
    decreases |env.builders| - i, 0, 2
  {
    if i < j && ref.Account? && Complaint(env.builders[i].schema, s.store[s.current[i]].m).None? {
      var ready := Specified(env, s, i, ref.at);
      RunLacks(env, ready, i + 1, 0, Account(ready.current[i + 1]), j, c);
    }
  }

  lemma {:induction false} ExecLacks(env: Env, s: State, i: nat, h: nat, ref: Ref, hook: Hook, last: Outcome, j: nat, c: Column)
    requires AllSpare(env, j, c) && Demands(env.builders[j].schema, c) && Lacks(env, s, j, c) && i <= j && At(env, i, h) && h < |env.builders[i].hooks| && RefersInto(s, ref)
    requires ref.Account? && ref.at == j ==> i == j
    requires i == j ==> Spares(hook, c)
    ensures var after := Exec(env, s, i, h, ref, hook, last).0; Lacks(env, after, j, c) && after.batches == s.batches
    decreases |env.builders| - i, |env.builders[i].hooks| - h, 0, hook
  {
    match hook
    case Return(_) =>
    case Propagate =>
    case Edit(change, rest) =>
      ExecLacks(env, Edited(s, ref, change), i, h, ref, rest, last, j, c);
    case When(test, yes, no) =>
      ExecLacks(env, s, i, h, ref, if ref.Account? && test(s.store[ref.at].m) then yes else no, last, j, c);
    case Next(arg, onDone, onFailed) =>
      var (passed, passedRef) := Pass(s, ref, arg);
      RunLacks(env, passed, i, h + 1, passedRef, j, c);
      var (after, out) := Run(env, passed, i, h + 1, passedRef);
      ExecLacks(env, after, i, h, ref, if out.Done? then onDone else onFailed, out, j, c);
  }

  lemma {:induction false} MissingIsDemanded(schema: Schema, c: Column)
    requires c in REQUIRED
    ensures Demands(schema, c)
  {
    forall m: Mutation | c !in m.fields ensures Complaint(schema, m).Some? {
      CheckDecidesInsertable(schema, m);
    }
  }

  /** A required field that is missing after the defaults, and that no hook of its builder sets, keeps the
      whole save from inserting, whatever else the hooks do. */
  lemma {:induction false} MissingFieldNeverInserts(env: Env, mutations: seq<Mutation>, j: nat, c: Column)
    requires |mutations| == |env.builders| && j < |env.builders| && AllSpare(env, j, c)
    requires c in REQUIRED && c !in Defaulted(env.builders[j].schema, mutations[j], DEFAULTED).0.fields
    ensures Saved(env, Begun(mutations)).0.batches == []
  {
    var s := Begun(mutations);
    var ready := Prepared(env, s, |env.builders|);
    PreparedIsQuiet(env, s, |env.builders|);
    PreparedOwns(env, s, |env.builders|);
    PreparedFills(env, s, |env.builders|, j);
    MissingIsDemanded(env.builders[j].schema, c);
    RunLacks(env, ready, 0, 0, Account(ready.current[0]), j, c);
  }

  /** The save drops the error of a default that is not installed; no account is inserted all the same, unless
      a hook of that builder sets the fields whose default is missing. */
  lemma {:induction false} DroppedDefaultErrorIsHarmless(env: Env, mutations: seq<Mutation>, j: nat)
    requires |mutations| == |env.builders| && j < |env.builders|
    requires !Defaulted(env.builders[j].schema, mutations[j], DEFAULTED).1
    requires forall c | DefaultOf(env.builders[j].schema, c) == None && c !in mutations[j].fields :: AllSpare(env, j, c)
    ensures Saved(env, Begun(mutations)).0.batches == []
  {
    var c := FailedDefaultIsRejected(env.builders[j].schema, mutations[j]);
    IsDefaulted(c);
    MissingFieldNeverInserts(env, mutations, j, c);
  }

  // ----- What success says about the insert

  /** The database accepted one of the inserts from the `from`th to before the `to`th. */
  ghost predicate Accepted(env: Env, from: nat, to: nat) {
    exists k: nat | from <= k < to :: env.db(k).Inserted?
  }

  /** A hook that never reports success of its own: it returns only failures, or what a call of next reported. */
  predicate Honest(hook: Hook, called: bool) {
    match hook
    case Return(out) => out.Failed?
    case Propagate => called
    case Edit(_, rest) => Honest(rest, called)
    case When(_, yes, no) => Honest(yes, called) && Honest(no, called)
    case Next(_, onDone, onFailed) => Honest(onDone, true) && Honest(onFailed, true)
  }

  /** After a call of next that succeeded: no further call, and success. */
  predicate Settles(hook: Hook) {
    match hook
    case Return(out) => out.Done?
    case Propagate => true
    case Edit(_, rest) => Settles(rest)
    case When(_, yes, no) => Settles(yes) && Settles(no)
    case Next(_, _, _) => false
  }

  /** A hook that never turns a success into a failure. */
  predicate Steady(hook: Hook) {
    match hook
    case Return(_) => true
    case Propagate => true
    case Edit(_, rest) => Steady(rest)
    case When(_, yes, no) => Steady(yes) && Steady(no)
    case Next(_, onDone, onFailed) => Settles(onDone) && Steady(onFailed)
  }

  predicate AllHonest(env: Env) {
    forall j, k | 0 <= j < |env.builders| && 0 <= k < |env.builders[j].hooks| :: Honest(env.builders[j].hooks[k], false)
  }

  predicate AllSteady(env: Env) {
    forall j, k | 0 <= j < |env.builders| && 0 <= k < |env.builders[j].hooks| :: Steady(env.builders[j].hooks[k])
  }

  /** A mutation is done only if some insert was accepted. */
  ghost predicate Backed(env: Env, s: State) {
    forall o | o in s.store && o.done :: Accepted(env, 0, |s.batches|)
  }

  lemma {:induction false} AcceptedGrows(env: Env, from: nat, to: nat, more: nat)
    requires to <= more && Accepted(env, from, to)
    ensures Accepted(env, from, more)
  {
    var k: nat :| from <= k < to && env.db(k).Inserted?;
  }

  /** What every part of the chain keeps when hooks are honest. */
  ghost predicate Truthful(env: Env, s: State, after: State, out: Outcome) {
    && |s.batches| <= |after.batches| && Backed(env, after)
    && (out.Done? ==> Accepted(env, 0, |after.batches|))
  }

  lemma {:induction false} RunTruthful(env: Env, s: State, i: nat, h: nat, ref: Ref)
    requires AllHonest(env) && At(env, i, h) && Shaped(env, s) && RefersInto(s, ref) && Backed(env, s)
    ensures var (after, out) := Run(env, s, i, h, ref); Truthful(env, s, after, out)
    decreases |env.builders| - i, |env.builders[i].hooks| - h, 3
  {
    if h < |env.builders[i].hooks| {
      ExecTruthful(env, Log(s, Enter(i, h)), i, h, ref, env.builders[i].hooks[h], Done, false);
    } else {
      LinkTruthful(env, s, i, ref);
    }
  }

  lemma {:induction false} LinkTruthful(env: Env, s: State, i: nat, ref: Ref)
    requires AllHonest(env) && i < |env.builders| && Shaped(env, s) && RefersInto(s, ref) && Backed(env, s)
    ensures var (after, out) := Link(env, s, i, ref); Truthful(env, s, after, out)
    decreases |env.builders| - i, 0, 2
  {
    if ref.Account? && Complaint(env.builders[i].schema, s.store[s.current[i]].m).None? {
      ForwardTruthful(env, Specified(env, s, i, ref.at), i);
    }
  }

  lemma {:induction false} ForwardTruthful(env: Env, s: State, i: nat)
    requires AllHonest(env) && i < |env.builders| && Shaped(env, s) && Backed(env, s)
    ensures var (after, out) := Forward(env, s, i); Truthful(env, s, after, out)
    decreases |env.builders| - i, 0, 1
  {
    if i + 1 < |env.builders| {
      RunTruthful(env, s, i + 1, 0, Account(s.current[i + 1]));
    } else {
      InsertTruthful(env, s);
    }
  }

  lemma {:induction false} InsertTruthful(env: Env, s: State)
    requires Shaped(env, s) && Backed(env, s)
    ensures var (after, out) := InsertAll(env, s); Truthful(env, s, after, out)
  {
    if o :| o in s.store && o.done {
      AcceptedGrows(env, 0, |s.batches|, |s.batches| + 1);
    }
  }

  lemma {:induction false} ExecTruthful(env: Env, s: State, i: nat, h: nat, ref: Ref, hook: Hook, last: Outcome, called: bool)
    requires AllHonest(env) && At(env, i, h) && h < |env.builders[i].hooks| && Shaped(env, s) && RefersInto(s, ref) && Backed(env, s)
    requires Honest(hook, called) && (called && last.Done? ==> Accepted(env, 0, |s.batches|))
    ensures var (after, out) := Exec(env, s, i, h, ref, hook, last); Truthful(env, s, after, out)
    decreases |env.builders| - i, |env.builders[i].hooks| - h, 0, hook
  {
    match hook
    case Return(_) =>
    case Propagate =>
    case Edit(change, rest) =>
      EditBacked(env, s, ref, change);
      ExecTruthful(env, Edited(s, ref, change), i, h, ref, rest, last, called);
    case When(test, yes, no) =>
      ExecTruthful(env, s, i, h, ref, if ref.Account? && test(s.store[ref.at].m) then yes else no, last, called);
    case Next(arg, onDone, onFailed) =>
      var (passed, passedRef) := Pass(s, ref, arg);
      RunTruthful(env, passed, i, h + 1, passedRef);
      var (after, out) := Run(env, passed, i, h + 1, passedRef);
      ExecTruthful(env, after, i, h, ref, if out.Done? then onDone else onFailed, out, true);
  }

  lemma {:induction false} EditBacked(env: Env, s: State, ref: Ref, change: Mutation -> Mutation)
    requires RefersInto(s, ref) && Backed(env, s)
    ensures Backed(env, Edited(s, ref, change))
  {
    var edited := Edited(s, ref, change);
    forall o | o in edited.store && o.done ensures Accepted(env, 0, |s.batches|) {
      var x :| 0 <= x < |edited.store| && edited.store[x] == o;
      assert s.store[x] in s.store;
    }
  }

  /** A part of the chain that fails has had no insert accepted. */
  ghost predicate NothingLost(env: Env, s: State, after: State, out: Outcome) {
    |s.batches| <= |after.batches| && (out.Failed? ==> !Accepted(env, |s.batches|, |after.batches|))
  }

  lemma {:induction false} RunLosesNothing(env: Env, s: State, i: nat, h: nat, ref: Ref)
    requires AllSteady(env) && At(env, i, h) && Shaped(env, s) && RefersInto(s, ref)
    ensures var (after, out) := Run(env, s, i, h, ref); NothingLost(env, s, after, out)
    decreases |env.builders| - i, |env.builders[i].hooks| - h, 3
  {
    if h < |env.builders[i].hooks| {
      ExecLosesNothing(env, Log(s, Enter(i, h)), i, h, ref, env.builders[i].hooks[h], Done);
    } else if ref.Account? && Complaint(env.builders[i].schema, s.store[s.current[i]].m).None? {
      ForwardLosesNothing(env, Specified(env, s, i, ref.at), i);
    }
  }

  lemma {:induction false} ForwardLosesNothing(env: Env, s: State, i: nat)
    requires AllSteady(env) && i < |env.builders| && Shaped(env, s)
    ensures var (after, out) := Forward(env, s, i); NothingLost(env, s, after, out)
    decreases |env.builders| - i, 0, 1
  {
    if i + 1 < |env.builders| {
      RunLosesNothing(env, s, i + 1, 0, Account(s.current[i + 1]));
    }
  }

  lemma {:induction false} ExecLosesNothing(env: Env, s: State, i: nat, h: nat, ref: Ref, hook: Hook, last: Outcome)
    requires AllSteady(env) && At(env, i, h) && h < |env.builders[i].hooks| && Shaped(env, s) && RefersInto(s, ref) && Steady(hook)
    ensures var (after, out) := Exec(env, s, i, h, ref, hook, last); NothingLost(env, s, after, out)
    decreases |env.builders| - i, |env.builders[i].hooks| - h, 0, hook
  {
    match hook
    case Return(_) =>
    case Propagate =>
    case Edit(change, rest) =>
      ExecLosesNothing(env, Edited(s, ref, change), i, h, ref, rest, last);
    case When(test, yes, no) =>
      ExecLosesNothing(env, s, i, h, ref, if ref.Account? && test(s.store[ref.at].m) then yes else no, last);
    case Next(arg, onDone, onFailed) =>
      var (passed, passedRef) := Pass(s, ref, arg);
      RunLosesNothing(env, passed, i, h + 1, passedRef);
      var (mid, out) := Run(env, passed, i, h + 1, passedRef);
      if out.Done? {
        SettledIsDone(env, mid, i, h, ref, onDone);
      } else {
        ExecLosesNothing(env, mid, i, h, ref, onFailed, out);
      }
  }

  lemma {:induction false} SettledIsDone(env: Env, s: State, i: nat, h: nat, ref: Ref, hook: Hook)
    requires At(env, i, h) && h < |env.builders[i].hooks| && Shaped(env, s) && RefersInto(s, ref) && Settles(hook)
    ensures var (after, out) := Exec(env, s, i, h, ref, hook, Done); out.Done? && after.batches == s.batches
    decreases hook
  {
    match hook
    case Return(_) =>
    case Propagate =>
    case Edit(change, rest) =>
      SettledIsDone(env, Edited(s, ref, change), i, h, ref, rest);
    case When(test, yes, no) =>
      SettledIsDone(env, s, i, h, ref, if ref.Account? && test(s.store[ref.at].m) then yes else no);
  }

  /** When no hook reports success of its own, a save that succeeds has had an insert accepted, and no mutation is
      done without one. When no hook turns a success into a failure, a save that fails has had none accepted. With
      both, a save succeeds exactly when an insert was accepted. */
  lemma {:induction false} SuccessIsTheInsert(env: Env, mutations: seq<Mutation>)
    requires |mutations| == |env.builders| > 0
    ensures var (after, r) := Saved(env, Begun(mutations));
      var inserted := Accepted(env, 0, |after.batches|);
      && (AllHonest(env) ==> (r.Success? ==> inserted) && Backed(env, after))
      && (AllSteady(env) ==> (r.Failure? ==> !inserted))
      && (AllHonest(env) && AllSteady(env) ==> (r.Success? <==> inserted))
  {
    var s := Begun(mutations);
    var ready := Prepared(env, s, |env.builders|);
    PreparedIsQuiet(env, s, |env.builders|);
    PreparedOwns(env, s, |env.builders|);
    forall o | o in ready.store ensures !o.done {
      var j :| 0 <= j < |ready.store| && ready.store[j] == o;
      PreparedFills(env, s, |env.builders|, j);
    }
    if AllHonest(env) {
      RunTruthful(env, ready, 0, 0, Account(ready.current[0]));
    }
    if AllSteady(env) {
      RunLosesNothing(env, ready, 0, 0, Account(ready.current[0]));
    }
  }

  /** A hook that is not steady: it fails after next has succeeded. The account is inserted and its mutation done,
      and the save reports the hook's failure. */
  lemma {:induction false} FailureAfterTheInsert(schema: Schema, m: Mutation, db: nat -> Answer)
    requires Insertable(schema, Defaulted(schema, m, DEFAULTED).0) && db(0).Inserted?
    ensures var env := Env([Builder(schema, [Next(Same, Return(Failed(HookError)), Propagate)])], db);
      var (after, r) := Saved(env, Begun([m]));
      r == Failure(HookError) && |after.batches| == 1 && after.store[0].done
  {
    var hook := Next(Same, Return(Failed(HookError)), Propagate);
    var env := Env([Builder(schema, [hook])], db);
    var ready := Prepared(env, Begun([m]), 1);
    ReadyAlone(env, m);
    CheckDecidesInsertable(schema, ready.store[0].m);
    assert env.builders[0].hooks[0] == hook;
    OnlyLink(env, Log(ready, Enter(0, 0)));
    FailsAfter(env, Log(ready, Enter(0, 0)));
  }

  /** A save of one, ready to run. */
  lemma {:induction false} ReadyAlone(env: Env, m: Mutation)
    requires |env.builders| == 1
    ensures var ready := Prepared(env, Begun([m]), 1);
      Own(env, ready) && ready.batches == [] && ready.store[0].m == Defaulted(env.builders[0].schema, m, DEFAULTED).0
  {
    PreparedIsQuiet(env, Begun([m]), 1);
    PreparedOwns(env, Begun([m]), 1);
    PreparedFills(env, Begun([m]), 1, 0);
  }

  /** The only link of a save of one. */
  lemma {:induction false} OnlyLink(env: Env, s: State)
    requires |env.builders| == 1 && Own(env, s) && Complaint(env.builders[0].schema, s.store[0].m).None? && env.db(|s.batches|).Inserted?
    ensures var (after, out) := Run(env, s, 0, |env.builders[0].hooks|, Account(0));
      out == Done && after.store[0].done && |after.batches| == |s.batches| + 1
  {
    assert Run(env, s, 0, |env.builders[0].hooks|, Account(0)) == Link(env, s, 0, Account(0));
    var ready := Specified(env, s, 0, 0);
    assert Forward(env, ready, 0) == InsertAll(env, ready);
  }

  lemma {:induction false} FailsAfter(env: Env, s: State)
    requires |env.builders| == 1 && Own(env, s) && |env.builders[0].hooks| == 1
    requires Run(env, s, 0, 1, Account(0)).1 == Done
    ensures Exec(env, s, 0, 0, Account(0), Next(Same, Return(Failed(HookError)), Propagate), Done) ==
      (Run(env, s, 0, 1, Account(0)).0, Failed(HookError))
  {
  }

  /** A hook that is not honest: it succeeds without calling next. The save succeeds, the builders before it are
      marked done although nothing was inserted, and their nodes have no key. */
  lemma {:induction false} SkippedInsertStillMarksDone(first: Builder, second: Schema, m: Mutation, n: Mutation, db: nat -> Answer)
    requires first.hooks == [] && Insertable(first.schema, Defaulted(first.schema, m, DEFAULTED).0)
    ensures var env := Env([first, Builder(second, [Return(Done)])], db);
      var (after, r) := Saved(env, Begun([m, n]));
      && r == Success([Some(NodeOf(Defaulted(first.schema, m, DEFAULTED).0)), None])
      && after.store[0].done && after.store[0].id == Some(0) && after.batches == []
  {
    var env := Env([first, Builder(second, [Return(Done)])], db);
    var s := Begun([m, n]);
    PreparedIsQuiet(env, s, 2);
    PreparedOwns(env, s, 2);
    PreparedFills(env, s, 2, 0);
    var ready := Prepared(env, s, 2);
    CheckDecidesInsertable(first.schema, ready.store[0].m);
    assert Run(env, ready, 0, 0, Account(0)) == Link(env, ready, 0, Account(0));
    SkippedLink(env, ready);
  }

  lemma {:induction false} SkippedLink(env: Env, s: State)
    requires |env.builders| == 2 && env.builders[1].hooks == [Return(Done)]
    requires Own(env, s) && Complaint(env.builders[0].schema, s.store[0].m).None? && s.ids == [None, None] && s.nodes == [None, None]
    ensures var (after, out) := Link(env, s, 0, Account(0));
      && out.Done? && after.nodes == [Some(NodeOf(s.store[0].m)), None]
      && after.store[0].done && after.store[0].id == Some(0) && after.batches == s.batches
  {
    var specified := Specified(env, s, 0, 0);
    RunReturn(env, specified, 1, Account(1));
    assert specified.nodes == [Some(NodeOf(s.store[0].m)), None];
  }

  lemma {:induction false} RunReturn(env: Env, s: State, i: nat, ref: Ref)
    requires Shaped(env, s) && i < |env.builders| && env.builders[i].hooks == [Return(Done)] && RefersInto(s, ref)
    ensures Run(env, s, i, 0, ref) == (Log(Log(s, Enter(i, 0)), Exit(i, 0)), Done)
  {
    assert env.builders[i].hooks[0] == Return(Done);
  }

  // ----- From the save to the next read

  lemma {:induction false} SavedNode(env: Env, mutations: seq<Mutation>, j: nat)
    requires AllForward(env) && |mutations| == |env.builders| > 0 && j < |mutations|
    requires FirstFault(env, PlanOf(env, mutations).checked, 0).None?
    requires env.db(0).Inserted? && env.db(0).ids(j).Some?
    ensures var (after, r) := Saved(env, Begun(mutations));
      var m := PlanOf(env, mutations).arriving[j];
      && r.Success? && |r.value| == |mutations| && r.value[j] == Some(Created(m, env.db(0).ids(j).value))
      && |after.batches| == 1 && j < |after.batches[0].specs| && after.batches[0].specs[j] == Some(SpecOf(m))
  {
    BulkIsAllOrNothing(env, mutations);
    SpecsFromAt(PlanOf(env, mutations).arriving, 0, j);
  }

  /** After a save with hooks that forward, reading any columns of an inserted row gives back, column by column,
      the node that the save returned for it. */
  lemma {:induction false} BulkThenRead(env: Env, mutations: seq<Mutation>, codec: Codec, j: nat, columns: seq<Column>, values: seq<Holder>)
    requires AllForward(env) && |mutations| == |env.builders| > 0 && j < |mutations|
    requires Invertible(codec) && WellTyped(PlanOf(env, mutations).arriving[j])
    requires FirstFault(env, PlanOf(env, mutations).checked, 0).None?
    requires env.db(0).Inserted? && env.db(0).ids(j).Some?
    requires Scanned(codec, PlanOf(env, mutations).arriving[j], env.db(0).ids(j).value, columns, values)
    ensures var (after, r) := Saved(env, Begun(mutations));
      var read := Assigned(codec, columns, values, map[], map[]);
      && r.Success? && |r.value| == |mutations| && r.value[j].Some? && read.error == None
      && |after.batches| == 1 && j < |after.batches[0].specs| && after.batches[0].specs[j] == Some(SpecOf(PlanOf(env, mutations).arriving[j]))
      && forall c: Column | !c.Other? && c in columns :: CellOf(read.node, c) == CellOf(r.value[j].value, c)
  {
    SavedNode(env, mutations, j);
    CreateThenRead(codec, PlanOf(env, mutations).arriving[j], env.db(0).ids(j).value, columns, values);
  }
}
