/** Inserting over existing rows: conflict options that are resolved when the insert is sent. */
module Upsert {
  import opened Wrappers
  import opened Columns
  import opened Create
  import opened RowCodec
  import opened BulkCreate
  import opened BulkHeld

  /** What a column of a conflicting row is set to: a value, what was proposed for insertion, what it was, or NULL. */
  datatype Assign = ToValue(v: Val) | ToNew | ToOld | ToNull

  datatype Setting = Setting(c: Column, to: Assign)

  /** `GuardCreatedAt` is a closure: it looks at the builders' mutations when the insert is sent. */
  datatype ConflictOption =
    | ConflictColumns(columns: seq<Column>)
    | ResolveWithNewValues
    | ResolveWithIgnore
    | DoNothing
    | ResolveWith(settings: seq<Setting>)
    | GuardCreatedAt

  type UpdateSet = map<Column, Assign>

  // ----- Resolution

  /** Each of `columns` set to the same. */
  function SetAll(sets: UpdateSet, columns: seq<Column>, to: Assign): UpdateSet
    decreases |columns|, sets
  {
    if columns == [] then sets else SetAll(sets[columns[0] := to], columns[1..], to)
  }

  function Apply(sets: UpdateSet, settings: seq<Setting>): UpdateSet
    decreases |settings|, sets
  {
    if settings == [] then sets else Apply(sets[settings[0].c := settings[0].to], settings[1..])
  }

  /** For every builder whose mutation has created_at, the column is set to itself. */
  function Guarded(sets: UpdateSet, held: seq<Mutation>): UpdateSet
    decreases |held|, sets
  {
    if held == [] then sets
    else Guarded(if CreatedAt in held[0].fields then sets[CreatedAt := ToOld] else sets, held[1..])
  }

  method Guard(sets: UpdateSet, held: seq<Mutation>) returns (r: UpdateSet)
    ensures r == Guarded(sets, held)
    ensures r == if exists k :: 0 <= k < |held| && CreatedAt in held[k].fields then sets[CreatedAt := ToOld] else sets
  {
    r := sets;
    for k := 0 to |held|
      invariant Guarded(r, held[k..]) == Guarded(sets, held)
    {
      if CreatedAt in held[k].fields {
        r := r[CreatedAt := ToOld];
      }
    }
    GuardedMeans(sets, held);
  }

  lemma {:induction false} GuardedMeans(sets: UpdateSet, held: seq<Mutation>)
    ensures Guarded(sets, held) == if exists k :: 0 <= k < |held| && CreatedAt in held[k].fields then sets[CreatedAt := ToOld] else sets
    decreases |held|
  {
    if held != [] {
      var first := CreatedAt in held[0].fields;
      GuardedMeans(if first then sets[CreatedAt := ToOld] else sets, held[1..]);
      assert forall k | 1 <= k < |held| :: held[k] == held[1..][k - 1];
      assert sets[CreatedAt := ToOld][CreatedAt := ToOld] == sets[CreatedAt := ToOld];
    }
  }

  /** One option applied to the update of an insert of `columns`, while the builders hold `held`. */
  function Applied(sets: UpdateSet, option: ConflictOption, columns: seq<Column>, held: seq<Mutation>): UpdateSet {
    match option
    case ConflictColumns(_) => sets
    case DoNothing => sets
    case ResolveWithNewValues => SetAll(sets, columns, ToNew)
    case ResolveWithIgnore => SetAll(sets, columns, ToOld)
    case ResolveWith(settings) => Apply(sets, settings)
    case GuardCreatedAt => Guarded(sets, held)
  }

  function Resolved(options: seq<ConflictOption>, columns: seq<Column>, held: seq<Mutation>): UpdateSet {
    if options == [] then map[]
    else Applied(Resolved(options[..|options| - 1], columns, held), options[|options| - 1], columns, held)
  }

  /** What becomes of a column of a conflicting row. */
  function AfterConflict(options: seq<ConflictOption>, columns: seq<Column>, held: seq<Mutation>, codec: Codec, was: Raw, proposed: Raw, c: Column): Raw {
    var sets := Resolved(options, columns, held);
    if DoNothing in options || c !in sets then was
    else match sets[c]
      case ToValue(v) => Encoded(codec, v)
      case ToNew => proposed
      case ToOld => was
      case ToNull => Null
  }

  // ----- The last assignment wins

  function LastSetting(settings: seq<Setting>, c: Column): Option<Assign> {
    if settings == [] then None
    else
      var later := LastSetting(settings[1..], c);
      if later.Some? then later else if settings[0].c == c then Some(settings[0].to) else None
  }

  /** What one option assigns to a column, if anything. */
  ghost function Assigns(option: ConflictOption, columns: seq<Column>, held: seq<Mutation>, c: Column): Option<Assign> {
    match option
    case ConflictColumns(_) => None
    case DoNothing => None
    case ResolveWithNewValues => if c in columns then Some(ToNew) else None
    case ResolveWithIgnore => if c in columns then Some(ToOld) else None
    case ResolveWith(settings) => LastSetting(settings, c)
    case GuardCreatedAt => if c == CreatedAt && exists k :: 0 <= k < |held| && CreatedAt in held[k].fields then Some(ToOld) else None
  }

  /** The assignment of the last option that assigns the column. */
  ghost function LastAssign(options: seq<ConflictOption>, columns: seq<Column>, held: seq<Mutation>, c: Column): Option<Assign> {
    if options == [] then None
    else
      var later := LastAssign(options[1..], columns, held, c);
      if later.Some? then later else Assigns(options[0], columns, held, c)
  }

  function Entry(sets: UpdateSet, c: Column): Option<Assign> {
    if c in sets then Some(sets[c]) else None
  }

  function OrElse(first: Option<Assign>, otherwise: Option<Assign>): Option<Assign> {
    if first.Some? then first else otherwise
  }

  lemma {:induction false} SetAllEntry(sets: UpdateSet, columns: seq<Column>, to: Assign, c: Column)
    ensures Entry(SetAll(sets, columns, to), c) == if c in columns then Some(to) else Entry(sets, c)
    decreases |columns|
  {
    if columns != [] {
      SetAllEntry(sets[columns[0] := to], columns[1..], to, c);
      assert columns == [columns[0]] + columns[1..];
    }
  }

  lemma {:induction false} ApplyEntry(sets: UpdateSet, settings: seq<Setting>, c: Column)
    ensures Entry(Apply(sets, settings), c) == OrElse(LastSetting(settings, c), Entry(sets, c))
    decreases |settings|
  {
    if settings != [] {
      ApplyEntry(sets[settings[0].c := settings[0].to], settings[1..], c);
    }
  }

  lemma {:induction false} AppliedEntry(sets: UpdateSet, option: ConflictOption, columns: seq<Column>, held: seq<Mutation>, c: Column)
    ensures Entry(Applied(sets, option, columns, held), c) == OrElse(Assigns(option, columns, held, c), Entry(sets, c))
  {
    match option
    case ConflictColumns(_) =>
    case DoNothing =>
    case ResolveWithNewValues => SetAllEntry(sets, columns, ToNew, c);
    case ResolveWithIgnore => SetAllEntry(sets, columns, ToOld, c);
    case ResolveWith(settings) => ApplyEntry(sets, settings, c);
    case GuardCreatedAt => GuardedMeans(sets, held);
  }

  lemma {:induction false} LastSettingOne(setting: Setting, c: Column)
    ensures LastSetting([setting], c) == if setting.c == c then Some(setting.to) else None
  {
    assert [setting][1..] == [];
  }

  lemma {:induction false} LastAssignAppend(options: seq<ConflictOption>, more: seq<ConflictOption>, columns: seq<Column>, held: seq<Mutation>, c: Column)
    ensures LastAssign(options + more, columns, held, c) == OrElse(LastAssign(more, columns, held, c), LastAssign(options, columns, held, c))
  {
    if options == [] {
      assert options + more == more;
    } else {
      assert (options + more)[0] == options[0] && (options + more)[1..] == options[1..] + more;
      LastAssignAppend(options[1..], more, columns, held, c);
    }
  }

  lemma {:induction false} LastAssignOne(option: ConflictOption, columns: seq<Column>, held: seq<Mutation>, c: Column)
    ensures LastAssign([option], columns, held, c) == Assigns(option, columns, held, c)
  {
    assert [option][1..] == [];
  }

  /** Options are applied in order, and every column takes its last assignment. */
  lemma {:induction false} LastAssignmentWins(options: seq<ConflictOption>, columns: seq<Column>, held: seq<Mutation>, c: Column)
    ensures Entry(Resolved(options, columns, held), c) == LastAssign(options, columns, held, c)
  {
    if options != [] {
      var before, last := options[..|options| - 1], options[|options| - 1];
      LastAssignmentWins(before, columns, held, c);
      AppliedEntry(Resolved(before, columns, held), last, columns, held, c);
      assert options == before + [last];
      LastAssignAppend(before, [last], columns, held, c);
      LastAssignOne(last, columns, held, c);
    }
  }

  // ----- The builder

  /** The calls a user makes on the bulk upsert builder. A typed setter names any column but the key and
      created_at, and clears only nullable ones. */
  datatype Call = CallUpdateNewValues | CallIgnore | CallDoNothing | CallSet(setting: Setting)

  predicate Typed(call: Call) {
    call.CallSet? ==>
      var Setting(c, to) := call.setting;
      c != ID && c != CreatedAt && !c.Other? && !to.ToOld? && (to.ToNull? ==> Nillable(c))
  }

  function OptionsOf(call: Call): seq<ConflictOption> {
    match call
    case CallUpdateNewValues => [ResolveWithNewValues, GuardCreatedAt]
    case CallIgnore => [ResolveWithIgnore]
    case CallDoNothing => [DoNothing]
    case CallSet(setting) => [ResolveWith([setting])]
  }

  function AllOptions(calls: seq<Call>): seq<ConflictOption> {
    if calls == [] then [] else AllOptions(calls[..|calls| - 1]) + OptionsOf(calls[|calls| - 1])
  }

  datatype UpsertError = CreateError(e: Error) | ConflictSetOnBuilder(i: nat) | MissingOptions

  class AccountUpsertBulk {
    const create: AccountCreateBulk
    const builderConflicts: seq<seq<ConflictOption>>  // set on single builders
    var conflict: seq<ConflictOption>

    /** OnConflict replaces whatever options were set before. */
    constructor (create: AccountCreateBulk, builderConflicts: seq<seq<ConflictOption>>, options: seq<ConflictOption>)
      ensures this.create == create && this.builderConflicts == builderConflicts && conflict == options
    {
      this.create, this.builderConflicts, conflict := create, builderConflicts, options;
    }

    method UpdateNewValues()
      modifies this`conflict
      ensures conflict == old(conflict) + OptionsOf(CallUpdateNewValues)
    {
      conflict := conflict + [ResolveWithNewValues];
      conflict := conflict + [GuardCreatedAt];
    }

    method Ignore()
      modifies this`conflict
      ensures conflict == old(conflict) + OptionsOf(CallIgnore)
    {
      conflict := conflict + [ResolveWithIgnore];
    }

    method DoNothing()
      modifies this`conflict
      ensures conflict == old(conflict) + OptionsOf(CallDoNothing)
    {
      conflict := conflict + [ConflictOption.DoNothing];
    }

    /** A typed setter. */
    method Update(setting: Setting)
      modifies this`conflict
      ensures conflict == old(conflict) + OptionsOf(CallSet(setting))
    {
      conflict := conflict + [ResolveWith([setting])];
    }

    /** Nothing is sent when the bulk builder already failed, a single builder has options of its own, or there are no options. */
    method Exec() returns (r: Result<seq<Option<Node>>, UpsertError>)
      requires Shaped(create.env, create.S())
      modifies create
      ensures match (create.err, FirstSet(builderConflicts, 0))
        case (Some(e), _) => r == Failure(CreateError(e)) && create.S() == old(create.S())
        case (None, Some(i)) => r == Failure(ConflictSetOnBuilder(i)) && create.S() == old(create.S())
        case (None, None) =>
          if conflict == [] then r == Failure(MissingOptions) && create.S() == old(create.S())
          else create.S() == Saved(create.env, old(create.S())).0 &&
               match Saved(create.env, old(create.S())).1
               case Success(nodes) => r == Success(nodes)
               case Failure(e) => r == Failure(CreateError(e))
    {
      if create.err.Some? {
        return Failure(CreateError(create.err.value));
      }
      for i := 0 to |builderConflicts|
        invariant FirstSet(builderConflicts, i) == FirstSet(builderConflicts, 0)
      {
        if builderConflicts[i] != [] {
          return Failure(ConflictSetOnBuilder(i));
        }
      }
      if conflict == [] {
        return Failure(MissingOptions);
      }
      var saved := create.Save();
      match saved
      case Success(nodes) => r := Success(nodes);
      case Failure(e) => r := Failure(CreateError(e));
    }
  }

  function FirstSet(conflicts: seq<seq<ConflictOption>>, i: nat): Option<nat>
    requires i <= |conflicts|
    decreases |conflicts| - i
  {
    if i == |conflicts| then None else if conflicts[i] != [] then Some(i) else FirstSet(conflicts, i + 1)
  }

  lemma {:induction false} FirstSetFinds(conflicts: seq<seq<ConflictOption>>, i: nat)
    requires i <= |conflicts|
    ensures match FirstSet(conflicts, i)
      case None => forall k | i <= k < |conflicts| :: conflicts[k] == []
      case Some(j) => i <= j < |conflicts| && conflicts[j] != [] && forall k | i <= k < j :: conflicts[k] == []
    decreases |conflicts| - i
  {
    if i < |conflicts| && conflicts[i] == [] {
      FirstSetFinds(conflicts, i + 1);
    }
  }

  // ----- Calls that keep the row

  /** DoNothing anywhere among the calls leaves the whole conflicting row as it was. */
  lemma {:induction false} DoNothingKeepsTheRow(raw: seq<ConflictOption>, calls: seq<Call>, columns: seq<Column>, held: seq<Mutation>,
      codec: Codec, was: Raw, proposed: Raw, c: Column)
    requires CallDoNothing in calls
    ensures AfterConflict(raw + AllOptions(calls), columns, held, codec, was, proposed, c) == was
  {
    DoNothingIsAmong(calls);
  }

  lemma {:induction false} DoNothingIsAmong(calls: seq<Call>)
    requires CallDoNothing in calls
    ensures DoNothing in AllOptions(calls)
  {
    var before, call := calls[..|calls| - 1], calls[|calls| - 1];
    assert calls == before + [call];
    if call.CallDoNothing? {
      assert OptionsOf(call)[0] == DoNothing;
    } else {
      DoNothingIsAmong(before);
    }
  }

  /** Ignore as the last call leaves every column that the insert has as it was. */
  lemma {:induction false} IgnoreKeepsTheRow(options: seq<ConflictOption>, columns: seq<Column>, held: seq<Mutation>, codec: Codec, was: Raw, proposed: Raw, c: Column)
    requires c in columns
    ensures AfterConflict(options + OptionsOf(CallIgnore), columns, held, codec, was, proposed, c) == was
  {
    LastAssignmentWins(options + OptionsOf(CallIgnore), columns, held, c);
    LastAssignAppend(options, OptionsOf(CallIgnore), columns, held, c);
    LastAssignOne(ResolveWithIgnore, columns, held, c);
  }

  // ----- created_at

  predicate HasCreatedAt(held: seq<Mutation>) {
    exists k :: 0 <= k < |held| && CreatedAt in held[k].fields
  }

  /** The columns of an insert are those of its specs. */
  ghost predicate ColumnsOf(columns: seq<Column>, specs: seq<Option<Spec>>) {
    forall c :: c in columns <==>
      exists k :: 0 <= k < |specs| && specs[k].Some? && (ValueIn(specs[k].value.fields, c).Some? || (c == ProxyID && specs[k].value.proxy.Some?))
  }

  /** An insert carries created_at exactly when some builder's mutation has it. */
  lemma {:induction false} CarriesCreatedAt(env: Env, strict: bool, b: Batch, columns: seq<Column>)
    requires Whole(env, strict, b) && ColumnsOf(columns, b.specs)
    ensures CreatedAt in columns <==> HasCreatedAt(b.held)
  {
    IsField(CreatedAt);
    forall k | 0 <= k < |b.held| ensures b.specs[k].Some? && (ValueIn(b.specs[k].value.fields, CreatedAt).Some? <==> CreatedAt in b.held[k].fields) {
      assert b.specs[k] == Some(SpecOf(b.held[k]));
      ValueInSpec(b.held[k], FIELDS, CreatedAt);
    }
  }

  /** Typed calls never leave created_at anything but itself. */
  lemma {:induction false} CallsKeepCreatedAt(calls: seq<Call>, columns: seq<Column>, held: seq<Mutation>)
    requires forall call | call in calls :: Typed(call)
    requires CreatedAt in columns ==> HasCreatedAt(held)
    ensures var last := LastAssign(AllOptions(calls), columns, held, CreatedAt);
      && (last == None || last == Some(ToOld))
      && (CallUpdateNewValues in calls && HasCreatedAt(held) ==> last == Some(ToOld))
  {
    if calls != [] {
      var before, call := calls[..|calls| - 1], calls[|calls| - 1];
      assert calls == before + [call];
      CallsKeepCreatedAt(before, columns, held);
      LastAssignAppend(AllOptions(before), OptionsOf(call), columns, held, CreatedAt);
      CallKeepsCreatedAt(call, columns, held);
    }
  }

  lemma {:induction false} CallKeepsCreatedAt(call: Call, columns: seq<Column>, held: seq<Mutation>)
    requires Typed(call) && (CreatedAt in columns ==> HasCreatedAt(held))
    ensures var last := LastAssign(OptionsOf(call), columns, held, CreatedAt);
      && (last == None || last == Some(ToOld))
      && (call == CallUpdateNewValues && HasCreatedAt(held) ==> last == Some(ToOld))
  {
    match call
    case CallUpdateNewValues =>
      LastAssignOne(GuardCreatedAt, columns, held, CreatedAt);
      assert OptionsOf(call)[1..] == [GuardCreatedAt];
    case CallIgnore => LastAssignOne(ResolveWithIgnore, columns, held, CreatedAt);
    case CallDoNothing => LastAssignOne(DoNothing, columns, held, CreatedAt);
    case CallSet(setting) =>
      LastAssignOne(ResolveWith([setting]), columns, held, CreatedAt);
      LastSettingOne(setting, CreatedAt);
  }

  /** What the options given to OnConflict do to created_at by themselves. */
  ghost predicate RawKeeps(raw: seq<ConflictOption>, columns: seq<Column>, held: seq<Mutation>) {
    LastAssign(raw, columns, held, CreatedAt) in {None, Some(ToOld)}
  }

  /** For an insert of a bulk save, after UpdateNewValues among any typed calls: the update of a conflicting row
      leaves created_at alone exactly when some mutation held at that moment has created_at, or the options given
      first to OnConflict leave it alone by themselves. */
  lemma {:induction false} UpsertKeepsCreatedAt(env: Env, strict: bool, b: Batch, columns: seq<Column>, raw: seq<ConflictOption>, calls: seq<Call>)
    requires Whole(env, strict, b) && ColumnsOf(columns, b.specs)
    requires CallUpdateNewValues in calls && forall call | call in calls :: Typed(call)
    ensures Entry(Resolved(raw + AllOptions(calls), columns, b.held), CreatedAt) in {None, Some(ToOld)} <==>
      HasCreatedAt(b.held) || RawKeeps(raw, columns, b.held)
  {
    CarriesCreatedAt(env, strict, b, columns);
    CallsKeepCreatedAt(calls, columns, b.held);
    LastAssignmentWins(raw + AllOptions(calls), columns, b.held, CreatedAt);
    LastAssignAppend(raw, AllOptions(calls), columns, b.held, CreatedAt);
    if !HasCreatedAt(b.held) {
      NothingWithoutIt(calls, columns, b.held);
    }
  }

  lemma {:induction false} CallAssignsNothing(call: Call, columns: seq<Column>, held: seq<Mutation>)
    requires Typed(call) && CreatedAt !in columns && !HasCreatedAt(held)
    ensures LastAssign(OptionsOf(call), columns, held, CreatedAt) == None
  {
    if call.CallUpdateNewValues? {
      LastAssignOne(GuardCreatedAt, columns, held, CreatedAt);
      assert OptionsOf(call)[1..] == [GuardCreatedAt];
    } else {
      LastAssignOne(OptionsOf(call)[0], columns, held, CreatedAt);
      if call.CallSet? {
        LastSettingOne(call.setting, CreatedAt);
      }
    }
  }

  lemma {:induction false} NothingWithoutIt(calls: seq<Call>, columns: seq<Column>, held: seq<Mutation>)
    requires forall call | call in calls :: Typed(call)
    requires CreatedAt !in columns && !HasCreatedAt(held)
    ensures LastAssign(AllOptions(calls), columns, held, CreatedAt) == None
  {
    if calls != [] {
      var before, call := calls[..|calls| - 1], calls[|calls| - 1];
      assert calls == before + [call];
      NothingWithoutIt(before, columns, held);
      LastAssignAppend(AllOptions(before), OptionsOf(call), columns, held, CreatedAt);
      CallAssignsNothing(call, columns, held);
    }
  }

  /** In every insert of a bulk save whose hooks do not replace mutations, the check has forced created_at to be
      there: whatever options came first and whatever typed calls follow, UpdateNewValues keeps the old value. */
  lemma {:induction false} BulkUpsertKeepsCreatedAt(env: Env, mutations: seq<Mutation>, b: Batch, columns: seq<Column>, raw: seq<ConflictOption>,
      calls: seq<Call>, codec: Codec, was: Raw, proposed: Raw)
    requires |mutations| == |env.builders| > 0 && NoneReplaces(env)
    requires b in Saved(env, Begun(mutations)).0.batches && ColumnsOf(columns, b.specs)
    requires CallUpdateNewValues in calls && forall call | call in calls :: Typed(call)
    ensures AfterConflict(raw + AllOptions(calls), columns, b.held, codec, was, proposed, CreatedAt) == was
  {
    EveryInsertIsChecked(env, mutations);
    assert Whole(env, true, b);
    CheckDecidesInsertable(env.builders[0].schema, b.held[0]);
    IsRequired(CreatedAt);
    assert CreatedAt in b.held[0].fields;
    UpsertKeepsCreatedAt(env, true, b, columns, raw, calls);
  }

  /** One option for each typed setter. */
  function Setters(settings: seq<Setting>): seq<ConflictOption> {
    if settings == [] then [] else [ResolveWith([settings[0]])] + Setters(settings[1..])
  }

  lemma {:induction false} SettersAssign(settings: seq<Setting>, columns: seq<Column>, held: seq<Mutation>, c: Column)
    ensures LastAssign(Setters(settings), columns, held, c) == LastSetting(settings, c)
    ensures DoNothing !in Setters(settings)
  {
    if settings != [] {
      SettersAssign(settings[1..], columns, held, c);
      LastSettingOne(settings[0], c);
    }
  }

  /** Every other column of a conflicting row takes its last assignment: its last setter after UpdateNewValues,
      or else what was proposed for insertion. */
  lemma {:induction false} SettersAfterNewValues(raw: seq<ConflictOption>, settings: seq<Setting>, columns: seq<Column>, held: seq<Mutation>,
      codec: Codec, was: Raw, proposed: Raw, c: Column)
    requires DoNothing !in raw && c != CreatedAt && c in columns
    ensures AfterConflict(raw + OptionsOf(CallUpdateNewValues) + Setters(settings), columns, held, codec, was, proposed, c) ==
      match LastSetting(settings, c)
      case None => proposed
      case Some(ToValue(v)) => Encoded(codec, v)
      case Some(ToNew) => proposed
      case Some(ToOld) => was
      case Some(ToNull) => Null
  {
    var first := raw + OptionsOf(CallUpdateNewValues);
    LastAssignmentWins(first + Setters(settings), columns, held, c);
    LastAssignAppend(first, Setters(settings), columns, held, c);
    SettersAssign(settings, columns, held, c);
    LastAssignAppend(raw, OptionsOf(CallUpdateNewValues), columns, held, c);
    LastAssignAppend([ResolveWithNewValues], [GuardCreatedAt], columns, held, c);
    LastAssignOne(ResolveWithNewValues, columns, held, c);
    LastAssignOne(GuardCreatedAt, columns, held, c);
    assert OptionsOf(CallUpdateNewValues) == [ResolveWithNewValues] + [GuardCreatedAt];
  }
}
