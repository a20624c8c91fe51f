# Verified model of the account store and the audit gate

This project models, in Dafny, the parts of the repository that contain real algorithms, and proves what they are
for. Run `dafny verify dfyconfig.toml`.

**Eager loading** (`backend/ent/account_query.go`, `backend/ent/accountgroup_query.go`, the edge accessors of
`backend/ent/account.go`). A query result and one child query per requested edge are turned into an object graph.
`Rows` is the interface assumed of SQL: a table is a function from an order to a list of rows, and a statement filters,
de-duplicates and windows that list. `Query` has the mutable builder, its two lowerings and its copies. `Joins` says what
each kind of edge is for, without maps or loops: the relational join, the partition by owner, the lookup by key.
`EagerLoad` has the loaders, on heap objects and with the maps of the source, and `AccountQuery` composes them.
`SimpleForm` proves exactly when the batched result is what asking for each account separately gives: `Sharing` decides
this for one window over the rows of many owners, and `Batching` for everything before the window and for a second
execution. `Membership` is the composite-key variant.

**Creating accounts** (`backend/ent/account_create.go`, `backend/ent/account.go`). `Columns` and `Create` have defaults,
checks and the insert specification; `RowCodec` reads a row back. `BulkCreate` is the chain of mutators of a bulk save:
each link runs inside its builder's hooks, calls the next link, and only the last link inserts. A hook is any finite tree
of edits, tests and calls of next. The class `AccountCreateBulk` runs the chain on its own state and is proved equal to
the functions `Run`, `Exec`, `Link` and `Forward`, about which everything else is proved: `BulkLaws` (bracketing, how often
the insert runs, hooks that do not call next), `BulkHeld` (which mutation each builder holds, and so what an insert is made
of), `BulkAtomic` (all or nothing) and `BulkChecks` (what can never be inserted, and what success says).
`Upsert` resolves conflict options at the moment of the insert.

**Updating edges** (`backend/ent/account_update.go`, `backend/ent/mutation.go`). `EdgeUpdate` has what a mutation
remembers, the edge specs made from it and their effect, compared with doing the calls one by one.

**The audit gate** (`tools/check_pnpm_audit_exceptions.py`). `Text` and `Exceptions` have the line parser and a printer it
inverts, `Vulns` the enumeration of a report of any shape, `Gate` the index and the scan, `Verdict` the condition they
decide over normalised records and tuples, and `Approval` the exit code, with the condition on the records and tuples
themselves.

Every lemma switches automatic induction off; where a proof is by induction, it is written out.

Where the code does not do what its callers may expect, the model follows the code, and a lemma says exactly when it does:

- A limit or an offset on a child query is one for the whole batch: lists and groups are then those of separate queries
  exactly when the window is fair, proxies exactly when no row is cut off or all are skipped
  (`SimpleForm.EagerLoadIsTheSimpleForm`, `Sharing.WindowIsShared`).
- Executing a child builder a second time intersects the key lists (`Batching.SecondExecution`).
- Other accounts' links can reorder an account's groups (`Joins.BatchedGroupsVersusAlone`).
- The two lowerings differ in exactly three cases (`Query.LoweringsAgree`): a limit of 0; an offset without limit beyond
  2^31 - 1 rows; and a row, up to the end of the window, that only one of them takes for a repetition. The last happens
  with `Unique(true)` over a projection without the ID, which only the node query adds to what is compared
  (`Query.DistinctNamesDiffer`), and in a traversal with `Unique` unset, where only the node query is DISTINCT.
- A hook that replaces the mutation escapes the check, which looks at the mutation the builder still holds
  (`BulkAtomic.ReplacementEscapesTheCheck`).
- A save's result says whether there was an insert only as far as its hooks are honest: one that succeeds without calling
  next leaves earlier mutations marked done with nothing inserted (`BulkChecks.SkippedInsertStillMarksDone`), and one that
  fails after next succeeded makes the save fail with the account inserted (`BulkChecks.FailureAfterTheInsert`);
  `BulkChecks.SuccessIsTheInsert` has the conditions under which neither happens.
- `ClearGroups` does not take back groups added before it (`EdgeUpdate.SavedAsCalled`), and `ClearProxy` has no effect
  right after `SetProxyID` (`EdgeUpdate.ProxySavedAsCalled`).
- A dash on a line of its own does not separate two exceptions (`Exceptions.BareDashSeparatesNothing`), and a numeric
  `source` ends the whole gate although a comment in the file plans for it (`Vulns.NumericSourceCrashes`).

## Model

| member | source | states |
|---|---|---|
| Query.Builder.Do | backend/ent/account_query.go:42-71 | each builder method changes its own part of the builder's state and nothing else; a row lock on Postgres also turns DISTINCT off |
| Query.WhereNarrows | backend/ent/account_query.go:42-45 | conditions add up: after another Where the rows are those of before that meet the new conditions too |
| Query.WindowCallsMean | backend/ent/account_query.go:48-57 | after Limit the node query reads the first rows after the offset, after Offset those after the new offset, up to the limit |
| Query.CandidatesMean | backend/ent/account_query.go:61-70 | DISTINCT applies as Unique says, unset exactly in a traversal; further orders come after earlier ones; a row lock turns DISTINCT off on Postgres and changes no row elsewhere |
| Query.SelectionsAndLocksAddUp | backend/ent/account_query.go:708-784 | what was selected before stays selected, and every row lock reaches both statements, after earlier ones |
| Query.Builder.Prepare | backend/ent/account_query.go:454-478 | preparing reports the first selected field that is not a column, and none exactly when all are |
| Query.Builder.QuerySpec | backend/ent/account_query.go:708-750 | the built node query is the lowering `SpecOf` of the builder's state |
| Query.Builder.LowerColumns | backend/ent/account_query.go:716-727 | the projected columns are the ID, the selected fields without it, and the foreign keys of requested edges once each |
| Query.Builder.SqlQuery | backend/ent/account_query.go:751-784 | the built SELECT is the lowering `SelectorOf` of the builder's state |
| Query.LoweringsAgree | backend/ent/account_query.go:708-784 | for every builder state the two lowerings denote the same rows except in exactly three cases: a limit of 0 that hides rows, an offset without limit that leaves more than MaxInt32 rows, and a row up to the end of the window that only one lowering takes for a repetition of an earlier one |
| Query.DistinctAgreesExactly | backend/ent/account_query.go:708-784 | with no window, Unique(true) reads alike in both exactly when no two rows agree on the selected columns and differ in the ID, and a traversal exactly when no two rows agree on the columns read |
| Query.DistinctNamesDiffer | backend/ent/account_query.go:716-761 | two rows that agree on the selected columns and differ in the ID, for which the lowerings give two rows and one |
| Query.ProjectionKeepsKeys | backend/ent/account_query.go:716-727 | the lowered columns start with the ID and contain every selected field and every foreign key the loaders read, and nothing else |
| Query.ColumnsRead | backend/ent/account_query.go:716-727 | with nothing selected all columns are read, otherwise exactly the selected ones, the ID and the foreign keys |
| Query.Builder.Clone | backend/ent/account_query.go:342-360 | a builder's copy is a new object over a new context with the same state except row locks |
| Joins.JoinedIsTheJoin | backend/ent/account_query.go:576-600 | an account's batched groups are exactly its linked groups, each once however often the link repeats, in order of first appearance in the whole stream |
| Joins.BatchedGroupsVersusAlone | backend/ent/account_query.go:576-600 | batched and separate loading give an account the same set of groups, and the same list exactly when other accounts' links do not reorder them |
| Joins.GroupOrderedStreamKeepsOrder | backend/ent/account_query.go:576-600 | when the stream is sorted by a property of the group alone, batched and separate loading give the same list |
| Joins.OtherAccountReorders | backend/ent/account_query.go:576-600 | two accounts and three links for which the batched order differs from the account's own |
| Joins.ListsPartitionTheResult | backend/ent/account_query.go:652-662 | over distinct accounts that cover the foreign keys, the per-account lists hold every child row exactly as often as the child result does |
| Joins.LookupFinds | backend/ent/account_query.go:622-631 | a key is resolved exactly when some returned row has that ID, and then to such a row |
| EagerLoad.LoadGroups | backend/ent/account_query.go:542-602 | for any node list and row stream, the last node with an ID gets the join of its ID and earlier duplicates get none; it fails exactly on an unknown selected field; the key list is appended to the child query |
| EagerLoad.LoadProxy | backend/ent/account_query.go:603-634 | the child query asks for the distinct non-nil keys and is not executed without any; every node, duplicates included, points at the row returned for its key and is otherwise left alone |
| EagerLoad.LoadUsageLogs | backend/ent/account_query.go:635-664 | every returned log is owned by a node, so the unexpected-key error cannot happen; the last node with an ID gets its logs in result order; a projection is extended with the foreign key |
| EagerLoad.LoadAccountGroups | backend/ent/account_query.go:665-695 | the same for the joining rows |
| EagerLoad.LogsAreConserved | backend/ent/account_query.go:635-664 | with distinct IDs the nodes' own lists together hold every row of the child result exactly as often as it does |
| EagerLoad.KeysAreTheForeignKeys | backend/ent/account_query.go:604-616 | the keys asked for are exactly the non-nil foreign keys in use, each once |
| EagerLoad.FieldsExtended | backend/ent/account_query.go:645-647 | a selection on a child query is extended with the foreign key, and with nothing selected nothing changes |
| EagerLoad.ChildrenCarryKeys | backend/ent/account_query.go:645-651 | every row of a child query carries one of the keys asked for, whatever columns it projects, as long as the key column is read |
| AccountQuery.AccountQuery.All | backend/ent/account_query.go:480-541 | on success there is one node per row, with exactly the requested edges, each computed from the full rows whatever was selected; it fails exactly when an executed query selects an unknown field; the query itself is unchanged |
| AccountQuery.SelectionLeavesEdges | backend/ent/account_query.go:716-727 | selecting columns changes neither which accounts are read nor any edge, if the query is not DISTINCT or the IDs differ |
| SimpleForm.EagerLoadIsTheSimpleForm | backend/ent/account_query.go:480-695 | every requested edge of every account is what a separate query for it gives: always when no child query has a limit or offset, and otherwise, for children with primary keys, exactly when no child query's window treats accounts differently |
| SimpleForm.ListMeans | backend/ent/account_query.go:635-695 | with nothing selected and no window, an account's list is every row of the table that meets the conditions and is the account's, with all columns, in the order asked for |
| SimpleForm.ListColumns | backend/ent/account_query.go:645-647 | a list query reads all columns when none is selected, otherwise exactly the selected ones, the ID and the foreign key |
| SimpleForm.ReadMeans | backend/ent/account_query.go:645-651 | a straight child query reads the rows in the order asked for that meet the conditions and have one of the keys, cut to the columns read |
| SimpleForm.LinksMean | backend/ent/account_query.go:553-586 | the links of a groups' query are the joined rows that meet the conditions and name one of the accounts in the join column, each with its group's ID and columns |
| SimpleForm.ProxyPointsAtItsKey | backend/ent/account_query.go:603-634 | an account's proxy is a returned row with the ID its own foreign key names, and there is one exactly when some returned row has it |
| SimpleForm.ListsUnderWindow | backend/ent/account_query.go:635-695 | for any limit and offset, the lists of all accounts are those of their own queries exactly when the window over the child rows is fair |
| SimpleForm.LimitStarvesAnAccount | backend/ent/account_query.go:635-664 | two accounts with a log each and a limit of 1, for which the load leaves an account without the log that its own query finds |
| SimpleForm.GroupsUnderWindow | backend/ent/account_query.go:553-600 | for any limit and offset, which cut joined rows and not groups, all accounts have the groups of their own queries exactly when the window over the links is fair, and then in the same order exactly when the links read for other accounts do not reorder them |
| SimpleForm.LookupsUnderWindow | backend/ent/account_query.go:603-634 | for any limit and offset, every foreign key finds what its own query finds exactly when the window cuts off no row, or skips them all |
| SimpleForm.ProxiesUnderWindow | backend/ent/account_query.go:603-634 | all accounts have the proxy of their own query exactly when all distinct foreign keys do |
| Sharing.WindowIsShared | backend/ent/account_query.go:635-695 | one window gives every owner what a window of its own would exactly when, without an offset, the limit is absent or not reached or there is one owner, and with an offset, it skips everything, or one owner has all rows to the end of the window and no other has more than are skipped |
| AccountQuery.AccessorsTellLoadedFromMissing | backend/ent/account.go:99-135 | the accessors report "not loaded" exactly for edges not requested, and "not found" for the proxy exactly when requested and unmatched |
| AccountQuery.AccountQuery.First | backend/ent/account_query.go:162-171 | it returns the first row of the unlimited query with that row's own edges, and NotFound exactly when there is none; its limit of 1 stays on the builder |
| AccountQuery.AccountQuery.Only | backend/ent/account_query.go:208-221 | NotFound, NotSingular and success correspond exactly to no row, more than one and one row of the unlimited query; its limit of 2 stays on the builder |
| AccountQuery.AccountQuery.Clone | backend/ent/account_query.go:342-360 | the copy and its four child builders are new objects that ask for the same, without row locks |
| AccountQuery.CopyAndUse | backend/ent/account_query.go:342-360 | after cloning, any interleaving of calls on the original, the copy and their child builders leaves each as if only its own calls had happened |
| Batching.FoundForOne | backend/ent/account_query.go:645-651 | before OFFSET and LIMIT the batched child query restricted to one account is that account's own child query, DISTINCT included |
| Batching.SecondExecution | backend/ent/account_query.go:648-650 | executing a child builder again loads an account as a fresh query would if it was among the first keys, and loads nothing for it otherwise |
| Membership.LoadEnd | backend/ent/accountgroup_query.go:379-407 | with foreign keys that are never nil every joining row points at the row returned for its key, and its other end is untouched |
| Membership.AllMembers | backend/ent/accountgroup_query.go:334-378 | both requested ends of every joining row are those computed from the full rows, whatever was selected, and it fails exactly when an executed query selects an unknown field |
| Membership.EndKeysAreRead | backend/ent/accountgroup_query.go:456-467 | without an ID column, a projection still reads the foreign key of every requested end |
| Membership.EndPointsAtItsKey | backend/ent/accountgroup_query.go:379-437 | the account of a joining row has the ID that its account_id names, its group the one that its group_id names |
| Membership.EndIsFoundAlone | backend/ent/accountgroup_query.go:408-437 | each end is what a query for its key alone returns: always without a child limit and offset, and otherwise exactly when the window cuts off no row, or skips them all |
| Create.Defaults | backend/ent/account_create.go:451-505 | defaults are applied in order and stop at the first one that is not installed |
| Create.DefaultsMean | backend/ent/account_create.go:451-505 | defaults succeed exactly when creation and update times, credentials and extra are set or installed; then these four and the six constant fields all hold what was set or their default |
| Create.DefaultsFill | backend/ent/account_create.go:451-505 | defaults replace nothing and add nothing but defaults; they fail exactly when a needed one is not installed, and that field is then unset |
| Create.DefaultsStop | backend/ent/account_create.go:451-505 | when defaults fail at a field, every field with a default that comes before it in the schema is set, and those after it are left as they were |
| Create.Check | backend/ent/account_create.go:508-574 | the check reports the first complaint, which is about the first field at fault in the order of the schema |
| Create.CheckDecidesInsertable | backend/ent/account_create.go:508-574 | the check passes exactly when the thirteen required fields are set and the validators of name, platform, type, status and, if set, session window status accept them |
| Create.ComplaintIsTrue | backend/ent/account_create.go:508-574 | what a complaint says is true: the field is missing, or its validator rejects the value |
| Create.FirstFaultIsReported | backend/ent/account_create.go:508-574 | the field complained about is at fault, and no field before it in the schema is |
| Create.FailedDefaultIsRejected | backend/ent/account_create.go:508-574 | a failed default leaves a field unset for which the check rejects this and every other mutation that lacks it |
| Create.CheckAfterDefaults | backend/ent/account_create.go:451-574 | after successful defaults the check passes exactly when name, platform and type are set and the five validators accept what is set |
| Create.CreateSpec | backend/ent/account_create.go:594-762 | the spec lists the set fields in order and the edges, and the node holds the same values |
| Create.SpecListsFields | backend/ent/account_create.go:594-762 | the insert lists every set field once with its value, and the groups, proxy and usage logs; the node holds the same values, behind pointers exactly where the column may be NULL |
| Create.SpecFieldsAreTheSetFields | backend/ent/account_create.go:594-703 | the insert lists each field that is set exactly once, with its value, and no other |
| RowCodec.ScanValues | backend/ent/account.go:138-159 | each column gets an empty holder of the type its case names |
| RowCodec.Target.AssignValues | backend/ent/account.go:163-367 | the node and its selected values end as the columns assigned in order, up to the first error; too few values change nothing |
| RowCodec.AssignFailsExactly | backend/ent/account.go:163-367 | assigning fails exactly when some known column's holder has another type or bytes that do not parse |
| RowCodec.WhatFails | backend/ent/account.go:163-367 | a holder fails for its type, or, for a document, for its bytes |
| RowCodec.HoldersFit | backend/ent/account.go:138-367 | the holder made for a column always has the type its assignment expects, so after a scan only a document that does not parse can fail |
| RowCodec.NullReads | backend/ent/account.go:163-367 | NULL leaves a field as it is, and reads as 0 for the key |
| RowCodec.SelectedIsKept | backend/ent/account.go:362-363 | what is selected beside the table's columns is kept under its alias, the last value when it repeats, and nothing else is |
| Columns.ColumnKinds | backend/ent/account.go:138-159 | the columns by type |
| RowCodec.CreateThenRead | backend/ent/account_create.go:594-762 | writing the insert of any mutation and reading any list of columns back gives, column by column, the node that the create returned |
| BulkCreate.AccountCreateBulk.Save | backend/ent/account_create.go:1849-1906 | a save ends in the state and result of the chain's function, for any hooks, and returns an earlier error without doing anything |
| BulkCreate.AccountCreateBulk.Mutate | backend/ent/account_create.go:1856-1898 | a mutator runs its hooks from the given one inwards and then its link |
| BulkCreate.Run | backend/ent/account_create.go:1856-1898 | the chain terminates for any hooks, never loses a mutation object, and never touches what earlier builders hold, their nodes or their specs |
| BulkLaws.SaveIsBracketed | backend/ent/account_create.go:1856-1904 | in every save hooks are entered and left like brackets, builder by builder with hooks[0] outermost, and every insert happens inside all of them |
| BulkLaws.SaveInsertsAtMost | backend/ent/account_create.go:1871-1882 | a save inserts at most as often as the product of its hooks' calls of next, so at most once when none calls next twice; without builders it succeeds with nothing |
| BulkLaws.SilentHookStopsTheChain | backend/ent/account_create.go:1894-1897 | a hook that cannot call next keeps the insert, its own link and all later builders from happening |
| BulkLaws.OtherEntityIsRefused | backend/ent/account_create.go:1860-1864 | a mutation of another entity is refused by the link, and nothing is checked, made or inserted |
| BulkHeld.EveryInsertIsChecked | backend/ent/account_create.go:1859-1882 | with any hooks, every insert has the spec of the mutation each builder holds at that moment; if no hook replaces the mutation, each of those passes its check at that moment |
| BulkHeld.EveryInsertIsInsertable | backend/ent/account_create.go:1859-1882 | unless a hook replaces mutations, every account that a save inserts has its required fields and values that the five validators accept, and its spec lists exactly what was set |
| BulkHeld.LastLink | backend/ent/account_create.go:1865-1885 | the last link checks the mutation held and inserts the one passed; its key is what this insert reports, and the others keep theirs where it reports none |
| BulkAtomic.BulkIsAllOrNothing | backend/ent/account_create.go:1849-1906 | with hooks that call next once, with any account mutation, and report what it reported: there is one insert exactly when every builder's own mutation, with defaults and as edited before it was replaced, passes its check; it holds the spec of what arrived at each link; on success exactly the mutations that arrived are done and every node has its key, in every other case none is and the error is the first fault or the database's; and hooks are entered in order and left in reverse |
| BulkAtomic.FirstFaultDecides | backend/ent/account_create.go:1865-1867 | there is no fault exactly when every mutation that a check looks at may be inserted |
| BulkAtomic.ReplacementEscapesTheCheck | backend/ent/account_create.go:1865-1870 | for any builders and such hooks, whether there is an insert depends on the mutations held, as edited before they were replaced, and what is inserted is what was passed last |
| BulkAtomic.UnreplacedIsChecked | backend/ent/account_create.go:1865-1870 | what arrives at a link is what its check looks at when no hook replaces the mutation |
| BulkChecks.MissingFieldNeverInserts | backend/ent/account_create.go:1859-1867 | a required field that is missing after defaults and that no hook of its builder sets keeps the save from inserting, whatever else any hook does |
| BulkChecks.DroppedDefaultErrorIsHarmless | backend/ent/account_create.go:1859-1867 | although the error of defaults is dropped, a failed default whose field no hook sets means that nothing is inserted |
| BulkChecks.SuccessIsTheInsert | backend/ent/account_create.go:1877-1904 | if no hook reports success of its own, a save succeeds only after an accepted insert and no mutation is done without one; if no hook turns success into failure, a save fails only without one; with both, it succeeds exactly when an insert was accepted |
| BulkChecks.FailureAfterTheInsert | backend/ent/account_create.go:1877-1904 | a hook that fails after next succeeded: the account is inserted, its mutation is done, and the save fails |
| BulkChecks.SkippedInsertStillMarksDone | backend/ent/account_create.go:1886-1897 | a second builder whose hook succeeds without calling next makes the save succeed, with the first mutation done and no insert |
| BulkChecks.BulkThenRead | backend/ent/account_create.go:1849-1906 | after a successful bulk save, reading any columns of row j gives back the node the save returned for it |
| Upsert.Guard | backend/ent/account_create.go:1981-1987 | the guard sets created_at to itself exactly when some builder's mutation has it |
| Upsert.LastAssignmentWins | backend/ent/account_create.go:1979-2016 | options are applied in order and every column takes the assignment of the last option that makes one |
| Upsert.UpsertKeepsCreatedAt | backend/ent/account_create.go:1979-1989 | with UpdateNewValues among any typed calls the update leaves created_at alone exactly when a mutation held at the insert has it or the options given first leave it alone |
| Upsert.BulkUpsertKeepsCreatedAt | backend/ent/account_create.go:1979-1989 | in every insert of a bulk save whose hooks do not replace mutations, a conflicting row keeps its created_at, whatever options came first and whatever typed calls follow |
| Upsert.SettersAfterNewValues | backend/ent/account_create.go:2011-2016 | every other column of a conflicting row takes its last setter after UpdateNewValues, or else the proposed value |
| Upsert.DoNothingKeepsTheRow | backend/ent/account_create.go:2004-2007 | DoNothing among the calls leaves a conflicting row as it was |
| Upsert.IgnoreKeepsTheRow | backend/ent/account_create.go:1997-2000 | Ignore as the last call leaves every column of the insert as it was |
| Upsert.AccountUpsertBulk.Exec | backend/ent/account_create.go:2530-2543 | nothing is sent when the bulk builder failed, a single builder has options, or there are none, in this order; otherwise the save runs |
| EdgeUpdate.EdgeMutation.AddIDs | backend/ent/mutation.go:3832-3839 | identifiers join those added; those removed or the clearing are not taken back |
| EdgeUpdate.EdgeMutation.RemoveIDs | backend/ent/mutation.go:3852-3860 | identifiers leave those added and join those removed |
| EdgeUpdate.AppendEdge | backend/ent/account_update.go:810-866 | whatever order maps are iterated in, the specs appended for an edge clear all of it or what was removed, add what was added, and change no other edge |
| EdgeUpdate.SqlSave | backend/ent/account_update.go:810-940 | read as clear-then-add, the specs leave every edge to many with (nothing if cleared, else the old without the removed) and the added, and the proxy as set, else none if cleared; the single-row update builds the same specs at lines 1767-1892 |
| EdgeUpdate.SavedVersusInTurn | backend/ent/account_update.go:810-866 | compared with doing the calls one by one, a save has exactly the stranded identifiers in addition |
| EdgeUpdate.SavedAsCalled | backend/ent/account_update.go:810-866 | a save does what its calls say one by one exactly when no identifier was added before a clear and neither removed after its addition nor added after the clear |
| EdgeUpdate.ProxySavedAsCalled | backend/ent/account_update.go:867-895 | a save does what the last proxy call says, except exactly when ClearProxy calls follow a SetProxyID directly, which then wins |
| Exceptions.ParseExceptions | tools/check_pnpm_audit_exceptions.py:23-48 | the loop computes the state machine over lines |
| Exceptions.ParsingInvertsPrinting | tools/check_pnpm_audit_exceptions.py:12-48 | printing any list of non-empty items, each value bare or in quotes of either kind, and parsing the text gives the same records, whatever colons and quotes their values contain, with any of the three line ends |
| Exceptions.ReadsBackExactly | tools/check_pnpm_audit_exceptions.py:12-20 | a value comes back from behind the colon always from quotes of either kind, and bare exactly when it has no spaces at its ends and is not in quotes itself |
| Exceptions.SpacesAreTakenOff | tools/check_pnpm_audit_exceptions.py:12-20 | any spaces around the key and around the value as written leave the pair as it is |
| Exceptions.StepLater | tools/check_pnpm_audit_exceptions.py:34-45 | a printed continuation pair is read back exactly when its key cannot be taken for a comment, a header or a dash |
| Exceptions.ParsingFailsExactly | tools/check_pnpm_audit_exceptions.py:38-40 | parsing fails exactly when some dash item has no colon |
| Exceptions.DashItemHasText | tools/check_pnpm_audit_exceptions.py:37-39 | the text after a recognised dash is never blank, so an item is never opened empty |
| Exceptions.BareDashSeparatesNothing | tools/check_pnpm_audit_exceptions.py:29-45 | a line holding only a dash can be removed anywhere without changing the result |
| Exceptions.LineWithoutEffect | tools/check_pnpm_audit_exceptions.py:29-45 | blank lines, comments, the header's lines and lines that are neither dash items nor have a colon can stand anywhere without effect |
| Exceptions.NothingBeforeTheFirstItem | tools/check_pnpm_audit_exceptions.py:43-45 | before the first dash item every other line is passed over |
| Vulns.IterVulns | tools/check_pnpm_audit_exceptions.py:64-111 | the enumeration of any report, or the crash it ends in |
| Vulns.EnumerationIsExact | tools/check_pnpm_audit_exceptions.py:64-111 | the tuples are one per advisory, in order, with its severity and by preference its name, identifier and title; then for each vulnerability one per truthy identifier of its via, in order, with its name and severity, each identifier and title part by preference |
| Vulns.AdvisoryIdentifier | tools/check_pnpm_audit_exceptions.py:51-61 | a GitHub identifier is the identifier whatever else the entry holds, only without it the URL, and only without both the first truthy of CVE, id, title, advisory and overview |
| Vulns.ItemIdentified | tools/check_pnpm_audit_exceptions.py:90-104 | an item of via is identified by itself if it is text, else by the first truthy of GitHub identifier, URL, source, title and name |
| Vulns.JoinedMeans | tools/check_pnpm_audit_exceptions.py:109 | the joined title is its first part followed by each other part after a semicolon and a space |
| Vulns.EnumerationFailsExactly | tools/check_pnpm_audit_exceptions.py:64-111 | the enumeration fails exactly on a report or entry that is no object, CVEs that are needed and cannot be indexed, or a title that is present and not text |
| Vulns.TitleCrashesExactly | tools/check_pnpm_audit_exceptions.py:109 | a well-formed entry crashes exactly when an item's title is present and not text |
| Vulns.NumericSourceCrashes | tools/check_pnpm_audit_exceptions.py:88-109 | an item with a numeric source and nothing else to use as a title ends the run |
| Gate.BuildIndex | tools/check_pnpm_audit_exceptions.py:152-185 | the index has the first usable record under each key, and there is no error exactly when all records are usable and no two share a key |
| Gate.Judge | tools/check_pnpm_audit_exceptions.py:193-219 | what one tuple contributes: reported missing, expired or in error exactly under the stated conditions, and counted as seen exactly when it can be looked up |
| Gate.Scan | tools/check_pnpm_audit_exceptions.py:192-219 | the loop crashes exactly on a truthy severity that is not text, and otherwise collects the missing, the expired and the troubled |
| Verdict.MissingListIsExact | tools/check_pnpm_audit_exceptions.py:203-210 | the positions reported as missing are, in order, exactly the first high occurrences of keys without an exception |
| Verdict.ExpiredListIsExact | tools/check_pnpm_audit_exceptions.py:216-219 | the positions reported as expired are, in order, exactly the first high occurrences of keys whose exception has expired |
| Verdict.ScanDecides | tools/check_pnpm_audit_exceptions.py:151-243 | index and scan report nothing exactly when the records are usable with distinct keys, every high tuple is excused, and the first high tuple of each key agrees in severity |
| Approval.Validate | tools/check_pnpm_audit_exceptions.py:142-243 | the gate crashes exactly in the stated cases, and otherwise exits 0 exactly when every record states its five fields, a date and a package and advisory that are not blank, no two are for the same subject, every named tuple of high or critical severity has an unexpired record, and the first such tuple of each subject has the severity its record states, unless that is blank |
| Approval.ApprovedIsAcceptable | tools/check_pnpm_audit_exceptions.py:151-243 | that condition on records and tuples is the one the index and the scan decide over normalised ones |
| Approval.QuietTupleContributesNothing | tools/check_pnpm_audit_exceptions.py:193-196 | a tuple without a name or of another severity contributes nothing, wherever it stands |

## Left out

Assumed of code that is not part of this model:

- The SQL and graph libraries: a query sorts deterministically, DISTINCT compares the columns read and keeps the first of
  equal rows, a node query reads a limit or offset of 0 as absent and adds no limit of its own to an offset, and the join
  of the groups' query yields one row per link. Edge specs are applied clear-then-add, a clear without targets clears the
  whole edge, and the last assignment of an upsert to a column wins, NULL included. Negative limits and offsets, and reads
  that fail in the database, are not modelled.
- Query.LoweringsAgree: its case of an offset beyond MaxInt32 rows rests on the graph library adding no limit of its own.
- Query.Builder.Prepare: interceptors and the selector of a traversal are not part of it; a builder only knows whether it
  continues another query.
- Query.Builder.SqlQuery: the selector stored by a traversal is not part of it; the table stands for its rows.
- The children of an eager load are values, so sharing of one child object between accounts is not captured, nor are
  eager loads requested on a child query.
- The groups' join is only the first execution's: a second execution of that builder would join the table twice.
- `AccountMutation` is a map of set fields and the edges; `Add*` on numeric fields, old values, and `Reset*` are not in it.
- JSON text, lower-casing, text of non-text values, dates and the clock are parameters. White space is what the language's
  `strip` removes, the Unicode spaces included. Objects of a report have distinct keys. The texts of error messages are
  not modelled, only which error is reported.
- Fields are unbounded integers and reals: the precision of the rate multiplier is not modelled.

Not modelled:

- Hooks beyond finite trees: hooks that loop, keep state between calls or read other builders' nodes, builders that occur
  twice in one bulk save or share a mutation, and hooks that return their own node (the save ignores that value). Each
  lazy default has one value per builder.
- Create.CreateSpec: the fields stored in the rows that join groups (their own defaults) are not part of the edge, because
  they belong to another entity.
- RowCodec.CreateThenRead: assumes an invertible JSON codec, and says nothing about key order inside a document.
- SimpleForm.EagerLoadIsTheSimpleForm: exact for windows only where primary keys keep links and child rows apart, as equal
  rows can stand in for one another; without windows it needs no such thing.
- BulkChecks.SuccessIsTheInsert: conditions on the hooks that suffice; a hook that breaks them may still behave in a run.
- Upsert.AccountUpsertBulk.Exec: `ExecX` is not modelled; it skips the two guards on options and calls the save directly.
- Single-row save and update, which are the one-builder case without the chain; setters, panicking wrappers, counting,
  grouping and aggregation, and the other entities' generated files, which are copies of the same templates.
- Transactions and the locking itself.
