# Accounts: eager loading, bulk creation and the CI checks, verified

A Dafny model of the account persistence code (generated by ent, in `backend/ent`) and of two CI
checkers (in `tools`), with proofs of what they are for. `dafny verify dfyconfig.toml` checks all of it.

- **Eager loading** (`Relational`, `Lookup`, `Agreement`, `EdgeLaws`, `EagerLoading`, `LoadedGraphs`). The
  database is a collection of relations with an explicit meaning of select, filter, order, window and
  the join behind a many-to-many load. `Lookup.Trees` looks up every node's neighbours with a query
  of its own, recursively; `Lookup.BatchTrees` is one query per edge whose rows are dealt out.
  `EagerLoading` is the loading code itself: nodes are heap objects with mutable edge lists, and
  `SqlAll`, `LoadJoined` (many-to-many, with the hijacked scanner), `LoadUnique` (many-to-one) and
  `LoadMany` (one-to-many) fill maps and append to lists in loops. `SqlAll` is proved to build, on fresh
  nodes, exactly the batched graph, with at most one select per query of the nest and with no error
  branch reached; the batched graph is proved equal to the naive one exactly when no nested query has a
  limit or an offset. The iteration over the owner sets is in any order. `LoadedGraphs` says what the
  nodes hold in terms of the database: their lists, the answers of their accessors, and the columns that a
  field selection leaves them.
- **The query builder** (`Slices`, `QueryBuilder`). A builder points to a context and holds slices over
  arrays that appending may write in place, and builders nest in builders. `Clone` is a deep copy: no edit
  of anything the one reaches touches the other. With a shallow copy a filter added to the original would
  overwrite the one just added to the copy, which is shown.
- **Running a builder, and running it again** (`Reuse`, `Finders`). A load adds its batch filter and key
  column to the nested builders in place and they stay there, so `First` followed by `All` on one builder
  loses edges, and a nested groups builder, joined a second time, makes the scanner find another account
  where it expects the group's id, so that the second run breaks off. `Reuse` says what every nested builder
  describes after a run and proves when a builder can be run again on every database: exactly when it loads
  no edges, or loads no groups and the second window lies inside the first.
- **Bulk creation** (`BulkCreate`, `HookContexts`, `CreateChecks`). The continuation chain as mutually recursive
  functions and as an object that is proved to compute them. Hooks are arbitrary deciders that see what
  they were handed and the outcomes of their calls so far. What a create with
  forwarding hooks inserts and returns is stated exactly, for any number of builders. Three properties that a reader might assume
  turn out to be conditional, and the conditions are proved: a hook can fail a create after its rows
  were inserted; the check looks at the builder's own mutation before the builder adopts the one it was
  handed; and the ignored error of `defaults` is caught unless a hook fills the very field. For the first two
  the condition is exact, both for one hook alone and for a hook in any chain of any number of builders and
  hooks.
- **The row codec** (`RowCodec`). What `createSpec` writes is read back by `scanValues` and
  `assignValues`, for any columns in any order, with JSON as an abstract inverse pair.
- **The audit check** (`Text`, `AuditParser`, `AuditPolicy`). The exception file is parsed by a
  line-oriented state machine that a printer is proved to invert; the exit code is proved to be a
  declarative policy over exceptions and findings.
- **The migration lint** (`MigrationNames`, `MigrationLint`, `MigrationHistory`). The name pattern as a
  regular expression with its language; the reading of git's report as the inverse of its printing; and
  what any sequence of accepted clean merges keeps. The code does not look at status `T` (a change of a
  file's type), so a migration can be replaced by a symbolic link; content is kept exactly when that
  does not happen.

Where the code and its comments differ, the model follows the code: a `Clone` is documented to include
"all associated steps" but drops row-lock modifiers (`backend/ent/account_query.go:388-408`), and the
rules stated at the top of the lint give a pattern without the newline that `$` tolerates
(`tools/check_migration_lint.py:5-6` and `:24`).

## Model

| member | source | states |
|---|---|---|
| Lookup.BatchedIsNaive | backend/ent/account_query.go:550-844 | for every database and every nest of eager loads without nested windows, the graph dealt out from one query per edge is the graph found by looking up each node's neighbours, recursively |
| Lookup.BatchShare | backend/ent/account_query.go:627-844 | one owner's share of a batch, of any of the three kinds of edge, is that owner's own lookup: same rows, same order, same multiplicity |
| Lookup.FirstSeenJoin | backend/ent/account_query.go:650-686 | swallowing the repeated rows of the joined group query leaves each group once, in the order of that query |
| Lookup.FirstSeenDistinct | backend/ent/account_query.go:661-670 | no group id is loaded twice by a joined load |
| Lookup.DistinctKeysMembers | backend/ent/account_query.go:689-700 | the id list of a many-to-one load holds every non-NULL foreign key, nothing else, and no key twice |
| Agreement.AgreementIffUnwindowed | backend/ent/account_query.go:584-623 | an unfiltered eager load agrees with per-node lookups on every database if and only if no nested query at any depth carries a limit or an offset |
| EdgeLaws.TwoRoutes | backend/ent/account_query.go:627-687 | the groups of an account reached directly are those reached through its join entities, under one filter on the groups |
| EdgeLaws.ParentInvertsChildren | backend/ent/account_query.go:720-784 | c is among the children of p exactly when the parent of c is p alone, each under its filter |
| EdgeLaws.AtMostOne | backend/ent/account_query.go:720-751 | a to-one edge never has two neighbours |
| LoadedGraphs.ListIsNeighbors | backend/ent/account_query.go:627-844 | without a window, a loaded list holds the fetched cells of exactly the owner's own neighbours, in their order |
| LoadedGraphs.EdgeHolds | backend/ent/account_query.go:627-844 | column by column for each of the eight edges, what a loaded list holds: exactly the rows at the end of the edge that pass the filters, each as often as its table holds it, in the order asked for |
| LoadedGraphs.LoadedEdgeHolds | backend/ent/account_query.go:550-625 | the same on the nodes that a load returns, which stand for the selected rows |
| LoadedGraphs.BatchRowsInTable | backend/ent/account_query.go:550-625 | the rows behind nested nodes are rows of their table, so that the same holds of their lists at every depth |
| LoadedGraphs.NeighborsAreReached | backend/ent/account_query.go:692-707 | the same of a per-node lookup: the proxy is the one with the id in `proxy_id`, the usage logs those with this `account_id`, and so on |
| LoadedGraphs.MatchingCount | backend/ent/account_query.go:881-887 | a select returns each row of its table exactly as often as the table holds it if it passes every filter, and not otherwise |
| Relational.SortSorted | backend/ent/account_query.go:894-900 | and in the order of its terms |
| Relational.BeforeIs | backend/ent/account_query.go:894-900 | the first term that tells two rows apart decides, the smaller value first |
| EagerLoading.CostAdds | backend/ent/account_query.go:584-623 | the bound on selects counts one for each query of the nest |
| Relational.WindowIs | backend/ent/account_query.go:888-893 | a window shows the items from the offset on, as many as the limit allows |
| LoadedGraphs.PruningKeepsEdges | backend/ent/account_query.go:858-880 | run with field selections and without, at whatever depth, the loader builds the same nodes with the same lists; the pruned ones keep every selected field, the id and the key of every requested to-one edge, and hold nothing else |
| LoadedGraphs.PrunedNodes | backend/ent/account_query.go:752-784 | the same for any two node lists that stand for one set of rows, recursively over the nest |
| LoadedGraphs.FetchKeeps | backend/ent/account_query.go:866-880 | the fetched cells agree with the row on every selected field, the id and every requested key, NULL included, and hold nothing else |
| LoadedGraphs.LoadStream | backend/ent/account_query.go:627-687 | over any stream of joined rows, however interleaved, each account gets exactly the groups it was joined to, each once, in first-seen order |
| EagerLoading.IdIsFetched | backend/ent/account_query.go:866-873 | the id survives every field selection |
| EagerLoading.ForeignKeyIsFetched | backend/ent/account_query.go:874-879 | the foreign key of each requested to-one edge survives every field selection, and NULL stays NULL |
| EagerLoading.BackKeyIsFetched | backend/ent/account_query.go:762-764 | the column pointing back from a one-to-many row survives every field selection |
| EagerLoading.NoStrays | backend/ent/account_query.go:772-782 | the nil-foreign-key and unknown-owner errors of the one-to-many loaders cannot occur |
| EagerLoading.UniqueKeys | backend/ent/account_query.go:741-749 | a many-to-one batch returns only ids that were asked for, so its error branch is not reached, and none twice |
| EagerLoading.JoinedKnown | backend/ent/account_query.go:677-685 | every neighbour of a joined load has recorded owners among the nodes, so its error branch is not reached |
| EagerLoading.OwnersOfMembers | backend/ent/account_query.go:661-670 | the scanner's map ties a node to a group id exactly when some joined row does |
| LoadedGraphs.AccessorTrichotomy | backend/ent/account.go:109-165 | on a node loaded at any depth a to-one accessor says not loaded exactly when the edge was not requested, not found exactly when it was and its own key column is NULL or names no row that passes the filters, and else returns that row's node; a to-many accessor returns what the edge reaches exactly when requested |
| EagerLoading.SqlAll | backend/ent/account_query.go:550-625 | breaks off exactly when it meets a row of a groups query joined before; else returns fresh nodes that are the batched graph of the query, and the query as the load leaves it; at most one select per query of the nest |
| EagerLoading.LoadEdges | backend/ent/account_query.go:584-624 | edge by edge in declaration order, every requested edge ends up loaded and no edge disturbs another |
| EagerLoading.LoadJoined | backend/ent/account_query.go:627-687 | breaks off exactly when a row comes back for a query joined before; else leaves in each node's list its share of the joined batch, touches no other edge, and leaves the join on the nested query |
| EagerLoading.ScanJoined | backend/ent/account_query.go:650-672 | breaks off at the first row whose second column is not the group's id; else makes one node per group in first-seen order and records all owners of each |
| EagerLoading.StitchJoined | backend/ent/account_query.go:677-686 | gives each neighbour to exactly its recorded owners, in whatever order a set of owners is walked |
| EagerLoading.LoadUnique | backend/ent/account_query.go:688-719 | at most one query per load; each node's edge is its share of the batch, nil when the key is NULL or unmatched; the nested query is left untouched exactly when no owner holds a key |
| EagerLoading.GroupNodes | backend/ent/accountgroup_query.go:379-391 | the ids are the distinct foreign keys in order of first appearance, and each key's group is exactly the nodes that hold it |
| EagerLoading.StitchUnique | backend/ent/accountgroup_query.go:425-434 | points every node that holds a key at the neighbour with that id, and errs exactly on an id nobody asked for |
| EagerLoading.LoadMany | backend/ent/account_query.go:752-844 | leaves in each node's list the rows that point at it, in query order, and the filter and key column on the nested query |
| EagerLoading.StitchMany | backend/ent/account_query.go:772-782 | deals each row to the node its key names, and errs exactly on a nil or unknown key |
| Finders.All | backend/ent/account_query.go:307-314 | from the builder objects to the graph: breaks off exactly when it meets a row of a groups query joined before; else the nodes are the batched graph of what the builders describe and, without nested windows, the naive one, and the nested builders are left with the added filters and key columns |
| Finders.AllAgain | backend/ent/account_query.go:307-314 | a second run of one builder, under another window: when it breaks off, what it loads otherwise, and that within the first window this is what a builder never run loads |
| Reuse.UsedShape | backend/ent/account_query.go:735-768 | a load changes a nested builder only by its batch filter, its key column among chosen fields, and the builders below it: table, order, window and locks stay |
| Reuse.RerunTrees | backend/ent/account_query.go:550-844 | loading again for owners all loaded before gives what a query never used gives, over every kind of edge and at every depth |
| Reuse.ReuseIff | backend/ent/account_query.go:208-217 | a second run under another window ends and gives, on every database, what a builder never run gives if and only if no edges are loaded, or no many-to-many edge is loaded anywhere and the second window lies inside the first |
| Reuse.SecondRunBreaks | backend/ent/account_query.go:638-672 | for every nest with a many-to-many edge there is a database on which a run ends and a second run inside its window, such as a second `First`, breaks off |
| Reuse.UnjoinedNeverBreaks | backend/ent/account_query.go:550-625 | a nest of builders never run never breaks off |
| Reuse.UnjoinedAfterIff | backend/ent/account_query.go:638-646 | a run leaves no join on any nested builder if and only if it reached no many-to-many load |
| Reuse.ScansGroupIffJoinedOnce | backend/ent/account_query.go:661-663 | the second selected column is the group's id if and only if the group query was joined once |
| Reuse.SecondColumn | backend/ent/account_query.go:638-646 | joining a group query puts the group's id second exactly when it carried no join before |
| Finders.First | backend/ent/account_query.go:208-217 | unless the run breaks off, not found exactly when the unlimited query finds nothing, else the first node of its graph; the builder is left with a limit of one and the nested builders with the filters of that one entity |
| Finders.Only | backend/ent/account_query.go:254-267 | unless the run breaks off, one, none or several exactly as the unlimited query finds one, none or several; the builder is left with a limit of two and the nested builders with their filters |
| Finders.LimitIsPrefix | backend/ent/account_query.go:888-893 | a limit keeps a prefix of the unlimited graph, edges included |
| QueryBuilder.CloneEqualIffUnlocked | backend/ent/account_query.go:388-408 | a clone equals its original if and only if no builder in the nest holds a row lock |
| QueryBuilder.CloneLoads | backend/ent/account_query.go:388-408 | on every database a clone loads the same graph as its original |
| QueryBuilder.DescribedIsTyped | backend/ent/account_query.go:410-474 | however builders are nested, each is on the table its edge leads to |
| QueryBuilder.Builder.Spec | backend/ent/account_query.go:858-902 | the query executed is the one the builder and all builders nested in it describe |
| QueryBuilder.Builder.UseNested | backend/ent/account_query.go:44-47 | writing what a load added into each nested builder leaves the others, which share nothing with it, as they were |
| QueryBuilder.Builder.Clone | backend/ent/account_query.go:388-408 | everything the clone reaches is fresh, its context, the arrays of its lists and its nested builders included, and it describes the same query without locks |
| QueryBuilder.EditOriginal | backend/ent/account_query.go:388-408 | after cloning, no edit whatever of any object the original reaches changes what the clone describes |
| QueryBuilder.EditClone | backend/ent/account_query.go:388-408 | after cloning, no edit whatever of any object the clone reaches changes what the original describes |
| QueryBuilder.ShallowCopyIsOverwritten | backend/ent/account_query.go:394-397 | a copy that kept the context and the lists would describe the filter and the limit later set on the original, its own filter overwritten |
| QueryBuilder.FilterThrice | backend/ent/account_query.go:44-47 | a list of filters that grew to three has room for a fourth, so that appends to two slices over it meet |
| QueryBuilder.Builder.Where | backend/ent/account_query.go:44-47 | the filter is added at the end, in place when the array has room, and nothing nested changes |
| QueryBuilder.Builder.AppendField | backend/ent/account_query.go:762-764 | the field is added at the end of the context's fields |
| QueryBuilder.Builder.With | backend/ent/account_query.go:410-419 | the request for an edge is added, or replaces an earlier one |
| BulkCreate.MutateNested | backend/ent/account_create.go:2102-2149 | for any hooks at all, a mutator leaves exactly the hooks open that it found open: enters and exits are balanced |
| BulkCreate.MutateOrdered | backend/ent/account_create.go:2102-2149 | with hooks that call next at most once, whatever they make of the outcome, the trace is the hooks in builder order then hook order, the insert innermost, and the exits exactly reversed |
| BulkCreate.MutateEnds | backend/ent/account_create.go:2106-2139 | how a chain from any builder can end: insert not reached, tried once and failed, or done once with the builders from some point on finished |
| BulkCreate.SaveAllOrNothing | backend/ent/account_create.go:2095-2152 | with well-behaved hooks, at most one insert, only with a spec from every builder; success has all ids and all mutations done; failure returns no nodes and has a mutation done exactly if the insert had been done |
| BulkCreate.SaveCreates | backend/ent/account_create.go:2095-2152 | for any number of builders and of hooks that hand their mutation on once and return the outcome: nothing is inserted if some mutation as its hooks leave it fails the check, one failed batch is recorded if the insert fails, and otherwise the create succeeds, spec k being what builder k's hooks left, and node and mutation k having the k-th id |
| BulkCreate.MutateRuns | backend/ent/account_create.go:2106-2139 | the same from any builder and hook on |
| BulkCreate.SaveInsertsOwn | backend/ent/account_create.go:2111-2138 | if moreover hooks hand on their own mutation, whatever is inserted has as spec k what builder k's mutation holds, and it passed the check, for every k; on success that mutation is done and holds the id of node k |
| BulkCreate.SaveFaithful | backend/ent/account_create.go:2095-2152 | if moreover no hook that made its call vetoes a success, failure means nothing inserted and nothing done |
| BulkCreate.FailsCleanIffPassesOn | backend/ent/account_create.go:2118-2138 | for a well-behaved hook alone on one builder, failure means nothing inserted, under every check and every id, if and only if the hook succeeds whenever it made its call and its node came back |
| HookContexts.FaithfulIffSpoilsNothing | backend/ent/account_create.go:2102-2149 | a well-behaved hook can join every bulk create of faithful hooks, of any number of builders and hooks, with failure still meaning that nothing was inserted, if and only if it is faithful |
| BulkCreate.VetoAfterInsert | backend/ent/account_create.go:2118-2138 | a well-behaved hook that fails after its call returned makes a create fail although rows were inserted and mutations marked done |
| BulkCreate.SaveInsertsChecked | backend/ent/account_create.go:2111-2116 | whatever else hooks do, if each hands on the mutation it was given then only checked fields are ever inserted |
| BulkCreate.CheckedIffOwnMutation | backend/ent/account_create.go:2111-2116 | for a hook alone on one builder that calls next at most once, unchecked fields are kept out under every check if and only if it never passes on another mutation with other fields |
| HookContexts.HandsOwnIffKeepsChecked | backend/ent/account_create.go:2102-2149 | a hook that calls next at most once can join every bulk create of hooks that hand on their own mutation, of any number of builders and hooks, with only checked fields inserted, if and only if it hands on its own mutation |
| HookContexts.SwapInsertsUnchecked | backend/ent/account_create.go:2111-2116 | a hook that hands on another mutation gets fields inserted that the check refuses |
| BulkCreate.AccountCreateBulk.Save | backend/ent/account_create.go:2095-2152 | a stored error returns before anything is touched; otherwise the object that writes the slices and mutations computes the chain's result and state, after the defaults of every builder; with forwarding hooks, exactly what is created |
| BulkCreate.DefaultedKeeps | backend/ent/account_create.go:2102-2105 | setting defaults inserts nothing, marks nothing done, enters no hook and leaves every mutation that is not a builder's as it was |
| BulkCreate.AccountCreateBulk.SaveOwn | backend/ent/account_create.go:2106-2139 | a builder's own mutator computes the chain's inner step |
| CreateChecks.DefaultsFill | backend/ent/account_create.go:527-585 | defaults keep every set field, on success set every field they cover, on failure leave unset a field whose default function is nil |
| CreateChecks.DefaultsAre | backend/ent/account_create.go:527-585 | after success, field by field: what was given, else the field's own default function's or constant's value for the eleven fields that have one, else unset |
| CreateChecks.DefaultsSucceedIff | backend/ent/account_create.go:528-555 | defaults succeed exactly when each of the four fields with a default function is given or has one |
| CreateChecks.DefaultsReachTheRow | backend/ent/account_create.go:2095-2152 | over a whole run: the row inserted for a builder holds, in every field its hooks leave alone, what was given or the field's own default |
| CreateChecks.DroppedErrorIsCaught | backend/ent/account_create.go:2104-2113 | if defaults failed, the check fails too unless a hook filled the very field whose default was missing |
| CreateChecks.FailedDefaultInsertsNothing | backend/ent/account_create.go:2102-2149 | over a whole run: if the defaults of any builder failed and no hook fills the missing field in that builder's mutation, nothing is inserted, whatever else the hooks do and whatever they hand on |
| CreateChecks.CheckPasses | backend/ent/account_create.go:588-662 | the check passes exactly when the fourteen required fields are set and each of the six validated fields that is set is valid |
| CreateChecks.CheckAfterDefaults | backend/ent/account_create.go:588-662 | after successful defaults the check passes exactly when name, platform and type are given and the validated fields, as given or by default, are valid |
| CreateChecks.NoFailureMeansAll | backend/ent/account_create.go:588-662 | the first-failure scan reports nothing exactly when every check holds |
| RowCodec.ValueRoundTrip | backend/ent/account_create.go:682-891 | a value written as its field's type scans into the prepared destination and is assigned back unchanged |
| RowCodec.NullRoundTrip | backend/ent/account.go:168-189 | a NULL is accepted for every column but the id and leaves the field nil or zero |
| RowCodec.ColumnRoundTrip | backend/ent/account.go:193-417 | reading one column of a stored account never meets an unexpected type and gives what the created node holds |
| RowCodec.StoredIsGiven | backend/ent/account_create.go:682-891 | the stored row cell by cell from the mutation: the id, `proxy_id` from its proxy, `parent_account_id` from its parent, each field its own value, NULL elsewhere |
| RowCodec.CreatedIsGiven | backend/ent/account_create.go:682-891 | the same of the created node |
| RowCodec.AssignedIsRestriction | backend/ent/account.go:193-417 | columns in any order and repetition rebuild the node restricted to them |
| RowCodec.Account.AssignValues | backend/ent/account.go:193-417 | errs exactly on a length mismatch or an unexpected type or undecodable JSON, else assigns column by column, unknown columns to the selected values |
| RowCodec.ChosenIs | backend/ent/account.go:412-413 | an unknown column is selected under its name with the value of its last occurrence |
| RowCodec.CreateAndReadBack | backend/ent/account.go:168-417 | storing a creation and reading any columns back gives, for exactly those columns, what the mutation and the id give |
| RowCodec.AllColumnsRoundTrip | backend/ent/account.go:193-417 | with every column among those read, the restriction is the whole node |
| AuditParser.ParseExceptions | tools/check_pnpm_audit_exceptions.py:23-48 | the loop computes the fold of the line state machine, including where a line without a colon raises |
| AuditParser.ParseRaisesIff | tools/check_pnpm_audit_exceptions.py:34-42 | parsing raises exactly when some item line's text is not empty and holds no colon |
| AuditParser.RunContent | tools/check_pnpm_audit_exceptions.py:29-45 | blank lines, comments, `version:` and `exceptions:` headers and stray lines are passed over wherever they stand |
| AuditParser.RunPreamble | tools/check_pnpm_audit_exceptions.py:25-45 | before the first item every line is passed over |
| AuditParser.PrintParse | tools/check_pnpm_audit_exceptions.py:12-48 | parsing a file gives back the records written in it, in order, each value in double quotes, single quotes or bare and whatever it holds, at any indentation, with any other lines before the first item and any comments, headers and blanks in between |
| AuditParser.WrittenParse | tools/check_pnpm_audit_exceptions.py:23-48 | the same of a text written line by line |
| AuditParser.LinesAfter | tools/check_pnpm_audit_exceptions.py:27-28 | every kind of line break ends a line |
| AuditParser.SplitItem | tools/check_pnpm_audit_exceptions.py:12-20 | splitting a printed entry gives back its key and value |
| AuditPolicy.IndexExceptions | tools/check_pnpm_audit_exceptions.py:153-185 | the index loop computes the index and its errors |
| AuditPolicy.IndexReports | tools/check_pnpm_audit_exceptions.py:156-180 | the errors are exactly: an exception that misses one of the five fields, one without a valid date, one with a blank package or advisory, and one whose package and advisory an earlier good one has |
| AuditPolicy.IndexAccepts | tools/check_pnpm_audit_exceptions.py:156-185 | no error exactly when every exception is complete, dated and keyed, and keys are unique |
| AuditPolicy.IndexedFirst | tools/check_pnpm_audit_exceptions.py:175-185 | under each key the index holds the severity and date of the first good exception with that key |
| AuditPolicy.IndexHasKeys | tools/check_pnpm_audit_exceptions.py:175-185 | an index built without errors has exactly the exceptions' keys |
| AuditPolicy.ScanFindings | tools/check_pnpm_audit_exceptions.py:187-219 | the scan loop computes the missing, the expired and the errors |
| AuditPolicy.ScanReports | tools/check_pnpm_audit_exceptions.py:193-219 | reported are exactly the serious findings without an advisory and, of each package and advisory, the first finding if it has no entry, an expired one, or one of another severity |
| AuditPolicy.SilentIffAllClean | tools/check_pnpm_audit_exceptions.py:192-219 | nothing is reported exactly when every serious finding has an advisory and the first finding of each key has an unexpired entry of its severity |
| AuditPolicy.VerdictIsPolicy | tools/check_pnpm_audit_exceptions.py:156-219 | no error, missing or expired exception exactly when the policy holds of the exceptions and findings |
| AuditPolicy.PolicyIsRules | tools/check_pnpm_audit_exceptions.py:8-9 | the policy spelled out without the check's own functions: the five fields by name, high or critical, stripped packages and case-folded advisories |
| AuditPolicy.Verdict | tools/check_pnpm_audit_exceptions.py:142-243 | the exit code is 0 exactly when the policy holds, as defined and as spelled out, and 1 otherwise |
| AuditPolicy.DeduplicationIsLossless | tools/check_pnpm_audit_exceptions.py:191-219 | the keys reported missing and expired are those a scan without the seen set reports, each once, in first-seen order |
| AuditPolicy.ReportedSeen | tools/check_pnpm_audit_exceptions.py:193-219 | a scan without the seen set reports a key exactly when an identified finding has it and it is missing, or expired |
| AuditPolicy.PolicyIgnoresOrder | tools/check_pnpm_audit_exceptions.py:156-185 | permuting the exceptions does not change the policy, hence the verdict |
| MigrationNames.NotxIsRedundant | tools/check_migration_lint.py:24 | the pattern, with or without its optional group, accepts exactly `9xx_boxai_<slug>.sql`, possibly before a final newline |
| MigrationNames.AcceptsIffSpelled | tools/check_migration_lint.py:24 | an accepted name is 9, two digits, `_boxai_`, a nonempty slug of small letters, digits and underscores, `.sql`, perhaps a newline; and every such name is accepted |
| MigrationNames.MentionsIff | tools/check_migration_lint.py:38 | an ASCII name mentions BoxAI exactly when the five letters follow one another anywhere in it, each in either case |
| MigrationNames.ContainsIff | tools/check_migration_lint.py:38 | a word is contained exactly when the text can be cut around it |
| MigrationNames.PrefixIs | tools/check_migration_lint.py:25 | the numeric prefix is the decimal value of all leading digits, and there is none without one |
| MigrationNames.AcceptedPrefix | tools/check_migration_lint.py:24-25 | an accepted name has a numeric prefix from 900 to 999, also for non-ASCII digits |
| MigrationNames.AcceptedMentions | tools/check_migration_lint.py:107 | an accepted name contains "boxai" once lower-cased, so the guard before the pattern excludes nothing |
| MigrationLint.GitDiffNames | tools/check_migration_lint.py:60-98 | the loop over the status lines computes the three sets, from the fallback run when the first failed or printed nothing |
| MigrationLint.CheckAgainstBase | tools/check_migration_lint.py:101-139 | the errors of the sorted changed paths, then those of the sorted added paths |
| MigrationLint.SortedInOrder | tools/check_migration_lint.py:105-118 | each path is visited once, in code point order |
| MigrationLint.ErrorsCounted | tools/check_migration_lint.py:101-139 | each deletion, each change of what is not a valid BoxAI migration and each badly named addition is reported exactly once, and nothing else |
| MigrationLint.ErrorsAreCalledFor | tools/check_migration_lint.py:105-137 | which complaint is raised of which path: each of the five exactly when its branch calls for it |
| MigrationLint.NameOfPath | tools/check_migration_lint.py:106 | the name of a path is what follows its last slash |
| MigrationLint.AcceptedIffAllowed | tools/check_migration_lint.py:101-139 | no error exactly when nothing is deleted, only valid BoxAI migrations are modified and only valid new names are added |
| MigrationLint.NumericPrefixIsOneError | tools/check_migration_lint.py:124-137 | an added numeric-prefix name without "boxai" gives exactly one error |
| MigrationLint.CheckBoxaiNames | tools/check_migration_lint.py:34-44 | no error exactly when every name that mentions BoxAI matches |
| MigrationLint.BadNamesMembers | tools/check_migration_lint.py:36-43 | the errors are those of exactly the names that mention BoxAI and do not match |
| MigrationLint.Lint | tools/check_migration_lint.py:142-159 | exit code 0 exactly when the directory's names are valid and, with a base, the branch is allowed; no code exactly when git fails |
| MigrationHistory.ReportReadBack | tools/check_migration_lint.py:81-98 | reading a printed report gives exactly the added, modified and deleted paths, renames counting as both, and nothing of a change of type |
| MigrationHistory.ReportChosen | tools/check_migration_lint.py:62-79 | the branch's own report is used when it says anything, the fallback when it is blank or failed, and there is no answer without either |
| MigrationHistory.MergeSafe | tools/check_migration_lint.py:60-139 | an accepted clean merge deletes nothing, changes only valid BoxAI migrations except by a change of type, and adds only valid new names |
| MigrationHistory.KeepsIffNoRetypes | tools/check_migration_lint.py:84-98 | an accepted merge keeps every other migration's content if and only if it changes the type of none |
| MigrationHistory.HistorySafe | tools/check_migration_lint.py:60-139 | over any sequence of accepted merges a migration once present stays present, and whatever appears is validly named |
| MigrationHistory.HistoryKeepsIff | tools/check_migration_lint.py:60-139 | over any such sequence the content of all other migrations never changes if and only if no merge changes a type |
| MigrationHistory.RetypeIsAccepted | tools/check_migration_lint.py:89-97 | a merge that replaces a migration by a symbolic link is accepted |

## Left out

- The SQL builder, the driver, transactions and the SQL text: their relational meaning is stated in `Relational` and assumed. A query without an order is given the stored order of its table; an order is a list of integer keys, and rows equal under all of them keep the stored order.
- A cell is an integer, which is all that keys need; the values of the other columns are the subject of `RowCodec`.
- Finders.All: writes the added filters and key columns into the nested builders once the whole load is done, where the code does so load by load; nothing reads them in between. What a run that breaks off leaves in the builders is not stated; in the code it is a panic of the scanner's type assertion.
- Reuse.SecondColumn: assumes that a later join's column comes before what was selected, as the code selects it first and appends the rest, and that a join adds its column each time. The rows of a query joined twice are counted once per account, which matters only to whether an offset skips them all.
- EagerLoading.SqlAll: does not model failing selects, context cancellation or interceptors; an interceptor that only filters, such as soft deletion, is a predicate of its query.
- EdgeLaws.ParentInvertsChildren: speaks of the per-node lookups; without nested windows the loaded edges are those, by `Lookup.BatchedIsNaive`.
- Edges nested below groups, proxies and usage logs: only the six account edges and the two of the join entity are modelled. The lists of a node's edges are values of a field, which nothing else shares.
- QueryBuilder.Builder.Clone: does not model interceptors, `Unique`, the intermediate selector and the `path` closure, the last being shared in the original; that the context's own clone copies its list of fields is assumed. Capacities double. A nil builder and a cyclic nest are excluded; optional configuration functions are the caller's edits of the nested builder before `With`.
- `prepareQuery`'s rejection of an invalid field, `Count`, `IDs`, `Exist`, `GroupBy`, `Aggregate`, the `Query...` traversals and the panicking `...X` forms.
- BulkCreate.AccountCreateBulk.Save: does not model the wrapping of constraint errors or the conflict option handed to the insert; the defaults are any function of a mutation's fields, whose error is dropped, and `CreateChecks` says what they are.
- A hook in `BulkCreate` makes at most a fixed number of calls, which may be any number; a hook that edits other builders than through the mutation it hands on, keeps state of its own between runs, or runs concurrently, is not modelled. The exact conditions on hooks are for hooks that call next at most once.
- One-to-many and many-to-many edges in a create spec, which write other tables, and the single-row save.
- RowCodec.ColumnRoundTrip: does not model a driver's own conversions between types, the precision of times and floats, or 64-bit overflow; JSON is an encoder and decoder that are inverse and never write an empty text.
- The extraction of findings from the two JSON layouts of the audit, and the choice of an advisory id: a finding is its resulting name, severity, id and title, with an empty string for an absent value. Printed messages, file reading and command-line parsing.
- Lower-casing, ISO dates and today's date are parameters of the audit check; Unicode digits and lower-casing are parameters of the lint, lower-casing one character at a time.
- MigrationHistory.MergeSafe: a merge with conflicts resolved by hand is not modelled, nor is a file mode other than its type, nor paths that git would quote: quotes, backslashes and anything outside printable ASCII. Reports are those of git without copy detection, its default; the code ignores status `C`, so that with it a copy under any name would be accepted.
- The listing of the directory's files, the environment variable and the running of git; a lint run receives their results.
- Update and delete builders, upserts, setters, and the other entities generated from the same template.
