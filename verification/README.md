# Verified model of the account persistence layer

The repository stores its entities through generated Go code: query builders
with eager loading, create, bulk-create and upsert builders, update builders and
a row codec per entity. This project models the algorithms of that code for
accounts (and, for the edge whose children may have no parent, auth identities)
in Dafny and proves what they promise.

The database is a parameter: a query is a function from the predicates it has
accumulated to any finite sequence of rows or an error, and a batch insert a
function from specs to assigned IDs or an error. The JSON codec, default
functions, validators and hooks are parameters too. An account keeps one field of
each kind the schema has: a key, two times, a required string, a nullable string
and a nullable foreign key behind pointers, a JSON document and a boolean; and one
edge of each kind: M2M groups, M2O proxy, O2M usage logs. The edge table's own
entity stands for those with a composite key.

| file | what it models |
|---|---|
| Prelude.dfy | options, results, sequences without repetition |
| RowCodec.dfy | scan holders, `scanValues`, the loop of `assignValues` |
| QuerySpec.dfy | the column list of a query, field validation |
| Entities.dfy | entities on the heap, `assignValues`, the `...OrErr` accessors |
| Loading.dfy | the index of nodes by ID, tables that queries answer from |
| LoadM2M.dfy, LoadM2O.dfy, LoadO2M.dfy, LoadNullableO2M.dfy | the edge loaders |
| EagerLoading.dfy | the requested edges, one after the other, and what the accessors answer |
| AccountQuery.dfy | `sqlAll`: read the nodes, load every requested edge |
| TableQuery.dfy | `sqlAll` on a database that answers from tables |
| AccountCreate.dfy | `defaults`, `check`, `createSpec`, the stored row |
| AccountGroup.dfy | the codec and `createSpec` of an entity with a composite key and no ID |
| BulkCreate.dfy, BulkChain.dfy, BulkSave.dfy | bulk `Save`: the run of its mutator chain as a function, what every run guarantees, and the chain on the heap refining that function |
| GroupEdges.dfy | the groups edge of the update builders |
| Upsert.dfy | conflict options, updates, runs over a table |
| NullableChanges.dfy | the proxy and the notes of the update builders |
| QueryClone.dfy | query builders with shared, append-in-place slices, and `Clone` |

Loops and objects that change are modelled as methods and classes. Each method is
proved against a specification function or predicate, and the lemmas say what
that specification means. Where a promise fails, the lemmas give an input and the
exact condition under which it holds:

- Bulk create is all or nothing unless a hook fails after its next mutator
  succeeded: the rows are stored and mutations done although `Save` returns an
  error exactly when every builder gets past its hooks and its check, the
  database accepts the specs and some hook fails late (`LateFailureIsExact`,
  `LateFailureHappens`).
- A bulk builder checks its own mutation before it adopts the one it is handed,
  so a hook that hands down another mutation gets it inserted unchecked
  (`UncheckedIsExact`, `SubstituteEscapesCheck`).
- Clearing the groups of an update does not drop IDs that were waiting to be
  added (`InOrderIffNothingOutlives`, `ClearKeepsPendingAdds`).
- With duplicate node IDs the M2M and O2M loaders serve the last node only; the
  M2O loader serves all. An index keeps every node if and only if the IDs are
  distinct (`DistinctOwners`, `DuplicateIsLost`), and the loads still serve
  everybody if and only if no duplicated ID has neighbours
  (`DuplicatesAreServedIff`).
- An account is given its groups in the order of the whole result, not of its own
  rows (`OrderIsExact`, `OrderIsOfTheWholeResult`).
- Clearing the proxy edge of an update does not drop a pending proxy, and resetting
  the edge or the field does not take back a clear of the other
  (`NullableChanges.InOrderIffNothingOutlives`, `ClearKeepsPendingProxy`,
  `ResetKeepsClear`).
- A child query keeps the restriction of every load, because the loaders append to
  it and clone nothing. `SqlAll` states the predicates and fields every child
  query is left with. A second load of groups, and so a second `All` that requests
  them, panics on the first row it is answered (`LoadM2M.LoadTwice`,
  `SecondLoadPanics`, `SqlAllTwice`). A second load of proxies or usage logs
  succeeds, and serves its nodes as a fresh query would if and only if the first
  load covered what is stored for them (`LoadM2O.LoadTwice`, `LoadO2M.LoadTwice`;
  `SecondLoadMisses` is a proxy that is missed, `FreshLoadFinds` the fresh query
  that finds it).
- The documentation of `UpdateNewValues` calls it equivalent to the bare option
  `ResolveWithNewValues`. The code also ignores `created_at`, and the two agree
  if and only if no inserted row sets it or another option is to do nothing
  (`NewValuesEquivalence`, `BareNewValuesOverwrites`). The model follows the code.

## Model

| member | source | states |
|---|---|---|
| RowCodec.ScanAssignAgree | ent/account.go:140-376 | for any column list, with repeated and unknown columns, assigning holders that `scanValues` made never reports a type mismatch; every field holds the last valid value its column offered (the ID even takes NULL) and is untouched when there was none, unknown columns are kept by name, the document is what merging its cells left to right gives, and the one error, reported exactly then, is that a document does not parse |
| RowCodec.DecodedField | ent/account.go:165-376 | what a field reads from a stored row depends on the column list only through whether its column is selected: order and repetition do not matter |
| RowCodec.DecodedDocument | ent/account.go:165-376 | a stored JSON document is read back whatever else is selected and however often, although unmarshalling merges into the value already there |
| RowCodec.RepeatedDocument | ent/account.go:165-376 | a document column selected once more is unmarshalled over what was read before, and an empty one changes nothing |
| Entities.Account.AssignValues | ent/account.go:165-376 | the method on the heap leaves the fields the column-by-column specification gives, or its first error and the fields reached before it; too few values are refused before anything changes; each pointer field keeps its cell or gets a fresh one |
| Entities.AssignAllStops | ent/account.go:165-376 | once a column fails no later column changes the outcome |
| QuerySpec.BuildColumns | ent/account_query.go:708-727 | the loops of `querySpec` build the specified list for any selected fields and foreign keys |
| QuerySpec.BuildCompositeColumns | ent/accountgroup_query.go:456-467 | the same for an entity with a composite key and no ID column |
| QuerySpec.ProjectionKeepsKeys | ent/apikey_query.go:609-623 | without a selection the columns are those of the table; with one they are exactly the selected fields, the foreign keys of the requested edges and the ID where there is one, the ID first and once, whatever order and repetition the selection has |
| QuerySpec.InvalidField | ent/account_query.go:465-469 | preparing a query complains if and only if some selected field is not a column of the table, and names the first such field |
| Loading.IndexStep | ent/account_query.go:545-551 | one turn of the indexing loop keeps the index by ID, where the last of several nodes with one ID wins |
| Loading.DistinctOwners | ent/account_query.go:545-551 | for distinct nodes, every node is the one its ID finds if and only if the IDs are distinct |
| Loading.LostIsExact | ent/account_query.go:545-551 | the index loses a node if and only if a later node has its ID |
| Loading.DuplicateIsLost | ent/account_query.go:545-551 | of two nodes with one ID the index keeps the second |
| LoadM2M.SecondValueIsID | ent/account_query.go:565-585 | the second scanned value, which keys the index, is the ID the group node is given, because the column list starts with the ID and names it once |
| LoadM2M.DecodedGroup | ent/group.go:194-464 | a stored group is read back, name and document included, as far as its columns are selected, whatever their order and number |
| LoadM2M.QueryJoined | ent/account_query.go:564-590 | the child query with its scan and assign callbacks replaced creates each group once, in first-appearance order and decoded from the first of its rows, and indexes it to exactly the nodes its rows name; it stops at the first row whose second value is not a group ID or whose new group does not decode, and never decodes a group twice |
| LoadM2M.FanOut | ent/account_query.go:592-601 | whatever order the map range visits the nodes in, each gets exactly the neighbours whose index entry holds it, in neighbour order; the error is that of the first neighbour that is unknown or indexed to a nil node |
| LoadM2M.FanOutOfJoin | ent/account_query.go:564-601 | no nil account enters the index, and fanning out succeeds, if and only if every row names an account that was asked for |
| LoadM2M.AttachedIsNaiveJoin | ent/account_query.go:564-601 | a node that owns its ID receives exactly the groups of the nested-loop join, a node shadowed by a later duplicate none |
| LoadM2M.LoadGroups | ent/account_query.go:542-602 | the loader appends to the query's predicates one restriction that names the IDs of the nodes, in order, and nothing else; the error is given, and without one every node holds the groups of the nested-loop join for its ID |
| LoadM2M.LoadErrorIsExact | ent/account_query.go:542-602 | a first load ends with the invalid field, the query's error or the scan error of the first group that does not decode, and otherwise panics iff some row is of an account not asked for; only the first row of a group is decoded, so a group that accounts share never fails a load by itself |
| LoadM2M.LoadFromTable | ent/account_query.go:542-602 | on an edge table whose groups decode a first load succeeds, and every account that owns its ID holds exactly the groups stored for that ID that satisfy the predicates the query had, each once and decoded from a stored one; the others hold none |
| LoadM2M.GroupsOfMeaning | ent/account_query.go:542-602 | the nested-loop join gives an account each group paired with it, no other, each once, ordered by first appearance in the result |
| LoadM2M.LoadRefinesNaiveJoin | ent/account_query.go:542-602 | with distinct account IDs each account's groups are exactly those paired with it, each once, in first-appearance order |
| LoadM2M.GroupsAreShared | ent/account_query.go:564-601 | a group that several accounts hold is one object |
| LoadM2M.OrderIsExact | ent/account_query.go:576-601 | an account is given its groups in the order of its own rows if and only if the whole result and those rows agree, for every two of its groups, which appears first |
| LoadM2M.OrderIsOfTheWholeResult | ent/account_query.go:576-601 | a result in which an account lists its groups in one order and is given them in the other |
| LoadM2M.DuplicatesAreServedIff | ent/account_query.go:545-601 | with duplicate IDs every node gets its join if and only if no account with two nodes has groups |
| LoadM2M.ReusedQueryPanics | ent/account_query.go:553-585 | a query that was loaded through before puts a second account column in front, so the load panics on its first row and succeeds if and only if there is none |
| LoadM2M.LoadTwice | ent/account_query.go:553-601 | two loads through one query leave both restrictions on it, each naming the IDs of its nodes, and the second, if the query answers, succeeds iff the answer is empty |
| LoadM2M.SecondLoadPanics | ent/account_query.go:553-601 | an account with one group, loaded twice: the first load succeeds and the second panics |
| LoadM2O.CollectForeignKeys | ent/account_query.go:604-615 | the first loop collects the IDs to ask for and one bucket of nodes per foreign key |
| LoadM2O.AskedAreFirstOccurrences | ent/account_query.go:604-615 | the IDs asked for are the distinct non-null foreign keys in first-occurrence order |
| LoadM2O.SharingMembers | ent/account_query.go:604-615 | the bucket of a key holds exactly the nodes with that key, and is empty for a key no node has |
| LoadM2O.BucketsPartition | ent/account_query.go:604-615 | over the asked IDs the bucket sizes sum to the number of nodes with a non-null foreign key: none is lost or counted twice |
| LoadM2O.LoadProxy | ent/account_query.go:603-634 | nothing is queried or appended when no node has a foreign key; otherwise the IDs are appended to the query's predicates, the neighbours before the first one nobody refers to are attached, the error is the invalid field, the query's error or names that neighbour, and all other nodes stay as they were |
| LoadM2O.LoadIsPerNodeLookup | ent/apikey_query.go:526-557 | for a query that returns only asked IDs the load succeeds and every node, duplicates included, points to the neighbour whose ID is its foreign key, or is unchanged if none was returned |
| LoadM2O.LoadErrorIsExact | ent/account_query.go:616-633 | the load's error is the query's, or names the first returned record no node refers to |
| LoadM2O.ReuseIsExact | ent/account_query.go:619-623 | nodes loaded through a query that was loaded before are served as through one that was not, if and only if every proxy found for them was asked for then, or is the one they already point to |
| LoadM2O.LoadFromTable | ent/account_query.go:603-634 | on a table a load succeeds and every node gets the stored proxy it refers to if that satisfies the predicates the query had, and keeps what it had if not |
| LoadM2O.LoadTwice | ent/account_query.go:603-634 | two loads through one query both succeed and leave both restrictions on it; the second serves by the restricted predicates, as a fresh query would exactly when the first covers what is found |
| LoadM2O.SecondLoadMisses | ent/account_query.go:619-623 | a second load that leaves an account without its stored proxy |
| LoadM2O.FreshLoadFinds | ent/account_query.go:619-623 | the same account through a fresh query gets it |
| LoadO2M.ChildrenAreStable | ent/account_query.go:655-662 | the children of a parent are exactly those whose foreign key is its ID, at increasing positions of the result |
| LoadO2M.ChildrenConserved | ent/account_query.go:655-662 | over distinct parents that own all children, the lists together have as many entries as there are children |
| LoadO2M.LoadUsageLogs | ent/account_query.go:635-664 | whatever fields the child query selects, its foreign key is added and decides: every node that owns its ID holds its children among those before the first orphan, in result order; the error is the invalid field, the query's error or names that orphan and its key; the query keeps the restriction |
| LoadO2M.LoadIsPartition | ent/account_query.go:635-664 | with distinct IDs a successful load puts every child on the node its foreign key names, no node holds another's child, and the lengths sum to the number of children |
| LoadO2M.DuplicatesAreServedIff | ent/account_query.go:638-662 | with duplicate IDs every node gets the children of its ID if and only if no ID with two nodes has children |
| LoadO2M.LoadFromTable | ent/account_query.go:635-664 | on a table a load succeeds and every node that owns its ID gets the stored children of that ID that satisfy the predicates the query had, in order |
| LoadO2M.ReuseIsExact | ent/account_query.go:648-662 | nodes loaded through a query that was loaded before are served as through one that was not, iff each of them with children was asked for then |
| LoadO2M.LoadTwice | ent/account_query.go:635-664 | two loads through one query both succeed and leave both restrictions on it, and the second serves as a fresh query would exactly when the first covers the nodes with children |
| LoadNullableO2M.LoadAdoptionDecisions | ent/authidentity_query.go:559-592 | whatever fields the child query selects, its foreign key is added; exactly the children before the first with a null or unknown parent are attached, in result order, and the error names that child and whether its parent is null or unknown |
| LoadNullableO2M.FailureIsExact | ent/authidentity_query.go:579-590 | the loader fails if and only if some child has a null or unknown parent |
| LoadNullableO2M.LoadFromTable | ent/authidentity_query.go:559-592 | on a table, decisions without a parent included, a load succeeds and every node that owns its ID gets the stored decisions of that ID that satisfy the predicates the query had, in order |
| AccountQuerying.KeysAreRead | ent/account_query.go:708-727 | for every selection of fields the ID, and the foreign key when its edge is requested, are read as stored, so projection never changes a join |
| AccountQuerying.ReadNodes | ent/account_query.go:490-507 | every row becomes a fresh node that decodes it and records which edges were requested, no two nodes share a pointer cell, or reading stops with the error of the first row that does not decode |
| LoadO2M.ChildIDs | ent/account_query.go:655-662 | selecting children by position selects the same stored records |
| AccountQuerying.AccountQuery.SqlAll | ent/account_query.go:480-540 | the result is decided by the stored rows and the state of the child queries before: the query's error; the scan error of the first row that does not decode; an empty list and no error without rows; the error of the first requested edge that fails; and otherwise one node per row that decodes it and shares no cell, each accessor answering as it must: not loaded iff the edge was not requested, not found iff it was and the stored foreign key is null or dangling, else the neighbours the stored keys name. The child queries are left with what those reached were asked, and the others as before |
| AccountQuerying.SqlAllTwice | ent/account_query.go:261-268 | a second `All` that requests groups with valid fields asks for both lists of IDs and panics on the first row it is answered |
| TableQuerying.SqlAllFromTables | ent/account_query.go:480-540 | on a database that answers from tables `sqlAll` succeeds whenever its rows and groups decode: there is a node for every row, and its accessors answer with exactly the groups, the proxy and the usage logs that are stored for the keys of the row and satisfy the predicates the child queries had |
| EagerLoading.LoadEdges | ent/account_query.go:512-538 | the error is that of the first edge that fails in the order groups, proxy, usage logs; loading one edge leaves the answers of the others and the fields of the nodes; each query is left as asked if its edge was reached and as before if not |
| EagerLoading.LoadProxy | ent/account_query.go:518-523 | the error is exactly the loader's and the query keeps what it was asked; after loading, the accessor answers with the proxy whose ID is the stored foreign key, not found when it is null or dangling; groups and usage logs are left alone |
| EagerLoading.SecondGroupsError | ent/account_query.go:553-585 | after any earlier load of the edges, loading the groups again fails with the invalid field or the query's error, and otherwise panics unless there is no row |
| AccountCreating.DefaultsMeaning | ent/account_create.go:465-520 | `defaults` fails iff an unset field has no default function, names the first such field, and fills exactly the unset fields before it, or all of them, each with its own default |
| AccountCreating.DefaultsAreSafe | ent/account_create.go:465-520 | `defaults` never overwrites a value, is idempotent, and when it fails `check` fails too, so bulk `Save` may discard its error |
| AccountCreating.CheckMeaning | ent/account_create.go:522-588 | `check` passes only if every required field is set and the name is valid; it reports the first required field that is missing, and an invalid name only when the fields before it are there |
| AccountCreating.BuildSpec | ent/account_create.go:608-762 | the step-by-step builder returns a fresh node and a spec that both hold exactly what the mutation gives |
| AccountCreating.SpecEdgesHold | ent/account_create.go:726-778 | every edge the mutation has targets for is in the spec once, with these targets, and no other edge is |
| AccountCreating.StoredRowHolds | ent/account_create.go:608-762 | the row written by the spec holds for every column what the mutation gives it, and NULL otherwise |
| AccountCreating.CreateReadRoundTrip | ent/account_create.go:608-762 | the row a spec writes, read through any column list naming the table's columns in any order and number, is the node `createSpec` returned, given a JSON codec that round-trips |
| AccountGroups.AccountGroup.AssignValues | ent/accountgroup.go:85-120 | the method on the heap leaves the fields the column-by-column specification gives, or its first error and the fields reached before it |
| AccountGroups.DecodedLink | ent/accountgroup.go:67-120 | scanning and assigning never disagree, and a field depends on the column list only through whether its column is selected |
| AccountGroups.BuildLinkSpec | ent/accountgroup_create.go:159-208 | the keys become edges of the spec and fields of the node, the other fields both |
| AccountGroups.StoredLinkHolds | ent/accountgroup_create.go:159-208 | the row the spec writes holds for every column what the mutation gives it, the two keys through their edges, and NULL otherwise |
| AccountGroups.LinkRoundTrip | ent/accountgroup_create.go:159-208 | the row a spec writes, read through any column list naming the table's columns in any order and number, is the node `createSpec` returned |
| AccountGroups.CheckedLinkIsComplete | ent/accountgroup_create.go:122-142 | a mutation passes `check` if and only if the row of its spec has no NULL, in its composite key or elsewhere; otherwise the complaint names the first column that would be NULL |
| BulkCreating.AccountCreate.Defaults | ent/account_create.go:465-520 | the field-by-field method leaves the specified fields and error |
| BulkCreating.DoneRange | ent/account_create.go:1932-1965 | a run from builder i on marks no earlier builder done |
| BulkChain.TraceIsNested | ent/account_create.go:1926-1974 | whatever the hooks do, they are entered in order up to some point, at most one insert runs and only after all of them were entered, and exactly the entered ones are left in reverse order |
| BulkChain.WhatIsInserted | ent/account_create.go:1932-1957 | the insert runs if and only if every builder's hooks hand down and every builder's own mutation passes its check; it is the only one and gets one spec per builder, in builder order, made of what its hooks handed down; IDs are assigned iff the database accepts |
| BulkChain.InsertIsExact | ent/account_create.go:1926-1974 | the same of the whole chain |
| BulkChain.DoneIsHanded | ent/account_create.go:1932-1965 | a mutation marked done holds what its builder's hooks handed down |
| BulkChain.DoneIsInserted | ent/account_create.go:1941-1965 | what the insert got for a builder whose mutation is done is the spec of that mutation |
| BulkChain.Verdict | ent/account_create.go:1932-1965 | for hooks that propagate errors: the rows are stored iff every builder gets past its hooks and its check and the database accepts the specs; if not, there is an error and nothing is done; if so, a builder is done iff no hook of a later builder fails late, and the run succeeds iff no hook does |
| BulkChain.ErrorIsFirst | ent/account_create.go:1926-1974 | with hooks that return errors as they are, the error is that of the first builder whose hooks refuse or whose own mutation fails its check, whatever later builders would do, and the one of the database if every builder proceeds and it rejects the specs |
| BulkChain.AllOrNothing | ent/account_create.go:1919-1976 | for hooks that propagate errors and do not fail late: if every builder gets past its hooks and its check and the database accepts the specs, there is no error, one insert ran with them in builder order and every mutation is done; otherwise there is an error, no insert succeeded and none is done |
| BulkChain.LateFailureIsExact | ent/account_create.go:1958-1974 | an error comes with done mutations if and only if every builder gets past its hooks and its check, the database accepts the specs and some hook fails late |
| BulkChain.LateFailureHappens | ent/account_create.go:1958-1974 | a run in which the row is stored and its mutation done although an error is returned |
| BulkChain.InsertsAreChecked | ent/account_create.go:1929-1940 | with hooks that hand on the builder's own mutation, every spec that reaches the insert is made of fields that passed the check, so none lacks a required field |
| BulkChain.SubstituteEscapesCheck | ent/account_create.go:1937-1941 | a run in which a row without its required name is inserted |
| BulkChain.UncheckedIsExact | ent/account_create.go:1937-1942 | an unchecked spec is inserted if and only if every builder gets past its hooks and its check while some builder's hooks hand down a mutation that does not itself pass |
| BulkChain.SpecDetermines | ent/account_create.go:608-762 | two mutations with one spec agree on whether they pass the check: the spec loses nothing that is checked |
| BulkSaving.Chain.BatchCreate | ent/account_create.go:1946-1954 | the insert gets the specs in builder order, once; on success the ID at each position of the answer reaches the spec at that position, and on failure none does and the error is the database's |
| BulkSaving.Chain.Mutate | ent/account_create.go:1932-1971 | running the remaining hooks and the core of a builder has the error, trace, inserts and heap effects of the specified run |
| BulkSaving.Chain.Finish | ent/account_create.go:1958-1965 | on the way back the mutation points at its node's ID, the assigned ID is filled in, it is done, and later builders keep what they have |
| BulkSaving.AccountCreateBulk.Save | ent/account_create.go:1919-1976 | the chain of closures over shared arrays refines the run function: same error, hook order, inserts and done set; every done mutation, after an error too, is the one whose spec was inserted and points at its node, which holds its fields; its ID is the one the database assigned at its builder's position, and zero where it assigned none; on success these nodes are returned |
| GroupEdges.GroupsMutation.AddGroupIDs | ent/mutation.go:3780-3788 | adds the IDs to the pending set and changes nothing else |
| GroupEdges.GroupsMutation.RemoveGroupIDs | ent/mutation.go:3800-3809 | withdraws the IDs from the pending set and records them as removed |
| GroupEdges.GroupsMutation.ClearGroups | ent/mutation.go:3790-3793 | marks the edge cleared and leaves the pending sets |
| GroupEdges.GroupsMutation.ResetGroups | ent/mutation.go:3827-3832 | forgets every pending change |
| GroupEdges.RangeOver | ent/mutation.go:3811-3825 | the listed IDs are those of the set, each once, in any order |
| GroupEdges.GroupsMutation.BuildGroupEdges | ent/account_update.go:846-902 | the specs describe the mutation whatever order its sets are ranged in: one clear-all iff cleared, the removed IDs only when not cleared, the added IDs if any |
| GroupEdges.UpdateAlgebra | ent/account_update.go:1839-1895 | on any group set, clears then adds give (none if cleared, else old minus removed) plus added, and leaving out the remove spec of a cleared edge changes nothing |
| GroupEdges.SavedIsInOrderPlusOutlived | ent/mutation.go:3780-3832 | saving any sequence of calls gives what the calls do in order plus exactly the IDs that outlived a clear |
| GroupEdges.InOrderIffNothingOutlives | ent/mutation.go:3780-3832 | the calls take effect in order if and only if no pending ID outlives a clear |
| GroupEdges.ClearKeepsPendingAdds | ent/mutation.go:3790-3793 | adding a group and then clearing leaves the account in that group |
| Upserting.FrozenIsExact | ent/account_create.go:1301-1311 | an update set keeps every stored `created_at` whatever is proposed if and only if it leaves the column out or sets it to itself |
| Upserting.AccountUpsert.UpdateNewValues | ent/account_create.go:1301-1311 | appends its two options, in order, to those of the calls before |
| Upserting.NewValuesMeaning | ent/account_create.go:1301-1311 | after any earlier options, UpdateNewValues gives every inserted column its new value except `created_at`, and leaves the others to those options, unless one of them is to do nothing |
| Upserting.IgnoreMeaning | ent/account_create.go:1317-1320 | after any earlier options, Ignore keeps every inserted column as stored |
| Upserting.AccountUpsert.Update | ent/account_create.go:1331-1335 | appends one option with the assignments its function makes to those of the calls before |
| Upserting.UpdateMeaning | ent/account_create.go:1331-1335 | after any earlier options, Update gives every column it names what its last assignment says, the value given, the proposed or the stored one, and leaves the others to those options |
| Upserting.DoNothingMeaning | ent/account_create.go:1322-1327 | DoNothing keeps the stored row whatever options come before and after it, and naming the conflict columns changes no conflict |
| Upserting.NewValuesFreeze | ent/account_create.go:2049-2060 | the ignore option appended after the new-values option keeps `created_at` frozen, for one and for many builders |
| Upserting.BuilderFreezes | ent/account_create.go:1301-1335 | after any calls, in any order and number, the options leave `created_at` alone |
| Upserting.BareNewValuesOverwrites | ent/account_create.go:1293-1302 | the bare option leaves `created_at` alone if and only if no inserted row sets it |
| Upserting.NewValuesEquivalence | ent/account_create.go:1293-1311 | after any other options, UpdateNewValues and the bare option the documentation calls equivalent merge every conflict alike if and only if no inserted row sets `created_at` or one of the others is to do nothing |
| Upserting.KeepsIsExact | ent/account_create.go:798-811 | whatever options are given, raw ones included, every stored `created_at` survives every conflict if and only if they do nothing or are frozen |
| Upserting.BuiltIsAllowed | ent/account_create.go:1301-1335 | an upsert made of any calls the builders offer keeps `created_at` |
| Upserting.StoreAllFreezes | ent/account_create.go:2049-2077 | an upsert of many rows keeps every stored row and its `created_at` |
| Upserting.StoreAllMeaning | ent/account_create.go:2049-2077 | an upsert of many rows changes no row it has no conflict with, stores every row without a conflict under its ID unless that is taken, and a row not stored before was proposed, with the `created_at` it holds |
| Upserting.CreatesAreStored | ent/account_create.go:1946-1957 | a bulk create of new rows adds exactly them to the table, each as proposed |
| Upserting.UpdatedRowHolds | ent/account_update.go:693-931 | an update writes what a create of the same mutation would store, clears what is marked cleared and has no pending value, and leaves all else, the ID and `created_at` always |
| NullableChanges.ProxyMutation.SetProxyID | ent/mutation.go:2776-2778 | the target becomes pending and no clear is taken back |
| NullableChanges.ProxyMutation.ClearProxy | ent/mutation.go:3834-3837 | marks edge and field cleared and leaves the pending target |
| NullableChanges.ProxyMutation.ClearProxyID | ent/mutation.go:2807-2810 | drops the pending target and marks the field cleared |
| NullableChanges.ProxyMutation.ResetProxy | ent/mutation.go:3855-3858 | drops the pending target and takes back the clear of the edge, not that of the field |
| NullableChanges.ProxyMutation.BuildProxyEdges | ent/account_update.go:903-931 | one edge is cleared iff edge or field is marked cleared, and the pending target is added |
| NullableChanges.SavedMeaning | ent/account_update.go:1896-1924 | saving any sequence of calls leaves the proxy of the calls in order, except that a target pending at a clear of the edge is stored and a clear that outlived a reset still clears |
| NullableChanges.InOrderIffNothingOutlives | ent/mutation.go:3834-3858 | the saved proxy is that of the calls in order if and only if no pending target outlived a clear of the edge and no clear of a stored proxy outlived a reset |
| NullableChanges.ClearKeepsPendingProxy | ent/mutation.go:3834-3837 | setting proxy 5 and clearing the edge stores proxy 5 |
| NullableChanges.ResetKeepsClear | ent/mutation.go:3834-3858 | clearing the edge and resetting it clears a stored proxy |
| NullableChanges.UpdateStoresCalls | ent/account_update.go:693-931 | the row after an update holds the saved proxy of any calls, and always the notes of the calls in order |
| Upserting.CreatedAtIsFrozen | ent/account_update.go:693-845 | over any run of creates, upserts whose options keep `created_at`, updates and deletes, a row that stays stored keeps the `created_at` it was first stored with |
| QueryCloning.Append | ent/account_query.go:41-45 | append yields the items plus the new one, in place exactly while there is capacity and in a fresh array otherwise |
| QueryCloning.Query.Clone | ent/account_query.go:342-361 | the clone has equal predicates, order, interceptors, context and path, no modifiers, and a child query exactly where its original has one, related in the same way at every depth; it shares no heap object with its original |
| QueryCloning.OneClone | ent/account_query.go:342-361 | a query tree has one clone, which has no modifiers anywhere; a tree without modifiers is cloned to an equal one |
| QueryCloning.PlainIsItsClone | ent/account_query.go:342-361 | a query tree is its own clone if and only if no query in it has modifiers |
| QueryCloning.Query.WithGroups | ent/account_query.go:364-371 | replaces the child query by a new one its options were called on and leaves the rest |
| QueryCloning.Query.Do | ent/account_query.go:41-70 | a call appends its term, replaces the limit or replaces a child query by a new one its options were called on, and changes nothing else, without touching objects it does not own |
| QueryCloning.CalledInOrder | ent/account_query.go:41-70 | calls take effect one after the other |
| QueryCloning.CloneAndUse | ent/account_query.go:342-404 | after any interleaving of calls on a query and its clone, each is what its own calls alone made of it, the clone starting from a clone of the original's tree |

## Left out

- SQL generation and execution, transactions, row locks, drivers: a query is a function of its accumulated predicates, clears apply before values are set and edges added, conflict options apply in order.
- Interceptors and the `Traverse` step of preparing a query are the identity; the traversal path is kept by `Clone` but never followed.
- Eager loading of the children's own edges: child queries answer with records. Proxies, usage logs and decisions keep their key and their foreign key; decoding them is part of the query's answer, while groups, whose decoding the M2M loader interferes with, keep a name and a JSON document.
- The other columns of an account, its account_groups edge, and the other entities: the same templates. A required M2O foreign key (`loadUser` of API keys) is the nullable case without NULLs.
- Bulk save of the composite-key entity: the account's chain without the ID back-fill.
- Entities.Account.AssignValues: a cell is not written after it was made; nil and empty lists are one value.
- RowCodec.ScanAssignAgree: a driver value that does not fit its holder is excluded, because stored rows have the types of the schema (`WellTyped`).
- AccountCreating.StoredRowHolds: M2M and O2M targets of a create are sets; what they write into other tables is not modelled.
- AccountCreating.SpecEdgesHold: the default fields of the edge-table rows that a groups edge carries (`Target.Fields`) are left out.
- BulkSaving.AccountCreateBulk.Save: the builders and their mutations are distinct objects that were not saved before: a builder listed twice, a shared mutation and one already done are excluded; hooks call the next mutator at most once, with the mutation they got or with a new account mutation, never with that of another builder; a hook's own return value is not modelled, only its error.
- BulkChain.AllOrNothing: needs that hooks hand on or refuse, propagate errors and do not fail late; `Verdict` and `LateFailureIsExact` say what happens when they fail late.
- Upserting.CreatedAtIsFrozen: an upsert with raw options that overwrite `created_at` is excluded, because the promise is then false; `KeepsIsExact` gives the exact condition on the options.
- QueryCloning.Query.Clone: two of the four child queries and the intermediate SQL selector, whose `Clone` is library code, are left out.
- Setter and panic wrappers, `String`, delete builders, counting, grouping and scanning of aggregates: single steps.
