# concierge.netrun, package db — a Dafny model

Package `db` of concierge.netrun holds the identity and authorization data of
the concierge server in Postgres. It does four things, and this project models
each of them and proves properties about it:

- **The permission matcher** (`permissions.dfy`, module `Permissions`).
  - A capability is an `rwx` bit string. A permission label (`r`, `w`, `x`,
    `rw`, `rx`, `wx`) maps to a regular expression, and `MatchPermission` runs
    Go's unanchored `regexp.MatchString`.
  - Each pattern is modelled as a sequence of positions, either the literal
    `1` or the class `[01]`. A match is "some window of the string fits the
    pattern".
- **Environment configuration** (`models.dfy`, module `Models`).
  - `SetupModels` assigns the package-level variables (the site group, the
    well-known roles, the permission table, the seed users and the eight table
    names) according to `env`, which is `"test"`, `"release"` or invalid.
  - The package variables are the fields of the class `Package`.
- **The store and the queries** (`database.dfy`, module `Database`, and
  `queries.dfy`, module `Queries`).
  - Postgres is abstracted as a value `Db`. It holds the eight tables as
    sequences of rows in scan order, the set of tables that exist, the SERIAL
    counters, the handle's open flag, and a set of injected I/O faults (a
    query or a row scan that fails).
  - `Apply` gives the engine's meaning for every statement the package
    issues: `DROP ... IF EXISTS`, `CREATE ... IF NOT EXISTS`, inserts with
    their foreign keys and UNIQUE names, and the selects.
  - The class `Store` is the `*sql.DB` handle.
  - `GetUid`, `GetGid`, `GetRid`, `GetRpid`, `IsInGroup`, `IsRole` and
    `HasPermission` are methods. Each is proved against a verdict function
    that fixes the error reported and the value written through the caller's
    pointer.
- **The schema bootstrap** (`seeds.dfy`, module `Seeds`, and `bootstrap.dfy`,
  module `Bootstrap`).
  - Every `Drop*Table`, `Create*Table` and `Seed*Table` step is a method on
    the store, with its nested loops, proved against a specification function.
  - `SetupDb` runs the seventeen stages through a `WaitGroup` and a buffered
    `ErrorChan` of capacity 3. It is proved equal to the staged function
    `Progress`: each stage runs its steps, and the first error received ends
    the bootstrap.
  - Lemmas prove the drop and create order against the foreign keys, and
    prefix-only effects on failure.
  - `testenv.dfy` (module `TestEnvironment`) proves that `SetupModels("test")`
    followed by `SetupDb` yields exactly the seeded state. The store must
    open and have no injected fault. The administrator's name and email must
    differ from the test user's, `test1` and `test1@test.com`: the users
    table declares both columns UNIQUE (db/seeds.go:134-135), so otherwise
    the second user insert fails. The lookups and the `IsInGroup` and
    `IsRole` checks of the repository's own test are proved to succeed on
    that state.

Where the code and its documentation differ, the model follows the code,
with one exception. `HasPermission`'s grant query, as the code writes it,
reads registered_processes, which lacks the columns the query names. The
model's `Queries.HasPermission` reads registered_process_permissions
instead, and the code's own behaviour is kept and proved separately (see
"Findings").

The permission table is consulted with a plain map index
(db/common_queries.go:315). A label that is not in the table reads as the
empty pattern, and the empty pattern matches every string. So `HasPermission`
with an unknown label grants to any role that has a grant row for the
process, whatever its bits are (`Permissions.UnknownLabelMatchesAll`,
`Queries.HasPermissionGrantsIff`). The model keeps this behaviour as written.

## Model

| member | source | states |
|---|---|---|
| Permissions.MatchFrom | db/models.go:133-136 | the search resumed at `from` succeeds iff some window starting at or after `from` fits the pattern |
| Permissions.MatchPermission | db/models.go:133-136 | `regexp.MatchString` is an unanchored search: it succeeds iff the pattern fits some window of the string |
| Permissions.RequiredPositions | db/models.go:63-70 | an independent reading of each label as the set of bit positions it requires, all below 3 |
| Permissions.MatchOnExactLength | db/models.go:133-136 | on a string as long as the pattern, matching is fitting at position 0 |
| Permissions.EveryPatternHasThreePositions | db/models.go:63-70 | each of the six patterns constrains exactly three positions |
| Permissions.MatchIffRequiredBitsSet | db/models.go:63-70 | on every 3-bit string, a label matches iff every position it requires holds `1` |
| Permissions.SingleLetterLabels | db/models.go:64-66 | on 3-bit strings, `r`, `w` and `x` match iff bit 0, 1 and 2 respectively is `1` |
| Permissions.PairLabelsAreConjunctions | db/models.go:67-69 | on 3-bit strings, `rw`, `rx` and `wx` match iff both of their letters' bits are `1` |
| Permissions.ShortStringsMatchNoLabel | db/models.go:63-70 | no label matches a string shorter than three characters |
| Permissions.NonBitStringsMatchNoLabel | db/models.go:63-70 | no label matches a three-character string that holds a character other than `0` or `1` |
| Permissions.EmptyPatternMatchesAll | db/models.go:133-136 | the empty expression matches every string |
| Permissions.UnknownLabelMatchesAll | db/common_queries.go:315 | a label missing from the table looks up the empty pattern, which every string matches |
| Models.TableNamesAreDistinct | db/models.go:91-100 | in both the test and the release naming, the eight tables have pairwise distinct names |
| Models.Package.constructor | db/models.go:44-48 | the package variables start at Go's zero values, with no database handle |
| Models.Package.SetupModels | db/models.go:50-131 | every env assigns the site group, the roles and the permission table. `test` sets the admin and `test1` users and the `test`-prefixed names. `release` sets the admin alone and the plain names. Any other env reports an error and keeps the users and names. The handle is never touched. |
| Database.SelectFrom | db/common_queries.go:14-31 | the selected ids are empty iff no row from `from` on has the name; otherwise the first id is that of the first such row |
| Database.Lookup | db/common_queries.go:10-33 | a lookup succeeds iff the query runs, a row has the name and its scan succeeds, and it then delivers the first such row's id. "not found" means the query ran and no row has the name; every other failure is a store error of that select. |
| Database.RwxFrom | db/common_queries.go:299-314 | the rwx strings are empty iff no grant row from `from` on is for (gid, rid, rpid); otherwise the first one is that of the first such row |
| Database.Fresh | db/seeds.go:125-148 | creating a table adds it to the schema and keeps the handle and the faults |
| Database.Apply | db/seeds.go:21-32 | a failing statement changes nothing; no statement changes the handle or the faults; a statement that fails its checks reports exactly that cause |
| Database.EmptyNameCause | db/seeds.go:24-26 | a DROP whose table name was spliced in empty fails. It is a syntax error exactly when the handle is open and the statement has no I/O failure; otherwise it fails with the same cause `Check` reports first, closed before injected |
| Database.DropAbsentTableIsNoOp | db/seeds.go:25 | `DROP TABLE IF EXISTS` on an absent table succeeds and changes nothing |
| Database.CreateExistingTableIsNoOp | db/seeds.go:129-141 | `CREATE TABLE IF NOT EXISTS` on an existing table succeeds and changes nothing |
| Database.DropIsIdempotent | db/seeds.go:25 | after a successful drop the table is absent, and dropping again succeeds with no change |
| Database.CreateIsIdempotent | db/seeds.go:129-141 | after a successful create the table exists, and creating again succeeds with no change |
| Database.DuplicateNamesAreRejected | db/seeds.go:150-188 | inserting a role or group name the table already holds fails on the UNIQUE constraint and changes nothing |
| Database.LookupFrame | db/common_queries.go:10-108 | a lookup reads only the users, groups, roles and processes tables and the handle's condition |
| Database.LinkInsertKeepsDirectory | db/seeds.go:482-497 | a successful membership or role-binding insert appends exactly its row and changes nothing a lookup reads |
| Database.Store.constructor | db/db.go:43 | a handle on the database in the given state |
| Database.Store.Query | db/seeds.go:25-31 | `db.Query` moves the database to the statement's outcome state and returns its error |
| Database.Store.Close | db/db.go:26-31 | closing the handle leaves every table as it is and makes later statements fail |
| Queries.Final | db/common_queries.go:135-186 | the caller's bool keeps its old value unless the call writes one, and then holds that |
| Queries.Deliver | db/common_queries.go:10-33 | a `Get*` call sends the lookup's error and writes the id only when the lookup succeeds |
| Queries.FirstErrorFrom | db/common_queries.go:152-162 | the inspected error is nil iff every error from `from` on is nil, else the first non-nil one |
| Queries.FirstError | db/common_queries.go:152-162 | the fan-in reports nil iff every lookup succeeded, else the first failure in channel order |
| Queries.FirstOfTwo | db/common_queries.go:152-162 | with two channels, the first channel's error wins |
| Queries.FirstOfThree | db/common_queries.go:208-223 | with three channels, errors are reported in the order uid, gid, rid |
| Queries.GetId | db/common_queries.go:10-108 | the shared body of the four `Get*` queries delivers exactly the lookup's outcome |
| Queries.GetUid | db/common_queries.go:10-33 | nil only when a users row has the name, with the first such row's uid written. "No uid found" iff the query ran and no row matched. On any error the pointer is not written. |
| Queries.GetGid | db/common_queries.go:35-58 | the same for groups: the first matching row's gid, "not found" iff no row matches, the pointer untouched on error |
| Queries.GetRid | db/common_queries.go:60-83 | the same for roles: the first matching row's rid, "not found" iff no row matches, the pointer untouched on error |
| Queries.GetRpid | db/common_queries.go:85-108 | the same for registered processes: the first matching row's rpid, the pointer untouched on error |
| Queries.InGroupVerdict | db/common_queries.go:135-186 | a uid failure is reported ahead of a gid failure, with no query and no write. Once both resolve, a write always happens. A failing membership query sends the store error and writes false. A query that runs without finding the pair sends `NotInGroup` and writes false. Success iff the query runs and the join finds the pair, and it then writes true. |
| Queries.IsInGroup | db/common_queries.go:135-186 | the method sends the verdict's error and leaves the caller's bool as the verdict says |
| Queries.RoleVerdict | db/common_queries.go:188-248 | lookup failures are reported in the order uid, gid, rid, with no write. Once all three resolve, a write always happens. A failing query sends the store error and writes false. A query that runs without finding the triple sends `NotInRole` and writes false. Success iff the triple is in group_user_roles with its rid in roles, and it then writes true. |
| Queries.IsRole | db/common_queries.go:188-248 | the method sends the verdict's error and leaves the caller's bool as the verdict says |
| Queries.PermissionVerdict | db/common_queries.go:250-333 | an `IsRole` error is forwarded unchanged with no write. Past that gate, a process that does not resolve yields its lookup error with no write. Success requires the process to resolve. After the lookups, the grant query decides. |
| Queries.GrantVerdict | db/common_queries.go:299-332 | a failing grant query sends a store error and writes false. When there is no row, or its rwx does not match the label, it sends `NoPermission` and writes false. A failing scan sends the scan error and leaves the bool unwritten. Success iff the query runs, the first row for (gid, rid, rpid) exists and scans, and its rwx matches the label, and it then writes true. |
| Queries.HasPermission | db/common_queries.go:250-333 | the method sends the verdict's error and leaves the caller's bool as the verdict says, reading grants from the permissions table |
| Queries.GateResolvesGroupAndRole | db/common_queries.go:275-297 | past the role gate, the user, group and role all resolve. In the model, where the store and its faults stay fixed for the whole call, only the process lookup can still fail after the gate |
| Queries.FirstGrantUnique | db/common_queries.go:305-314 | at most one row is the first grant row for a triple |
| Queries.HasPermissionGrantsIff | db/common_queries.go:250-333 | permission is granted iff the role gate passes, the process resolves, the first grant row for (gid, rid, rpid) is read and its rwx matches the label's pattern |
| Queries.FirstGrantIsHead | db/common_queries.go:305-314 | the grant query returns a row iff a grant row for the triple exists, and the first rwx read is that row's |
| Queries.GrantDecidedByBits | db/common_queries.go:305-332 | with the permission table `SetupModels` installs and a 3-bit grant, permission is granted iff every bit the label requires is set |
| Queries.GrantQueryAsWrittenFails | db/common_queries.go:299-305 | with the query reading registered_processes, a caller that passes the gate always gets a store error, on any open store holding that table |
| Queries.RegisteredProcessesLacksGrantColumns | db/seeds.go:243-267 | a grant query on registered_processes always fails its checks, for lack of the rwx, gid and rid columns |
| Queries.GrantQueryAsWrittenNeverGrants | db/common_queries.go:299-305 | as written, `HasPermission` never succeeds, whatever the store holds |
| Queries.AddedMemberIsInGroup | db/common_queries.go:164-185 | after inserting the membership row of a resolved user and group, `IsInGroup` succeeds and writes true |
| Queries.MembershipVisible | db/common_queries.go:164-185 | a membership row for an existing uid, once inserted, is found by the join query |
| Queries.ResolvedUserIsRow | db/common_queries.go:10-33 | a uid that `GetUid` delivers belongs to a row of the existing users table |
| Queries.ResolvedRoleIsRow | db/common_queries.go:60-83 | a rid that `GetRid` delivers belongs to a row of the existing roles table |
| Queries.AddedRoleBindingIsRole | db/common_queries.go:225-247 | after inserting the role binding of a resolved user, group and role, `IsRole` succeeds and writes true |
| Queries.RoleBindingVisible | db/common_queries.go:225-247 | a role binding for an existing rid, once inserted, is found by the join query |
| Queries.InGroupHeld | db/common_queries.go:164-185 | `IsInGroup` succeeds and writes true once both names resolve, its query runs and the join finds the pair |
| Queries.RoleHeld | db/common_queries.go:225-247 | `IsRole` succeeds and writes true once the three names resolve, its query runs and the join finds the triple |
| Seeds.DropTable | db/seeds.go:21-123 | each drop step moves the store to the outcome of `DROP TABLE IF EXISTS` and reports its error |
| Seeds.CreateTable | db/seeds.go:125-324 | each create step moves the store to the outcome of `CREATE TABLE IF NOT EXISTS` and reports its error |
| Seeds.SeedUsersTable | db/seeds.go:326-357 | the loop inserts the users in list order and stops at the first failed insert |
| Seeds.UserRows | db/seeds.go:333-355 | the rows added by inserting users in order: one per user, in order, with consecutive uids from the sequence |
| Seeds.UserInsertEffect | db/seeds.go:343-351 | a successful user insert appends its row with the next uid and advances the sequence, changing nothing else |
| Seeds.UsersPrefixStep | db/seeds.go:333-355 | a successful insert in front of an inserted prefix gives a longer inserted prefix |
| Seeds.SeedUsersInsertsPrefix | db/seeds.go:333-356 | the users seed inserts exactly a prefix of the users, in order. It succeeds iff that prefix is the whole list; a failure is the insert of the first user left out. |
| Seeds.SeedRolesTable | db/seeds.go:359-393 | the roles seed inserts the user role, then the admin role, skipping the second insert when the first fails |
| Seeds.RolesSeedEffect | db/seeds.go:359-393 | the roles seed succeeds iff both inserts pass their checks and the two names are new and differ. It then appends user, then admin, with consecutive rids. A failed first insert changes nothing. |
| Seeds.SeedGroupsTable | db/seeds.go:395-414 | the groups seed moves the store to the outcome of inserting the site group |
| Seeds.GroupsSeedEffect | db/seeds.go:395-414 | the groups seed succeeds iff its checks pass and the name is new, and it then appends exactly the site group with the next gid |
| Seeds.EntryStmts | db/seeds.go:452-498 | one insert per remaining role entry |
| Seeds.RunAppend | db/seeds.go:426-499 | running two statement lists in turn is running their concatenation |
| Seeds.EntryStep | db/seeds.go:452-498 | a failed entry changes nothing. A successful entry runs exactly its one insert, with the ids resolved in the state the loop began in. |
| Seeds.EntriesRunPrefix | db/seeds.go:452-498 | the inner loop runs a prefix of its inserts, with ids as resolved before it, and keeps every lookup as it was |
| Seeds.PrefixAppend | db/seeds.go:426-499 | a full first part followed by a prefix of the rest is a prefix of the whole |
| Seeds.LinksRunPrefix | db/seeds.go:426-499 | the outer loop runs a prefix of the inserts of all users' entries, with ids resolved at the start, and keeps every lookup as it was |
| Seeds.SeedLinksRunPrefix | db/seeds.go:416-621 | both link seeds issue one insert per role entry of each user, in list order, and on failure have run exactly a prefix of them |
| Seeds.TwoRolesInOneGroupGiveTwoMemberships | db/seeds.go:426-499 | a user with two role entries in one group gets two identical membership rows |
| Seeds.TwoEntriesInOneGroup | db/seeds.go:452-498 | two entries naming one group insert the same (uid, gid) row twice |
| Seeds.InsertMembership | db/seeds.go:453-497 | one inner iteration of the group_users seed: resolve the group, then insert the pair, as `EntryOutcome` says |
| Seeds.InsertRoleBinding | db/seeds.go:541-617 | one inner iteration of the group_user_roles seed: resolve the group and the role, then insert the triple |
| Seeds.InsertEntries | db/seeds.go:452-498 | the inner loop runs the user's entries in order and stops at the first failure |
| Seeds.UserStep | db/seeds.go:426-450 | a failed user lookup ends the outer loop with its error; otherwise the loop continues after the user's entries |
| Seeds.InsertLinks | db/seeds.go:426-499 | the outer loop resolves each user in order, then runs the user's entries, and stops at the first failure |
| Seeds.SeedGroupUsersTable | db/seeds.go:416-501 | the group_users seed is the outer loop over the users with membership entries |
| Seeds.SeedGroupUserRolesTable | db/seeds.go:503-621 | the group_user_roles seed is the outer loop over the users with role-binding entries |
| Seeds.SeedRegisteredProcessesTable | db/seeds.go:623-627 | reports success and changes nothing |
| Seeds.SeedRegisteredProcessPermissionsTable | db/seeds.go:629-633 | reports success and changes nothing |
| Seeds.SeedRunningProcessesTable | db/seeds.go:635-639 | reports success and changes nothing |
| Bootstrap.WaitGroup.constructor | db/db.go:49 | a fresh wait group counts no step |
| Bootstrap.WaitGroup.Add | db/db.go:50 | `Add(n)` counts n more pending steps |
| Bootstrap.WaitGroup.Done | db/seeds.go:22 | a counted step marks itself done once |
| Bootstrap.WaitGroup.Wait | db/db.go:53 | the barrier passes only when no step is pending |
| Bootstrap.ErrorChan.constructor | db/db.go:24 | `make(chan error, 3)`: an open, empty buffer of the given capacity |
| Bootstrap.ErrorChan.Send | db/seeds.go:27-31 | a send appends to the buffer, which must have room so the sender does not block |
| Bootstrap.ErrorChan.Receive | db/db.go:97 | a receive takes the oldest buffered error |
| Bootstrap.ErrorChan.Close | db/db.go:27 | closing keeps the buffered errors |
| Bootstrap.StageTo | db/db.go:91-94 | after n steps of a stage, exactly n errors were sent |
| Bootstrap.StageSends | db/db.go:91-94 | the i-th error a stage sends is step i's error in the state the steps before it left, however many steps follow |
| Bootstrap.RunStep | db/db.go:52 | each started step does what its step function specifies |
| Bootstrap.RunStage | db/db.go:91-101 | a stage counts its steps, runs each (send, then done), waits, then receives until the first error. The state and the error are the stage's specification. Nothing is pending afterwards, and the buffer is empty on success. |
| Bootstrap.Drain | db/db.go:96-101 | the receive loop returns the first non-nil buffered error, and on nil has emptied the buffer |
| Bootstrap.StagesFitTheChannel | db/db.go:24 | every stage starts between one and three steps, never more than the channel buffers |
| Bootstrap.StageK | db/db.go:48-202 | a stage's error ends the bootstrap in the state the stage left; otherwise the bootstrap continues from that state |
| Bootstrap.RunStagesFrom | db/db.go:48-202 | the remaining stages, run in order and failing fast, give the staged specification `Progress` |
| Bootstrap.SetupDb | db/db.go:13-205 | an open error returns (nil, err) and leaves the handle unset and the store untouched. Otherwise `ConciergeDb` is the store. When the configured group_user_roles name is empty, the first DROP fails with `EmptyNameCause`: the closed handle or the I/O failure if there is one, else a syntax error. Nil and that error are returned, the handle is closed, and no table changes. Otherwise the state and error are those of the stages. Success returns the handle; on a stage error the handle is closed and nil is returned. The models are never changed. |
| Bootstrap.Gone | db/seeds.go:21-123 | dropping removes just that table from the schema |
| Bootstrap.Referrers | db/seeds.go:190-324 | the tables whose declared foreign keys name a table |
| Bootstrap.DropUnreferenced | db/seeds.go:21-123 | on a healthy store, a table no existing table references drops cleanly |
| Bootstrap.CreateReferenced | db/seeds.go:190-324 | a missing table all of whose referenced tables exist is created empty |
| Bootstrap.SingleStepPasses | db/db.go:127-149 | a one-step stage that succeeds hands its state to the next stage |
| Bootstrap.StagePasses | db/db.go:96-101 | a stage none of whose steps fails hands its state to the next stage |
| Bootstrap.DropStage | db/db.go:48-89 | each single-drop stage removes its table once no existing table references it |
| Bootstrap.CreateStage | db/db.go:127-149 | each single-create stage adds its table once all its referenced tables exist |
| Bootstrap.DropDirectoryStage | db/db.go:91-101 | once only users, roles and groups remain, the three-way drop stage removes them all |
| Bootstrap.CreateDirectoryStage | db/db.go:103-114 | on an empty schema, the three-way create stage builds users, roles and groups |
| Bootstrap.CreateLinkStage | db/db.go:116-125 | with users, roles and groups present, the link stage builds group_users and group_user_roles |
| Bootstrap.DropsFrom | db/db.go:48-89 | the single drops keep the handle and the faults |
| Bootstrap.DropOrderFacts | db/db.go:48-89 | the first five stages drop group_user_roles, group_users, running_processes, registered_process_permissions and registered_processes. Each table's referrers are among those dropped before it. |
| Bootstrap.SingleDrops | db/db.go:48-89 | on a healthy store the five single-drop stages succeed, one after another, and leave none of their tables |
| Bootstrap.CreatesFrom | db/db.go:127-149 | the single creates keep the handle and the faults |
| Bootstrap.CreateOrderFacts | db/db.go:127-149 | stages 8 to 10 create registered_processes, registered_process_permissions and running_processes, each after the tables it references |
| Bootstrap.SingleCreates | db/db.go:127-149 | the three single-create stages succeed in order on a healthy store |
| Bootstrap.DroppedLeavesDirectory | db/db.go:48-101 | after the single drops only users, roles and groups can remain |
| Bootstrap.Linked | db/db.go:103-125 | stages 6 and 7 add users, roles, groups and the two link tables, and keep the handle and the faults |
| Bootstrap.CreatedSchemaIsEmpty | db/db.go:103-149 | creating the eight tables in stage order, from none, gives every table, all empty, with restarted sequences |
| Bootstrap.DropStages | db/db.go:48-101 | on a healthy store the six drop stages succeed and leave no table, whatever existed |
| Bootstrap.CreateDirectoryAndLinkStages | db/db.go:103-125 | on an empty schema the first two create stages build the directory and link tables |
| Bootstrap.CreateProcessStages | db/db.go:127-149 | the three process tables are created in order after the link tables |
| Bootstrap.CreateStages | db/db.go:103-149 | on an empty schema the five create stages build the empty schema |
| Bootstrap.SchemaStagesReset | db/db.go:48-149 | whatever tables exist and whatever they hold, the drop and create stages on a healthy store reach the empty schema. The reset flag plays no part. |
| TestEnvironment.LookupFirst | db/common_queries.go:10-33 | on a healthy store, a lookup delivers the id of the first row with the name |
| TestEnvironment.UsersSeeded | db/seeds.go:326-357 | on the empty users table, the admin gets uid 1 and `test1` uid 2 |
| TestEnvironment.RolesSeeded | db/seeds.go:359-393 | on the empty roles table, `user` gets rid 1 and `admin` rid 2 |
| TestEnvironment.GroupsSeeded | db/seeds.go:395-414 | on the empty groups table, `site` gets gid 1 |
| TestEnvironment.DirectoryStage | db/db.go:151-162 | the users, roles and groups seed stage fills the three tables with the test rows |
| TestEnvironment.MembershipLinks | db/seeds.go:416-501 | the group_users seed makes both test users members of the site group |
| TestEnvironment.MembershipStage | db/db.go:164-170 | the group_users stage succeeds and yields the membership rows |
| TestEnvironment.RoleBindingLinks | db/seeds.go:503-621 | the group_user_roles seed gives the admin the admin role and `test1` the user role, in the site group |
| TestEnvironment.RoleBindingStage | db/db.go:172-178 | the group_user_roles stage succeeds and yields the role bindings |
| TestEnvironment.EmptySeedStages | db/db.go:180-202 | the last three seed stages change nothing and cannot fail |
| TestEnvironment.SeedStages | db/db.go:151-202 | from the empty schema, the seed stages produce the seeded test state |
| TestEnvironment.TestStagesSeed | db/db.go:48-202 | on any open, fault-free store, and with an administrator whose name and email differ from `test1`'s, the whole bootstrap succeeds with the seeded test state |
| TestEnvironment.CommonLookupsSucceed | netrun_test.go:144-182 | after setup, the admin resolves to uid 1, `site` to gid 1 and `user` to rid 1 |
| TestEnvironment.AdminIsInSiteGroup | netrun_test.go:184-202 | after setup, `IsInGroup(admin, site)` succeeds and writes true |
| TestEnvironment.AdminHoldsAdminRole | netrun_test.go:204-223 | after setup, `IsRole(admin, site, admin)` succeeds and writes true |
| TestEnvironment.TestMain | netrun_test.go:54-74 | `SetupModels("test")` then `SetupDb`, on a store that opens with no fault and with an administrator whose name and email differ from `test1`'s: `SetupModels` reports nil, `SetupDb` succeeds, the handle is the store, and it holds the seeded state |
| TestEnvironment.MisconfiguredTestMain | netrun_test.go:54-74 | with an env other than `test` or `release`, `SetupModels` reports the invalid environment and the test carries on. `SetupDb` then fails on its first statement with the store's own failure if it has one, and with a syntax error on an open, fault-free store. The handle is closed and every table is as it was |

## Left out

- `GetPid` (db/common_queries.go:110-133) is not modelled. Nothing in the package calls it, and it selects a `pid` column that registered_processes does not have.
- Goroutines run one after another, in the order each stage starts them. Errors are received in that order. Go delivers them in arrival order, so when several steps of a stage fail, the model reports the first one started.
- `Bootstrap.WaitGroup.Wait` requires that nothing is pending instead of blocking. The steps of a stage have finished before it is reached.
- `Queries.IsInGroup`, `Queries.IsRole` and `Queries.HasPermission` return the lookups' results instead of using unbuffered per-lookup channels.
- The error sent on the caller's channel is a return value.
- SQL text, column types and Postgres semantics beyond tables, foreign keys, UNIQUE names and SERIAL ids are not modelled. Row order is scan order.
- An id consumed by a failed insert is not modelled: a failed insert leaves the SERIAL counter as it was.
- bcrypt hashing is modelled as an opaque `Hash` of the password. The bcrypt error that is overwritten and ignored (db/seeds.go:334-342) is therefore ignored here too.
- The creation and login timestamps and `email_verified` are not stored.
- Error messages are modelled as error kinds, not text, so the `Sprintf` argument mismatches (db/seeds.go:473-477, 563-567, 592-596) are not modelled.
- `fmt.Println` logging is not modelled.
- Regular expressions are modelled only as the six fixed patterns of `1` and `[01]` and the empty pattern. General regex semantics are not modelled.
- Connection parameters and `sql.Open` are replaced by the `openErr` parameter of `Bootstrap.SetupDb`.
- Table names live only in `Models.Tables`. Statements name the logical table. `Models.TableNamesAreDistinct` shows that no two tables share a name.
- Bootstrap.SetupDb: of the configured table names it reads only whether the group_user_roles name, the one its first statement splices in, is empty. Every other statement reaches its logical table whatever the names are. The package only ever holds the zero-value names (all empty, caught by the first statement) or one of the two namings `SetupModels` assigns (`Models.TableNamesAreDistinct`). So the model does not capture names set by other means: a later name left empty, or two tables given one name.
- The stages of `SetupDb` are the constant `Bootstrap.Stages`, walked by `Bootstrap.RunStagesFrom`, instead of seventeen copies of the same code.
- The `reset` parameter of `SetupDb` is accepted and, as in the source, never read.
- The `pm` role is declared but never seeded or assigned, as in the source.
- TestMain's configuration loading, logger and server setup (netrun_test.go:29-53, 75-82) are not modelled. The route tests and TestConfigs are not modelled.
- server/ (gin handlers, JWT, bcrypt, CORS, rate limiting) and main.go (container bootstrap) are not part of this model.
- Queries.HasPermission: the store is one value for the whole call, and an injected fault belongs to a statement, so a statement that fails once always fails and one that succeeds always succeeds. A transient I/O failure of the second gid or rid lookup (db/common_queries.go:277-292), or a change by another session between the role gate and those lookups, is not modelled. `Queries.GateResolvesGroupAndRole`, and the "if" direction of `Queries.HasPermissionGrantsIff`, hold under this abstraction.
- Connections and result sets are not modelled. Every statement goes through `db.Query`, and the returned rows are never closed. The seeds discard them (db/seeds.go:25-26 and each step after it), and the lookups and joins abandon them after at most one `Next` (db/common_queries.go:17, 42, 67, 92, 171, 232, 305). So each call can keep a pooled connection busy, and the model does not capture that effect.
- `Queries.HasPermission` reads grants from the permissions table, not from registered_processes as the code does. The code's behaviour is kept as `Queries.GrantQueryAsWrittenNeverGrants` (see "Findings").

## Findings

| source | as written | input that shows it | evidently intended | confidence | as-written member | corrected member |
|---|---|---|---|---|---|---|
| db/common_queries.go:299-305 | the grant query selects `rwx` and filters on `gid`, `rid` and `rpid` from the registered_processes table, which declares none of `rwx`, `gid` or `rid` (db/seeds.go:243-267) | any user, group, role and process that pass the role gate and the lookups on a store where the table exists: the query fails with an unknown-column error, so `HasPermission` never grants | read the registered_process_permissions table, which declares exactly those columns (db/seeds.go:269-295) | not executed | Queries.GrantQueryAsWrittenNeverGrants | Queries.HasPermissionGrantsIff |
