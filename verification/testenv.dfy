/** The test environment (netrun_test.go, TestMain and TestCommonQueries):
    SetupModels("test", ...) followed by SetupDb on a store that opens and
    has no fault, with an administrator whose name and email differ from the
    test user's, yields a database whose every row is known, and the queries
    the test makes on it all succeed. */
module TestEnvironment {
  import opened Database
  import opened Models
  import opened Bootstrap
  import Seeds
  import Queries

  /** The values the seed steps read after SetupModels("test", ...). */
  function TestConfig(name: string, email: string, password: string): Config {
    Config([SiteAdmin(name, email, password), TestUser], WellKnownRoles, SiteGroups)
  }

  /** The handle is open, every table exists and no statement fails on I/O. */
  predicate Healthy(db: Db) {
    db.open && db.faults == {} && db.tables == AllTables
  }

  const TestUserRow: UserRow := UserRow(2, "test1", "test1@test.com", Bcrypt("test1test1test1"))

  /** The state after the users, roles and groups seeds (stage 11). */
  function Directory(d: Db, name: string, email: string, password: string): Db {
    EmptySchema(d).(users := [UserRow(1, name, email, Bcrypt(password)), TestUserRow], nextUid := 3,
                    roles := [NamedRow(1, "user"), NamedRow(2, "admin")], nextRid := 3,
                    groups := [NamedRow(1, "site")], nextGid := 2)
  }

  /** The state after the group_users seed (stage 12): both users are
      members of the site group. */
  function Members(d: Db, name: string, email: string, password: string): Db {
    Directory(d, name, email, password).(groupUsers := [GroupUser(1, 1), GroupUser(2, 1)])
  }

  /** The state after SetupDb: the site administrator holds the admin role
      and the test user the user role, both in the site group. */
  function Seeded(d: Db, name: string, email: string, password: string): Db {
    Members(d, name, email, password).(groupUserRoles := [GroupUserRole(1, 1, 2), GroupUserRole(2, 1, 1)])
  }

  // ---------------------------------------------------------------------
  // Statements on a healthy store

  lemma HealthyCheck(db: Db, s: Stmt)
    requires Healthy(db) && !s.SelectRwx?
    ensures Check(db, s) == None
  {
  }

  /** A lookup on a healthy store delivers the id of the first row with the
      name. */
  lemma LookupFirst(db: Db, kind: Kind, name: string, i: nat)
    requires Healthy(db) && FirstNamed(Keys(db, kind), name, i)
    ensures Lookup(db, kind, name) == Ok(Keys(db, kind)[i].id)
  {
    HealthyCheck(db, SelectId(kind, name));
  }

  /** SeedUsersTable on the empty users table: the administrator gets uid 1
      and the test user uid 2. */
  lemma UsersSeeded(x: Db, name: string, email: string, password: string)
    requires Healthy(x) && x.users == [] && x.nextUid == 1
    requires name != "test1" && email != "test1@test.com"
    ensures Seeds.InsertUsersFrom(x, [SiteAdmin(name, email, password), TestUser], 0) ==
            Outcome(x.(users := [UserRow(1, name, email, Bcrypt(password)), TestUserRow], nextUid := 3), None)
  {
    var users := [SiteAdmin(name, email, password), TestUser];
    var x1 := x.(users := [UserRow(1, name, email, Bcrypt(password))], nextUid := 2);
    HealthyCheck(x, Seeds.UserInsert(users[0]));
    assert Apply(x, Seeds.UserInsert(users[0])) == Outcome(x1, None);
    HealthyCheck(x1, Seeds.UserInsert(users[1]));
    assert x1.users[0].username != "test1" && x1.users[0].email != "test1@test.com";
    var x2 := x1.(users := x1.users + [TestUserRow], nextUid := 3);
    assert Apply(x1, Seeds.UserInsert(users[1])) == Outcome(x2, None);
    assert Seeds.InsertUsersFrom(x2, users, 2) == Outcome(x2, None);
    assert Seeds.InsertUsersFrom(x1, users, 1) == Outcome(x2, None);
  }

  /** SeedRolesTable on the empty roles table: user gets rid 1, admin rid 2. */
  lemma RolesSeeded(x: Db)
    requires Healthy(x) && x.roles == [] && x.nextRid == 1
    ensures Seeds.RolesSeed(x, WellKnownRoles) ==
            Outcome(x.(roles := [NamedRow(1, "user"), NamedRow(2, "admin")], nextRid := 3), None)
  {
    var x1 := x.(roles := [NamedRow(1, "user")], nextRid := 2);
    HealthyCheck(x, InsertRole("user"));
    assert Apply(x, InsertRole("user")) == Outcome(x1, None);
    HealthyCheck(x1, InsertRole("admin"));
    assert !Named(x1.roles, "admin");
  }

  /** SeedGroupsTable on the empty groups table: site gets gid 1. */
  lemma GroupsSeeded(x: Db)
    requires Healthy(x) && x.groups == [] && x.nextGid == 1
    ensures Apply(x, InsertGroup("site")) == Outcome(x.(groups := [NamedRow(1, "site")], nextGid := 2), None)
  {
    HealthyCheck(x, InsertGroup("site"));
  }

  /** A user with one role entry, resolved to `uid`, whose entry succeeds
      with state `y`, hands `y` to the next user. */
  lemma OneEntryUser(x: Db, link: Seeds.Link, users: seq<DbUser>, i: nat, uid: int, y: Db)
    requires i < |users| && |users[i].roles| == 1
    requires Lookup(x, UserKind, users[i].name) == Ok(uid)
    requires Seeds.EntryOutcome(x, link, uid, users[i].roles[0]) == Outcome(y, None)
    ensures Seeds.LinksFrom(x, link, users, i) == Seeds.LinksFrom(y, link, users, i + 1)
  {
    assert Seeds.EntriesFrom(y, link, uid, users[i].roles, 1) == Outcome(y, None);
  }

  // ---------------------------------------------------------------------
  // The seed stages

  lemma DirectoryStage(d: Db, name: string, email: string, password: string)
    requires d.open && d.faults == {}
    requires name != "test1" && email != "test1@test.com"
    ensures var cfg := TestConfig(name, email, password);
            Progress(EmptySchema(d), cfg, FirstSeedStage) == Progress(Directory(d, name, email, password), cfg, 12)
  {
    var cfg := TestConfig(name, email, password);
    var e := EmptySchema(d);
    UsersSeeded(e, name, email, password);
    var u := e.(users := [UserRow(1, name, email, Bcrypt(password)), TestUserRow], nextUid := 3);
    RolesSeeded(u);
    var r := u.(roles := [NamedRow(1, "user"), NamedRow(2, "admin")], nextRid := 3);
    GroupsSeeded(r);
    StageOfThree(e, cfg, Stages[11]);
    StagePasses(e, cfg, 11);
  }

  /** The administrator's membership entry. */
  lemma AdminMembership(d: Db, name: string, email: string, password: string)
    requires d.open && d.faults == {}
    ensures var x := Directory(d, name, email, password);
            Lookup(x, UserKind, name) == Ok(1) &&
            Seeds.EntryOutcome(x, Seeds.Membership, 1, DbUserRole("site", "admin")) ==
            Outcome(x.(groupUsers := [GroupUser(1, 1)]), None)
  {
    var x := Directory(d, name, email, password);
    LookupFirst(x, UserKind, name, 0);
    LookupFirst(x, GroupKind, "site", 0);
    HealthyCheck(x, InsertGroupUser(1, 1));
    assert x.users[0].uid == 1 && x.groups[0].id == 1;
  }

  /** The test user's membership entry. */
  lemma TestUserMembership(d: Db, name: string, email: string, password: string)
    requires d.open && d.faults == {} && name != "test1"
    ensures var x := Directory(d, name, email, password).(groupUsers := [GroupUser(1, 1)]);
            Lookup(x, UserKind, "test1") == Ok(2) &&
            Seeds.EntryOutcome(x, Seeds.Membership, 2, DbUserRole("site", "user")) ==
            Outcome(Members(d, name, email, password), None)
  {
    var x := Directory(d, name, email, password).(groupUsers := [GroupUser(1, 1)]);
    LookupFirst(x, UserKind, "test1", 1);
    LookupFirst(x, GroupKind, "site", 0);
    HealthyCheck(x, InsertGroupUser(2, 1));
    assert x.users[1].uid == 2 && x.groups[0].id == 1;
  }

  /** SeedGroupUsersTable adds both users to the site group. */
  lemma MembershipLinks(d: Db, name: string, email: string, password: string)
    requires d.open && d.faults == {} && name != "test1"
    ensures Seeds.LinksFrom(Directory(d, name, email, password), Seeds.Membership, TestConfig(name, email, password).users, 0)
            == Outcome(Members(d, name, email, password), None)
  {
    var users := TestConfig(name, email, password).users;
    var x := Directory(d, name, email, password);
    var x1 := x.(groupUsers := [GroupUser(1, 1)]);
    var m := Members(d, name, email, password);
    AdminMembership(d, name, email, password);
    OneEntryUser(x, Seeds.Membership, users, 0, 1, x1);
    TestUserMembership(d, name, email, password);
    OneEntryUser(x1, Seeds.Membership, users, 1, 2, m);
    assert Seeds.LinksFrom(m, Seeds.Membership, users, 2) == Outcome(m, None);
  }

  lemma MembershipStage(d: Db, name: string, email: string, password: string)
    requires d.open && d.faults == {} && name != "test1"
    ensures var cfg := TestConfig(name, email, password);
            Progress(Directory(d, name, email, password), cfg, 12) == Progress(Members(d, name, email, password), cfg, 13)
  {
    var cfg := TestConfig(name, email, password);
    MembershipLinks(d, name, email, password);
    LinkSteps(Directory(d, name, email, password), cfg);
    SeedStagesAre();
    SingleStepPasses(Directory(d, name, email, password), cfg, 12, SeedGroupUsers, Members(d, name, email, password));
  }

  /** The administrator's role binding entry. */
  lemma AdminRoleBinding(d: Db, name: string, email: string, password: string)
    requires d.open && d.faults == {}
    ensures var x := Members(d, name, email, password);
            Lookup(x, UserKind, name) == Ok(1) &&
            Seeds.EntryOutcome(x, Seeds.RoleBinding, 1, DbUserRole("site", "admin")) ==
            Outcome(x.(groupUserRoles := [GroupUserRole(1, 1, 2)]), None)
  {
    var x := Members(d, name, email, password);
    LookupFirst(x, UserKind, name, 0);
    LookupFirst(x, GroupKind, "site", 0);
    LookupFirst(x, RoleKind, "admin", 1);
    HealthyCheck(x, InsertGroupUserRole(1, 1, 2));
    assert x.users[0].uid == 1 && x.groups[0].id == 1 && x.roles[1].id == 2;
  }

  /** The test user's role binding entry. */
  lemma TestUserRoleBinding(d: Db, name: string, email: string, password: string)
    requires d.open && d.faults == {} && name != "test1"
    ensures var x := Members(d, name, email, password).(groupUserRoles := [GroupUserRole(1, 1, 2)]);
            Lookup(x, UserKind, "test1") == Ok(2) &&
            Seeds.EntryOutcome(x, Seeds.RoleBinding, 2, DbUserRole("site", "user")) ==
            Outcome(Seeded(d, name, email, password), None)
  {
    var x := Members(d, name, email, password).(groupUserRoles := [GroupUserRole(1, 1, 2)]);
    LookupFirst(x, UserKind, "test1", 1);
    LookupFirst(x, GroupKind, "site", 0);
    LookupFirst(x, RoleKind, "user", 0);
    HealthyCheck(x, InsertGroupUserRole(2, 1, 1));
    assert x.users[1].uid == 2 && x.groups[0].id == 1 && x.roles[0].id == 1;
  }

  /** SeedGroupUserRolesTable gives the administrator the admin role and
      the test user the user role, both in the site group. */
  lemma RoleBindingLinks(d: Db, name: string, email: string, password: string)
    requires d.open && d.faults == {} && name != "test1"
    ensures Seeds.LinksFrom(Members(d, name, email, password), Seeds.RoleBinding, TestConfig(name, email, password).users, 0)
            == Outcome(Seeded(d, name, email, password), None)
  {
    var users := TestConfig(name, email, password).users;
    var x := Members(d, name, email, password);
    var x1 := x.(groupUserRoles := [GroupUserRole(1, 1, 2)]);
    var s := Seeded(d, name, email, password);
    AdminRoleBinding(d, name, email, password);
    OneEntryUser(x, Seeds.RoleBinding, users, 0, 1, x1);
    TestUserRoleBinding(d, name, email, password);
    OneEntryUser(x1, Seeds.RoleBinding, users, 1, 2, s);
    assert Seeds.LinksFrom(s, Seeds.RoleBinding, users, 2) == Outcome(s, None);
  }

  lemma RoleBindingStage(d: Db, name: string, email: string, password: string)
    requires d.open && d.faults == {} && name != "test1"
    ensures var cfg := TestConfig(name, email, password);
            Progress(Members(d, name, email, password), cfg, 13) == Progress(Seeded(d, name, email, password), cfg, 14)
  {
    var cfg := TestConfig(name, email, password);
    RoleBindingLinks(d, name, email, password);
    LinkSteps(Members(d, name, email, password), cfg);
    SeedStagesAre();
    SingleStepPasses(Members(d, name, email, password), cfg, 13, SeedGroupUserRoles, Seeded(d, name, email, password));
  }

  /** The last three stages seed nothing and cannot fail. */
  lemma {:induction false} EmptySeedStages(x: Db, cfg: Config, k: nat)
    requires 14 <= k <= |Stages|
    ensures Progress(x, cfg, k) == Outcome(x, None)
    decreases |Stages| - k
  {
    if k < |Stages| {
      SeedStagesAre();
      StageOfOne(x, cfg, Stages[k]);
      assert StepOutcome(x, cfg, Stages[k][0]) == Outcome(x, None);
      assert Queries.FirstError([None]) == None;
      EmptySeedStages(x, cfg, k + 1);
    }
  }

  /** The seed stages, from the empty schema, produce the seeded state. */
  lemma SeedStages(d: Db, name: string, email: string, password: string)
    requires d.open && d.faults == {}
    requires name != "test1" && email != "test1@test.com"
    ensures Progress(EmptySchema(d), TestConfig(name, email, password), FirstSeedStage) ==
            Outcome(Seeded(d, name, email, password), None)
  {
    DirectoryStage(d, name, email, password);
    MembershipStage(d, name, email, password);
    RoleBindingStage(d, name, email, password);
    EmptySeedStages(Seeded(d, name, email, password), TestConfig(name, email, password), 14);
  }

  /** On an open store without faults, and whatever it held before, the
      seventeen stages succeed and leave exactly the seeded state, provided
      the administrator's name and email differ from the test user's. */
  lemma TestStagesSeed(d: Db, name: string, email: string, password: string)
    requires d.open && d.faults == {}
    requires name != "test1" && email != "test1@test.com"
    ensures Progress(d, TestConfig(name, email, password), 0) == Outcome(Seeded(d, name, email, password), None)
  {
    SchemaStagesReset(d, TestConfig(name, email, password));
    SeedStages(d, name, email, password);
  }

  // ---------------------------------------------------------------------
  // TestCommonQueries on the seeded state

  /** The uid, gid and rid lookups of the test resolve to the seeded
      ids. */
  lemma CommonLookupsSucceed(d: Db, name: string, email: string, password: string)
    requires d.open && d.faults == {}
    ensures var s := Seeded(d, name, email, password);
            Lookup(s, UserKind, name) == Ok(1) &&
            Lookup(s, GroupKind, SiteGroups.site) == Ok(1) &&
            Lookup(s, RoleKind, WellKnownRoles.user) == Ok(1) &&
            Lookup(s, RoleKind, WellKnownRoles.admin) == Ok(2)
  {
    var s := Seeded(d, name, email, password);
    LookupFirst(s, UserKind, name, 0);
    LookupFirst(s, GroupKind, "site", 0);
    LookupFirst(s, RoleKind, "user", 0);
    LookupFirst(s, RoleKind, "admin", 1);
  }

  /** IsInGroup(administrator, site) succeeds and reports true. */
  lemma AdminIsInSiteGroup(d: Db, name: string, email: string, password: string)
    requires d.open && d.faults == {}
    ensures Queries.InGroupVerdict(Seeded(d, name, email, password), name, SiteGroups.site) ==
            Queries.Verdict(None, Some(true))
  {
    var s := Seeded(d, name, email, password);
    CommonLookupsSucceed(d, name, email, password);
    HealthyCheck(s, SelectGroupUser(1, 1));
    assert GroupUserJoin(s, 1, 1) by {
      assert s.users[0].uid == 1 && GroupUser(1, 1) == s.groupUsers[0];
    }
    Queries.InGroupHeld(s, name, SiteGroups.site);
  }

  /** IsRole(administrator, site, admin) succeeds and reports true. */
  lemma AdminHoldsAdminRole(d: Db, name: string, email: string, password: string)
    requires d.open && d.faults == {}
    ensures Queries.RoleVerdict(Seeded(d, name, email, password), name, SiteGroups.site, WellKnownRoles.admin) ==
            Queries.Verdict(None, Some(true))
  {
    var s := Seeded(d, name, email, password);
    CommonLookupsSucceed(d, name, email, password);
    HealthyCheck(s, SelectGroupUserRole(1, 1, 2));
    assert s.roles[1].id == 2 && GroupUserRole(1, 1, 2) == s.groupUserRoles[0];
    Queries.RoleHeld(s, name, "site", "admin");
  }

  /** TestMain: SetupModels("test", ...), then SetupDb on a store that opens
      and has no fault, with an administrator whose name and email differ
      from those of the test user (the users table keeps both UNIQUE).  Both
      succeed, the handle is the store, and it holds the seeded state. */
  method TestMain(pkg: Package, db: Store, name: string, email: string, password: string)
    returns (handle: Store?, err: Option<Error>)
    requires db.state.open && db.state.faults == {}
    requires name != "test1" && email != "test1@test.com"
    modifies pkg, db
    ensures err == None && handle == db && pkg.conciergeDb == db
    ensures db.state == Seeded(old(db.state), name, email, password)
    ensures pkg.conciergeTables == TestTables
  {
    var modelsErr := pkg.SetupModels("test", name, email, password);
    assert modelsErr == None;
    TestStagesSeed(db.state, name, email, password);
    handle, err := SetupDb(pkg, db, None, true);
  }

  /** TestMain with an `env` other than "test" or "release": SetupModels
      reports the error, which the test only logs, and leaves the table names
      at their zero value, so SetupDb fails on its first statement and closes
      the handle, with every table as it was.  The failure is a syntax error
      unless the store already fails that statement on its own. */
  method MisconfiguredTestMain(db: Store, env: string, name: string, email: string, password: string)
    returns (modelsErr: Option<Error>, handle: Store?, err: Option<Error>)
    requires env != "test" && env != "release"
    modifies db
    ensures modelsErr == Some(InvalidEnvironment(env))
    ensures handle == null &&
            err == Some(StoreError(DropIfExists(GroupUserRoles),
                                   EmptyNameCause(old(db.state), DropIfExists(GroupUserRoles))))
    ensures old(db.state).open && old(db.state).faults == {} ==>
              err == Some(StoreError(DropIfExists(GroupUserRoles), SyntaxError))
    ensures db.state == old(db.state).(open := false)
  {
    var pkg := new Package();
    modelsErr := pkg.SetupModels(env, name, email, password);
    handle, err := SetupDb(pkg, db, None, true);
  }
}
