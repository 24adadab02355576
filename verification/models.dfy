/** The environment-dependent configuration of package db (db/models.go):
    the seed users, the well-known group and roles, the permission table and
    the eight table names, held in package-level variables that SetupModels
    assigns.  The package-level variables are the fields of `Package`. */
module Models {
  import opened Database
  import opened Permissions

  datatype InitDbGroups = InitDbGroups(site: string)

  datatype InitDbRoles = InitDbRoles(admin: string, user: string, pm: string)

  /** One role a seed user holds in one group. */
  datatype DbUserRole = DbUserRole(group: string, role: string)

  datatype DbUser = DbUser(name: string, email: string, password: string, roles: seq<DbUserRole>)

  /** The names the eight logical tables have in one environment. */
  datatype Tables = Tables(
    users: string,
    roles: string,
    groups: string,
    groupUsers: string,
    groupUserRoles: string,
    registeredProcesses: string,
    registeredProcessPermissions: string,
    runningProcesses: string)

  const SiteGroups: InitDbGroups := InitDbGroups("site")

  /** The Pm role is never assigned, so it keeps Go's zero value. */
  const WellKnownRoles: InitDbRoles := InitDbRoles("admin", "user", "")

  const TestTables: Tables := Tables(
    "testusers", "testroles", "testgroups", "test_group_users", "test_group_user_roles",
    "test_registered_processes", "test_registered_process_permissions", "test_running_processes")

  const ReleaseTables: Tables := Tables(
    "users", "roles", "groups", "group_users", "group_user_roles",
    "registered_processes", "registered_process_permissions", "running_processes")

  /** The site administrator: admin role in the site group. */
  function SiteAdmin(name: string, email: string, password: string): DbUser {
    DbUser(name, email, password, [DbUserRole(SiteGroups.site, WellKnownRoles.admin)])
  }

  /** The fixed second user of the test environment. */
  const TestUser: DbUser := DbUser("test1", "test1@test.com", "test1test1test1",
                                   [DbUserRole(SiteGroups.site, WellKnownRoles.user)])

  /** The name a logical table has under the naming `t`. */
  function NameOf(t: Tables, table: Table): string {
    match table
    case Users => t.users
    case Roles => t.roles
    case Groups => t.groups
    case GroupUsers => t.groupUsers
    case GroupUserRoles => t.groupUserRoles
    case RegisteredProcesses => t.registeredProcesses
    case RegisteredProcessPermissions => t.registeredProcessPermissions
    case RunningProcesses => t.runningProcesses
  }

  /** No two logical tables share a name, so each statement reaches the table
      it means. */
  predicate DistinctNames(t: Tables) {
    forall a: Table, b: Table :: NameOf(t, a) == NameOf(t, b) ==> a == b
  }

  /** Both environments name the eight tables apart. */
  lemma TableNamesAreDistinct()
    ensures DistinctNames(TestTables)
    ensures DistinctNames(ReleaseTables)
  {
  }

  /** The package-level variables of package db. */
  class Package {
    var initConciergeGroups: InitDbGroups
    var initConciergeRoles: InitDbRoles
    var initUsers: seq<DbUser>
    var conciergePermissions: map<string, Pattern>
    var conciergeTables: Tables
    var conciergeDb: Store?

    /** Go's zero values, before anything is assigned. */
    constructor ()
      ensures initConciergeGroups == InitDbGroups("")
      ensures initConciergeRoles == InitDbRoles("", "", "")
      ensures initUsers == [] && conciergePermissions == map[]
      ensures conciergeTables == Tables("", "", "", "", "", "", "", "")
      ensures conciergeDb == null
    {
      initConciergeGroups := InitDbGroups("");
      initConciergeRoles := InitDbRoles("", "", "");
      initUsers := [];
      conciergePermissions := map[];
      conciergeTables := Tables("", "", "", "", "", "", "", "");
      conciergeDb := null;
    }

    /** Assigns the group, the roles and the permission table, then the seed
        users and the table names of `env`; any other `env` is an error that
        leaves the users and the table names as they were. */
    method SetupModels(env: string, siteAdminName: string, siteAdminEmail: string, siteAdminPassword: string)
      returns (err: Option<Error>)
      modifies this
      ensures initConciergeGroups == SiteGroups
      ensures initConciergeRoles == WellKnownRoles
      ensures conciergePermissions == ConciergePermissions
      ensures env == "test" ==>
                err == None &&
                initUsers == [SiteAdmin(siteAdminName, siteAdminEmail, siteAdminPassword), TestUser] &&
                conciergeTables == TestTables
      ensures env == "release" ==>
                err == None &&
                initUsers == [SiteAdmin(siteAdminName, siteAdminEmail, siteAdminPassword)] &&
                conciergeTables == ReleaseTables
      ensures env != "test" && env != "release" ==>
                err == Some(InvalidEnvironment(env)) &&
                initUsers == old(initUsers) && conciergeTables == old(conciergeTables)
      ensures conciergeDb == old(conciergeDb)
    {
      initConciergeGroups := SiteGroups;
      initConciergeRoles := WellKnownRoles;
      conciergePermissions := ConciergePermissions;
      if env == "test" {
        initUsers := [SiteAdmin(siteAdminName, siteAdminEmail, siteAdminPassword), TestUser];
        conciergeTables := TestTables;
        return None;
      } else if env == "release" {
        initUsers := [SiteAdmin(siteAdminName, siteAdminEmail, siteAdminPassword)];
        conciergeTables := ReleaseTables;
        return None;
      } else {
        return Some(InvalidEnvironment(env));
      }
    }
  }
}
