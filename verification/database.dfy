/** The relational store behind package db, abstracted to finite relations.

    Postgres is reached through one handle (`*sql.DB`).  The model keeps the
    eight tables as relations (sequences of rows, in the order a scan returns
    them), the set of tables that currently exist, the SERIAL counters, the
    handle's open flag and a set of injected faults: statements whose query
    or whose row scan fails with an I/O error.  `Apply` gives the engine's
    semantics of the drop, create and insert statements package db issues,
    including `IF EXISTS` / `IF NOT EXISTS`, foreign keys and UNIQUE columns;
    `Lookup` gives the name-to-id SELECT with its first-row read. */
module Database {

  datatype Option<T> = None | Some(value: T)

  datatype Result<T> = Ok(value: T) | Err(error: Error) {
    /** The error a failed result carries, as a channel would deliver it. */
    function Failure(): Option<Error> {
      if Err? then Some(error) else None
    }
  }

  /** The eight logical tables (their names depend on the environment). */
  datatype Table =
    | Users | Roles | Groups | GroupUsers | GroupUserRoles
    | RegisteredProcesses | RegisteredProcessPermissions | RunningProcesses

  const AllTables: set<Table> := {
    Users, Roles, Groups, GroupUsers, GroupUserRoles,
    RegisteredProcesses, RegisteredProcessPermissions, RunningProcesses
  }

  /** The foreign keys each CREATE statement declares: `t` references every
      table of `References(t)`. */
  function References(t: Table): set<Table> {
    match t
    case GroupUsers => {Users, Groups}
    case GroupUserRoles => {Users, Groups, Roles}
    case RegisteredProcesses => {Users}
    case RegisteredProcessPermissions => {RegisteredProcesses, Groups, Roles}
    case RunningProcesses => {Users, Groups, RegisteredProcesses}
    case _ => {}
  }

  /** The column names the CREATE statements use: uid, username, email,
      email_verified, date_created, last_login, password, rid, name, gid,
      rpid, creator_uid, run_command, kill_command, rwx, pid, runner_uid. */
  datatype Column =
    | Uid | Username | Email | EmailVerified | DateCreated | LastLogin | Password
    | Rid | Name | Gid | Rpid | CreatorUid | RunCommand | KillCommand | Rwx | Pid | RunnerUid

  /** The columns each CREATE statement declares. */
  function ColumnsOf(t: Table): set<Column> {
    match t
    case Users => {Uid, Username, Email, EmailVerified, DateCreated, LastLogin, Password}
    case Roles => {Rid, Name}
    case Groups => {Gid, Name}
    case GroupUsers => {Uid, Gid}
    case GroupUserRoles => {Uid, Gid, Rid}
    case RegisteredProcesses => {Rpid, CreatorUid, Name, RunCommand, KillCommand, DateCreated}
    case RegisteredProcessPermissions => {Rpid, Gid, Rid, Rwx}
    case RunningProcesses => {Name, Pid, RunnerUid, Gid, Rpid}
  }

  /** The four kinds of named entity that resolve to an integer id. */
  datatype Kind = UserKind | GroupKind | RoleKind | ProcessKind

  function TableOf(kind: Kind): Table {
    match kind
    case UserKind => Users
    case GroupKind => Groups
    case RoleKind => Roles
    case ProcessKind => RegisteredProcesses
  }

  /** A stored bcrypt hash, kept opaque. */
  datatype Hash = Bcrypt(password: string)

  datatype UserRow = UserRow(uid: int, username: string, email: string, password: Hash)
  /** A row of the roles or the groups table: its id and its unique name. */
  datatype NamedRow = NamedRow(id: int, name: string)
  datatype GroupUser = GroupUser(uid: int, gid: int)
  datatype GroupUserRole = GroupUserRole(uid: int, gid: int, rid: int)
  datatype ProcessRow = ProcessRow(rpid: int, creatorUid: int, name: string, runCommand: string, killCommand: string)
  datatype Grant = Grant(rpid: int, gid: int, rid: int, rwx: string)
  datatype RunningRow = RunningRow(name: string, pid: int, runnerUid: int, gid: int, rpid: int)

  /** The statements package db sends to the store. */
  datatype Stmt =
    | SelectId(kind: Kind, name: string)
    | SelectGroupUser(uid: int, gid: int)
    | SelectGroupUserRole(uid: int, gid: int, rid: int)
    | SelectRwx(from: Table, gid: int, rid: int, rpid: int)
    | DropIfExists(table: Table)
    | CreateIfNotExists(table: Table)
    | InsertUser(username: string, email: string, password: string)
    | InsertRole(name: string)
    | InsertGroup(name: string)
    | InsertGroupUser(uid: int, gid: int)
    | InsertGroupUserRole(uid: int, gid: int, rid: int)

  /** An injected I/O failure: of the query itself, or of scanning its row. */
  datatype Fault = QueryFault(stmt: Stmt) | ScanFault(stmt: Stmt)

  /** Why the engine rejects a statement.  `SyntaxError` is the statement
      whose table name was spliced in empty. */
  datatype Cause =
    | Injected | Closed | NoSuchTable | NoSuchColumn | DependentObjects
    | UniqueViolation | ForeignKeyViolation | ScanFailed | SyntaxError

  /** Error kinds (the Go code only carries message text). */
  datatype Error =
    | StoreError(stmt: Stmt, cause: Cause)
    | NotFound(kind: Kind, name: string)
    | NotInGroup(username: string, groupname: string)
    | NotInRole(username: string, groupname: string, rolename: string)
    | NoPermission(username: string, groupname: string, rolename: string,
                   processname: string, permissionname: string)
    | InvalidEnvironment(env: string)

  /** The whole state of the store as one value. */
  datatype Db = Db(
    open: bool,
    faults: set<Fault>,
    tables: set<Table>,
    users: seq<UserRow>,
    roles: seq<NamedRow>,
    groups: seq<NamedRow>,
    groupUsers: seq<GroupUser>,
    groupUserRoles: seq<GroupUserRole>,
    processes: seq<ProcessRow>,
    grants: seq<Grant>,
    running: seq<RunningRow>,
    nextUid: int,
    nextRid: int,
    nextGid: int)

  /** A statement's effect: the new state and the error it reports. */
  datatype Outcome = Outcome(db: Db, err: Option<Error>)

  /** The tables a statement reads or writes (DROP ... IF EXISTS and
      CREATE ... IF NOT EXISTS need none). */
  function Touches(s: Stmt): set<Table> {
    match s
    case SelectId(kind, _) => {TableOf(kind)}
    case SelectGroupUser(_, _) => {GroupUsers, Users}
    case SelectGroupUserRole(_, _, _) => {GroupUserRoles, Roles}
    case SelectRwx(from, _, _, _) => {from}
    case DropIfExists(_) => {}
    case CreateIfNotExists(_) => {}
    case InsertUser(_, _, _) => {Users}
    case InsertRole(_) => {Roles}
    case InsertGroup(_) => {Groups}
    case InsertGroupUser(_, _) => {GroupUsers}
    case InsertGroupUserRole(_, _, _) => {GroupUserRoles}
  }

  /** The columns the grant query names: it selects `rwx` and filters on
      `gid`, `rid` and `rpid`. */
  const GrantColumns: set<Column> := {Rwx, Gid, Rid, Rpid}

  /** Why a statement fails before it reaches the rows, if it does. */
  function Check(db: Db, s: Stmt): Option<Cause> {
    if !db.open then Some(Closed)
    else if QueryFault(s) in db.faults then Some(Injected)
    else if !(Touches(s) <= db.tables) then Some(NoSuchTable)
    else if s.SelectRwx? && !(GrantColumns <= ColumnsOf(s.from)) then Some(NoSuchColumn)
    else None
  }

  /** Why a statement whose table name was spliced in empty fails: a closed
      handle or an I/O failure is reported before the server parses the
      text, and only a statement that reaches the server is a syntax error. */
  function EmptyNameCause(db: Db, s: Stmt): (c: Cause)
    ensures c == SyntaxError <==> db.open && QueryFault(s) !in db.faults
    ensures c != SyntaxError ==> Check(db, s) == Some(c)
  {
    if !db.open then Closed
    else if QueryFault(s) in db.faults then Injected
    else SyntaxError
  }

  /** The name-keyed view of the table behind `kind`, in scan order. */
  function Keys(db: Db, kind: Kind): seq<NamedRow> {
    match kind
    case UserKind => seq(|db.users|, i requires 0 <= i < |db.users| => NamedRow(db.users[i].uid, db.users[i].username))
    case GroupKind => db.groups
    case RoleKind => db.roles
    case ProcessKind => seq(|db.processes|, i requires 0 <= i < |db.processes| => NamedRow(db.processes[i].rpid, db.processes[i].name))
  }

  predicate Named(rows: seq<NamedRow>, name: string) {
    exists i :: 0 <= i < |rows| && rows[i].name == name
  }

  /** Row `i` is the first row carrying `name`. */
  predicate FirstNamed(rows: seq<NamedRow>, name: string, i: int) {
    0 <= i < |rows| && rows[i].name == name &&
    forall j :: 0 <= j < i ==> rows[j].name != name
  }

  /** `SELECT id ... WHERE name = $1` over rows[from..]: the ids of the
      matching rows, in scan order. */
  function SelectFrom(rows: seq<NamedRow>, name: string, from: nat): (ids: seq<int>)
    requires from <= |rows|
    ensures ids == [] <==> forall j :: from <= j < |rows| ==> rows[j].name != name
    ensures ids != [] ==> exists i :: from <= i < |rows| && rows[i].name == name &&
                                      ids[0] == rows[i].id &&
                                      forall j :: from <= j < i ==> rows[j].name != name
    decreases |rows| - from
  {
    if from == |rows| then []
    else if rows[from].name == name then [rows[from].id] + SelectFrom(rows, name, from + 1)
    else SelectFrom(rows, name, from + 1)
  }

  /** What `Get*` delivers for `name`: a failed query, a missing row, a failed
      scan, or the id of the first row. */
  function Lookup(db: Db, kind: Kind, name: string): (r: Result<int>)
    ensures r.Ok? <==> Check(db, SelectId(kind, name)) == None && Named(Keys(db, kind), name) &&
                       ScanFault(SelectId(kind, name)) !in db.faults
    ensures r.Ok? ==> exists i :: FirstNamed(Keys(db, kind), name, i) && r.value == Keys(db, kind)[i].id
    ensures r == Err(NotFound(kind, name)) <==>
            Check(db, SelectId(kind, name)) == None && !Named(Keys(db, kind), name)
    ensures r.Err? && !r.error.NotFound? ==> r.error.StoreError? && r.error.stmt == SelectId(kind, name)
  {
    var s := SelectId(kind, name);
    match Check(db, s)
    case Some(c) => Err(StoreError(s, c))
    case None =>
      var ids := SelectFrom(Keys(db, kind), name, 0);
      if ids == [] then Err(NotFound(kind, name))
      else if ScanFault(s) in db.faults then Err(StoreError(s, ScanFailed))
      else Ok(ids[0])
  }

  /** The join of IsInGroup: a group_users row for the pair whose uid is
      also a users row. */
  predicate GroupUserJoin(db: Db, uid: int, gid: int) {
    GroupUser(uid, gid) in db.groupUsers &&
    exists i :: 0 <= i < |db.users| && db.users[i].uid == uid
  }

  /** The join of IsRole: a group_user_roles row for the triple whose rid is
      also a roles row. */
  predicate GroupUserRoleJoin(db: Db, uid: int, gid: int, rid: int) {
    GroupUserRole(uid, gid, rid) in db.groupUserRoles &&
    exists i :: 0 <= i < |db.roles| && db.roles[i].id == rid
  }

  /** The rwx strings of the grant rows for (gid, rid, rpid) in grants[from..],
      in scan order. */
  function RwxFrom(grants: seq<Grant>, gid: int, rid: int, rpid: int, from: nat): (rwxs: seq<string>)
    requires from <= |grants|
    ensures rwxs == [] <==> forall j :: from <= j < |grants| ==> grants[j] != Grant(rpid, gid, rid, grants[j].rwx)
    ensures rwxs != [] ==> exists i :: from <= i < |grants| && grants[i] == Grant(rpid, gid, rid, rwxs[0]) &&
                                       forall j :: from <= j < i ==> grants[j] != Grant(rpid, gid, rid, grants[j].rwx)
    decreases |grants| - from
  {
    if from == |grants| then []
    else if grants[from] == Grant(rpid, gid, rid, grants[from].rwx)
    then [grants[from].rwx] + RwxFrom(grants, gid, rid, rpid, from + 1)
    else RwxFrom(grants, gid, rid, rpid, from + 1)
  }

  /** The existing tables that declare a foreign key to `t`. */
  function Dependents(tables: set<Table>, t: Table): set<Table> {
    set a | a in tables && t in References(a)
  }

  /** The state with table `t` emptied. */
  function Cleared(db: Db, t: Table): Db {
    match t
    case Users => db.(users := [])
    case Roles => db.(roles := [])
    case Groups => db.(groups := [])
    case GroupUsers => db.(groupUsers := [])
    case GroupUserRoles => db.(groupUserRoles := [])
    case RegisteredProcesses => db.(processes := [])
    case RegisteredProcessPermissions => db.(grants := [])
    case RunningProcesses => db.(running := [])
  }

  /** A newly created table: empty, with its SERIAL sequence restarted. */
  function Fresh(db: Db, t: Table): (f: Db)
    ensures f.open == db.open && f.faults == db.faults && f.tables == db.tables + {t}
  {
    var d := Cleared(db, t).(tables := db.tables + {t});
    match t
    case Users => d.(nextUid := 1)
    case Roles => d.(nextRid := 1)
    case Groups => d.(nextGid := 1)
    case _ => d
  }

  predicate UidExists(db: Db, uid: int) {
    exists i :: 0 <= i < |db.users| && db.users[i].uid == uid
  }

  predicate GidExists(db: Db, gid: int) {
    exists i :: 0 <= i < |db.groups| && db.groups[i].id == gid
  }

  predicate RidExists(db: Db, rid: int) {
    exists i :: 0 <= i < |db.roles| && db.roles[i].id == rid
  }

  /** The store's semantics of one statement.  A failing statement changes
      nothing (each statement is atomic), and no statement touches the
      handle or the injected faults. */
  function Apply(db: Db, s: Stmt): (o: Outcome)
    ensures o.err.Some? ==> o.db == db
    ensures o.db.open == db.open && o.db.faults == db.faults
    ensures Check(db, s).Some? ==> o.err == Some(StoreError(s, Check(db, s).value))
  {
    match Check(db, s)
    case Some(c) => Outcome(db, Some(StoreError(s, c)))
    case None =>
      match s
      case DropIfExists(t) =>
        if t !in db.tables then Outcome(db, None)
        else if Dependents(db.tables, t) != {} then Outcome(db, Some(StoreError(s, DependentObjects)))
        else Outcome(Cleared(db, t).(tables := db.tables - {t}), None)
      case CreateIfNotExists(t) =>
        if t in db.tables then Outcome(db, None)
        else if !(References(t) <= db.tables) then Outcome(db, Some(StoreError(s, NoSuchTable)))
        else Outcome(Fresh(db, t), None)
      case InsertUser(name, email, password) =>
        if exists i :: 0 <= i < |db.users| && (db.users[i].username == name || db.users[i].email == email)
        then Outcome(db, Some(StoreError(s, UniqueViolation)))
        else Outcome(db.(users := db.users + [UserRow(db.nextUid, name, email, Bcrypt(password))],
                         nextUid := db.nextUid + 1), None)
      case InsertRole(name) =>
        if Named(db.roles, name) then Outcome(db, Some(StoreError(s, UniqueViolation)))
        else Outcome(db.(roles := db.roles + [NamedRow(db.nextRid, name)], nextRid := db.nextRid + 1), None)
      case InsertGroup(name) =>
        if Named(db.groups, name) then Outcome(db, Some(StoreError(s, UniqueViolation)))
        else Outcome(db.(groups := db.groups + [NamedRow(db.nextGid, name)], nextGid := db.nextGid + 1), None)
      case InsertGroupUser(uid, gid) =>
        if !UidExists(db, uid) || !GidExists(db, gid) then Outcome(db, Some(StoreError(s, ForeignKeyViolation)))
        else Outcome(db.(groupUsers := db.groupUsers + [GroupUser(uid, gid)]), None)
      case InsertGroupUserRole(uid, gid, rid) =>
        if !UidExists(db, uid) || !GidExists(db, gid) || !RidExists(db, rid)
        then Outcome(db, Some(StoreError(s, ForeignKeyViolation)))
        else Outcome(db.(groupUserRoles := db.groupUserRoles + [GroupUserRole(uid, gid, rid)]), None)
      case _ => Outcome(db, None)
  }

  /** Dropping a table that does not exist succeeds and changes nothing. */
  lemma DropAbsentTableIsNoOp(db: Db, t: Table)
    requires Check(db, DropIfExists(t)) == None && t !in db.tables
    ensures Apply(db, DropIfExists(t)) == Outcome(db, None)
  {
  }

  /** Creating a table that exists succeeds and changes nothing. */
  lemma CreateExistingTableIsNoOp(db: Db, t: Table)
    requires Check(db, CreateIfNotExists(t)) == None && t in db.tables
    ensures Apply(db, CreateIfNotExists(t)) == Outcome(db, None)
  {
  }

  /** A drop that succeeds leaves the table absent, and repeating it succeeds
      without further change. */
  lemma {:induction false} DropIsIdempotent(db: Db, t: Table)
    requires Apply(db, DropIfExists(t)).err == None
    ensures t !in Apply(db, DropIfExists(t)).db.tables
    ensures var d := Apply(db, DropIfExists(t)).db;
            Apply(d, DropIfExists(t)) == Outcome(d, None)
  {
    var d := Apply(db, DropIfExists(t)).db;
    assert d.open && QueryFault(DropIfExists(t)) !in d.faults;
    DropAbsentTableIsNoOp(d, t);
  }

  /** A create that succeeds leaves the table present, and repeating it
      succeeds without further change. */
  lemma {:induction false} CreateIsIdempotent(db: Db, t: Table)
    requires Apply(db, CreateIfNotExists(t)).err == None
    ensures var d := Apply(db, CreateIfNotExists(t)).db;
            t in d.tables && Apply(d, CreateIfNotExists(t)) == Outcome(d, None)
  {
    var d := Apply(db, CreateIfNotExists(t)).db;
    assert d.open && QueryFault(CreateIfNotExists(t)) !in d.faults;
    CreateExistingTableIsNoOp(d, t);
  }

  /** Inserting a name that the table already holds fails on the UNIQUE
      constraint: seeding twice cannot duplicate the well-known roles and
      groups. */
  lemma {:induction false} DuplicateNamesAreRejected(db: Db, name: string)
    requires Check(db, InsertRole(name)) == None && Named(db.roles, name)
    requires Check(db, InsertGroup(name)) == None && Named(db.groups, name)
    ensures Apply(db, InsertRole(name)) == Outcome(db, Some(StoreError(InsertRole(name), UniqueViolation)))
    ensures Apply(db, InsertGroup(name)) == Outcome(db, Some(StoreError(InsertGroup(name), UniqueViolation)))
  {
  }

  /** Two states that agree on everything a name lookup reads. */
  predicate SameDirectory(a: Db, b: Db) {
    a.open == b.open && a.faults == b.faults && a.tables == b.tables &&
    a.users == b.users && a.roles == b.roles && a.groups == b.groups && a.processes == b.processes
  }

  /** A name lookup reads only the directory part of the state. */
  lemma LookupFrame(a: Db, b: Db, kind: Kind, name: string)
    requires SameDirectory(a, b)
    ensures Lookup(a, kind, name) == Lookup(b, kind, name)
  {
    assert Keys(a, kind) == Keys(b, kind);
  }

  /** A successful insert of a membership or role-binding row changes only
      that link table: every name resolves as before. */
  lemma {:induction false} LinkInsertKeepsDirectory(db: Db, s: Stmt)
    requires s.InsertGroupUser? || s.InsertGroupUserRole?
    requires Apply(db, s).err == None
    ensures SameDirectory(db, Apply(db, s).db)
    ensures s.InsertGroupUser? ==>
              Apply(db, s).db == db.(groupUsers := db.groupUsers + [GroupUser(s.uid, s.gid)])
    ensures s.InsertGroupUserRole? ==>
              Apply(db, s).db == db.(groupUserRoles := db.groupUserRoles + [GroupUserRole(s.uid, s.gid, s.rid)])
  {
    assert Check(db, s) == None;
  }

  /** A handle (`*sql.DB`) and the database behind it; `state` is what the
      server holds, as one value, plus whether this handle is still open. */
  class Store {
    var state: Db

    /** A handle on a database in state `d`. */
    constructor (d: Db)
      ensures state == d
    {
      state := d;
    }

    /** `db.Query` for a statement whose rows are not read. */
    method Query(s: Stmt) returns (err: Option<Error>)
      modifies this
      ensures state == Apply(old(state), s).db
      ensures err == Apply(old(state), s).err
    {
      var o := Apply(state, s);
      state := o.db;
      err := o.err;
    }

    /** `db.Close()`: every later statement fails. */
    method Close()
      modifies this
      ensures state == old(state).(open := false)
    {
      state := state.(open := false);
    }
  }
}
