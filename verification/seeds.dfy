/** The step functions of the schema bootstrap (db/seeds.go): the drops, the
    creates and the seeds.

    A step issues its statements through the store handle one at a time and
    stops at the first that fails; its result is the error it sends on the
    stage's channel (`None` for nil).  The barrier and channel bookkeeping
    every step does (`defer wg.Done()`, one send per path) is in module
    Bootstrap.  Each step is specified by a function of the state before it
    that gives the state after it and the error. */
module Seeds {
  import opened Database
  import opened Models
  import Queries

  /** `DROP TABLE IF EXISTS t` (the eight Drop*Table functions). */
  method DropTable(db: Store, t: Table) returns (err: Option<Error>)
    modifies db
    ensures Outcome(db.state, err) == Apply(old(db.state), DropIfExists(t))
  {
    err := db.Query(DropIfExists(t));
  }

  /** `CREATE TABLE IF NOT EXISTS t (...)` (the eight Create*Table
      functions). */
  method CreateTable(db: Store, t: Table) returns (err: Option<Error>)
    modifies db
    ensures Outcome(db.state, err) == Apply(old(db.state), CreateIfNotExists(t))
  {
    err := db.Query(CreateIfNotExists(t));
  }

  function UserInsert(u: DbUser): Stmt {
    InsertUser(u.name, u.email, u.password)
  }

  /** Inserting users[from..] in list order, stopping at the first failed
      insert. */
  function InsertUsersFrom(d: Db, users: seq<DbUser>, from: nat): Outcome
    requires from <= |users|
    decreases |users| - from
  {
    if from == |users| then Outcome(d, None)
    else
      var o := Apply(d, UserInsert(users[from]));
      if o.err.Some? then o else InsertUsersFrom(o.db, users, from + 1)
  }

  method SeedUsersTable(db: Store, users: seq<DbUser>) returns (err: Option<Error>)
    modifies db
    ensures Outcome(db.state, err) == InsertUsersFrom(old(db.state), users, 0)
  {
    var i := 0;
    while i < |users|
      invariant 0 <= i <= |users|
      invariant InsertUsersFrom(old(db.state), users, 0) == InsertUsersFrom(db.state, users, i)
    {
      err := db.Query(UserInsert(users[i]));
      if err.Some? {
        return;
      }
      i := i + 1;
    }
    return None;
  }

  /** The users rows that inserting `users` in order adds, their uids drawn
      from the SERIAL sequence starting at `next`. */
  function UserRows(users: seq<DbUser>, next: int): (rows: seq<UserRow>)
    ensures |rows| == |users|
    ensures forall k :: 0 <= k < |users| ==>
              rows[k] == UserRow(next + k, users[k].name, users[k].email, Bcrypt(users[k].password))
  {
    seq(|users|, k requires 0 <= k < |users| =>
        UserRow(next + k, users[k].name, users[k].email, Bcrypt(users[k].password)))
  }

  /** `o` is the result of inserting exactly users[from..k]: the rows were
      appended and the uid sequence advanced, nothing else changed, the run
      succeeded iff the prefix is the whole list, and a failure is the insert
      of users[k] failing. */
  predicate InsertedPrefix(d: Db, users: seq<DbUser>, from: nat, k: nat, o: Outcome)
    requires from <= k <= |users|
  {
    o.db == d.(users := d.users + UserRows(users[from..k], d.nextUid), nextUid := d.nextUid + (k - from)) &&
    (o.err == None <==> k == |users|) &&
    (o.err.Some? ==> k < |users| && o.err == Apply(o.db, UserInsert(users[k])).err)
  }

  /** A successful insert of one user appends its row and advances the uid
      sequence. */
  lemma UserInsertEffect(d: Db, u: DbUser)
    requires Apply(d, UserInsert(u)).err == None
    ensures Apply(d, UserInsert(u)).db ==
            d.(users := d.users + [UserRow(d.nextUid, u.name, u.email, Bcrypt(u.password))], nextUid := d.nextUid + 1)
  {
    assert Check(d, UserInsert(u)) == None;
  }

  /** One successful insert in front of an inserted prefix is a longer
      inserted prefix. */
  lemma UsersPrefixStep(d: Db, users: seq<DbUser>, from: nat, k: nat, o: Outcome)
    requires from < k <= |users|
    requires Apply(d, UserInsert(users[from])).err == None
    requires InsertedPrefix(Apply(d, UserInsert(users[from])).db, users, from + 1, k, o)
    ensures InsertedPrefix(d, users, from, k, o)
  {
    UserInsertEffect(d, users[from]);
    UserRowsCons(d.users, users, from, k, d.nextUid);
  }

  /** The rows of users[from..k] are the row of users[from] followed by the
      rows of the rest, numbered on from the next uid. */
  lemma UserRowsCons(prior: seq<UserRow>, users: seq<DbUser>, from: nat, k: nat, next: int)
    requires from < k <= |users|
    ensures prior + UserRows(users[from..k], next) ==
            (prior + [UserRow(next, users[from].name, users[from].email, Bcrypt(users[from].password))]) +
            UserRows(users[from + 1..k], next + 1)
  {
    var row := UserRow(next, users[from].name, users[from].email, Bcrypt(users[from].password));
    assert UserRows(users[from..k], next) == [row] + UserRows(users[from + 1..k], next + 1);
  }

  /** SeedUsersTable inserts a prefix of the users in list order and stops at
      the first failed insert. */
  lemma {:induction false} SeedUsersInsertsPrefix(d: Db, users: seq<DbUser>, from: nat)
    requires from <= |users|
    ensures exists k :: from <= k <= |users| && InsertedPrefix(d, users, from, k, InsertUsersFrom(d, users, from))
    decreases |users| - from
  {
    var o := InsertUsersFrom(d, users, from);
    assert UserRows(users[from..from], d.nextUid) == [];
    assert d.users + [] == d.users;
    if from == |users| {
      assert InsertedPrefix(d, users, from, from, o);
    } else {
      var o1 := Apply(d, UserInsert(users[from]));
      if o1.err.Some? {
        assert InsertedPrefix(d, users, from, from, o);
      } else {
        assert o == InsertUsersFrom(o1.db, users, from + 1);
        SeedUsersInsertsPrefix(o1.db, users, from + 1);
        var k :| from + 1 <= k <= |users| && InsertedPrefix(o1.db, users, from + 1, k, o);
        UsersPrefixStep(d, users, from, k, o);
      }
    }
  }

  /** Inserts the user role, then the admin role, skipping the second insert
      when the first fails. */
  function RolesSeed(d: Db, roles: InitDbRoles): Outcome {
    var first := Apply(d, InsertRole(roles.user));
    if first.err.Some? then first else Apply(first.db, InsertRole(roles.admin))
  }

  method SeedRolesTable(db: Store, roles: InitDbRoles) returns (err: Option<Error>)
    modifies db
    ensures Outcome(db.state, err) == RolesSeed(old(db.state), roles)
  {
    err := db.Query(InsertRole(roles.user));
    if err.Some? {
      return;
    }
    err := db.Query(InsertRole(roles.admin));
  }

  /** SeedRolesTable succeeds iff both inserts pass their checks, neither
      name is taken and the two names differ; it then appends the user role
      and the admin role, in that order.  When the first insert fails the
      state is untouched. */
  lemma {:induction false} RolesSeedEffect(d: Db, roles: InitDbRoles)
    ensures RolesSeed(d, roles).err == None <==>
            Check(d, InsertRole(roles.user)) == None && Check(d, InsertRole(roles.admin)) == None &&
            !Named(d.roles, roles.user) && !Named(d.roles, roles.admin) && roles.user != roles.admin
    ensures RolesSeed(d, roles).err == None ==>
            RolesSeed(d, roles).db ==
            d.(roles := d.roles + [NamedRow(d.nextRid, roles.user), NamedRow(d.nextRid + 1, roles.admin)],
               nextRid := d.nextRid + 2)
    ensures Apply(d, InsertRole(roles.user)).err.Some? ==> RolesSeed(d, roles).db == d
  {
    var first := Apply(d, InsertRole(roles.user));
    if first.err == None {
      var d1 := first.db;
      assert d1.roles == d.roles + [NamedRow(d.nextRid, roles.user)];
      assert Check(d1, InsertRole(roles.admin)) == Check(d, InsertRole(roles.admin));
      if Named(d1.roles, roles.admin) {
        var i :| 0 <= i < |d1.roles| && d1.roles[i].name == roles.admin;
        if i < |d.roles| {
          assert d.roles[i].name == roles.admin;
        }
      }
      if Named(d.roles, roles.admin) {
        var i :| 0 <= i < |d.roles| && d.roles[i].name == roles.admin;
        assert d1.roles[i].name == roles.admin;
      }
      if roles.user == roles.admin {
        assert d1.roles[|d.roles|].name == roles.admin;
      }
    }
  }

  /** Inserts the site group. */
  method SeedGroupsTable(db: Store, groups: InitDbGroups) returns (err: Option<Error>)
    modifies db
    ensures Outcome(db.state, err) == Apply(old(db.state), InsertGroup(groups.site))
  {
    err := db.Query(InsertGroup(groups.site));
  }

  /** SeedGroupsTable adds exactly the site group, unless the name is taken
      or the insert fails its check. */
  lemma GroupsSeedEffect(d: Db, groups: InitDbGroups)
    ensures Apply(d, InsertGroup(groups.site)).err == None <==>
            Check(d, InsertGroup(groups.site)) == None && !Named(d.groups, groups.site)
    ensures Apply(d, InsertGroup(groups.site)).err == None ==>
            Apply(d, InsertGroup(groups.site)).db ==
            d.(groups := d.groups + [NamedRow(d.nextGid, groups.site)], nextGid := d.nextGid + 1)
  {
  }

  /** The two link tables filled from the users' role entries: group_users
      (one membership per entry) and group_user_roles (one role binding per
      entry). */
  datatype Link = Membership | RoleBinding

  /** For one role entry of the user with id `uid`: resolve the group (and,
      for a role binding, the role), then insert the link row. */
  function EntryOutcome(d: Db, link: Link, uid: int, e: DbUserRole): Outcome {
    match Lookup(d, GroupKind, e.group)
    case Err(err) => Outcome(d, Some(err))
    case Ok(gid) =>
      match link
      case Membership => Apply(d, InsertGroupUser(uid, gid))
      case RoleBinding =>
        match Lookup(d, RoleKind, e.role)
        case Err(err) => Outcome(d, Some(err))
        case Ok(rid) => Apply(d, InsertGroupUserRole(uid, gid, rid))
  }

  /** The entries roles[j..] of one user, in order, stopping at the first
      failure. */
  function EntriesFrom(d: Db, link: Link, uid: int, roles: seq<DbUserRole>, j: nat): Outcome
    requires j <= |roles|
    decreases |roles| - j
  {
    if j == |roles| then Outcome(d, None)
    else
      var o := EntryOutcome(d, link, uid, roles[j]);
      if o.err.Some? then o else EntriesFrom(o.db, link, uid, roles, j + 1)
  }

  /** The users users[i..], in order: resolve the user, then its entries;
      stop at the first failure. */
  function LinksFrom(d: Db, link: Link, users: seq<DbUser>, i: nat): Outcome
    requires i <= |users|
    decreases |users| - i
  {
    if i == |users| then Outcome(d, None)
    else
      match Lookup(d, UserKind, users[i].name)
      case Err(err) => Outcome(d, Some(err))
      case Ok(uid) =>
        var o := EntriesFrom(d, link, uid, users[i].roles, 0);
        if o.err.Some? then o else LinksFrom(o.db, link, users, i + 1)
  }

  /** What remains after one user's entries gave `o`. */
  function Rest(o: Outcome, link: Link, users: seq<DbUser>, next: nat): Outcome
    requires next <= |users|
  {
    if o.err.Some? then o else LinksFrom(o.db, link, users, next)
  }

  /** The id a lookup delivered; 0, the zero value of the Go local, when it
      failed (the seed stops there, so that value is never inserted). */
  function IdOf(r: Result<int>): int {
    if r.Ok? then r.value else 0
  }

  /** The insert one role entry of user `uid` asks for, ids resolved in
      `d`. */
  function EntryStmt(d: Db, link: Link, uid: int, e: DbUserRole): Stmt {
    var gid := IdOf(Lookup(d, GroupKind, e.group));
    match link
    case Membership => InsertGroupUser(uid, gid)
    case RoleBinding => InsertGroupUserRole(uid, gid, IdOf(Lookup(d, RoleKind, e.role)))
  }

  /** The inserts for the entries roles[j..] of one user, in order. */
  function EntryStmts(d: Db, link: Link, uid: int, roles: seq<DbUserRole>, j: nat): (ss: seq<Stmt>)
    requires j <= |roles|
    ensures |ss| == |roles| - j
    decreases |roles| - j
  {
    if j == |roles| then []
    else [EntryStmt(d, link, uid, roles[j])] + EntryStmts(d, link, uid, roles, j + 1)
  }

  /** The inserts for every entry of users[i..], user by user, in order. */
  function LinkStmts(d: Db, link: Link, users: seq<DbUser>, i: nat): seq<Stmt>
    requires i <= |users|
    decreases |users| - i
  {
    if i == |users| then []
    else EntryStmts(d, link, IdOf(Lookup(d, UserKind, users[i].name)), users[i].roles, 0) +
         LinkStmts(d, link, users, i + 1)
  }

  /** The state after running the statements `ss` in order. */
  function Run(d: Db, ss: seq<Stmt>): Db
    decreases |ss|
  {
    if ss == [] then d else Run(Apply(d, ss[0]).db, ss[1..])
  }

  lemma {:induction false} RunAppend(d: Db, a: seq<Stmt>, b: seq<Stmt>)
    ensures Run(d, a + b) == Run(Run(d, a), b)
    decreases |a|
  {
    if a == [] {
      assert a + b == b;
    } else {
      assert (a + b)[0] == a[0];
      assert (a + b)[1..] == a[1..] + b;
      RunAppend(Apply(d, a[0]).db, a[1..], b);
    }
  }

  /** `o` is the state after running the first `k` statements of `ss` from
      `d`, and all of them when `o` reports success. */
  predicate RanPrefix(d: Db, ss: seq<Stmt>, k: nat, o: Outcome) {
    k <= |ss| && o.db == Run(d, ss[..k]) && (o.err == None ==> k == |ss|)
  }

  /** One role entry, resolved in a state with the same directory as `r`:
      it either fails and changes nothing, or is exactly the insert
      EntryStmt names and keeps the directory. */
  lemma EntryStep(d: Db, r: Db, link: Link, uid: int, e: DbUserRole)
    requires SameDirectory(r, d)
    ensures EntryOutcome(d, link, uid, e).err.Some? ==> EntryOutcome(d, link, uid, e).db == d
    ensures EntryOutcome(d, link, uid, e).err == None ==>
              EntryOutcome(d, link, uid, e) == Apply(d, EntryStmt(r, link, uid, e)) &&
              SameDirectory(r, EntryOutcome(d, link, uid, e).db)
  {
    LookupFrame(r, d, GroupKind, e.group);
    LookupFrame(r, d, RoleKind, e.role);
    if EntryOutcome(d, link, uid, e).err == None {
      LinkInsertKeepsDirectory(d, EntryStmt(r, link, uid, e));
    }
  }

  lemma RunCons(d: Db, s: Stmt, tail: seq<Stmt>, k: nat)
    requires k <= |tail|
    ensures Run(d, ([s] + tail)[..k + 1]) == Run(Apply(d, s).db, tail[..k])
  {
    assert ([s] + tail)[..k + 1] == [s] + tail[..k];
    assert ([s] + tail[..k])[1..] == tail[..k];
  }

  /** A successful first entry followed by a run prefix of the remaining
      entries is a run prefix of all of them. */
  lemma EntriesPrefixCons(d: Db, r: Db, link: Link, uid: int, roles: seq<DbUserRole>, j: nat, k: nat, o: Outcome)
    requires j < |roles|
    requires Apply(d, EntryStmt(r, link, uid, roles[j])).err == None
    requires RanPrefix(Apply(d, EntryStmt(r, link, uid, roles[j])).db, EntryStmts(r, link, uid, roles, j + 1), k, o)
    ensures RanPrefix(d, EntryStmts(r, link, uid, roles, j), k + 1, o)
  {
    var s := EntryStmt(r, link, uid, roles[j]);
    var tail := EntryStmts(r, link, uid, roles, j + 1);
    assert EntryStmts(r, link, uid, roles, j) == [s] + tail;
    RunCons(d, s, tail, k);
  }

  /** With no entry left, or a first entry that fails, the entries run no
      statement. */
  lemma EntriesStop(d: Db, r: Db, link: Link, uid: int, roles: seq<DbUserRole>, j: nat)
    requires j <= |roles| && SameDirectory(r, d)
    requires j < |roles| ==> EntryOutcome(d, link, uid, roles[j]).err.Some?
    ensures SameDirectory(r, EntriesFrom(d, link, uid, roles, j).db)
    ensures RanPrefix(d, EntryStmts(r, link, uid, roles, j), 0, EntriesFrom(d, link, uid, roles, j))
  {
    assert EntryStmts(r, link, uid, roles, j)[..0] == [];
    if j < |roles| {
      EntryStep(d, r, link, uid, roles[j]);
    }
  }

  lemma {:induction false} EntriesRunPrefix(d: Db, r: Db, link: Link, uid: int, roles: seq<DbUserRole>, j: nat)
    requires j <= |roles|
    requires SameDirectory(r, d)
    ensures SameDirectory(r, EntriesFrom(d, link, uid, roles, j).db)
    ensures exists k :: RanPrefix(d, EntryStmts(r, link, uid, roles, j), k, EntriesFrom(d, link, uid, roles, j))
    decreases |roles| - j
  {
    if j < |roles| && EntryOutcome(d, link, uid, roles[j]).err == None {
      EntryStep(d, r, link, uid, roles[j]);
      var o1 := EntryOutcome(d, link, uid, roles[j]);
      var o := EntriesFrom(o1.db, link, uid, roles, j + 1);
      EntriesRunPrefix(o1.db, r, link, uid, roles, j + 1);
      var k: nat :| RanPrefix(o1.db, EntryStmts(r, link, uid, roles, j + 1), k, o);
      EntriesPrefixCons(d, r, link, uid, roles, j, k, o);
    } else {
      EntriesStop(d, r, link, uid, roles, j);
    }
  }

  /** Running a full prefix `a` and then a prefix of `b` runs a prefix of
      `a + b`. */
  lemma PrefixAppend(d: Db, a: seq<Stmt>, b: seq<Stmt>, k2: nat, o: Outcome)
    requires RanPrefix(Run(d, a), b, k2, o)
    ensures RanPrefix(d, a + b, |a| + k2, o)
  {
    assert (a + b)[..|a| + k2] == a + b[..k2];
    RunAppend(d, a, b[..k2]);
  }

  lemma {:induction false} LinksRunPrefix(d: Db, r: Db, link: Link, users: seq<DbUser>, i: nat)
    requires i <= |users|
    requires SameDirectory(r, d)
    ensures SameDirectory(r, LinksFrom(d, link, users, i).db)
    ensures exists k :: RanPrefix(d, LinkStmts(r, link, users, i), k, LinksFrom(d, link, users, i))
    decreases |users| - i, 2
  {
    var o := LinksFrom(d, link, users, i);
    var ss := LinkStmts(r, link, users, i);
    assert ss[..0] == [];
    if i == |users| {
      assert RanPrefix(d, ss, 0, o);
    } else if Lookup(d, UserKind, users[i].name).Err? {
      assert o == Outcome(d, Some(Lookup(d, UserKind, users[i].name).error));
      assert RanPrefix(d, ss, 0, o);
    } else {
      LinksRunPrefixResolved(d, r, link, users, i);
    }
  }

  /** One step of LinksFrom and LinkStmts for a user whose name resolves. */
  lemma LinksUnfold(d: Db, r: Db, link: Link, users: seq<DbUser>, i: nat)
    requires i < |users|
    requires SameDirectory(r, d)
    requires Lookup(d, UserKind, users[i].name).Ok?
    ensures var uid := Lookup(d, UserKind, users[i].name).value;
            LinksFrom(d, link, users, i) == Rest(EntriesFrom(d, link, uid, users[i].roles, 0), link, users, i + 1) &&
            LinkStmts(r, link, users, i) == EntryStmts(r, link, uid, users[i].roles, 0) + LinkStmts(r, link, users, i + 1)
  {
    LookupFrame(r, d, UserKind, users[i].name);
  }

  /** LinksRunPrefix for a user whose name resolves. */
  lemma {:induction false} LinksRunPrefixResolved(d: Db, r: Db, link: Link, users: seq<DbUser>, i: nat)
    requires i < |users|
    requires SameDirectory(r, d)
    requires Lookup(d, UserKind, users[i].name).Ok?
    ensures SameDirectory(r, LinksFrom(d, link, users, i).db)
    ensures exists k :: RanPrefix(d, LinkStmts(r, link, users, i), k, LinksFrom(d, link, users, i))
    decreases |users| - i, 1
  {
    LinksUnfold(d, r, link, users, i);
    var uid := Lookup(d, UserKind, users[i].name).value;
    var oe := EntriesFrom(d, link, uid, users[i].roles, 0);
    EntriesRunPrefix(d, r, link, uid, users[i].roles, 0);
    if oe.err.Some? {
      var a := EntryStmts(r, link, uid, users[i].roles, 0);
      var k1: nat :| RanPrefix(d, a, k1, oe);
      StopInFirstPart(d, a, LinkStmts(r, link, users, i + 1), k1, oe);
    } else {
      LinksRunPrefixContinue(d, r, link, users, i, uid, oe, LinkStmts(r, link, users, i),
                             LinksFrom(oe.db, link, users, i + 1));
    }
  }

  /** LinksRunPrefixResolved once the user's entries all succeeded. */
  lemma {:induction false} LinksRunPrefixContinue(d: Db, r: Db, link: Link, users: seq<DbUser>, i: nat,
                                                  uid: int, oe: Outcome, ss: seq<Stmt>, o: Outcome)
    requires i < |users|
    requires SameDirectory(r, oe.db) && oe.err == None
    requires RanPrefix(d, EntryStmts(r, link, uid, users[i].roles, 0), |users[i].roles|, oe)
    requires ss == EntryStmts(r, link, uid, users[i].roles, 0) + LinkStmts(r, link, users, i + 1)
    requires o == LinksFrom(oe.db, link, users, i + 1)
    ensures SameDirectory(r, o.db)
    ensures exists k :: RanPrefix(d, ss, k, o)
    decreases |users| - i, 0
  {
    var a := EntryStmts(r, link, uid, users[i].roles, 0);
    var b := LinkStmts(r, link, users, i + 1);
    assert a[..|a|] == a;
    LinksRunPrefix(oe.db, r, link, users, i + 1);
    var k2: nat :| RanPrefix(oe.db, b, k2, o);
    PrefixAppend(d, a, b, k2, o);
  }

  /** A run that stopped inside `a` ran a prefix of `a + b`. */
  lemma StopInFirstPart(d: Db, a: seq<Stmt>, b: seq<Stmt>, k1: nat, o: Outcome)
    requires RanPrefix(d, a, k1, o) && o.err.Some?
    ensures RanPrefix(d, a + b, k1, o)
  {
    assert (a + b)[..k1] == a[..k1];
  }

  /** SeedGroupUsersTable and SeedGroupUserRolesTable issue one insert per
      role entry of each user, in list order, with the ids resolved in the
      state they start from, and stop at the first failure: they run a prefix
      of those inserts, all of them when they succeed, and every name still
      resolves as before. */
  lemma SeedLinksRunPrefix(d: Db, link: Link, users: seq<DbUser>)
    ensures SameDirectory(d, LinksFrom(d, link, users, 0).db)
    ensures exists k :: RanPrefix(d, LinkStmts(d, link, users, 0), k, LinksFrom(d, link, users, 0))
  {
    LinksRunPrefix(d, d, link, users, 0);
  }

  /** A user with two role entries in one group gets two identical membership
      rows. */
  lemma {:induction false} TwoRolesInOneGroupGiveTwoMemberships(d: Db, u: DbUser)
    requires |u.roles| == 2 && u.roles[0].group == u.roles[1].group
    requires LinksFrom(d, Membership, [u], 0).err == None
    ensures Lookup(d, UserKind, u.name).Ok? && Lookup(d, GroupKind, u.roles[0].group).Ok? &&
            var uid, gid := Lookup(d, UserKind, u.name).value, Lookup(d, GroupKind, u.roles[0].group).value;
            LinksFrom(d, Membership, [u], 0).db.groupUsers == d.groupUsers + [GroupUser(uid, gid), GroupUser(uid, gid)]
  {
    assert [u][0] == u;
    var uid := Lookup(d, UserKind, u.name).value;
    TwoEntriesInOneGroup(d, uid, u.roles);
  }

  /** Two membership entries naming the same group insert the same row
      twice. */
  lemma {:induction false} TwoEntriesInOneGroup(d: Db, uid: int, roles: seq<DbUserRole>)
    requires |roles| == 2 && roles[0].group == roles[1].group
    requires EntriesFrom(d, Membership, uid, roles, 0).err == None
    ensures Lookup(d, GroupKind, roles[0].group).Ok? &&
            EntriesFrom(d, Membership, uid, roles, 0).db.groupUsers ==
            d.groupUsers + [GroupUser(uid, Lookup(d, GroupKind, roles[0].group).value),
                            GroupUser(uid, Lookup(d, GroupKind, roles[0].group).value)]
  {
    var gid := Lookup(d, GroupKind, roles[0].group).value;
    var d1 := Apply(d, InsertGroupUser(uid, gid)).db;
    LinkInsertKeepsDirectory(d, InsertGroupUser(uid, gid));
    LookupFrame(d, d1, GroupKind, roles[0].group);
    LinkInsertKeepsDirectory(d1, InsertGroupUser(uid, gid));
    var d2 := Apply(d1, InsertGroupUser(uid, gid)).db;
    assert EntryOutcome(d, Membership, uid, roles[0]) == Outcome(d1, None);
    assert EntryOutcome(d1, Membership, uid, roles[1]) == Outcome(d2, None);
    assert EntriesFrom(d, Membership, uid, roles, 0) == EntriesFrom(d1, Membership, uid, roles, 1);
    assert EntriesFrom(d1, Membership, uid, roles, 1) == EntriesFrom(d2, Membership, uid, roles, 2);
  }

  /** The body of SeedGroupUsersTable's inner loop: resolve the entry's
      group, then insert the membership of user `uid`. */
  method InsertMembership(db: Store, uid: int, e: DbUserRole) returns (err: Option<Error>)
    modifies db
    ensures Outcome(db.state, err) == EntryOutcome(old(db.state), Membership, uid, e)
  {
    var gid;
    err, gid := Queries.GetGid(db, e.group, 0);
    if err.Some? {
      return;
    }
    err := db.Query(InsertGroupUser(uid, gid));
  }

  /** The body of SeedGroupUserRolesTable's inner loop: resolve the entry's
      group and role, then insert the role binding of user `uid`. */
  method InsertRoleBinding(db: Store, uid: int, e: DbUserRole) returns (err: Option<Error>)
    modifies db
    ensures Outcome(db.state, err) == EntryOutcome(old(db.state), RoleBinding, uid, e)
  {
    var gid, rid;
    err, gid := Queries.GetGid(db, e.group, 0);
    if err.Some? {
      return;
    }
    err, rid := Queries.GetRid(db, e.role, 0);
    if err.Some? {
      return;
    }
    err := db.Query(InsertGroupUserRole(uid, gid, rid));
  }

  /** The inner loop of both link seeds: the entries of user `uid`, in
      order, returning at the first failure. */
  method InsertEntries(db: Store, link: Link, uid: int, roles: seq<DbUserRole>) returns (err: Option<Error>)
    modifies db
    ensures Outcome(db.state, err) == EntriesFrom(old(db.state), link, uid, roles, 0)
  {
    var j := 0;
    while j < |roles|
      invariant 0 <= j <= |roles|
      invariant EntriesFrom(old(db.state), link, uid, roles, 0) == EntriesFrom(db.state, link, uid, roles, j)
    {
      if link == Membership {
        err := InsertMembership(db, uid, roles[j]);
      } else {
        err := InsertRoleBinding(db, uid, roles[j]);
      }
      if err.Some? {
        return;
      }
      j := j + 1;
    }
    return None;
  }

  /** One step of LinksFrom: a failed lookup of users[i] ends the walk;
      otherwise its entries give `o`, which ends the walk on failure or hands
      over to users[i + 1..]. */
  lemma UserStep(d: Db, link: Link, users: seq<DbUser>, i: nat, uid: int, o: Outcome)
    requires i < |users|
    requires Lookup(d, UserKind, users[i].name).Err? ==>
               o == Outcome(d, Some(Lookup(d, UserKind, users[i].name).error))
    requires Lookup(d, UserKind, users[i].name) == Ok(uid) ==> o == EntriesFrom(d, link, uid, users[i].roles, 0)
    requires Lookup(d, UserKind, users[i].name).Err? || Lookup(d, UserKind, users[i].name) == Ok(uid)
    ensures o.err.Some? ==> LinksFrom(d, link, users, i) == o
    ensures o.err == None ==> LinksFrom(d, link, users, i) == LinksFrom(o.db, link, users, i + 1)
  {
  }

  /** The outer loop of both link seeds: resolve each user, then insert its
      entries; return at the first failure. */
  method InsertLinks(db: Store, link: Link, users: seq<DbUser>) returns (err: Option<Error>)
    modifies db
    ensures Outcome(db.state, err) == LinksFrom(old(db.state), link, users, 0)
  {
    var uid := 0;
    var i := 0;
    while i < |users|
      invariant 0 <= i <= |users|
      invariant LinksFrom(old(db.state), link, users, 0) == LinksFrom(db.state, link, users, i)
    {
      ghost var d := db.state;
      err, uid := Queries.GetUid(db, users[i].name, uid);
      if err.Some? {
        UserStep(d, link, users, i, uid, Outcome(d, err));
        return;
      }
      err := InsertEntries(db, link, uid, users[i].roles);
      UserStep(d, link, users, i, uid, Outcome(db.state, err));
      if err.Some? {
        return;
      }
      i := i + 1;
    }
    return None;
  }

  /** One group_users row per role entry of each user. */
  method SeedGroupUsersTable(db: Store, users: seq<DbUser>) returns (err: Option<Error>)
    modifies db
    ensures Outcome(db.state, err) == LinksFrom(old(db.state), Membership, users, 0)
  {
    err := InsertLinks(db, Membership, users);
  }

  /** One group_user_roles row per role entry of each user. */
  method SeedGroupUserRolesTable(db: Store, users: seq<DbUser>) returns (err: Option<Error>)
    modifies db
    ensures Outcome(db.state, err) == LinksFrom(old(db.state), RoleBinding, users, 0)
  {
    err := InsertLinks(db, RoleBinding, users);
  }

  /** The registered-process, permission and running-process seeds issue no
      statement and report success. */
  method SeedRegisteredProcessesTable(db: Store) returns (err: Option<Error>)
    ensures err == None
  {
    err := None;
  }

  method SeedRegisteredProcessPermissionsTable(db: Store) returns (err: Option<Error>)
    ensures err == None
  {
    err := None;
  }

  method SeedRunningProcessesTable(db: Store) returns (err: Option<Error>)
    ensures err == None
  {
    err := None;
  }
}
