/** The identity and authorization queries of package db
    (db/common_queries.go).

    Each Go function runs as a goroutine that reports on an error channel and
    writes its result through a pointer.  Here a call returns the error it
    sends (`None` for nil) together with the value its pointer holds
    afterwards: the caller passes the pointer's previous value in (`id0`,
    `isInGroup0`, ...), and it comes back unchanged on every path where the
    Go function does not write it.  The lookups a function fans out to
    goroutines all read the same store state, so running them one after the
    other gives the same results. */
module Queries {
  import opened Database
  import opened Permissions

  /** What an authorization call reports: the error it sends and the value it
      writes through its bool pointer, if it writes one. */
  datatype Verdict = Verdict(err: Option<Error>, wrote: Option<bool>)

  /** The value the caller's bool holds after a call with verdict `v`. */
  function Final(v: Verdict, before: bool): (b: bool)
    ensures v.wrote.None? ==> b == before
    ensures v.wrote.Some? ==> b == v.wrote.value
  {
    if v.wrote.Some? then v.wrote.value else before
  }

  /** What a `Get*` call delivers: its error and the id its pointer then
      holds. */
  function Deliver(r: Result<int>, id0: int): (d: (Option<Error>, int))
    ensures d.0 == r.Failure()
    ensures d.1 == if r.Ok? then r.value else id0
  {
    match r
    case Ok(v) => (None, v)
    case Err(e) => (Some(e), id0)
  }

  /** The fan-in: the channels are drained, then their errors are inspected
      in a fixed order and the first non-nil one is reported. */
  function FirstErrorFrom(errs: seq<Option<Error>>, from: nat): (e: Option<Error>)
    requires from <= |errs|
    ensures e.None? <==> forall k :: from <= k < |errs| ==> errs[k].None?
    ensures e.Some? ==> exists k :: from <= k < |errs| && errs[k] == e &&
                                    forall j :: from <= j < k ==> errs[j].None?
    decreases |errs| - from
  {
    if from == |errs| then None
    else if errs[from].Some? then errs[from]
    else FirstErrorFrom(errs, from + 1)
  }

  function FirstError(errs: seq<Option<Error>>): (e: Option<Error>)
    ensures e.None? <==> forall k :: 0 <= k < |errs| ==> errs[k].None?
    ensures e.Some? ==> exists k :: 0 <= k < |errs| && errs[k] == e &&
                                    forall j :: 0 <= j < k ==> errs[j].None?
  {
    FirstErrorFrom(errs, 0)
  }

  /** Draining two channels reports the first one's error ahead of the
      second's. */
  lemma FirstOfTwo(a: Option<Error>, b: Option<Error>)
    ensures FirstError([a, b]) == if a.Some? then a else b
  {
    assert FirstErrorFrom([a, b], 1) == b;
  }

  /** Draining three channels reports their errors in channel order. */
  lemma FirstOfThree(a: Option<Error>, b: Option<Error>, c: Option<Error>)
    ensures FirstError([a, b, c]) == if a.Some? then a else if b.Some? then b else c
  {
    assert FirstErrorFrom([a, b, c], 2) == c;
    assert FirstErrorFrom([a, b, c], 1) == if b.Some? then b else c;
  }

  /** The shared body of GetUid, GetGid, GetRid and GetRpid: select the id of
      the rows named `name`, then read the first one. */
  method GetId(db: Store, kind: Kind, name: string, id0: int) returns (err: Option<Error>, id: int)
    ensures (err, id) == Deliver(Lookup(db.state, kind, name), id0)
  {
    var s := SelectId(kind, name);
    var c := Check(db.state, s);
    if c.Some? {
      return Some(StoreError(s, c.value)), id0;
    }
    var ids := SelectFrom(Keys(db.state, kind), name, 0);
    if |ids| > 0 {
      if ScanFault(s) in db.state.faults {
        return Some(StoreError(s, ScanFailed)), id0;
      }
      id := ids[0];
    } else {
      return Some(NotFound(kind, name)), id0;
    }
    err := None;
  }

  /** Row `i` is the first users row named `username`. */
  predicate FirstUserRow(users: seq<UserRow>, username: string, i: int) {
    0 <= i < |users| && users[i].username == username &&
    forall j :: 0 <= j < i ==> users[j].username != username
  }

  predicate UserNamed(users: seq<UserRow>, username: string) {
    exists i :: 0 <= i < |users| && users[i].username == username
  }

  /** The uid of the first users row named `username`; a failed query or
      scan, or no such row, is reported and leaves `*uid` as it was. */
  method GetUid(db: Store, username: string, uid0: int) returns (err: Option<Error>, uid: int)
    ensures (err, uid) == Deliver(Lookup(db.state, UserKind, username), uid0)
    ensures err == None ==> exists i :: FirstUserRow(db.state.users, username, i) && uid == db.state.users[i].uid
    ensures err == Some(NotFound(UserKind, username)) <==>
            Check(db.state, SelectId(UserKind, username)) == None && !UserNamed(db.state.users, username)
    ensures err != None ==> uid == uid0
  {
    err, uid := GetId(db, UserKind, username, uid0);
    var rows := Keys(db.state, UserKind);
    if err == None {
      var i :| FirstNamed(rows, username, i) && uid == rows[i].id;
      assert rows[i] == NamedRow(db.state.users[i].uid, db.state.users[i].username);
      forall j | 0 <= j < i
        ensures db.state.users[j].username != username
      {
        assert rows[j].name == db.state.users[j].username;
      }
      assert FirstUserRow(db.state.users, username, i);
    }
    if Named(rows, username) {
      var i :| 0 <= i < |rows| && rows[i].name == username;
      assert db.state.users[i].username == username;
    }
    if UserNamed(db.state.users, username) {
      var i :| 0 <= i < |db.state.users| && db.state.users[i].username == username;
      assert rows[i].name == username;
    }
  }

  /** The gid of the first groups row named `groupname`. */
  method GetGid(db: Store, groupname: string, gid0: int) returns (err: Option<Error>, gid: int)
    ensures (err, gid) == Deliver(Lookup(db.state, GroupKind, groupname), gid0)
    ensures err == None ==> exists i :: FirstNamed(db.state.groups, groupname, i) && gid == db.state.groups[i].id
    ensures err == Some(NotFound(GroupKind, groupname)) <==>
            Check(db.state, SelectId(GroupKind, groupname)) == None && !Named(db.state.groups, groupname)
    ensures err != None ==> gid == gid0
  {
    err, gid := GetId(db, GroupKind, groupname, gid0);
  }

  /** The rid of the first roles row named `rolename`. */
  method GetRid(db: Store, rolename: string, rid0: int) returns (err: Option<Error>, rid: int)
    ensures (err, rid) == Deliver(Lookup(db.state, RoleKind, rolename), rid0)
    ensures err == None ==> exists i :: FirstNamed(db.state.roles, rolename, i) && rid == db.state.roles[i].id
    ensures err == Some(NotFound(RoleKind, rolename)) <==>
            Check(db.state, SelectId(RoleKind, rolename)) == None && !Named(db.state.roles, rolename)
    ensures err != None ==> rid == rid0
  {
    err, rid := GetId(db, RoleKind, rolename, rid0);
  }

  /** Row `i` is the first registered_processes row named `processname`. */
  predicate FirstProcessRow(processes: seq<ProcessRow>, processname: string, i: int) {
    0 <= i < |processes| && processes[i].name == processname &&
    forall j :: 0 <= j < i ==> processes[j].name != processname
  }

  /** The rpid of the first registered_processes row named `processname`. */
  method GetRpid(db: Store, processname: string, rpid0: int) returns (err: Option<Error>, rpid: int)
    ensures (err, rpid) == Deliver(Lookup(db.state, ProcessKind, processname), rpid0)
    ensures err == None ==> exists i :: FirstProcessRow(db.state.processes, processname, i) &&
                                        rpid == db.state.processes[i].rpid
    ensures err != None ==> rpid == rpid0
  {
    err, rpid := GetId(db, ProcessKind, processname, rpid0);
    var rows := Keys(db.state, ProcessKind);
    if err == None {
      var i :| FirstNamed(rows, processname, i) && rpid == rows[i].id;
      assert rows[i] == NamedRow(db.state.processes[i].rpid, db.state.processes[i].name);
      forall j | 0 <= j < i
        ensures db.state.processes[j].name != processname
      {
        assert rows[j].name == db.state.processes[j].name;
      }
      assert FirstProcessRow(db.state.processes, processname, i);
    }
  }

  /** IsInGroup: the uid and gid lookups (uid failure reported first, nothing
      written), then the membership join. */
  function InGroupVerdict(db: Db, username: string, groupname: string): (v: Verdict)
    ensures Lookup(db, UserKind, username).Err? ==>
              v == Verdict(Lookup(db, UserKind, username).Failure(), None)
    ensures Lookup(db, UserKind, username).Ok? && Lookup(db, GroupKind, groupname).Err? ==>
              v == Verdict(Lookup(db, GroupKind, groupname).Failure(), None)
    ensures v.err == None <==>
              Lookup(db, UserKind, username).Ok? && Lookup(db, GroupKind, groupname).Ok? &&
              var s := SelectGroupUser(Lookup(db, UserKind, username).value, Lookup(db, GroupKind, groupname).value);
              Check(db, s) == None && GroupUserJoin(db, s.uid, s.gid)
    ensures Lookup(db, UserKind, username).Ok? && Lookup(db, GroupKind, groupname).Ok? ==>
              var s := SelectGroupUser(Lookup(db, UserKind, username).value, Lookup(db, GroupKind, groupname).value);
              (Check(db, s).Some? ==> v == Verdict(Some(StoreError(s, Check(db, s).value)), Some(false))) &&
              (Check(db, s) == None && !GroupUserJoin(db, s.uid, s.gid) ==>
                 v == Verdict(Some(NotInGroup(username, groupname)), Some(false)))
    ensures Lookup(db, UserKind, username).Ok? && Lookup(db, GroupKind, groupname).Ok? ==> v.wrote.Some?
    ensures v.err == None ==> v.wrote == Some(true)
    ensures v.wrote.Some? ==> v.wrote == Some(v.err == None)
  {
    var ru := Lookup(db, UserKind, username);
    var rg := Lookup(db, GroupKind, groupname);
    FirstOfTwo(ru.Failure(), rg.Failure());
    var e := FirstError([ru.Failure(), rg.Failure()]);
    if e.Some? then Verdict(e, None)
    else
      var s := SelectGroupUser(ru.value, rg.value);
      match Check(db, s)
      case Some(c) => Verdict(Some(StoreError(s, c)), Some(false))
      case None =>
        if GroupUserJoin(db, ru.value, rg.value) then Verdict(None, Some(true))
        else Verdict(Some(NotInGroup(username, groupname)), Some(false))
  }

  method IsInGroup(db: Store, username: string, groupname: string, isInGroup0: bool)
    returns (err: Option<Error>, isInGroup: bool)
    ensures err == InGroupVerdict(db.state, username, groupname).err
    ensures isInGroup == Final(InGroupVerdict(db.state, username, groupname), isInGroup0)
  {
    var uidErr, uid := GetUid(db, username, 0);
    var gidErr, gid := GetGid(db, groupname, 0);
    FirstOfTwo(uidErr, gidErr);
    var e := FirstError([uidErr, gidErr]);
    if e.Some? {
      return e, isInGroup0;
    }
    var s := SelectGroupUser(uid, gid);
    var c := Check(db.state, s);
    if c.Some? {
      return Some(StoreError(s, c.value)), false;
    }
    if GroupUserJoin(db.state, uid, gid) {
      isInGroup := true;
    } else {
      return Some(NotInGroup(username, groupname)), false;
    }
    err := None;
  }

  /** IsRole: the uid, gid and rid lookups in that order of report, then the
      role join. */
  function RoleVerdict(db: Db, username: string, groupname: string, rolename: string): (v: Verdict)
    ensures Lookup(db, UserKind, username).Err? ==>
              v == Verdict(Lookup(db, UserKind, username).Failure(), None)
    ensures Lookup(db, UserKind, username).Ok? && Lookup(db, GroupKind, groupname).Err? ==>
              v == Verdict(Lookup(db, GroupKind, groupname).Failure(), None)
    ensures Lookup(db, UserKind, username).Ok? && Lookup(db, GroupKind, groupname).Ok? &&
            Lookup(db, RoleKind, rolename).Err? ==>
              v == Verdict(Lookup(db, RoleKind, rolename).Failure(), None)
    ensures v.err == None <==>
              Lookup(db, UserKind, username).Ok? && Lookup(db, GroupKind, groupname).Ok? &&
              Lookup(db, RoleKind, rolename).Ok? &&
              var s := SelectGroupUserRole(Lookup(db, UserKind, username).value,
                                           Lookup(db, GroupKind, groupname).value,
                                           Lookup(db, RoleKind, rolename).value);
              Check(db, s) == None && GroupUserRoleJoin(db, s.uid, s.gid, s.rid)
    ensures Lookup(db, UserKind, username).Ok? && Lookup(db, GroupKind, groupname).Ok? &&
            Lookup(db, RoleKind, rolename).Ok? ==>
              var s := SelectGroupUserRole(Lookup(db, UserKind, username).value,
                                           Lookup(db, GroupKind, groupname).value,
                                           Lookup(db, RoleKind, rolename).value);
              (Check(db, s).Some? ==> v == Verdict(Some(StoreError(s, Check(db, s).value)), Some(false))) &&
              (Check(db, s) == None && !GroupUserRoleJoin(db, s.uid, s.gid, s.rid) ==>
                 v == Verdict(Some(NotInRole(username, groupname, rolename)), Some(false)))
    ensures Lookup(db, UserKind, username).Ok? && Lookup(db, GroupKind, groupname).Ok? &&
              Lookup(db, RoleKind, rolename).Ok? ==>
              v.wrote.Some?
    ensures v.err == None ==> v.wrote == Some(true)
    ensures v.wrote.Some? ==> v.wrote == Some(v.err == None)
  {
    var ru := Lookup(db, UserKind, username);
    var rg := Lookup(db, GroupKind, groupname);
    var rr := Lookup(db, RoleKind, rolename);
    FirstOfThree(ru.Failure(), rg.Failure(), rr.Failure());
    var e := FirstError([ru.Failure(), rg.Failure(), rr.Failure()]);
    if e.Some? then Verdict(e, None)
    else
      var s := SelectGroupUserRole(ru.value, rg.value, rr.value);
      match Check(db, s)
      case Some(c) => Verdict(Some(StoreError(s, c)), Some(false))
      case None =>
        if GroupUserRoleJoin(db, ru.value, rg.value, rr.value) then Verdict(None, Some(true))
        else Verdict(Some(NotInRole(username, groupname, rolename)), Some(false))
  }

  method IsRole(db: Store, username: string, groupname: string, rolename: string, isRole0: bool)
    returns (err: Option<Error>, isRole: bool)
    ensures err == RoleVerdict(db.state, username, groupname, rolename).err
    ensures isRole == Final(RoleVerdict(db.state, username, groupname, rolename), isRole0)
  {
    var uidErr, uid := GetUid(db, username, 0);
    var gidErr, gid := GetGid(db, groupname, 0);
    var ridErr, rid := GetRid(db, rolename, 0);
    FirstOfThree(uidErr, gidErr, ridErr);
    var e := FirstError([uidErr, gidErr, ridErr]);
    if e.Some? {
      return e, isRole0;
    }
    var s := SelectGroupUserRole(uid, gid, rid);
    var c := Check(db.state, s);
    if c.Some? {
      return Some(StoreError(s, c.value)), false;
    }
    if GroupUserRoleJoin(db.state, uid, gid, rid) {
      isRole := true;
    } else {
      return Some(NotInRole(username, groupname, rolename)), false;
    }
    err := None;
  }

  /** The table the grant query reads.  The source names registered_processes,
      which has none of the columns the query uses (see `GrantQueryAsWritten`);
      the model reads the permissions table those columns belong to. */
  const GrantTable: Table := RegisteredProcessPermissions

  /** The grant row HasPermission reads: row `i` is the first one for
      (gid, rid, rpid). */
  predicate FirstGrant(grants: seq<Grant>, gid: int, rid: int, rpid: int, i: int) {
    0 <= i < |grants| && grants[i] == Grant(rpid, gid, rid, grants[i].rwx) &&
    forall j :: 0 <= j < i ==> grants[j] != Grant(rpid, gid, rid, grants[j].rwx)
  }

  /** HasPermission reading its grant from table `from`: the role gate, then
      the gid, rid and rpid lookups in that order of report, then the grant
      query, the scan of its first row and the permission match. */
  function PermissionVerdict(db: Db, perms: map<string, Pattern>, username: string, groupname: string,
                             rolename: string, processname: string, permissionname: string,
                             from: Table): (v: Verdict)
    ensures RoleVerdict(db, username, groupname, rolename).err.Some? ==>
              v == Verdict(RoleVerdict(db, username, groupname, rolename).err, None)
    ensures v.err == None ==> Lookup(db, ProcessKind, processname).Ok?
    ensures RoleVerdict(db, username, groupname, rolename).err == None && Lookup(db, ProcessKind, processname).Err? ==>
              v == Verdict(Lookup(db, ProcessKind, processname).Failure(), None)
    ensures RoleVerdict(db, username, groupname, rolename).err == None && Lookup(db, ProcessKind, processname).Ok? ==>
              v == GrantVerdict(db, perms, SelectRwx(from, Lookup(db, GroupKind, groupname).value,
                                                     Lookup(db, RoleKind, rolename).value,
                                                     Lookup(db, ProcessKind, processname).value),
                                username, groupname, rolename, processname, permissionname)
    ensures v.err == None ==> v.wrote == Some(true)
    ensures v.wrote.Some? ==> v.wrote == Some(v.err == None)
  {
    var role := RoleVerdict(db, username, groupname, rolename);
    if role.err.Some? then Verdict(role.err, None)
    else
      var rg := Lookup(db, GroupKind, groupname);
      var rr := Lookup(db, RoleKind, rolename);
      var rp := Lookup(db, ProcessKind, processname);
      FirstOfThree(rg.Failure(), rr.Failure(), rp.Failure());
      var e := FirstError([rg.Failure(), rr.Failure(), rp.Failure()]);
      if e.Some? then Verdict(e, None)
      else GrantVerdict(db, perms, SelectRwx(from, rg.value, rr.value, rp.value),
                        username, groupname, rolename, processname, permissionname)
  }

  /** The part of HasPermission after the lookups: the grant query `s`, the
      scan of its first row and the permission match. */
  function GrantVerdict(db: Db, perms: map<string, Pattern>, s: Stmt, username: string, groupname: string,
                        rolename: string, processname: string, permissionname: string): (v: Verdict)
    requires s.SelectRwx?
    ensures Check(db, s).Some? ==> v == Verdict(Some(StoreError(s, Check(db, s).value)), Some(false))
    ensures v.err == None <==>
              Check(db, s) == None && ScanFault(s) !in db.faults &&
              RwxFrom(db.grants, s.gid, s.rid, s.rpid, 0) != [] &&
              MatchPermission(PatternOf(perms, permissionname), RwxFrom(db.grants, s.gid, s.rid, s.rpid, 0)[0])
    ensures Check(db, s) == None && RwxFrom(db.grants, s.gid, s.rid, s.rpid, 0) == [] ==>
              v == Verdict(Some(NoPermission(username, groupname, rolename, processname, permissionname)), Some(false))
    ensures Check(db, s) == None && RwxFrom(db.grants, s.gid, s.rid, s.rpid, 0) != [] && ScanFault(s) in db.faults ==>
              v == Verdict(Some(StoreError(s, ScanFailed)), None)
    ensures Check(db, s) == None && RwxFrom(db.grants, s.gid, s.rid, s.rpid, 0) != [] && ScanFault(s) !in db.faults &&
            !MatchPermission(PatternOf(perms, permissionname), RwxFrom(db.grants, s.gid, s.rid, s.rpid, 0)[0]) ==>
              v == Verdict(Some(NoPermission(username, groupname, rolename, processname, permissionname)), Some(false))
    ensures v.err == None ==> v.wrote == Some(true)
    ensures v.wrote.Some? ==> v.wrote == Some(v.err == None)
  {
    match Check(db, s)
    case Some(c) => Verdict(Some(StoreError(s, c)), Some(false))
    case None =>
      var rwxs := RwxFrom(db.grants, s.gid, s.rid, s.rpid, 0);
      if rwxs == [] then
        Verdict(Some(NoPermission(username, groupname, rolename, processname, permissionname)), Some(false))
      else if ScanFault(s) in db.faults then Verdict(Some(StoreError(s, ScanFailed)), None)
      else if MatchPermission(PatternOf(perms, permissionname), rwxs[0]) then Verdict(None, Some(true))
      else Verdict(Some(NoPermission(username, groupname, rolename, processname, permissionname)), Some(false))
  }

  /** HasPermission with the permission table `perms` (ConciergePermissions). */
  method HasPermission(db: Store, perms: map<string, Pattern>, username: string, groupname: string,
                       rolename: string, processname: string, permissionname: string, hasPermission0: bool)
    returns (err: Option<Error>, hasPermission: bool)
    ensures err == PermissionVerdict(db.state, perms, username, groupname, rolename, processname,
                                     permissionname, GrantTable).err
    ensures hasPermission == Final(PermissionVerdict(db.state, perms, username, groupname, rolename, processname,
                                                     permissionname, GrantTable), hasPermission0)
  {
    var roleErr, isRole := IsRole(db, username, groupname, rolename, false);
    if roleErr.Some? {
      return roleErr, hasPermission0;
    }
    var gidErr, gid := GetGid(db, groupname, 0);
    var ridErr, rid := GetRid(db, rolename, 0);
    var rpidErr, rpid := GetRpid(db, processname, 0);
    FirstOfThree(gidErr, ridErr, rpidErr);
    var e := FirstError([gidErr, ridErr, rpidErr]);
    if e.Some? {
      return e, hasPermission0;
    }
    var s := SelectRwx(GrantTable, gid, rid, rpid);
    var c := Check(db.state, s);
    if c.Some? {
      return Some(StoreError(s, c.value)), false;
    }
    var rwxs := RwxFrom(db.state.grants, gid, rid, rpid, 0);
    if |rwxs| > 0 {
      if ScanFault(s) in db.state.faults {
        return Some(StoreError(s, ScanFailed)), hasPermission0;
      }
      hasPermission := MatchPermission(PatternOf(perms, permissionname), rwxs[0]);
      if !hasPermission {
        return Some(NoPermission(username, groupname, rolename, processname, permissionname)), false;
      }
    } else {
      return Some(NoPermission(username, groupname, rolename, processname, permissionname)), false;
    }
    err := None;
  }

  /** Past the role gate the group and role resolve, so only the process
      lookup can still fail before the grant query. */
  lemma GateResolvesGroupAndRole(db: Db, username: string, groupname: string, rolename: string)
    requires RoleVerdict(db, username, groupname, rolename).err == None
    ensures Lookup(db, UserKind, username).Ok?
    ensures Lookup(db, GroupKind, groupname).Ok? && Lookup(db, RoleKind, rolename).Ok?
  {
  }

  /** The grant query over GrantTable runs and scans, after the role gate and
      the process lookup succeeded, and row `i` is the first grant row it
      returns. */
  predicate GrantRowRead(db: Db, username: string, groupname: string, rolename: string, processname: string, i: int) {
    RoleVerdict(db, username, groupname, rolename).err == None && Lookup(db, ProcessKind, processname).Ok? &&
    var s := SelectRwx(GrantTable, Lookup(db, GroupKind, groupname).value, Lookup(db, RoleKind, rolename).value,
                       Lookup(db, ProcessKind, processname).value);
    Check(db, s) == None && ScanFault(s) !in db.faults && FirstGrant(db.grants, s.gid, s.rid, s.rpid, i)
  }

  /** At most one row is the first grant row for a triple. */
  lemma FirstGrantUnique(grants: seq<Grant>, gid: int, rid: int, rpid: int, i: int, i': int)
    requires FirstGrant(grants, gid, rid, rpid, i) && FirstGrant(grants, gid, rid, rpid, i')
    ensures i == i'
  {
  }

  /** HasPermission grants exactly when the user holds the role in the group,
      the process resolves, the first grant row for (gid, rid, rpid) is read,
      and its rwx string matches the label's pattern. */
  lemma {:induction false} HasPermissionGrantsIff(db: Db, perms: map<string, Pattern>, username: string,
                                                  groupname: string, rolename: string, processname: string,
                                                  permissionname: string)
    ensures PermissionVerdict(db, perms, username, groupname, rolename, processname, permissionname, GrantTable).err == None
            <==>
            exists i :: GrantRowRead(db, username, groupname, rolename, processname, i) &&
                        MatchPermission(PatternOf(perms, permissionname), db.grants[i].rwx)
  {
    if RoleVerdict(db, username, groupname, rolename).err == None && Lookup(db, ProcessKind, processname).Ok? {
      var s := SelectRwx(GrantTable, Lookup(db, GroupKind, groupname).value, Lookup(db, RoleKind, rolename).value,
                         Lookup(db, ProcessKind, processname).value);
      FirstGrantIsHead(db.grants, s.gid, s.rid, s.rpid);
    }
  }

  /** The first rwx string the grant query returns is the rwx of the first
      grant row for the triple, and there is one iff such a row exists. */
  lemma FirstGrantIsHead(grants: seq<Grant>, gid: int, rid: int, rpid: int)
    ensures RwxFrom(grants, gid, rid, rpid, 0) != [] <==> exists i :: FirstGrant(grants, gid, rid, rpid, i)
    ensures forall i :: FirstGrant(grants, gid, rid, rpid, i) ==> RwxFrom(grants, gid, rid, rpid, 0)[0] == grants[i].rwx
  {
    var rwxs := RwxFrom(grants, gid, rid, rpid, 0);
    if rwxs != [] {
      var i :| 0 <= i < |grants| && grants[i] == Grant(rpid, gid, rid, rwxs[0]) &&
               forall j :: 0 <= j < i ==> grants[j] != Grant(rpid, gid, rid, grants[j].rwx);
      assert FirstGrant(grants, gid, rid, rpid, i);
      forall i' | FirstGrant(grants, gid, rid, rpid, i')
        ensures rwxs[0] == grants[i'].rwx
      {
        FirstGrantUnique(grants, gid, rid, rpid, i, i');
      }
    }
  }

  /** With the permission table SetupModels installs, a grant whose rwx is a
      3-bit string is decided by its bits: the label is granted iff every
      position it names holds a 1. */
  lemma {:induction false} GrantDecidedByBits(db: Db, username: string, groupname: string, rolename: string,
                                              processname: string, permissionname: string, i: int)
    requires permissionname in ConciergePermissions
    requires 0 <= i < |db.grants|
    requires GrantRowRead(db, username, groupname, rolename, processname, i)
    requires |db.grants[i].rwx| == 3 && IsBitString(db.grants[i].rwx)
    ensures PermissionVerdict(db, ConciergePermissions, username, groupname, rolename, processname,
                              permissionname, GrantTable).err == None
            <==>
            forall k :: k in RequiredPositions(permissionname) ==> db.grants[i].rwx[k] == '1'
  {
    HasPermissionGrantsIff(db, ConciergePermissions, username, groupname, rolename, processname, permissionname);
    MatchIffRequiredBitsSet(permissionname, db.grants[i].rwx);
    var s := SelectRwx(GrantTable, Lookup(db, GroupKind, groupname).value, Lookup(db, RoleKind, rolename).value,
                       Lookup(db, ProcessKind, processname).value);
    forall i' | GrantRowRead(db, username, groupname, rolename, processname, i')
      ensures i' == i
    {
      FirstGrantUnique(db.grants, s.gid, s.rid, s.rpid, i, i');
    }
  }

  /** The grant query exactly as the source writes it, reading table
      registered_processes: once the gate and the lookups pass on a healthy
      store, the query fails because that table has no rwx, gid or rid
      column. */
  lemma {:induction false} GrantQueryAsWrittenFails(db: Db, perms: map<string, Pattern>, username: string,
                                                    groupname: string, rolename: string, processname: string,
                                                    permissionname: string)
    requires RoleVerdict(db, username, groupname, rolename).err == None
    requires Lookup(db, ProcessKind, processname).Ok?
    requires db.open && RegisteredProcesses in db.tables
    requires QueryFault(SelectRwx(RegisteredProcesses, Lookup(db, GroupKind, groupname).value,
                                  Lookup(db, RoleKind, rolename).value, Lookup(db, ProcessKind, processname).value))
               !in db.faults
    ensures PermissionVerdict(db, perms, username, groupname, rolename, processname, permissionname,
                              RegisteredProcesses) ==
            Verdict(Some(StoreError(SelectRwx(RegisteredProcesses, Lookup(db, GroupKind, groupname).value,
                                              Lookup(db, RoleKind, rolename).value,
                                              Lookup(db, ProcessKind, processname).value),
                                    NoSuchColumn)),
                    Some(false))
  {
    var s := SelectRwx(RegisteredProcesses, Lookup(db, GroupKind, groupname).value,
                       Lookup(db, RoleKind, rolename).value, Lookup(db, ProcessKind, processname).value);
    RegisteredProcessesLacksGrantColumns(db, s);
  }

  /** The table registered_processes has none of the columns rwx, gid and
      rid, so a grant query against it never reaches the rows. */
  lemma RegisteredProcessesLacksGrantColumns(db: Db, s: Stmt)
    requires s.SelectRwx? && s.from == RegisteredProcesses
    ensures Check(db, s).Some?
    ensures db.open && QueryFault(s) !in db.faults && RegisteredProcesses in db.tables ==>
              Check(db, s) == Some(NoSuchColumn)
  {
    assert Rwx in GrantColumns && Rwx !in ColumnsOf(RegisteredProcesses);
  }

  /** As written, HasPermission grants nothing, whatever the store holds. */
  lemma {:induction false} GrantQueryAsWrittenNeverGrants(db: Db, perms: map<string, Pattern>, username: string,
                                                          groupname: string, rolename: string, processname: string,
                                                          permissionname: string)
    ensures PermissionVerdict(db, perms, username, groupname, rolename, processname, permissionname,
                              RegisteredProcesses).err.Some?
  {
    if RoleVerdict(db, username, groupname, rolename).err == None && Lookup(db, ProcessKind, processname).Ok? {
      var s := SelectRwx(RegisteredProcesses, Lookup(db, GroupKind, groupname).value,
                         Lookup(db, RoleKind, rolename).value, Lookup(db, ProcessKind, processname).value);
      RegisteredProcessesLacksGrantColumns(db, s);
    }
  }

  /** Inserting the membership row for a resolved user and group makes
      IsInGroup succeed and write true. */
  lemma {:induction false} AddedMemberIsInGroup(db: Db, username: string, groupname: string, uid: int, gid: int)
    requires Lookup(db, UserKind, username) == Ok(uid) && Lookup(db, GroupKind, groupname) == Ok(gid)
    requires Apply(db, InsertGroupUser(uid, gid)).err == None
    requires QueryFault(SelectGroupUser(uid, gid)) !in db.faults
    ensures InGroupVerdict(Apply(db, InsertGroupUser(uid, gid)).db, username, groupname) == Verdict(None, Some(true))
  {
    var d := Apply(db, InsertGroupUser(uid, gid)).db;
    LinkInsertKeepsDirectory(db, InsertGroupUser(uid, gid));
    LookupFrame(db, d, UserKind, username);
    LookupFrame(db, d, GroupKind, groupname);
    ResolvedUserIsRow(db, username);
    MembershipVisible(db, uid, gid);
  }

  /** After a successful insert of a membership whose uid is a users row,
      the IsInGroup query over the new state runs and its join finds the
      row. */
  lemma MembershipVisible(db: Db, uid: int, gid: int)
    requires Apply(db, InsertGroupUser(uid, gid)).err == None
    requires QueryFault(SelectGroupUser(uid, gid)) !in db.faults && Users in db.tables
    requires exists i :: 0 <= i < |db.users| && db.users[i].uid == uid
    ensures Check(Apply(db, InsertGroupUser(uid, gid)).db, SelectGroupUser(uid, gid)) == None
    ensures GroupUserJoin(Apply(db, InsertGroupUser(uid, gid)).db, uid, gid)
  {
    var d := Apply(db, InsertGroupUser(uid, gid)).db;
    assert Check(db, InsertGroupUser(uid, gid)) == None;
    assert GroupUser(uid, gid) == d.groupUsers[|d.groupUsers| - 1];
  }

  /** A uid GetUid delivers belongs to a users row, and the users table exists. */
  lemma ResolvedUserIsRow(db: Db, username: string)
    requires Lookup(db, UserKind, username).Ok?
    ensures Users in db.tables
    ensures exists i :: 0 <= i < |db.users| && db.users[i].uid == Lookup(db, UserKind, username).value
  {
    assert Check(db, SelectId(UserKind, username)) == None;
    var i :| FirstNamed(Keys(db, UserKind), username, i) && Lookup(db, UserKind, username).value == Keys(db, UserKind)[i].id;
    assert db.users[i].uid == Lookup(db, UserKind, username).value;
  }

  /** A rid GetRid delivers belongs to a roles row, and the roles table exists. */
  lemma ResolvedRoleIsRow(db: Db, rolename: string)
    requires Lookup(db, RoleKind, rolename).Ok?
    ensures Roles in db.tables
    ensures exists i :: 0 <= i < |db.roles| && db.roles[i].id == Lookup(db, RoleKind, rolename).value
  {
    assert Check(db, SelectId(RoleKind, rolename)) == None;
    var i :| FirstNamed(Keys(db, RoleKind), rolename, i) && Lookup(db, RoleKind, rolename).value == Keys(db, RoleKind)[i].id;
    assert db.roles[i].id == Lookup(db, RoleKind, rolename).value;
  }

  /** Inserting the role-binding row for a resolved user, group and role makes
      IsRole succeed and write true. */
  lemma {:induction false} AddedRoleBindingIsRole(db: Db, username: string, groupname: string, rolename: string,
                                                  uid: int, gid: int, rid: int)
    requires Lookup(db, UserKind, username) == Ok(uid) && Lookup(db, GroupKind, groupname) == Ok(gid) &&
             Lookup(db, RoleKind, rolename) == Ok(rid)
    requires Apply(db, InsertGroupUserRole(uid, gid, rid)).err == None
    requires QueryFault(SelectGroupUserRole(uid, gid, rid)) !in db.faults
    ensures RoleVerdict(Apply(db, InsertGroupUserRole(uid, gid, rid)).db, username, groupname, rolename) ==
            Verdict(None, Some(true))
  {
    var d := Apply(db, InsertGroupUserRole(uid, gid, rid)).db;
    LinkInsertKeepsDirectory(db, InsertGroupUserRole(uid, gid, rid));
    LookupFrame(db, d, UserKind, username);
    LookupFrame(db, d, GroupKind, groupname);
    LookupFrame(db, d, RoleKind, rolename);
    ResolvedRoleIsRow(db, rolename);
    RoleBindingVisible(db, uid, gid, rid);
    RoleHeld(d, username, groupname, rolename);
  }

  /** After a successful insert of a role binding whose rid is a roles row,
      the IsRole query over the new state runs and its join finds the row. */
  lemma RoleBindingVisible(db: Db, uid: int, gid: int, rid: int)
    requires Apply(db, InsertGroupUserRole(uid, gid, rid)).err == None
    requires QueryFault(SelectGroupUserRole(uid, gid, rid)) !in db.faults && Roles in db.tables
    requires exists i :: 0 <= i < |db.roles| && db.roles[i].id == rid
    ensures Check(Apply(db, InsertGroupUserRole(uid, gid, rid)).db, SelectGroupUserRole(uid, gid, rid)) == None
    ensures GroupUserRoleJoin(Apply(db, InsertGroupUserRole(uid, gid, rid)).db, uid, gid, rid)
  {
    var d := Apply(db, InsertGroupUserRole(uid, gid, rid)).db;
    assert Check(db, InsertGroupUserRole(uid, gid, rid)) == None;
    assert GroupUserRole(uid, gid, rid) == d.groupUserRoles[|d.groupUserRoles| - 1];
  }

  /** IsInGroup succeeds and writes true once both names resolve, its query
      runs and the membership join finds the pair. */
  lemma InGroupHeld(db: Db, username: string, groupname: string)
    requires Lookup(db, UserKind, username).Ok? && Lookup(db, GroupKind, groupname).Ok?
    requires var s := SelectGroupUser(Lookup(db, UserKind, username).value, Lookup(db, GroupKind, groupname).value);
             Check(db, s) == None && GroupUserJoin(db, s.uid, s.gid)
    ensures InGroupVerdict(db, username, groupname) == Verdict(None, Some(true))
  {
  }

  /** IsRole succeeds once the three names resolve, its query runs and the
      join finds the binding. */
  lemma RoleHeld(db: Db, username: string, groupname: string, rolename: string)
    requires Lookup(db, UserKind, username).Ok? && Lookup(db, GroupKind, groupname).Ok? &&
             Lookup(db, RoleKind, rolename).Ok?
    requires var s := SelectGroupUserRole(Lookup(db, UserKind, username).value,
                                          Lookup(db, GroupKind, groupname).value,
                                          Lookup(db, RoleKind, rolename).value);
             Check(db, s) == None && GroupUserRoleJoin(db, s.uid, s.gid, s.rid)
    ensures RoleVerdict(db, username, groupname, rolename) == Verdict(None, Some(true))
  {
  }
}
