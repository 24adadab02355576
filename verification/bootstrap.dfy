/** The staged bootstrap of the concierge database (db/db.go, SetupDb).

    SetupDb opens the handle, then runs seventeen stages in a fixed order:
    the drops, the creates and the seeds.  A stage starts its steps as
    goroutines that share one WaitGroup and one error channel of capacity 3;
    each step sends exactly one error (nil on success) and then marks itself
    done.  After the barrier the stage receives one error per step and
    returns at the first non-nil one.  On any failure the deferred cleanup
    closes the channel and the handle.

    The model runs the steps of a stage one after another, in the order the
    source starts them, and receives their errors in that order. */
module Bootstrap {
  import opened Database
  import opened Models
  import Seeds
  import Queries

  /** `sync.WaitGroup`: the number of started steps not yet done. */
  class WaitGroup {
    var pending: nat

    constructor ()
      ensures pending == 0
    {
      pending := 0;
    }

    method Add(n: nat)
      modifies this
      ensures pending == old(pending) + n
    {
      pending := pending + n;
    }

    /** A step may only mark itself done once it was counted. */
    method Done()
      requires pending > 0
      modifies this
      ensures pending == old(pending) - 1
    {
      pending := pending - 1;
    }

    /** The barrier: it returns once every counted step is done.  The steps
        run to completion before it is reached, so nothing is pending. */
    method Wait()
      requires pending == 0
      ensures pending == 0
    {
    }
  }

  /** A buffered `chan error`; `None` stands for a nil error. */
  class ErrorChan {
    const capacity: nat
    var buffered: seq<Option<Error>>
    var closed: bool

    constructor (capacity: nat)
      ensures this.capacity == capacity && buffered == [] && !closed
    {
      this.capacity := capacity;
      buffered := [];
      closed := false;
    }

    /** A send that would find the buffer full blocks; every stage sends no
        more than the capacity, so the model requires room. */
    method Send(e: Option<Error>)
      requires !closed && |buffered| < capacity
      modifies this
      ensures buffered == old(buffered) + [e] && !closed
    {
      buffered := buffered + [e];
    }

    method Receive() returns (e: Option<Error>)
      requires buffered != []
      modifies this
      ensures e == old(buffered)[0] && buffered == old(buffered)[1..] && closed == old(closed)
    {
      e := buffered[0];
      buffered := buffered[1..];
    }

    method Close()
      requires !closed
      modifies this
      ensures closed && buffered == old(buffered)
    {
      closed := true;
    }
  }

  /** `make(chan error, 3)`. */
  const ErrorChanCapacity: nat := 3

  /** One step function of seeds.go. */
  datatype Step =
    | Drop(t: Table)
    | Create(t: Table)
    | SeedUsers
    | SeedRoles
    | SeedGroups
    | SeedGroupUsers
    | SeedGroupUserRoles
    | SeedRegisteredProcesses
    | SeedRegisteredProcessPermissions
    | SeedRunningProcesses

  /** The stages of SetupDb, each listing the steps it starts together. */
  const Stages: seq<seq<Step>> := [
    [Drop(GroupUserRoles)],
    [Drop(GroupUsers)],
    [Drop(RunningProcesses)],
    [Drop(RegisteredProcessPermissions)],
    [Drop(RegisteredProcesses)],
    [Drop(Users), Drop(Roles), Drop(Groups)],
    [Create(Users), Create(Roles), Create(Groups)],
    [Create(GroupUsers), Create(GroupUserRoles)],
    [Create(RegisteredProcesses)],
    [Create(RegisteredProcessPermissions)],
    [Create(RunningProcesses)],
    [SeedUsers, SeedRoles, SeedGroups],
    [SeedGroupUsers],
    [SeedGroupUserRoles],
    [SeedRegisteredProcesses],
    [SeedRegisteredProcessPermissions],
    [SeedRunningProcesses]
  ]

  /** The index of the first seed stage: stages before it only drop and
      create tables. */
  const FirstSeedStage: nat := 11

  /** The package-level values the seed steps read. */
  datatype Config = Config(users: seq<DbUser>, roles: InitDbRoles, groups: InitDbGroups)

  /** What one step does to the state and the error it sends. */
  function StepOutcome(d: Db, cfg: Config, step: Step): Outcome {
    match step
    case Drop(t) => Apply(d, DropIfExists(t))
    case Create(t) => Apply(d, CreateIfNotExists(t))
    case SeedUsers => Seeds.InsertUsersFrom(d, cfg.users, 0)
    case SeedRoles => Seeds.RolesSeed(d, cfg.roles)
    case SeedGroups => Apply(d, InsertGroup(cfg.groups.site))
    case SeedGroupUsers => Seeds.LinksFrom(d, Seeds.Membership, cfg.users, 0)
    case SeedGroupUserRoles => Seeds.LinksFrom(d, Seeds.RoleBinding, cfg.users, 0)
    case SeedRegisteredProcesses => Outcome(d, None)
    case SeedRegisteredProcessPermissions => Outcome(d, None)
    case SeedRunningProcesses => Outcome(d, None)
  }

  /** The state after the first steps of a stage, and the errors they sent,
      in order. */
  datatype Fanned = Fanned(db: Db, errs: seq<Option<Error>>)

  function StageTo(d: Db, cfg: Config, stage: seq<Step>, n: nat): (f: Fanned)
    requires n <= |stage|
    ensures |f.errs| == n
  {
    if n == 0 then Fanned(d, [])
    else
      var prior := StageTo(d, cfg, stage, n - 1);
      var o := StepOutcome(prior.db, cfg, stage[n - 1]);
      Fanned(o.db, prior.errs + [o.err])
  }

  /** The i-th error sent is what step i reports in the state the steps
      before it left, however many steps run after it. */
  lemma {:induction false} StageSends(d: Db, cfg: Config, stage: seq<Step>, n: nat, i: nat)
    requires i < n <= |stage|
    ensures StageTo(d, cfg, stage, n).errs[i] == StepOutcome(StageTo(d, cfg, stage, i).db, cfg, stage[i]).err
    decreases n
  {
    if i < n - 1 {
      StageSends(d, cfg, stage, n - 1, i);
    }
  }

  /** Every step of a stage runs, whatever the others report. */
  function StageRun(d: Db, cfg: Config, stage: seq<Step>): Fanned {
    StageTo(d, cfg, stage, |stage|)
  }

  /** Stages k.. of SetupDb: each stage runs all its steps, then the first
      error received ends the bootstrap. */
  function Progress(d: Db, cfg: Config, k: nat): Outcome
    requires k <= |Stages|
    decreases |Stages| - k
  {
    if k == |Stages| then Outcome(d, None)
    else
      var r := StageRun(d, cfg, Stages[k]);
      var e := Queries.FirstError(r.errs);
      if e.Some? then Outcome(r.db, e) else Progress(r.db, cfg, k + 1)
  }

  /** One step, dispatched to its step function. */
  method RunStep(db: Store, cfg: Config, step: Step) returns (err: Option<Error>)
    modifies db
    ensures Outcome(db.state, err) == StepOutcome(old(db.state), cfg, step)
  {
    match step
    case Drop(t) => err := Seeds.DropTable(db, t);
    case Create(t) => err := Seeds.CreateTable(db, t);
    case SeedUsers => err := Seeds.SeedUsersTable(db, cfg.users);
    case SeedRoles => err := Seeds.SeedRolesTable(db, cfg.roles);
    case SeedGroups => err := Seeds.SeedGroupsTable(db, cfg.groups);
    case SeedGroupUsers => err := Seeds.SeedGroupUsersTable(db, cfg.users);
    case SeedGroupUserRoles => err := Seeds.SeedGroupUserRolesTable(db, cfg.users);
    case SeedRegisteredProcesses => err := Seeds.SeedRegisteredProcessesTable(db);
    case SeedRegisteredProcessPermissions => err := Seeds.SeedRegisteredProcessPermissionsTable(db);
    case SeedRunningProcesses => err := Seeds.SeedRunningProcessesTable(db);
  }

  /** One stage: count the steps, run each (it sends its error, then marks
      itself done), wait at the barrier, then receive one error per step and
      return at the first non-nil one. */
  method RunStage(db: Store, cfg: Config, stage: seq<Step>, wg: WaitGroup, ch: ErrorChan)
    returns (err: Option<Error>)
    requires |stage| <= ch.capacity
    requires wg.pending == 0 && ch.buffered == [] && !ch.closed
    modifies db, wg, ch
    ensures db.state == StageRun(old(db.state), cfg, stage).db
    ensures err == Queries.FirstError(StageRun(old(db.state), cfg, stage).errs)
    ensures wg.pending == 0 && !ch.closed
    ensures err == None ==> ch.buffered == []
  {
    wg.Add(|stage|);
    var i := 0;
    while i < |stage|
      invariant 0 <= i <= |stage|
      invariant db.state == StageTo(old(db.state), cfg, stage, i).db
      invariant ch.buffered == StageTo(old(db.state), cfg, stage, i).errs
      invariant wg.pending == |stage| - i && !ch.closed
    {
      var e := RunStep(db, cfg, stage[i]);
      ch.Send(e);
      wg.Done();
      i := i + 1;
    }
    wg.Wait();
    err := Drain(ch);
  }

  /** The receive loop after the barrier: one receive per buffered error,
      returning at the first non-nil one. */
  method Drain(ch: ErrorChan) returns (err: Option<Error>)
    requires !ch.closed
    modifies ch
    ensures err == Queries.FirstError(old(ch.buffered))
    ensures err == None ==> ch.buffered == []
    ensures !ch.closed
  {
    ghost var errs := ch.buffered;
    var j := 0;
    var n := |ch.buffered|;
    while j < n
      invariant 0 <= j <= n == |errs|
      invariant ch.buffered == errs[j..] && !ch.closed
      invariant Queries.FirstError(errs) == Queries.FirstErrorFrom(errs, j)
    {
      err := ch.Receive();
      if err.Some? {
        return;
      }
      j := j + 1;
    }
    return None;
  }

  /** No stage starts more steps than the channel buffers, so no send
      blocks behind the barrier. */
  lemma StagesFitTheChannel()
    ensures forall k :: 0 <= k < |Stages| ==> 1 <= |Stages[k]| <= ErrorChanCapacity
  {
  }

  /** Stage k of SetupDb: an error ends the bootstrap with the state the
      stage left; otherwise the bootstrap goes on from that state. */
  method StageK(db: Store, cfg: Config, k: nat, wg: WaitGroup, ch: ErrorChan) returns (err: Option<Error>)
    requires k < |Stages| && |Stages[k]| <= ch.capacity
    requires wg.pending == 0 && ch.buffered == [] && !ch.closed
    modifies db, wg, ch
    ensures err.Some? ==> Outcome(db.state, err) == Progress(old(db.state), cfg, k)
    ensures err.None? ==> Progress(old(db.state), cfg, k) == Progress(db.state, cfg, k + 1)
    ensures wg.pending == 0 && !ch.closed && (err == None ==> ch.buffered == [])
  {
    err := RunStage(db, cfg, Stages[k], wg, ch);
  }

  /** Stages k.. of SetupDb, in order, returning at the first error.  The
      channel stays open and empty between stages. */
  method RunStagesFrom(db: Store, cfg: Config, k: nat, wg: WaitGroup, ch: ErrorChan) returns (err: Option<Error>)
    requires k <= |Stages| && ch.capacity == ErrorChanCapacity
    requires wg.pending == 0 && ch.buffered == [] && !ch.closed
    modifies db, wg, ch
    ensures Outcome(db.state, err) == Progress(old(db.state), cfg, k)
    ensures !ch.closed
    decreases |Stages| - k
  {
    if k == |Stages| {
      return None;
    }
    StagesFitTheChannel();
    err := StageK(db, cfg, k, wg, ch);
    if err.None? {
      err := RunStagesFrom(db, cfg, k + 1, wg, ch);
    }
  }

  /** SetupDb with the outcome of `sql.Open` given as `openErr`.  An open
      error leaves ConciergeDb nil.  Otherwise ConciergeDb is the handle.
      The first statement is the drop of the group_user_roles table under
      its configured name: when that name is empty (the zero value, before
      SetupModels succeeds) the statement fails, with the store's own failure
      if it has one and otherwise as a syntax error, and changes nothing.
      Otherwise the stages run in order; the first failing stage ends the
      bootstrap.  On an error the deferred cleanup closes the
      channel and the handle, which ConciergeDb still names.  `reset` is not
      read. */
  method SetupDb(pkg: Package, db: Store, openErr: Option<Error>, reset: bool)
    returns (handle: Store?, err: Option<Error>)
    modifies pkg, db
    ensures pkg.initUsers == old(pkg.initUsers) && pkg.initConciergeRoles == old(pkg.initConciergeRoles) &&
            pkg.initConciergeGroups == old(pkg.initConciergeGroups) &&
            pkg.conciergePermissions == old(pkg.conciergePermissions) &&
            pkg.conciergeTables == old(pkg.conciergeTables)
    ensures openErr.Some? ==>
              handle == null && err == openErr && pkg.conciergeDb == null && db.state == old(db.state)
    ensures openErr == None && NameOf(old(pkg.conciergeTables), GroupUserRoles) == "" ==>
              pkg.conciergeDb == db && handle == null &&
              err == Some(StoreError(DropIfExists(GroupUserRoles),
                                     EmptyNameCause(old(db.state), DropIfExists(GroupUserRoles)))) &&
              db.state == old(db.state).(open := false)
    ensures openErr == None && NameOf(old(pkg.conciergeTables), GroupUserRoles) != "" ==>
              var o := Progress(old(db.state),
                                Config(old(pkg.initUsers), old(pkg.initConciergeRoles), old(pkg.initConciergeGroups)),
                                0);
              pkg.conciergeDb == db && err == o.err &&
              (err == None ==> handle == db && db.state == o.db) &&
              (err.Some? ==> handle == null && db.state == o.db.(open := false))
  {
    var ch := new ErrorChan(ErrorChanCapacity);
    if openErr.Some? {
      pkg.conciergeDb := null;
      ch.Close();
      return null, openErr;
    }
    pkg.conciergeDb := db;
    if NameOf(pkg.conciergeTables, GroupUserRoles) == "" {
      var cause := EmptyNameCause(db.state, DropIfExists(GroupUserRoles));
      ch.Close();
      db.Close();
      return null, Some(StoreError(DropIfExists(GroupUserRoles), cause));
    }
    var cfg := Config(pkg.initUsers, pkg.initConciergeRoles, pkg.initConciergeGroups);
    var wg := new WaitGroup();
    err := RunStagesFrom(db, cfg, 0, wg, ch);
    ch.Close();
    if err.Some? {
      db.Close();
      return null, err;
    }
    return db, None;
  }

  // ---------------------------------------------------------------------
  // The drop and create stages

  /** The state the drop and create stages leave: every table exists,
      empty, with its SERIAL sequence restarted. */
  function EmptySchema(d: Db): Db {
    Db(d.open, d.faults, AllTables, [], [], [], [], [], [], [], [], 1, 1, 1)
  }

  /** The handle is open and no drop or create statement fails on I/O. */
  predicate SchemaHealthy(d: Db) {
    d.open && forall t: Table :: QueryFault(DropIfExists(t)) !in d.faults && QueryFault(CreateIfNotExists(t)) !in d.faults
  }

  /** The state after dropping `t`, if it exists. */
  function Gone(x: Db, t: Table): (g: Db)
    ensures g.open == x.open && g.faults == x.faults && g.tables == x.tables - {t}
  {
    if t in x.tables then Cleared(x, t).(tables := x.tables - {t}) else x
  }

  /** The tables whose foreign keys name `t`. */
  function Referrers(t: Table): (r: set<Table>)
    ensures forall a :: t in References(a) <==> a in r
  {
    match t
    case Users => {GroupUsers, GroupUserRoles, RegisteredProcesses, RunningProcesses}
    case Roles => {GroupUserRoles, RegisteredProcessPermissions}
    case Groups => {GroupUsers, GroupUserRoles, RegisteredProcessPermissions, RunningProcesses}
    case RegisteredProcesses => {RegisteredProcessPermissions, RunningProcesses}
    case _ => {}
  }

  /** A table no existing table references drops cleanly. */
  lemma DropUnreferenced(x: Db, t: Table)
    requires SchemaHealthy(x)
    requires Referrers(t) !! x.tables
    ensures Apply(x, DropIfExists(t)) == Outcome(Gone(x, t), None)
  {
    assert Check(x, DropIfExists(t)) == None;
    assert Dependents(x.tables, t) == {};
  }

  /** A missing table whose referenced tables exist is created empty. */
  lemma CreateReferenced(x: Db, t: Table)
    requires SchemaHealthy(x)
    requires t !in x.tables && References(t) <= x.tables
    ensures Apply(x, CreateIfNotExists(t)) == Outcome(Fresh(x, t), None)
  {
    assert Check(x, CreateIfNotExists(t)) == None;
  }

  lemma StageOfOne(d: Db, cfg: Config, stage: seq<Step>)
    requires |stage| == 1
    ensures var o := StepOutcome(d, cfg, stage[0]);
            StageRun(d, cfg, stage) == Fanned(o.db, [o.err])
  {
    assert StageTo(d, cfg, stage, 0) == Fanned(d, []);
  }

  lemma StageOfTwo(d: Db, cfg: Config, stage: seq<Step>)
    requires |stage| == 2
    ensures var o1 := StepOutcome(d, cfg, stage[0]);
            var o2 := StepOutcome(o1.db, cfg, stage[1]);
            StageRun(d, cfg, stage) == Fanned(o2.db, [o1.err, o2.err])
  {
    assert StageTo(d, cfg, stage, 0) == Fanned(d, []);
    var o1 := StepOutcome(d, cfg, stage[0]);
    assert StageTo(d, cfg, stage, 1) == Fanned(o1.db, [o1.err]);
  }

  lemma StageOfThree(d: Db, cfg: Config, stage: seq<Step>)
    requires |stage| == 3
    ensures var o1 := StepOutcome(d, cfg, stage[0]);
            var o2 := StepOutcome(o1.db, cfg, stage[1]);
            var o3 := StepOutcome(o2.db, cfg, stage[2]);
            StageRun(d, cfg, stage) == Fanned(o3.db, [o1.err, o2.err, o3.err])
  {
    assert StageTo(d, cfg, stage, 0) == Fanned(d, []);
    var o1 := StepOutcome(d, cfg, stage[0]);
    assert StageTo(d, cfg, stage, 1) == Fanned(o1.db, [o1.err]);
    var o2 := StepOutcome(o1.db, cfg, stage[1]);
    assert StageTo(d, cfg, stage, 2) == Fanned(o2.db, [o1.err, o2.err]);
  }

  /** A stage of one step that succeeds with state `y` hands `y` over to
      the next stage. */
  lemma SingleStepPasses(x: Db, cfg: Config, k: nat, step: Step, y: Db)
    requires k < |Stages| && Stages[k] == [step]
    requires StepOutcome(x, cfg, step) == Outcome(y, None)
    ensures Progress(x, cfg, k) == Progress(y, cfg, k + 1)
  {
    StageOfOne(x, cfg, Stages[k]);
    StagePasses(x, cfg, k);
  }

  /** The link seeds read the configured users. */
  lemma LinkSteps(x: Db, cfg: Config)
    ensures StepOutcome(x, cfg, SeedGroupUsers) == Seeds.LinksFrom(x, Seeds.Membership, cfg.users, 0)
    ensures StepOutcome(x, cfg, SeedGroupUserRoles) == Seeds.LinksFrom(x, Seeds.RoleBinding, cfg.users, 0)
  {
  }

  /** The seed stages, one by one. */
  lemma SeedStagesAre()
    ensures |Stages| == 17
    ensures Stages[11] == [SeedUsers, SeedRoles, SeedGroups]
    ensures Stages[12] == [SeedGroupUsers] && Stages[13] == [SeedGroupUserRoles]
    ensures Stages[14] == [SeedRegisteredProcesses] && Stages[15] == [SeedRegisteredProcessPermissions]
    ensures Stages[16] == [SeedRunningProcesses]
  {
  }

  /** A stage none of whose steps fails hands over to the next stage. */
  lemma StagePasses(d: Db, cfg: Config, k: nat)
    requires k < |Stages|
    requires forall i :: 0 <= i < |StageRun(d, cfg, Stages[k]).errs| ==> StageRun(d, cfg, Stages[k]).errs[i].None?
    ensures Progress(d, cfg, k) == Progress(StageRun(d, cfg, Stages[k]).db, cfg, k + 1)
  {
  }

  lemma DropStage(x: Db, cfg: Config, k: nat, t: Table)
    requires k < |Stages| && Stages[k] == [Drop(t)]
    requires SchemaHealthy(x) && Referrers(t) !! x.tables
    ensures Progress(x, cfg, k) == Progress(Gone(x, t), cfg, k + 1)
  {
    DropUnreferenced(x, t);
    StageOfOne(x, cfg, Stages[k]);
    StagePasses(x, cfg, k);
  }

  lemma CreateStage(x: Db, cfg: Config, k: nat, t: Table)
    requires k < |Stages| && Stages[k] == [Create(t)]
    requires SchemaHealthy(x) && t !in x.tables && References(t) <= x.tables
    ensures Progress(x, cfg, k) == Progress(Fresh(x, t), cfg, k + 1)
  {
    CreateReferenced(x, t);
    StageOfOne(x, cfg, Stages[k]);
    StagePasses(x, cfg, k);
  }

  /** The stage that drops users, roles and groups, once nothing references
      them. */
  lemma DropDirectoryStage(x: Db, cfg: Config)
    requires SchemaHealthy(x) && x.tables <= {Users, Roles, Groups}
    ensures Progress(x, cfg, 5) == Progress(Gone(Gone(Gone(x, Users), Roles), Groups), cfg, 6)
  {
    var x1 := Gone(x, Users);
    var x2 := Gone(x1, Roles);
    DropUnreferenced(x, Users);
    DropUnreferenced(x1, Roles);
    DropUnreferenced(x2, Groups);
    StageOfThree(x, cfg, Stages[5]);
    StagePasses(x, cfg, 5);
  }

  /** The stage that creates users, roles and groups on an empty schema. */
  lemma CreateDirectoryStage(x: Db, cfg: Config)
    requires SchemaHealthy(x) && x.tables == {}
    ensures Progress(x, cfg, 6) == Progress(Fresh(Fresh(Fresh(x, Users), Roles), Groups), cfg, 7)
  {
    var x1 := Fresh(x, Users);
    var x2 := Fresh(x1, Roles);
    CreateReferenced(x, Users);
    CreateReferenced(x1, Roles);
    CreateReferenced(x2, Groups);
    StageOfThree(x, cfg, Stages[6]);
    StagePasses(x, cfg, 6);
  }

  /** The stage that creates the two link tables. */
  lemma CreateLinkStage(x: Db, cfg: Config)
    requires SchemaHealthy(x) && x.tables == {Users, Roles, Groups}
    ensures Progress(x, cfg, 7) == Progress(Fresh(Fresh(x, GroupUsers), GroupUserRoles), cfg, 8)
  {
    var x1 := Fresh(x, GroupUsers);
    CreateReferenced(x, GroupUsers);
    CreateReferenced(x1, GroupUserRoles);
    StageOfTwo(x, cfg, Stages[7]);
    StagePasses(x, cfg, 7);
  }

  /** The tables the first five stages drop, one each, dependents first. */
  const DropOrder: seq<Table> :=
    [GroupUserRoles, GroupUsers, RunningProcesses, RegisteredProcessPermissions, RegisteredProcesses]

  /** The tables the first `k` stages drop. */
  function Dropped(k: nat): set<Table>
    requires k <= |DropOrder|
  {
    if k == 0 then {} else Dropped(k - 1) + {DropOrder[k - 1]}
  }

  /** The state after the single-drop stages k..4. */
  function DropsFrom(x: Db, k: nat): (y: Db)
    requires k <= |DropOrder|
    ensures y.open == x.open && y.faults == x.faults
    decreases |DropOrder| - k
  {
    if k == |DropOrder| then x else DropsFrom(Gone(x, DropOrder[k]), k + 1)
  }

  /** Stage k drops `DropOrder[k]`, whose referrers earlier stages dropped. */
  lemma DropOrderFacts(k: nat)
    requires k < |DropOrder|
    ensures k < |Stages| && Stages[k] == [Drop(DropOrder[k])]
    ensures Referrers(DropOrder[k]) <= Dropped(k)
  {
  }

  lemma {:induction false} SingleDrops(x: Db, cfg: Config, k: nat)
    requires k <= |DropOrder| && SchemaHealthy(x) && Dropped(k) !! x.tables
    ensures Progress(x, cfg, k) == Progress(DropsFrom(x, k), cfg, |DropOrder|)
    ensures Dropped(|DropOrder|) !! DropsFrom(x, k).tables
    decreases |DropOrder| - k
  {
    if k < |DropOrder| {
      var t := DropOrder[k];
      DropOrderFacts(k);
      DropStage(x, cfg, k, t);
      SingleDrops(Gone(x, t), cfg, k + 1);
    }
  }

  /** The tables that exist before stage 8 + i. */
  function Built(i: nat): set<Table>
    requires i <= |CreateOrder|
  {
    if i == 0 then {Users, Roles, Groups, GroupUsers, GroupUserRoles}
    else Built(i - 1) + {CreateOrder[i - 1]}
  }

  /** The tables stages 8, 9 and 10 create, one each. */
  const CreateOrder: seq<Table> := [RegisteredProcesses, RegisteredProcessPermissions, RunningProcesses]

  /** The state after the single-create stages 8 + i..10. */
  function CreatesFrom(x: Db, i: nat): (y: Db)
    requires i <= |CreateOrder|
    ensures y.open == x.open && y.faults == x.faults
    decreases |CreateOrder| - i
  {
    if i == |CreateOrder| then x else CreatesFrom(Fresh(x, CreateOrder[i]), i + 1)
  }

  /** Stage 8 + i creates `CreateOrder[i]`, a table that does not exist yet
      and whose referenced tables do. */
  lemma CreateOrderFacts(i: nat)
    requires i < |CreateOrder|
    ensures 8 + i < |Stages| && Stages[8 + i] == [Create(CreateOrder[i])]
    ensures CreateOrder[i] !in Built(i) && References(CreateOrder[i]) <= Built(i)
  {
  }

  lemma {:induction false} SingleCreates(x: Db, cfg: Config, i: nat)
    requires i <= |CreateOrder| && SchemaHealthy(x) && x.tables == Built(i)
    ensures Progress(x, cfg, 8 + i) == Progress(CreatesFrom(x, i), cfg, FirstSeedStage)
    decreases |CreateOrder| - i
  {
    if i < |CreateOrder| {
      var t := CreateOrder[i];
      CreateOrderFacts(i);
      CreateStage(x, cfg, 8 + i, t);
      SingleCreates(Fresh(x, t), cfg, i + 1);
    }
  }

  /** After the five single drops only the users, roles and groups tables
      can remain. */
  lemma DroppedLeavesDirectory(s: set<Table>)
    requires Dropped(|DropOrder|) !! s
    ensures s <= {Users, Roles, Groups}
  {
    assert Dropped(1) == {GroupUserRoles};
    assert Dropped(2) == {GroupUserRoles, GroupUsers};
    assert Dropped(3) == {GroupUserRoles, GroupUsers, RunningProcesses};
    assert Dropped(4) == {GroupUserRoles, GroupUsers, RunningProcesses, RegisteredProcessPermissions};
    assert Dropped(5) == Dropped(4) + {RegisteredProcesses};
    forall a | a in s
      ensures a in {Users, Roles, Groups}
    {
      assert a !in Dropped(5);
      match a
      case Users =>
      case Roles =>
      case Groups =>
      case _ =>
    }
  }

  /** The schema after stages 6 and 7: users, roles, groups and the two
      link tables, empty. */
  function Linked(y: Db): (z: Db)
    ensures z.open == y.open && z.faults == y.faults && z.tables == y.tables + Built(0)
  {
    Fresh(Fresh(Fresh(Fresh(Fresh(y, Users), Roles), Groups), GroupUsers), GroupUserRoles)
  }

  /** Stages 6 and 7 leave the five directory tables empty and their
      sequences restarted; the process tables are as they were. */
  lemma LinkedIsCleared(y: Db)
    ensures Linked(y) == y.(tables := y.tables + Built(0), users := [], roles := [], groups := [],
                            groupUsers := [], groupUserRoles := [], nextUid := 1, nextRid := 1, nextGid := 1)
  {
  }

  /** Stages 8, 9 and 10 create the three process tables in order. */
  lemma CreatesFromStart(x: Db)
    ensures CreatesFrom(x, 0) == Fresh(Fresh(Fresh(x, RegisteredProcesses), RegisteredProcessPermissions), RunningProcesses)
  {
    var x2 := Fresh(Fresh(x, RegisteredProcesses), RegisteredProcessPermissions);
    assert CreatesFrom(x, 0) == CreatesFrom(x2, 2);
  }

  /** Creating the three process tables leaves them empty. */
  lemma ProcessTablesCleared(x: Db)
    ensures Fresh(Fresh(Fresh(x, RegisteredProcesses), RegisteredProcessPermissions), RunningProcesses)
         == x.(tables := x.tables + {RegisteredProcesses, RegisteredProcessPermissions, RunningProcesses},
               processes := [], grants := [], running := [])
  {
    var x1 := Fresh(x, RegisteredProcesses);
    var x2 := Fresh(x1, RegisteredProcessPermissions);
    assert x1 == x.(tables := x.tables + {RegisteredProcesses}, processes := []);
    assert x2 == x1.(tables := x1.tables + {RegisteredProcessPermissions}, grants := []);
  }

  /** Creating the eight tables, in stage order, on a schema with none gives
      the empty schema. */
  lemma CreatedSchemaIsEmpty(y: Db)
    requires y.tables == {}
    ensures CreatesFrom(Linked(y), 0) == EmptySchema(y)
  {
    LinkedIsCleared(y);
    CreatesFromStart(Linked(y));
    ProcessTablesCleared(Linked(y));
    assert Built(0) + {RegisteredProcesses, RegisteredProcessPermissions, RunningProcesses} == AllTables;
  }

  /** The six drop stages leave no table. */
  lemma DropStages(d: Db, cfg: Config) returns (y: Db)
    requires SchemaHealthy(d)
    ensures Progress(d, cfg, 0) == Progress(y, cfg, 6)
    ensures y.tables == {} && y.open == d.open && y.faults == d.faults
  {
    SingleDrops(d, cfg, 0);
    var x := DropsFrom(d, 0);
    DroppedLeavesDirectory(x.tables);
    DropDirectoryStage(x, cfg);
    y := Gone(Gone(Gone(x, Users), Roles), Groups);
  }

  /** Stages 6 and 7 create the users, roles, groups and link tables. */
  lemma CreateDirectoryAndLinkStages(y: Db, cfg: Config)
    requires SchemaHealthy(y) && y.tables == {}
    ensures Progress(y, cfg, 6) == Progress(Linked(y), cfg, 8)
  {
    CreateDirectoryStage(y, cfg);
    CreateLinkStage(Fresh(Fresh(Fresh(y, Users), Roles), Groups), cfg);
  }

  /** Stages 8, 9 and 10 create the three process tables. */
  lemma CreateProcessStages(x: Db, cfg: Config)
    requires SchemaHealthy(x) && x.tables == Built(0)
    ensures Progress(x, cfg, 8) == Progress(CreatesFrom(x, 0), cfg, FirstSeedStage)
  {
    SingleCreates(x, cfg, 0);
  }

  /** The five create stages, on a schema with no table, build the empty
      schema. */
  lemma CreateStages(y: Db, cfg: Config)
    requires SchemaHealthy(y) && y.tables == {}
    ensures Progress(y, cfg, 6) == Progress(EmptySchema(y), cfg, FirstSeedStage)
  {
    CreateDirectoryAndLinkStages(y, cfg);
    CreateProcessStages(Linked(y), cfg);
    CreatedSchemaIsEmpty(y);
  }

  /** Whatever tables exist and whatever they hold, the drop and create
      stages succeed and leave the empty schema; the seeds then start from
      it. */
  lemma SchemaStagesReset(d: Db, cfg: Config)
    requires SchemaHealthy(d)
    ensures Progress(d, cfg, 0) == Progress(EmptySchema(d), cfg, FirstSeedStage)
  {
    var y := DropStages(d, cfg);
    CreateStages(y, cfg);
    assert EmptySchema(y) == EmptySchema(d);
  }
}
