/**
 The release protocol of one project as a machine.  A worker holds the project lock and
 walks through `reconcileProject`, `begin`, the build, `recordRuntime` and `activate`
 (a deploy job), or through `executeRollback` and `activate` (a rollback job), one atomic
 effect at a time.  Between any two effects the worker may crash, and a rollback request
 may rewrite the candidate pointer.
 */
module ReleaseMachine {
  import opened Wrappers
  import opened ReleaseState

  /** How one effect turned out.  `Swallowed` is a command whose failure the source ignores;
      where the source checks the result it behaves like `ThrewBefore`.  `ThrewAfter` is an
      effect that took place although its caller saw an error (a lost reply). */
  datatype Fault = Done | Swallowed | ThrewBefore | ThrewAfter

  predicate Applied(f: Fault) { f.Done? || f.ThrewAfter? }
  predicate Threw(f: Fault) { f.ThrewBefore? || f.ThrewAfter? }

  datatype Pc =
    // reconcileProject
    | RcRead | RcJoinCandidate | RcWriteCandidate | RcProbe | RcPromote | RcUndo
    | RcJoinActive | RcWriteActive | RcLeaveCandidate | RcAbandon
    // executeDeployment up to activate
    | DpBegin | DpEvict | DpLaunch | DpRecord
    // executeRollback up to activate
    | RbRead | RbValidate
    // activate, before and inside its try block
    | AcLoad | AcReady | AcJoinCandidate | AcJoinActive | AcActivating
    | AcBackup | AcCanary | AcProbeCanary | AcPublic | AcProbePublic | AcCommit | AcLeaveOld | AcDropBackup
    // activate's catch block
    | CaRestore | CaLeaveCandidate | CaFail | CaClear
    // executeDeployment's catch block, executeRollback's finally block
    | DfFail | DfClear | DfRemove
    | RbUnpin

  /** What a job is about: the release it builds or activates, and the values fixed for it. */
  datatype Task = Task(
    rollback: bool, id: Id, domain: string, token: string, container: Container, port: nat, dockerName: string)

  /** Values a procedure read earlier and still holds. */
  datatype Locals = Locals(active: Option<Id>, stable: Option<Backend>, cand: Option<Id>)

  const NO_LOCALS := Locals(None, None, None)

  datatype Worker = Idle | Busy(pc: Pc, task: Task, loc: Locals)

  datatype Sys = Sys(w: World, worker: Worker)

  datatype Label = Work(f: Fault) | Request(target: Id) | Crash | Start(task: Task)

  predicate Live(status: Status) { status.CANDIDATE? || status.READY? || status.ACTIVATING? }

  predicate LiveCandidate(db: Db) {
    db.candidate.Some? && db.candidate.value in db.releases && Live(db.releases[db.candidate.value].status)
  }

  /** Only attempts of one deployment can get the same runtime: a Compose stack of one name. */
  predicate Reserved(db: Db, task: Task) {
    forall o :: o in db.releases && db.releases[o].runtimeRef == Some(task.container) ==>
      db.releases[o].dockerName == task.dockerName
  }

  predicate NewRelease(db: Db, task: Task) { task.id !in db.releases && Reserved(db, task) }

  predicate Enabled(s: Sys, l: Label) {
    match l
    case Work(_) => s.worker.Busy?
    case Request(target) => CanRollBack(s.w.db, target)
    case Crash => true
    case Start(task) => s.worker.Idle? && (!task.rollback ==> NewRelease(s.w.db, task))
  }

  // ---------------------------------------------------------------- effects

  function ContainerOf(db: Db, id: Option<Id>): Option<Container> {
    if id.Some? && id.value in db.releases then db.releases[id.value].runtimeRef else None
  }

  function PortOf(db: Db, id: Option<Id>): nat {
    if id.Some? && id.value in db.releases then db.releases[id.value].port else 0
  }

  /** The runtime of an earlier live release, unless the new one runs in it too. */
  function OldBox(db: Db, live: Option<Id>, task: Task): Option<Container> {
    var box := ContainerOf(db, live);
    if box == Some(task.container) then None else box
  }

  /** What the worker's next effect does to the database when it takes place. */
  function DbEffect(db: Db, worker: Worker): Db {
    match worker
    case Idle => db
    case Busy(pc, task, loc) =>
      match pc
      case RcPromote => if loc.cand.Some? then PromoteTx(db, loc.cand.value) else db
      case RcAbandon => if loc.cand.Some? then AbandonTx(db, loc.cand.value) else db
      case DpBegin => BeginTx(db, task.id, task.port, task.dockerName)
      case DpRecord => RecordTx(db, task.id, task.container)
      case RbUnpin => UnpinTx(db, loc.cand)
      case AcReady => SetStatus(db, task.id, READY, PASSED)
      case AcActivating => ActivatingTx(db, task.id)
      case AcCommit => CommitTx(db, task.id, loc.active)
      case CaFail | DfFail => FailTx(db, task.id)
      case CaClear | DfClear => ClearTx(db, task.id)
      case _ => db
  }

  function JoinAs(db: Db, gw: Gateway, id: Option<Id>): Gateway {
    var box := ContainerOf(db, id);
    if box.Some? then Join(gw, box.value, id.value) else gw
  }

  function LeaveAs(db: Db, gw: Gateway, id: Option<Id>): Gateway {
    var box := ContainerOf(db, id);
    if box.Some? then Leave(gw, box.value) else gw
  }

  function WriteFor(db: Db, gw: Gateway, domain: string, id: Option<Id>): Gateway {
    if id.Some? then WriteRoute(gw, PublicRoute(domain, id.value, PortOf(db, id))) else gw
  }

  /** What it does to the gateway. */
  function GwEffect(db: Db, gw: Gateway, worker: Worker): Gateway {
    match worker
    case Idle => gw
    case Busy(pc, task, loc) =>
      match pc
      case RcJoinCandidate => JoinAs(db, gw, loc.cand)
      case RcWriteCandidate => WriteFor(db, gw, task.domain, loc.cand)
      case RcUndo => LeaveAs(db, gw.(route := None), loc.cand)
      case RcJoinActive => JoinAs(db, gw, loc.active)
      case RcWriteActive => WriteFor(db, gw, task.domain, loc.active)
      case RcLeaveCandidate => LeaveAs(db, gw, loc.cand)
      case DpEvict => Evict(db, gw, task.dockerName)
      case DpLaunch =>
        if NameFree(db, gw, task.dockerName, task.container) then Launch(gw, task.container, task.id) else gw
      case AcJoinCandidate => Join(gw, task.container, task.id)
      case AcJoinActive => JoinAs(db, gw, loc.active)
      case AcBackup => Backup(gw)
      case AcCanary => WriteRoute(gw, RenderRoute(task.domain, task.id, task.port, Some(task.token), loc.stable))
      case AcPublic => WriteRoute(gw, PublicRoute(task.domain, task.id, task.port))
      case AcLeaveOld => if ContainerOf(db, loc.active) == Some(task.container) then gw else LeaveAs(db, gw, loc.active)
      case AcDropBackup => gw.(backup := None)
      case CaRestore => Restore(gw)
      case CaLeaveCandidate => Leave(gw, task.container)
      case DfRemove => Remove(gw, task.container, task.id)
      case _ => gw
  }

  function Effect(w: World, worker: Worker): World {
    World(DbEffect(w.db, worker), GwEffect(w.db, w.gw, worker))
  }

  // ---------------------------------------------------------------- control

  /** A step whose failure is always reported. */
  function Strict(f: Fault, ok: Pc, bad: Pc): Pc { if f.Done? then ok else bad }

  /** A step whose remote failure is swallowed. */
  function Lenient(f: Fault, ok: Pc, bad: Pc): Pc { if Threw(f) then bad else ok }

  /** Where `activate` leaves its caller when it throws. */
  function AfterThrow(task: Task): Pc { if task.rollback then RbUnpin else DfFail }

  /** Where `reconcileProject` goes after reading the project. */
  function AfterRead(db: Db, task: Task): Worker {
    if !LiveCandidate(db) then Busy(DpBegin, task, NO_LOCALS)
    else
      Busy(if db.active.None? && ContainerOf(db, db.candidate).Some? then RcJoinCandidate
           else if ContainerOf(db, db.active).Some? then RcJoinActive
           else RcLeaveCandidate,
           task, Locals(db.active, None, db.candidate))
  }

  function ReconcileControl(w: World, pc: Pc, task: Task, loc: Locals, f: Fault): Worker {
    match pc
    case RcRead => if f.Done? then AfterRead(w.db, task) else Idle
    case RcJoinCandidate => if Threw(f) then Idle else Busy(RcWriteCandidate, task, loc)
    case RcWriteCandidate => Busy(Strict(f, RcProbe, RcUndo), task, loc)
    case RcProbe =>
      Busy(if f.Done? && Answered(w.gw, ReleaseState.Request(task.domain, None)) then RcPromote else RcUndo, task, loc)
    case RcPromote => Busy(Strict(f, DpBegin, RcUndo), task, loc)
    case RcUndo => if Threw(f) then Idle else Busy(RcLeaveCandidate, task, loc)
    case RcJoinActive => if Threw(f) then Idle else Busy(RcWriteActive, task, loc)
    case RcWriteActive => if f.Done? then Busy(RcLeaveCandidate, task, loc) else Idle
    case RcLeaveCandidate => if Threw(f) then Idle else Busy(RcAbandon, task, loc)
    case RcAbandon => if f.Done? then Busy(DpBegin, task, loc) else Idle
    case _ => Idle
  }

  function JobControl(w: World, pc: Pc, task: Task, loc: Locals, f: Fault): Worker {
    match pc
    case DpBegin => if f.Done? then Busy(DpEvict, task, loc) else Idle
    case DpEvict => Busy(Lenient(f, DpLaunch, DfFail), task, loc)
    case DpLaunch =>
      Busy(if f.Done? && NameFree(w.db, w.gw, task.dockerName, task.container) then DpRecord else DfFail, task, loc)
    case DpRecord => Busy(Strict(f, AcLoad, DfFail), task, loc)
    case RbRead =>
      var box := ContainerOf(w.db, w.db.candidate);
      if !f.Done? || box.None? then Idle
      else Busy(RbValidate,
                task.(id := w.db.candidate.value, container := box.value, port := PortOf(w.db, w.db.candidate)),
                Locals(None, None, w.db.candidate))
    case RbValidate => Busy(Strict(f, AcLoad, RbUnpin), task, loc)
    case _ => Idle
  }

  function ActivateControl(w: World, pc: Pc, task: Task, loc: Locals, f: Fault): Worker {
    match pc
    case AcLoad =>
      if !f.Done? || ContainerOf(w.db, Some(task.id)).None? then Busy(AfterThrow(task), task, loc)
      else Busy(AcReady, task, Locals(w.db.active, None, loc.cand))
    case AcReady => Busy(Strict(f, AcJoinCandidate, AfterThrow(task)), task, loc)
    case AcJoinCandidate => Busy(Lenient(f, AcJoinActive, AfterThrow(task)), task, loc)
    case AcJoinActive =>
      if ContainerOf(w.db, loc.active).None? then Busy(AcActivating, task, loc)
      else if Threw(f) then Busy(AfterThrow(task), task, loc)
      else Busy(AcActivating, task, loc.(stable := Some(Backend(loc.active.value, PortOf(w.db, loc.active)))))
    case AcActivating => Busy(Strict(f, AcBackup, AfterThrow(task)), task, loc)
    case _ => Idle
  }

  function SwitchControl(w: World, pc: Pc, task: Task, loc: Locals, f: Fault): Worker {
    match pc
    case AcBackup => Busy(Strict(f, AcCanary, CaRestore), task, loc)
    case AcCanary => Busy(Strict(f, AcProbeCanary, CaRestore), task, loc)
    case AcProbeCanary =>
      var answered := Answered(w.gw, ReleaseState.Request(task.domain, Some(task.token)));
      Busy(if f.Done? && answered then AcPublic else CaRestore, task, loc)
    case AcPublic => Busy(Strict(f, AcProbePublic, CaRestore), task, loc)
    case AcProbePublic =>
      var answered := Answered(w.gw, ReleaseState.Request(task.domain, None));
      Busy(if f.Done? && answered then AcCommit else CaRestore, task, loc)
    case AcCommit => Busy(Strict(f, AcLeaveOld, CaRestore), task, loc)
    case AcLeaveOld =>
      var before := ContainerOf(w.db, loc.active);
      if before.None? || before.value == task.container then Busy(AcDropBackup, task, loc)
      else Busy(Lenient(f, AcDropBackup, CaRestore), task, loc)
    case AcDropBackup =>
      if Threw(f) then Busy(CaRestore, task, loc) else if task.rollback then Busy(RbUnpin, task, loc) else Idle
    case _ => Idle
  }

  function UndoControl(pc: Pc, task: Task, loc: Locals, f: Fault): Worker {
    match pc
    case CaRestore => Busy(Lenient(f, CaLeaveCandidate, AfterThrow(task)), task, loc)
    case CaLeaveCandidate => Busy(Lenient(f, CaFail, AfterThrow(task)), task, loc)
    case CaFail => Busy(Strict(f, CaClear, AfterThrow(task)), task, loc)
    case CaClear => Busy(AfterThrow(task), task, loc)
    case DfFail => Busy(Strict(f, DfClear, DfRemove), task, loc)
    case DfClear => if f.Done? then Busy(DfRemove, task, loc) else Idle
    case _ => Idle
  }

  datatype Proc = Reconciles | Prepares | Activates | Switches | Undoes

  function ProcOf(pc: Pc): Proc {
    match pc
    case RcRead | RcJoinCandidate | RcWriteCandidate | RcProbe | RcPromote | RcUndo
       | RcJoinActive | RcWriteActive | RcLeaveCandidate | RcAbandon => Reconciles
    case DpBegin | DpEvict | DpLaunch | DpRecord | RbRead | RbValidate | RbUnpin => Prepares
    case AcLoad | AcReady | AcJoinCandidate | AcJoinActive | AcActivating => Activates
    case AcBackup | AcCanary | AcProbeCanary | AcPublic
       | AcProbePublic | AcCommit | AcLeaveOld | AcDropBackup => Switches
    case CaRestore | CaLeaveCandidate | CaFail | CaClear | DfFail | DfClear | DfRemove => Undoes
  }

  /** Where the worker goes after an effect that turned out as `f`. */
  function Control(w: World, worker: Worker, f: Fault): Worker {
    match worker
    case Idle => Idle
    case Busy(pc, task, loc) =>
      match ProcOf(pc)
      case Reconciles => ReconcileControl(w, pc, task, loc, f)
      case Prepares => JobControl(w, pc, task, loc, f)
      case Activates => ActivateControl(w, pc, task, loc, f)
      case Switches => SwitchControl(w, pc, task, loc, f)
      case Undoes => UndoControl(pc, task, loc, f)
  }

  /** The world after an effect that turned out as `f`. */
  function After(w: World, worker: Worker, f: Fault): World {
    if Applied(f) then Effect(w, worker) else w
  }

  /** One effect of the worker. */
  function Advance(s: Sys, f: Fault): Sys {
    Sys(After(s.w, s.worker, f), Control(s.w, s.worker, f))
  }

  function Do(s: Sys, l: Label): Sys
    requires Enabled(s, l)
  {
    match l
    case Work(f) => Advance(s, f)
    case Request(target) => s.(w := s.w.(db := RollbackTx(s.w.db, target)))
    case Crash => s.(worker := Idle)
    case Start(task) => s.(worker := Busy(if task.rollback then RbRead else RcRead, task, NO_LOCALS))
  }

  /** `run[0]` is the first state and every later one follows by the label before it. */
  ghost predicate IsRun(run: seq<Sys>, ls: seq<Label>) {
    && |run| == |ls| + 1
    && forall i :: 0 <= i < |ls| ==> Enabled(run[i], ls[i]) && run[i + 1] == Do(run[i], ls[i])
  }

  /** A project before its first deployment. */
  const EMPTY := Sys(World(Db(map[], None, None), Gateway(None, None, map[], map[])), Idle)
}
