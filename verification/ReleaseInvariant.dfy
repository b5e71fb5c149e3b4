/**
 In every reachable state the ACTIVE releases of a project are exactly the one its active
 pointer names, as long as no effect reports an error after the activation has been
 committed.  The lemmas at the end show that this exception is exact.
 */
module ReleaseInvariant {
  import opened Wrappers
  import opened ReleaseState
  import opened ReleaseMachine

  /** The promise: ACTIVE rows and the active pointer agree, the live release has a runtime,
      and the candidate is never the live release. */
  ghost predicate ActiveExact(db: Db) {
    && (forall id :: id in db.releases && db.releases[id].status == ACTIVE <==> db.active == Some(id))
    && (db.active.Some? ==> db.releases[db.active.value].runtimeRef.Some?)
    && (db.candidate.Some? ==> db.candidate != db.active)
  }

  predicate Unbuilt(status: Status) { status.BUILDING? || status.FAILED? }

  ghost predicate DbOk(db: Db) {
    && ActiveExact(db)
    && (db.candidate.Some? ==> db.candidate.value in db.releases)
    && (forall id :: id in db.releases && !Unbuilt(db.releases[id].status) ==> db.releases[id].runtimeRef.Some?)
  }

  /** A release that exists and is not live. */
  ghost predicate Spare(db: Db, id: Id) { id in db.releases && db.active != Some(id) }

  ghost predicate HasRuntime(db: Db, task: Task) {
    Spare(db, task.id) && db.releases[task.id].runtimeRef == Some(task.container)
  }

  /** The row that the build is for. */
  ghost predicate Building(db: Db, task: Task) {
    Spare(db, task.id) && db.releases[task.id].dockerName == task.dockerName && Reserved(db, task)
  }

  ghost predicate CandOk(db: Db, cand: Option<Id>) {
    cand.Some? && Spare(db, cand.value) && db.releases[cand.value].runtimeRef.Some?
  }

  /** What the values held by the worker still say about the database, effect by effect. */
  ghost predicate WorkerOk(db: Db, worker: Worker) {
    match worker
    case Idle => true
    case Busy(pc, task, loc) =>
      match pc
      case RcRead | DpBegin => !task.rollback && NewRelease(db, task)
      case RcJoinCandidate | RcWriteCandidate | RcProbe | RcPromote | RcUndo =>
        !task.rollback && NewRelease(db, task) && CandOk(db, loc.cand) && loc.active.None? && db.active.None?
      case RcJoinActive | RcWriteActive =>
        !task.rollback && NewRelease(db, task) && CandOk(db, loc.cand) && loc.active == db.active && db.active.Some?
      case RcLeaveCandidate | RcAbandon =>
        !task.rollback && NewRelease(db, task) && CandOk(db, loc.cand) && loc.active == db.active
      case DpEvict | DpLaunch | DpRecord => !task.rollback && Building(db, task)
      case RbRead | RbUnpin => task.rollback
      case RbValidate => task.rollback && HasRuntime(db, task)
      case AcLoad => HasRuntime(db, task)
      case AcReady | AcJoinCandidate | AcJoinActive | AcActivating | AcBackup | AcCanary | AcProbeCanary
         | AcPublic | AcProbePublic | AcCommit => HasRuntime(db, task) && loc.active == db.active
      case AcLeaveOld | AcDropBackup =>
        db.active == Some(task.id) && task.id in db.releases && db.releases[task.id].runtimeRef == Some(task.container)
      case CaRestore | CaLeaveCandidate | CaFail | CaClear => HasRuntime(db, task)
      case DfFail | DfClear | DfRemove =>
        !task.rollback && Spare(db, task.id)
  }

  ghost predicate Inv(s: Sys) { DbOk(s.w.db) && WorkerOk(s.w.db, s.worker) }

  /** An error reported at or after the commit of an activation or a promotion. */
  ghost predicate LateThrow(s: Sys, l: Label) {
    && l.Work? && s.worker.Busy?
    && match s.worker.pc
       case AcCommit => l.f == ThrewAfter
       case RcPromote => l.f == ThrewAfter
       case AcLeaveOld =>
         var oldBox := ContainerOf(s.w.db, s.worker.loc.active);
         Threw(l.f) && oldBox.Some? && oldBox.value != s.worker.task.container
       case AcDropBackup => Threw(l.f)
       case _ => false
  }

  // ---------------------------------------------------------------- effects

  /** All that the worker's held values rely on. */
  ghost predicate SameShape(db: Db, db': Db) {
    && db'.active == db.active
    && db'.releases.Keys == db.releases.Keys
    && (forall id :: id in db.releases ==> db'.releases[id].runtimeRef == db.releases[id].runtimeRef)
    && (forall id :: id in db.releases ==> db'.releases[id].port == db.releases[id].port)
    && (forall id :: id in db.releases ==> db'.releases[id].dockerName == db.releases[id].dockerName)
  }

  lemma SameShapeKeepsWorker(db: Db, db': Db, worker: Worker)
    requires SameShape(db, db') && WorkerOk(db, worker)
    ensures WorkerOk(db', worker)
  {
  }

  lemma SetStatusOk(db: Db, id: Id, status: Status, readiness: Readiness)
    requires DbOk(db) && Spare(db, id) && status != ACTIVE
    requires !Unbuilt(status) ==> db.releases[id].runtimeRef.Some?
    ensures var db' := SetStatus(db, id, status, readiness);
            DbOk(db') && SameShape(db, db') && db'.candidate == db.candidate
  {
  }

  lemma FreeCandidateOk(db: Db)
    requires DbOk(db)
    ensures var db' := FailUnlessActive(db, db.candidate);
            DbOk(db') && SameShape(db, db') && db'.candidate == db.candidate
  {
    if db.candidate.Some? {
      SetStatusOk(db, db.candidate.value, FAILED, REJECTED);
    }
  }

  lemma BeginOk(db: Db, task: Task)
    requires DbOk(db) && NewRelease(db, task)
    ensures var db' := BeginTx(db, task.id, task.port, task.dockerName);
            DbOk(db') && Building(db', task)
  {
    FreeCandidateOk(db);
  }

  lemma RecordOk(db: Db, task: Task)
    requires DbOk(db) && Building(db, task)
    ensures var db' := RecordTx(db, task.id, task.container);
            DbOk(db') && HasRuntime(db', task)
  {
  }

  lemma CommitOk(db: Db, id: Id)
    requires DbOk(db) && Spare(db, id) && db.releases[id].runtimeRef.Some?
    ensures var db' := CommitTx(db, id, db.active);
            DbOk(db') && db'.active == Some(id) && db'.releases.Keys == db.releases.Keys
            && (forall o :: o in db.releases ==> db'.releases[o].runtimeRef == db.releases[o].runtimeRef)
  {
    var db' := CommitTx(db, id, db.active);
    assert db'.releases.Keys == db.releases.Keys;
    assert forall o :: o in db.releases ==> db'.releases[o].runtimeRef == db.releases[o].runtimeRef;
    assert forall o :: o in db.releases && o != id && db.active != Some(o) ==> db'.releases[o] == db.releases[o];
  }

  lemma PromoteOk(db: Db, id: Id)
    requires DbOk(db) && Spare(db, id) && db.releases[id].runtimeRef.Some? && db.active.None?
    ensures var db' := PromoteTx(db, id);
            DbOk(db') && db'.active == Some(id) && db'.releases.Keys == db.releases.Keys
            && (forall o :: o in db.releases ==> db'.releases[o].runtimeRef == db.releases[o].runtimeRef)
  {
    assert PromoteTx(db, id) == CommitTx(db, id, db.active);
    CommitOk(db, id);
  }

  /** A spare release with a runtime becomes the candidate. */
  lemma PointingOk(db: Db, target: Id)
    requires DbOk(db) && Spare(db, target) && db.releases[target].runtimeRef.Some?
    ensures var row := db.releases[target].(status := CANDIDATE, readiness := PENDING, pinned := true);
            var db' := db.(releases := db.releases[target := row], candidate := Some(target));
            DbOk(db') && SameShape(db, db')
  {
  }

  lemma RollbackOk(db: Db, target: Id)
    requires DbOk(db) && CanRollBack(db, target)
    ensures DbOk(RollbackTx(db, target)) && SameShape(db, RollbackTx(db, target))
  {
    FreeCandidateOk(db);
    var freed := if db.candidate != Some(target) then FailUnlessActive(db, db.candidate) else db;
    PointingOk(freed, target);
  }

  // ---------------------------------------------------------------- one step keeps it

  /** The effects after which the worker's held values mean something new. */
  predicate Reshapes(pc: Pc) { pc.RcPromote? || pc.DpBegin? || pc.DpRecord? || pc.AcCommit? }

  lemma EffectOk(db: Db, worker: Worker)
    requires DbOk(db) && WorkerOk(db, worker) && worker.Busy? && !Reshapes(worker.pc)
    ensures var db' := DbEffect(db, worker); DbOk(db') && SameShape(db, db')
  {
    match worker.pc
    case RcAbandon => SetStatusOk(db, worker.loc.cand.value, FAILED, REJECTED);
    case AcReady => SetStatusOk(db, worker.task.id, READY, PASSED);
    case AcActivating => SetStatusOk(db, worker.task.id, ACTIVATING, db.releases[worker.task.id].readiness);
    case CaFail | DfFail => SetStatusOk(db, worker.task.id, FAILED, REJECTED);
    case _ =>
  }

  lemma ReconcileControlOk(w: World, worker: Worker, f: Fault)
    requires DbOk(w.db) && WorkerOk(w.db, worker) && worker.Busy? && ProcOf(worker.pc) == Reconciles
        && !Reshapes(worker.pc)
    ensures WorkerOk(w.db, Control(w, worker, f))
  {
  }

  lemma JobControlOk(w: World, worker: Worker, f: Fault)
    requires DbOk(w.db) && WorkerOk(w.db, worker) && worker.Busy? && ProcOf(worker.pc) == Prepares
        && !Reshapes(worker.pc)
    ensures WorkerOk(w.db, Control(w, worker, f))
  {
  }

  lemma LoadControlOk(w: World, worker: Worker, f: Fault)
    requires DbOk(w.db) && WorkerOk(w.db, worker) && worker.Busy? && (worker.pc.AcLoad? || worker.pc.AcReady?)
    ensures WorkerOk(w.db, Control(w, worker, f))
  {
  }

  lemma JoinControlOk(w: World, worker: Worker, f: Fault)
    requires DbOk(w.db) && WorkerOk(w.db, worker) && worker.Busy? && ProcOf(worker.pc) == Activates
    requires !worker.pc.AcLoad? && !worker.pc.AcReady?
    ensures WorkerOk(w.db, Control(w, worker, f))
  {
  }

  lemma SwitchControlOk(w: World, worker: Worker, f: Fault)
    requires DbOk(w.db) && WorkerOk(w.db, worker) && worker.Busy? && ProcOf(worker.pc) == Switches
        && !Reshapes(worker.pc)
    requires !worker.pc.AcLeaveOld? && !worker.pc.AcDropBackup?
    ensures WorkerOk(w.db, Control(w, worker, f))
  {
  }

  lemma CleanUpControlOk(w: World, worker: Worker, f: Fault)
    requires DbOk(w.db) && WorkerOk(w.db, worker) && worker.Busy? && (worker.pc.AcLeaveOld? || worker.pc.AcDropBackup?)
    requires !LateThrow(Sys(w, worker), Work(f))
    ensures WorkerOk(w.db, Control(w, worker, f))
  {
  }

  lemma RevertControlOk(w: World, worker: Worker, f: Fault)
    requires DbOk(w.db) && WorkerOk(w.db, worker) && worker.Busy?
    requires worker.pc.CaRestore? || worker.pc.CaLeaveCandidate? || worker.pc.CaFail? || worker.pc.CaClear?
    ensures WorkerOk(w.db, Control(w, worker, f))
  {
  }

  lemma FailControlOk(w: World, worker: Worker, f: Fault)
    requires DbOk(w.db) && WorkerOk(w.db, worker) && worker.Busy?
    requires worker.pc.DfFail? || worker.pc.DfClear? || worker.pc.DfRemove?
    ensures WorkerOk(w.db, Control(w, worker, f))
  {
  }

  lemma ControlOk(w: World, worker: Worker, f: Fault)
    requires DbOk(w.db) && WorkerOk(w.db, worker) && worker.Busy? && !Reshapes(worker.pc)
    requires !LateThrow(Sys(w, worker), Work(f))
    ensures WorkerOk(w.db, Control(w, worker, f))
  {
    match ProcOf(worker.pc)
    case Reconciles => ReconcileControlOk(w, worker, f);
    case Prepares => JobControlOk(w, worker, f);
    case Activates =>
      if worker.pc.AcLoad? || worker.pc.AcReady? {
        LoadControlOk(w, worker, f);
      } else {
        JoinControlOk(w, worker, f);
      }
    case Switches =>
      if worker.pc.AcLeaveOld? || worker.pc.AcDropBackup? {
        CleanUpControlOk(w, worker, f);
      } else {
        SwitchControlOk(w, worker, f);
      }
    case Undoes =>
      if worker.pc.DfFail? || worker.pc.DfClear? || worker.pc.DfRemove? {
        FailControlOk(w, worker, f);
      } else {
        RevertControlOk(w, worker, f);
      }
  }

  lemma PromoteStepOk(s: Sys, f: Fault)
    requires Inv(s) && s.worker.Busy? && s.worker.pc == RcPromote && f != ThrewAfter
    ensures Inv(Advance(s, f))
  {
    PromoteOk(s.w.db, s.worker.loc.cand.value);
  }

  lemma BuildStepOk(s: Sys, f: Fault)
    requires Inv(s) && s.worker.Busy? && s.worker.pc in {DpBegin, DpRecord}
    ensures Inv(Advance(s, f))
  {
    if s.worker.pc == DpBegin {
      BeginOk(s.w.db, s.worker.task);
    } else {
      RecordOk(s.w.db, s.worker.task);
    }
  }

  lemma CommitStepOk(s: Sys, f: Fault)
    requires Inv(s) && s.worker.Busy? && s.worker.pc == AcCommit && f != ThrewAfter
    ensures Inv(Advance(s, f))
  {
    CommitOk(s.w.db, s.worker.task.id);
  }

  lemma QuietStepOk(s: Sys, f: Fault, s': Sys)
    requires Inv(s) && s.worker.Busy? && !Reshapes(s.worker.pc) && !LateThrow(s, Work(f))
    requires s' == Advance(s, f)
    ensures Inv(s')
  {
    EffectOk(s.w.db, s.worker);
    ControlOk(s.w, s.worker, f);
    SameShapeKeepsWorker(s.w.db, s'.w.db, s'.worker);
  }

  lemma WorkKeepsInv(s: Sys, f: Fault)
    requires Inv(s) && s.worker.Busy? && !LateThrow(s, Work(f))
    ensures Inv(Advance(s, f))
  {
    if s.worker.pc == RcPromote {
      PromoteStepOk(s, f);
    } else if s.worker.pc in {DpBegin, DpRecord} {
      BuildStepOk(s, f);
    } else if s.worker.pc == AcCommit {
      CommitStepOk(s, f);
    } else {
      QuietStepOk(s, f, Advance(s, f));
    }
  }

  lemma StepKeepsInv(s: Sys, l: Label)
    requires Inv(s) && Enabled(s, l) && !LateThrow(s, l)
    ensures Inv(Do(s, l))
  {
    match l
    case Request(target) =>
      RollbackOk(s.w.db, target);
      SameShapeKeepsWorker(s.w.db, RollbackTx(s.w.db, target), s.worker);
    case Crash =>
    case Start(_) =>
    case Work(f) => WorkKeepsInv(s, f);
  }

  /** Over every interleaving of jobs, effects, faults, crashes and rollback requests. */
  lemma {:induction false} ActiveReleaseIsExact(run: seq<Sys>, ls: seq<Label>, i: nat)
    requires IsRun(run, ls) && Inv(run[0]) && i < |run|
    requires forall k :: 0 <= k < |ls| ==> !LateThrow(run[k], ls[k])
    ensures Inv(run[i]) && ActiveExact(run[i].w.db)
  {
    if i > 0 {
      ActiveReleaseIsExact(run, ls, i - 1);
      StepKeepsInv(run[i - 1], ls[i - 1]);
    }
  }

  // ---------------------------------------------------------------- the exception is exact

  /** Runs the worker through the given faults. */
  function Steps(s: Sys, fs: seq<Fault>): Sys
    decreases |fs|
  {
    if fs == [] || s.worker.Idle? then s else Steps(Advance(s, fs[0]), fs[1..])
  }

  /** `activate`'s handler at work on a release that is live. */
  ghost predicate Unseating(s: Sys, pc: Pc, id: Id) {
    && s.worker.Busy? && s.worker.pc == pc && s.worker.task.id == id
    && s.w.db.active == Some(id) && id in s.w.db.releases
  }

  ghost predicate Unseated(s: Sys, id: Id) {
    && s.w.db.active == Some(id) && id in s.w.db.releases
    && s.w.db.releases[id].status == FAILED && !ActiveExact(s.w.db)
  }

  lemma RestoreUnseats(s: Sys, id: Id)
    requires Unseating(s, CaRestore, id)
    ensures Unseating(Advance(s, Done), CaLeaveCandidate, id)
  {
  }

  lemma LeaveUnseats(s: Sys, id: Id)
    requires Unseating(s, CaLeaveCandidate, id)
    ensures Unseating(Advance(s, Done), CaFail, id)
  {
  }

  lemma FailUnseats(s: Sys, id: Id)
    requires Unseating(s, CaFail, id)
    ensures Unseated(Advance(s, Done), id)
  {
  }

  lemma LateThrowReachesHandler(s: Sys, f: Fault)
    requires Inv(s) && s.worker.Busy? && LateThrow(s, Work(f)) && s.worker.pc != RcPromote
    ensures Unseating(Advance(s, f), CaRestore, s.worker.task.id)
  {
  }

  /** A late error unseats the release that has just gone live, when its handler's effects
      succeed: the handler marks it FAILED while the active pointer still names it. */
  lemma LateThrowUnseatsTheLiveRelease(s: Sys, f: Fault)
    requires Inv(s) && s.worker.Busy? && LateThrow(s, Work(f)) && s.worker.pc != RcPromote
    ensures Unseated(Advance(Advance(Advance(Advance(s, f), Done), Done), Done), s.worker.task.id)
  {
    LateThrowReachesHandler(s, f);
    RestoreUnseats(Advance(s, f), s.worker.task.id);
    LeaveUnseats(Advance(Advance(s, f), Done), s.worker.task.id);
    FailUnseats(Advance(Advance(Advance(s, f), Done), Done), s.worker.task.id);
  }

  lemma LatePromotionReachesAbandon(s: Sys)
    requires Inv(s) && s.worker.Busy? && s.worker.pc == RcPromote
    ensures var s' := Advance(Advance(Advance(s, ThrewAfter), Done), Done);
            && s'.worker.Busy? && s'.worker.pc == RcAbandon && s'.worker.loc.cand == s.worker.loc.cand
            && s'.w.db == PromoteTx(s.w.db, s.worker.loc.cand.value)
  {
  }

  /** The same for a release that `reconcileProject` promotes. */
  lemma LatePromotionThrowUnseatsTheLiveRelease(s: Sys)
    requires Inv(s) && s.worker.Busy? && s.worker.pc == RcPromote
    ensures Unseated(Advance(Advance(Advance(Advance(s, ThrewAfter), Done), Done), Done), s.worker.loc.cand.value)
  {
    LatePromotionReachesAbandon(s);
  }

  // ---------------------------------------------------------------- what comes after a late error

  /** The effects of a handler, up to the end of the job or of reconciliation. */
  predicate InHandler(pc: Pc) {
    ProcOf(pc) == Undoes || pc.RbUnpin? || pc.RcUndo? || pc.RcLeaveCandidate? || pc.RcAbandon?
  }

  /** A FAILED write of a handler takes effect. */
  predicate WritesFailed(s: Sys, l: Label) {
    l.Work? && Applied(l.f) && s.worker.Busy? && (s.worker.pc.CaFail? || s.worker.pc.DfFail? || s.worker.pc.RcAbandon?)
  }

  /** The release that the handler at work gives up. */
  function GivenUp(worker: Worker): Option<Id> {
    match worker
    case Idle => None
    case Busy(pc, task, loc) => if pc.RcUndo? || pc.RcLeaveCandidate? || pc.RcAbandon? then loc.cand else Some(task.id)
  }

  /** After a late error only the status of the live release may be wrong, and the handler at
      work, if any, gives that release up. */
  ghost predicate LateWorld(s: Sys, id: Id) {
    && s.w.db.active == Some(id) && s.w.db.candidate != Some(id) && id in s.w.db.releases
    && s.w.db.releases[id].runtimeRef.Some?
    && (forall o :: o in s.w.db.releases && o != id ==> s.w.db.releases[o].status != ACTIVE)
    && (s.worker.Busy? && InHandler(s.worker.pc) && !s.worker.pc.RbUnpin? ==> GivenUp(s.worker) == Some(id))
  }

  /** Then the promise is just a matter of that status. */
  lemma LateWorldMeaning(s: Sys, id: Id)
    requires LateWorld(s, id)
    ensures ActiveExact(s.w.db) <==> s.w.db.releases[id].status == ACTIVE
  {
  }

  /** The state in which a late error leaves the worker. */
  ghost predicate LateStart(s: Sys) {
    && s.worker.Busy? && InHandler(s.worker.pc) && s.w.db.active.Some?
    && LateWorld(s, s.w.db.active.value) && ActiveExact(s.w.db)
  }

  lemma ExactIsLateStart(s: Sys, id: Id)
    requires DbOk(s.w.db) && s.w.db.active == Some(id) && s.worker.Busy? && InHandler(s.worker.pc)
    requires !s.worker.pc.RbUnpin? ==> GivenUp(s.worker) == Some(id)
    ensures LateStart(s)
  {
  }

  lemma LateCommitEffect(s: Sys)
    requires Inv(s) && s.worker.Busy? && s.worker.pc == AcCommit
    ensures var s' := Advance(s, ThrewAfter);
            && s'.worker == Busy(CaRestore, s.worker.task, s.worker.loc)
            && s'.w.db == CommitTx(s.w.db, s.worker.task.id, s.w.db.active)
  {
  }

  lemma LateCommit(s: Sys)
    requires Inv(s) && s.worker.Busy? && s.worker.pc == AcCommit
    ensures LateStart(Advance(s, ThrewAfter))
  {
    LateCommitEffect(s);
    var id := s.worker.task.id;
    assert DbOk(CommitTx(s.w.db, id, s.w.db.active)) && CommitTx(s.w.db, id, s.w.db.active).active == Some(id) by {
      CommitOk(s.w.db, id);
    }
    ExactIsLateStart(Advance(s, ThrewAfter), id);
  }

  lemma LatePromotion(s: Sys)
    requires Inv(s) && s.worker.Busy? && s.worker.pc == RcPromote
    ensures LateStart(Advance(s, ThrewAfter))
  {
    PromoteOk(s.w.db, s.worker.loc.cand.value);
    assert Advance(s, ThrewAfter).worker == Busy(RcUndo, s.worker.task, s.worker.loc);
    ExactIsLateStart(Advance(s, ThrewAfter), s.worker.loc.cand.value);
  }

  lemma LateCleanUp(s: Sys, f: Fault)
    requires Inv(s) && s.worker.Busy? && LateThrow(s, Work(f)) && (s.worker.pc.AcLeaveOld? || s.worker.pc.AcDropBackup?)
    ensures LateStart(Advance(s, f))
  {
    assert Advance(s, f).worker == Busy(CaRestore, s.worker.task, s.worker.loc) && Advance(s, f).w.db == s.w.db;
    ExactIsLateStart(Advance(s, f), s.worker.task.id);
  }

  lemma LateErrorStartsLateWorld(s: Sys, f: Fault)
    requires Inv(s) && s.worker.Busy? && LateThrow(s, Work(f))
    ensures LateStart(Advance(s, f))
  {
    if s.worker.pc.AcCommit? {
      LateCommit(s);
    } else if s.worker.pc.RcPromote? {
      LatePromotion(s);
    } else {
      LateCleanUp(s, f);
    }
  }

  lemma HandlerStep(s: Sys, f: Fault, id: Id)
    requires LateWorld(s, id) && s.worker.Busy? && InHandler(s.worker.pc)
    ensures LateWorld(Advance(s, f), id)
    ensures Advance(s, f).w.db.releases[id].status ==
              if WritesFailed(s, Work(f)) then FAILED else s.w.db.releases[id].status
  {
  }

  lemma RequestStep(s: Sys, target: Id, id: Id)
    requires LateWorld(s, id) && CanRollBack(s.w.db, target)
    ensures LateWorld(Do(s, Label.Request(target)), id)
    ensures RollbackTx(s.w.db, target).releases[id].status == s.w.db.releases[id].status
  {
  }

  /** The first effect reports an error late; then come the handler's effects, each with any
      outcome, and rollback requests and a crash at any moment, up to the next job. */
  ghost predicate LateRun(run: seq<Sys>, ls: seq<Label>) {
    && IsRun(run, ls) && |ls| > 0 && Inv(run[0]) && run[0].worker.Busy? && LateThrow(run[0], ls[0])
    && (forall k :: 0 < k < |ls| ==> !ls[k].Start? && (run[k].worker.Busy? ==> InHandler(run[k].worker.pc)))
  }

  ghost predicate FailedBetween(run: seq<Sys>, ls: seq<Label>, n: nat)
    requires |run| == |ls| + 1
  {
    exists k :: 0 < k < n && k < |ls| && WritesFailed(run[k], ls[k])
  }

  lemma LateStep(s: Sys, l: Label, id: Id)
    requires LateWorld(s, id) && Enabled(s, l) && !l.Start? && (s.worker.Busy? ==> InHandler(s.worker.pc))
    ensures LateWorld(Do(s, l), id)
    ensures Do(s, l).w.db.releases[id].status == if WritesFailed(s, l) then FAILED else s.w.db.releases[id].status
  {
    match l
    case Work(f) => HandlerStep(s, f, id);
    case Request(target) => RequestStep(s, target, id);
    case Crash =>
  }

  lemma LateStepOf(run: seq<Sys>, ls: seq<Label>, k: nat)
    requires LateRun(run, ls) && 0 < k < |ls|
    ensures Enabled(run[k], ls[k]) && run[k + 1] == Do(run[k], ls[k]) && !ls[k].Start?
    ensures run[k].worker.Busy? ==> InHandler(run[k].worker.pc)
  {
  }

  lemma LateFirst(run: seq<Sys>, ls: seq<Label>)
    requires LateRun(run, ls)
    ensures LateStart(run[1])
  {
    assert run[1] == Advance(run[0], ls[0].f);
    LateErrorStartsLateWorld(run[0], ls[0].f);
  }

  lemma FailedOneMore(run: seq<Sys>, ls: seq<Label>, n: nat)
    requires |run| == |ls| + 1 && 1 < n <= |ls|
    ensures FailedBetween(run, ls, n) <==> FailedBetween(run, ls, n - 1) || WritesFailed(run[n - 1], ls[n - 1])
  {
  }

  lemma {:induction false} LateRunStatus(run: seq<Sys>, ls: seq<Label>, n: nat)
    requires LateRun(run, ls) && 0 < n < |run|
    ensures run[1].w.db.active.Some? && LateWorld(run[n], run[1].w.db.active.value)
    ensures run[n].w.db.releases[run[1].w.db.active.value].status
         == if FailedBetween(run, ls, n) then FAILED else ACTIVE
  {
    if n == 1 {
      LateFirst(run, ls);
    } else {
      LateRunStatus(run, ls, n - 1);
      LateStepOf(run, ls, n - 1);
      LateStep(run[n - 1], ls[n - 1], run[1].w.db.active.value);
      FailedOneMore(run, ls, n);
    }
  }

  /** The exception is exact: after a late error the promise is lost exactly when a FAILED write
      of its handler takes effect, whatever else succeeds, fails, crashes or is requested. */
  lemma LateErrorIsExact(run: seq<Sys>, ls: seq<Label>, n: nat)
    requires LateRun(run, ls) && 0 < n < |run|
    ensures ActiveExact(run[n].w.db) <==> !FailedBetween(run, ls, n)
  {
    LateRunStatus(run, ls, n);
    LateWorldMeaning(run[n], run[1].w.db.active.value);
  }

  // ---------------------------------------------------------------- serialization

  lemma FreshReadKeepsExactness(db: Db, first: Id, second: Id)
    requires DbOk(db) && Spare(db, first) && Spare(db, second) && first != second
    requires db.releases[first].runtimeRef.Some? && db.releases[second].runtimeRef.Some?
    ensures var once := CommitTx(db, first, db.active);
            ActiveExact(once) && ActiveExact(CommitTx(once, second, once.active))
  {
    CommitOk(db, first);
    CommitOk(CommitTx(db, first, db.active), second);
  }

  /** Why jobs of one project are serialized: if two of them read the same live release and
      both commit, two rows end up ACTIVE. */
  lemma TwoCommitsFromOneReadBreakExactness(db: Db, first: Id, second: Id)
    requires DbOk(db) && Spare(db, first) && Spare(db, second) && first != second
    requires db.releases[first].runtimeRef.Some? && db.releases[second].runtimeRef.Some?
    ensures ActiveExact(CommitTx(db, first, db.active))
    ensures !ActiveExact(CommitTx(CommitTx(db, first, db.active), second, db.active))
    ensures var once := CommitTx(db, first, db.active);
            ActiveExact(CommitTx(once, second, once.active))
  {
    FreshReadKeepsExactness(db, first, second);
    var once := CommitTx(db, first, db.active);
    var twice := CommitTx(once, second, db.active);
    assert twice.releases[first].status == ACTIVE && twice.active == Some(second);
  }
}
