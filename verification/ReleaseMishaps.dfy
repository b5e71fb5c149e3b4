/**
 Runs in which something goes wrong and is not put right: an attempt whose stack another one takes
 over, and a rollback that leaves a wrong route behind.
 */
module ReleaseMishaps {
  import opened Wrappers
  import opened ReleaseState
  import opened ReleaseMachine
  import opened ReleaseInvariant
  import opened ReleaseRouting
  import opened ReleaseRecovery
  import opened ReleaseProgress

  // ---------------------------------------------------------------- failures nobody looks at

  /** The commands that the source runs with `|| true`, or as removals that cannot fail. */
  predicate Tolerant(pc: Pc) {
    pc in {RcJoinCandidate, RcUndo, RcJoinActive, RcLeaveCandidate, DpEvict, AcJoinCandidate, AcJoinActive,
           AcLeaveOld, AcDropBackup, CaRestore, CaLeaveCandidate}
  }

  /** Where the worker goes on tells a failure from a success except for these commands, and it does
      not depend on whether a reported error came before or after its effect. */
  lemma FailuresAreSeenExactly(w: World, worker: Worker)
    requires worker.Busy?
    ensures Control(w, worker, ThrewAfter) == Control(w, worker, ThrewBefore)
    ensures Control(w, worker, Swallowed) == Control(w, worker, if Tolerant(worker.pc) then Done else ThrewBefore)
  {
  }

  // ---------------------------------------------------------------- an attempt that is left behind

  /** The beginning of the next attempt makes it the candidate with a row of its own, and fails the
      candidate before it, such as one that a crash has left BUILDING, unless that is ACTIVE. */
  lemma NextAttemptFailsTheLastExactly(s: Sys, f: Fault, o: Id)
    requires s.worker.Busy? && s.worker.pc == DpBegin && Applied(f)
    ensures var db, db', task := s.w.db, Advance(s, f).w.db, s.worker.task;
            && db'.active == db.active && db'.candidate == Some(task.id)
            && db'.releases.Keys == db.releases.Keys + {task.id}
            && db'.releases[task.id] == Release(BUILDING, PENDING, None, task.port, false, task.dockerName)
            && (o in db.releases && o != task.id ==>
                  if db.candidate == Some(o) && db.releases[o].status != ACTIVE
                  then db'.releases[o] == db.releases[o].(status := FAILED, readiness := REJECTED)
                  else db'.releases[o] == db.releases[o])
  {
  }

  // ---------------------------------------------------------------- an attempt that fails

  /** The row of an attempt that has recorded its runtime. */
  ghost predicate Recorded(db: Db, task: Task) {
    && HasRuntime(db, task) && Named(db, task.id, task.dockerName) && Reserved(db, task)
    && !db.releases[task.id].pinned
  }

  /** The attempt has given up, and is left FAILED under its runtime. */
  ghost predicate GivenUp(s: Sys, task: Task) {
    && RInv(s) && AliasesDistinct(s.w.db) && s.worker.Idle? && s.w.db.candidate.None?
    && Recorded(s.w.db, task) && s.w.db.releases[task.id].status == FAILED
    && s.w.db.releases[task.id].readiness == REJECTED && !Own(s.w.db, s.w.gw, task.id)
  }

  /** Before each effect of its cleaning up. */
  ghost predicate CleaningUp(db: Db, worker: Worker, task: Task, n: nat) {
    && worker.Busy? && worker.task == task && !task.rollback
    && Recorded(db, task)
    && (n > 0 ==> db.releases[task.id].status == FAILED && db.releases[task.id].readiness == REJECTED)
    && match n
       case 0 => worker.pc == DfFail && db.candidate == Some(task.id)
       case 1 => worker.pc == DfClear && db.candidate == Some(task.id)
       case _ => worker.pc == DfRemove && db.candidate.None?
  }

  ghost predicate GivingUp(s: Sys, task: Task, n: nat) {
    RInv(s) && AliasesDistinct(s.w.db) && CleaningUp(s.w.db, s.worker, task, n)
  }

  lemma FailKeepsRecord(db: Db, task: Task)
    requires Recorded(db, task)
    ensures Recorded(FailTx(db, task.id), task)
    ensures FailTx(db, task.id).releases[task.id].status == FAILED
    ensures FailTx(db, task.id).releases[task.id].readiness == REJECTED
    ensures FailTx(db, task.id).releases.Keys == db.releases.Keys
  {
  }

  lemma CleaningGoesOn(s: Sys, task: Task, n: nat)
    requires CleaningUp(s.w.db, s.worker, task, n) && n < 3
    ensures var s' := Advance(s, Done);
            && s'.w.db.releases.Keys == s.w.db.releases.Keys
            && if n < 2 then CleaningUp(s'.w.db, s'.worker, task, n + 1)
               else s'.worker.Idle? && s'.w.db == s.w.db && !Own(s'.w.db, s'.w.gw, task.id)
  {
    FailKeepsRecord(s.w.db, task);
  }

  lemma LoadGivesUp(s: Sys, task: Task)
    requires Thriving(s, task) && s.worker.pc == AcLoad && !task.rollback
    ensures GivingUp(Advance(s, ThrewBefore), task, 0) && Advance(s, ThrewBefore).w == s.w
  {
    StepKeepsRoute(s, Work(ThrewBefore));
  }

  lemma GivesUp(s: Sys, task: Task, n: nat)
    requires GivingUp(s, task, n) && n < 3
    ensures if n < 2 then GivingUp(Advance(s, Done), task, n + 1) else GivenUp(Advance(s, Done), task)
    ensures Advance(s, Done).w.db.releases.Keys == s.w.db.releases.Keys
  {
    StepKeepsRoute(s, Work(Done));
    CleaningGoesOn(s, task, n);
  }

  lemma {:induction false} CleansUp(s: Sys, task: Task, n: nat) returns (s': Sys)
    requires GivingUp(s, task, 0) && n <= 2
    ensures Leads(s, [] + Dones(n), s') && GivingUp(s', task, n) && s'.w.db.releases.Keys == s.w.db.releases.Keys
  {
    if n == 0 {
      LeadsNowhere(s);
      assert [] + Dones(0) == [];
      s' := s;
    } else {
      var before := CleansUp(s, task, n - 1);
      GivesUp(before, task, n - 1);
      LeadsByDone(s, [], n - 1, before);
      s' := Advance(before, Done);
    }
  }

  function FailedAttempt(task: Task): seq<Label> {
    [Start(task)] + Dones(5) + [Work(ThrewBefore)] + ([] + Dones(3))
  }

  lemma AttemptFails(s: Sys, task: Task) returns (s': Sys)
    requires Fresh(s, task)
    ensures Leads(s, FailedAttempt(task), s') && GivenUp(s', task)
    ensures s'.w.db.releases.Keys == s.w.db.releases.Keys + {task.id}
  {
    var loading := Deploys(s, task, 5);
    LoadGivesUp(loading, task);
    LeadsBy(s, [Start(task)] + Dones(5), loading, Work(ThrewBefore));
    var failing := Advance(loading, ThrewBefore);
    var removing := CleansUp(failing, task, 2);
    GivesUp(removing, task, 2);
    LeadsByDone(failing, [], 2, removing);
    s' := Advance(removing, Done);
    LeadsOn(s, [Start(task)] + Dones(5) + [Work(ThrewBefore)], failing, [] + Dones(3), s');
  }

  /** Another attempt of the same deployment, in the same stack. */
  ghost predicate Retries(db: Db, first: Task, second: Task) {
    && !second.rollback && second.id !in db.releases && second.id != first.id
    && second.container == first.container && second.dockerName == first.dockerName
    && SafeHost(second.domain) == second.domain
    && (forall a, b {:trigger SameAlias(a, b)} ::
          {a, b} <= db.releases.Keys + {first.id, second.id} && SameAlias(a, b) ==> a == b)
  }

  lemma RetryIsFresh(db: Db, s: Sys, first: Task, second: Task)
    requires GivenUp(s, first) && s.w.db.releases.Keys == db.releases.Keys + {first.id} && Retries(db, first, second)
    ensures Fresh(s, second)
  {
    var begun := BeginTx(s.w.db, second.id, second.port, second.dockerName);
    assert begun.releases.Keys == db.releases.Keys + {first.id, second.id};
    forall a, b {:trigger SameAlias(a, b)} | a in begun.releases && b in begun.releases && SameAlias(a, b)
      ensures a == b
    {
      assert {a, b} <= begun.releases.Keys;
    }
  }

  /** The live release shares its runtime with a FAILED one. */
  ghost predicate SharesWithFailed(db: Db, live: Id, failed: Id) {
    && db.active == Some(live) && failed in db.releases && db.releases[failed].status == FAILED
    && !db.releases[failed].pinned && db.candidate != Some(failed) && failed != live
    && ContainerOf(db, Some(live)).Some? && ContainerOf(db, Some(failed)) == ContainerOf(db, Some(live))
  }

  lemma RetryShares(s: Sys, s': Sys, first: Task, second: Task)
    requires GivenUp(s, first) && second.id !in s.w.db.releases && second.container == first.container
    requires Lives(s', second) && RowsKept(s.w.db, s'.w.db, second) && s'.w.db.candidate != Some(first.id)
    ensures SharesWithFailed(s'.w.db, second.id, first.id)
  {
    assert Aside(s.w.db, first.id, second);
  }

  /** All attempts of a Compose deployment use one project name.  When the first fails after its stack
      was recorded and the second succeeds, the FAILED release is left naming the live one's stack. */
  lemma RetriedStackIsShared(s: Sys, first: Task, second: Task) returns (s': Sys)
    requires Fresh(s, first) && Retries(s.w.db, first, second)
    ensures Leads(s, FailedAttempt(first) + ([Start(second)] + Dones(18)), s')
    ensures RInv(s') && SharesWithFailed(s'.w.db, second.id, first.id)
  {
    var failed := AttemptFails(s, first);
    RetryIsFresh(s.w.db, failed, first, second);
    s' := SuccessfulDeploymentGoesLive(failed, second);
    RetryShares(failed, s', first, second);
    LeadsOn(s, FailedAttempt(first), failed, [Start(second)] + Dones(18), s');
  }

  // ---------------------------------------------------------------- a rollback that fails

  /** A rollback job inside `activate` that began in `w0`, with the candidate's runtime still there. */
  ghost predicate RollingBack(w0: World, s: Sys) {
    && s.worker.Busy? && s.worker.task.rollback && Inv(s) && NetInv(s.w.db, s.w.gw)
    && Undoing(w0, s.worker.task, s)
    && s.worker.task.container in s.w.gw.running && s.w.gw.running[s.worker.task.container] == s.worker.task.id
  }

  lemma QuietKeepsNet(s: Sys, f: Fault)
    requires Inv(s) && NetInv(s.w.db, s.w.gw) && s.worker.Busy? && !Reshapes(s.worker.pc) && !Strays(s, Work(Done))
    ensures NetInv(Advance(s, f).w.db, Advance(s, f).w.gw)
  {
    EffectOk(s.w.db, s.worker);
    GwEffectKeepsNet(s.w, s.worker);
    ShapeKeepsNet(s.w.db, DbEffect(s.w.db, s.worker), GwEffect(s.w.db, s.w.gw, s.worker));
  }

  lemma UndoingOn(w0: World, s: Sys, f: Fault)
    requires RollingBack(w0, s) && s.worker.pc !in {AcCommit, CaClear} && Compensated(s.worker.pc, f)
    requires var worker' := Control(s.w, s.worker, f); worker'.Busy? && Uncommitted(worker'.pc)
    ensures Undoing(w0, s.worker.task, Advance(s, f))
  {
    var task := s.worker.task;
    match ProcOf(s.worker.pc)
    case Activates => PrepareKeepsUndoing(w0, task, s, f);
    case Switches => SwitchKeepsUndoing(w0, task, s, f);
    case _ => HandlerKeepsUndoing(w0, task, s, f);
  }

  lemma RollsBackOn(w0: World, s: Sys, f: Fault)
    requires RollingBack(w0, s) && s.worker.pc !in {AcCommit, CaClear} && Compensated(s.worker.pc, f)
    requires var worker' := Control(s.w, s.worker, f); worker'.Busy? && Uncommitted(worker'.pc)
    ensures RollingBack(w0, Advance(s, f)) && Advance(s, f).worker.task == s.worker.task
  {
    UndoingOn(w0, s, f);
    WorkKeepsInv(s, f);
    QuietKeepsNet(s, f);
  }

  lemma ActivationGoesOn(w: World, worker: Worker)
    requires WorkerOk(w.db, worker) && worker.Busy? && 5 <= Position(worker.pc) < 12
    ensures var worker' := Control(w, worker, Done);
            worker'.Busy? && Uncommitted(worker'.pc) && Position(worker'.pc) == Position(worker.pc) + 1
  {
  }

  /** The rollback that loads its candidate in `s0` is `n` effects further. */
  ghost predicate Loaded(s0: Sys, n: nat, s: Sys) {
    RollingBack(s0.w, s) && Position(s.worker.pc) == 5 + n && s0.worker.Busy? && s.worker.task == s0.worker.task
  }

  lemma LoadedOneMore(s0: Sys, n: nat, s: Sys)
    requires Loaded(s0, n, s) && n < 7
    ensures Loaded(s0, n + 1, Advance(s, Done))
  {
    ActivationGoesOn(s.w, s.worker);
    RollsBackOn(s0.w, s, Done);
  }

  /** Up to the canary probe. */
  lemma {:induction false} ReachesProbe(s: Sys, n: nat) returns (s': Sys)
    requires Loaded(s, 0, s) && n <= 7
    ensures Leads(s, [] + Dones(n), s') && Loaded(s, n, s')
  {
    if n == 0 {
      LeadsNowhere(s);
      assert [] + Dones(0) == [];
      s' := s;
    } else {
      var before := ReachesProbe(s, n - 1);
      LoadedOneMore(s, n - 1, before);
      LeadsByDone(s, [], n - 1, before);
      s' := Advance(before, Done);
    }
  }

  lemma ProbeFails(w0: World, s: Sys)
    requires RollingBack(w0, s) && s.worker.pc == AcProbeCanary
    ensures var s' := Advance(s, ThrewBefore);
            RollingBack(w0, s') && s'.worker.pc == CaRestore && s'.worker.task == s.worker.task
  {
    RollsBackOn(w0, s, ThrewBefore);
  }

  function HandlerPc(n: nat): Pc {
    match n
    case 0 => CaRestore
    case 1 => CaLeaveCandidate
    case 2 => CaFail
    case _ => CaClear
  }

  lemma HandlerGoesOn(w0: World, s: Sys, n: nat)
    requires RollingBack(w0, s) && n < 3 && s.worker.pc == HandlerPc(n)
    ensures var s' := Advance(s, Done);
            RollingBack(w0, s') && s'.worker.task == s.worker.task && s'.worker.pc == HandlerPc(n + 1)
  {
    RollsBackOn(w0, s, Done);
  }

  lemma ClearGoesOn(w0: World, s: Sys)
    requires RollingBack(w0, s) && s.worker.pc == CaClear && DbOk(w0.db)
    requires w0.db.candidate == Some(s.worker.task.id)
    ensures var s' := Advance(s, Done);
            && s'.worker.Busy? && s'.worker.pc == RbUnpin && Inv(s') && NetInv(s'.w.db, s'.w.gw)
            && Undone(w0, s'.w, s.worker.task)
            && (Repairable(s'.w) <==> RouteOk(w0.db, w0.gw.route))
  {
    HandlerFinishesUndoing(w0, s.worker.task, s);
    WorkKeepsInv(s, Done);
    QuietKeepsNet(s, Done);
    RepairableWhenUndone(w0, Advance(s, Done).w, s.worker.task);
  }

  lemma UnpinGoesOn(s: Sys)
    requires Inv(s) && NetInv(s.w.db, s.w.gw) && RouteShape(s.w) && s.worker.Busy? && s.worker.pc == RbUnpin
    ensures var s' := Advance(s, Done);
            Resting(s') && (Repairable(s'.w) <==> Repairable(s.w))
  {
    WorkKeepsInv(s, Done);
    QuietKeepsNet(s, Done);
  }

  /** A project between jobs whose live release is not the one its route file names: that one is
      spare, and runs. */
  ghost predicate Misrouted(s: Sys, id: Id) {
    && Resting(s) && s.w.db.active.Some? && CanRollBack(s.w.db, id) && Own(s.w.db, s.w.gw, id)
    && s.w.gw.route.Some? && s.w.gw.route.value.stable.owner == id
  }

  lemma PublicWriteMisroutes(s: Sys, task: Task)
    requires Thriving(s, task) && Position(s.worker.pc) == 14 && s.w.db.active.Some?
    ensures Misrouted(Do(s, Crash), task.id)
  {
    CrashKeepsRoute(s);
  }

  /** A deploy job that crashes right after its public write leaves the project so. */
  lemma CrashMisroutes(s: Sys, task: Task) returns (s': Sys)
    requires Fresh(s, task) && s.w.db.active.Some?
    ensures Leads(s, [Start(task)] + Dones(14) + [Crash], s') && Misrouted(s', task.id)
  {
    var written := Deploys(s, task, 14);
    PublicWriteMisroutes(written, task);
    LeadsBy(s, [Start(task)] + Dones(14), written, Crash);
    s' := Do(written, Crash);
  }

  lemma RequestKeepsMisrouted(s: Sys, id: Id)
    requires Misrouted(s, id)
    ensures var s' := Do(s, Label.Request(id)); Misrouted(s', id) && s'.w.db.candidate == Some(id)
  {
    RequestBringsRepair(s, id);
    RollbackOk(s.w.db, id);
  }

  /** A rollback job for it begins. */
  lemma RollbackBegins(s: Sys, id: Id, back: Task)
    requires Misrouted(s, id) && s.w.db.candidate == Some(id) && back.rollback
    ensures var s' := Advance(Advance(Do(s, Start(back)), Done), Done);
            && s'.w == s.w && RollingBack(s'.w, s') && s'.worker.pc == AcLoad && s'.worker.task.id == id
            && Advance(Do(s, Start(back)), Done).worker.Busy?
  {
  }

  lemma MisroutedBegins(s: Sys, id: Id, back: Task) returns (s': Sys)
    requires Misrouted(s, id) && back.rollback
    ensures Leads(s, Beginning(id, back), s') && Misrouted(Sys(s'.w, Idle), id) && s'.w.db.candidate == Some(id)
    ensures RollingBack(s'.w, s') && s'.worker.pc == AcLoad && s'.worker.task.id == id
  {
    var requested := Do(s, Label.Request(id));
    RequestKeepsMisrouted(s, id);
    RollbackBegins(requested, id, back);
    BeginningLeads(s, id, back);
    s' := Advance(Advance(Requested(s, id, back), Done), Done);
  }

  lemma {:induction false} HandlerReaches(w0: World, s: Sys, n: nat) returns (s': Sys)
    requires RollingBack(w0, s) && s.worker.pc == AcProbeCanary && n <= 3
    ensures Leads(s, [Work(ThrewBefore)] + Dones(n), s')
    ensures RollingBack(w0, s') && s'.worker.task == s.worker.task && s'.worker.pc == HandlerPc(n)
  {
    if n == 0 {
      ProbeFails(w0, s);
      StartLeads(s, Work(ThrewBefore));
      s' := Advance(s, ThrewBefore);
    } else {
      var before := HandlerReaches(w0, s, n - 1);
      HandlerGoesOn(w0, before, n - 1);
      LeadsByDone(s, [Work(ThrewBefore)], n - 1, before);
      s' := Advance(before, Done);
    }
  }

  lemma UndoneKeepsShape(before: World, after: World, task: Task)
    requires RouteShape(before) && Undone(before, after, task) && before.db.active != Some(task.id)
    requires before.db.active.Some? ==> before.db.active.value in before.db.releases
    ensures RouteShape(after)
  {
  }

  lemma ClearThenRests(w0: World, s: Sys)
    requires RollingBack(w0, s) && s.worker.pc == CaClear && DbOk(w0.db) && RouteShape(w0)
    requires w0.db.candidate == Some(s.worker.task.id)
    ensures var unpinning := Advance(s, Done);
            && unpinning.worker.Busy? && Resting(Advance(unpinning, Done))
            && (Repairable(Advance(unpinning, Done).w) <==> RouteOk(w0.db, w0.gw.route))
  {
    ClearGoesOn(w0, s);
    UndoneKeepsShape(w0, Advance(s, Done).w, s.worker.task);
    UnpinGoesOn(Advance(s, Done));
  }

  /** The canary probe fails and the handler, all of whose effects take place, runs to its end. */
  lemma HandlerLeads(w0: World, s: Sys) returns (s': Sys)
    requires RollingBack(w0, s) && s.worker.pc == AcProbeCanary && DbOk(w0.db) && RouteShape(w0)
    requires w0.db.candidate == Some(s.worker.task.id)
    ensures Leads(s, [Work(ThrewBefore)] + Dones(5), s')
    ensures Resting(s') && (Repairable(s'.w) <==> RouteOk(w0.db, w0.gw.route))
  {
    var clearing := HandlerReaches(w0, s, 3);
    ClearThenRests(w0, clearing);
    LeadsByDone(s, [Work(ThrewBefore)], 3, clearing);
    LeadsByDone(s, [Work(ThrewBefore)], 4, Advance(clearing, Done));
    s' := Advance(Advance(clearing, Done), Done);
  }

  function FailedRollback(id: Id, back: Task): seq<Label> {
    Beginning(id, back) + Dones(7) + ([Work(ThrewBefore)] + Dones(5))
  }

  /** A rollback to the release of a misrouted project whose canary probe fails ends with the wrong
      route in place and no candidate left. */
  lemma FailedRollbackLeads(s: Sys, id: Id, back: Task) returns (s': Sys)
    requires Misrouted(s, id) && back.rollback
    ensures Leads(s, FailedRollback(id, back), s') && Resting(s') && !Repairable(s'.w)
  {
    var loading := MisroutedBegins(s, id, back);
    var probing := ReachesProbe(loading, 7);
    assert [] + Dones(7) == Dones(7);
    s' := HandlerLeads(loading.w, probing);
    LeadsOn(s, Beginning(id, back), loading, Dones(7), probing);
    LeadsOn(s, Beginning(id, back) + Dones(7), probing, [Work(ThrewBefore)] + Dones(5), s');
  }

  /** From any project with a live release and any new deployment: its job crashes after the public
      write, its release is requested back, and the rollback's canary probe fails.  The project is
      then at rest with a route that the next reconciliation does not repair. */
  lemma ForeignRouteIsReachable(s: Sys, task: Task, back: Task) returns (s': Sys)
    requires Fresh(s, task) && s.w.db.active.Some? && back.rollback
    ensures Leads(s, [Start(task)] + Dones(14) + [Crash] + FailedRollback(task.id, back), s')
    ensures Resting(s') && !Repairable(s'.w)
  {
    var crashed := CrashMisroutes(s, task);
    s' := FailedRollbackLeads(crashed, task.id, back);
    LeadsOn(s, [Start(task)] + Dones(14) + [Crash], crashed, FailedRollback(task.id, back), s');
  }

  const FIRST := Task(false, "a", "d", "token", "container-a", 3000, "df-a")
  const SECOND := Task(false, "b", "d", "token", "container-b", 3000, "df-b")
  const BACK := Task(true, "b", "d", "token", "container-b", 3000, "df-b")

  lemma NamesOfTheTwo()
    ensures SafeHost("d") == "d" && !SameAlias("a", "b")
  {
    assert Keep("a", IsAlnum) == "a" && Keep("b", IsAlnum) == "b";
    assert Lower("a") == "a" && Lower("b") == "b";
    assert Alias("a")[7] == 'a' && Alias("b")[7] == 'b';
  }

  lemma FirstIsFresh()
    ensures Fresh(EMPTY, FIRST)
  {
    EmptyIsInOrder();
    NamesOfTheTwo();
  }

  lemma SecondIsFresh(s: Sys)
    requires Lives(s, FIRST) && s.w.db.releases.Keys == {"a"}
    ensures Fresh(s, SECOND)
  {
    NamesOfTheTwo();
    assert BeginTx(s.w.db, "b", 3000, "df-b").releases.Keys == {"a", "b"};
  }

  /** Such a project is reached from nothing: by a first deployment, and then as above. */
  lemma ForeignRouteExists() returns (s': Sys)
    ensures Leads(EMPTY, [Start(FIRST)] + Dones(18)
                         + ([Start(SECOND)] + Dones(14) + [Crash] + FailedRollback("b", BACK)), s')
    ensures Resting(s') && !Repairable(s'.w)
  {
    FirstIsFresh();
    var live := SuccessfulDeploymentGoesLive(EMPTY, FIRST);
    SecondIsFresh(live);
    s' := ForeignRouteIsReachable(live, SECOND, BACK);
    LeadsOn(EMPTY, [Start(FIRST)] + Dones(18), live,
        [Start(SECOND)] + Dones(14) + [Crash] + FailedRollback("b", BACK), s');
  }
}
