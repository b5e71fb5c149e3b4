/**
 What jobs come to when nothing goes wrong, and a run that ends with a route file nobody repairs.
 */
module ReleaseProgress {
  import opened Wrappers
  import opened ReleaseState
  import opened ReleaseMachine
  import opened ReleaseInvariant
  import opened ReleaseRouting
  import opened ReleaseRecovery

  /** Some run with these labels goes from one state to the other. */
  ghost predicate Leads(s: Sys, ls: seq<Label>, s': Sys) {
    exists run :: IsRun(run, ls) && run[0] == s && run[|ls|] == s'
  }

  lemma LeadsNowhere(s: Sys)
    ensures Leads(s, [], s)
  {
    assert IsRun([s], []);
  }

  lemma LeadsBy(s: Sys, ls: seq<Label>, s': Sys, l: Label)
    requires Leads(s, ls, s') && Enabled(s', l)
    ensures Leads(s, ls + [l], Do(s', l))
  {
    var run :| IsRun(run, ls) && run[0] == s && run[|ls|] == s';
    var longer := run + [Do(s', l)];
    assert IsRun(longer, ls + [l]);
  }

  function Dones(n: nat): seq<Label> { seq(n, _ => Work(Done)) }

  lemma LeadsByDone(s: Sys, ls: seq<Label>, n: nat, s': Sys)
    requires Leads(s, ls + Dones(n), s') && s'.worker.Busy?
    ensures Leads(s, ls + Dones(n + 1), Advance(s', Done))
  {
    LeadsBy(s, ls + Dones(n), s', Work(Done));
    assert ls + Dones(n) + [Work(Done)] == ls + Dones(n + 1);
  }

  lemma StartLeads(s: Sys, l: Label)
    requires Enabled(s, l)
    ensures Leads(s, [l] + Dones(0), Do(s, l))
  {
    LeadsNowhere(s);
    LeadsBy(s, [], s, l);
    assert [] + [l] == [l] + Dones(0);
  }

  lemma RunsJoin(a: seq<Sys>, ls: seq<Label>, b: seq<Sys>, more: seq<Label>)
    requires IsRun(a, ls) && IsRun(b, more) && a[|ls|] == b[0]
    ensures IsRun(a + b[1..], ls + more) && (a + b[1..])[|ls + more|] == b[|more|]
  {
    var c, n := a + b[1..], |ls|;
    forall i | 0 <= i < |ls + more|
      ensures Enabled(c[i], (ls + more)[i]) && c[i + 1] == Do(c[i], (ls + more)[i])
    {
      if i < n {
        assert c[i] == a[i] && c[i + 1] == a[i + 1] && (ls + more)[i] == ls[i];
      } else {
        assert c[i] == b[i - n] && c[i + 1] == b[i - n + 1] && (ls + more)[i] == more[i - n];
      }
    }
  }

  lemma LeadsOn(s: Sys, ls: seq<Label>, m: Sys, more: seq<Label>, s': Sys)
    requires Leads(s, ls, m) && Leads(m, more, s')
    ensures Leads(s, ls + more, s')
  {
    hide Do, Enabled;
    var a :| IsRun(a, ls) && a[0] == s && a[|ls|] == m;
    var b :| IsRun(b, more) && b[0] == m && b[|more|] == s';
    RunsJoin(a, ls, b, more);
  }

  // ---------------------------------------------------------------- a deploy job that succeeds

  /** Where a deploy job without reconciliation is, counted in effects. */
  function Position(pc: Pc): nat {
    match pc
    case RcRead => 0
    case DpBegin => 1
    case DpEvict => 2
    case DpLaunch => 3
    case DpRecord => 4
    case AcLoad => 5
    case AcReady => 6
    case AcJoinCandidate => 7
    case AcJoinActive => 8
    case AcActivating => 9
    case AcBackup => 10
    case AcCanary => 11
    case AcProbeCanary => 12
    case AcPublic => 13
    case AcProbePublic => 14
    case AcCommit => 15
    case AcLeaveOld => 16
    case AcDropBackup => 17
    case _ => 18
  }

  /** A job about to read the project, or to begin its release. */
  ghost predicate Opening(db: Db, at: nat, task: Task) {
    (at == 0 ==> !LiveCandidate(db)) && AliasesDistinct(BeginTx(db, task.id, task.port, task.dockerName))
  }

  function StatusAt(at: nat): Status {
    if at < 5 then BUILDING
    else if at < 7 then CANDIDATE
    else if at < 10 then READY
    else if at < 16 then ACTIVATING
    else ACTIVE
  }

  /** The name a deploy job uses is its own deployment's. */
  ghost predicate OwnName(db: Db, task: Task) {
    !task.rollback ==> Named(db, task.id, task.dockerName) && Reserved(db, task)
  }

  /** The release's row, and its place as the candidate up to the commit; a rollback keeps it pinned. */
  ghost predicate Registered(db: Db, at: nat, task: Task) {
    && task.id in db.releases && OwnName(db, task)
    && db.releases[task.id].status == StatusAt(at)
    && db.releases[task.id].readiness == (if at < 7 then PENDING else PASSED)
    && if at < 16 then db.candidate == Some(task.id) && db.releases[task.id].pinned == task.rollback
       else db.candidate.None?
  }

  /** Its runtime is started and, later, on the public network. */
  ghost predicate Hosted(w: World, at: nat, task: Task) {
    && (at == 3 ==> NameFree(w.db, w.gw, task.dockerName, task.container))
    && (at > 3 ==> task.container in w.gw.running && w.gw.running[task.container] == task.id)
    && (3 < at < 8 ==> task.container !in w.gw.public)
    && (8 <= at ==> Joined(w.db, w.gw, task.id))
  }

  /** The job has come this far. */
  ghost predicate OnCourse(w: World, pc: Pc, task: Task) {
    var at := Position(pc);
    at < 18 && if at < 2 then Opening(w.db, at, task) else Registered(w.db, at, task) && Hosted(w, at, task)
  }

  ghost predicate Thriving(s: Sys, task: Task) {
    && RInv(s) && AliasesDistinct(s.w.db) && SafeHost(task.domain) == task.domain
    && s.worker.Busy? && s.worker.task == task && OnCourse(s.w, s.worker.pc, task)
  }

  /** One more effect of the job. */
  ghost predicate Onward(s: Sys, s': Sys) {
    && s.worker.Busy? && s'.worker.Busy? && s'.worker.task == s.worker.task
    && Position(s'.worker.pc) == Position(s.worker.pc) + 1
    && OnCourse(s'.w, s'.worker.pc, s.worker.task)
    && s'.w.db.releases.Keys == s.w.db.releases.Keys + {s.worker.task.id}
  }

  lemma ReadGoesOn(s: Sys)
    requires Inv(s) && s.worker.Busy? && s.worker.pc == RcRead && OnCourse(s.w, RcRead, s.worker.task)
    ensures var s' := Advance(s, Done); s'.w == s.w && s'.worker == Busy(DpBegin, s.worker.task, NO_LOCALS)
  {
  }

  lemma BeginGoesOn(s: Sys)
    requires Inv(s) && s.worker.Busy? && s.worker.pc == DpBegin && OnCourse(s.w, DpBegin, s.worker.task)
    ensures Onward(s, Advance(s, Done)) && AliasesDistinct(Advance(s, Done).w.db)
  {
    FreeCandidateOk(s.w.db);
  }

  lemma EvictGoesOn(s: Sys)
    requires Inv(s) && s.worker.Busy? && s.worker.pc == DpEvict && OnCourse(s.w, DpEvict, s.worker.task)
    ensures Onward(s, Advance(s, Done))
  {
  }

  lemma LaunchGoesOn(s: Sys)
    requires Inv(s) && s.worker.Busy? && s.worker.pc == DpLaunch && OnCourse(s.w, DpLaunch, s.worker.task)
    ensures Onward(s, Advance(s, Done))
  {
  }

  lemma RecordGoesOn(s: Sys)
    requires Inv(s) && s.worker.Busy? && s.worker.pc == DpRecord && OnCourse(s.w, DpRecord, s.worker.task)
    ensures Onward(s, Advance(s, Done))
  {
  }

  lemma LoadGoesOn(s: Sys)
    requires Inv(s) && s.worker.Busy? && s.worker.pc in {AcLoad, AcReady}
    requires OnCourse(s.w, s.worker.pc, s.worker.task)
    ensures Onward(s, Advance(s, Done))
  {
  }

  lemma JoinGoesOn(s: Sys)
    requires Inv(s) && s.worker.Busy? && s.worker.pc in {AcJoinCandidate, AcJoinActive}
    requires OnCourse(s.w, s.worker.pc, s.worker.task)
    ensures Onward(s, Advance(s, Done))
  {
  }

  lemma SaveGoesOn(s: Sys)
    requires Inv(s) && s.worker.Busy? && s.worker.pc in {AcActivating, AcBackup}
    requires OnCourse(s.w, s.worker.pc, s.worker.task)
    ensures Onward(s, Advance(s, Done))
  {
  }

  lemma WriteGoesOn(s: Sys)
    requires s.worker.Busy? && s.worker.pc in {AcCanary, AcPublic} && OnCourse(s.w, s.worker.pc, s.worker.task)
    ensures Onward(s, Advance(s, Done))
  {
  }

  lemma CanaryAnswers(w: World, task: Task, stable: Option<Backend>)
    requires w.gw.route == Some(CanaryRoute(task, stable)) && Joined(w.db, w.gw, task.id)
    requires SafeHost(task.domain) == task.domain
    ensures Answered(w.gw, ReleaseState.Request(task.domain, Some(task.token)))
  {
    ServeMeaning(CanaryRoute(task, stable), ReleaseState.Request(task.domain, Some(task.token)));
    assert AnswersTo(w.gw, w.db.releases[task.id].runtimeRef.value, task.id);
  }

  lemma PublicAnswers(w: World, task: Task)
    requires w.gw.route == Some(PublicRoute(task.domain, task.id, task.port)) && Joined(w.db, w.gw, task.id)
    requires SafeHost(task.domain) == task.domain
    ensures Answered(w.gw, ReleaseState.Request(task.domain, None))
  {
    ServeMeaning(PublicRoute(task.domain, task.id, task.port), ReleaseState.Request(task.domain, None));
    assert AnswersTo(w.gw, w.db.releases[task.id].runtimeRef.value, task.id);
  }

  lemma CanaryProbeLeadsOn(w: World, task: Task, loc: Locals)
    requires w.gw.route == Some(CanaryRoute(task, loc.stable)) && Joined(w.db, w.gw, task.id)
    requires SafeHost(task.domain) == task.domain
    ensures Control(w, Busy(AcProbeCanary, task, loc), Done) == Busy(AcPublic, task, loc)
  {
    CanaryAnswers(w, task, loc.stable);
  }

  lemma PublicProbeLeadsOn(w: World, task: Task, loc: Locals)
    requires w.gw.route == Some(PublicRoute(task.domain, task.id, task.port)) && Joined(w.db, w.gw, task.id)
    requires SafeHost(task.domain) == task.domain
    ensures Control(w, Busy(AcProbePublic, task, loc), Done) == Busy(AcCommit, task, loc)
  {
    PublicAnswers(w, task);
  }

  lemma ProbeGoesOn(s: Sys, next: Pc)
    requires s.worker.Busy? && s.worker.pc in {AcProbeCanary, AcProbePublic}
    requires OnCourse(s.w, s.worker.pc, s.worker.task)
    requires Control(s.w, s.worker, Done) == Busy(next, s.worker.task, s.worker.loc)
    requires next == if s.worker.pc == AcProbeCanary then AcPublic else AcCommit
    ensures Onward(s, Advance(s, Done))
  {
    assert Advance(s, Done).w == s.w;
  }

  lemma CommitKeepsName(db: Db, task: Task)
    requires DbOk(db) && HasRuntime(db, task) && OwnName(db, task)
    ensures var db' := CommitTx(db, task.id, db.active);
        && OwnName(db', task) && db'.candidate.None? && task.id in db'.releases
        && db'.releases[task.id].status == ACTIVE && db'.releases[task.id].readiness == PASSED
  {
  }

  lemma CourseWithoutCandidate(w: World, db': Db, task: Task)
    requires OnCourse(w, AcCommit, task) && db'.candidate.None?
    requires task.id in db'.releases
    requires db'.releases[task.id].status == ACTIVE && db'.releases[task.id].readiness == PASSED
    requires OwnName(db', task) && Joined(db', w.gw, task.id)
    ensures OnCourse(World(db', w.gw), AcLeaveOld, task)
  {
  }

  lemma CommitKeepsJoined(db: Db, gw: Gateway, id: Id)
    requires DbOk(db) && Spare(db, id) && Joined(db, gw, id)
    ensures Joined(CommitTx(db, id, db.active), gw, id)
    ensures CommitTx(db, id, db.active).releases.Keys == db.releases.Keys
  {
    CommitOk(db, id);
  }

  lemma CommitGoesOn(s: Sys)
    requires Inv(s) && s.worker.Busy? && s.worker.pc == AcCommit && OnCourse(s.w, AcCommit, s.worker.task)
    ensures Onward(s, Advance(s, Done))
  {
    var db' := CommitTx(s.w.db, s.worker.task.id, s.w.db.active);
    CommitKeepsName(s.w.db, s.worker.task);
    CommitKeepsJoined(s.w.db, s.w.gw, s.worker.task.id);
    CourseWithoutCandidate(s.w, db', s.worker.task);
    assert Advance(s, Done).w == World(db', s.w.gw);
  }

  lemma LeaveGoesOn(s: Sys)
    requires Inv(s) && s.worker.Busy? && s.worker.pc == AcLeaveOld && OnCourse(s.w, AcLeaveOld, s.worker.task)
    ensures Onward(s, Advance(s, Done))
  {
  }

  lemma BuildGoesOn(s: Sys)
    requires Inv(s) && s.worker.Busy? && 1 < Position(s.worker.pc) < 7 && OnCourse(s.w, s.worker.pc, s.worker.task)
    ensures Onward(s, Advance(s, Done))
  {
    match s.worker.pc
    case DpEvict => EvictGoesOn(s);
    case DpLaunch => LaunchGoesOn(s);
    case DpRecord => RecordGoesOn(s);
    case AcLoad | AcReady => LoadGoesOn(s);
  }

  lemma SwitchGoesOn(s: Sys)
    requires RInv(s) && s.worker.Busy? && 7 <= Position(s.worker.pc) < 17 && OnCourse(s.w, s.worker.pc, s.worker.task)
    requires SafeHost(s.worker.task.domain) == s.worker.task.domain
    ensures Onward(s, Advance(s, Done))
  {
    match s.worker.pc
    case AcJoinCandidate | AcJoinActive => JoinGoesOn(s);
    case AcActivating | AcBackup => SaveGoesOn(s);
    case AcCanary | AcPublic => WriteGoesOn(s);
    case AcProbeCanary =>
      CanaryProbeLeadsOn(s.w, s.worker.task, s.worker.loc);
      ProbeGoesOn(s, AcPublic);
    case AcProbePublic =>
      PublicProbeLeadsOn(s.w, s.worker.task, s.worker.loc);
      ProbeGoesOn(s, AcCommit);
    case AcCommit => CommitGoesOn(s);
    case AcLeaveOld => LeaveGoesOn(s);
  }

  lemma ActiveMovesAtCommit(s: Sys)
    requires Inv(s) && s.worker.Busy? && Position(s.worker.pc) < 18
    ensures Advance(s, Done).w.db.active == if s.worker.pc == AcCommit then Some(s.worker.task.id) else s.w.db.active
  {
    if s.worker.pc == DpBegin {
      FreeCandidateOk(s.w.db);
    }
  }

  /** What one effect makes of such a job. */
  ghost predicate Next(s: Sys, s': Sys, task: Task) {
    && s.worker.Busy? && Thriving(s', task) && Position(s'.worker.pc) == Position(s.worker.pc) + 1
    && s'.w.db.active == (if Position(s.worker.pc) == 15 then Some(task.id) else s.w.db.active)
    && s'.w.db.releases.Keys == s.w.db.releases.Keys + {task.id}
  }

  lemma EffectGoesOn(s: Sys)
    requires RInv(s) && s.worker.Busy? && 0 < Position(s.worker.pc) < 17 && OnCourse(s.w, s.worker.pc, s.worker.task)
    requires SafeHost(s.worker.task.domain) == s.worker.task.domain && AliasesDistinct(s.w.db)
    ensures Onward(s, Advance(s, Done)) && AliasesDistinct(Advance(s, Done).w.db)
  {
    if s.worker.pc == DpBegin {
      BeginGoesOn(s);
    } else {
      if Position(s.worker.pc) < 7 {
        BuildGoesOn(s);
      } else {
        SwitchGoesOn(s);
      }
      assert Advance(s, Done).w.db.releases.Keys == s.w.db.releases.Keys;
    }
  }

  /** Every effect up to the last leads to the next one. */
  lemma GoesOn(s: Sys, task: Task)
    requires Thriving(s, task) && 0 < Position(s.worker.pc) < 17
    ensures Next(s, Advance(s, Done), task)
  {
    StepKeepsRoute(s, Work(Done));
    ActiveMovesAtCommit(s);
    EffectGoesOn(s);
  }

  /** The job has ended with its release live. */
  ghost predicate Lives(s: Sys, task: Task) {
    && RInv(s) && s.worker.Idle? && s.w.db.active == Some(task.id) && s.w.db.candidate.None?
    && RouteOk(s.w.db, s.w.gw.route) && Joined(s.w.db, s.w.gw, task.id) && Own(s.w.db, s.w.gw, task.id)
    && Named(s.w.db, task.id, task.dockerName) && s.w.db.releases[task.id].runtimeRef == Some(task.container)
  }

  lemma LastIsOrderly(s: Sys, task: Task)
    requires Thriving(s, task) && Position(s.worker.pc) == 17 && !task.rollback
    ensures RInv(s) && Enabled(s, Work(Done)) && Orderly(s, Work(Done)) && AliasesDistinct(s.w.db)
    ensures Do(s, Work(Done)) == Sys(s.w.(gw := s.w.gw.(backup := None)), Idle)
  {
  }

  lemma LastGoesOn(s: Sys, task: Task)
    requires Thriving(s, task) && Position(s.worker.pc) == 17 && !task.rollback
    ensures Lives(Advance(s, Done), task) && Advance(s, Done).w.db.releases.Keys == s.w.db.releases.Keys
  {
    LastIsOrderly(s, task);
    assert RInv(Do(s, Work(Done))) by {
      hide RInv, Enabled, Orderly;
      StepKeepsRoute(s, Work(Done));
    }
  }

  /** A deploy job may start that reconciliation has nothing to do for. */
  ghost predicate Fresh(s: Sys, task: Task) {
    && RInv(s) && s.worker.Idle? && !LiveCandidate(s.w.db) && AliasesDistinct(s.w.db)
    && !task.rollback && NewRelease(s.w.db, task) && SafeHost(task.domain) == task.domain
    && AliasesDistinct(BeginTx(s.w.db, task.id, task.port, task.dockerName))
  }

  lemma StartThrives(s: Sys, task: Task)
    requires Fresh(s, task)
    ensures var s' := Advance(Do(s, Start(task)), Done);
            s'.w == s.w && Thriving(s', task) && s'.worker.pc == DpBegin && Leads(s, [Start(task)] + Dones(1), s')
  {
    var started := Do(s, Start(task));
    StepKeepsRoute(s, Start(task));
    ReadGoesOn(started);
    StepKeepsRoute(started, Work(Done));
    StartLeads(s, Start(task));
    LeadsByDone(s, [Start(task)], 0, started);
  }

  /** Where the first `n` effects of a job that starts in `w` have come to. */
  ghost predicate Deployed(w: World, task: Task, n: nat, s': Sys) {
    && Thriving(s', task) && Position(s'.worker.pc) == n
    && s'.w.db.active == (if n > 15 then Some(task.id) else w.db.active)
    && s'.w.db.releases.Keys == w.db.releases.Keys + if n == 1 then {} else {task.id}
  }

  lemma DeployedOneMore(w: World, task: Task, n: nat, s: Sys, s': Sys)
    requires Deployed(w, task, n, s) && 0 < n < 17 && Next(s, s', task)
    ensures Deployed(w, task, n + 1, s')
  {
  }

  /** A release that is neither live, nor a candidate, nor the job's. */
  predicate Aside(db: Db, x: Id, task: Task) {
    x in db.releases && db.active != Some(x) && db.candidate != Some(x) && x != task.id
  }

  ghost predicate RowsKept(db: Db, db': Db, task: Task) {
    forall x :: Aside(db, x, task) ==> x in db'.releases && db'.releases[x] == db.releases[x]
  }

  lemma EffectSpares(db: Db, worker: Worker, x: Id)
    requires WorkerOk(db, worker) && worker.Busy? && Position(worker.pc) < 18 && Aside(db, x, worker.task)
    ensures x in DbEffect(db, worker).releases && DbEffect(db, worker).releases[x] == db.releases[x]
  {
  }

  lemma StaysAside(w: World, task: Task, n: nat, s: Sys, x: Id)
    requires Deployed(w, task, n, s) && n > 0 && (n == 1 ==> s.w == w) && Aside(w.db, x, task) && x in s.w.db.releases
    ensures Aside(s.w.db, x, task)
  {
  }

  lemma RowsKeptOneMore(w: World, task: Task, n: nat, s: Sys)
    requires Deployed(w, task, n, s) && n > 0 && (n == 1 ==> s.w == w) && RowsKept(w.db, s.w.db, task)
    ensures RowsKept(w.db, Advance(s, Done).w.db, task)
  {
    forall x | Aside(w.db, x, task)
      ensures x in Advance(s, Done).w.db.releases && Advance(s, Done).w.db.releases[x] == w.db.releases[x]
    {
      StaysAside(w, task, n, s, x);
      EffectSpares(s.w.db, s.worker, x);
    }
  }

  /** How far the release that was live in `w` has been relieved. */
  ghost predicate Handed(w: World, task: Task, n: nat, s: Sys) {
    && s.worker.Busy? && (n > 5 ==> s.worker.loc.active == w.db.active)
    && (task.rollback ==> s.worker.loc.cand == Some(task.id))
    && ContainerOf(s.w.db, w.db.active) == ContainerOf(w.db, w.db.active)
    && (n > 15 && w.db.active.Some? ==>
          w.db.active.value in s.w.db.releases && s.w.db.releases[w.db.active.value].status == SUPERSEDED)
    && (n > 16 ==> var box := OldBox(w.db, w.db.active, task); box.Some? ==> box.value !in s.w.gw.public)
  }

  lemma EffectKeepsRef(db: Db, worker: Worker, live: Option<Id>)
    requires WorkerOk(db, worker) && worker.Busy? && Position(worker.pc) < 18
    requires live.Some? ==> live.value in db.releases && live.value != worker.task.id
    ensures ContainerOf(DbEffect(db, worker), live) == ContainerOf(db, live)
  {
  }

  /** The job's release is not the one that was live. */
  ghost predicate Takes(db: Db, task: Task) { DbOk(db) && db.active != Some(task.id) }

  lemma EffectSupersedes(db: Db, worker: Worker, live: Id)
    requires worker.Busy? && worker.pc in {AcCommit, AcLeaveOld, AcDropBackup} && live in db.releases
    requires worker.pc == AcCommit ==> worker.loc.active == Some(live) && live != worker.task.id
    requires worker.pc != AcCommit ==> db.releases[live].status == SUPERSEDED
    ensures live in DbEffect(db, worker).releases && DbEffect(db, worker).releases[live].status == SUPERSEDED
  {
  }

  lemma PositionIs(pc: Pc, n: nat)
    requires Position(pc) == n
    ensures n == 5 <==> pc == AcLoad
    ensures n == 15 <==> pc == AcCommit
    ensures n == 16 <==> pc == AcLeaveOld
    ensures n == 17 <==> pc == AcDropBackup
    ensures 14 < n < 18 ==> pc in {AcCommit, AcLeaveOld, AcDropBackup}
  {
  }

  lemma ControlHands(w: World, worker: Worker)
    requires worker.Busy? && 0 < Position(worker.pc) < 17 && Control(w, worker, Done).Busy?
    requires Position(Control(w, worker, Done).pc) == Position(worker.pc) + 1
    ensures Control(w, worker, Done).loc.active == if worker.pc == AcLoad then w.db.active else worker.loc.active
    ensures worker.task.rollback ==> Control(w, worker, Done).loc.cand == worker.loc.cand
  {
  }

  lemma BoxLeaves(w: World, task: Task, s: Sys)
    requires Deployed(w, task, 16, s) && Handed(w, task, 16, s)
    ensures var box := OldBox(w.db, w.db.active, task); box.Some? ==> box.value !in Advance(s, Done).w.gw.public
  {
    hide CommitTx, OnCourse;
    PositionIs(s.worker.pc, 16);
  }

  lemma RefStays(w: World, task: Task, n: nat, s: Sys)
    requires Takes(w.db, task) && Deployed(w, task, n, s) && 0 < n < 17 && Handed(w, task, n, s)
    ensures ContainerOf(Advance(s, Done).w.db, w.db.active) == ContainerOf(w.db, w.db.active)
  {
    if w.db.active.Some? {
      LiveStays(w, task, n, s);
    }
    EffectKeepsRef(s.w.db, s.worker, w.db.active);
  }

  lemma SupersededStays(w: World, task: Task, n: nat, s: Sys)
    requires Takes(w.db, task) && Deployed(w, task, n, s) && 14 < n < 17 && Handed(w, task, n, s)
    requires w.db.active.Some?
    ensures var live, db := w.db.active.value, Advance(s, Done).w.db;
            live in db.releases && db.releases[live].status == SUPERSEDED
  {
    hide CommitTx, OnCourse;
    PositionIs(s.worker.pc, n);
    LiveStays(w, task, n, s);
    EffectSupersedes(s.w.db, s.worker, w.db.active.value);
  }

  lemma HandedOneMore(w: World, task: Task, n: nat, s: Sys)
    requires Takes(w.db, task) && Deployed(w, task, n, s) && 0 < n < 17 && Handed(w, task, n, s)
    requires Next(s, Advance(s, Done), task)
    ensures Handed(w, task, n + 1, Advance(s, Done))
  {
    PositionIs(s.worker.pc, n);
    ControlHands(s.w, s.worker);
    RefStays(w, task, n, s);
    if n > 14 && w.db.active.Some? {
      SupersededStays(w, task, n, s);
    }
    if n == 16 {
      BoxLeaves(w, task, s);
    }
  }

  lemma LiveStays(w: World, task: Task, n: nat, s: Sys)
    requires DbOk(w.db) && Deployed(w, task, n, s) && n > 0 && w.db.active.Some?
    ensures w.db.active.value in s.w.db.releases
  {
  }

  /** The route file is the release's own from its public write on. */
  predicate Publicised(n: nat, s: Sys, task: Task) {
    n > 13 ==> s.w.gw.route == Some(PublicRoute(task.domain, task.id, task.port))
  }

  lemma PublicisedOneMore(task: Task, n: nat, s: Sys)
    requires s.worker.Busy? && s.worker.task == task && Position(s.worker.pc) == n && Publicised(n, s, task) && n < 18
    ensures Publicised(n + 1, Advance(s, Done), task)
  {
  }

  /** The release that was live is superseded and off the public network, and the saved copy of its
      route is gone. */
  ghost predicate TakenFrom(w: World, s: Sys, task: Task) {
    && s.w.gw.backup.None? && s.w.gw.route == Some(PublicRoute(task.domain, task.id, task.port))
    && task.id in s.w.db.releases && s.w.db.releases[task.id].readiness == PASSED
    && (w.db.active.Some? ==>
          w.db.active.value in s.w.db.releases && s.w.db.releases[w.db.active.value].status == SUPERSEDED)
    && var box := OldBox(w.db, w.db.active, task); box.Some? ==> box.value !in s.w.gw.public
  }

  lemma LastHands(w: World, task: Task, s: Sys)
    requires Deployed(w, task, 17, s) && Handed(w, task, 17, s) && Publicised(17, s, task)
    ensures TakenFrom(w, Advance(s, Done), task)
  {
    PositionIs(s.worker.pc, 17);
  }

  lemma {:induction false} Deploys(s: Sys, task: Task, n: nat) returns (s': Sys)
    requires Fresh(s, task) && 0 < n < 18
    ensures Leads(s, [Start(task)] + Dones(n), s') && Deployed(s.w, task, n, s')
    ensures RowsKept(s.w.db, s'.w.db, task) && (n == 1 ==> s'.w == s.w)
    ensures Handed(s.w, task, n, s') && Publicised(n, s', task)
  {
    if n == 1 {
      StartThrives(s, task);
      s' := Advance(Do(s, Start(task)), Done);
    } else {
      var before := Deploys(s, task, n - 1);
      GoesOn(before, task);
      DeployedOneMore(s.w, task, n - 1, before, Advance(before, Done));
      RowsKeptOneMore(s.w, task, n - 1, before);
      HandedOneMore(s.w, task, n - 1, before);
      PublicisedOneMore(task, n - 1, before);
      LeadsByDone(s, [Start(task)], n - 1, before);
      s' := Advance(before, Done);
    }
  }

  /** A deploy job in which nothing fails puts its release live, whatever was live before: the
      route is its own, its runtime is on the public network, and nothing is left to reconcile. */
  lemma SuccessfulDeploymentGoesLive(s: Sys, task: Task) returns (s': Sys)
    requires Fresh(s, task)
    ensures Leads(s, [Start(task)] + Dones(18), s') && Lives(s', task) && TakenFrom(s.w, s', task)
    ensures s'.w.db.releases.Keys == s.w.db.releases.Keys + {task.id} && RowsKept(s.w.db, s'.w.db, task)
  {
    var last := Deploys(s, task, 17);
    LastGoesOn(last, task);
    RowsKeptOneMore(s.w, task, 17, last);
    LastHands(s.w, task, last);
    s' := Advance(last, Done);
    LeadsByDone(s, [Start(task)], 17, last);
  }

  // ---------------------------------------------------------------- a rollback that succeeds

  function Beginning(id: Id, back: Task): seq<Label> {
    [Label.Request(id), Start(back), Work(Done), Work(Done)]
  }

  /** A release that is not live and runs off the public network, as every release does that another
      one has replaced, may be asked back. */
  ghost predicate Returnable(s: Sys, target: Id, back: Task) {
    && RInv(s) && s.worker.Idle? && AliasesDistinct(s.w.db) && back.rollback && SafeHost(back.domain) == back.domain
    && CanRollBack(s.w.db, target) && Own(s.w.db, s.w.gw, target)
    && ContainerOf(s.w.db, Some(target)).value !in s.w.gw.public
  }

  function TargetJob(db: Db, target: Id, back: Task): Task {
    var box := ContainerOf(db, Some(target));
    if box.None? then back else back.(id := target, container := box.value, port := PortOf(db, Some(target)))
  }

  lemma RequestReadies(s: Sys, target: Id, back: Task)
    requires Returnable(s, target, back)
    ensures var db' := RollbackTx(s.w.db, target);
            && SameShape(s.w.db, db') && TargetJob(db', target, back) == TargetJob(s.w.db, target, back)
            && Registered(db', 5, TargetJob(s.w.db, target, back))
            && OldBox(db', db'.active, TargetJob(s.w.db, target, back))
               == OldBox(s.w.db, s.w.db.active, TargetJob(s.w.db, target, back))
  {
    RollbackOk(s.w.db, target);
  }

  lemma ReadReadies(s: Sys, target: Id, back: Task)
    requires Inv(s) && s.worker == Busy(RbRead, back, NO_LOCALS) && back.rollback
    requires s.w.db.candidate == Some(target) && ContainerOf(s.w.db, Some(target)).Some?
    ensures var job := TargetJob(s.w.db, target, back);
            && Advance(s, Done) == Sys(s.w, Busy(RbValidate, job, Locals(None, None, Some(target))))
            && Advance(Advance(s, Done), Done) == Sys(s.w, Busy(AcLoad, job, Locals(None, None, Some(target))))
  {
  }

  /** The job that has just been started. */
  function Requested(s: Sys, target: Id, back: Task): Sys
    requires CanRollBack(s.w.db, target) && s.worker.Idle? && back.rollback
  {
    Do(Do(s, Label.Request(target)), Start(back))
  }

  lemma BeginningLeads(s: Sys, target: Id, back: Task)
    requires CanRollBack(s.w.db, target) && s.worker.Idle? && back.rollback
    requires Advance(Requested(s, target, back), Done).worker.Busy?
    ensures Leads(s, Beginning(target, back), Advance(Advance(Requested(s, target, back), Done), Done))
  {
    var requested, started := Do(s, Label.Request(target)), Requested(s, target, back);
    StartLeads(s, Label.Request(target));
    LeadsBy(s, [Label.Request(target)] + Dones(0), requested, Start(back));
    assert [Label.Request(target)] + Dones(0) + [Start(back)] == [Label.Request(target), Start(back)] + Dones(0);
    LeadsByDone(s, [Label.Request(target), Start(back)], 0, started);
    LeadsByDone(s, [Label.Request(target), Start(back)], 1, Advance(started, Done));
    assert [Label.Request(target), Start(back)] + Dones(2) == Beginning(target, back);
  }

  lemma RequestStarts(s: Sys, target: Id, back: Task)
    requires Returnable(s, target, back)
    ensures var started := Requested(s, target, back);
            && RInv(started) && started == Sys(s.w.(db := RollbackTx(s.w.db, target)), Busy(RbRead, back, NO_LOCALS))
            && AliasesDistinct(started.w.db)
  {
    StepKeepsRoute(s, Label.Request(target));
    RequestReadies(s, target, back);
    StepKeepsRoute(Do(s, Label.Request(target)), Start(back));
  }

  lemma RollbackLoads(s: Sys, target: Id, back: Task) returns (s': Sys)
    requires Returnable(s, target, back)
    ensures Leads(s, Beginning(target, back), s') && s'.w == s.w.(db := RollbackTx(s.w.db, target))
    ensures var job := TargetJob(s.w.db, target, back);
            RInv(s') && AliasesDistinct(s'.w.db) && s'.worker == Busy(AcLoad, job, Locals(None, None, Some(target)))
  {
    var started := Requested(s, target, back);
    RequestStarts(s, target, back);
    RequestReadies(s, target, back);
    ReadReadies(started, target, back);
    StepKeepsRoute(started, Work(Done));
    StepKeepsRoute(Advance(started, Done), Work(Done));
    BeginningLeads(s, target, back);
    s' := Advance(Advance(started, Done), Done);
  }

  lemma LoadedIsDeployed(s: Sys, target: Id, back: Task, s': Sys)
    requires Returnable(s, target, back) && RInv(s') && AliasesDistinct(s'.w.db)
    requires s'.w == s.w.(db := RollbackTx(s.w.db, target))
    requires s'.worker == Busy(AcLoad, TargetJob(s.w.db, target, back), Locals(None, None, Some(target)))
    ensures var job := TargetJob(s.w.db, target, back);
            Takes(s'.w.db, job) && Deployed(s'.w, job, 5, s') && Handed(s'.w, job, 5, s')
  {
    RequestReadies(s, target, back);
  }

  /** The job's effects from loading its release on. */
  lemma {:induction false} RollsOn(s: Sys, job: Task, n: nat) returns (s': Sys)
    requires Takes(s.w.db, job) && Deployed(s.w, job, 5, s) && Handed(s.w, job, 5, s) && n <= 12
    ensures Leads(s, [] + Dones(n), s') && Deployed(s.w, job, 5 + n, s') && Handed(s.w, job, 5 + n, s')
    ensures Publicised(5 + n, s', job)
  {
    if n == 0 {
      LeadsNowhere(s);
      assert [] + Dones(0) == [];
      s' := s;
    } else {
      var before := RollsOn(s, job, n - 1);
      GoesOn(before, job);
      DeployedOneMore(s.w, job, 4 + n, before, Advance(before, Done));
      HandedOneMore(s.w, job, 4 + n, before);
      PublicisedOneMore(job, 4 + n, before);
      LeadsByDone(s, [], n - 1, before);
      s' := Advance(before, Done);
    }
  }

  /** The target is live and served, and its pin taken back. */
  ghost predicate Returned(s: Sys, job: Task) {
    && RInv(s) && s.worker.Idle? && s.w.db.active == Some(job.id) && s.w.db.candidate.None?
    && RouteOk(s.w.db, s.w.gw.route) && Joined(s.w.db, s.w.gw, job.id) && !s.w.db.releases[job.id].pinned
  }

  lemma DropControl(s: Sys, job: Task)
    requires s.worker.Busy? && s.worker.pc == AcDropBackup && s.worker.task == job && job.rollback
    ensures Advance(s, Done) == Sys(s.w.(gw := s.w.gw.(backup := None)), Busy(RbUnpin, job, s.worker.loc))
  {
  }

  lemma DropLeadsToUnpin(w: World, job: Task, s: Sys)
    requires Deployed(w, job, 17, s) && Handed(w, job, 17, s) && job.rollback
    ensures var s' := Advance(s, Done);
            && s' == Sys(s.w.(gw := s.w.gw.(backup := None)), Busy(RbUnpin, job, s.worker.loc))
            && s.worker.loc.cand == Some(job.id) && RInv(s')
            && s.w.db.active == Some(job.id) && s.w.db.candidate.None? && Joined(s.w.db, s.w.gw, job.id)
  {
    PositionIs(s.worker.pc, 17);
    DropControl(s, job);
    StepKeepsRoute(s, Work(Done));
  }

  lemma UnpinReturns(s: Sys, job: Task)
    requires RInv(s) && AliasesDistinct(s.w.db) && s.worker.Busy? && s.worker.pc == RbUnpin
    requires s.worker.loc.cand == Some(job.id) && s.w.db.active == Some(job.id) && s.w.db.candidate.None?
    requires Joined(s.w.db, s.w.gw, job.id)
    ensures Returned(Advance(s, Done), job) && Advance(s, Done).w.gw == s.w.gw
    ensures Advance(s, Done).w.db == UnpinTx(s.w.db, Some(job.id))
  {
    StepKeepsRoute(s, Work(Done));
  }

  lemma UnpinKeepsTaken(w: World, s: Sys, s': Sys, job: Task)
    requires TakenFrom(w, s, job) && s'.w.gw == s.w.gw && s'.w.db == UnpinTx(s.w.db, Some(job.id))
    ensures TakenFrom(w, s', job)
  {
  }

  lemma UnpinLeads(w: World, job: Task, last: Sys)
    requires Deployed(w, job, 17, last) && Handed(w, job, 17, last) && Publicised(17, last, job) && job.rollback
    ensures Advance(last, Done).worker.Busy?
    ensures var s' := Advance(Advance(last, Done), Done); Returned(s', job) && TakenFrom(w, s', job)
  {
    DropLeadsToUnpin(w, job, last);
    LastHands(w, job, last);
    UnpinReturns(Advance(last, Done), job);
    UnpinKeepsTaken(w, Advance(last, Done), Advance(Advance(last, Done), Done), job);
  }

  lemma TakenFromRequested(s: Sys, target: Id, back: Task, s': Sys)
    requires Returnable(s, target, back)
    requires TakenFrom(s.w.(db := RollbackTx(s.w.db, target)), s', TargetJob(s.w.db, target, back))
    ensures TakenFrom(s.w, s', TargetJob(s.w.db, target, back))
  {
    RequestReadies(s, target, back);
  }

  /** A rollback in which nothing fails: the release asked for is live again and unpinned, its route
      and its runtime are the public ones, and the one it replaces is superseded and off the network. */
  lemma SuccessfulRollbackGoesLive(s: Sys, target: Id, back: Task) returns (s': Sys)
    requires Returnable(s, target, back)
    ensures Leads(s, Beginning(target, back) + ([] + Dones(14)), s')
    ensures var job := TargetJob(s.w.db, target, back);
            job.id == target && Returned(s', job) && TakenFrom(s.w, s', job)
  {
    var job := TargetJob(s.w.db, target, back);
    var loading := RollbackLoads(s, target, back);
    LoadedIsDeployed(s, target, back, loading);
    var last := RollsOn(loading, job, 12);
    UnpinLeads(loading.w, job, last);
    LeadsByDone(loading, [], 12, last);
    LeadsByDone(loading, [], 13, Advance(last, Done));
    s' := Advance(Advance(last, Done), Done);
    LeadsOn(s, Beginning(target, back), loading, [] + Dones(14), s');
    TakenFromRequested(s, target, back, s');
  }
}
