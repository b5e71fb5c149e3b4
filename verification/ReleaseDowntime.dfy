/**
 Zero downtime: at which moments of which runs the live release answers, and what a request
 with the probe token reaches.
 */
module ReleaseDowntime {
  import opened Wrappers
  import opened ReleaseState
  import opened ReleaseMachine
  import opened ReleaseInvariant
  import opened ReleaseRouting
  import opened ReleaseRecovery

  /** The request ends in the runtime that the live release's own build has started. */
  ghost predicate LiveAnswers(w: World, req: ReleaseState.Request) {
    && w.db.active.Some?
    && Own(w.db, w.gw, w.db.active.value)
    && Reaches(w.gw, req, ContainerOf(w.db, w.db.active).value, PortOf(w.db, w.db.active))
  }

  predicate Tokenless(w: World, req: ReleaseState.Request) {
    w.gw.route.Some? && w.gw.route.value.token.Some? ==> req.token != w.gw.route.value.token
  }

  lemma ServedIsReached(db: Db, gw: Gateway, id: Id, req: ReleaseState.Request)
    requires NetOk(db, gw) && AliasesDistinct(db) && Joined(db, gw, id)
    requires Serve(gw.route, req) == Some(Backend(id, db.releases[id].port))
    ensures Reaches(gw, req, db.releases[id].runtimeRef.value, db.releases[id].port)
  {
    forall o | AnswersTo(gw, o, id) ensures o == db.releases[id].runtimeRef.value {
      assert gw.public[o] in db.releases;
    }
  }

  /** At every moment, before every effect of every job and between jobs: a request without
      the route file's probe token is answered by the live release exactly when that
      release's runtime has not been removed, the route file has not been switched to another
      release, and the request asks for the host in the route file. */
  lemma ZeroDowntime(s: Sys, req: ReleaseState.Request)
    requires RInv(s) && AliasesDistinct(s.w.db)
    requires s.w.db.active.Some? && PortOf(s.w.db, s.w.db.active) > 0 && Tokenless(s.w, req)
    ensures s.w.gw.route.Some?
    ensures LiveAnswers(s.w, req) <==>
              && Own(s.w.db, s.w.gw, s.w.db.active.value)
              && !Switched(s.w)
              && req.host == SafeHost(s.w.gw.route.value.domain)
  {
    var route, active := s.w.gw.route.value, s.w.db.active.value;
    ServeMeaning(route, req);
    if Own(s.w.db, s.w.gw, active) && req.host == SafeHost(route.domain) {
      if Switched(s.w) {
        assert !SameAlias(active, route.stable.owner);
      } else {
        ServedIsReached(s.w.db, s.w.gw, active, req);
      }
    }
  }

  // ---------------------------------------------------------------- when the route is switched

  /** The step writes the candidate's public route. */
  predicate WritesPublic(s: Sys, l: Label) {
    l.Work? && Applied(l.f) && s.worker.Busy? && s.worker.pc.AcPublic?
  }

  /** From loading the candidate to the write of its public route, and everywhere a job is
      that does not touch the route file at all; a rollback comes there with its canary write. */
  predicate Unswitched(worker: Worker) {
    && worker.Busy?
    && (|| (RouteRight(worker.pc) && !(worker.task.rollback && Early(worker.pc)))
        || worker.pc.AcProbeCanary? || worker.pc.AcPublic?)
  }

  lemma NotSwitchedBefore(s: Sys)
    requires RInv(s) && Unswitched(s.worker)
    ensures !Switched(s.w)
  {
  }

  /** Before that a rollback finds the route switched exactly when it does not agree with the
      active pointer. */
  lemma EarlyRollbackSwitched(s: Sys)
    requires RInv(s) && s.worker.Busy? && s.worker.task.rollback && Early(s.worker.pc) && s.w.db.active.Some?
    ensures RouteOk(s.w.db, s.w.gw.route) ==> !Switched(s.w)
    ensures Switched(s.w) ==> LiveCandidate(s.w.db)
  {
  }

  /** While a release stays live, the public write is the one step that takes its route away:
      a failed backup, canary write or canary probe, its handler, a crash and a rollback
      request do not. */
  lemma OnlyThePublicWriteSwitches(s: Sys, l: Label)
    requires RInv(s) && Enabled(s, l) && Orderly(s, l) && s.w.db.active.Some? && !Switched(s.w)
    requires Do(s, l).w.db.active == s.w.db.active
    ensures Switched(Do(s, l).w) <==> WritesPublic(s, l)
  {
    if l.Work? {
      WorkKeepsShape(s, l.f);
    }
  }

  // ---------------------------------------------------------------- when the runtime is removed

  /** The build of this step removes, or replaces, the runtime of the live release: it belongs to
      the same deployment, whose attempts all use one container or Compose project name. */
  predicate Displaces(s: Sys, l: Label) {
    && l.Work? && Applied(l.f) && s.worker.Busy?
    && s.w.db.active.Some? && Own(s.w.db, s.w.gw, s.w.db.active.value)
    && match s.worker.pc
       case DpEvict => Named(s.w.db, s.w.db.active.value, s.worker.task.dockerName)
       case DpLaunch =>
         && ContainerOf(s.w.db, s.w.db.active) == Some(s.worker.task.container)
         && NameFree(s.w.db, s.w.gw, s.worker.task.dockerName, s.worker.task.container)
       case _ => false
  }

  lemma DbEffectKeepsRef(db: Db, worker: Worker, a: Id)
    requires DbOk(db) && WorkerOk(db, worker) && worker.Busy? && db.active == Some(a)
    ensures ContainerOf(DbEffect(db, worker), Some(a)) == ContainerOf(db, Some(a))
  {
    if worker.pc == DpBegin {
      FreeCandidateOk(db);
    } else if !Reshapes(worker.pc) {
      EffectOk(db, worker);
    } else if worker.pc == AcCommit {
      CommitOk(db, worker.task.id);
    }
  }

  /** No effect but three touches what runs, and none starts a runtime for the live release. */
  lemma RunningAfter(w: World, worker: Worker, a: Id)
    requires DbOk(w.db) && WorkerOk(w.db, worker) && worker.Busy? && w.db.active == Some(a)
    ensures Own(w.db, GwEffect(w.db, w.gw, worker), a) <==>
              Own(w.db, w.gw, a) && !Displaces(Sys(w, worker), Work(Done))
  {
  }

  lemma WorkKeepsOwnExactly(s: Sys, f: Fault)
    requires RInv(s) && s.worker.Busy? && s.w.db.active.Some?
    requires Advance(s, f).w.db.active == s.w.db.active
    ensures var a := s.w.db.active.value;
            Own(Advance(s, f).w.db, Advance(s, f).w.gw, a) <==> Own(s.w.db, s.w.gw, a) && !Displaces(s, Work(f))
  {
    var a := s.w.db.active.value;
    DbEffectKeepsRef(s.w.db, s.worker, a);
    if Applied(f) {
      RunningAfter(s.w, s.worker, a);
    }
  }

  /** One step: the live release keeps its runtime exactly when the step does not build its own
      deployment again. */
  lemma StepKeepsOwnExactly(s: Sys, l: Label)
    requires RInv(s) && Enabled(s, l) && s.w.db.active.Some? && Do(s, l).w.db.active == s.w.db.active
    ensures var a := s.w.db.active.value;
            Own(Do(s, l).w.db, Do(s, l).w.gw, a) <==> Own(s.w.db, s.w.gw, a) && !Displaces(s, l)
  {
    match l
    case Work(f) =>
      if s.worker.Busy? {
        WorkKeepsOwnExactly(s, f);
      }
    case Request(target) => RollbackOk(s.w.db, target);
    case _ =>
  }

  // ---------------------------------------------------------------- whole runs

  /** From state `i` on, release `a` is the live one. */
  ghost predicate StaysLive(run: seq<Sys>, i: nat, a: Id) {
    i < |run| && forall k :: i <= k < |run| ==> run[k].w.db.active == Some(a)
  }

  ghost predicate OrderlyRun(run: seq<Sys>, ls: seq<Label>) {
    && IsRun(run, ls) && RInv(run[0])
    && (forall k :: 0 <= k < |ls| ==> Orderly(run[k], ls[k]))
    && (forall k :: 0 <= k < |run| ==> AliasesDistinct(run[k].w.db))
  }

  ghost predicate DisplacedBetween(run: seq<Sys>, ls: seq<Label>, i: nat, j: nat)
    requires |run| == |ls| + 1
  {
    exists k :: i <= k < j && k < |ls| && Displaces(run[k], ls[k])
  }

  /** One step of an orderly run. */
  lemma StepOf(run: seq<Sys>, ls: seq<Label>, k: nat)
    requires OrderlyRun(run, ls) && k < |ls|
    ensures RInv(run[k]) && Enabled(run[k], ls[k]) && Orderly(run[k], ls[k]) && run[k + 1] == Do(run[k], ls[k])
  {
    RouteIsRepairable(run, ls, k);
  }

  lemma OwnOneMore(run: seq<Sys>, ls: seq<Label>, i: nat, j: nat, a: Id)
    requires OrderlyRun(run, ls) && StaysLive(run, i, a) && i < j < |run|
    ensures Own(run[j].w.db, run[j].w.gw, a) <==>
              Own(run[j - 1].w.db, run[j - 1].w.gw, a) && !Displaces(run[j - 1], ls[j - 1])
  {
    StepOf(run, ls, j - 1);
    assert run[j].w.db.active == run[j - 1].w.db.active == Some(a);
    StepKeepsOwnExactly(run[j - 1], ls[j - 1]);
  }

  /** What is kept by every step that is not hit, and lost for good by one that is. */
  lemma {:induction false} KeptUntilHit(kept: seq<bool>, hit: seq<bool>, i: nat, j: nat)
    requires i <= j < |kept| == |hit| + 1
    requires forall k {:trigger hit[k]} :: i <= k < j ==> (kept[k + 1] <==> kept[k] && !hit[k])
    ensures kept[j] <==> kept[i] && forall k :: i <= k < j ==> !hit[k]
    decreases j
  {
    if i < j {
      KeptUntilHit(kept, hit, i, j - 1);
      assert kept[j] <==> kept[j - 1] && !hit[j - 1];
    }
  }

  lemma OwnThroughExactly(run: seq<Sys>, ls: seq<Label>, i: nat, j: nat, a: Id)
    requires OrderlyRun(run, ls) && StaysLive(run, i, a) && i <= j < |run|
    ensures Own(run[j].w.db, run[j].w.gw, a) <==>
              Own(run[i].w.db, run[i].w.gw, a) && !DisplacedBetween(run, ls, i, j)
  {
    var kept := seq(|run|, k requires 0 <= k < |run| => Own(run[k].w.db, run[k].w.gw, a));
    var hit := seq(|ls|, k requires 0 <= k < |ls| => Displaces(run[k], ls[k]));
    forall k {:trigger hit[k]} | i <= k < j ensures kept[k + 1] <==> kept[k] && !hit[k] {
      OwnOneMore(run, ls, i, k + 1, a);
    }
    KeptUntilHit(kept, hit, i, j);
    if DisplacedBetween(run, ls, i, j) {
      var k :| i <= k < j && k < |ls| && Displaces(run[k], ls[k]);
      assert hit[k];
    }
    if k :| i <= k < j && hit[k] {
      assert Displaces(run[k], ls[k]);
    }
  }

  lemma SwitchedOneMore(run: seq<Sys>, ls: seq<Label>, i: nat, j: nat, a: Id)
    requires OrderlyRun(run, ls) && StaysLive(run, i, a) && i < j < |run|
    ensures !Switched(run[j - 1].w) && !WritesPublic(run[j - 1], ls[j - 1]) ==> !Switched(run[j].w)
  {
    StepOf(run, ls, j - 1);
    assert run[j].w.db.active == run[j - 1].w.db.active == Some(a);
    if !Switched(run[j - 1].w) {
      OnlyThePublicWriteSwitches(run[j - 1], ls[j - 1]);
    }
  }

  lemma UnswitchedThrough(run: seq<Sys>, ls: seq<Label>, i: nat, j: nat, a: Id)
    requires OrderlyRun(run, ls) && StaysLive(run, i, a) && i <= j < |run| && !Switched(run[i].w)
    requires forall k :: i <= k < j ==> !WritesPublic(run[k], ls[k])
    ensures !Switched(run[j].w)
  {
    var there := seq(|run|, k requires 0 <= k < |run| => Switched(run[k].w));
    var comes := seq(|ls|, k requires 0 <= k < |ls| => WritesPublic(run[k], ls[k]));
    forall k {:trigger comes[k]} | i <= k < j ensures (there[k + 1] ==> there[k] || comes[k]) && !comes[k] {
      SwitchedOneMore(run, ls, i, k + 1, a);
    }
    if there[j] {
      ThereBefore(there, comes, i, j);
    }
  }

  /** Over whole runs, through jobs, builds, activations, handlers, crashes, rollback requests and
      the time between jobs: a live release in its own runtime keeps answering for the host its
      route file names, exactly as long as no build of its own deployment has run and the
      public route of a candidate has not been written. */
  lemma ZeroDowntimeOverRuns(run: seq<Sys>, ls: seq<Label>, i: nat, j: nat, a: Id, req: ReleaseState.Request)
    requires OrderlyRun(run, ls) && StaysLive(run, i, a) && i <= j < |run|
    requires Own(run[i].w.db, run[i].w.gw, a) && !Switched(run[i].w)
    requires PortOf(run[j].w.db, Some(a)) > 0 && Tokenless(run[j].w, req)
    ensures run[j].w.gw.route.Some?
    ensures req.host == SafeHost(run[j].w.gw.route.value.domain) ==>
              (LiveAnswers(run[j].w, req) <==> !DisplacedBetween(run, ls, i, j) && !Switched(run[j].w))
    ensures (forall k :: i <= k < j ==> !WritesPublic(run[k], ls[k])) ==> !Switched(run[j].w)
  {
    RouteIsRepairable(run, ls, j);
    OwnThroughExactly(run, ls, i, j, a);
    ZeroDowntime(run[j], req);
    if forall k :: i <= k < j ==> !WritesPublic(run[k], ls[k]) {
      UnswitchedThrough(run, ls, i, j, a);
    }
  }

  /** When all jobs deploy to one domain, that is its host at every moment: over whole runs the live
      release answers for it, and for no other, exactly until it is displaced or the route switched. */
  lemma OneDomainZeroDowntime(run: seq<Sys>, ls: seq<Label>, i: nat, j: nat, a: Id, domain: string,
                              req: ReleaseState.Request)
    requires OrderlyRun(run, ls) && StaysLive(run, i, a) && i <= j < |run|
    requires Own(run[i].w.db, run[i].w.gw, a) && !Switched(run[i].w)
    requires OneHost(run[0], domain) && forall k :: 0 <= k < |ls| && ls[k].Start? ==> ls[k].task.domain == domain
    requires PortOf(run[j].w.db, Some(a)) > 0 && Tokenless(run[j].w, req)
    ensures LiveAnswers(run[j].w, req) <==>
              !DisplacedBetween(run, ls, i, j) && !Switched(run[j].w) && req.host == SafeHost(domain)
  {
    OneDomainOneHost(run, ls, domain, j);
    RouteIsRepairable(run, ls, j);
    OwnThroughExactly(run, ls, i, j, a);
    ZeroDowntime(run[j], req);
  }

  /** A runtime that has been removed does not come back while its release stays the live one. */
  lemma RemovedStaysRemoved(run: seq<Sys>, ls: seq<Label>, i: nat, j: nat, a: Id)
    requires OrderlyRun(run, ls) && StaysLive(run, i, a) && i <= j < |run|
    requires !Own(run[i].w.db, run[i].w.gw, a)
    ensures !Own(run[j].w.db, run[j].w.gw, a)
  {
    OwnThroughExactly(run, ls, i, j, a);
  }

  // ---------------------------------------------------------------- one deploy job

  /** The job from its build on, until the live release changes; it may crash and be rolled back
      under, but no other job starts. */
  ghost predicate BuildRun(run: seq<Sys>, ls: seq<Label>, a: Id) {
    && OrderlyRun(run, ls) && StaysLive(run, 0, a) && |ls| > 0
    && run[0].worker.Busy? && run[0].worker.pc == DpEvict && ls[0].Work? && Applied(ls[0].f)
    && (forall k :: 0 <= k < |ls| ==> !ls[k].Start?)
  }

  /** The job keeps its task, and the live release its row. */
  ghost predicate SameJob(s: Sys, task: Task, a: Id, dockerName: string) {
    && (s.worker.Busy? ==> s.worker.task == task)
    && a in s.w.db.releases && s.w.db.releases[a].dockerName == dockerName
  }

  lemma DbEffectKeepsName(db: Db, worker: Worker, a: Id)
    requires DbOk(db) && WorkerOk(db, worker) && a in db.releases
    ensures var db' := DbEffect(db, worker);
        a in db'.releases && db'.releases[a].dockerName == db.releases[a].dockerName
  {
  }

  lemma ControlKeepsTask(w: World, worker: Worker, f: Fault)
    requires worker.Busy? && WorkerOk(w.db, worker) && !worker.task.rollback
    ensures var worker' := Control(w, worker, f); worker'.Busy? ==> worker'.task == worker.task
  {
  }

  lemma StepKeepsJob(s: Sys, l: Label, task: Task, a: Id, dockerName: string)
    requires RInv(s) && Enabled(s, l) && !l.Start? && !task.rollback && SameJob(s, task, a, dockerName)
    ensures SameJob(Do(s, l), task, a, dockerName)
  {
    match l
    case Work(f) =>
      DbEffectKeepsName(s.w.db, s.worker, a);
      ControlKeepsTask(s.w, s.worker, f);
    case Request(target) => RollbackOk(s.w.db, target);
    case Crash =>
  }

  lemma {:induction false} JobKeepsTask(run: seq<Sys>, ls: seq<Label>, a: Id, j: nat)
    requires BuildRun(run, ls, a) && j < |run| && a in run[0].w.db.releases && !run[0].worker.task.rollback
    ensures RInv(run[j]) && SameJob(run[j], run[0].worker.task, a, run[0].w.db.releases[a].dockerName)
  {
    RouteIsRepairable(run, ls, j);
    if j > 0 {
      JobKeepsTask(run, ls, a, j - 1);
      StepOf(run, ls, j - 1);
      StepKeepsJob(run[j - 1], ls[j - 1], run[0].worker.task, a, run[0].w.db.releases[a].dockerName);
    }
  }

  lemma OtherNamesAreSpared(s: Sys, l: Label, task: Task, a: Id, dockerName: string)
    requires RInv(s) && SameJob(s, task, a, dockerName) && s.w.db.active == Some(a) && dockerName != task.dockerName
    ensures !Displaces(s, l)
  {
  }

  lemma DisplacedExactly(run: seq<Sys>, ls: seq<Label>, a: Id, j: nat)
    requires BuildRun(run, ls, a) && 0 < j < |run| && Own(run[0].w.db, run[0].w.gw, a)
    ensures !run[0].worker.task.rollback && a in run[0].w.db.releases
    ensures DisplacedBetween(run, ls, 0, j) <==> run[0].w.db.releases[a].dockerName == run[0].worker.task.dockerName
  {
    var task, name := run[0].worker.task, run[0].w.db.releases[a].dockerName;
    if name == task.dockerName {
      assert Displaces(run[0], ls[0]);
    } else {
      forall k | 0 <= k < j && k < |ls| ensures !Displaces(run[k], ls[k]) {
        JobKeepsTask(run, ls, a, k);
        OtherNamesAreSpared(run[k], ls[k], task, a, name);
      }
    }
  }

  /** From the build of a job up to its public write, whatever fails in it: the live release
      keeps answering exactly when it has another container or project name. */
  lemma OtherDeploymentsKeepAnsweringExactly(run: seq<Sys>, ls: seq<Label>, a: Id, j: nat, req: ReleaseState.Request)
    requires BuildRun(run, ls, a) && 0 < j < |run| && Own(run[0].w.db, run[0].w.gw, a)
    requires forall k :: 0 <= k < j ==> !WritesPublic(run[k], ls[k])
    requires PortOf(run[j].w.db, Some(a)) > 0 && Tokenless(run[j].w, req)
    ensures run[j].w.gw.route.Some? && !run[0].worker.task.rollback && a in run[0].w.db.releases
    ensures req.host == SafeHost(run[j].w.gw.route.value.domain) ==>
              (LiveAnswers(run[j].w, req) <==> run[0].w.db.releases[a].dockerName != run[0].worker.task.dockerName)
  {
    NotSwitchedBefore(run[0]);
    ZeroDowntimeOverRuns(run, ls, 0, j, a, req);
    DisplacedExactly(run, ls, a, j);
  }

  // ---------------------------------------------------------------- a deployment delivered again

  /** The build's first effect on a live release of its own deployment: nobody answers. */
  lemma EvictingTheLiveReleaseSilencesIt(s: Sys, req: ReleaseState.Request)
    requires RInv(s) && AliasesDistinct(s.w.db) && s.worker.Busy? && s.worker.pc == DpEvict
    requires s.w.db.active.Some? && Named(s.w.db, s.w.db.active.value, s.worker.task.dockerName)
    requires Own(s.w.db, s.w.gw, s.w.db.active.value)
    requires s.w.gw.route.Some? && req.host == SafeHost(s.w.gw.route.value.domain) && Tokenless(s.w, req)
    ensures var w' := Advance(s, Done).w;
            && w'.db.active == s.w.db.active && !Own(w'.db, w'.gw, w'.db.active.value)
            && !Answered(w'.gw, req)
  {
    var a := s.w.db.active.value;
    NotSwitchedBefore(s);
    ServeMeaning(s.w.gw.route.value, req);
    var gw' := Evict(s.w.db, s.w.gw, s.worker.task.dockerName);
    forall c | c in gw'.public ensures !AnswersTo(gw', c, a) {
      assert gw'.public[c] in s.w.db.releases;
    }
  }

  lemma BeginKeepsNames(db: Db, gw: Gateway, task: Task)
    requires DbOk(db) && NewRelease(db, task)
    ensures var db' := BeginTx(db, task.id, task.port, task.dockerName);
            && db'.active == db.active
            && (forall a, name :: Named(db, a, name) ==> Named(db', a, name))
            && (forall a :: Own(db, gw, a) ==> Own(db', gw, a))
  {
    FreeCandidateOk(db);
  }

  lemma BeginLeadsToEvict(s: Sys)
    requires RInv(s) && s.worker.Busy? && s.worker.pc == DpBegin && AliasesDistinct(s.w.db)
    ensures var s' := Advance(s, Done);
            && RInv(s') && s'.worker == Busy(DpEvict, s.worker.task, s.worker.loc)
            && s'.w.gw == s.w.gw && s'.w.db.active == s.w.db.active
            && s'.w.db == BeginTx(s.w.db, s.worker.task.id, s.worker.task.port, s.worker.task.dockerName)
    ensures forall a, name :: Named(s.w.db, a, name) ==> Named(Advance(s, Done).w.db, a, name)
    ensures forall a :: Own(s.w.db, s.w.gw, a) ==> Own(Advance(s, Done).w.db, s.w.gw, a)
  {
    StepKeepsRoute(s, Work(Done));
    BeginKeepsNames(s.w.db, s.w.gw, s.worker.task);
  }

  lemma NothingToReconcile(s: Sys, task: Task)
    requires RInv(s) && s.worker.Idle? && !LiveCandidate(s.w.db) && !task.rollback && NewRelease(s.w.db, task)
    requires AliasesDistinct(s.w.db)
    ensures var s' := Advance(Do(s, Start(task)), Done);
            RInv(s') && s'.w == s.w && s'.worker == Busy(DpBegin, task, NO_LOCALS)
  {
    StepKeepsRoute(s, Start(task));
    StepKeepsRoute(Do(s, Start(task)), Work(Done));
  }

  /** A deployment whose release is live and whose job is delivered again, because something after
      the commit failed or the worker crashed there, removes that release in its build. */
  lemma RedeliveryTakesTheLiveReleaseDown(s: Sys, task: Task, req: ReleaseState.Request)
    requires RInv(s) && s.worker.Idle? && !LiveCandidate(s.w.db) && s.w.db.active.Some?
    requires Own(s.w.db, s.w.gw, s.w.db.active.value)
    requires !task.rollback && NewRelease(s.w.db, task) && Named(s.w.db, s.w.db.active.value, task.dockerName)
    requires AliasesDistinct(s.w.db) && AliasesDistinct(BeginTx(s.w.db, task.id, task.port, task.dockerName))
    requires s.w.gw.route.Some? && req.host == SafeHost(s.w.gw.route.value.domain) && Tokenless(s.w, req)
    ensures var begun := Advance(Advance(Do(s, Start(task)), Done), Done);
            && begun.worker.Busy? && begun.worker.pc == DpEvict && begun.w.db.active == s.w.db.active
            && var w' := Advance(begun, Done).w;
               w'.db.active == s.w.db.active && !Own(w'.db, w'.gw, s.w.db.active.value) && !Answered(w'.gw, req)
  {
    NothingToReconcile(s, task);
    var read := Advance(Do(s, Start(task)), Done);
    BeginLeadsToEvict(read);
    EvictingTheLiveReleaseSilencesIt(Advance(read, Done), req);
  }

  lemma EvictRemovesItsOwn(s: Sys, a: Id)
    requires Inv(s) && s.worker.Busy? && s.worker.pc == DpEvict && Named(s.w.db, a, s.worker.task.dockerName)
    ensures !Own(Advance(s, Done).w.db, Advance(s, Done).w.gw, a) && Advance(s, Done).w.db == s.w.db
  {
  }

  lemma PromotionStep(s: Sys)
    requires RInv(s) && s.worker.Busy? && s.worker.pc == RcPromote && AliasesDistinct(s.w.db)
    ensures var s' := Advance(s, Done);
            && RInv(s') && s'.worker == Busy(DpBegin, s.worker.task, s.worker.loc) && AliasesDistinct(s'.w.db)
            && s'.w.db.active == s.worker.loc.cand && Joined(s'.w.db, s'.w.gw, s.worker.loc.cand.value)
            && forall a, name :: Named(s.w.db, a, name) ==> Named(s'.w.db, a, name)
  {
    StepKeepsRoute(s, Work(Done));
    PromoteOk(s.w.db, s.worker.loc.cand.value);
  }

  /** A first release that reconciliation promotes in a job of its own deployment is removed by
      that same job. */
  lemma PromotedThenRemoved(s: Sys)
    requires RInv(s) && s.worker.Busy? && s.worker.pc == RcPromote && AliasesDistinct(s.w.db)
    requires Named(s.w.db, s.worker.loc.cand.value, s.worker.task.dockerName)
    ensures var promoted := Advance(s, Done).w;
            && promoted.db.active == s.worker.loc.cand && Joined(promoted.db, promoted.gw, s.worker.loc.cand.value)
            && var w' := Advance(Advance(Advance(s, Done), Done), Done).w;
               w'.db.active == s.worker.loc.cand && !Own(w'.db, w'.gw, s.worker.loc.cand.value)
  {
    PromotionStep(s);
    var promoted := Advance(s, Done);
    BeginLeadsToEvict(promoted);
    EvictRemovesItsOwn(Advance(promoted, Done), s.worker.loc.cand.value);
  }

  // ---------------------------------------------------------------- the candidate

  predicate CanaryPhase(pc: Pc) { pc.AcProbeCanary? || pc.AcPublic? }

  /** In the canary phase the probe token selects the candidate, and once the canary probe
      has been answered such a request ends in the candidate's container. */
  lemma CanaryReachesCandidate(s: Sys)
    requires RInv(s) && AliasesDistinct(s.w.db) && s.worker.Busy? && CanaryPhase(s.worker.pc)
    ensures var task := s.worker.task;
            var req := ReleaseState.Request(SafeHost(task.domain), Some(task.token));
            && Serve(s.w.gw.route, req) == Some(Backend(task.id, task.port))
            && (s.worker.pc == AcPublic ==> Reaches(s.w.gw, req, task.container, task.port))
  {
    var task := s.worker.task;
    var req := ReleaseState.Request(SafeHost(task.domain), Some(task.token));
    ServeMeaning(s.w.gw.route.value, req);
    if s.worker.pc == AcPublic {
      ServedIsReached(s.w.db, s.w.gw, task.id, req);
    }
  }

  /** After the public route is written every request for the host ends in the new release. */
  lemma SwitchedReachesCandidate(s: Sys, req: ReleaseState.Request)
    requires RInv(s) && AliasesDistinct(s.w.db) && s.worker.Busy? && s.worker.pc in {AcProbePublic, AcCommit}
    requires req.host == SafeHost(s.worker.task.domain)
    ensures Reaches(s.w.gw, req, s.worker.task.container, s.worker.task.port)
  {
    ServeMeaning(s.w.gw.route.value, req);
    ServedIsReached(s.w.db, s.w.gw, s.worker.task.id, req);
  }

  // ---------------------------------------------------------------- exact conditions

  /** Deploying to another domain: from the canary write on, the old host is not served. */
  lemma NewDomainDropsOldHost(s: Sys, host: string, token: Option<string>)
    requires RInv(s) && s.worker.Busy? && s.worker.pc == AcCanary && s.w.db.active.Some?
    requires host == SafeHost(s.w.gw.route.value.domain)
    ensures Serve(Advance(s, Done).w.gw.route, ReleaseState.Request(host, token)).Some?
            <==> SafeHost(s.worker.task.domain) == host
  {
    ServeMeaning(CanaryRoute(s.worker.task, s.worker.loc.stable), ReleaseState.Request(host, token));
  }

  // ---------------------------------------------------------------- nothing goes live unanswered

  /** A probe that has just been answered is what the switch to the public, a commit and a promotion
      come after. */
  predicate Probed(s: Sys) {
    s.worker.Busy? ==>
      && (s.worker.pc == AcPublic ==>
            Answered(s.w.gw, ReleaseState.Request(s.worker.task.domain, Some(s.worker.task.token))))
      && (s.worker.pc == AcCommit || s.worker.pc == RcPromote ==>
            Answered(s.w.gw, ReleaseState.Request(s.worker.task.domain, None)))
  }

  lemma WorkKeepsProbed(s: Sys, f: Fault)
    requires s.worker.Busy?
    ensures Probed(Advance(s, f))
  {
    hide Answered;
  }

  lemma StepKeepsProbed(s: Sys, l: Label)
    requires Enabled(s, l) && Probed(s)
    ensures Probed(Do(s, l))
  {
    hide Answered;
    if l.Work? {
      WorkKeepsProbed(s, l.f);
    }
  }

  /** In every run a release is switched to the public, committed or promoted only when a probe has
      just been answered, of the canary and of the public route. */
  lemma {:induction false} NothingGoesLiveUnanswered(run: seq<Sys>, ls: seq<Label>, i: nat)
    requires IsRun(run, ls) && i <= |ls| && Probed(run[0])
    ensures Probed(run[i])
  {
    hide Do, Enabled, Probed;
    if i > 0 {
      NothingGoesLiveUnanswered(run, ls, i - 1);
      StepKeepsProbed(run[i - 1], ls[i - 1]);
    }
  }

  lemma {:induction false} LowerAt(s: string, k: nat)
    requires k < |s|
    ensures Lower(s)[k] == LowerChar(s[k])
  {
    if k > 0 {
      LowerAt(s[1..], k - 1);
    }
  }

  /** Two releases share an alias exactly when the first twenty alphanumeric characters of their ids
      agree but for case, which is why `AliasesDistinct` is a condition. */
  lemma SameAliasExactly(a: Id, b: Id)
    ensures var s, t := Keep(a, IsAlnum), Keep(b, IsAlnum);
            SameAlias(a, b) <==>
              && (|s| == |t| || (|s| >= 20 && |t| >= 20))
              && forall k :: 0 <= k < 20 && k < |s| && k < |t| ==> SameLetter(s[k], t[k])
  {
    SameAliasByPart(a, b);
    var s, t := Keep(a, IsAlnum), Keep(b, IsAlnum);
    forall k | 0 <= k < 20 && k < |s| && k < |t|
      ensures LowerChar(AliasPart(a)[k]) == LowerChar(AliasPart(b)[k]) <==> SameLetter(s[k], t[k])
    {
      LowerTellsLetters(s[k], t[k]);
    }
  }

  lemma SameAliasByPart(a: Id, b: Id)
    ensures SameAlias(a, b) <==>
              && |AliasPart(a)| == |AliasPart(b)|
              && forall k :: 0 <= k < |AliasPart(a)| ==> LowerChar(AliasPart(a)[k]) == LowerChar(AliasPart(b)[k])
  {
    var s, t := AliasPart(a), AliasPart(b);
    forall k | 0 <= k < |s| ensures Lower(s)[k] == LowerChar(s[k]) {
      LowerAt(s, k);
    }
    forall k | 0 <= k < |t| ensures Lower(t)[k] == LowerChar(t[k]) {
      LowerAt(t, k);
    }
    assert SameAlias(a, b) <==> Lower(s) == Lower(t) by {
      assert Alias(a)[7..] == Lower(s) && Alias(b)[7..] == Lower(t);
    }
  }

  /** So all ids that start alike for that long share one. */
  lemma LongCommonPrefixCollides(s: string, t: string, u: string)
    requires |Keep(s, IsAlnum)| >= 20
    ensures SameAlias(s + t, s + u)
  {
    KeepPrefix(s, t, IsAlnum);
    KeepPrefix(s, u, IsAlnum);
    assert AliasPart(s + t) == AliasPart(s) == AliasPart(s + u);
  }

  /** Giving up a release takes the live one off the network exactly when the live one runs in the
      same runtime. */
  lemma StrayingIsExact(s: Sys, f: Fault)
    requires RInv(s) && s.worker.Busy? && s.worker.pc in {RcLeaveCandidate, CaLeaveCandidate} && Applied(f)
    requires s.w.db.active.Some? && Own(s.w.db, s.w.gw, s.w.db.active.value)
    ensures Joined(Advance(s, f).w.db, Advance(s, f).w.gw, s.w.db.active.value) <==> !Strays(s, Work(f))
  {
  }
}
