/**
 What a project recovers to: reconciliation after a crash at any effect, and the undoing of
 an activation that fails.
 */
module ReleaseRecovery {
  import opened Wrappers
  import opened ReleaseState
  import opened ReleaseMachine
  import opened ReleaseInvariant
  import opened ReleaseRouting

  // ---------------------------------------------------------------- reconciliation

  /** What a completed `reconcileProject` for a domain makes of the world it found. */
  ghost predicate Settled(before: World, after: World, domain: string) {
    && RouteOk(after.db, after.gw.route)
    && (after.db.active.Some? && Own(after.db, after.gw, after.db.active.value) ==>
          Joined(after.db, after.gw, after.db.active.value))
    && if !LiveCandidate(before.db) then after == before
       else
         && Resolved(before.db, after, before.db.candidate.value)
         && (after.db.active.Some? ==> after.gw.route.Some? && after.gw.route.value.domain == domain)
  }

  /** The interrupted candidate is live and reachable, or FAILED with everything else as it was. */
  ghost predicate Resolved(before: Db, after: World, c: Id) {
    && after.db.candidate.None?
    && c in after.db.releases
    && (forall id :: id != c ==> (id in before.releases <==> id in after.db.releases))
    && (forall id :: id != c && id in before.releases ==> after.db.releases[id] == before.releases[id])
    && if before.active.None? && after.db.active == Some(c)
       then after.db.releases[c].status == ACTIVE && after.db.releases[c].readiness == PASSED
       else
         && after.db.releases[c].status == FAILED && after.db.releases[c].readiness == REJECTED
         && after.db.active == before.active
  }

  /** How far reconciliation has come from `w0`: the database changes only in its last effect. */
  ghost predicate Reconciling(w0: World, s: Sys) {
    && s.worker.Busy?
    && match s.worker.pc
       case RcRead => s.w == w0
       case DpBegin => Settled(w0, s.w, s.worker.task.domain)
       case _ =>
         && ProcOf(s.worker.pc) == Reconciles && s.w.db == w0.db && LiveCandidate(w0.db)
         && s.worker.loc.cand == w0.db.candidate
         && (s.worker.pc in {RcLeaveCandidate, RcAbandon} && s.w.db.active.Some? ==>
               s.w.gw.route.Some? && s.w.gw.route.value.domain == s.worker.task.domain)
  }

  lemma SettlesOnRead(w0: World, s: Sys, f: Fault)
    requires RInv(s) && Reconciling(w0, s) && s.worker.pc == RcRead && Advance(s, f).worker.Busy?
    ensures Reconciling(w0, Advance(s, f))
  {
  }

  lemma SettlesOnPromotion(w0: World, s: Sys, f: Fault)
    requires RInv(s) && Reconciling(w0, s) && s.worker.pc == RcPromote && f != ThrewAfter
    ensures Reconciling(w0, Advance(s, f))
  {
    PromoteOk(s.w.db, s.worker.loc.cand.value);
  }

  lemma SettlesOnAbandon(w0: World, s: Sys, f: Fault)
    requires RInv(s) && Reconciling(w0, s) && s.worker.pc == RcAbandon && Advance(s, f).worker.Busy?
    ensures Reconciling(w0, Advance(s, f))
  {
  }

  lemma KeepsReconciling(w0: World, s: Sys, f: Fault)
    requires RInv(s) && Reconciling(w0, s) && ProcOf(s.worker.pc) == Reconciles
        && s.worker.pc !in {RcRead, RcPromote, RcAbandon}
    requires Advance(s, f).worker.Busy?
    ensures Reconciling(w0, Advance(s, f))
  {
  }

  lemma ReconcileStep(w0: World, s: Sys, l: Label)
    requires RInv(s) && Reconciling(w0, s) && ProcOf(s.worker.pc) == Reconciles
    requires l.Work? && Orderly(s, l) && Do(s, l).worker.Busy?
    ensures Reconciling(w0, Do(s, l))
  {
    if s.worker.pc == RcRead {
      SettlesOnRead(w0, s, l.f);
    } else if s.worker.pc == RcPromote {
      SettlesOnPromotion(w0, s, l.f);
    } else if s.worker.pc == RcAbandon {
      SettlesOnAbandon(w0, s, l.f);
    } else {
      KeepsReconciling(w0, s, l.f);
    }
  }

  /** A run of the worker through `reconcileProject` only. */
  ghost predicate ReconcileRun(run: seq<Sys>, ls: seq<Label>) {
    && IsRun(run, ls)
    && (forall k :: 0 <= k < |run| ==> run[k].worker.Busy?)
    && (forall k :: 0 <= k < |ls| ==>
          ls[k].Work? && ProcOf(run[k].worker.pc) == Reconciles && Orderly(run[k], ls[k])
              && AliasesDistinct(run[k].w.db))
  }

  lemma ReconcilesOneMore(run: seq<Sys>, ls: seq<Label>, i: nat, w0: World)
    requires ReconcileRun(run, ls) && i < |ls| && RInv(run[i]) && Reconciling(w0, run[i])
    ensures RInv(run[i + 1]) && Reconciling(w0, run[i + 1])
  {
    assert run[i + 1] == Do(run[i], ls[i]) && run[i + 1].worker.Busy?;
    ReconcileStep(w0, run[i], ls[i]);
    StepKeepsRoute(run[i], ls[i]);
  }

  lemma ReconcilingAtFirst(s: Sys)
    requires RInv(s) && s.worker.Busy? && s.worker.pc == RcRead
    ensures Reconciling(s.w, s)
  {
  }

  lemma {:induction false} ReconcileRunSettles(run: seq<Sys>, ls: seq<Label>, i: nat)
    requires ReconcileRun(run, ls) && RInv(run[0]) && run[0].worker.pc == RcRead && i < |run|
    ensures RInv(run[i]) && Reconciling(run[0].w, run[i])
  {
    if i == 0 {
      ReconcilingAtFirst(run[0]);
    } else {
      hide Reconciling, RInv, IsRun;
      ReconcileRunSettles(run, ls, i - 1);
      ReconcilesOneMore(run, ls, i - 1, run[0].w);
    }
  }

  /** The probe of effect `k` was answered, and the promotion after it written. */
  ghost predicate ProbedAndPromoted(run: seq<Sys>, ls: seq<Label>, k: nat)
    requires |run| == |ls| + 1
  {
    && k + 1 < |ls| && run[k].worker.Busy? && run[k].worker.pc == RcProbe && ls[k] == Work(Done)
    && Answered(run[k].w.gw, ReleaseState.Request(run[k].worker.task.domain, None))
    && run[k + 1].worker.Busy? && run[k + 1].worker.pc == RcPromote && ls[k + 1] == Work(Done)
  }

  /** Only an answered probe leads to the promotion. */
  lemma PromotionFollowsProbe(s: Sys, f: Fault)
    requires Inv(s) && s.worker.Busy? && ProcOf(s.worker.pc) == Reconciles
    requires Advance(s, f).worker.Busy? && Advance(s, f).worker.pc == RcPromote
    ensures s.worker.pc == RcProbe && f == Done && Answered(s.w.gw, ReleaseState.Request(s.worker.task.domain, None))
  {
  }

  /** How reconciliation comes to its end. */
  lemma LastEffect(s: Sys, f: Fault)
    requires RInv(s) && s.worker.Busy? && ProcOf(s.worker.pc) == Reconciles && !LateThrow(s, Work(f))
    requires Advance(s, f).worker.Busy? && Advance(s, f).worker.pc == DpBegin
    ensures s.worker.pc in {RcRead, RcPromote, RcAbandon}
    ensures s.worker.pc == RcPromote ==>
        f == Done && s.w.db.active.None? && Advance(s, f).w.db.active == s.worker.loc.cand
    ensures s.worker.pc != RcPromote ==> Advance(s, f).w.db.active == s.w.db.active
  {
  }

  /** The interrupted candidate goes live exactly when there was no live release and its probe was
      answered. */
  lemma PromotedExactly(run: seq<Sys>, ls: seq<Label>)
    requires ReconcileRun(run, ls) && RInv(run[0]) && run[0].worker.pc == RcRead && run[|ls|].worker.pc == DpBegin
    ensures run[|ls|].w.db.active != run[0].w.db.active <==> exists k: nat :: ProbedAndPromoted(run, ls, k)
  {
    var n := |ls|;
    assert n > 0;
    ReconcileRunSettles(run, ls, n - 1);
    assert run[n] == Advance(run[n - 1], ls[n - 1].f);
    LastEffect(run[n - 1], ls[n - 1].f);
    DatabaseMovesLast(run, ls, n - 1);
    if run[n - 1].worker.pc == RcPromote {
      assert n > 1;
      ReconcileRunSettles(run, ls, n - 2);
      assert run[n - 1] == Advance(run[n - 2], ls[n - 2].f);
      PromotionFollowsProbe(run[n - 2], ls[n - 2].f);
      assert ProbedAndPromoted(run, ls, n - 2);
    } else {
      forall k: nat | ProbedAndPromoted(run, ls, k) ensures k + 2 == n {
        PromotionEnds(run, ls, k);
      }
    }
  }

  lemma DatabaseMovesLast(run: seq<Sys>, ls: seq<Label>, i: nat)
    requires ReconcileRun(run, ls) && RInv(run[0]) && run[0].worker.pc == RcRead && i < |ls|
    ensures run[i].w.db == run[0].w.db
  {
    ReconcileRunSettles(run, ls, i);
    assert ProcOf(run[i].worker.pc) == Reconciles;
  }

  lemma PromotionEnds(run: seq<Sys>, ls: seq<Label>, k: nat)
    requires ReconcileRun(run, ls) && ProbedAndPromoted(run, ls, k)
    ensures k + 2 == |ls|
  {
    assert run[k + 2] == Advance(run[k + 1], Done);
    assert run[k + 2].worker.pc == DpBegin;
  }

  lemma {:induction false} ReconcilingKeepsTask(run: seq<Sys>, ls: seq<Label>, i: nat)
    requires ReconcileRun(run, ls) && i < |run|
    ensures run[i].worker.task == run[0].worker.task
  {
    if i > 0 {
      ReconcilingKeepsTask(run, ls, i - 1);
      assert run[i] == Advance(run[i - 1], ls[i - 1].f);
    }
  }

  /** Stop a worker at any effect, then let the next deploy job reconcile: the route file
      agrees with the active pointer and names that job's domain, the interrupted candidate is
      live or FAILED and its pointer cleared, nothing else moved, and reconciling once more
      changes nothing.  It is live exactly when there was no live release, it had a runtime, and
      its probe was answered and its promotion written. */
  lemma CrashRecovery(s: Sys, task: Task, run: seq<Sys>, ls: seq<Label>, next: Task)
    requires RInv(s) && !task.rollback && NewRelease(s.w.db, task)
    requires ReconcileRun(run, ls) && run[0] == Do(Do(s, Crash), Start(task))
    requires run[|ls|].worker.pc == DpBegin
    ensures Settled(s.w, run[|ls|].w, task.domain)
    ensures !LiveCandidate(run[|ls|].w.db)
    ensures run[|ls|].w.db.candidate.None? <==> (s.w.db.candidate.None? || LiveCandidate(s.w.db))
    ensures run[|ls|].w.db.active != s.w.db.active <==> exists k: nat :: ProbedAndPromoted(run, ls, k)
    ensures run[|ls|].w.db.active != s.w.db.active ==>
              && s.w.db.active.None? && LiveCandidate(s.w.db) && run[|ls|].w.db.active == s.w.db.candidate
              && ContainerOf(s.w.db, s.w.db.candidate).Some?
    ensures var settled := Sys(run[|ls|].w, Idle);
            !next.rollback && NewRelease(settled.w.db, next) ==>
              var again := Advance(Do(settled, Start(next)), Done);
              again.w == settled.w && again.worker.Busy? && again.worker.pc == DpBegin
  {
    CrashKeepsRoute(s);
    assert RInv(run[0]);
    ReconcileRunSettles(run, ls, |ls|);
    PromotedExactly(run, ls);
    ReconcilingKeepsTask(run, ls, |ls|);
    SettledMeaning(s.w, run[|ls|].w, task.domain);
  }

  lemma SettledMeaning(before: World, after: World, domain: string)
    requires DbOk(before.db) && DbOk(after.db) && Settled(before, after, domain)
    ensures !LiveCandidate(after.db)
    ensures after.db.candidate.None? <==> (before.db.candidate.None? || LiveCandidate(before.db))
    ensures after.db.active != before.db.active ==>
              && before.db.active.None? && LiveCandidate(before.db) && after.db.active == before.db.candidate
              && ContainerOf(before.db, before.db.candidate).Some?
  {
  }

  function Remaining(pc: Pc): nat {
    match pc
    case RcRead => 8
    case RcJoinCandidate => 7
    case RcWriteCandidate => 6
    case RcProbe => 5
    case RcPromote => 4
    case RcUndo => 3
    case RcJoinActive => 4
    case RcWriteActive => 3
    case RcLeaveCandidate => 2
    case RcAbandon => 1
    case _ => 0
  }

  /** Reconciliation whose commands all succeed comes to an end, whatever its probe says. */
  lemma {:induction false} ReconcileCompletes(s: Sys) returns (n: nat)
    requires Inv(s) && s.worker.Busy? && (ProcOf(s.worker.pc) == Reconciles || s.worker.pc == DpBegin)
    ensures n <= Remaining(s.worker.pc)
    ensures var s' := Steps(s, seq(n, _ => Done)); s'.worker.Busy? && s'.worker.pc == DpBegin
    decreases Remaining(s.worker.pc)
  {
    if s.worker.pc == DpBegin {
      n := 0;
    } else {
      WorkKeepsInv(s, Done);
      ForwardOnDone(s);
      var m := ReconcileCompletes(Advance(s, Done));
      n := m + 1;
      assert seq(n, _ => Done)[1..] == seq(m, _ => Done);
    }
  }

  lemma ForwardOnDone(s: Sys)
    requires Inv(s) && s.worker.Busy? && ProcOf(s.worker.pc) == Reconciles
    ensures var s' := Advance(s, Done);
            && s'.worker.Busy? && (ProcOf(s'.worker.pc) == Reconciles || s'.worker.pc == DpBegin)
            && Remaining(s'.worker.pc) < Remaining(s.worker.pc)
  {
  }

  // ---------------------------------------------------------------- which host is served

  /** Route file, saved copy and job are all about one domain. */
  ghost predicate OneHost(s: Sys, domain: string) {
    && (s.w.gw.route.Some? ==> s.w.gw.route.value.domain == domain)
    && (s.w.gw.backup.Some? ==> s.w.gw.backup.value.domain == domain)
    && (s.worker.Busy? ==> s.worker.task.domain == domain)
  }

  lemma EffectKeepsHost(s: Sys, domain: string)
    requires OneHost(s, domain)
    ensures OneHost(Sys(Effect(s.w, s.worker), s.worker), domain)
  {
  }

  lemma ControlKeepsDomain(w: World, worker: Worker, f: Fault)
    requires worker.Busy?
    ensures var worker' := Control(w, worker, f); worker'.Busy? ==> worker'.task.domain == worker.task.domain
  {
  }

  lemma StepKeepsHost(s: Sys, l: Label, domain: string)
    requires OneHost(s, domain) && Enabled(s, l) && (l.Start? ==> l.task.domain == domain)
    ensures OneHost(Do(s, l), domain)
  {
    if l.Work? {
      EffectKeepsHost(s, domain);
      ControlKeepsDomain(s.w, s.worker, l.f);
    }
  }

  /** As long as all jobs deploy to one domain, no route but that domain's is ever written,
      whatever fails, crashes or is rolled back. */
  lemma {:induction false} OneDomainOneHost(run: seq<Sys>, ls: seq<Label>, domain: string, i: nat)
    requires IsRun(run, ls) && OneHost(run[0], domain) && i < |run|
    requires forall k :: 0 <= k < |ls| && ls[k].Start? ==> ls[k].task.domain == domain
    ensures OneHost(run[i], domain)
  {
    if i > 0 {
      OneDomainOneHost(run, ls, domain, i - 1);
      StepKeepsHost(run[i - 1], ls[i - 1], domain);
    }
  }

  /** After a move to another domain was interrupted, recovery serves the host of the job that
      recovers, and the live release's old host exactly when that is the same. */
  lemma RecoveryMovesTheHost(before: World, after: World, domain: string, host: string)
    requires Settled(before, after, domain) && LiveCandidate(before.db) && after.db.active.Some?
    ensures Serve(after.gw.route, ReleaseState.Request(host, None)).Some? <==> host == SafeHost(domain)
    ensures host == SafeHost(domain) ==>
              Serve(after.gw.route, ReleaseState.Request(host, None)).value.owner == after.db.active.value
  {
    ServeMeaning(after.gw.route.value, ReleaseState.Request(host, None));
  }

  // ---------------------------------------------------------------- what is not repaired

  /** Between marking a candidate FAILED and clearing its pointer a crash leaves a pointer
      that reconciliation does not touch. */
  lemma FailedCandidateIsLeftBehind(s: Sys, task: Task)
    requires RInv(s) && s.worker.Busy? && s.worker.pc == CaFail && s.w.db.candidate == Some(s.worker.task.id)
    requires !task.rollback && NewRelease(s.w.db, task)
    ensures var crashed := Do(Advance(s, Done), Crash);
            && NewRelease(crashed.w.db, task)
            && var next := Advance(Do(crashed, Start(task)), Done);
               next.worker.Busy? && next.worker.pc == DpBegin && next.w.db.candidate == Some(s.worker.task.id)
  {
  }

  // ---------------------------------------------------------------- a failed activation

  ghost predicate OthersKept(before: Db, after: Db, id: Id) {
    && after.active == before.active
    && after.releases.Keys == before.releases.Keys
    && forall o :: o in before.releases && o != id ==> after.releases[o] == before.releases[o]
  }

  /** The route file is what it was and no copy is left, the candidate is off the public network and FAILED, and
      the live release and every other row are untouched. */
  ghost predicate Undone(before: World, after: World, task: Task) {
    && OthersKept(before.db, after.db, task.id)
    && after.gw.route == before.gw.route && after.gw.backup.None?
    && task.container !in after.gw.public
    && task.id in after.db.releases
    && after.db.releases[task.id].status == FAILED && after.db.releases[task.id].readiness == REJECTED
    && after.db.candidate == (if before.db.candidate == Some(task.id) then None else before.db.candidate)
  }

  /** Where the content of the route file on entry is to be found, effect by effect. */
  ghost predicate Saved(w0: World, w: World, pc: Pc, task: Task) {
    match pc
    case AcLoad | AcReady | AcJoinCandidate | AcJoinActive | AcActivating | AcBackup => w.gw.route == w0.gw.route
    case AcCanary | AcProbeCanary | AcPublic | AcProbePublic | AcCommit | CaRestore => w.gw.backup == w0.gw.route
    case CaLeaveCandidate => w.gw.route == w0.gw.route && w.gw.backup.None?
    case CaFail => w.gw.route == w0.gw.route && w.gw.backup.None? && task.container !in w.gw.public
    case CaClear =>
      && w.gw.route == w0.gw.route && w.gw.backup.None? && task.container !in w.gw.public
      && task.id in w.db.releases
      && w.db.releases[task.id].status == FAILED && w.db.releases[task.id].readiness == REJECTED
    case _ => false
  }

  /** An activation that has not committed, and whose handler has not finished. */
  predicate Uncommitted(pc: Pc) {
    match pc
    case AcLoad | AcReady | AcJoinCandidate | AcJoinActive | AcActivating | AcBackup | AcCanary | AcProbeCanary => true
    case AcPublic | AcProbePublic | AcCommit | CaRestore | CaLeaveCandidate | CaFail | CaClear => true
    case _ => false
  }

  ghost predicate Undoing(w0: World, task: Task, s: Sys) {
    && s.worker.Busy? && s.worker.task == task && Uncommitted(s.worker.pc)
    && task.id in s.w.db.releases
    && OthersKept(w0.db, s.w.db, task.id) && s.w.db.candidate == w0.db.candidate
    && Saved(w0, s.w, s.worker.pc, task)
  }

  /** The backup command takes effect, and so does every effect of the handler. */
  predicate Compensated(pc: Pc, f: Fault) {
    && (pc.AcBackup? ==> Applied(f))
    && (pc.CaRestore? || pc.CaLeaveCandidate? || pc.CaFail? || pc.CaClear? ==> f.Done?)
    && (pc.AcCommit? ==> f != ThrewAfter)
  }

  lemma PrepareKeepsUndoing(w0: World, task: Task, s: Sys, f: Fault)
    requires Undoing(w0, task, s) && ProcOf(s.worker.pc) == Activates
    requires Advance(s, f).worker.Busy? && Uncommitted(Advance(s, f).worker.pc)
    ensures Undoing(w0, task, Advance(s, f))
  {
    hide RenderRoute, PublicRoute, Answered;
    assert Advance(s, f).worker == ActivateControl(s.w, s.worker.pc, s.worker.task, s.worker.loc, f);
  }

  lemma SwitchKeepsUndoing(w0: World, task: Task, s: Sys, f: Fault)
    requires Undoing(w0, task, s) && ProcOf(s.worker.pc) == Switches && Compensated(s.worker.pc, f)
    requires Advance(s, f).worker.Busy? && Uncommitted(Advance(s, f).worker.pc)
    ensures Undoing(w0, task, Advance(s, f))
  {
  }

  lemma HandlerKeepsUndoing(w0: World, task: Task, s: Sys, f: Fault)
    requires Undoing(w0, task, s) && s.worker.pc in {CaRestore, CaLeaveCandidate, CaFail} && Compensated(s.worker.pc, f)
    ensures Undoing(w0, task, Advance(s, f))
  {
  }

  lemma HandlerFinishesUndoing(w0: World, task: Task, s: Sys)
    requires Undoing(w0, task, s) && s.worker.pc == CaClear
    ensures Undone(w0, Advance(s, Done).w, task)
  {
  }

  /** A run of the worker inside `activate`, up to the end of its catch block. */
  ghost predicate FailingRun(run: seq<Sys>, ls: seq<Label>) {
    && IsRun(run, ls)
    && (forall k :: 0 <= k < |ls| ==>
          ls[k].Work? && run[k].worker.Busy? && Uncommitted(run[k].worker.pc) && Compensated(run[k].worker.pc, ls[k].f))
  }

  lemma {:induction false} FailingRunKeepsUndoing(run: seq<Sys>, ls: seq<Label>, i: nat)
    requires FailingRun(run, ls) && i < |ls| && Undoing(run[0].w, run[0].worker.task, run[0])
    ensures Undoing(run[0].w, run[0].worker.task, run[i])
  {
    if i > 0 {
      FailingRunKeepsUndoing(run, ls, i - 1);
      var w0, task, s, f := run[0].w, run[0].worker.task, run[i - 1], ls[i - 1].f;
      assert run[i] == Advance(s, f) && ls[i].Work?;
      match ProcOf(s.worker.pc)
      case Activates => PrepareKeepsUndoing(w0, task, s, f);
      case Switches => SwitchKeepsUndoing(w0, task, s, f);
      case _ => HandlerKeepsUndoing(w0, task, s, f);
    }
  }

  /** An activation that throws before its commit, once the route file has been saved, leaves
      nothing behind: whatever failed, the world is as it was but for the FAILED candidate. */
  lemma FailedActivationIsUndone(run: seq<Sys>, ls: seq<Label>)
    requires FailingRun(run, ls) && |ls| > 0
    requires run[0].worker.Busy? && run[0].worker.pc == AcLoad && run[0].worker.task.id in run[0].w.db.releases
    requires run[|ls| - 1].worker.pc == CaClear
    ensures Undone(run[0].w, run[|ls|].w, run[0].worker.task)
  {
    FailingRunKeepsUndoing(run, ls, |ls| - 1);
    HandlerFinishesUndoing(run[0].w, run[0].worker.task, run[|ls| - 1]);
  }

  /** When the backup command does not take effect (a cancelled deployment is refused before
      the command runs), the handler puts back whatever copy was lying there: the route file
      survives exactly when that copy equals it. */
  lemma SkippedBackupRestoresTheOldCopy(s: Sys, f: Fault)
    requires s.worker.Busy? && s.worker.pc == AcBackup && !Applied(f)
    ensures var s' := Advance(Advance(s, f), Done);
            && s'.w.gw.route == s.w.gw.backup
            && (s'.w.gw.route == s.w.gw.route <==> s.w.gw.backup == s.w.gw.route)
  {
  }

  /** So a project whose live release was being served loses its route file when an
      activation is cancelled at that point and no old copy is lying there. */
  lemma SkippedBackupCanTakeTheLiveReleaseDown(s: Sys, f: Fault, req: ReleaseState.Request)
    requires RInv(s) && s.worker.Busy? && s.worker.pc == AcBackup && !Applied(f) && s.w.gw.backup.None?
    ensures Serve(Advance(Advance(s, f), Done).w.gw.route, req).None?
  {
    SkippedBackupRestoresTheOldCopy(s, f);
  }

  lemma RepairableWhenUndone(before: World, after: World, task: Task)
    requires DbOk(before.db) && Undone(before, after, task) && before.db.candidate == Some(task.id)
    ensures Repairable(after) <==> RouteOk(before.db, before.gw.route)
  {
    var live := before.db.active;
    assert live.Some? ==> after.db.releases[live.value] == before.db.releases[live.value];
  }

  /** A rollback job does not reconcile first.  It saves the route file it finds and, when it
      fails, puts it back, its own candidate being FAILED by then: the project ends in order exactly
      when the route file agreed with the active pointer on entry. */
  lemma RollbackRestoresAForeignRoute(run: seq<Sys>, ls: seq<Label>)
    requires FailingRun(run, ls) && |ls| > 0
    requires Inv(run[0]) && run[0].worker.Busy? && run[0].worker.pc == AcLoad
    requires run[0].w.db.candidate == Some(run[0].worker.task.id)
    requires run[|ls| - 1].worker.pc == CaClear
    ensures Repairable(run[|ls|].w) <==> RouteOk(run[0].w.db, run[0].w.gw.route)
  {
    FailedActivationIsUndone(run, ls);
    RepairableWhenUndone(run[0].w, run[|ls|].w, run[0].worker.task);
  }

  /** Between jobs, whatever the route file holds. */
  ghost predicate Resting(s: Sys) {
    s.worker.Idle? && Inv(s) && NetInv(s.w.db, s.w.gw) && RouteShape(s.w)
  }

  /** The next reconciliation brings route file and active pointer together exactly when they
      agree already or a live candidate is there; without one it touches nothing. */
  lemma RepairedExactly(s: Sys, task: Task, run: seq<Sys>, ls: seq<Label>)
    requires Resting(s) && !task.rollback && NewRelease(s.w.db, task)
    requires ReconcileRun(run, ls) && run[0] == Do(s, Start(task)) && run[|ls|].worker.pc == DpBegin
    ensures RouteOk(run[|ls|].w.db, run[|ls|].w.gw.route) <==> Repairable(s.w)
    ensures Repairable(s.w) ==> Settled(s.w, run[|ls|].w, task.domain)
    ensures !LiveCandidate(s.w.db) ==> run[|ls|].w == s.w
  {
    if Repairable(s.w) {
      assert Do(s, Crash) == s;
      CrashRecovery(s, task, run, ls, task);
    } else {
      assert run[1] == Advance(run[0], ls[0].f);
      assert run[1].worker == Busy(DpBegin, task, NO_LOCALS) && |ls| == 1;
    }
  }

  /** So any later rollback request has a wrong route repaired, by the reconciliation of the next
      deploy job and with no activation needed. */
  lemma RequestBringsRepair(s: Sys, target: Id)
    requires Resting(s) && CanRollBack(s.w.db, target)
    ensures var s' := Do(s, Label.Request(target)); Resting(s') && Repairable(s'.w)
  {
    StepKeepsInv(s, Label.Request(target));
    RollbackOk(s.w.db, target);
    ShapeKeepsNet(s.w.db, RollbackTx(s.w.db, target), s.w.gw);
    assert LiveCandidate(RollbackTx(s.w.db, target));
  }
}
