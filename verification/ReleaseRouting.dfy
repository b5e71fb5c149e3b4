/**
 What the gateway does while releases change: the invariant that ties the route file, its
 backup and the public network to the database, effect by effect, and from it zero-downtime
 routing during an activation.
 */
module ReleaseRouting {
  import opened Wrappers
  import opened ReleaseState
  import opened ReleaseMachine
  import opened ReleaseInvariant

  // ---------------------------------------------------------------- predicates

  /** The route file sends every request for its host to release `id`. */
  ghost predicate RoutesTo(db: Db, route: Option<Route>, id: Id) {
    && id in db.releases
    && route.Some? && route.value.token.None?
    && route.value.stable == Backend(id, db.releases[id].port)
  }

  /** The route file agrees with the active pointer: absent when there is no live release. */
  ghost predicate RouteOk(db: Db, route: Option<Route>) {
    if db.active.None? then route.None? else RoutesTo(db, route, db.active.value)
  }

  ghost predicate Joined(db: Db, gw: Gateway, id: Id) {
    && id in db.releases && db.releases[id].runtimeRef.Some?
    && db.releases[id].runtimeRef.value in gw.public
    && gw.public[db.releases[id].runtimeRef.value] == id
  }

  /** What is on the public network runs, and joined under the name of a release of that runtime. */
  ghost predicate NetOk(db: Db, gw: Gateway) {
    && (forall c :: c in gw.public ==>
          c in gw.running && gw.public[c] in db.releases && db.releases[gw.public[c]].runtimeRef == Some(c))
    && (forall c :: c in gw.running ==> gw.running[c] in db.releases)
  }

  /** The runtime that the release's own build has started is still there. */
  predicate Own(db: Db, gw: Gateway, id: Id) {
    var box := ContainerOf(db, Some(id));
    box.Some? && box.value in gw.running && gw.running[box.value] == id
  }

  ghost predicate AliasesDistinct(db: Db) {
    forall a, b {:trigger SameAlias(a, b)} :: a in db.releases && b in db.releases && SameAlias(a, b) ==> a == b
  }

  ghost predicate NetInv(db: Db, gw: Gateway) {
    && NetOk(db, gw)
    && (db.active.Some? && Own(db, gw, db.active.value) ==> Joined(db, gw, db.active.value))
  }

  /** The route file is the public route of a release that is not live (yet). */
  predicate Switched(w: World) {
    w.db.active.Some? && w.gw.route.Some? && w.gw.route.value.stable.owner != w.db.active.value
  }

  /** While there is a live release the route file serves it, or is switched. */
  ghost predicate RouteShape(w: World) {
    w.db.active.Some? ==>
      && w.gw.route.Some?
      && var stable, port := w.gw.route.value.stable, PortOf(w.db, w.db.active);
         stable.owner in w.db.releases && (Switched(w) || port == 0 || stable.port == port)
  }

  ghost predicate HasPort(db: Db, task: Task) { task.id in db.releases && db.releases[task.id].port == task.port }

  /** The candidate pointer names this job's release, or one that `reconcileProject` repairs. */
  ghost predicate Owned(db: Db, task: Task) { db.candidate == Some(task.id) || LiveCandidate(db) }

  function StableFor(db: Db): Option<Backend> {
    if db.active.None? then None else Some(Backend(db.active.value, PortOf(db, db.active)))
  }

  function CanaryRoute(task: Task, stable: Option<Backend>): Route {
    RenderRoute(task.domain, task.id, task.port, Some(task.token), stable)
  }

  /** The effects before which the route file agrees with the active pointer. */
  predicate RouteRight(pc: Pc) {
    match pc
    case RcRead | RcJoinCandidate | RcWriteCandidate | RcProbe => false
    case RcPromote | RcUndo | RcJoinActive | RcWriteActive => false
    case AcProbeCanary | AcPublic | AcProbePublic | AcCommit | CaRestore => false
    case _ => true
  }

  /** Those of a rollback job up to the canary write, and after giving up early: it may have been
      started on a route file that a crashed activation left behind. */
  predicate Early(pc: Pc) {
    match pc
    case RbRead | RbValidate | RbUnpin => true
    case AcLoad | AcReady | AcJoinCandidate | AcJoinActive | AcActivating | AcBackup | AcCanary => true
    case _ => false
  }

  /** Those before which the saved copy does. */
  predicate BackupRight(pc: Pc) {
    match pc
    case AcCanary | AcProbeCanary | AcPublic | AcProbePublic | AcCommit | CaRestore => true
    case _ => false
  }

  /** Those before which a crash leaves a candidate that reconciliation repairs. */
  predicate CandidateLive(pc: Pc) {
    match pc
    case RcRead | DpBegin | DpEvict | DpLaunch | DpRecord | RbRead | RbValidate | AcLoad | AcReady => false
    case AcLeaveOld | AcDropBackup | CaLeaveCandidate | CaFail | CaClear => false
    case DfFail | DfClear | DfRemove | RbUnpin => false
    case _ => true
  }

  predicate Owning(pc: Pc) {
    match pc
    case DpEvict | DpLaunch | DpRecord | RbValidate | AcLoad | AcReady => true
    case _ => false
  }

  predicate Ported(pc: Pc) {
    match pc
    case DpEvict | DpLaunch | DpRecord | RbValidate => true
    case AcLoad | AcReady | AcJoinCandidate | AcJoinActive | AcActivating => true
    case AcBackup | AcCanary | AcProbeCanary | AcPublic | AcProbePublic | AcCommit => true
    case _ => false
  }

  /** Which stable backend `activate` has read so far. */
  ghost predicate StableRead(db: Db, pc: Pc, loc: Locals) {
    match pc
    case AcReady | AcJoinCandidate | AcJoinActive => loc.stable.None?
    case AcActivating | AcBackup | AcCanary | AcProbeCanary | AcPublic => loc.stable == StableFor(db)
    case _ => true
  }

  /** What the route file holds while it is being switched. */
  ghost predicate Written(w: World, pc: Pc, task: Task, loc: Locals) {
    match pc
    case RcProbe | RcPromote =>
      loc.cand.Some? && w.gw.route == Some(PublicRoute(task.domain, loc.cand.value, PortOf(w.db, loc.cand)))
    case AcProbeCanary | AcPublic => w.gw.route == Some(CanaryRoute(task, loc.stable))
    case AcProbePublic | AcCommit => w.gw.route == Some(PublicRoute(task.domain, task.id, task.port))
    case _ => true
  }

  /** Once a probe has been answered, the probed release is on the public network. */
  ghost predicate Reached(w: World, pc: Pc, task: Task, loc: Locals) {
    match pc
    case RcPromote => loc.cand.Some? && Joined(w.db, w.gw, loc.cand.value)
    case AcPublic | AcProbePublic | AcCommit => Joined(w.db, w.gw, task.id)
    case _ => true
  }

  ghost predicate DbSide(db: Db, pc: Pc, task: Task, loc: Locals) {
    && (CandidateLive(pc) ==> LiveCandidate(db))
    && (Owning(pc) ==> Owned(db, task))
    && (Ported(pc) ==> HasPort(db, task))
    && (pc.DpEvict? || pc.DpLaunch? || pc.DpRecord? ==> task.id in db.releases && db.releases[task.id].runtimeRef.None?)
    && StableRead(db, pc, loc)
  }

  ghost predicate GwSide(w: World, pc: Pc, task: Task, loc: Locals) {
    && (RouteRight(pc) ==> RouteOk(w.db, w.gw.route) || (task.rollback && Early(pc) && LiveCandidate(w.db)))
    && (BackupRight(pc) ==> RouteOk(w.db, w.gw.backup) || task.rollback)
    && Written(w, pc, task, loc)
    && Reached(w, pc, task, loc)
  }

  /** The route is right, or reconciliation will make it right. */
  ghost predicate Repairable(w: World) { LiveCandidate(w.db) || RouteOk(w.db, w.gw.route) }

  /** What holds of route, backup and candidate before each effect. */
  ghost predicate PcRoute(w: World, worker: Worker) {
    match worker
    case Idle => Repairable(w)
    case Busy(pc, task, loc) =>
      (pc.RcRead? ==> Repairable(w)) && DbSide(w.db, pc, task, loc) && GwSide(w, pc, task, loc)
  }

  ghost predicate RInv(s: Sys) {
    Inv(s) && NetInv(s.w.db, s.w.gw) && PcRoute(s.w, s.worker) && RouteShape(s.w)
  }

  /** The step takes a runtime off the network in which the live release still runs: the release
      that is given up shares it with the live one. */
  predicate Strays(s: Sys, l: Label) {
    && l.Work? && Applied(l.f) && s.worker.Busy? && s.w.db.active.Some? && Own(s.w.db, s.w.gw, s.w.db.active.value)
    && var live := ContainerOf(s.w.db, s.w.db.active);
       match s.worker.pc
       case RcLeaveCandidate => ContainerOf(s.w.db, s.worker.loc.cand) == live
       case CaLeaveCandidate => Some(s.worker.task.container) == live
       case _ => false
  }

  /** The handler of a rollback puts back a route file that does not agree with the active pointer:
      the one a crashed activation had left, which this job had saved. */
  ghost predicate RestoresForeign(s: Sys, l: Label) {
    && l.Work? && Applied(l.f) && s.worker.Busy? && s.worker.pc.CaRestore? && s.worker.task.rollback
    && !RouteOk(s.w.db, s.w.gw.backup)
  }

  /** The conditions under which routing is repaired: no late error, the backup command and the
      two compensations take effect, no rollback's handler puts a foreign route back, and live
      release and candidate do not share a runtime. */
  ghost predicate Orderly(s: Sys, l: Label) {
    && !LateThrow(s, l) && !Strays(s, l) && !RestoresForeign(s, l)
    && match l
       case Work(f) => s.worker.Busy? ==>
         && (s.worker.pc.AcBackup? || s.worker.pc.CaRestore? ==> Applied(f))
         && (s.worker.pc.RcUndo? ==> !f.Swallowed?)
       case _ => true
  }

  // ---------------------------------------------------------------- the network

  lemma ShapeKeepsNet(db: Db, db': Db, gw: Gateway)
    requires SameShape(db, db') && NetInv(db, gw)
    ensures NetInv(db', gw)
  {
  }

  lemma JoinKeepsNet(db: Db, gw: Gateway, id: Id)
    requires NetInv(db, gw) && id in db.releases && db.releases[id].runtimeRef.Some?
    ensures NetInv(db, Join(gw, db.releases[id].runtimeRef.value, id))
  {
  }

  lemma LeaveKeepsNet(db: Db, gw: Gateway, c: Container)
    requires NetInv(db, gw)
    requires db.active.Some? && Own(db, gw, db.active.value) ==> ContainerOf(db, db.active) != Some(c)
    ensures NetInv(db, Leave(gw, c))
  {
  }

  lemma EvictKeepsNet(db: Db, gw: Gateway, dockerName: string)
    requires NetInv(db, gw)
    ensures NetInv(db, Evict(db, gw, dockerName))
  {
  }

  lemma LaunchKeepsNet(db: Db, gw: Gateway, c: Container, id: Id)
    requires NetInv(db, gw) && Spare(db, id)
    ensures NetInv(db, Launch(gw, c, id))
  {
  }

  lemma RemoveKeepsNet(db: Db, gw: Gateway, c: Container, id: Id)
    requires NetInv(db, gw) && Spare(db, id)
    ensures NetInv(db, Remove(gw, c, id))
  {
  }

  lemma BuildEffectKeepsNet(w: World, worker: Worker)
    requires WorkerOk(w.db, worker) && NetInv(w.db, w.gw) && worker.Busy?
    requires worker.pc.DpEvict? || worker.pc.DpLaunch? || worker.pc.DfRemove?
    ensures NetInv(w.db, GwEffect(w.db, w.gw, worker))
  {
    match worker.pc
    case DpEvict => EvictKeepsNet(w.db, w.gw, worker.task.dockerName);
    case DpLaunch => LaunchKeepsNet(w.db, w.gw, worker.task.container, worker.task.id);
    case DfRemove => RemoveKeepsNet(w.db, w.gw, worker.task.container, worker.task.id);
  }

  lemma GwEffectKeepsNet(w: World, worker: Worker)
    requires DbOk(w.db) && WorkerOk(w.db, worker) && NetInv(w.db, w.gw) && !Strays(Sys(w, worker), Work(Done))
    ensures NetInv(w.db, GwEffect(w.db, w.gw, worker))
  {
    match worker
    case Idle =>
    case Busy(pc, task, loc) =>
      match pc
      case RcJoinCandidate => JoinKeepsNet(w.db, w.gw, loc.cand.value);
      case RcUndo => LeaveKeepsNet(w.db, w.gw.(route := None), w.db.releases[loc.cand.value].runtimeRef.value);
      case RcJoinActive => JoinKeepsNet(w.db, w.gw, loc.active.value);
      case RcLeaveCandidate => LeaveKeepsNet(w.db, w.gw, w.db.releases[loc.cand.value].runtimeRef.value);
      case DpEvict | DpLaunch | DfRemove => BuildEffectKeepsNet(w, worker);
      case AcJoinCandidate => JoinKeepsNet(w.db, w.gw, task.id);
      case AcJoinActive =>
        if loc.active.Some? { JoinKeepsNet(w.db, w.gw, loc.active.value); }
      case AcLeaveOld =>
        var before := ContainerOf(w.db, loc.active);
        if before.Some? && before.value != task.container { LeaveKeepsNet(w.db, w.gw, before.value); }
      case CaLeaveCandidate => LeaveKeepsNet(w.db, w.gw, task.container);
      case _ =>
  }

  /** With distinct aliases an answered probe means the intended release has joined. */
  lemma AnsweredMeansJoined(db: Db, gw: Gateway, req: ReleaseState.Request, id: Id)
    requires NetOk(db, gw) && AliasesDistinct(db) && id in db.releases
    requires Answered(gw, req) && Serve(gw.route, req).value.owner == id
    ensures Joined(db, gw, id)
  {
    var c :| c in gw.public && AnswersTo(gw, c, id);
    assert gw.public[c] in db.releases;
  }

  // ---------------------------------------------------------------- what a route serves

  /** Every rendered route: the canary router wins exactly for its token, and the plain
      router takes every other request for the host. */
  lemma ServeMeaning(route: Route, req: ReleaseState.Request)
    ensures Serve(Some(route), req) ==
            if req.host != SafeHost(route.domain) then None
            else if route.token.Some? && req.token == route.token then Some(route.candidate)
            else Some(route.stable)
  {
    var rs := Routers(route);
    var host := SafeHost(route.domain);
    var plain := Router(10000, host, None, route.stable);
    if route.token.Some? {
      var canary := Router(11000, host, route.token, route.candidate);
      assert rs == [plain, canary] && rs[1..] == [canary] && rs[1..][1..] == [];
      assert Best(rs[1..], req) == if Matches(canary, req) then Some(canary) else None;
    } else {
      assert rs == [plain] && rs[1..] == [];
      assert Best(rs[1..], req).None?;
    }
  }

  /** The rendered services: the token's requests go to the candidate, all others to the stable
      release under its own port, or the candidate's where that is zero, and to the candidate itself
      where there is none. */
  lemma RenderedServes(domain: string, id: Id, port: nat, token: Option<string>, stable: Option<Backend>,
                       asked: Option<string>)
    ensures var req := ReleaseState.Request(SafeHost(domain), asked);
            Serve(Some(RenderRoute(domain, id, port, token, stable)), req) == Some(
              if stable.None? || (token.Some? && asked == token) then Backend(id, port)
              else if stable.value.port > 0 then stable.value
              else Backend(stable.value.owner, port))
  {
    ServeMeaning(RenderRoute(domain, id, port, token, stable), ReleaseState.Request(SafeHost(domain), asked));
  }

  lemma {:induction false} KeepCounts(s: string, p: char -> bool, c: char)
    ensures multiset(Keep(s, p))[c] == if p(c) then multiset(s)[c] else 0
  {
    if s != "" {
      KeepCounts(s[1..], p, c);
      assert s == [s[0]] + s[1..];
    }
  }

  lemma {:induction false} KeepAll(s: string, p: char -> bool)
    requires forall i :: 0 <= i < |s| ==> p(s[i])
    ensures Keep(s, p) == s
  {
    if s != "" {
      KeepAll(s[1..], p);
    }
  }

  /** The characters that a host rule keeps. */
  predicate HostChar(c: char) { 'a' <= c <= 'z' || 'A' <= c <= 'Z' || '0' <= c <= '9' || c in {'.', '-'} }

  /** A host rule keeps the letters, digits, dots and hyphens of a domain and drops all else: a domain of
      nothing but those is served under its own name. */
  lemma SafeHostExactly(domain: string)
    ensures forall c :: multiset(SafeHost(domain))[c] == if HostChar(c) then multiset(domain)[c] else 0
    ensures SafeHost(domain) == domain <==> forall i :: 0 <= i < |domain| ==> HostChar(domain[i])
  {
    var p := c => IsAlnum(c) || c == '.' || c == '-';
    assert SafeHost(domain) == Keep(domain, p);
    forall c ensures multiset(SafeHost(domain))[c] == if HostChar(c) then multiset(domain)[c] else 0 {
      KeepCounts(domain, p, c);
    }
    if forall i :: 0 <= i < |domain| ==> HostChar(domain[i]) {
      KeepAll(domain, p);
    } else {
      var i :| 0 <= i < |domain| && !HostChar(domain[i]);
      assert domain[i] in multiset(domain);
    }
  }

  lemma CanaryServesCandidate(task: Task, stable: Option<Backend>)
    ensures var served := Serve(Some(CanaryRoute(task, stable)), ReleaseState.Request(task.domain, Some(task.token)));
            served.Some? ==> served.value == Backend(task.id, task.port)
  {
    ServeMeaning(CanaryRoute(task, stable), ReleaseState.Request(task.domain, Some(task.token)));
  }

  // ---------------------------------------------------------------- steps

  lemma RequestKeepsRoute(s: Sys, target: Id)
    requires RInv(s) && CanRollBack(s.w.db, target)
    ensures RInv(Do(s, Label.Request(target)))
  {
    var db, db' := s.w.db, RollbackTx(s.w.db, target);
    StepKeepsInv(s, Label.Request(target));
    RollbackOk(db, target);
    ShapeKeepsNet(db, db', s.w.gw);
    assert LiveCandidate(db');
  }

  lemma ActivationKeepsNet(db: Db, db': Db, gw: Gateway, id: Id)
    requires NetOk(db, gw) && Joined(db, gw, id)
    requires db'.active == Some(id) && db'.releases.Keys == db.releases.Keys
    requires forall o :: o in db.releases ==> db'.releases[o].runtimeRef == db.releases[o].runtimeRef
    ensures NetInv(db', gw)
  {
  }

  lemma BeginKeepsNet(db: Db, gw: Gateway, task: Task)
    requires DbOk(db) && NetInv(db, gw) && NewRelease(db, task)
    ensures NetInv(BeginTx(db, task.id, task.port, task.dockerName), gw)
  {
    FreeCandidateOk(db);
  }

  lemma ReshapingKeepsNet(s: Sys, f: Fault)
    requires RInv(s) && s.worker.Busy? && Reshapes(s.worker.pc) && !LateThrow(s, Work(f))
    ensures NetInv(DbEffect(s.w.db, s.worker), s.w.gw)
  {
    var db, task := s.w.db, s.worker.task;
    match s.worker.pc
    case RcPromote =>
      PromoteOk(db, s.worker.loc.cand.value);
      ActivationKeepsNet(db, PromoteTx(db, s.worker.loc.cand.value), s.w.gw, s.worker.loc.cand.value);
    case DpBegin => BeginKeepsNet(db, s.w.gw, task);
    case DpRecord =>
    case AcCommit =>
      CommitOk(db, task.id);
      ActivationKeepsNet(db, CommitTx(db, task.id, db.active), s.w.gw, task.id);
  }

  lemma WorkKeepsNet(s: Sys, f: Fault)
    requires RInv(s) && s.worker.Busy? && !LateThrow(s, Work(f)) && !Strays(s, Work(f))
    ensures NetInv(Advance(s, f).w.db, Advance(s, f).w.gw)
  {
    if !Applied(f) {
    } else if Reshapes(s.worker.pc) {
      ReshapingKeepsNet(s, f);
    } else {
      EffectOk(s.w.db, s.worker);
      GwEffectKeepsNet(s.w, s.worker);
      ShapeKeepsNet(s.w.db, DbEffect(s.w.db, s.worker), GwEffect(s.w.db, s.w.gw, s.worker));
    }
  }

  lemma ReadKeepsRoute(w: World, worker: Worker, f: Fault)
    requires WorkerOk(w.db, worker) && PcRoute(w, worker) && worker.Busy? && worker.pc == RcRead
    requires DbOk(w.db)
    ensures PcRoute(After(w, worker, f), Control(w, worker, f))
  {
  }

  lemma PromotionAttemptKeepsRoute(w: World, worker: Worker, f: Fault)
    requires WorkerOk(w.db, worker) && PcRoute(w, worker) && worker.Busy?
        && worker.pc in {RcJoinCandidate, RcWriteCandidate}
    ensures PcRoute(After(w, worker, f), Control(w, worker, f))
  {
  }

  lemma PromotionProbeKeepsRoute(w: World, worker: Worker, f: Fault)
    requires WorkerOk(w.db, worker) && PcRoute(w, worker) && worker.Busy? && worker.pc == RcProbe
    requires NetOk(w.db, w.gw) && AliasesDistinct(w.db)
    ensures PcRoute(After(w, worker, f), Control(w, worker, f))
  {
    var req := ReleaseState.Request(worker.task.domain, None);
    if Answered(w.gw, req) {
      ServeMeaning(w.gw.route.value, req);
      AnsweredMeansJoined(w.db, w.gw, req, worker.loc.cand.value);
    }
  }

  lemma PromotionKeepsRoute(w: World, worker: Worker, f: Fault)
    requires WorkerOk(w.db, worker) && PcRoute(w, worker) && worker.Busy? && worker.pc == RcPromote && f != ThrewAfter
    ensures PcRoute(After(w, worker, f), Control(w, worker, f))
  {
  }

  lemma UndoPromotionKeepsRoute(w: World, worker: Worker, f: Fault)
    requires WorkerOk(w.db, worker) && PcRoute(w, worker) && worker.Busy? && worker.pc == RcUndo && !f.Swallowed?
    ensures PcRoute(After(w, worker, f), Control(w, worker, f))
  {
  }

  lemma RepairKeepsRoute(w: World, worker: Worker, f: Fault)
    requires WorkerOk(w.db, worker) && PcRoute(w, worker) && worker.Busy? && worker.pc in {RcJoinActive, RcWriteActive}
    requires DbOk(w.db)
    ensures PcRoute(After(w, worker, f), Control(w, worker, f))
  {
  }

  lemma LeaveKeepsRoute(w: World, worker: Worker, f: Fault)
    requires WorkerOk(w.db, worker) && PcRoute(w, worker) && worker.Busy? && worker.pc == RcLeaveCandidate
    ensures PcRoute(After(w, worker, f), Control(w, worker, f))
  {
  }

  lemma AbandonKeepsRoute(w: World, worker: Worker, f: Fault)
    requires WorkerOk(w.db, worker) && PcRoute(w, worker) && worker.Busy? && worker.pc == RcAbandon
    ensures PcRoute(After(w, worker, f), Control(w, worker, f))
  {
  }

  lemma ReconcileKeepsRoute(w: World, worker: Worker, f: Fault)
    requires WorkerOk(w.db, worker) && PcRoute(w, worker) && worker.Busy? && ProcOf(worker.pc) == Reconciles
    requires DbOk(w.db) && NetOk(w.db, w.gw) && AliasesDistinct(w.db) && Orderly(Sys(w, worker), Work(f))
    ensures PcRoute(After(w, worker, f), Control(w, worker, f))
  {
    match worker.pc
    case RcRead => ReadKeepsRoute(w, worker, f);
    case RcJoinCandidate | RcWriteCandidate => PromotionAttemptKeepsRoute(w, worker, f);
    case RcProbe => PromotionProbeKeepsRoute(w, worker, f);
    case RcPromote => PromotionKeepsRoute(w, worker, f);
    case RcUndo => UndoPromotionKeepsRoute(w, worker, f);
    case RcJoinActive | RcWriteActive => RepairKeepsRoute(w, worker, f);
    case RcLeaveCandidate => LeaveKeepsRoute(w, worker, f);
    case RcAbandon => AbandonKeepsRoute(w, worker, f);
  }

  lemma BeginKeepsRoute(w: World, worker: Worker, f: Fault)
    requires WorkerOk(w.db, worker) && PcRoute(w, worker) && worker.Busy? && worker.pc == DpBegin
    requires DbOk(w.db)
    ensures PcRoute(After(w, worker, f), Control(w, worker, f))
  {
    FreeCandidateOk(w.db);
  }

  lemma EvictKeepsRoute(w: World, worker: Worker, f: Fault)
    requires WorkerOk(w.db, worker) && PcRoute(w, worker) && worker.Busy? && worker.pc == DpEvict
    ensures PcRoute(After(w, worker, f), Control(w, worker, f))
  {
    var gw := Evict(w.db, w.gw, worker.task.dockerName);
    assert gw.route == w.gw.route && gw.backup == w.gw.backup;
  }

  lemma LaunchKeepsRoute(w: World, worker: Worker, f: Fault)
    requires WorkerOk(w.db, worker) && PcRoute(w, worker) && worker.Busy? && worker.pc == DpLaunch
    ensures PcRoute(After(w, worker, f), Control(w, worker, f))
  {
  }

  lemma RecordKeepsRoute(w: World, worker: Worker, f: Fault)
    requires WorkerOk(w.db, worker) && PcRoute(w, worker) && worker.Busy? && worker.pc == DpRecord
    ensures PcRoute(After(w, worker, f), Control(w, worker, f))
  {
  }

  lemma RollbackReadKeepsRoute(w: World, worker: Worker, f: Fault)
    requires WorkerOk(w.db, worker) && PcRoute(w, worker) && worker.Busy? && worker.pc == RbRead
    ensures PcRoute(After(w, worker, f), Control(w, worker, f))
  {
  }

  lemma RollbackJobKeepsRoute(w: World, worker: Worker, f: Fault)
    requires WorkerOk(w.db, worker) && PcRoute(w, worker) && worker.Busy? && worker.pc in {RbValidate, RbUnpin}
    ensures PcRoute(After(w, worker, f), Control(w, worker, f))
  {
  }

  lemma JobKeepsRoute(w: World, worker: Worker, f: Fault)
    requires WorkerOk(w.db, worker) && PcRoute(w, worker) && worker.Busy? && ProcOf(worker.pc) == Prepares
    requires DbOk(w.db)
    ensures PcRoute(After(w, worker, f), Control(w, worker, f))
  {
    match worker.pc
    case DpBegin => BeginKeepsRoute(w, worker, f);
    case DpEvict => EvictKeepsRoute(w, worker, f);
    case DpLaunch => LaunchKeepsRoute(w, worker, f);
    case DpRecord => RecordKeepsRoute(w, worker, f);
    case RbRead => RollbackReadKeepsRoute(w, worker, f);
    case RbValidate | RbUnpin => RollbackJobKeepsRoute(w, worker, f);
  }

  lemma LoadKeepsRoute(w: World, worker: Worker, f: Fault)
    requires WorkerOk(w.db, worker) && PcRoute(w, worker) && worker.Busy? && worker.pc == AcLoad
    ensures PcRoute(After(w, worker, f), Control(w, worker, f))
  {
  }

  lemma ReadyKeepsRoute(w: World, worker: Worker, f: Fault)
    requires WorkerOk(w.db, worker) && PcRoute(w, worker) && worker.Busy? && worker.pc == AcReady
    ensures PcRoute(After(w, worker, f), Control(w, worker, f))
  {
  }

  lemma JoinCandidateKeepsRoute(w: World, worker: Worker, f: Fault)
    requires WorkerOk(w.db, worker) && PcRoute(w, worker) && worker.Busy? && worker.pc == AcJoinCandidate
    ensures PcRoute(After(w, worker, f), Control(w, worker, f))
  {
  }

  lemma JoinActiveReads(w: World, worker: Worker, f: Fault)
    requires WorkerOk(w.db, worker) && worker.Busy? && worker.pc == AcJoinActive && worker.loc.stable.None?
    requires DbOk(w.db)
    ensures Control(w, worker, f).Busy? && Control(w, worker, f).task == worker.task
    ensures Control(w, worker, f).pc in {AcActivating, RbUnpin, DfFail}
    ensures Control(w, worker, f).pc == AcActivating ==> Control(w, worker, f).loc.stable == StableFor(w.db)
    ensures Control(w, worker, f).pc == RbUnpin ==> worker.task.rollback
  {
  }

  lemma JoinActiveKeepsRoute(w: World, worker: Worker, f: Fault)
    requires WorkerOk(w.db, worker) && PcRoute(w, worker) && worker.Busy? && worker.pc == AcJoinActive
    requires DbOk(w.db)
    ensures PcRoute(After(w, worker, f), Control(w, worker, f))
  {
    var w' := After(w, worker, f);
    assert w'.db == w.db && w'.gw.route == w.gw.route && w'.gw.backup == w.gw.backup;
    JoinActiveReads(w, worker, f);
  }

  lemma ActivatingKeepsRoute(w: World, worker: Worker, f: Fault)
    requires WorkerOk(w.db, worker) && PcRoute(w, worker) && worker.Busy? && worker.pc == AcActivating
    ensures PcRoute(After(w, worker, f), Control(w, worker, f))
  {
  }

  lemma ActivateKeepsRoute(w: World, worker: Worker, f: Fault)
    requires WorkerOk(w.db, worker) && PcRoute(w, worker) && worker.Busy? && ProcOf(worker.pc) == Activates
    requires DbOk(w.db)
    ensures PcRoute(After(w, worker, f), Control(w, worker, f))
  {
    match worker.pc
    case AcLoad => LoadKeepsRoute(w, worker, f);
    case AcReady => ReadyKeepsRoute(w, worker, f);
    case AcJoinCandidate => JoinCandidateKeepsRoute(w, worker, f);
    case AcJoinActive => JoinActiveKeepsRoute(w, worker, f);
    case AcActivating => ActivatingKeepsRoute(w, worker, f);
  }

  lemma BackupKeepsRoute(w: World, worker: Worker, f: Fault)
    requires WorkerOk(w.db, worker) && PcRoute(w, worker) && worker.Busy? && worker.pc == AcBackup && Applied(f)
    ensures PcRoute(After(w, worker, f), Control(w, worker, f))
  {
  }

  lemma WriteCanaryKeepsRoute(w: World, worker: Worker, f: Fault)
    requires WorkerOk(w.db, worker) && PcRoute(w, worker) && worker.Busy? && worker.pc == AcCanary
    ensures PcRoute(After(w, worker, f), Control(w, worker, f))
  {
  }

  lemma WritePublicKeepsRoute(w: World, worker: Worker, f: Fault)
    requires WorkerOk(w.db, worker) && PcRoute(w, worker) && worker.Busy? && worker.pc == AcPublic
    ensures PcRoute(After(w, worker, f), Control(w, worker, f))
  {
  }

  lemma CanaryAnswerMeansJoined(w: World, task: Task, stable: Option<Backend>)
    requires w.gw.route == Some(CanaryRoute(task, stable)) && task.id in w.db.releases
    requires NetOk(w.db, w.gw) && AliasesDistinct(w.db)
    requires Answered(w.gw, ReleaseState.Request(task.domain, Some(task.token)))
    ensures Joined(w.db, w.gw, task.id)
  {
    CanaryServesCandidate(task, stable);
    AnsweredMeansJoined(w.db, w.gw, ReleaseState.Request(task.domain, Some(task.token)), task.id);
  }

  lemma CanaryProbeKeepsRoute(w: World, worker: Worker, f: Fault)
    requires WorkerOk(w.db, worker) && PcRoute(w, worker) && worker.Busy? && worker.pc == AcProbeCanary
    requires Answered(w.gw, ReleaseState.Request(worker.task.domain, Some(worker.task.token))) ==>
        Joined(w.db, w.gw, worker.task.id)
    ensures PcRoute(After(w, worker, f), Control(w, worker, f))
  {
    assert Effect(w, worker) == w;
  }

  lemma PublicProbeKeepsRoute(w: World, worker: Worker, f: Fault)
    requires WorkerOk(w.db, worker) && PcRoute(w, worker) && worker.Busy? && worker.pc == AcProbePublic
    ensures PcRoute(After(w, worker, f), Control(w, worker, f))
  {
  }

  lemma CommitAgrees(db: Db, task: Task)
    requires HasRuntime(db, task) && HasPort(db, task)
    ensures RouteOk(CommitTx(db, task.id, db.active), Some(PublicRoute(task.domain, task.id, task.port)))
  {
  }

  lemma FailedCommitKeepsRoute(w: World, worker: Worker, f: Fault)
    requires WorkerOk(w.db, worker) && PcRoute(w, worker) && worker.Busy? && worker.pc == AcCommit && !Applied(f)
    ensures PcRoute(w, Control(w, worker, f))
  {
  }

  lemma DoneCommitKeepsRoute(w: World, worker: Worker)
    requires WorkerOk(w.db, worker) && PcRoute(w, worker) && worker.Busy? && worker.pc == AcCommit
    ensures PcRoute(Effect(w, worker), Control(w, worker, Done))
  {
    CommitAgrees(w.db, worker.task);
    assert Effect(w, worker) == World(CommitTx(w.db, worker.task.id, w.db.active), w.gw);
  }

  lemma CommitKeepsRoute(w: World, worker: Worker, f: Fault)
    requires WorkerOk(w.db, worker) && PcRoute(w, worker) && worker.Busy? && worker.pc == AcCommit && f != ThrewAfter
    ensures PcRoute(After(w, worker, f), Control(w, worker, f))
  {
    if f == Done {
      DoneCommitKeepsRoute(w, worker);
    } else {
      FailedCommitKeepsRoute(w, worker, f);
    }
  }

  lemma LeaveOldKeepsRoute(w: World, worker: Worker, f: Fault)
    requires WorkerOk(w.db, worker) && PcRoute(w, worker) && worker.Busy? && worker.pc == AcLeaveOld
        && !LateThrow(Sys(w, worker), Work(f))
    ensures PcRoute(After(w, worker, f), Control(w, worker, f))
  {
  }

  lemma DropBackupKeepsRoute(w: World, worker: Worker, f: Fault)
    requires WorkerOk(w.db, worker) && PcRoute(w, worker) && worker.Busy? && worker.pc == AcDropBackup && !Threw(f)
    ensures PcRoute(After(w, worker, f), Control(w, worker, f))
  {
  }

  lemma SwitchKeepsRoute(w: World, worker: Worker, f: Fault)
    requires WorkerOk(w.db, worker) && PcRoute(w, worker) && worker.Busy? && ProcOf(worker.pc) == Switches
    requires NetOk(w.db, w.gw) && AliasesDistinct(w.db) && Orderly(Sys(w, worker), Work(f))
    ensures PcRoute(After(w, worker, f), Control(w, worker, f))
  {
    match worker.pc
    case AcBackup => BackupKeepsRoute(w, worker, f);
    case AcCanary => WriteCanaryKeepsRoute(w, worker, f);
    case AcPublic => WritePublicKeepsRoute(w, worker, f);
    case AcProbeCanary =>
      if Answered(w.gw, ReleaseState.Request(worker.task.domain, Some(worker.task.token))) {
        CanaryAnswerMeansJoined(w, worker.task, worker.loc.stable);
      }
      CanaryProbeKeepsRoute(w, worker, f);
    case AcProbePublic => PublicProbeKeepsRoute(w, worker, f);
    case AcCommit => CommitKeepsRoute(w, worker, f);
    case AcLeaveOld => LeaveOldKeepsRoute(w, worker, f);
    case AcDropBackup => DropBackupKeepsRoute(w, worker, f);
  }

  lemma RestoreKeepsRoute(w: World, worker: Worker, f: Fault)
    requires WorkerOk(w.db, worker) && PcRoute(w, worker) && worker.Busy? && worker.pc == CaRestore && Applied(f)
    requires !RestoresForeign(Sys(w, worker), Work(f))
    ensures PcRoute(After(w, worker, f), Control(w, worker, f))
  {
  }

  lemma DisconnectKeepsRoute(w: World, worker: Worker, f: Fault)
    requires WorkerOk(w.db, worker) && PcRoute(w, worker) && worker.Busy? && worker.pc == CaLeaveCandidate
    ensures PcRoute(After(w, worker, f), Control(w, worker, f))
  {
  }

  lemma FailKeepsRoute(w: World, worker: Worker, f: Fault)
    requires WorkerOk(w.db, worker) && PcRoute(w, worker) && worker.Busy? && worker.pc == CaFail
    ensures PcRoute(After(w, worker, f), Control(w, worker, f))
  {
  }

  lemma ClearKeepsRoute(w: World, worker: Worker, f: Fault)
    requires WorkerOk(w.db, worker) && PcRoute(w, worker) && worker.Busy? && worker.pc == CaClear
    ensures PcRoute(After(w, worker, f), Control(w, worker, f))
  {
  }

  lemma DeployFailKeepsRoute(w: World, worker: Worker, f: Fault)
    requires WorkerOk(w.db, worker) && PcRoute(w, worker) && worker.Busy? && worker.pc == DfFail
    ensures PcRoute(After(w, worker, f), Control(w, worker, f))
  {
  }

  lemma DeployClearKeepsRoute(w: World, worker: Worker, f: Fault)
    requires WorkerOk(w.db, worker) && PcRoute(w, worker) && worker.Busy? && worker.pc in {DfClear, DfRemove}
    ensures PcRoute(After(w, worker, f), Control(w, worker, f))
  {
  }

  lemma UndoKeepsRoute(w: World, worker: Worker, f: Fault)
    requires WorkerOk(w.db, worker) && PcRoute(w, worker) && worker.Busy? && ProcOf(worker.pc) == Undoes
    requires Orderly(Sys(w, worker), Work(f))
    ensures PcRoute(After(w, worker, f), Control(w, worker, f))
  {
    match worker.pc
    case CaRestore => RestoreKeepsRoute(w, worker, f);
    case CaLeaveCandidate => DisconnectKeepsRoute(w, worker, f);
    case CaFail => FailKeepsRoute(w, worker, f);
    case CaClear => ClearKeepsRoute(w, worker, f);
    case DfFail => DeployFailKeepsRoute(w, worker, f);
    case DfClear | DfRemove => DeployClearKeepsRoute(w, worker, f);
  }

  lemma WorkKeepsRoute(s: Sys, f: Fault)
    requires RInv(s) && s.worker.Busy? && Orderly(s, Work(f)) && AliasesDistinct(s.w.db)
    ensures PcRoute(After(s.w, s.worker, f), Control(s.w, s.worker, f))
  {
    match ProcOf(s.worker.pc)
    case Reconciles => ReconcileKeepsRoute(s.w, s.worker, f);
    case Prepares => JobKeepsRoute(s.w, s.worker, f);
    case Activates => ActivateKeepsRoute(s.w, s.worker, f);
    case Switches => SwitchKeepsRoute(s.w, s.worker, f);
    case Undoes => UndoKeepsRoute(s.w, s.worker, f);
  }

  // ---------------------------------------------------------------- the route file

  /** The effects that write the route file or move the active pointer. */
  predicate Reroutes(pc: Pc) {
    || pc.RcWriteCandidate? || pc.RcPromote? || pc.RcUndo? || pc.RcWriteActive?
    || pc.AcCanary? || pc.AcPublic? || pc.AcCommit? || pc.CaRestore?
  }

  lemma QuietKeepsShape(w: World, w': World)
    requires RouteShape(w) && w'.gw.route == w.gw.route && w'.db.active == w.db.active
    requires w.db.releases.Keys <= w'.db.releases.Keys && PortOf(w'.db, w'.db.active) == PortOf(w.db, w.db.active)
    ensures RouteShape(w') && (Switched(w') <==> Switched(w))
  {
  }

  lemma QuietEffect(db: Db, worker: Worker)
    requires DbOk(db) && WorkerOk(db, worker) && worker.Busy? && !Reroutes(worker.pc)
    ensures var db' := DbEffect(db, worker);
            && db'.active == db.active && db.releases.Keys <= db'.releases.Keys
            && PortOf(db', db'.active) == PortOf(db, db.active)
  {
    if worker.pc == DpBegin {
      FreeCandidateOk(db);
    } else if worker.pc != DpRecord {
      EffectOk(db, worker);
    }
  }

  lemma QuietRoute(db: Db, gw: Gateway, worker: Worker)
    requires worker.Busy? && !Reroutes(worker.pc)
    ensures GwEffect(db, gw, worker).route == gw.route
  {
  }

  /** The live release's route comes back, or the candidate's becomes the live one's. */
  lemma RerouteKeepsShape(s: Sys)
    requires RInv(s) && s.worker.Busy? && Reroutes(s.worker.pc) && !RestoresForeign(s, Work(Done))
    ensures var w' := Effect(s.w, s.worker);
            RouteShape(w') && (w'.db.active.Some? ==> (Switched(w') <==> s.worker.pc.AcPublic?))
  {
    match s.worker.pc
    case RcPromote => PromoteOk(s.w.db, s.worker.loc.cand.value);
    case AcCommit => CommitOk(s.w.db, s.worker.task.id);
    case _ =>
  }

  /** Only the public write leaves the live release's route, and only the effects that reroute
      come back to it. */
  lemma WorkKeepsShape(s: Sys, f: Fault)
    requires RInv(s) && s.worker.Busy? && !LateThrow(s, Work(f)) && !RestoresForeign(s, Work(f))
    ensures var s' := Advance(s, f);
            && RouteShape(s'.w)
            && (s'.w.db.active.Some? ==>
                  (Switched(s'.w) <==>
                     if Applied(f) && Reroutes(s.worker.pc) then s.worker.pc.AcPublic? else Switched(s.w)))
  {
    if !Applied(f) {
    } else if Reroutes(s.worker.pc) {
      RerouteKeepsShape(s);
    } else {
      QuietEffect(s.w.db, s.worker);
      QuietRoute(s.w.db, s.w.gw, s.worker);
      QuietKeepsShape(s.w, Effect(s.w, s.worker));
    }
  }

  lemma WorkKeepsRInv(s: Sys, f: Fault)
    requires RInv(s) && s.worker.Busy? && Orderly(s, Work(f)) && AliasesDistinct(s.w.db)
    ensures RInv(Advance(s, f))
  {
    WorkKeepsInv(s, f);
    WorkKeepsNet(s, f);
    WorkKeepsRoute(s, f);
    WorkKeepsShape(s, f);
  }

  lemma StartKeepsRInv(s: Sys, task: Task)
    requires RInv(s) && Enabled(s, Start(task)) && Orderly(s, Start(task))
    ensures RInv(Do(s, Start(task)))
  {
    StepKeepsInv(s, Start(task));
  }

  /** Every step keeps rows, network, route and backup right for the effect that comes next. */
  lemma StepKeepsRoute(s: Sys, l: Label)
    requires RInv(s) && Enabled(s, l) && Orderly(s, l) && AliasesDistinct(s.w.db)
    ensures RInv(Do(s, l))
  {
    match l
    case Request(target) => RequestKeepsRoute(s, target);
    case Crash => CrashKeepsRoute(s);
    case Start(task) => StartKeepsRInv(s, task);
    case Work(f) => WorkKeepsRInv(s, f);
  }

  /** A crash at any effect leaves the route right, or a candidate that reconciliation repairs. */
  lemma CrashKeepsRoute(s: Sys)
    requires RInv(s)
    ensures PcRoute(s.w, Idle) && RInv(Do(s, Crash))
  {
  }

  /** So a run keeps them throughout, rollback requests at any moment included. */
  lemma {:induction false} RouteIsRepairable(run: seq<Sys>, ls: seq<Label>, i: nat)
    requires IsRun(run, ls) && RInv(run[0]) && i < |run|
    requires forall k :: 0 <= k < |ls| ==> Orderly(run[k], ls[k]) && AliasesDistinct(run[k].w.db)
    ensures RInv(run[i])
  {
    if i > 0 {
      RouteIsRepairable(run, ls, i - 1);
      StepKeepsRoute(run[i - 1], ls[i - 1]);
    }
  }

  /** From the first deployment of a project on: between jobs its route file agrees with the active
      pointer, or a candidate is there that the next reconciliation repairs it for. */
  lemma EveryProjectIsRepairable(run: seq<Sys>, ls: seq<Label>, i: nat)
    requires IsRun(run, ls) && run[0] == EMPTY && i < |run|
    requires forall k :: 0 <= k < |ls| ==> Orderly(run[k], ls[k]) && AliasesDistinct(run[k].w.db)
    ensures RInv(run[i]) && (run[i].worker.Idle? ==> Repairable(run[i].w))
  {
    EmptyIsInOrder();
    RouteIsRepairable(run, ls, i);
  }

  lemma EmptyIsInOrder()
    ensures RInv(EMPTY)
  {
  }
}
