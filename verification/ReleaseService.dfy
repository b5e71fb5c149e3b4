/**
 `ReleaseService` and `RollbackService` as the source writes them: methods that update the
 project's rows and the gateway's files one effect after another, with a handler that undoes
 them.  Every method is proved to walk the machine of `ReleaseMachine`, so what is proved
 about its runs holds of these methods at each of their effects.
 */
module ReleaseService {
  import opened Wrappers
  import opened ReleaseState
  import opened ReleaseMachine
  import opened ReleaseInvariant
  import opened ReleaseRouting
  import opened ReleaseRecovery

  /** How each effect of one job turns out; a job passes each effect at most once. */
  type Plan = Pc -> Fault

  /** The machine after `n` effects of its worker. */
  ghost function Follow(s: Sys, plan: Plan, n: nat): Sys
    decreases n
  {
    if n == 0 || s.worker.Idle? then s else Follow(Advance(s, plan(s.worker.pc)), plan, n - 1)
  }

  lemma FollowNone(s: Sys, plan: Plan)
    ensures Follow(s, plan, 0) == s
  {
  }

  lemma {:induction false} FollowOn(s: Sys, plan: Plan, n: nat, m: nat)
    ensures Follow(Follow(s, plan, n), plan, m) == Follow(s, plan, n + m)
    decreases n
  {
    if n > 0 && s.worker.Busy? {
      var next := Advance(s, plan(s.worker.pc));
      FollowOn(next, plan, n - 1, m);
      assert Follow(s, plan, n) == Follow(next, plan, n - 1);
      assert Follow(s, plan, n + m) == Follow(next, plan, n - 1 + m);
    }
  }

  lemma FollowOne(s: Sys, plan: Plan, n: nat)
    ensures var t := Follow(s, plan, n); t.worker.Busy? ==> Follow(s, plan, n + 1) == Advance(t, plan(t.worker.pc))
  {
    FollowOn(s, plan, n, 1);
  }

  /** The candidate is live and served to the public, the release before it is superseded, and no
      other row has changed. */
  ghost predicate Replaced(before: World, after: World, task: Task) {
    && after.db.active == Some(task.id) && after.db.candidate.None?
    && task.id in after.db.releases
    && after.db.releases[task.id].status == ACTIVE && after.db.releases[task.id].readiness == PASSED
    && (before.db.active.Some? && before.db.active != Some(task.id) && before.db.active.value in before.db.releases ==>
          && before.db.active.value in after.db.releases
          && var row := before.db.releases[before.db.active.value];
             after.db.releases[before.db.active.value] == row.(status := SUPERSEDED))
    && after.db.releases.Keys == before.db.releases.Keys
    && (forall o :: o in before.db.releases && o != task.id && before.db.active != Some(o) ==>
          after.db.releases[o] == before.db.releases[o])
    && after.gw.route == Some(PublicRoute(task.domain, task.id, task.port))
  }

  /** What a rollback request does: its target is the candidate and pinned, and a candidate it takes
      the place of has failed. */
  ghost predicate Pointed(before: Db, after: Db, target: Id) {
    && after.active == before.active && after.candidate == Some(target)
    && after.releases.Keys == before.releases.Keys && target in before.releases
    && after.releases[target].status == CANDIDATE && after.releases[target].readiness == PENDING
    && after.releases[target].pinned && after.releases[target].runtimeRef == before.releases[target].runtimeRef
    && (forall o :: o in before.releases && o != target ==>
          if before.candidate == Some(o) && before.releases[o].status != ACTIVE
          then after.releases[o] == before.releases[o].(status := FAILED, readiness := REJECTED)
          else after.releases[o] == before.releases[o])
  }

  /** Nothing but that runtime has left the public network. */
  ghost predicate StillJoined(before: Gateway, after: Gateway, box: Option<Container>) {
    after.running == before.running && forall c :: c in before.public && Some(c) != box ==> c in after.public
  }

  /** The release that was live is off the public network, and the new one is on it. */
  ghost predicate Relieved(before: World, after: World, task: Task) {
    var box := OldBox(before.db, before.db.active, task);
    && (box.Some? ==> box.value !in after.gw.public)
    && (task.container in before.gw.running ==> task.container in after.gw.public)
  }

  /** What the cleanup after a commit does to the network, `box` being the old live runtime. */
  ghost predicate Left(box: Option<Container>, before: Gateway, after: Gateway, plan: Plan) {
    StillJoined(before, after, box) && (plan(AcLeaveOld).Done? && box.Some? ==> box.value !in after.public)
  }

  ghost predicate Tidied(box: Option<Container>, before: Gateway, after: Gateway, plan: Plan) {
    Left(box, before, after, plan) && (plan(AcDropBackup).Done? ==> after.backup.None?)
  }

  /** The try block has gone through: what it has committed, and how it has cleaned up. */
  ghost predicate Committed(before: World, after: World, task: Task, plan: Plan, loc: Locals) {
    && after.gw.route == Some(PublicRoute(task.domain, task.id, task.port))
    && after.db == CommitTx(before.db, task.id, loc.active)
    && Tidied(OldBox(before.db, loc.active, task), before.gw, after.gw, plan)
  }

  lemma CommitKeepsBox(db: Db, id: Id, live: Option<Id>, task: Task)
    ensures OldBox(CommitTx(db, id, live), live, task) == OldBox(db, live, task)
  {
  }

  /** What an activation that goes through makes of the world. */
  ghost predicate TakenOver(before: World, after: World, task: Task, plan: Plan) {
    && Replaced(before, after, task)
    && StillJoined(before.gw, after.gw, OldBox(before.db, before.db.active, task))
    && (plan(AcJoinCandidate).Done? && plan(AcLeaveOld).Done? ==> Relieved(before, after, task))
    && (plan(AcDropBackup).Done? ==> after.gw.backup.None?)
  }

  /** What a whole deploy job that goes through makes of it: the release that was live when the job
      began is superseded and off the public network. */
  ghost predicate TookOver(before: Db, after: World, task: Task, plan: Plan) {
    && after.db.active == Some(task.id) && after.db.candidate.None?
    && task.id in after.db.releases
    && after.db.releases[task.id].status == ACTIVE && after.db.releases[task.id].readiness == PASSED
    && after.gw.route == Some(PublicRoute(task.domain, task.id, task.port))
    && (plan(AcDropBackup).Done? ==> after.gw.backup.None?)
    && (before.active.Some? && before.active.value in before.releases && task.id !in before.releases ==>
          && before.active.value in after.db.releases
          && after.db.releases[before.active.value].status == SUPERSEDED
          && var box := OldBox(before, before.active, task);
             plan(AcLeaveOld).Done? && plan(AcJoinCandidate).Done? && box.Some? ==> box.value !in after.gw.public)
  }

  /** What a deploy job that fails leaves of its release. */
  ghost predicate GaveUp(w: World, task: Task) {
    && (task.id in w.db.releases ==>
          w.db.releases[task.id].status == FAILED && w.db.releases[task.id].readiness == REJECTED)
    && w.db.candidate != Some(task.id)
    && (task.container in w.gw.running ==> w.gw.running[task.container] != task.id)
  }

  /** The job has begun its release. */
  predicate Began(before: Db, after: Db, task: Task, plan: Plan) {
    plan(DpBegin).Done? && task.id !in before.releases && task.id in after.releases
  }

  /** The catch block of `executeDeployment` takes effect. */
  predicate Cleans(plan: Plan) { plan(DfFail).Done? && plan(DfClear).Done? && plan(DfRemove).Done? }

  /** What reconciliation leaves of a candidate it gives up. */
  ghost predicate SetAside(before: Db, after: World, c: Id) {
    && after.db.candidate.None?
    && c in after.db.releases && after.db.releases[c].status == FAILED && after.db.releases[c].readiness == REJECTED
    && (ContainerOf(before, Some(c)).Some? ==> ContainerOf(before, Some(c)).value !in after.gw.public)
  }

  /** The release's runtime, if it runs, is on the public network. */
  ghost predicate Connected(db: Db, gw: Gateway, id: Option<Id>) {
    var box := ContainerOf(db, id); box.Some? && box.value in gw.running ==> box.value in gw.public
  }

  /** What it makes of one that it brings up. */
  ghost predicate BroughtUp(before: Db, after: World, c: Id, domain: string, plan: Plan) {
    && after.db.active == Some(c) && after.db.candidate.None?
    && (plan(RcJoinCandidate).Done? ==> Connected(before, after.gw, Some(c)))
    && c in after.db.releases && after.db.releases[c].status == ACTIVE && after.db.releases[c].readiness == PASSED
    && after.gw.route == Some(PublicRoute(domain, c, PortOf(before, Some(c))))
  }

  /** What it comes to without a live release: the candidate is brought up or set aside. */
  ghost predicate Decided(before: World, after: World, c: Id, domain: string, plan: Plan) {
    || BroughtUp(before.db, after, c, domain, plan)
    || (&& after.db.active.None?
        && (plan(RcLeaveCandidate).Done? ==> SetAside(before.db, after, c))
        && (plan(RcUndo).Done? && ContainerOf(before.db, Some(c)).Some? ==>
              after.gw.route.None? && ContainerOf(before.db, Some(c)).value !in after.gw.public))
  }

  /** And with one: that is served, and the candidate set aside. */
  ghost predicate Resettled(before: World, after: World, c: Id, domain: string, plan: Plan) {
    && after.db.active == before.db.active
    && (plan(RcLeaveCandidate).Done? ==> SetAside(before.db, after, c))
    && (plan(RcJoinActive).Done? && ContainerOf(before.db, Some(c)) != ContainerOf(before.db, before.db.active) ==>
          Connected(before.db, after.gw, before.db.active))
    && (before.db.active.Some? && ContainerOf(before.db, before.db.active).Some? ==>
          after.gw.route == Some(PublicRoute(domain, before.db.active.value, PortOf(before.db, before.db.active))))
  }

  /** What a completed reconciliation comes to. */
  ghost predicate Reconciled(before: World, after: World, domain: string, plan: Plan) {
    if !LiveCandidate(before.db) then after == before
    else if before.db.active.Some? then Resettled(before, after, before.db.candidate.value, domain, plan)
    else plan(RcPromote) != ThrewAfter ==> Decided(before, after, before.db.candidate.value, domain, plan)
  }

  lemma TookOverFrom(before: Db, begun: Db, built: World, after: World, task: Task, plan: Plan)
    requires KeepsLive(before, begun) && (begun.active != Some(task.id) ==> KeepsLive(begun, built.db))
    requires TakenOver(built, after, task, plan)
    ensures TookOver(before, after, task, plan)
  {
  }

  lemma GaveUpFrom(before: Db, after: World, task: Task)
    requires after.db == ClearTx(FailTx(before, task.id), task.id)
    requires task.container in after.gw.running ==> after.gw.running[task.container] != task.id
    ensures GaveUp(after, task)
  {
  }

  /** A live release stays the live one, in its runtime. */
  ghost predicate KeepsLive(before: Db, after: Db) {
    before.active.Some? ==>
      && after.active == before.active && ContainerOf(after, before.active) == ContainerOf(before, before.active)
      && (before.active.value in before.releases ==> before.active.value in after.releases)
  }

  /** The job a rollback request for the candidate is for. */
  function RollbackJob(db: Db, task: Task): Task {
    var box := ContainerOf(db, db.candidate);
    if box.None? then task
    else task.(id := db.candidate.value, container := box.value, port := PortOf(db, db.candidate))
  }

  lemma RollbackBegins(w: World, task: Task, plan: Plan)
    ensures Follow(Sys(w, Busy(RbRead, task, NO_LOCALS)), plan, 1) == Sys(w,
              if !plan(RbRead).Done? || ContainerOf(w.db, w.db.candidate).None? then Idle
              else Busy(RbValidate, RollbackJob(w.db, task), Locals(None, None, w.db.candidate)))
  {
    var s := Sys(w, Busy(RbRead, task, NO_LOCALS));
    assert Follow(Advance(s, plan(RbRead)), plan, 0) == Advance(s, plan(RbRead));
  }

  /** What `activate` has done before its try block. */
  ghost predicate Prepared(before: World, prepared: World, task: Task, plan: Plan) {
    && task.id in before.db.releases && OthersKept(before.db, prepared.db, task.id)
    && ContainerOf(prepared.db, before.db.active) == ContainerOf(before.db, before.db.active)
    && prepared.db.candidate == before.db.candidate && prepared.gw.route == before.gw.route
    && StillJoined(before.gw, prepared.gw, None)
    && (plan(AcJoinCandidate).Done? && task.container in before.gw.running ==> task.container in prepared.gw.public)
  }

  lemma CommitReplaces(before: World, prepared: World, after: World, task: Task, plan: Plan, loc: Locals)
    requires Prepared(before, prepared, task, plan) && Committed(prepared, after, task, plan, loc)
    requires loc.active == before.db.active
    ensures Replaced(before, after, task)
  {
  }

  lemma TidiedIsRelieved(before: World, prepared: World, after: World, task: Task, plan: Plan)
    requires Prepared(before, prepared, task, plan)
    requires Tidied(OldBox(prepared.db, prepared.db.active, task), prepared.gw, after.gw, plan)
    ensures StillJoined(before.gw, after.gw, OldBox(before.db, before.db.active, task))
    ensures plan(AcJoinCandidate).Done? && plan(AcLeaveOld).Done? ==> Relieved(before, after, task)
    ensures plan(AcDropBackup).Done? ==> after.gw.backup.None?
  {
  }

  lemma CommittedTakesOver(before: World, prepared: World, after: World, task: Task, plan: Plan, loc: Locals)
    requires Prepared(before, prepared, task, plan) && Committed(prepared, after, task, plan, loc)
    requires loc.active == before.db.active
    ensures TakenOver(before, after, task, plan)
  {
    CommitReplaces(before, prepared, after, task, plan, loc);
    TidiedIsRelieved(before, prepared, after, task, plan);
  }

  /** The handler has run to its end. */
  ghost predicate PutBack(before: World, after: World, task: Task) {
    && after.gw.route == before.gw.route && after.gw.backup.None? && task.container !in after.gw.public
    && (task.id in before.db.releases ==>
          && OthersKept(before.db, after.db, task.id)
          && after.db.releases[task.id].status == FAILED && after.db.releases[task.id].readiness == REJECTED)
    && after.db.candidate == if before.db.candidate == Some(task.id) then None else before.db.candidate
  }

  lemma PutBackUndoes(before: World, prepared: World, after: World, task: Task, plan: Plan)
    requires Prepared(before, prepared, task, plan) && PutBack(prepared, after, task)
    ensures Undone(before, after, task)
  {
  }

  datatype Outcome = Activated | Refused | Reverted

  class Project {
    var releases: map<Id, Release>
    var activeId: Option<Id>
    var candidateId: Option<Id>
    var routeFile: Option<Route>
    var backupFile: Option<Route>
    var network: map<Container, Id>
    var running: map<Container, Id>

    ghost function World(): World
      reads this
    {
      ReleaseState.World(Db(releases, activeId, candidateId), Gateway(routeFile, backupFile, network, running))
    }

    constructor ()
      ensures World() == EMPTY.w
    {
      releases, activeId, candidateId := map[], None, None;
      routeFile, backupFile, network, running := None, None, map[], map[];
    }

    // -------------------------------------------------------------- single effects

    method SetStatus(id: Id, status: Status, readiness: Readiness)
      modifies this`releases
      ensures World() == old(World()).(db := ReleaseState.SetStatus(old(World()).db, id, status, readiness))
    {
      if id in releases {
        releases := releases[id := releases[id].(status := status, readiness := readiness)];
      }
    }

    method Connect(box: Option<Container>, id: Id)
      modifies this`network
      ensures World() == old(World()).(gw := if box.Some? then Join(old(World()).gw, box.value, id)
          else old(World()).gw)
    {
      if box.Some? && box.value !in network && box.value in running {
        network := network[box.value := id];
      }
    }

    method Disconnect(box: Option<Container>)
      modifies this`network
      ensures World() == old(World()).(gw := if box.Some? then Leave(old(World()).gw, box.value) else old(World()).gw)
    {
      if box.Some? {
        network := network - {box.value};
      }
    }

    /** `removeContainerIfExists` by name, or `docker compose down`. */
    method RemoveNamed(dockerName: string)
      modifies this`network, this`running
      ensures World() == old(World()).(gw := Evict(old(World()).db, old(World()).gw, dockerName))
    {
      var gone := set c | c in running && running[c] in releases && releases[running[c]].dockerName == dockerName;
      running, network := running - gone, network - gone;
      assert gone == set c | c in old(running) && Named(old(World()).db, old(running)[c], dockerName);
    }

    /** Creates and starts the release's runtime, unless its name is taken. */
    method StartRuntime(id: Id, c: Container, dockerName: string) returns (started: bool)
      modifies this`network, this`running
      ensures started == NameFree(old(World()).db, old(World()).gw, dockerName, c)
      ensures World() == if started then old(World()).(gw := Launch(old(World()).gw, c, id)) else old(World())
    {
      started := NameFree(Db(releases, activeId, candidateId), Gateway(routeFile, backupFile, network, running),
          dockerName, c);
      if started {
        running, network := running[c := id], network - {c};
      }
    }

    /** `removeContainerQuietly` of what this attempt has created. */
    method RemoveRuntime(id: Id, c: Container)
      modifies this`network, this`running
      ensures World() == old(World()).(gw := Remove(old(World()).gw, c, id))
    {
      if c in running && running[c] == id {
        running, network := running - {c}, network - {c};
      }
    }

    /** `recordRuntime` */
    method RecordRuntime(id: Id, c: Container)
      modifies this`releases
      ensures World() == old(World()).(db := RecordTx(old(World()).db, id, c))
    {
      if id in releases {
        releases := releases[id := releases[id].(status := CANDIDATE, runtimeRef := Some(c))];
      }
    }

    /** `begin`: frees the candidate slot and takes it. */
    method Begin(id: Id, port: nat, dockerName: string)
      modifies this`releases, this`candidateId
      ensures World() == old(World()).(db := BeginTx(old(World()).db, id, port, dockerName))
    {
      if candidateId.Some? && candidateId.value in releases && releases[candidateId.value].status != ACTIVE {
        SetStatus(candidateId.value, FAILED, REJECTED);
      }
      releases := releases[id := Release(BUILDING, PENDING, None, port, false, dockerName)];
      candidateId := Some(id);
    }

    method Commit(id: Id, previous: Option<Id>)
      modifies this`releases, this`activeId, this`candidateId
      ensures World() == old(World()).(db := CommitTx(old(World()).db, id, previous))
    {
      if previous.Some? && previous.value != id && previous.value in releases {
        SetStatus(previous.value, SUPERSEDED, releases[previous.value].readiness);
      }
      SetStatus(id, ACTIVE, PASSED);
      activeId, candidateId := Some(id), None;
    }

    /** `rollback`: points the candidate at an earlier release. */
    method RequestRollback(target: Id) returns (queued: bool)
      modifies this`releases, this`candidateId
      ensures queued == CanRollBack(old(World()).db, target)
      ensures World() == if queued then old(World()).(db := RollbackTx(old(World()).db, target)) else old(World())
      ensures queued <==> target in old(releases) && old(activeId) != Some(target)
                          && old(releases)[target].runtimeRef.Some?
      ensures queued ==> Pointed(old(World()).db, World().db, target)
      ensures old(Inv(Sys(World(), Idle))) ==> Inv(Sys(World(), Idle))
    {
      queued := target in releases && activeId != Some(target) && releases[target].runtimeRef.Some?;
      if queued {
        if candidateId.Some? && candidateId != Some(target)
           && candidateId.value in releases && releases[candidateId.value].status != ACTIVE {
          SetStatus(candidateId.value, FAILED, REJECTED);
        }
        releases := releases[target := releases[target].(status := CANDIDATE, readiness := PENDING, pinned := true)];
        candidateId := Some(target);
        if old(Inv(Sys(World(), Idle))) {
          StepKeepsInv(old(Sys(World(), Idle)), Label.Request(target));
        }
      }
    }

    // -------------------------------------------------------------- activate

    method LoadCandidate(task: Task, plan: Plan, loc0: Locals) returns (ok: bool, loc: Locals, ghost n: nat)
      modifies this`releases
      ensures Follow(Sys(old(World()), Busy(AcLoad, task, loc0)), plan, n)
              == Sys(World(), Busy(if ok then AcJoinCandidate else AfterThrow(task), task, loc))
      ensures ok ==> old(task.id in releases && releases[task.id].runtimeRef.Some?) && loc.active == activeId
      ensures task.id in old(releases) ==> OthersKept(old(World()).db, World().db, task.id)
      ensures ContainerOf(World().db, activeId) == old(ContainerOf(World().db, activeId))
    {
      ghost var s0 := Sys(World(), Busy(AcLoad, task, loc0));
      loc, n := loc0, 1;
      if !plan(AcLoad).Done? || task.id !in releases || releases[task.id].runtimeRef.None? {
        return false, loc, n;
      }
      loc := Locals(activeId, None, loc0.cand);
      FollowOne(s0, plan, n);
      if Applied(plan(AcReady)) {
        SetStatus(task.id, READY, PASSED);
      }
      n := n + 1;
      ok := plan(AcReady).Done?;
    }

    method JoinCandidate(task: Task, plan: Plan, loc: Locals) returns (ok: bool, ghost n: nat)
      modifies this`network
      ensures Follow(Sys(old(World()), Busy(AcJoinCandidate, task, loc)), plan, n)
              == Sys(World(), Busy(if ok then AcJoinActive else AfterThrow(task), task, loc))
      ensures StillJoined(old(World()).gw, World().gw, None)
      ensures plan(AcJoinCandidate).Done? && task.container in running ==> task.container in network
    {
      if Applied(plan(AcJoinCandidate)) {
        Connect(Some(task.container), task.id);
      }
      ok, n := !Threw(plan(AcJoinCandidate)), 1;
    }

    method JoinActive(task: Task, plan: Plan, loc0: Locals) returns (ok: bool, loc: Locals, ghost n: nat)
      modifies this`releases, this`network
      ensures Follow(Sys(old(World()), Busy(AcJoinActive, task, loc0)), plan, n)
              == Sys(World(), Busy(if ok then AcBackup else AfterThrow(task), task, loc))
      ensures task.id in old(releases) ==> OthersKept(old(World()).db, World().db, task.id)
      ensures loc.active == loc0.active && StillJoined(old(World()).gw, World().gw, None)
      ensures ok && plan(AcJoinActive).Done? ==> Connected(old(World()).db, World().gw, loc0.active)
      ensures ContainerOf(World().db, activeId) == old(ContainerOf(World().db, activeId))
    {
      hide Follow;
      ghost var s0 := Sys(World(), Busy(AcJoinActive, task, loc0));
      ok, loc, n := JoinLive(task, plan, loc0);
      if ok {
        ghost var m: nat;
        ok, m := MarkActivating(task, plan, loc);
        FollowOn(s0, plan, n, m);
        n := n + m;
      }
    }

    method JoinLive(task: Task, plan: Plan, loc0: Locals) returns (ok: bool, loc: Locals, ghost n: nat)
      modifies this`network
      ensures Follow(Sys(old(World()), Busy(AcJoinActive, task, loc0)), plan, n)
              == Sys(World(), Busy(if ok then AcActivating else AfterThrow(task), task, loc))
      ensures loc.active == loc0.active && StillJoined(old(World()).gw, World().gw, None)
      ensures plan(AcJoinActive).Done? ==> Connected(World().db, World().gw, loc0.active)
    {
      ok, loc, n := true, loc0, 1;
      var activeBox := if loc.active.Some? && loc.active.value in releases then releases[loc.active.value].runtimeRef
          else None;
      if activeBox.Some? {
        if Applied(plan(AcJoinActive)) {
          Connect(activeBox, loc.active.value);
        }
        ok := !Threw(plan(AcJoinActive));
        if ok {
          loc := loc.(stable := Some(Backend(loc.active.value, releases[loc.active.value].port)));
        }
      }
    }

    method MarkActivating(task: Task, plan: Plan, loc: Locals) returns (ok: bool, ghost n: nat)
      modifies this`releases
      ensures Follow(Sys(old(World()), Busy(AcActivating, task, loc)), plan, n)
              == Sys(World(), Busy(if ok then AcBackup else AfterThrow(task), task, loc))
      ensures task.id in old(releases) ==> OthersKept(old(World()).db, World().db, task.id)
      ensures ContainerOf(World().db, activeId) == old(ContainerOf(World().db, activeId))
    {
      if Applied(plan(AcActivating)) && task.id in releases {
        SetStatus(task.id, ACTIVATING, releases[task.id].readiness);
      }
      ok, n := plan(AcActivating).Done?, 1;
    }

    /** `activate` before its try block. */
    method Prepare(task: Task, plan: Plan, loc0: Locals) returns (ok: bool, loc: Locals, ghost n: nat)
      modifies this`releases, this`network
      ensures Follow(Sys(old(World()), Busy(AcLoad, task, loc0)), plan, n)
              == Sys(World(), Busy(if ok then AcBackup else AfterThrow(task), task, loc))
      ensures ok ==> Prepared(old(World()), World(), task, plan) && loc.active == activeId
      ensures task.id in old(releases) ==> OthersKept(old(World()).db, World().db, task.id)
      ensures ok && plan(AcJoinActive).Done? ==> Connected(old(World()).db, World().gw, activeId)
    {
      hide Follow;
      ghost var s0 := Sys(World(), Busy(AcLoad, task, loc0));
      ok, loc, n := LoadCandidate(task, plan, loc0);
      if ok {
        ghost var m: nat;
        ok, loc, m := JoinBoth(task, plan, loc);
        FollowOn(s0, plan, n, m);
        n := n + m;
      }
    }

    /** Both releases are put on the public network, and the candidate's status is written. */
    method JoinBoth(task: Task, plan: Plan, loc0: Locals) returns (ok: bool, loc: Locals, ghost n: nat)
      modifies this`releases, this`network
      ensures Follow(Sys(old(World()), Busy(AcJoinCandidate, task, loc0)), plan, n)
              == Sys(World(), Busy(if ok then AcBackup else AfterThrow(task), task, loc))
      ensures task.id in old(releases) ==> OthersKept(old(World()).db, World().db, task.id)
      ensures loc.active == loc0.active
      ensures ContainerOf(World().db, activeId) == old(ContainerOf(World().db, activeId))
      ensures StillJoined(old(World()).gw, World().gw, None)
      ensures ok && plan(AcJoinCandidate).Done? && task.container in running ==> task.container in network
      ensures ok && plan(AcJoinActive).Done? ==> Connected(old(World()).db, World().gw, loc0.active)
    {
      hide Follow;
      ghost var s0 := Sys(World(), Busy(AcJoinCandidate, task, loc0));
      loc := loc0;
      ok, n := JoinCandidate(task, plan, loc);
      if ok {
        ghost var m: nat;
        ok, loc, m := JoinActive(task, plan, loc);
        FollowOn(s0, plan, n, m);
        n := n + m;
      }
    }

    method BackUpRoute(task: Task, plan: Plan, loc: Locals) returns (ok: bool, ghost n: nat)
      modifies this`backupFile
      ensures Follow(Sys(old(World()), Busy(AcBackup, task, loc)), plan, n)
              == Sys(World(), Busy(if ok then AcCanary else CaRestore, task, loc))
      ensures Applied(plan(AcBackup)) ==> backupFile == routeFile
      ensures !Applied(plan(AcBackup)) ==> backupFile == old(backupFile)
    {
      if Applied(plan(AcBackup)) {
        backupFile := routeFile;
      }
      ok, n := plan(AcBackup).Done?, 1;
    }

    method ProbeCanary(task: Task, plan: Plan, loc: Locals) returns (ok: bool, ghost n: nat)
      modifies this`routeFile
      ensures Follow(Sys(old(World()), Busy(AcCanary, task, loc)), plan, n)
              == Sys(World(), Busy(if ok then AcPublic else CaRestore, task, loc))
    {
      ghost var s0 := Sys(World(), Busy(AcCanary, task, loc));
      n := 1;
      if Applied(plan(AcCanary)) {
        routeFile := Some(RenderRoute(task.domain, task.id, task.port, Some(task.token), loc.stable));
      }
      if !plan(AcCanary).Done? {
        return false, n;
      }
      FollowOne(s0, plan, n);
      n := 2;
      var answered := Probe(task.domain, Some(task.token));
      ok := plan(AcProbeCanary).Done? && answered;
    }

    /** The canary half of the try block. */
    method Canary(task: Task, plan: Plan, loc: Locals) returns (ok: bool, ghost n: nat)
      modifies this`routeFile, this`backupFile
      ensures Follow(Sys(old(World()), Busy(AcBackup, task, loc)), plan, n)
              == Sys(World(), Busy(if ok then AcPublic else CaRestore, task, loc))
      ensures Applied(plan(AcBackup)) ==> backupFile == old(routeFile)
    {
      hide Follow;
      ghost var s0 := Sys(World(), Busy(AcBackup, task, loc));
      ok, n := BackUpRoute(task, plan, loc);
      if ok {
        ghost var m: nat;
        ok, m := ProbeCanary(task, plan, loc);
        FollowOn(s0, plan, n, m);
        n := n + m;
      }
    }

    method Probe(domain: string, token: Option<string>) returns (answered: bool)
      ensures answered == Answered(World().gw, ReleaseState.Request(domain, token))
    {
      answered := Answered(Gateway(routeFile, backupFile, network, running), ReleaseState.Request(domain, token));
    }

    method Publish(task: Task, plan: Plan, loc: Locals) returns (ok: bool, ghost n: nat)
      modifies this`routeFile
      ensures Follow(Sys(old(World()), Busy(AcPublic, task, loc)), plan, n)
              == Sys(World(), Busy(if ok then AcCommit else CaRestore, task, loc))
      ensures ok ==> routeFile == Some(PublicRoute(task.domain, task.id, task.port))
    {
      ghost var s0 := Sys(World(), Busy(AcPublic, task, loc));
      n := 1;
      if Applied(plan(AcPublic)) {
        routeFile := Some(PublicRoute(task.domain, task.id, task.port));
      }
      if !plan(AcPublic).Done? {
        return false, n;
      }
      FollowOne(s0, plan, n);
      n := n + 1;
      var answered := Probe(task.domain, None);
      ok := plan(AcProbePublic).Done? && answered;
    }

    method CommitRelease(task: Task, plan: Plan, loc: Locals) returns (ok: bool, ghost n: nat)
      modifies this`releases, this`activeId, this`candidateId
      ensures Follow(Sys(old(World()), Busy(AcCommit, task, loc)), plan, n)
              == Sys(World(), Busy(if ok then AcLeaveOld else CaRestore, task, loc))
      ensures ok ==> World().db == CommitTx(old(World()).db, task.id, loc.active)
      ensures !ok && plan(AcCommit) != ThrewAfter ==> World() == old(World())
    {
      if Applied(plan(AcCommit)) {
        Commit(task.id, loc.active);
      }
      ok, n := plan(AcCommit).Done?, 1;
    }

    /** The public half of the try block, up to the commit. */
    method GoPublic(task: Task, plan: Plan, loc: Locals) returns (ok: bool, ghost n: nat)
      modifies this`routeFile, this`releases, this`activeId, this`candidateId
      ensures Follow(Sys(old(World()), Busy(AcPublic, task, loc)), plan, n)
              == Sys(World(), Busy(if ok then AcLeaveOld else CaRestore, task, loc))
      ensures !ok && plan(AcCommit) != ThrewAfter ==> World().db == old(World()).db
      ensures ok ==> routeFile == Some(PublicRoute(task.domain, task.id, task.port))
                     && World().db == CommitTx(old(World()).db, task.id, loc.active)
    {
      hide Follow;
      ghost var s0 := Sys(World(), Busy(AcPublic, task, loc));
      ghost var m: nat;
      ok, n := Publish(task, plan, loc);
      if ok {
        ok, m := CommitRelease(task, plan, loc);
        FollowOn(s0, plan, n, m);
        n := n + m;
      }
    }

    /** The cleanup after the commit, still inside the try block. */
    method CleanUp(task: Task, plan: Plan, loc: Locals) returns (ok: bool, end: Worker, ghost n: nat)
      modifies this`network, this`backupFile
      ensures Follow(Sys(old(World()), Busy(AcLeaveOld, task, loc)), plan, n) == Sys(World(), end)
      ensures end == if !ok then Busy(CaRestore, task, loc) else if task.rollback then Busy(RbUnpin, task, loc)
          else Idle
      ensures !ok ==> Threw(plan(AcLeaveOld)) || Threw(plan(AcDropBackup))
      ensures ok ==> Tidied(OldBox(old(World()).db, loc.active, task), old(World()).gw, World().gw, plan)
    {
      hide Follow;
      ghost var s0 := Sys(World(), Busy(AcLeaveOld, task, loc));
      end := Busy(CaRestore, task, loc);
      ok, n := LeaveOld(task, plan, loc);
      if ok {
        ghost var m: nat;
        ok, end, m := DropBackup(task, plan, loc);
        FollowOn(s0, plan, n, m);
        n := n + m;
      }
    }

    method LeaveOld(task: Task, plan: Plan, loc: Locals) returns (ok: bool, ghost n: nat)
      modifies this`network
      ensures Follow(Sys(old(World()), Busy(AcLeaveOld, task, loc)), plan, n)
              == Sys(World(), Busy(if ok then AcDropBackup else CaRestore, task, loc))
      ensures !ok ==> Threw(plan(AcLeaveOld))
      ensures Left(OldBox(old(World()).db, loc.active, task), old(World()).gw, World().gw, plan)
    {
      ok, n := true, 1;
      var before := if loc.active.Some? && loc.active.value in releases then releases[loc.active.value].runtimeRef
          else None;
      if before.Some? && before.value != task.container {
        if Applied(plan(AcLeaveOld)) {
          Disconnect(before);
        }
        ok := !Threw(plan(AcLeaveOld));
      }
    }

    method DropBackup(task: Task, plan: Plan, loc: Locals) returns (ok: bool, end: Worker, ghost n: nat)
      modifies this`backupFile
      ensures Follow(Sys(old(World()), Busy(AcDropBackup, task, loc)), plan, n) == Sys(World(), end)
      ensures end == if !ok then Busy(CaRestore, task, loc) else if task.rollback then Busy(RbUnpin, task, loc)
          else Idle
      ensures ok == !Threw(plan(AcDropBackup)) && (plan(AcDropBackup).Done? ==> backupFile.None?)
    {
      if Applied(plan(AcDropBackup)) {
        backupFile := None;
      }
      ok, n := !Threw(plan(AcDropBackup)), 1;
      end := if !ok then Busy(CaRestore, task, loc) else if task.rollback then Busy(RbUnpin, task, loc) else Idle;
    }

    /** `markReadinessFailed` */
    method MarkReadinessFailed(id: Id, fail: Fault, clear: Fault) returns (marked: bool)
      modifies this`releases, this`candidateId
      ensures marked == fail.Done?
      ensures World().db == var failed := if Applied(fail) then FailTx(old(World()).db, id) else old(World()).db;
                            if marked && Applied(clear) then ClearTx(failed, id) else failed
      ensures World().gw == old(World()).gw
    {
      if Applied(fail) {
        SetStatus(id, FAILED, REJECTED);
      }
      marked := fail.Done?;
      if marked && Applied(clear) && candidateId == Some(id) {
        candidateId := None;
      }
    }

    predicate Compensates(plan: Plan) {
      plan(CaRestore).Done? && plan(CaLeaveCandidate).Done? && plan(CaFail).Done? && plan(CaClear).Done?
    }

    /** The first half of the catch block: the route file and the network. */
    method UndoGateway(task: Task, plan: Plan, loc: Locals) returns (ok: bool, ghost n: nat)
      modifies this`routeFile, this`backupFile, this`network
      ensures Follow(Sys(old(World()), Busy(CaRestore, task, loc)), plan, n)
              == Sys(World(), Busy(if ok then CaFail else AfterThrow(task), task, loc))
      ensures Compensates(plan) ==>
          ok && routeFile == old(backupFile) && backupFile.None? && task.container !in network
    {
      ghost var s0 := Sys(World(), Busy(CaRestore, task, loc));
      ok, n := !Threw(plan(CaRestore)), 1;
      if Applied(plan(CaRestore)) {
        routeFile, backupFile := backupFile, None;
      }
      if ok {
        FollowOne(s0, plan, n);
        if Applied(plan(CaLeaveCandidate)) {
          Disconnect(Some(task.container));
        }
        ok, n := !Threw(plan(CaLeaveCandidate)), 2;
      }
    }

    /** The catch block. */
    method Revert(task: Task, plan: Plan, loc: Locals) returns (ghost n: nat)
      modifies this`routeFile, this`backupFile, this`network, this`releases, this`candidateId
      ensures Follow(Sys(old(World()), Busy(CaRestore, task, loc)), plan, n) ==
          Sys(World(), Busy(AfterThrow(task), task, loc))
      ensures Compensates(plan) ==>
                && routeFile == old(backupFile) && backupFile.None? && task.container !in network
                && (task.id in old(releases) ==>
                      && OthersKept(old(World()).db, World().db, task.id)
                      && releases[task.id].status == FAILED && releases[task.id].readiness == REJECTED)
                && candidateId == if old(candidateId) == Some(task.id) then None else old(candidateId)
    {
      ghost var s0 := Sys(World(), Busy(CaRestore, task, loc));
      var ok;
      ok, n := UndoGateway(task, plan, loc);
      if ok {
        ghost var m := FailAfterRevert(task, plan, loc);
        FollowOn(s0, plan, n, m);
        n := n + m;
      }
    }

    method FailAfterRevert(task: Task, plan: Plan, loc: Locals) returns (ghost n: nat)
      modifies this`releases, this`candidateId
      ensures Follow(Sys(old(World()), Busy(CaFail, task, loc)), plan, n) ==
          Sys(World(), Busy(AfterThrow(task), task, loc))
      ensures plan(CaFail).Done? && plan(CaClear).Done? ==>
          World().db == ClearTx(FailTx(old(World()).db, task.id), task.id)
    {
      ghost var s0 := Sys(World(), Busy(CaFail, task, loc));
      ghost var failed := Advance(s0, plan(CaFail));
      var marked := MarkReadinessFailed(task.id, plan(CaFail), plan(CaClear));
      n := 1;
      if marked {
        FollowOne(s0, plan, n);
        n := 2;
      }
    }

    /** The try block up to the commit. */
    method SwitchAndCommit(task: Task, plan: Plan, loc: Locals) returns (ok: bool, ghost n: nat)
      modifies this
      ensures Follow(Sys(old(World()), Busy(AcBackup, task, loc)), plan, n)
              == Sys(World(), Busy(if ok then AcLeaveOld else CaRestore, task, loc))
      ensures ok ==> routeFile == Some(PublicRoute(task.domain, task.id, task.port))
                     && World().db == CommitTx(old(World()).db, task.id, loc.active)
      ensures !ok && Applied(plan(AcBackup)) && plan(AcCommit) != ThrewAfter ==>
                backupFile == old(routeFile) && World().db == old(World()).db
      ensures !ok && plan(AcCommit) != ThrewAfter ==> activeId == old(activeId)
      ensures network == old(network) && running == old(running)
    {
      hide Follow;
      ghost var s0 := Sys(World(), Busy(AcBackup, task, loc));
      ok, n := Canary(task, plan, loc);
      if ok {
        ghost var m: nat;
        ok, m := GoPublic(task, plan, loc);
        FollowOn(s0, plan, n, m);
        n := n + m;
      }
    }

    /** The try block. */
    method SwitchTraffic(task: Task, plan: Plan, loc: Locals) returns (ok: bool, end: Worker, ghost n: nat)
      modifies this
      ensures Follow(Sys(old(World()), Busy(AcBackup, task, loc)), plan, n) == Sys(World(), end)
      ensures end == if !ok then Busy(CaRestore, task, loc) else if task.rollback then Busy(RbUnpin, task, loc)
          else Idle
      ensures ok ==> Committed(old(World()), World(), task, plan, loc)
      ensures !ok && Applied(plan(AcBackup)) && NoLateThrow(plan) ==>
                backupFile == old(routeFile) && World().db == old(World()).db
      ensures !ok && NoLateThrow(plan) ==> activeId == old(activeId)
    {
      hide Follow;
      ghost var s0 := Sys(World(), Busy(AcBackup, task, loc));
      end := Busy(CaRestore, task, loc);
      ok, n := SwitchAndCommit(task, plan, loc);
      if ok {
        ghost var m: nat;
        ok, end, m := TidyUp(task, plan, loc, old(World()));
        FollowOn(s0, plan, n, m);
        n := n + m;
      }
    }

    /** The cleanup, seen from before the commit. */
    method TidyUp(task: Task, plan: Plan, loc: Locals, ghost before: World)
      returns (ok: bool, end: Worker, ghost n: nat)
      requires World().db == CommitTx(before.db, task.id, loc.active)
      requires routeFile == Some(PublicRoute(task.domain, task.id, task.port))
      requires network == before.gw.public && running == before.gw.running
      modifies this`network, this`backupFile
      ensures Follow(Sys(old(World()), Busy(AcLeaveOld, task, loc)), plan, n) == Sys(World(), end)
      ensures end == if !ok then Busy(CaRestore, task, loc) else if task.rollback then Busy(RbUnpin, task, loc)
          else Idle
      ensures !ok ==> !NoLateThrow(plan)
      ensures ok ==> Committed(before, World(), task, plan, loc)
    {
      ok, end, n := CleanUp(task, plan, loc);
      CommitKeepsBox(before.db, task.id, loc.active, task);
    }

    predicate NoLateThrow(plan: Plan) {
      plan(AcCommit) != ThrewAfter && !Threw(plan(AcLeaveOld)) && !Threw(plan(AcDropBackup))
    }

    /** `activate`.  It either commits, or refuses before it has touched the route file, or
        reverts; and a reverted activation whose route file had been saved and whose handler
        succeeds leaves the world as it was but for the FAILED candidate. */
    method Activate(task: Task, plan: Plan, loc0: Locals) returns (outcome: Outcome, end: Worker, ghost n: nat)
      modifies this
      ensures Follow(Sys(old(World()), Busy(AcLoad, task, loc0)), plan, n) == Sys(World(), end)
      ensures outcome.Activated? ==>
                && end.Idle? == !task.rollback && (end.Busy? ==> end.pc == RbUnpin)
                && TakenOver(old(World()), World(), task, plan)
      ensures !outcome.Activated? ==> end.Busy? && end.pc == AfterThrow(task) && end.task == task
      ensures !outcome.Activated? && NoLateThrow(plan) ==> activeId == old(activeId)
      ensures outcome.Refused? ==>
                routeFile == old(routeFile) && backupFile == old(backupFile) && activeId == old(activeId)
      ensures outcome.Reverted? && Applied(plan(AcBackup)) && Compensates(plan) && NoLateThrow(plan)
              ==> Undone(old(World()), World(), task)
    {
      hide Follow;
      ghost var s0 := Sys(World(), Busy(AcLoad, task, loc0));
      var ok, loc;
      ok, loc, n := Prepare(task, plan, loc0);
      if !ok {
        return Refused, Busy(AfterThrow(task), task, loc), n;
      }
      ghost var m;
      ok, end, m := Proceed(task, plan, loc, old(World()));
      FollowOn(s0, plan, n, m);
      n := n + m;
      outcome := if ok then Activated else Reverted;
    }

    /** What follows the preparation, seen from before it. */
    method Proceed(task: Task, plan: Plan, loc: Locals, ghost before: World)
      returns (ok: bool, end: Worker, ghost n: nat)
      requires Prepared(before, World(), task, plan) && loc.active == before.db.active
      modifies this
      ensures Follow(Sys(old(World()), Busy(AcBackup, task, loc)), plan, n) == Sys(World(), end)
      ensures end == if !ok then Busy(AfterThrow(task), task, loc) else if task.rollback then Busy(RbUnpin, task, loc)
          else Idle
      ensures ok ==> TakenOver(before, World(), task, plan)
      ensures !ok && Applied(plan(AcBackup)) && Compensates(plan) && NoLateThrow(plan) ==>
          Undone(before, World(), task)
      ensures !ok && NoLateThrow(plan) ==> activeId == old(activeId)
    {
      ghost var prepared := World();
      ok, end, n := SwitchOrRevert(task, plan, loc);
      if ok {
        CommittedTakesOver(before, prepared, World(), task, plan, loc);
      } else if Applied(plan(AcBackup)) && Compensates(plan) && NoLateThrow(plan) {
        PutBackUndoes(before, prepared, World(), task, plan);
      }
    }

    /** The try block and its handler. */
    method SwitchOrRevert(task: Task, plan: Plan, loc: Locals) returns (ok: bool, end: Worker, ghost n: nat)
      modifies this
      ensures Follow(Sys(old(World()), Busy(AcBackup, task, loc)), plan, n) == Sys(World(), end)
      ensures end == if !ok then Busy(AfterThrow(task), task, loc) else if task.rollback then Busy(RbUnpin, task, loc)
          else Idle
      ensures ok ==> Committed(old(World()), World(), task, plan, loc)
      ensures !ok && Applied(plan(AcBackup)) && Compensates(plan) && NoLateThrow(plan) ==>
                PutBack(old(World()), World(), task)
      ensures !ok && NoLateThrow(plan) ==> activeId == old(activeId)
    {
      hide Follow;
      ghost var s0 := Sys(World(), Busy(AcBackup, task, loc));
      ok, end, n := SwitchTraffic(task, plan, loc);
      if !ok {
        ghost var m := Revert(task, plan, loc);
        FollowOn(s0, plan, n, m);
        n := n + m;
        end := Busy(AfterThrow(task), task, loc);
      }
    }

    // -------------------------------------------------------------- reconcileProject

    /** The branch that tries to bring an interrupted first release up. */
    method TryPromote(task: Task, plan: Plan, loc: Locals) returns (end: Worker, ghost n: nat)
      requires loc.cand.Some? && loc.cand.value in releases && releases[loc.cand.value].runtimeRef.Some?
      modifies this
      ensures Follow(Sys(old(World()), Busy(RcJoinCandidate, task, loc)), plan, n) == Sys(World(), end)
      ensures end.Idle? || (end.task == task && end.loc == loc && end.pc in {DpBegin, RcUndo})
      ensures releases.Keys == old(releases).Keys
          && releases[loc.cand.value].runtimeRef == old(releases[loc.cand.value].runtimeRef)
      ensures end.Busy? && end.pc == DpBegin ==> BroughtUp(old(World()).db, World(), loc.cand.value, task.domain, plan)
      ensures end.Busy? && end.pc == RcUndo && plan(RcPromote) != ThrewAfter ==> World().db == old(World()).db
    {
      ghost var s0 := Sys(World(), Busy(RcJoinCandidate, task, loc));
      var cand, box := loc.cand.value, releases[loc.cand.value].runtimeRef;
      n := 1;
      if Applied(plan(RcJoinCandidate)) {
        Connect(box, cand);
      }
      if Threw(plan(RcJoinCandidate)) {
        return Idle, n;
      }
      FollowOne(s0, plan, n);
      if Applied(plan(RcWriteCandidate)) {
        routeFile := Some(PublicRoute(task.domain, cand, releases[cand].port));
      }
      n := n + 1;
      if !plan(RcWriteCandidate).Done? {
        return Busy(RcUndo, task, loc), n;
      }
      assert Follow(s0, plan, n) == Sys(World(), Busy(RcProbe, task, loc));
      ghost var m;
      end, m := ProbeAndPromote(task, plan, loc);
      FollowOn(s0, plan, n, m);
      n := n + m;
    }

    method ProbeAndPromote(task: Task, plan: Plan, loc: Locals) returns (end: Worker, ghost n: nat)
      requires loc.cand.Some? && loc.cand.value in releases
      modifies this`releases, this`activeId, this`candidateId
      ensures Follow(Sys(old(World()), Busy(RcProbe, task, loc)), plan, n) == Sys(World(), end)
      ensures end.Busy? && end.task == task && end.loc == loc && end.pc in {DpBegin, RcUndo}
      ensures releases.Keys == old(releases).Keys
          && releases[loc.cand.value].runtimeRef == old(releases[loc.cand.value].runtimeRef)
      ensures end.pc == DpBegin ==> World().db == PromoteTx(old(World()).db, loc.cand.value)
      ensures end.pc == RcUndo && plan(RcPromote) != ThrewAfter ==> World().db == old(World()).db
    {
      ghost var s0 := Sys(World(), Busy(RcProbe, task, loc));
      n := 1;
      var answered := Probe(task.domain, None);
      if !plan(RcProbe).Done? || !answered {
        return Busy(RcUndo, task, loc), n;
      }
      FollowOne(s0, plan, n);
      if Applied(plan(RcPromote)) {
        SetStatus(loc.cand.value, ACTIVE, PASSED);
        activeId, candidateId := loc.cand, None;
      }
      n := n + 1;
      end := Busy(Strict(plan(RcPromote), DpBegin, RcUndo), task, loc);
    }

    /** Takes the candidate off the network and marks it FAILED. */
    method Abandon(task: Task, plan: Plan, loc: Locals) returns (end: Worker, ghost n: nat)
      requires loc.cand.Some? && loc.cand.value in releases
      modifies this`network, this`releases, this`candidateId
      ensures Follow(Sys(old(World()), Busy(RcLeaveCandidate, task, loc)), plan, n) == Sys(World(), end)
      ensures end.Idle? || (end.pc == DpBegin && end.task == task)
      ensures KeepsLive(old(World()).db, World().db) && releases.Keys == old(releases).Keys
      ensures end.Busy? && plan(RcLeaveCandidate).Done? ==> SetAside(old(World()).db, World(), loc.cand.value)
      ensures StillJoined(old(World()).gw, World().gw, ContainerOf(old(World()).db, loc.cand))
      ensures network.Keys <= old(network).Keys
    {
      ghost var s0 := Sys(World(), Busy(RcLeaveCandidate, task, loc));
      end, n := Idle, 1;
      if Applied(plan(RcLeaveCandidate)) {
        Disconnect(releases[loc.cand.value].runtimeRef);
      }
      if !Threw(plan(RcLeaveCandidate)) {
        assert Follow(s0, plan, n) == Sys(World(), Busy(RcAbandon, task, loc));
        ghost var m: nat;
        end, m := MarkAbandoned(task, plan, loc);
        FollowOn(s0, plan, n, m);
        n := n + m;
      }
    }

    method MarkAbandoned(task: Task, plan: Plan, loc: Locals) returns (end: Worker, ghost n: nat)
      requires loc.cand.Some? && loc.cand.value in releases
      modifies this`releases, this`candidateId
      ensures Follow(Sys(old(World()), Busy(RcAbandon, task, loc)), plan, n) == Sys(World(), end)
      ensures end == if plan(RcAbandon).Done? then Busy(DpBegin, task, loc) else Idle
      ensures World().db == if Applied(plan(RcAbandon)) then AbandonTx(old(World()).db, loc.cand.value)
          else old(World()).db
    {
      if Applied(plan(RcAbandon)) {
        SetStatus(loc.cand.value, FAILED, REJECTED);
        candidateId := None;
      }
      end, n := if plan(RcAbandon).Done? then Busy(DpBegin, task, loc) else Idle, 1;
    }

    /** Puts the live release's route back. */
    method RestoreActive(task: Task, plan: Plan, loc: Locals) returns (ok: bool, ghost n: nat)
      requires loc.active.Some? && loc.active.value in releases && releases[loc.active.value].runtimeRef.Some?
      modifies this`network, this`routeFile
      ensures Follow(Sys(old(World()), Busy(RcJoinActive, task, loc)), plan, n)
              == Sys(World(), if ok then Busy(RcLeaveCandidate, task, loc) else Idle)
      ensures ok ==> routeFile == Some(PublicRoute(task.domain, loc.active.value, releases[loc.active.value].port))
      ensures plan(RcJoinActive).Done? ==> Connected(World().db, World().gw, loc.active)
    {
      ghost var s0 := Sys(World(), Busy(RcJoinActive, task, loc));
      n := 1;
      if Applied(plan(RcJoinActive)) {
        Connect(releases[loc.active.value].runtimeRef, loc.active.value);
      }
      if Threw(plan(RcJoinActive)) {
        return false, n;
      }
      FollowOne(s0, plan, n);
      if Applied(plan(RcWriteActive)) {
        routeFile := Some(PublicRoute(task.domain, loc.active.value, releases[loc.active.value].port));
      }
      n := n + 1;
      ok := plan(RcWriteActive).Done?;
    }

    /** `reconcileProject` */
    method ReconcileProject(task: Task, plan: Plan) returns (end: Worker, ghost n: nat)
      modifies this
      ensures Follow(Sys(old(World()), Busy(RcRead, task, NO_LOCALS)), plan, n) == Sys(World(), end)
      ensures end.Idle? || (end.pc == DpBegin && end.task == task)
      ensures KeepsLive(old(World()).db, World().db) && releases.Keys == old(releases).Keys
      ensures end.Busy? ==> Reconciled(old(World()), World(), task.domain, plan)
    {
      ghost var s0 := Sys(World(), Busy(RcRead, task, NO_LOCALS));
      n := 1;
      if !plan(RcRead).Done? {
        return Idle, n;
      }
      if candidateId.None? || candidateId.value !in releases || !Live(releases[candidateId.value].status) {
        return Busy(DpBegin, task, NO_LOCALS), n;
      }
      var loc := Locals(activeId, None, candidateId);
      if activeId.None? && releases[candidateId.value].runtimeRef.Some? {
        assert Follow(s0, plan, n) == Sys(World(), Busy(RcJoinCandidate, task, loc));
        ghost var m: nat;
        end, m := PromoteOrAbandon(task, plan, loc);
        FollowOn(s0, plan, n, m);
        n := n + m;
      } else {
        ghost var m: nat;
        end, m := RestoreOrAbandon(task, plan, loc);
        FollowOn(s0, plan, n, m);
        n := n + m;
      }
    }

    method PromoteOrAbandon(task: Task, plan: Plan, loc: Locals) returns (end: Worker, ghost n: nat)
      requires loc.cand.Some? && loc.cand.value in releases && releases[loc.cand.value].runtimeRef.Some?
      modifies this
      ensures Follow(Sys(old(World()), Busy(RcJoinCandidate, task, loc)), plan, n) == Sys(World(), end)
      ensures end.Idle? || (end.pc == DpBegin && end.task == task)
      ensures releases.Keys == old(releases).Keys
      ensures end.Busy? && plan(RcPromote) != ThrewAfter && old(activeId).None? ==>
          Decided(old(World()), World(), loc.cand.value, task.domain, plan)
    {
      hide Follow;
      ghost var s0 := Sys(World(), Busy(RcJoinCandidate, task, loc));
      end, n := TryPromote(task, plan, loc);
      if end.Busy? && end.pc == RcUndo {
        ghost var m: nat;
        end, m := UndoPromotion(task, plan, loc);
        FollowOn(s0, plan, n, m);
        n := n + m;
      }
    }

    /** The catch block of the promotion, and what follows it. */
    method UndoPromotion(task: Task, plan: Plan, loc: Locals) returns (end: Worker, ghost n: nat)
      requires loc.cand.Some? && loc.cand.value in releases && releases[loc.cand.value].runtimeRef.Some?
      modifies this
      ensures Follow(Sys(old(World()), Busy(RcUndo, task, loc)), plan, n) == Sys(World(), end)
      ensures end.Idle? || (end.pc == DpBegin && end.task == task)
      ensures releases.Keys == old(releases).Keys && activeId == old(activeId)
      ensures end.Busy? && plan(RcLeaveCandidate).Done? ==> SetAside(old(World()).db, World(), loc.cand.value)
      ensures end.Busy? && plan(RcUndo).Done? ==>
          routeFile.None? && ContainerOf(old(World()).db, loc.cand).value !in network
    {
      ghost var s0 := Sys(World(), Busy(RcUndo, task, loc));
      n := 1;
      if Applied(plan(RcUndo)) {
        routeFile := None;
        Disconnect(releases[loc.cand.value].runtimeRef);
      }
      if Threw(plan(RcUndo)) {
        return Idle, n;
      }
      ghost var m: nat;
      end, m := Abandon(task, plan, loc);
      FollowOn(s0, plan, n, m);
      n := n + m;
    }

    method RestoreOrAbandon(task: Task, plan: Plan, loc: Locals) returns (end: Worker, ghost n: nat)
      requires loc == Locals(activeId, None, candidateId) && LiveCandidate(Db(releases, activeId, candidateId))
      requires activeId.Some? || releases[candidateId.value].runtimeRef.None?
      modifies this
      ensures Follow(Sys(old(World()), AfterRead(old(World()).db, task)), plan, n) == Sys(World(), end)
      ensures end.Idle? || (end.pc == DpBegin && end.task == task)
      ensures KeepsLive(old(World()).db, World().db) && releases.Keys == old(releases).Keys
      ensures end.Busy? ==> Resettled(old(World()), World(), loc.cand.value, task.domain, plan)
    {
      ghost var s0 := Sys(World(), AfterRead(World().db, task));
      n := 0;
      if activeId.Some? && activeId.value in releases && releases[activeId.value].runtimeRef.Some? {
        var ok;
        ok, n := RestoreActive(task, plan, loc);
        if !ok {
          return Idle, n;
        }
      }
      ghost var m: nat;
      end, m := Abandon(task, plan, loc);
      FollowOn(s0, plan, n, m);
      n := n + m;
    }

    // -------------------------------------------------------------- whole jobs

    /** `begin`, the build and `recordRuntime` inside `executeDeployment`. */
    method Build(task: Task, plan: Plan, loc: Locals) returns (end: Worker, ghost n: nat)
      modifies this`releases, this`candidateId, this`network, this`running
      ensures Follow(Sys(old(World()), Busy(DpBegin, task, loc)), plan, n) == Sys(World(), end)
      ensures if plan(DpBegin).Done? then end.Busy? && end.task == task && end.pc in {AcLoad, DfFail} else end.Idle?
      ensures old(activeId) != Some(task.id) ==> KeepsLive(old(World()).db, World().db)
    {
      ghost var s0 := Sys(World(), Busy(DpBegin, task, loc));
      n := 1;
      if Applied(plan(DpBegin)) {
        Begin(task.id, task.port, task.dockerName);
      }
      if !plan(DpBegin).Done? {
        return Idle, n;
      }
      ghost var m: nat;
      var ok;
      ok, m := ReplaceRuntime(task, plan, loc);
      FollowOn(s0, plan, n, m);
      n := n + m;
      end := Busy(DfFail, task, loc);
      if ok {
        end, m := Record(task, plan, loc);
        FollowOn(s0, plan, n, m);
        n := n + m;
      }
    }

    /** Builds, removes whatever runs under the deployment's name, and starts the new runtime. */
    method ReplaceRuntime(task: Task, plan: Plan, loc: Locals) returns (ok: bool, ghost n: nat)
      modifies this`network, this`running
      ensures Follow(Sys(old(World()), Busy(DpEvict, task, loc)), plan, n)
              == Sys(World(), Busy(if ok then DpRecord else DfFail, task, loc))
    {
      ghost var s0 := Sys(World(), Busy(DpEvict, task, loc));
      n := 1;
      if Applied(plan(DpEvict)) {
        RemoveNamed(task.dockerName);
      }
      if Threw(plan(DpEvict)) {
        return false, n;
      }
      FollowOne(s0, plan, n);
      ghost var m: nat;
      ok, m := LaunchRuntime(task, plan, loc);
      FollowOn(s0, plan, n, m);
      n := n + m;
    }

    method LaunchRuntime(task: Task, plan: Plan, loc: Locals) returns (ok: bool, ghost n: nat)
      modifies this`network, this`running
      ensures Follow(Sys(old(World()), Busy(DpLaunch, task, loc)), plan, n)
              == Sys(World(), Busy(if ok then DpRecord else DfFail, task, loc))
    {
      ok, n := false, 1;
      if Applied(plan(DpLaunch)) {
        var started := StartRuntime(task.id, task.container, task.dockerName);
        ok := plan(DpLaunch).Done? && started;
      }
    }

    method Record(task: Task, plan: Plan, loc: Locals) returns (end: Worker, ghost n: nat)
      modifies this`releases
      ensures Follow(Sys(old(World()), Busy(DpRecord, task, loc)), plan, n) == Sys(World(), end)
      ensures end == Busy(Strict(plan(DpRecord), AcLoad, DfFail), task, loc)
      ensures old(activeId) != Some(task.id) ==> KeepsLive(old(World()).db, World().db)
    {
      if Applied(plan(DpRecord)) {
        RecordRuntime(task.id, task.container);
      }
      end, n := Busy(Strict(plan(DpRecord), AcLoad, DfFail), task, loc), 1;
    }

    /** The catch block of `executeDeployment` for a release that did not go live. */
    method FailDeployment(task: Task, plan: Plan, loc: Locals) returns (ghost n: nat)
      modifies this`releases, this`candidateId, this`network, this`running
      ensures Follow(Sys(old(World()), Busy(DfFail, task, loc)), plan, n) == Sys(World(), Idle)
      ensures Cleans(plan) ==> GaveUp(World(), task)
    {
      hide Follow;
      ghost var s0 := Sys(World(), Busy(DfFail, task, loc));
      var go;
      go, n := MarkFailed(task, plan, loc);
      if go {
        ghost var m := RemoveQuietly(task, plan, loc);
        FollowOn(s0, plan, n, m);
        n := n + m;
        if Cleans(plan) {
          GaveUpFrom(old(World()).db, World(), task);
        }
      }
    }

    method MarkFailed(task: Task, plan: Plan, loc: Locals) returns (go: bool, ghost n: nat)
      modifies this`releases, this`candidateId
      ensures Follow(Sys(old(World()), Busy(DfFail, task, loc)), plan, n)
              == Sys(World(), if go then Busy(DfRemove, task, loc) else Idle)
      ensures plan(DfFail).Done? && plan(DfClear).Done? ==>
                go && World().db == ClearTx(FailTx(old(World()).db, task.id), task.id)
    {
      ghost var s0 := Sys(World(), Busy(DfFail, task, loc));
      var marked := MarkReadinessFailed(task.id, plan(DfFail), plan(DfClear));
      go, n := !marked || plan(DfClear).Done?, 1;
      if marked {
        FollowOne(s0, plan, n);
        n := n + 1;
      }
    }

    method RemoveQuietly(task: Task, plan: Plan, loc: Locals) returns (ghost n: nat)
      modifies this`network, this`running
      ensures Follow(Sys(old(World()), Busy(DfRemove, task, loc)), plan, n) == Sys(World(), Idle)
      ensures plan(DfRemove).Done? && task.container in running ==> running[task.container] != task.id
    {
      if Applied(plan(DfRemove)) {
        RemoveRuntime(task.id, task.container);
      }
      n := 1;
    }

    /** A deploy job: the release part of `executeDeployment`.  Whatever fails, a run of the
        machine ends in the world it leaves, and the live release stays exact. */
    method ExecuteDeployment(task: Task, plan: Plan) returns (releaseActivated: bool, ghost n: nat)
      requires !task.rollback
      modifies this
      ensures Follow(Sys(old(World()), Busy(RcRead, task, NO_LOCALS)), plan, n) == Sys(World(), Idle)
      ensures releaseActivated ==> TookOver(old(World()).db, World(), task, plan)
      ensures !releaseActivated && Began(old(World()).db, World().db, task, plan) && Cleans(plan) ==>
          GaveUp(World(), task)
      ensures old(Inv(Sys(World(), Idle)) && NewRelease(World().db, task)) && NeverLate(plan) ==>
          ActiveExact(World().db)
    {
      ghost var s0 := Sys(World(), Busy(RcRead, task, NO_LOCALS));
      releaseActivated, n := Deploy(task, plan);
      if old(Inv(Sys(World(), Idle)) && NewRelease(World().db, task)) && NeverLate(plan) {
        FollowKeepsInv(s0, plan, n);
      }
    }

    method Deploy(task: Task, plan: Plan) returns (activated: bool, ghost n: nat)
      requires !task.rollback
      modifies this
      ensures Follow(Sys(old(World()), Busy(RcRead, task, NO_LOCALS)), plan, n) == Sys(World(), Idle)
      ensures activated ==> TookOver(old(World()).db, World(), task, plan)
      ensures !activated && Began(old(World()).db, World().db, task, plan) && Cleans(plan) ==> GaveUp(World(), task)
    {
      hide Follow;
      ghost var s0 := Sys(World(), Busy(RcRead, task, NO_LOCALS));
      var end;
      activated := false;
      end, n := ReconcileProject(task, plan);
      if end.Busy? {
        ghost var m: nat;
        activated, m := BuildAndActivate(task, plan, end.loc, old(World()).db);
        FollowOn(s0, plan, n, m);
        n := n + m;
      }
    }

    /** What follows the reconciliation, seen from before it. */
    method BuildAndActivate(task: Task, plan: Plan, loc: Locals, ghost before: Db)
      returns (activated: bool, ghost n: nat)
      requires !task.rollback && KeepsLive(before, World().db)
      modifies this
      ensures Follow(Sys(old(World()), Busy(DpBegin, task, loc)), plan, n) == Sys(World(), Idle)
      ensures activated ==> TookOver(before, World(), task, plan)
      ensures !activated && plan(DpBegin).Done? && Cleans(plan) ==> GaveUp(World(), task)
    {
      hide Follow;
      ghost var s0 := Sys(World(), Busy(DpBegin, task, loc));
      var end;
      end, n := Build(task, plan, loc);
      ghost var built, m: nat := World(), 0;
      activated, m := ActivateOrFail(task, plan, end);
      FollowOn(s0, plan, n, m);
      n := n + m;
      if activated {
        TookOverFrom(before, old(World()).db, built, World(), task, plan);
      }
    }

    method ActivateOrFail(task: Task, plan: Plan, from: Worker) returns (activated: bool, ghost n: nat)
      requires !task.rollback && (from.Idle? || (from.task == task && from.pc in {AcLoad, DfFail}))
      modifies this
      ensures Follow(Sys(old(World()), from), plan, n) == Sys(World(), Idle)
      ensures activated ==> TakenOver(old(World()), World(), task, plan)
      ensures !activated && from.Busy? && Cleans(plan) ==> GaveUp(World(), task)
    {
      hide Follow;
      ghost var s0 := Sys(World(), from);
      ghost var m: nat;
      var end := from;
      activated, n := false, 0;
      FollowNone(s0, plan);
      if end.Busy? && end.pc == AcLoad {
        var outcome;
        outcome, end, n := Activate(task, plan, from.loc);
        activated := outcome.Activated?;
      }
      if end.Busy? {
        m := FailDeployment(end.task, plan, end.loc);
        FollowOn(s0, plan, n, m);
        n := n + m;
      }
    }

    /** A rollback job: `executeRollback`, with its finally block.  On success the requested release
        is live as after any activation, and whatever happened, its pin has been taken back. */
    method ExecuteRollback(task: Task, plan: Plan) returns (releaseActivated: bool, ghost n: nat)
      requires task.rollback
      modifies this
      ensures Follow(Sys(old(World()), Busy(RbRead, task, NO_LOCALS)), plan, n) == Sys(World(), Idle)
      ensures releaseActivated ==>
          activeId == old(candidateId) && TakenOver(old(World()), World(), RollbackJob(old(World()).db, task), plan)
      ensures !releaseActivated && NoLateThrow(plan) ==> activeId == old(activeId)
      ensures plan(RbRead).Done? && plan(RbUnpin).Done? && old(ContainerOf(World().db, candidateId)).Some? ==>
                old(candidateId).value in releases && !releases[old(candidateId).value].pinned
      ensures old(Inv(Sys(World(), Idle))) && NeverLate(plan) ==> ActiveExact(World().db)
    {
      ghost var s0 := Sys(World(), Busy(RbRead, task, NO_LOCALS));
      releaseActivated, n := RollBack(task, plan);
      if old(Inv(Sys(World(), Idle))) && NeverLate(plan) {
        FollowKeepsInv(s0, plan, n);
      }
    }

    method RollBack(task: Task, plan: Plan) returns (activated: bool, ghost n: nat)
      requires task.rollback
      modifies this
      ensures Follow(Sys(old(World()), Busy(RbRead, task, NO_LOCALS)), plan, n) == Sys(World(), Idle)
      ensures activated ==>
          activeId == old(candidateId) && TakenOver(old(World()), World(), RollbackJob(old(World()).db, task), plan)
      ensures !activated && NoLateThrow(plan) ==> activeId == old(activeId)
      ensures plan(RbRead).Done? && plan(RbUnpin).Done? && old(ContainerOf(World().db, candidateId)).Some? ==>
                old(candidateId).value in releases && !releases[old(candidateId).value].pinned
    {
      hide Follow;
      ghost var s0 := Sys(World(), Busy(RbRead, task, NO_LOCALS));
      RollbackBegins(World(), task, plan);
      activated, n := false, 1;
      if plan(RbRead).Done? && candidateId.Some? && candidateId.value in releases
         && releases[candidateId.value].runtimeRef.Some? {
        var row := releases[candidateId.value];
        var job := task.(id := candidateId.value, container := row.runtimeRef.value, port := row.port);
        ghost var m: nat;
        activated, m := ActivateAndUnpin(job, plan, Locals(None, None, candidateId));
        FollowOn(s0, plan, n, m);
        n := n + m;
      }
    }

    method ActivateAndUnpin(job: Task, plan: Plan, loc: Locals) returns (activated: bool, ghost n: nat)
      requires job.rollback && loc.cand == Some(job.id) && job.id in releases
      modifies this
      ensures Follow(Sys(old(World()), Busy(RbValidate, job, loc)), plan, n) == Sys(World(), Idle)
      ensures activated ==> TakenOver(old(World()), World(), job, plan)
      ensures !activated && NoLateThrow(plan) ==> activeId == old(activeId)
      ensures job.id in releases && (plan(RbUnpin).Done? ==> !releases[job.id].pinned)
    {
      hide Follow;
      ghost var s0 := Sys(World(), Busy(RbValidate, job, loc));
      var end;
      activated, end, n := ValidateAndActivate(job, plan, loc);
      FollowKeepsRows(s0, plan, n);
      ghost var w := World();
      ghost var m := Unpin(end, plan);
      if activated {
        UnpinKeepsTakenOver(old(World()), w, World(), job, plan);
      }
      FollowOn(s0, plan, n, m);
      n := n + m;
    }

    method ValidateAndActivate(job: Task, plan: Plan, loc: Locals) returns (activated: bool, end: Worker, ghost n: nat)
      requires job.rollback
      modifies this
      ensures Follow(Sys(old(World()), Busy(RbValidate, job, loc)), plan, n) == Sys(World(), end)
      ensures end.Busy? && end.pc == RbUnpin
      ensures activated ==> TakenOver(old(World()), World(), job, plan)
      ensures !activated && NoLateThrow(plan) ==> activeId == old(activeId)
    {
      ghost var s0 := Sys(World(), Busy(RbValidate, job, loc));
      end := Busy(RbUnpin, job, loc);
      activated, n := false, 1;
      if plan(RbValidate).Done? {
        assert Follow(s0, plan, n) == Sys(World(), Busy(AcLoad, job, loc));
        ghost var m: nat;
        activated, end, m := ActivateTarget(job, plan, loc);
        FollowOn(s0, plan, n, m);
        n := n + m;
      }
    }

    method ActivateTarget(job: Task, plan: Plan, loc: Locals) returns (activated: bool, end: Worker, ghost n: nat)
      requires job.rollback
      modifies this
      ensures Follow(Sys(old(World()), Busy(AcLoad, job, loc)), plan, n) == Sys(World(), end)
      ensures end.Busy? && end.pc == RbUnpin
      ensures activated ==> TakenOver(old(World()), World(), job, plan)
      ensures !activated && NoLateThrow(plan) ==> activeId == old(activeId)
    {
      var outcome;
      outcome, end, n := Activate(job, plan, loc);
      activated := outcome.Activated?;
    }

    /** The finally block. */
    method Unpin(end: Worker, plan: Plan) returns (ghost n: nat)
      requires end.Busy? && end.pc == RbUnpin
      modifies this`releases
      ensures Follow(Sys(old(World()), end), plan, n) == Sys(World(), Idle)
      ensures World().db == if Applied(plan(RbUnpin)) then UnpinTx(old(World()).db, end.loc.cand) else old(World()).db
      ensures plan(RbUnpin).Done? && end.loc.cand.Some? && end.loc.cand.value in old(releases) ==>
                end.loc.cand.value in releases && !releases[end.loc.cand.value].pinned
    {
      n := 1;
      if Applied(plan(RbUnpin)) && end.loc.cand.Some? && end.loc.cand.value in releases {
        releases := releases[end.loc.cand.value := releases[end.loc.cand.value].(pinned := false)];
      }
    }
  }

  lemma UnpinKeepsTakenOver(before: World, w: World, after: World, job: Task, plan: Plan)
    requires TakenOver(before, w, job, plan) && after.gw == w.gw
    requires after.db == w.db || after.db == UnpinTx(w.db, Some(job.id))
    ensures TakenOver(before, after, job, plan)
  {
  }

  /** A rollback job from its validation on. */
  predicate OnRollback(worker: Worker) {
    && worker.Busy? && worker.task.rollback
    && (worker.pc.RbValidate? || worker.pc.RbUnpin? || ProcOf(worker.pc).Activates? || ProcOf(worker.pc).Switches?
        || worker.pc.CaRestore? || worker.pc.CaLeaveCandidate? || worker.pc.CaFail? || worker.pc.CaClear?)
  }

  lemma RollbackControl(w: World, worker: Worker, f: Fault)
    requires OnRollback(worker)
    ensures var next := Control(w, worker, f); next.Busy? ==> OnRollback(next) && next.loc.cand == worker.loc.cand
  {
  }

  lemma RollbackRows(db: Db, worker: Worker)
    requires OnRollback(worker)
    ensures DbEffect(db, worker).releases.Keys == db.releases.Keys
  {
  }

  lemma {:induction false} FollowKeepsRows(s: Sys, plan: Plan, n: nat)
    requires OnRollback(s.worker)
    ensures var t := Follow(s, plan, n);
            && t.w.db.releases.Keys == s.w.db.releases.Keys
            && (t.worker.Busy? ==> OnRollback(t.worker) && t.worker.loc.cand == s.worker.loc.cand)
    decreases n
  {
    if n > 0 {
      var f := plan(s.worker.pc);
      RollbackControl(s.w, s.worker, f);
      RollbackRows(s.w.db, s.worker);
      if Advance(s, f).worker.Busy? {
        FollowKeepsRows(Advance(s, f), plan, n - 1);
      }
    }
  }

  /** No effect reports an error at or after the commit of an activation or a promotion. */
  predicate NeverLate(plan: Plan) {
    && plan(AcCommit) != ThrewAfter && plan(RcPromote) != ThrewAfter
    && !Threw(plan(AcLeaveOld)) && !Threw(plan(AcDropBackup))
  }

  lemma {:induction false} FollowKeepsInv(s: Sys, plan: Plan, n: nat)
    requires Inv(s) && NeverLate(plan)
    ensures Inv(Follow(s, plan, n))
    decreases n
  {
    if n > 0 && s.worker.Busy? {
      WorkKeepsInv(s, plan(s.worker.pc));
      FollowKeepsInv(Advance(s, plan(s.worker.pc)), plan, n - 1);
    }
  }
}
