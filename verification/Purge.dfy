/**
 Purging releases: `purgeRelease` under the project lock, working from a list computed
 earlier, while deploy jobs, other purges and changes on the host go on between its steps.
 Every project is a run of the release machine; the lock keeps its worker and its purge apart.
 */
module Purge {
  import opened Wrappers
  import opened ReleaseState
  import M = ReleaseMachine

  type ProjectId = string
  type Tag = string

  const MINUTE := 60 * 1000
  const DAY := 24 * 60 * MINUTE
  const MAX_TRIES := 8

  datatype PurgePc =
    | Check | CountRuntime | RemoveRuntime | CountDeployment | RemoveLabelled | CountImage | RemoveImage
    | Workspace | Mark

  /** The purge of one release: where it is, and the runtime of the row it read. */
  datatype Attempt = Attempt(id: Id, pc: PurgePc, box: Option<Container>)

  datatype Retry = Retry(count: nat, due: Option<int>)

  /** `purge` is present while maintenance holds the project lock. */
  datatype Project = Project(sys: M.Sys, purged: set<Id>, retries: map<Id, Retry>, purge: Option<Attempt>)

  /** The image tag and the deployment in each release row, and the deployment an image is labelled
      with. */
  datatype Tags = Tags(
    tagOf: (ProjectId, Id) -> Option<Tag>, deploymentOf: (ProjectId, Id) -> string, builtFor: Tag -> Option<string>)

  datatype Platform = Platform(
    projects: map<ProjectId, Project>, containers: set<Container>, images: set<Tag>, now: int, tags: Tags)

  /** `Ok(removed)`: the step succeeded; a removal took place if the thing carried the managed
      label and Docker removed it.  `Lost`: it took place but its reply did not arrive.  After a
      failure the note of it may itself fail, which the source ignores. */
  datatype Outcome = Ok(removed: bool) | Failed(noted: bool) | Lost(noted: bool)

  datatype Label =
    | Protocol(p: ProjectId, l: M.Label)
    | StartPurge(p: ProjectId, id: Id)
    | PurgeStep(p: ProjectId, o: Outcome)
    | Host(containers: set<Container>, images: set<Tag>)
    | Elapse(dt: nat)

  /** What the re-check under the lock looks for. */
  predicate Protected(db: Db, id: Id) {
    || db.active == Some(id)
    || db.candidate == Some(id)
    || (id in db.releases
        && (db.releases[id].pinned || db.releases[id].status.ACTIVE? || M.Live(db.releases[id].status)))
  }

  /** The runtime of a Compose release, named by its project name. */
  predicate IsStack(c: Container) { "compose:" <= c }

  /** The release is at its end: not live, nobody's candidate, not pinned, and in no live status. */
  predicate Unneeded(db: Db, id: Id) {
    && db.active != Some(id) && db.candidate != Some(id)
    && id in db.releases && !db.releases[id].pinned && db.releases[id].status in {BUILDING, SUPERSEDED, FAILED}
  }

  lemma UnprotectedIsUnneeded(db: Db, id: Id)
    requires id in db.releases
    ensures Unneeded(db, id) <==> !Protected(db, id)
  {
  }

  predicate Purgeable(pr: Project, id: Id) {
    id in pr.sys.w.db.releases && id !in pr.purged && !Protected(pr.sys.w.db, id)
  }

  function BoxOf(pr: Project, id: Id): Option<Container> { M.ContainerOf(pr.sys.w.db, Some(id)) }

  /** An unpurged release other than `id` of project `p` names the container. */
  predicate StillReferenced(s: Platform, p: ProjectId, id: Id, c: Container) {
    exists q, o :: q in s.projects && o in s.projects[q].sys.w.db.releases && Names(s.projects[q], o, c)
        && !(q == p && o == id)
  }

  predicate Names(pr: Project, o: Id, c: Container) {
    o in pr.sys.w.db.releases && o !in pr.purged && pr.sys.w.db.releases[o].runtimeRef == Some(c)
  }

  predicate Shared(s: Platform, p: ProjectId, id: Id, tag: Tag) {
    exists q, o :: q in s.projects && o in s.projects[q].sys.w.db.releases && Tagged(s, q, o, tag)
        && !(q == p && o == id)
  }

  predicate Tagged(s: Platform, q: ProjectId, o: Id, tag: Tag)
    requires q in s.projects
  {
    o in s.projects[q].sys.w.db.releases && o !in s.projects[q].purged && s.tags.tagOf(q, o) == Some(tag)
  }

  predicate Deploys(s: Platform, q: ProjectId, o: Id, deployment: string)
    requires q in s.projects
  {
    o in s.projects[q].sys.w.db.releases && o !in s.projects[q].purged && s.tags.deploymentOf(q, o) == deployment
  }

  predicate SharedDeployment(s: Platform, p: ProjectId, id: Id) {
    exists q, o :: q in s.projects && o in s.projects[q].sys.w.db.releases
        && Deploys(s, q, o, s.tags.deploymentOf(p, id)) && !(q == p && o == id)
  }

  function LabelledFor(s: Platform, deployment: string): set<Tag> {
    set t | t in s.images && s.tags.builtFor(t) == Some(deployment)
  }

  // ---------------------------------------------------------------- retrying

  function Doubled(n: nat): (r: nat)
    ensures r >= 1
  {
    if n == 0 then 1 else 2 * Doubled(n - 1)
  }

  /** The delay after the `n`-th failure. */
  function Backoff(n: nat): nat {
    var delay := 15 * MINUTE * Doubled(if n == 0 then 0 else n - 1);
    if delay < DAY then delay else DAY
  }

  lemma {:induction false} DoubledGrows(m: nat, n: nat)
    requires m <= n
    ensures Doubled(m) <= Doubled(n)
  {
    if m < n {
      DoubledGrows(m, n - 1);
    }
  }

  lemma DoubledAtSix()
    ensures Doubled(6) == 64 && Doubled(7) == 128
  {
    assert Doubled(3) == 8 by { assert Doubled(2) == 4; }
    assert Doubled(5) == 32 by { assert Doubled(4) == 16; }
  }

  /** The one-day ceiling is only ever reached by a row that will not be listed again: the
      query asks for fewer than eight failures. */
  lemma CeilingIsNeverWaitedFor(n: nat)
    requires n >= 1
    ensures Backoff(n) == DAY <==> n >= MAX_TRIES
    ensures n < MAX_TRIES ==> Backoff(n) == 15 * MINUTE * Doubled(n - 1)
  {
    DoubledAtSix();
    if n >= MAX_TRIES {
      DoubledGrows(7, n - 1);
    } else {
      DoubledGrows(n - 1, 6);
    }
  }

  function RetryCount(pr: Project, id: Id): nat { if id in pr.retries then pr.retries[id].count else 0 }

  // ---------------------------------------------------------------- steps

  function SetProject(s: Platform, p: ProjectId, pr: Project): Platform {
    s.(projects := s.projects[p := pr])
  }

  function Give(pr: Project): Project { pr.(purge := None) }

  /** The catch block: the failure is counted and the next attempt put off. */
  function NoteFailure(pr: Project, id: Id, now: int): Project {
    var n := RetryCount(pr, id) + 1;
    Give(pr.(retries := pr.retries[id := Retry(n, Some(now + Backoff(n)))]))
  }

  function AfterRuntime(s: Platform, p: ProjectId, id: Id): PurgePc {
    if s.tags.tagOf(p, id).Some? then CountImage else Workspace
  }

  /** A Compose stack is removed without counting who else runs in it. */
  function FirstOf(s: Platform, p: ProjectId, id: Id, box: Option<Container>): PurgePc {
    if box.None? then AfterRuntime(s, p, id) else if IsStack(box.value) then RemoveRuntime else CountRuntime
  }

  /** The effect of a step that took place, with the lock kept or given back. */
  function Carry(s: Platform, p: ProjectId, a: Attempt, removed: bool): Platform
    requires p in s.projects
  {
    var pr := s.projects[p];
    match a.pc
    case Check =>
      if !Purgeable(pr, a.id) then SetProject(s, p, Give(pr))
      else
        var box := BoxOf(pr, a.id);
        SetProject(s, p, pr.(purge := Some(Attempt(a.id, FirstOf(s, p, a.id, box), box))))
    case CountRuntime =>
      var next := if a.box.Some? && !StillReferenced(s, p, a.id, a.box.value) then RemoveRuntime
          else AfterRuntime(s, p, a.id);
      SetProject(s, p, pr.(purge := Some(a.(pc := next))))
    case RemoveRuntime =>
      var gone := if removed && a.box.Some? then {a.box.value} else {};
      var next := if a.box.Some? && IsStack(a.box.value) then CountDeployment else AfterRuntime(s, p, a.id);
      SetProject(s, p, pr.(purge := Some(a.(pc := next)))).(containers := s.containers - gone)
    case CountDeployment =>
      var next := if !SharedDeployment(s, p, a.id) then RemoveLabelled else AfterRuntime(s, p, a.id);
      SetProject(s, p, pr.(purge := Some(a.(pc := next))))
    case RemoveLabelled =>
      var gone := if removed then LabelledFor(s, s.tags.deploymentOf(p, a.id)) else {};
      SetProject(s, p, pr.(purge := Some(a.(pc := AfterRuntime(s, p, a.id))))).(images := s.images - gone)
    case CountImage =>
      var tag := s.tags.tagOf(p, a.id);
      var next := if tag.Some? && !Shared(s, p, a.id, tag.value) then RemoveImage else Workspace;
      SetProject(s, p, pr.(purge := Some(a.(pc := next))))
    case RemoveImage =>
      var tag := s.tags.tagOf(p, a.id);
      var gone := if removed && tag.Some? then {tag.value} else {};
      SetProject(s, p, pr.(purge := Some(a.(pc := Workspace)))).(images := s.images - gone)
    case Workspace => SetProject(s, p, pr.(purge := Some(a.(pc := Mark))))
    case Mark =>
      SetProject(s, p, Give(pr.(purged := pr.purged + {a.id},
          retries := pr.retries[a.id := Retry(RetryCount(pr, a.id), None)])))
  }

  function Fail(s: Platform, p: ProjectId, id: Id, noted: bool): Platform
    requires p in s.projects
  {
    SetProject(s, p, if noted then NoteFailure(s.projects[p], id, s.now) else Give(s.projects[p]))
  }

  predicate Enabled(s: Platform, l: Label) {
    match l
    case Protocol(p, ml) =>
      && p in s.projects && M.Enabled(s.projects[p].sys, ml)
      && (ml.Work? || ml.Start? ==> s.projects[p].purge.None?)
      && (ml.Start? && !ml.task.rollback ==> forall q :: q in s.projects && q != p ==>
          !Uses(s.projects[q].sys, ml.task.container))
    case StartPurge(p, _) => p in s.projects && s.projects[p].purge.None? && s.projects[p].sys.worker.Idle?
    case PurgeStep(p, _) => p in s.projects && s.projects[p].purge.Some?
    case Host(_, _) => true
    case Elapse(_) => true
  }

  function Do(s: Platform, l: Label): Platform
    requires Enabled(s, l)
  {
    match l
    case Protocol(p, ml) => SetProject(s, p, s.projects[p].(sys := M.Do(s.projects[p].sys, ml)))
    case StartPurge(p, id) => SetProject(s, p, s.projects[p].(purge := Some(Attempt(id, Check, None))))
    case PurgeStep(p, o) =>
      var a := s.projects[p].purge.value;
      if o.Ok? then Carry(s, p, a, o.removed)
      else if o.Failed? then Fail(s, p, a.id, o.noted)
      else Fail(Carry(s, p, a, true), p, a.id, o.noted)
    case Host(containers, images) => s.(containers := containers, images := images)
    case Elapse(dt) => s.(now := s.now + dt)
  }

  /** The container is a runtime of the project, or is about to become one. */
  predicate Uses(sys: M.Sys, c: Container) {
    || (exists o :: o in sys.w.db.releases && sys.w.db.releases[o].runtimeRef == Some(c))
    || (sys.worker.Busy? && !sys.worker.task.rollback && sys.worker.task.container == c)
  }

  /** A rollback request whose target is neither purged nor past the re-check of its purge. */
  predicate Calm(s: Platform, l: Label) {
    l.Protocol? && l.l.Request? && l.p in s.projects ==> Untouched(s.projects[l.p], l.l.target)
  }

  predicate Untouched(pr: Project, target: Id) {
    && target !in pr.purged
    && (pr.purge.Some? && !pr.purge.value.pc.Check? ==> pr.purge.value.id != target)
  }

  /** A failure that is noted puts the next attempt off by a quarter of an hour, twice as long each time,
      up to a day; a release that has been marked has no next attempt. */
  lemma FailureIsPutOff(s: Platform, p: ProjectId, o: Outcome)
    requires Enabled(s, PurgeStep(p, o))
    ensures var pr, next, id := s.projects[p], Do(s, PurgeStep(p, o)).projects[p], s.projects[p].purge.value.id;
            && (!o.Ok? && o.noted ==>
                  && id in next.retries && next.retries[id].due.Some?
                  && next.retries[id].count == RetryCount(pr, id) + 1
                  && var delay := 900000 * Doubled(RetryCount(pr, id));
                     next.retries[id].due.value == s.now + if delay < 86400000 then delay else 86400000)
            && (o.Ok? && pr.purge.value.pc.Mark? ==>
                  id in next.retries && next.retries[id] == Retry(RetryCount(pr, id), None))
  {
    assert 15 * MINUTE == 900000 && DAY == 86400000;
  }

  // ---------------------------------------------------------------- one project

  predicate Holds(worker: M.Worker, x: Id) {
    worker.Busy? && ((!worker.pc.RbRead? && worker.task.id == x) || worker.loc.cand == Some(x))
  }

  /** A rollback never passes through the steps of a fresh deployment, nor the other way round. */
  predicate OwnPath(worker: M.Worker) {
    worker.Busy? ==>
      if worker.task.rollback
      then !M.ProcOf(worker.pc).Reconciles? && !worker.pc.DpBegin? && !worker.pc.DpEvict? && !worker.pc.DpLaunch?
           && !worker.pc.DpRecord?
      else !worker.pc.RbRead?
  }

  ghost predicate SoleRuntime(pr: Project, id: Id, c: Container) {
    forall o :: o != id ==> !Names(pr, o, c)
  }

  ghost predicate SoleImage(p: ProjectId, pr: Project, tags: Tags, id: Id) {
    forall o :: o != id && o in pr.sys.w.db.releases && o !in pr.purged ==> tags.tagOf(p, o) != tags.tagOf(p, id)
  }

  ghost predicate SoleOfDeployment(p: ProjectId, pr: Project, tags: Tags, id: Id) {
    forall o :: o != id && o in pr.sys.w.db.releases && o !in pr.purged ==>
      tags.deploymentOf(p, o) != tags.deploymentOf(p, id)
  }

  ghost predicate AttemptOk(p: ProjectId, pr: Project, tags: Tags) {
    pr.purge.Some? ==>
      var a := pr.purge.value;
      && pr.sys.worker.Idle?
      && (!a.pc.Check? ==> Purgeable(pr, a.id) && a.box == BoxOf(pr, a.id))
      && (a.pc.RemoveRuntime? ==> a.box.Some? && (IsStack(a.box.value) || SoleRuntime(pr, a.id, a.box.value)))
      && (a.pc.RemoveLabelled? ==> SoleOfDeployment(p, pr, tags, a.id))
      && (a.pc.RemoveImage? ==> SoleImage(p, pr, tags, a.id))
  }

  /** No purged release is protected or in the hands of the project's worker. */
  ghost predicate Safe(pr: Project) {
    && pr.purged <= pr.sys.w.db.releases.Keys
    && (forall x :: x in pr.purged ==> !Protected(pr.sys.w.db, x))
    && (forall x :: x in pr.purged ==> !Holds(pr.sys.worker, x))
    && OwnPath(pr.sys.worker)
  }

  ghost predicate ProjectOk(p: ProjectId, pr: Project, tags: Tags) {
    Safe(pr) && AttemptOk(p, pr, tags)
  }

  predicate Reshuffles(pc: M.Pc) {
    pc.DpBegin? || pc.AcCommit? || pc.RcPromote? || pc.RcAbandon?
  }

  /** An effect leaves alone a release that is neither protected nor in the worker's hands. */
  lemma DbEffectSpares(db: Db, worker: M.Worker, x: Id)
    requires x in db.releases && !Protected(db, x) && !Holds(worker, x)
    ensures var db' := M.DbEffect(db, worker); x in db'.releases && !Protected(db', x)
  {
    if worker.Busy? && Reshuffles(worker.pc) {
      ReshuffleSpares(db, worker, x);
    } else {
      RowEffectSpares(db, worker, x);
    }
  }

  lemma ReshuffleSpares(db: Db, worker: M.Worker, x: Id)
    requires x in db.releases && !Protected(db, x) && !Holds(worker, x) && worker.Busy? && Reshuffles(worker.pc)
    ensures var db' := M.DbEffect(db, worker); x in db'.releases && !Protected(db', x)
  {
  }

  lemma RowEffectSpares(db: Db, worker: M.Worker, x: Id)
    requires x in db.releases && !Protected(db, x) && !Holds(worker, x) && (worker.Busy? ==> !Reshuffles(worker.pc))
    ensures var db' := M.DbEffect(db, worker); x in db'.releases && !Protected(db', x)
  {
  }

  lemma ControlSpares(w: World, worker: M.Worker, f: M.Fault, x: Id)
    requires !Protected(w.db, x) && !Holds(worker, x) && OwnPath(worker)
    ensures !Holds(M.Control(w, worker, f), x)
  {
  }

  lemma WorkKeepsProject(p: ProjectId, pr: Project, tags: Tags, f: M.Fault)
    requires ProjectOk(p, pr, tags) && pr.purge.None?
    ensures ProjectOk(p, pr.(sys := M.Advance(pr.sys, f)), tags)
  {
    var sys, next := pr.sys, M.Advance(pr.sys, f);
    forall x | x in pr.purged ensures x in next.w.db.releases && !Protected(next.w.db, x) && !Holds(next.worker, x) {
      DbEffectSpares(sys.w.db, sys.worker, x);
      ControlSpares(sys.w, sys.worker, f, x);
    }
    StaysOnPath(sys.w, sys.worker, f);
  }

  lemma StaysOnPath(w: World, worker: M.Worker, f: M.Fault)
    requires OwnPath(worker)
    ensures OwnPath(M.Control(w, worker, f))
  {
    if worker.Busy? {
      match M.ProcOf(worker.pc)
      case Switches => SwitchStaysOnPath(w, worker, f);
      case Undoes => UndoStaysOnPath(w, worker, f);
      case _ => EarlyStaysOnPath(w, worker, f);
    }
  }

  lemma SwitchStaysOnPath(w: World, worker: M.Worker, f: M.Fault)
    requires worker.Busy? && M.ProcOf(worker.pc).Switches?
    ensures OwnPath(M.Control(w, worker, f))
  {
  }

  lemma UndoStaysOnPath(w: World, worker: M.Worker, f: M.Fault)
    requires worker.Busy? && M.ProcOf(worker.pc).Undoes?
    ensures OwnPath(M.Control(w, worker, f))
  {
  }

  lemma EarlyStaysOnPath(w: World, worker: M.Worker, f: M.Fault)
    requires worker.Busy? && OwnPath(worker) && !M.ProcOf(worker.pc).Switches? && !M.ProcOf(worker.pc).Undoes?
    ensures OwnPath(M.Control(w, worker, f))
  {
  }

  /** What a rollback request does to the rows. */
  lemma RequestEffect(db: Db, target: Id)
    requires CanRollBack(db, target)
    ensures var db' := RollbackTx(db, target);
            && db'.releases.Keys == db.releases.Keys
            && db'.active == db.active && db'.candidate == Some(target)
            && (forall o :: o in db.releases ==> db'.releases[o].runtimeRef == db.releases[o].runtimeRef)
            && (forall o :: o in db.releases && o != target && !Protected(db, o) ==> !Protected(db', o))
            && Protected(db', target)
  {
  }

  lemma RequestKeepsProject(p: ProjectId, pr: Project, tags: Tags, target: Id)
    requires ProjectOk(p, pr, tags) && CanRollBack(pr.sys.w.db, target)
    ensures var next := pr.(sys := M.Do(pr.sys, M.Request(target)));
            ProjectOk(p, next, tags) <==> Untouched(pr, target)
  {
    RequestEffect(pr.sys.w.db, target);
    var next := pr.(sys := M.Do(pr.sys, M.Request(target)));
    if pr.purge.Some? {
      var a := pr.purge.value;
      if a.pc.RemoveRuntime? && !IsStack(a.box.value) {
        forall o | o != a.id ensures !Names(next, o, a.box.value) {
          assert !Names(pr, o, a.box.value);
        }
      }
    }
  }

  lemma ReleaseKeepsProject(p: ProjectId, pr: Project, tags: Tags, l: M.Label)
    requires ProjectOk(p, pr, tags) && M.Enabled(pr.sys, l)
    requires l.Work? || l.Start? ==> pr.purge.None?
    requires l.Request? ==> Untouched(pr, l.target)
    ensures ProjectOk(p, pr.(sys := M.Do(pr.sys, l)), tags)
  {
    match l
    case Work(f) => WorkKeepsProject(p, pr, tags, f);
    case Request(target) => RequestKeepsProject(p, pr, tags, target);
    case Crash =>
    case Start(task) =>
  }

  // ---------------------------------------------------------------- all projects

  ghost predicate NamesApart(s: Platform) {
    forall p, q, c :: p in s.projects && q in s.projects && p != q && Uses(s.projects[p].sys, c) ==>
        !Uses(s.projects[q].sys, c)
  }

  /** No two projects share an image tag or a deployment. */
  ghost predicate TagsApart(tags: Tags) {
    && (forall p, q, i, j :: p != q && tags.tagOf(p, i).Some? ==> tags.tagOf(p, i) != tags.tagOf(q, j))
    && (forall p, q, i, j :: p != q ==> tags.deploymentOf(p, i) != tags.deploymentOf(q, j))
  }

  ghost predicate Inv(s: Platform) {
    && (forall p :: p in s.projects ==> ProjectOk(p, s.projects[p], s.tags))
    && NamesApart(s) && TagsApart(s.tags)
  }

  lemma WorkUsesNothingNew(sys: M.Sys, f: M.Fault, c: Container)
    requires OwnPath(sys.worker) && Uses(M.Advance(sys, f), c)
    ensures Uses(sys, c)
  {
    var next := M.Advance(sys, f);
    if o :| o in next.w.db.releases && next.w.db.releases[o].runtimeRef == Some(c) {
      DbEffectNames(sys.w.db, sys.worker, o);
    } else {
      ControlKeepsContainer(sys.w, sys.worker, f);
    }
  }

  lemma DbEffectNames(db: Db, worker: M.Worker, o: Id)
    requires OwnPath(worker)
    ensures var db' := M.DbEffect(db, worker);
            o in db'.releases && db'.releases[o].runtimeRef.Some? ==>
              || (o in db.releases && db.releases[o].runtimeRef == db'.releases[o].runtimeRef)
              || (worker.Busy? && !worker.task.rollback && db'.releases[o].runtimeRef == Some(worker.task.container))
  {
  }

  lemma ControlKeepsContainer(w: World, worker: M.Worker, f: M.Fault)
    requires OwnPath(worker)
    ensures var next := M.Control(w, worker, f);
            next.Busy? && !next.task.rollback ==>
              worker.Busy? && !worker.task.rollback && next.task.container == worker.task.container
  {
  }

  lemma ReleaseUses(sys: M.Sys, l: M.Label, c: Container)
    requires OwnPath(sys.worker) && M.Enabled(sys, l) && Uses(M.Do(sys, l), c)
    ensures Uses(sys, c) || (l.Start? && !l.task.rollback && l.task.container == c)
  {
    match l
    case Work(f) => WorkUsesNothingNew(sys, f, c);
    case Request(target) => RequestEffect(sys.w.db, target);
    case Crash =>
    case Start(task) =>
  }

  lemma CarryKeepsProject(s: Platform, p: ProjectId, removed: bool)
    requires p in s.projects && ProjectOk(p, s.projects[p], s.tags) && s.projects[p].purge.Some?
    ensures var next := Carry(s, p, s.projects[p].purge.value, removed);
            && p in next.projects && ProjectOk(p, next.projects[p], s.tags) && next.tags == s.tags
            && next.projects == s.projects[p := next.projects[p]] && next.projects[p].sys == s.projects[p].sys
  {
    var pr := s.projects[p];
    var a := pr.purge.value;
    match a.pc
    case CountRuntime =>
      if a.box.Some? && !StillReferenced(s, p, a.id, a.box.value) {
        var next := Carry(s, p, a, removed).projects[p];
        forall o | o != a.id ensures !Names(next, o, a.box.value) {
          assert !Names(pr, o, a.box.value);
        }
      }
    case CountDeployment =>
      if !SharedDeployment(s, p, a.id) {
        forall o | o != a.id && o in pr.sys.w.db.releases && o !in pr.purged
          ensures s.tags.deploymentOf(p, o) != s.tags.deploymentOf(p, a.id)
        {
          assert !Deploys(s, p, o, s.tags.deploymentOf(p, a.id));
        }
      }
    case CountImage =>
      var tag := s.tags.tagOf(p, a.id);
      if tag.Some? && !Shared(s, p, a.id, tag.value) {
        forall o | o != a.id && o in pr.sys.w.db.releases && o !in pr.purged ensures s.tags.tagOf(p, o) != tag {
          assert !Tagged(s, p, o, tag.value);
        }
      }
    case _ =>
  }

  lemma StepKeepsProjects(s: Platform, l: Label)
    requires Inv(s) && Enabled(s, l) && Calm(s, l)
    ensures var next := Do(s, l);
            next.tags == s.tags && forall p :: p in next.projects ==> ProjectOk(p, next.projects[p], next.tags)
  {
    match l
    case Protocol(p, ml) => ReleaseKeepsProject(p, s.projects[p], s.tags, ml);
    case StartPurge(p, _) => assert ProjectOk(p, s.projects[p], s.tags);
    case PurgeStep(p, o) => PurgeStepKeepsProject(s, p, o);
    case Host(_, _) =>
    case Elapse(_) =>
  }

  lemma PurgeStepKeepsProject(s: Platform, p: ProjectId, o: Outcome)
    requires p in s.projects && ProjectOk(p, s.projects[p], s.tags) && s.projects[p].purge.Some?
    ensures var next := Do(s, PurgeStep(p, o));
            && p in next.projects && ProjectOk(p, next.projects[p], s.tags) && next.tags == s.tags
            && next.projects == s.projects[p := next.projects[p]] && next.projects[p].sys == s.projects[p].sys
  {
    CarryKeepsProject(s, p, true);
    CarryKeepsProject(s, p, false);
  }

  lemma StepKeepsNames(s: Platform, l: Label)
    requires Inv(s) && Enabled(s, l)
    ensures NamesApart(Do(s, l))
  {
    var next := Do(s, l);
    match l
    case Protocol(p, ml) =>
      forall q, r, c | q in next.projects && r in next.projects && q != r && Uses(next.projects[q].sys, c)
        ensures !Uses(next.projects[r].sys, c)
      {
        if Uses(next.projects[p].sys, c) {
          assert OwnPath(s.projects[p].sys.worker);
          ReleaseUses(s.projects[p].sys, ml, c);
        }
      }
    case PurgeStep(p, o) => PurgeStepKeepsProject(s, p, o);
    case _ =>
  }

  /** Every step keeps purged releases out of reach, as long as rollback requests spare them. */
  lemma StepKeepsInv(s: Platform, l: Label)
    requires Inv(s) && Enabled(s, l) && Calm(s, l)
    ensures Inv(Do(s, l))
  {
    StepKeepsProjects(s, l);
    StepKeepsNames(s, l);
  }

  ghost predicate IsRun(run: seq<Platform>, ls: seq<Label>) {
    && |run| == |ls| + 1
    && forall i :: 0 <= i < |ls| ==> Enabled(run[i], ls[i]) && Calm(run[i], ls[i]) && run[i + 1] == Do(run[i], ls[i])
  }

  /** Whatever deployments, activations, crashes, other purges and changes on the host happen in
      between, and however old the list: no purged release is active, a candidate, pinned or in a
      live status, at any point of any run. */
  lemma {:induction false} NoProtectedReleaseIsPurged(run: seq<Platform>, ls: seq<Label>, i: nat, p: ProjectId, x: Id)
    requires IsRun(run, ls) && Inv(run[0]) && i < |run|
    ensures Inv(run[i])
    ensures p in run[i].projects && x in run[i].projects[p].purged ==> !Protected(run[i].projects[p].sys.w.db, x)
    ensures p in run[i].projects && x in run[i].projects[p].purged ==> Unneeded(run[i].projects[p].sys.w.db, x)
  {
    if i > 0 {
      NoProtectedReleaseIsPurged(run, ls, i - 1, p, x);
      StepKeepsInv(run[i - 1], ls[i - 1]);
    }
    assert p in run[i].projects ==> ProjectOk(p, run[i].projects[p], run[i].tags);
    if p in run[i].projects && x in run[i].projects[p].purged {
      UnprotectedIsUnneeded(run[i].projects[p].sys.w.db, x);
    }
  }

  /** The one purge step that is about to happen removes nothing but what belongs to its own
      release, which is unprotected: its plain container and its image, which no other unpurged
      release of any project names; images labelled with its deployment, of which no other unpurged
      release is; or its Compose stack, whoever else may run in that. */
  lemma RemovalIsSafe(s: Platform, p: ProjectId, o: Outcome)
    requires Inv(s) && Enabled(s, PurgeStep(p, o))
    ensures var next, a := Do(s, PurgeStep(p, o)), s.projects[p].purge.value;
            && (forall c :: c in s.containers && c !in next.containers ==>
                  BoxOf(s.projects[p], a.id) == Some(c) && Purgeable(s.projects[p], a.id)
                      && (IsStack(c) || !StillReferenced(s, p, a.id, c)))
            && (forall t :: t in s.images && t !in next.images ==>
                  Purgeable(s.projects[p], a.id)
                      && (|| (s.tags.tagOf(p, a.id) == Some(t) && !Shared(s, p, a.id, t))
                          || (&& s.tags.builtFor(t) == Some(s.tags.deploymentOf(p, a.id))
                              && !SharedDeployment(s, p, a.id))))
            && next.containers <= s.containers && next.images <= s.images
  {
    var a := s.projects[p].purge.value;
    assert ProjectOk(p, s.projects[p], s.tags);
    if a.pc.RemoveRuntime? && !IsStack(a.box.value) {
      SoleEverywhere(s, p, a.id, a.box.value);
    } else if a.pc.RemoveLabelled? {
      DeploymentSoleEverywhere(s, p, a.id);
    } else if a.pc.RemoveImage? && s.tags.tagOf(p, a.id).Some? {
      TagSoleEverywhere(s, p, a.id, s.tags.tagOf(p, a.id).value);
    }
  }

  /** The release it marks as purged is its own, unprotected, and no project's rows change. */
  lemma MarkIsSafe(s: Platform, p: ProjectId, o: Outcome)
    requires Inv(s) && Enabled(s, PurgeStep(p, o))
    ensures var next, a := Do(s, PurgeStep(p, o)), s.projects[p].purge.value;
            && next.projects == s.projects[p := next.projects[p]]
            && next.projects[p].sys == s.projects[p].sys
            && (next.projects[p].purged == s.projects[p].purged
                || (next.projects[p].purged == s.projects[p].purged + {a.id} && Purgeable(s.projects[p], a.id)))
  {
    assert ProjectOk(p, s.projects[p], s.tags);
    PurgeStepKeepsProject(s, p, o);
  }

  lemma SoleEverywhere(s: Platform, p: ProjectId, id: Id, c: Container)
    requires NamesApart(s) && p in s.projects && SoleRuntime(s.projects[p], id, c)
        && BoxOf(s.projects[p], id) == Some(c)
    ensures !StillReferenced(s, p, id, c)
  {
    assert Uses(s.projects[p].sys, c);
    forall q, o | q in s.projects && Names(s.projects[q], o, c) ensures q == p && o == id {
      assert Uses(s.projects[q].sys, c);
    }
  }

  lemma TagSoleEverywhere(s: Platform, p: ProjectId, id: Id, tag: Tag)
    requires TagsApart(s.tags) && p in s.projects && SoleImage(p, s.projects[p], s.tags, id)
        && s.tags.tagOf(p, id) == Some(tag)
    ensures !Shared(s, p, id, tag)
  {
    forall q, o | q in s.projects && Tagged(s, q, o, tag) ensures q == p && o == id {
      assert q != p ==> s.tags.tagOf(p, id) != s.tags.tagOf(q, o);
    }
  }

  lemma DeploymentSoleEverywhere(s: Platform, p: ProjectId, id: Id)
    requires TagsApart(s.tags) && p in s.projects && SoleOfDeployment(p, s.projects[p], s.tags, id)
    ensures !SharedDeployment(s, p, id)
  {
    forall q, o | q in s.projects && Deploys(s, q, o, s.tags.deploymentOf(p, id)) ensures q == p && o == id {
      assert q != p ==> s.tags.deploymentOf(p, id) != s.tags.deploymentOf(q, o);
    }
  }

  // ---------------------------------------------------------------- a stack of several attempts

  /** Every runtime that an unpurged release other than the one being purged runs in is still there. */
  ghost predicate OthersKeepRuntimes(s: Platform, next: Platform, p: ProjectId, id: Id) {
    forall q, o, c :: q in s.projects && Names(s.projects[q], o, c) && !(q == p && o == id) && c in s.containers ==>
      c in next.containers
  }

  /** A purge that removes a runtime leaves the other releases theirs exactly when none of them names
      it.  For a plain container that is counted first (`RemovalIsSafe`), for a stack it is not. */
  lemma StackRemovalIsExact(s: Platform, p: ProjectId, a: Attempt)
    requires Inv(s) && p in s.projects && s.projects[p].purge == Some(a) && a.pc.RemoveRuntime?
    requires a.box.Some? && a.box.value in s.containers
    ensures OthersKeepRuntimes(s, Do(s, PurgeStep(p, Outcome.Ok(true))), p, a.id)
            <==> !StillReferenced(s, p, a.id, a.box.value)
  {
    var next := Do(s, PurgeStep(p, Outcome.Ok(true)));
    assert next.containers == s.containers - {a.box.value};
    if StillReferenced(s, p, a.id, a.box.value) {
      var q, o :| q in s.projects && o in s.projects[q].sys.w.db.releases && Names(s.projects[q], o, a.box.value)
          && !(q == p && o == a.id);
      assert a.box.value !in next.containers;
    } else {
      forall q, o, c | q in s.projects && Names(s.projects[q], o, c) && !(q == p && o == a.id) && c in s.containers
        ensures c in next.containers
      {
        assert o in s.projects[q].sys.w.db.releases;
      }
    }
  }

  /** All attempts of a Compose deployment run in one stack.  Purging a failed attempt of the
      deployment that is live takes the live release down. */
  lemma PurgedAttemptTakesTheStackDown(s: Platform, p: ProjectId, id: Id, c: Container)
    requires Inv(s) && Enabled(s, StartPurge(p, id)) && Purgeable(s.projects[p], id)
    requires IsStack(c) && c in s.containers && BoxOf(s.projects[p], id) == Some(c)
    requires M.ContainerOf(s.projects[p].sys.w.db, s.projects[p].sys.w.db.active) == Some(c)
    ensures var step := PurgeStep(p, Outcome.Ok(true));
            var next := Do(Do(Do(s, StartPurge(p, id)), step), step);
            c !in next.containers && next.projects[p].sys == s.projects[p].sys
  {
  }

  // ---------------------------------------------------------------- the exception is exact

  /** A rollback request keeps the promise exactly when its target is neither purged nor past
      the re-check of a purge: the source looks at neither. */
  lemma RequestKeepsInvExactly(s: Platform, p: ProjectId, target: Id)
    requires Inv(s) && Enabled(s, Protocol(p, M.Request(target)))
    ensures Inv(Do(s, Protocol(p, M.Request(target)))) <==> Untouched(s.projects[p], target)
  {
    RequestKeepsProject(p, s.projects[p], s.tags, target);
    var l := Protocol(p, M.Request(target));
    if Untouched(s.projects[p], target) {
      StepKeepsInv(s, l);
    } else {
      assert !ProjectOk(p, Do(s, l).projects[p], s.tags);
    }
  }

  /** Asked for while its purge is being concluded, the candidate ends up purged. */
  lemma RequestDuringPurgeLosesTheCandidate(s: Platform, p: ProjectId, a: Attempt)
    requires Inv(s) && p in s.projects && s.projects[p].purge == Some(a) && a.pc.Mark?
    requires Enabled(s, Protocol(p, M.Request(a.id)))
    ensures var asked := Do(s, Protocol(p, M.Request(a.id)));
            var done := Do(asked, PurgeStep(p, Outcome.Ok(true)));
            a.id in done.projects[p].purged && done.projects[p].sys.w.db.candidate == Some(a.id)
  {
    RequestEffect(s.projects[p].sys.w.db, a.id);
  }
}
