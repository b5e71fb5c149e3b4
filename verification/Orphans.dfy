/**
 `removeLabelledOrphans`: which managed containers of a host go because no unpurged release of
 their deployment is left, and why none of an existing release does.
 */
module Orphans {
  import opened Wrappers
  import opened ReleaseState
  import opened Purge
  import M = ReleaseMachine

  /** What the host says about a managed container: the deployment it is labelled with, and when it
      was created, unless that cannot be read. */
  datatype Found = Found(id: Container, deployment: string, created: Option<int>)

  type OnHost = (ProjectId, Id) -> bool

  predicate Unpurged(s: Platform, p: ProjectId, x: Id) {
    p in s.projects && x in s.projects[p].sys.w.db.releases && x !in s.projects[p].purged
  }

  /** The deployments with an unpurged release on the host. */
  function LiveDeployments(s: Platform, onHost: OnHost): set<string> {
    set p, x | p in s.projects && x in s.projects[p].sys.w.db.releases && Unpurged(s, p, x) && onHost(p, x)
      :: s.tags.deploymentOf(p, x)
  }

  predicate IsOrphan(f: Found, live: set<string>, now: int) {
    f.deployment !in live && f.created.Some? && f.created.value < now - DAY
  }

  /** The containers that go when Docker removes those it says it does. */
  function Swept(found: seq<Found>, live: set<string>, now: int, removed: nat -> bool): set<Container> {
    set i: nat | i < |found| && IsOrphan(found[i], live, now) && removed(i) :: found[i].id
  }

  /** A container is an orphan exactly when the host's unpurged releases are all of other deployments and
      it is known to be more than twenty-four hours old. */
  lemma OrphanExactly(s: Platform, onHost: OnHost, f: Found, now: int)
    ensures IsOrphan(f, LiveDeployments(s, onHost), now) <==>
              && (f.created.Some? && now - f.created.value > 24 * 3600 * 1000)
              && forall p, x :: Unpurged(s, p, x) && onHost(p, x) ==> s.tags.deploymentOf(p, x) != f.deployment
  {
  }

  /** The step begins a release of the deployment. */
  predicate BeginsReleaseOf(s: Platform, l: Label, d: string) {
    && l.Protocol? && l.p in s.projects && l.l.Work? && M.Applied(l.l.f)
    && var worker := s.projects[l.p].sys.worker;
       worker.Busy? && worker.pc.DpBegin? && s.tags.deploymentOf(l.p, worker.task.id) == d
  }

  lemma DbEffectRows(db: Db, worker: M.Worker, x: Id)
    requires x in M.DbEffect(db, worker).releases
    ensures x in db.releases || (worker.Busy? && worker.pc.DpBegin? && x == worker.task.id)
  {
  }

  lemma RowsOfLabel(sys: M.Sys, l: M.Label, x: Id)
    requires M.Enabled(sys, l) && x in M.Do(sys, l).w.db.releases
    ensures || x in sys.w.db.releases
            || (l.Work? && M.Applied(l.f) && sys.worker.Busy? && sys.worker.pc.DpBegin? && x == sys.worker.task.id)
  {
    match l
    case Work(f) =>
      if M.Applied(f) {
        DbEffectRows(sys.w.db, sys.worker, x);
      }
    case Request(target) => RequestEffect(sys.w.db, target);
    case _ =>
  }

  lemma PurgeStepRows(s: Platform, p: ProjectId, o: Outcome, q: ProjectId, x: Id)
    requires Enabled(s, PurgeStep(p, o)) && Unpurged(Do(s, PurgeStep(p, o)), q, x)
    ensures Unpurged(s, q, x)
  {
  }

  lemma RowsOfStep(s: Platform, l: Label, p: ProjectId, x: Id)
    requires Enabled(s, l) && Unpurged(Do(s, l), p, x)
    ensures Unpurged(s, p, x) || BeginsReleaseOf(s, l, s.tags.deploymentOf(p, x))
  {
    match l
    case Protocol(q, ml) =>
      if p == q {
        RowsOfLabel(s.projects[p].sys, ml, x);
      }
    case PurgeStep(q, o) => PurgeStepRows(s, q, o, p, x);
    case _ =>
  }

  lemma StepKeepsTags(s: Platform, l: Label)
    requires Enabled(s, l)
    ensures Do(s, l).tags == s.tags
  {
  }

  /** From state `i` to state `j` no release of the deployment is begun. */
  ghost predicate NoneBegins(run: seq<Platform>, ls: seq<Label>, i: nat, j: nat, d: string)
    requires |run| == |ls| + 1
  {
    forall k :: i <= k < j && k < |ls| ==> !BeginsReleaseOf(run[k], ls[k], d)
  }

  lemma UnpurgedOneBefore(run: seq<Platform>, ls: seq<Label>, k: nat, p: ProjectId, x: Id, d: string)
    requires IsRun(run, ls) && k < |ls| && !BeginsReleaseOf(run[k], ls[k], d)
    requires Unpurged(run[k + 1], p, x) && run[k + 1].tags.deploymentOf(p, x) == d
    ensures Unpurged(run[k], p, x) && run[k].tags.deploymentOf(p, x) == d
  {
    StepKeepsTags(run[k], ls[k]);
    RowsOfStep(run[k], ls[k], p, x);
  }

  ghost predicate UnpurgedFor(s: Platform, p: ProjectId, x: Id, d: string) {
    Unpurged(s, p, x) && s.tags.deploymentOf(p, x) == d
  }

  /** A release that is unpurged later is so already, unless its deployment has begun one since. */
  lemma UnpurgedBefore(run: seq<Platform>, ls: seq<Label>, i: nat, j: nat, p: ProjectId, x: Id, d: string)
    requires IsRun(run, ls) && i <= j < |run| && UnpurgedFor(run[j], p, x, d) && NoneBegins(run, ls, i, j, d)
    ensures UnpurgedFor(run[i], p, x, d)
  {
    var there := seq(|run|, k requires 0 <= k < |run| => UnpurgedFor(run[k], p, x, d));
    var comes := seq(|ls|, k requires 0 <= k < |ls| => BeginsReleaseOf(run[k], ls[k], d));
    forall k {:trigger comes[k]} | i <= k < j ensures (there[k + 1] ==> there[k] || comes[k]) && !comes[k] {
      if there[k + 1] && !comes[k] {
        UnpurgedOneBefore(run, ls, k, p, x, d);
      }
    }
    ThereBefore(there, comes, i, j);
  }

  /** The list of live deployments is read once and the containers go one by one, while everything
      else goes on.  A container whose deployment has a release on the host by the time of its turn,
      a protected one for instance, is spared unless that deployment has begun a release meanwhile. */
  lemma SweepSparesReleases(run: seq<Platform>, ls: seq<Label>, i: nat, j: nat, onHost: OnHost, f: Found,
                            p: ProjectId, x: Id)
    requires IsRun(run, ls) && Inv(run[0]) && i <= j < |run|
    requires p in run[j].projects && x in run[j].projects[p].sys.w.db.releases && onHost(p, x)
    requires Unpurged(run[j], p, x) || Protected(run[j].projects[p].sys.w.db, x)
    requires f.deployment == run[j].tags.deploymentOf(p, x)
    requires NoneBegins(run, ls, i, j, f.deployment)
    ensures !IsOrphan(f, LiveDeployments(run[i], onHost), run[j].now)
  {
    NoProtectedReleaseIsPurged(run, ls, j, p, x);
    UnpurgedBefore(run, ls, i, j, p, x, f.deployment);
    assert f.deployment in LiveDeployments(run[i], onHost);
  }
}
