/**
 `MaintenanceService` as the source writes it: `purgeRelease` and `cleanupVps` step by step,
 with everything the rest of the platform may do in between, proved to be runs of `Purge`.
 */
module Maintenance {
  import opened Wrappers
  import opened ReleaseState
  import opened Purge
  import opened Orphans

  /** `ls` leads from `s` to `t`. */
  ghost predicate Leads(s: Platform, ls: seq<Label>, t: Platform)
    decreases |ls|
  {
    if ls == [] then s == t
    else Enabled(s, ls[0]) && Calm(s, ls[0]) && Leads(Do(s, ls[0]), ls[1..], t)
  }

  lemma {:induction false} LeadsOn(s: Platform, ls: seq<Label>, t: Platform, l: Label)
    requires Leads(s, ls, t) && Enabled(t, l) && Calm(t, l)
    ensures Leads(s, ls + [l], Do(t, l))
    decreases |ls|
  {
    if ls == [] {
      assert ls + [l] == [l];
      assert [l][1..] == [];
    } else {
      LeadsOn(Do(s, ls[0]), ls[1..], t, l);
      assert (ls + [l])[1..] == ls[1..] + [l];
    }
  }

  lemma {:induction false} LeadsKeepsInv(s: Platform, ls: seq<Label>, t: Platform)
    requires Leads(s, ls, t) && Inv(s)
    ensures Inv(t)
    decreases |ls|
  {
    if ls != [] {
      StepKeepsInv(s, ls[0]);
      LeadsKeepsInv(Do(s, ls[0]), ls[1..], t);
    }
  }

  lemma {:induction false} LeadsTogether(s: Platform, ls: seq<Label>, t: Platform, ms: seq<Label>, u: Platform)
    requires Leads(s, ls, t) && Leads(t, ms, u)
    ensures Leads(s, ls + ms, u)
    decreases |ls|
  {
    if ls == [] {
      assert ls + ms == ms;
    } else {
      LeadsTogether(Do(s, ls[0]), ls[1..], t, ms, u);
      assert (ls + ms)[1..] == ls[1..] + ms;
    }
  }

  datatype Verdict = Skipped | Purged | FailedOnce(noted: bool)

  /** A label of somebody else: not the maintenance of project `p`. */
  predicate Foreign(l: Label, p: ProjectId) {
    !(l.StartPurge? && l.p == p) && !(l.PurgeStep? && l.p == p)
  }

  /** What others cannot change of a project that maintenance has locked. */
  predicate SameClaim(pr: Project, pr': Project) {
    pr'.purge == pr.purge && pr'.purged == pr.purged && pr'.retries == pr.retries
  }

  /** Only the maintenance of project `p` has been at work. */
  ghost predicate Alone(before: Platform, after: Platform, p: ProjectId) {
    && p in before.projects && p in after.projects
    && after.projects == before.projects[p := after.projects[p]]
    && after.projects[p].sys == before.projects[p].sys && before.projects[p].purged <= after.projects[p].purged
    && after.tags == before.tags && after.now == before.now
  }

  lemma StepIsAlone(s: Platform, p: ProjectId, o: Outcome)
    requires Enabled(s, PurgeStep(p, o))
    ensures Alone(s, Do(s, PurgeStep(p, o)), p)
  {
  }

  /** Nobody else does anything. */
  ghost predicate Quiet(others: PurgePc -> seq<Label>) { forall pc :: others(pc) == [] }

  predicate Smooth(plan: PurgePc -> Outcome) {
    && plan(Check).Ok? && plan(CountRuntime).Ok? && plan(RemoveRuntime).Ok? && plan(CountDeployment).Ok?
    && plan(RemoveLabelled).Ok? && plan(CountImage).Ok? && plan(RemoveImage).Ok? && plan(Workspace).Ok?
    && plan(Mark).Ok?
  }

  class MaintenanceService {
    var s: Platform

    constructor (tags: Tags)
      requires TagsApart(tags)
      ensures Inv(s) && s.projects == map[]
    {
      s := Platform(map[], {}, {}, 0, tags);
    }

    /** What the rest of the platform does meanwhile.  Steps that are not possible do not happen,
        and rollback requests that hit what is being purged are left out. */
    method Others(p: ProjectId, ls: seq<Label>, ghost start: Platform, ghost before: seq<Label>)
      returns (ghost trace: seq<Label>)
      requires p in s.projects && s.projects[p].purge.Some? && Leads(start, before, s)
      modifies this
      ensures Leads(start, trace, s)
      ensures p in s.projects && SameClaim(old(s).projects[p], s.projects[p]) && s.tags == old(s).tags
      ensures ls == [] ==> s == old(s)
    {
      trace := before;
      for i := 0 to |ls|
        invariant Leads(start, trace, s)
        invariant p in s.projects && SameClaim(old(s).projects[p], s.projects[p]) && s.tags == old(s).tags
        invariant i == 0 ==> s == old(s)
      {
        if Foreign(ls[i], p) && Enabled(s, ls[i]) && Calm(s, ls[i]) {
          LeadsOn(start, trace, s, ls[i]);
          trace := trace + [ls[i]];
          s := Do(s, ls[i]);
        }
      }
    }

    /** The catch block. */
    method CountFailure(p: ProjectId, id: Id, noted: bool)
      requires p in s.projects
      modifies this
      ensures s == Fail(old(s), p, id, noted)
    {
      var pr := s.projects[p];
      if noted {
        var count := RetryCount(pr, id) + 1;
        pr := pr.(retries := pr.retries[id := Retry(count, Some(s.now + Backoff(count)))]);
      }
      s := SetProject(s, p, pr.(purge := None));
    }

    /** The next step of a purge, when it takes place. */
    method Take(p: ProjectId, removed: bool)
      requires p in s.projects && s.projects[p].purge.Some?
      modifies this
      ensures s == Carry(old(s), p, old(s).projects[p].purge.value, removed)
    {
      var pr := s.projects[p];
      var a := pr.purge.value;
      var tag := s.tags.tagOf(p, a.id);
      var image := if tag.Some? then CountImage else Workspace;
      match a.pc
      case Check =>
        if a.id !in pr.sys.w.db.releases || a.id in pr.purged || Protected(pr.sys.w.db, a.id) {
          pr := pr.(purge := None);
        } else {
          var box := pr.sys.w.db.releases[a.id].runtimeRef;
          pr := pr.(purge := Some(Attempt(a.id, if box.None? then image else if IsStack(box.value) then RemoveRuntime
              else CountRuntime, box)));
        }
        s := SetProject(s, p, pr);
      case CountRuntime =>
        var remove := a.box.Some? && !StillReferenced(s, p, a.id, a.box.value);
        s := SetProject(s, p, pr.(purge := Some(a.(pc := if remove then RemoveRuntime else image))));
      case RemoveRuntime =>
        if removed && a.box.Some? {
          s := s.(containers := s.containers - {a.box.value});
        }
        var stack := a.box.Some? && IsStack(a.box.value);
        s := SetProject(s, p, pr.(purge := Some(a.(pc := if stack then CountDeployment else image))));
      case CountDeployment =>
        var remove := !SharedDeployment(s, p, a.id);
        s := SetProject(s, p, pr.(purge := Some(a.(pc := if remove then RemoveLabelled else image))));
      case RemoveLabelled =>
        if removed {
          s := s.(images := s.images - LabelledFor(s, s.tags.deploymentOf(p, a.id)));
        }
        s := SetProject(s, p, pr.(purge := Some(a.(pc := image))));
      case CountImage =>
        var remove := tag.Some? && !Shared(s, p, a.id, tag.value);
        s := SetProject(s, p, pr.(purge := Some(a.(pc := if remove then RemoveImage else Workspace))));
      case RemoveImage =>
        if removed && tag.Some? {
          s := s.(images := s.images - {tag.value});
        }
        s := SetProject(s, p, pr.(purge := Some(a.(pc := Workspace))));
      case Workspace =>
        s := SetProject(s, p, pr.(purge := Some(a.(pc := Mark))));
      case Mark =>
        pr := pr.(purged := pr.purged + {a.id}, retries := pr.retries[a.id := Retry(RetryCount(pr, a.id), None)]);
        s := SetProject(s, p, pr.(purge := None));
    }

    /** A step of a purge: `going` unless it gave the lock back. */
    method Step(p: ProjectId, o: Outcome) returns (going: bool)
      requires p in s.projects && s.projects[p].purge.Some?
      modifies this
      ensures s == Do(old(s), PurgeStep(p, o))
      ensures p in s.projects && going == s.projects[p].purge.Some?
    {
      var id := s.projects[p].purge.value.id;
      if !o.Failed? {
        Take(p, o.Ok? ==> o.removed);
      }
      if !o.Ok? {
        CountFailure(p, id, o.noted);
      }
      going := s.projects[p].purge.Some?;
    }

    /** Lets others in, then takes one step of a purge that has passed its re-check. */
    method Next(p: ProjectId, id: Id, o: Outcome, ls: seq<Label>, ghost pr: Project, ghost start: Platform,
            ghost before: seq<Label>)
      returns (going: bool, ghost trace: seq<Label>)
      requires p in s.projects && Running(pr, s.projects[p], id) && Leads(start, before, s)
      modifies this
      ensures Leads(start, trace, s) && p in s.projects
      ensures going ==> Running(pr, s.projects[p], id) && Rank(PcOf(old(s).projects[p])) < Rank(PcOf(s.projects[p]))
      ensures !going ==> Stopped(pr, s.projects[p], id, o) && (o.Ok? ==> PcOf(old(s).projects[p]).Mark?)
      ensures ls == [] ==> Alone(old(s), s, p)
    {
      trace := Others(p, ls, start, before);
      StepIsAlone(s, p, o);
      LeadsOn(start, trace, s, PurgeStep(p, o));
      trace := trace + [PurgeStep(p, o)];
      StepIsStepped(s, p, o);
      StepEnds(pr, s.projects[p], Do(s, PurgeStep(p, o)).projects[p], id, o);
      going := Step(p, o);
    }

    predicate At(p: ProjectId, pc: PurgePc)
      reads this
    {
      p in s.projects && s.projects[p].purge.Some? && s.projects[p].purge.value.pc == pc
    }

    /** The re-check, which nobody comes before. */
    method Recheck(p: ProjectId, id: Id, o: Outcome) returns (going: bool, ghost trace: seq<Label>)
      requires p in s.projects && s.projects[p].purge == Some(Attempt(id, Check, None))
      modifies this
      ensures Leads(old(s), trace, s) && p in s.projects
      ensures going ==> Running(old(s).projects[p], s.projects[p], id)
      ensures !going ==> s.projects[p].purge.None? &&
                         Concluded(old(s).projects[p], s.projects[p], id, if o.Ok? then Skipped
                             else FailedOnce(o.noted))
      ensures Alone(old(s), s, p)
    {
      StepIsAlone(s, p, o);
      CheckDecides(s, p, o);
      StepIsStepped(s, p, o);
      LeadsOn(s, [], s, PurgeStep(p, o));
      trace := [] + [PurgeStep(p, o)];
      going := Step(p, o);
    }

    /** The container, once it has been counted who else names it, or the stack. */
    method RemoveRuntimeOf(p: ProjectId, id: Id, plan: PurgePc -> Outcome, others: PurgePc -> seq<Label>,
                        ghost pr: Project, ghost start: Platform, ghost before: seq<Label>)
      returns (going: bool, last: Outcome, ghost trace: seq<Label>)
      requires p in s.projects && Running(pr, s.projects[p], id) && Leads(start, before, s)
      modifies this
      ensures Leads(start, trace, s) && p in s.projects
      ensures going ==> Running(pr, s.projects[p], id) && Rank(PcOf(s.projects[p])) >= Rank(CountDeployment)
      ensures !going ==> Stopped(pr, s.projects[p], id, last) && !last.Ok?
      ensures !going ==> !Smooth(plan)
      ensures Quiet(others) ==> Alone(old(s), s, p)
    {
      going, last, trace := true, plan(Check), before;
      if going && At(p, CountRuntime) {
        last := plan(CountRuntime);
        going, trace := Next(p, id, last, others(CountRuntime), pr, start, trace);
      }
      if going && At(p, RemoveRuntime) {
        last := plan(RemoveRuntime);
        going, trace := Next(p, id, last, others(RemoveRuntime), pr, start, trace);
      }
    }

    /** The images built for a stack's deployment, once its other releases have been counted. */
    method RemoveLabelledOf(p: ProjectId, id: Id, plan: PurgePc -> Outcome, others: PurgePc -> seq<Label>,
                        ghost pr: Project, ghost start: Platform, ghost before: seq<Label>)
      returns (going: bool, last: Outcome, ghost trace: seq<Label>)
      requires p in s.projects && Running(pr, s.projects[p], id) && Leads(start, before, s)
      requires Rank(PcOf(s.projects[p])) >= Rank(CountDeployment)
      modifies this
      ensures Leads(start, trace, s) && p in s.projects
      ensures going ==> Running(pr, s.projects[p], id) && Rank(PcOf(s.projects[p])) >= Rank(CountImage)
      ensures !going ==> Stopped(pr, s.projects[p], id, last) && !last.Ok?
      ensures !going ==> !Smooth(plan)
      ensures Quiet(others) ==> Alone(old(s), s, p)
    {
      going, last, trace := true, plan(Check), before;
      if going && At(p, CountDeployment) {
        last := plan(CountDeployment);
        going, trace := Next(p, id, last, others(CountDeployment), pr, start, trace);
      }
      if going && At(p, RemoveLabelled) {
        last := plan(RemoveLabelled);
        going, trace := Next(p, id, last, others(RemoveLabelled), pr, start, trace);
      }
    }

    /** The image, once it has been counted who else names it. */
    method RemoveImageOf(p: ProjectId, id: Id, plan: PurgePc -> Outcome, others: PurgePc -> seq<Label>,
                        ghost pr: Project, ghost start: Platform, ghost before: seq<Label>)
      returns (going: bool, last: Outcome, ghost trace: seq<Label>)
      requires p in s.projects && Running(pr, s.projects[p], id) && Leads(start, before, s)
      requires Rank(PcOf(s.projects[p])) >= Rank(CountImage)
      modifies this
      ensures Leads(start, trace, s) && p in s.projects
      ensures going ==> Running(pr, s.projects[p], id) && Rank(PcOf(s.projects[p])) >= Rank(Workspace)
      ensures !going ==> Stopped(pr, s.projects[p], id, last) && !last.Ok?
      ensures !going ==> !Smooth(plan)
      ensures Quiet(others) ==> Alone(old(s), s, p)
    {
      going, last, trace := true, plan(Check), before;
      if going && At(p, CountImage) {
        last := plan(CountImage);
        going, trace := Next(p, id, last, others(CountImage), pr, start, trace);
      }
      if going && At(p, RemoveImage) {
        last := plan(RemoveImage);
        going, trace := Next(p, id, last, others(RemoveImage), pr, start, trace);
      }
    }

    /** What belongs to the release on the host. */
    method RemoveThings(p: ProjectId, id: Id, plan: PurgePc -> Outcome, others: PurgePc -> seq<Label>,
                        ghost pr: Project, ghost start: Platform, ghost before: seq<Label>)
      returns (going: bool, last: Outcome, ghost trace: seq<Label>)
      requires p in s.projects && Running(pr, s.projects[p], id) && Leads(start, before, s)
      modifies this
      ensures Leads(start, trace, s) && p in s.projects
      ensures going ==> Running(pr, s.projects[p], id) && Rank(PcOf(s.projects[p])) >= Rank(Workspace)
      ensures !going ==> Stopped(pr, s.projects[p], id, last) && !last.Ok?
      ensures !going ==> !Smooth(plan)
      ensures Quiet(others) ==> Alone(old(s), s, p)
    {
      going, last, trace := RemoveRuntimeOf(p, id, plan, others, pr, start, before);
      if going {
        going, last, trace := RemoveLabelledOf(p, id, plan, others, pr, start, trace);
      }
      if going {
        going, last, trace := RemoveImageOf(p, id, plan, others, pr, start, trace);
      }
    }

    /** The workspace directories, and the mark. */
    method Conclude(p: ProjectId, id: Id, plan: PurgePc -> Outcome, others: PurgePc -> seq<Label>,
                    ghost pr: Project, ghost start: Platform, ghost before: seq<Label>)
      returns (last: Outcome, ghost trace: seq<Label>)
      requires p in s.projects && Running(pr, s.projects[p], id) && Rank(PcOf(s.projects[p])) >= Rank(Workspace)
      requires Leads(start, before, s)
      modifies this
      ensures Leads(start, trace, s) && p in s.projects && Stopped(pr, s.projects[p], id, last)
      ensures Smooth(plan) ==> last.Ok?
      ensures Quiet(others) ==> Alone(old(s), s, p)
    {
      var going := true;
      last, trace := plan(Workspace), before;
      if At(p, Workspace) {
        going, trace := Next(p, id, last, others(Workspace), pr, start, trace);
      }
      if going {
        last := plan(Mark);
        going, trace := Next(p, id, last, others(Mark), pr, start, trace);
      }
    }

    /** `purgeRelease`, called with the project lock held.  `plan` tells how each step turns out,
        `others` what happens before it. */
    method PurgeRelease(p: ProjectId, id: Id, plan: PurgePc -> Outcome, others: PurgePc -> seq<Label>)
      returns (verdict: Verdict, ghost trace: seq<Label>)
      requires p in s.projects && s.projects[p].purge == Some(Attempt(id, Check, None))
      modifies this
      ensures Leads(old(s), trace, s) && p in s.projects && s.projects[p].purge.None?
      ensures Concluded(old(s).projects[p], s.projects[p], id, verdict)
      ensures Smooth(plan) ==> !verdict.FailedOnce?
      ensures Quiet(others) ==> Alone(old(s), s, p)
    {
      ghost var pr, start := s.projects[p], s;
      var going, last := true, plan(Check);
      going, trace := Recheck(p, id, last);
      if !going {
        verdict := if last.Ok? then Skipped else FailedOnce(last.noted);
        return;
      }
      going, last, trace := RemoveThings(p, id, plan, others, pr, start, trace);
      if going {
        last, trace := Conclude(p, id, plan, others, pr, start, trace);
      }
      verdict := if last.Ok? then Purged else FailedOnce(last.noted);
    }

    /** One release of the list: its project's lock is taken, or the release is passed over. */
    method PurgeLocked(p: ProjectId, id: Id, plan: PurgePc -> Outcome, others: PurgePc -> seq<Label>)
      returns (verdict: Option<Verdict>, ghost trace: seq<Label>)
      modifies this
      ensures Leads(old(s), trace, s)
      ensures Turned(old(s), s, p, id, verdict, Smooth(plan))
      ensures Quiet(others) ==> s == old(s) || Alone(old(s), s, p)
    {
      ghost var start := s;
      if p !in s.projects || s.projects[p].purge.Some? || s.projects[p].sys.worker.Busy? {
        return None, [];
      }
      ghost var l := StartPurge(p, id);
      LeadsOn(s, [], s, l);
      s := SetProject(s, p, s.projects[p].(purge := Some(Attempt(id, Check, None))));
      ghost var locked := s;
      assert Leads(start, [] + [l], locked);
      var v;
      v, trace := PurgeRelease(p, id, plan, others);
      verdict := Some(v);
      LeadsTogether(start, [] + [l], locked, trace, s);
      trace := [] + [l] + trace;
    }

    /** The containers part of `removeLabelledOrphans`. */
    method RemoveLabelledOrphans(onHost: OnHost, found: seq<Found>, removed: nat -> bool)
      modifies this
      ensures s == Do(old(s), SweepOf(old(s), onHost, found, removed))
    {
      var live := LiveDeployments(s, onHost);
      ghost var before := s;
      for i := 0 to |found|
        invariant s == before.(containers := before.containers - Swept(found[..i], live, before.now, removed))
      {
        assert found[..i + 1] == found[..i] + [found[i]];
        SweptOneMore(found[..i], found[i], live, s.now, removed);
        if IsOrphan(found[i], live, s.now) && removed(i) {
          s := s.(containers := s.containers - {found[i].id});
        }
      }
      assert found[..|found|] == found;
    }

    /** `cleanupVps`: the releases of the list one after the other, and then the orphans, once the
        VPS's maintenance lock has been taken and its host reached.  Every release of the list whose
        project can be locked at its turn is concluded in it.  However old the list is, no release that
        is protected by then has been purged; and when nothing fails and nobody interferes, every
        listed release that may be purged is. */
    method CleanupVps(lockFree: bool, reached: bool, list: seq<(ProjectId, Id)>,
                      plan: (nat, PurgePc) -> Outcome, others: (nat, PurgePc) -> seq<Label>,
                      onHost: OnHost, found: seq<Found>, removed: nat -> bool)
      returns (verdicts: seq<Option<Verdict>>, ghost turns: seq<Platform>, ghost trace: seq<Label>)
      modifies this
      ensures !lockFree || !reached ==> s == old(s)
      ensures Leads(old(s), trace, s)
      ensures old(Inv(s)) ==> Inv(s)
      ensures old(Inv(s)) ==> forall p, x :: p in s.projects && x in s.projects[p].purged ==>
          !Protected(s.projects[p].sys.w.db, x)
      ensures lockFree && reached ==>
                && |turns| == |verdicts| + 1 == |list| + 1 && turns[0] == old(s)
                && s == Do(turns[|list|], SweepOf(turns[|list|], onHost, found, removed))
                && forall i :: 0 <= i < |list| ==>
                     Turned(turns[i], turns[i + 1], list[i].0, list[i].1, verdicts[i], Smooth(pc => plan(i, pc)))
      ensures lockFree && reached && (forall i: nat :: i < |list| ==> Undisturbed(i, plan, others)) ==>
                forall i :: 0 <= i < |list| && Due(old(s), list[i].0, list[i].1) ==>
                  list[i].0 in s.projects && list[i].1 in s.projects[list[i].0].purged
    {
      trace, verdicts, turns := [], [], [s];
      if !lockFree || !reached {
        if Inv(s) {
          assert forall p :: p in s.projects ==> ProjectOk(p, s.projects[p], s.tags);
        }
        return;
      }
      verdicts, turns, trace := PurgeAll(list, plan, others);
      LeadsOn(old(s), trace, s, SweepOf(s, onHost, found, removed));
      trace := trace + [SweepOf(s, onHost, found, removed)];
      RemoveLabelledOrphans(onHost, found, removed);
      if old(Inv(s)) {
        LeadsKeepsInv(old(s), trace, s);
        assert forall p :: p in s.projects ==> ProjectOk(p, s.projects[p], s.tags);
      }
    }

    /** The loop over the list. */
    method PurgeAll(list: seq<(ProjectId, Id)>, plan: (nat, PurgePc) -> Outcome, others: (nat, PurgePc) -> seq<Label>)
      returns (verdicts: seq<Option<Verdict>>, ghost turns: seq<Platform>, ghost trace: seq<Label>)
      modifies this
      ensures Leads(old(s), trace, s)
      ensures |turns| == |verdicts| + 1 == |list| + 1 && turns[0] == old(s) && turns[|list|] == s
      ensures forall i :: 0 <= i < |list| ==>
          Turned(turns[i], turns[i + 1], list[i].0, list[i].1, verdicts[i], Smooth(pc => plan(i, pc)))
      ensures (forall i: nat :: i < |list| ==> Undisturbed(i, plan, others)) ==>
          PurgedUpTo(old(s), s, list, |list|)
    {
      trace, verdicts, turns := [], [], [s];
      for i := 0 to |list|
        invariant Leads(old(s), trace, s)
        invariant |turns| == |verdicts| + 1 == i + 1 && turns[0] == old(s) && turns[i] == s
        invariant forall k :: 0 <= k < i ==>
            Turned(turns[k], turns[k + 1], list[k].0, list[k].1, verdicts[k], Smooth(pc => plan(k, pc)))
        invariant (forall k: nat :: k < |list| ==> Undisturbed(k, plan, others)) ==> PurgedUpTo(old(s), s, list, i)
      {
        ghost var before := s;
        var verdict;
        ghost var more;
        verdict, more := PurgeLocked(list[i].0, list[i].1, pc => plan(i, pc), pc => others(i, pc));
        LeadsTogether(old(s), trace, before, more, s);
        trace := trace + more;
        if forall k: nat :: k < |list| ==> Undisturbed(k, plan, others) {
          assert Undisturbed(i, plan, others);
          PurgedOneMore(old(s), before, s, list, i, verdict);
        }
        verdicts, turns := verdicts + [verdict], turns + [s];
      }
    }
  }

  /** The release's project is there, idle and unlocked, and the release may be purged. */
  predicate Due(s: Platform, p: ProjectId, id: Id) {
    && p in s.projects && s.projects[p].purge.None? && s.projects[p].sys.worker.Idle?
    && Purgeable(s.projects[p], id)
  }

  /** What a release's turn comes to: passed over when its project cannot be locked, and otherwise
      concluded, as a failure only when one of its steps failed. */
  ghost predicate Turned(before: Platform, after: Platform, p: ProjectId, id: Id, verdict: Option<Verdict>,
                         smooth: bool)
  {
    if p !in before.projects || before.projects[p].purge.Some? || before.projects[p].sys.worker.Busy?
    then verdict.None? && after == before
    else
      && p in after.projects && after.projects[p].purge.None?
      && verdict.Some? && Concluded(before.projects[p], after.projects[p], id, verdict.value)
      && (smooth ==> !verdict.value.FailedOnce?)
  }

  /** Nothing fails at the turn of entry `i`, and nobody else does anything. */
  ghost predicate Undisturbed(i: nat, plan: (nat, PurgePc) -> Outcome, others: (nat, PurgePc) -> seq<Label>) {
    Smooth(pc => plan(i, pc)) && Quiet(pc => others(i, pc))
  }

  /** Nothing but purging has happened, and what was due of the first `n` entries is purged. */
  ghost predicate PurgedUpTo(start: Platform, s: Platform, list: seq<(ProjectId, Id)>, n: nat)
    requires n <= |list|
  {
    && s.projects.Keys == start.projects.Keys
    && (forall p :: p in start.projects ==>
          && s.projects[p].sys == start.projects[p].sys && s.projects[p].purge == start.projects[p].purge
          && start.projects[p].purged <= s.projects[p].purged)
    && forall i :: 0 <= i < n && Due(start, list[i].0, list[i].1) ==> list[i].1 in s.projects[list[i].0].purged
  }

  lemma PurgedOneMore(start: Platform, before: Platform, after: Platform, list: seq<(ProjectId, Id)>, i: nat,
                      verdict: Option<Verdict>)
    requires i < |list| && PurgedUpTo(start, before, list, i)
    requires Turned(before, after, list[i].0, list[i].1, verdict, true)
    requires after == before || Alone(before, after, list[i].0)
    ensures PurgedUpTo(start, after, list, i + 1)
  {
    var p, id := list[i].0, list[i].1;
    if Due(start, p, id) && id !in before.projects[p].purged {
      assert Purgeable(before.projects[p], id);
    }
  }

  /** What the sweep does to the host. */
  function SweepOf(s: Platform, onHost: OnHost, found: seq<Found>, removed: nat -> bool): Label {
    Host(s.containers - Swept(found, LiveDeployments(s, onHost), s.now, removed), s.images)
  }

  lemma SweptOneMore(found: seq<Found>, f: Found, live: set<string>, now: int, removed: nat -> bool)
    ensures Swept(found + [f], live, now, removed)
            == Swept(found, live, now, removed)
               + if IsOrphan(f, live, now) && removed(|found|) then {f.id} else {}
  {
    var longer := found + [f];
    forall i: nat | i < |found| ensures longer[i] == found[i] {
    }
  }

  function PcOf(pr: Project): PurgePc
    requires pr.purge.Some?
  {
    pr.purge.value.pc
  }

  /** The purge of `id` is past its re-check, and nothing has been recorded about it yet. */
  predicate Running(pr: Project, pr': Project, id: Id) {
    && pr'.purge.Some? && pr'.purge.value.id == id && !PcOf(pr').Check? && Purgeable(pr, id)
    && pr'.purged == pr.purged && pr'.retries == pr.retries
  }

  predicate Stopped(pr: Project, pr': Project, id: Id, o: Outcome) {
    pr'.purge.None? && Concluded(pr, pr', id, if o.Ok? then Purged else FailedOnce(o.noted))
  }

  lemma StepEnds(pr: Project, was: Project, now: Project, id: Id, o: Outcome)
    requires Running(pr, was, id) && Stepped(was, now, o)
    ensures if now.purge.Some? then Running(pr, now, id) && Rank(PcOf(was)) < Rank(PcOf(now))
            else Stopped(pr, now, id, o) && (o.Ok? ==> PcOf(was).Mark?)
  {
  }

  /** The outcome of one purge: skipped exactly when the re-check failed, otherwise marked, or
      counted as a failure, after which the release may be marked all the same when the mark's
      reply was lost. */
  predicate Concluded(pr: Project, pr': Project, id: Id, verdict: Verdict) {
    match verdict
    case Skipped => !Purgeable(pr, id) && pr'.purged == pr.purged && pr'.retries == pr.retries
    case Purged => Purgeable(pr, id) && pr'.purged == pr.purged + {id}
    case FailedOnce(noted) =>
      && (pr'.purged == pr.purged || (Purgeable(pr, id) && pr'.purged == pr.purged + {id}))
      && (noted ==> Noted(pr, pr', id, true))
  }

  lemma CheckDecides(s: Platform, p: ProjectId, o: Outcome)
    requires Enabled(s, PurgeStep(p, o)) && s.projects[p].purge.value.pc.Check?
    ensures o.Ok? ==> (Do(s, PurgeStep(p, o)).projects[p].purge.Some? <==>
        Purgeable(s.projects[p], s.projects[p].purge.value.id))
  {
  }

  function Rank(pc: PurgePc): nat {
    match pc
    case Check => 0
    case CountRuntime => 1
    case RemoveRuntime => 2
    case CountDeployment => 3
    case RemoveLabelled => 4
    case CountImage => 5
    case RemoveImage => 6
    case Workspace => 7
    case Mark => 8
  }

  predicate Noted(pr: Project, pr': Project, id: Id, noted: bool) {
    if noted
    then id in pr'.retries && pr'.retries[id].count == RetryCount(pr, id) + 1
    else pr'.retries == pr.retries
  }

  /** What one step of a purge comes to for its project. */
  predicate Stepped(pr: Project, pr': Project, o: Outcome)
    requires pr.purge.Some?
  {
    var a := pr.purge.value;
    && (pr'.purge.Some? ==>
          o.Ok? && !a.pc.Mark? && pr'.purge.value.id == a.id && Rank(a.pc) < Rank(pr'.purge.value.pc)
          && pr'.purged == pr.purged && pr'.retries == pr.retries)
    && (pr'.purge.None? && o.Ok? ==>
          if a.pc.Mark? then pr'.purged == pr.purged + {a.id}
          else a.pc.Check? && pr'.purged == pr.purged && pr'.retries == pr.retries)
    && (!o.Ok? ==> pr'.purge.None?)
    && (o.Failed? ==> pr'.purged == pr.purged && Noted(pr, pr', a.id, o.noted))
    && (o.Lost? && !a.pc.Mark? ==> pr'.purged == pr.purged && Noted(pr, pr', a.id, o.noted))
    && (o.Lost? && a.pc.Mark? ==> pr'.purged == pr.purged + {a.id} && (o.noted ==> Noted(pr, pr', a.id, true)))
  }

  lemma StepIsStepped(s: Platform, p: ProjectId, o: Outcome)
    requires Enabled(s, PurgeStep(p, o))
    ensures Stepped(s.projects[p], Do(s, PurgeStep(p, o)).projects[p], o)
  {
  }

  // ---------------------------------------------------------------- a purge that nothing disturbs

  /** The rest of a purge whose steps all succeed, with nothing in between. */
  function Finish(s: Platform, p: ProjectId): Platform
    requires p in s.projects
    decreases if s.projects[p].purge.Some? then 9 - Rank(PcOf(s.projects[p])) else 0
  {
    if s.projects[p].purge.None? then s
    else
      StepIsStepped(s, p, Outcome.Ok(true));
      Finish(Do(s, PurgeStep(p, Outcome.Ok(true))), p)
  }

  /** Rows, purged releases and tags are as they were. */
  ghost predicate SameRows(s: Platform, t: Platform) {
    && t.projects.Keys == s.projects.Keys && t.tags == s.tags
    && forall p :: p in s.projects ==>
         t.projects[p].sys == s.projects[p].sys && t.projects[p].purged == s.projects[p].purged
  }

  lemma SameCounts(s: Platform, t: Platform, p: ProjectId, id: Id)
    requires SameRows(s, t)
    ensures forall c :: StillReferenced(t, p, id, c) == StillReferenced(s, p, id, c)
    ensures forall tag :: Shared(t, p, id, tag) == Shared(s, p, id, tag)
    ensures SharedDeployment(t, p, id) == SharedDeployment(s, p, id)
  {
    forall c ensures StillReferenced(t, p, id, c) == StillReferenced(s, p, id, c) {
      assert forall q, o :: q in s.projects ==> Names(t.projects[q], o, c) == Names(s.projects[q], o, c);
    }
    forall tag ensures Shared(t, p, id, tag) == Shared(s, p, id, tag) {
      assert forall q, o :: q in s.projects ==> Tagged(t, q, o, tag) == Tagged(s, q, o, tag);
    }
    var d := s.tags.deploymentOf(p, id);
    assert forall q, o :: q in s.projects ==> Deploys(t, q, o, d) == Deploys(s, q, o, d);
  }

  /** What of the host belongs to the release alone: its image, ... */
  ghost function OwnImage(s: Platform, p: ProjectId, id: Id): set<Tag> {
    var tag := s.tags.tagOf(p, id);
    if tag.Some? && !Shared(s, p, id, tag.value) then {tag.value} else {}
  }

  /** ... the images of its deployment when it is a stack, ... */
  ghost function OwnLabelled(s: Platform, p: ProjectId, id: Id, box: Option<Container>): set<Tag> {
    if box.Some? && IsStack(box.value) && !SharedDeployment(s, p, id)
    then set t | t in s.images && s.tags.builtFor(t) == Some(s.tags.deploymentOf(p, id))
    else {}
  }

  /** ... and its container, or its stack whoever else runs in it. */
  ghost function OwnBox(s: Platform, p: ProjectId, id: Id, box: Option<Container>): set<Container> {
    if box.Some? && (IsStack(box.value) || !StillReferenced(s, p, id, box.value)) then {box.value} else {}
  }

  /** The purge of `id` is at one of these steps. */
  ghost predicate AtStep(s: Platform, p: ProjectId, id: Id, pcs: set<PurgePc>) {
    && p in s.projects && s.projects[p].purge.Some? && s.projects[p].purge.value.id == id
    && PcOf(s.projects[p]) in pcs
  }

  /** What is left of a purge, `boxes` and `tags` being what it still removes. */
  ghost predicate Ends(s: Platform, p: ProjectId, id: Id, boxes: set<Container>, tags: set<Tag>)
    requires p in s.projects
  {
    var t := Finish(s, p);
    && p in t.projects && t.projects[p].purge.None? && t.projects[p].purged == s.projects[p].purged + {id}
    && t.containers == s.containers - boxes && t.images == s.images - tags
  }

  lemma WorkspaceEnds(s: Platform, p: ProjectId, id: Id)
    requires AtStep(s, p, id, {Workspace, Mark})
    ensures Ends(s, p, id, {}, {})
    decreases 9 - Rank(PcOf(s.projects[p]))
  {
    if PcOf(s.projects[p]) == Workspace {
      WorkspaceEnds(Do(s, PurgeStep(p, Outcome.Ok(true))), p, id);
    }
  }

  lemma ImageEnds(s: Platform, p: ProjectId, id: Id)
    requires AtStep(s, p, id, {CountImage, RemoveImage, Workspace})
    requires PcOf(s.projects[p]) == RemoveImage ==> s.tags.tagOf(p, id).Some?
    ensures Ends(s, p, id, {}, match PcOf(s.projects[p])
        case CountImage => OwnImage(s, p, id)
        case RemoveImage => {s.tags.tagOf(p, id).value}
        case _ => {})
    decreases 9 - Rank(PcOf(s.projects[p]))
  {
    var next := Do(s, PurgeStep(p, Outcome.Ok(true)));
    match PcOf(s.projects[p])
    case CountImage => ImageEnds(next, p, id);
    case RemoveImage => WorkspaceEnds(next, p, id);
    case _ => WorkspaceEnds(s, p, id);
  }

  lemma StepKeepsRows(s: Platform, p: ProjectId)
    requires p in s.projects && s.projects[p].purge.Some? && !PcOf(s.projects[p]).Mark?
    ensures SameRows(s, Do(s, PurgeStep(p, Outcome.Ok(true))))
  {
  }

  lemma AfterRuntimeEnds(s: Platform, p: ProjectId, id: Id)
    requires AtStep(s, p, id, {CountImage, Workspace}) && PcOf(s.projects[p]) == AfterRuntime(s, p, id)
    ensures Ends(s, p, id, {}, OwnImage(s, p, id))
  {
    ImageEnds(s, p, id);
  }

  lemma LabelledEnds(s: Platform, p: ProjectId, id: Id)
    requires AtStep(s, p, id, {RemoveLabelled})
    ensures Ends(s, p, id, {}, LabelledFor(s, s.tags.deploymentOf(p, id)) + OwnImage(s, p, id))
  {
    var next := Do(s, PurgeStep(p, Outcome.Ok(true)));
    StepKeepsRows(s, p);
    SameCounts(s, next, p, id);
    AfterRuntimeEnds(next, p, id);
  }

  lemma DeploymentEnds(s: Platform, p: ProjectId, id: Id)
    requires AtStep(s, p, id, {CountDeployment})
    ensures Ends(s, p, id, {},
        (if SharedDeployment(s, p, id) then {} else LabelledFor(s, s.tags.deploymentOf(p, id))) + OwnImage(s, p, id))
  {
    var next := Do(s, PurgeStep(p, Outcome.Ok(true)));
    StepKeepsRows(s, p);
    SameCounts(s, next, p, id);
    if SharedDeployment(s, p, id) {
      AfterRuntimeEnds(next, p, id);
    } else {
      LabelledEnds(next, p, id);
    }
  }

  lemma RuntimeEnds(s: Platform, p: ProjectId, id: Id, box: Container)
    requires AtStep(s, p, id, {RemoveRuntime}) && s.projects[p].purge.value.box == Some(box)
    ensures Ends(s, p, id, {box}, OwnLabelled(s, p, id, Some(box)) + OwnImage(s, p, id))
  {
    var next := Do(s, PurgeStep(p, Outcome.Ok(true)));
    StepKeepsRows(s, p);
    SameCounts(s, next, p, id);
    if IsStack(box) {
      DeploymentEnds(next, p, id);
    } else {
      AfterRuntimeEnds(next, p, id);
    }
  }

  lemma CountEnds(s: Platform, p: ProjectId, id: Id, box: Container)
    requires AtStep(s, p, id, {CountRuntime}) && s.projects[p].purge.value.box == Some(box) && !IsStack(box)
    ensures Ends(s, p, id, OwnBox(s, p, id, Some(box)), OwnImage(s, p, id))
  {
    var next := Do(s, PurgeStep(p, Outcome.Ok(true)));
    StepKeepsRows(s, p);
    SameCounts(s, next, p, id);
    if StillReferenced(s, p, id, box) {
      AfterRuntimeEnds(next, p, id);
    } else {
      RuntimeEnds(next, p, id, box);
    }
  }

  /** A purge of a release that may be purged, with all steps succeeding and nothing in between, marks
      it and removes from the host exactly what is its own. */
  lemma UndisturbedPurgeRemovesItsOwn(s: Platform, p: ProjectId, id: Id)
    requires p in s.projects && s.projects[p].purge == Some(Attempt(id, Check, None)) && Purgeable(s.projects[p], id)
    ensures var box := BoxOf(s.projects[p], id);
            Ends(s, p, id, OwnBox(s, p, id, box), OwnLabelled(s, p, id, box) + OwnImage(s, p, id))
  {
    var next, box := Do(s, PurgeStep(p, Outcome.Ok(true))), BoxOf(s.projects[p], id);
    StepKeepsRows(s, p);
    SameCounts(s, next, p, id);
    if box.None? {
      AfterRuntimeEnds(next, p, id);
    } else if IsStack(box.value) {
      RuntimeEnds(next, p, id, box.value);
    } else {
      CountEnds(next, p, id, box.value);
    }
  }
}
