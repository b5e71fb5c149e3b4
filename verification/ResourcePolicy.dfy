/**
 `ResourcePolicyService`: testing, making and giving back a deployment's reservation, proved
 to be steps of the admission runs.
 */
module ResourcePolicy {
  import opened Wrappers
  import opened Capacity
  import opened Admission

  datatype Tier = STATIC | SERVER | FULLSTACK

  function Defaults(tier: Tier): Policy {
    match tier
    case STATIC => Policy(250, 256, 128, 5120)
    case SERVER => Policy(1000, 1024, 256, 5120)
    case FULLSTACK => Policy(2000, 2048, 512, 5120)
  }

  /** The project's overrides; zero means not overridden, as in the source. */
  function Resolve(tier: Tier, override: Option<Policy>): Policy {
    var base := Defaults(tier);
    if override.None? then base
    else Policy(Or(override.value.cpuMillis, base.cpuMillis), Or(override.value.memoryMiB, base.memoryMiB),
                Or(override.value.pids, base.pids), Or(override.value.storageMiB, base.storageMiB))
  }

  function Or(a: nat, b: nat): nat { if a == 0 then b else a }

  /** A positive override takes the place of the tier's default, resource by resource. */
  lemma ResolvedExactly(tier: Tier, override: Option<Policy>)
    ensures var r, base := Resolve(tier, override), Resolve(tier, None);
            && base == (match tier
                        case STATIC => Policy(250, 256, 128, 5120)
                        case SERVER => Policy(1000, 1024, 256, 5120)
                        case FULLSTACK => Policy(2000, 2048, 512, 5120))
            && (override.Some? ==>
                  && (r.cpuMillis == override.value.cpuMillis > 0
                      || (override.value.cpuMillis == 0 && r.cpuMillis == base.cpuMillis))
                  && (r.memoryMiB == override.value.memoryMiB > 0
                      || (override.value.memoryMiB == 0 && r.memoryMiB == base.memoryMiB))
                  && (r.pids == override.value.pids > 0 || (override.value.pids == 0 && r.pids == base.pids))
                  && (r.storageMiB == override.value.storageMiB > 0
                      || (override.value.storageMiB == 0 && r.storageMiB == base.storageMiB)))
  {
  }

  const ACTIVE_PROJECT_LIMIT := 10

  /** What `reserve` finds before it looks at the sums: how many other projects of the owner
      have an active deployment, whether the VPS's capacity lock is free, and the machine's
      snapshot, unless it cannot be reached. */
  datatype Request = Request(policy: Policy, otherProjects: nat, lockFree: bool, snapshot: Option<Snapshot>)

  datatype Refusal = LimitReached | CapacityBusy | Unreachable | NoRoom(failure: Failure)

  /** The first guard of `reserve` that does not let the request pass. */
  function Guard(r: Request): Option<Refusal> {
    if r.otherProjects >= ACTIVE_PROJECT_LIMIT then Some(LimitReached)
    else if !r.lockFree then Some(CapacityBusy)
    else if r.snapshot.None? then Some(Unreachable)
    else None
  }

  /** The machine's answer, by what is short. */
  ghost predicate AnsweredExactly(refusal: Option<Refusal>, s: Snapshot, committed: Totals, policy: Policy) {
    var memory, disk := MemoryShort(s, committed, policy), DiskShort(s, committed, policy);
    if memory && disk then refusal == Some(NoRoom(RESOURCE_EXCEEDED))
    else if memory then refusal == Some(NoRoom(MEMORY_EXCEEDED))
    else if disk then refusal == Some(NoRoom(DISK_EXCEEDED))
    else if policy.cpuMillis > s.cpuMillis then refusal == Some(NoRoom(RESOURCE_EXCEEDED))
    else refusal.None?
  }

  datatype TierResult = TierMismatch | Unlimited | Limited(policy: Policy) | Refused(refusal: Refusal)

  class ResourcePolicyService {
    var releases: seq<ReleaseRow>
    var reservations: seq<Option<ReservationRow>>
    var clock: int
    var projectOf: seq<ProjectId>
    ghost var backing: seq<Option<nat>>
    const projects: nat
    const totalMemory: nat
    const totalDisk: nat

    ghost function State(): Admission.State
      reads this
    {
      Admission.State(Tables(releases, reservations), clock, projectOf, backing, projects, totalMemory, totalDisk)
    }

    constructor (projects: nat, totalMemory: nat, totalDisk: nat)
      ensures Empty(State()) && this.projects == projects && this.totalMemory == totalMemory
          && this.totalDisk == totalDisk
    {
      releases, reservations, clock, projectOf, backing := [], [], 0, [], [];
      this.projects, this.totalMemory, this.totalDisk := projects, totalMemory, totalDisk;
    }

    predicate OfThisMachine(r: Request) {
      r.snapshot.Some? ==> r.snapshot.value.totalMemoryMiB == totalMemory && r.snapshot.value.totalDiskMiB == totalDisk
    }

    /** `reserve`: admits the policy, or refuses it and leaves everything as it was. */
    method Reserve(d: DeploymentId, r: Request) returns (refusal: Option<Refusal>)
      requires d < |reservations| && Shaped(State()) && OfThisMachine(r)
      modifies this`reservations, this`backing
      ensures Guard(r).Some? ==> refusal == Guard(r)
      ensures Guard(r).None? ==>
                var failure := CapacityFailure(r.snapshot.value,
                  CommittedTotals(old(State()).t, clock, d, Some(projectOf[d]), projects), r.policy);
                && refusal == (if failure.Some? then Some(NoRoom(failure.value)) else None)
                && Enabled(old(State()), Label.Reserve(d, r.policy, r.snapshot.value)) == refusal.None?
      ensures refusal.None? ==>
                && Guard(r).None? && Enabled(old(State()), Label.Reserve(d, r.policy, r.snapshot.value))
                && State() == Do(old(State()), Label.Reserve(d, r.policy, r.snapshot.value))
      ensures refusal.Some? ==> State() == old(State())
      ensures r.otherProjects >= 10 ==> refusal == Some(LimitReached)
      ensures r.otherProjects < 10 && !r.lockFree ==> refusal == Some(CapacityBusy)
      ensures r.otherProjects < 10 && r.lockFree && r.snapshot.None? ==> refusal == Some(Unreachable)
      ensures r.otherProjects < 10 && r.lockFree && r.snapshot.Some? ==>
                AnsweredExactly(refusal, r.snapshot.value,
                  CommittedTotals(old(State()).t, clock, d, Some(projectOf[d]), projects), r.policy)
      ensures refusal.None? ==> reservations == old(reservations)[d := Some(ReservationRow(projectOf[d], true,
          clock + 6 * 3600 * 1000, r.policy.cpuMillis, r.policy.memoryMiB, r.policy.storageMiB))]
      ensures old(Admission.Inv(State())) ==> Admission.Inv(State())
    {
      refusal := Guard(r);
      if refusal.None? {
        RefusedExactly(r.snapshot.value, CommittedTotals(State().t, clock, d, Some(projectOf[d]), projects), r.policy);
        var failure := Admit(d, r.policy, r.snapshot.value);
        refusal := if failure.Some? then Some(NoRoom(failure.value)) else None;
      }
    }

    /** Under the capacity lock: the test, and the row that is made when it passes. */
    method Admit(d: DeploymentId, policy: Policy, snapshot: Snapshot) returns (failure: Option<Failure>)
      requires d < |reservations| && Shaped(State())
      requires snapshot.totalMemoryMiB == totalMemory && snapshot.totalDiskMiB == totalDisk
      modifies this`reservations, this`backing
      ensures failure == CapacityFailure(
                snapshot, CommittedTotals(old(State()).t, clock, d, Some(projectOf[d]), projects), policy)
      ensures Enabled(old(State()), Label.Reserve(d, policy, snapshot)) == failure.None?
      ensures State() == if failure.None? then Do(old(State()), Label.Reserve(d, policy, snapshot)) else old(State())
      ensures old(Admission.Inv(State())) ==> Admission.Inv(State())
    {
      ghost var before := State();
      var committed := Committed(Tables(releases, reservations), clock, d, Some(projectOf[d]), projects);
      failure := CapacityFailure(snapshot, committed, policy);
      if failure.Some? {
        return;
      }
      reservations := reservations[d := Some(ReservationRow(
        projectOf[d], true, clock + SIX_HOURS, policy.cpuMillis, policy.memoryMiB, policy.storageMiB))];
      backing := backing[d := None];
      if Admission.Inv(before) {
        StepKeepsWithin(before, Label.Reserve(d, policy, snapshot));
        StepKeepsShape(before, Label.Reserve(d, policy, snapshot));
      }
    }

    /** `releaseReservation`: only a RESERVED row changes. */
    method ReleaseReservation(d: DeploymentId)
      requires d < |reservations|
      modifies this`reservations
      ensures State() == Do(old(State()), Label.ReleaseReservation(d))
      ensures !LiveAt(reservations[d], clock)
      ensures old(Admission.Inv(State())) ==> Admission.Inv(State())
    {
      ghost var before := State();
      if reservations[d].Some? && reservations[d].value.reserved {
        reservations := reservations[d := Some(reservations[d].value.(reserved := false))];
      }
      assert State().t.reservations == Do(before, Label.ReleaseReservation(d)).t.reservations;
      if Admission.Inv(before) {
        StepKeepsWithin(before, Label.ReleaseReservation(d));
        StepKeepsShape(before, Label.ReleaseReservation(d));
      }
    }

    /** `reconcileDetectedTier`: a deployment without a requested tier gives its reservation
        up; one whose request does not fit the detected workload is rejected; any other is
        put to the capacity test again under the detected policy. */
    method ReconcileDetectedTier(
        d: DeploymentId, requested: Option<Tier>, override: Option<Policy>, detected: Tier, found: Request)
      returns (r: TierResult)
      requires d < |reservations| && Shaped(State()) && OfThisMachine(found)
      modifies this`reservations, this`backing
      ensures r.TierMismatch? <==> requested.Some? && requested.value != detected
      ensures r.TierMismatch? || r.Refused? ==> State() == old(State())
      ensures r.Unlimited? <==> requested.None?
      ensures r.Unlimited? ==>
                State() == Do(old(State()), Label.ReleaseReservation(d)) && !LiveAt(reservations[d], clock)
      ensures r.Limited? ==>
                && r.policy == Resolve(detected, override) && Guard(found).None?
                && Enabled(old(State()), Label.Reserve(d, r.policy, found.snapshot.value))
                && State() == Do(old(State()), Label.Reserve(d, r.policy, found.snapshot.value))
      ensures requested == Some(detected) ==> r.Limited? || r.Refused?
      ensures r.Limited? || r.Refused? ==>
                var refusal := if r.Limited? then None else Some(r.refusal);
                if Guard(found).Some? then refusal == Guard(found)
                else AnsweredExactly(refusal, found.snapshot.value,
                       CommittedTotals(old(State()).t, clock, d, Some(projectOf[d]), projects),
                       Resolve(detected, override))
      ensures old(Admission.Inv(State())) ==> Admission.Inv(State())
    {
      if requested.Some? && requested.value != detected {
        return TierMismatch;
      }
      if requested.None? {
        ReleaseReservation(d);
        return Unlimited;
      }
      var policy := Resolve(requested.value, override);
      var refusal := Reserve(d, found.(policy := policy));
      r := if refusal.Some? then Refused(refusal.value) else Limited(policy);
    }
  }
}
