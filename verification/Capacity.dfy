/**
 Capacity arithmetic of one VPS: the admission test, and the sum of what is already
 committed, computed the way `ResourcePolicyService.committed` does.
 */
module Capacity {
  import opened Wrappers

  datatype Policy = Policy(cpuMillis: nat, memoryMiB: nat, pids: nat, storageMiB: nat)
  datatype Snapshot = Snapshot(
    cpuMillis: nat, totalMemoryMiB: nat, availableMemoryMiB: nat, totalDiskMiB: nat, availableDiskMiB: nat)
  datatype Totals = Totals(cpuMillis: nat, memoryMiB: nat, storageMiB: nat)
  datatype Failure = RESOURCE_EXCEEDED | MEMORY_EXCEEDED | DISK_EXCEEDED

  function MemoryReserve(total: nat): nat { total * 20 / 100 }
  function DiskReserve(total: nat): nat { total * 15 / 100 }

  function CapacityFailure(s: Snapshot, committed: Totals, requested: Policy): Option<Failure> {
    var memoryFailed := committed.memoryMiB + requested.memoryMiB > s.totalMemoryMiB - MemoryReserve(s.totalMemoryMiB)
                        || s.availableMemoryMiB - requested.memoryMiB < MemoryReserve(s.totalMemoryMiB);
    var diskFailed := committed.storageMiB + requested.storageMiB > s.totalDiskMiB - DiskReserve(s.totalDiskMiB)
                      || s.availableDiskMiB - requested.storageMiB < DiskReserve(s.totalDiskMiB);
    if memoryFailed && diskFailed then Some(RESOURCE_EXCEEDED)
    else if memoryFailed then Some(MEMORY_EXCEEDED)
    else if diskFailed then Some(DISK_EXCEEDED)
    else if requested.cpuMillis > s.cpuMillis then Some(RESOURCE_EXCEEDED)
    else None
  }

  /** What can be given out on a machine of this size. */
  function MemoryCap(total: nat): nat { total - MemoryReserve(total) }
  function DiskCap(total: nat): nat { total - DiskReserve(total) }

  /** A fifth of the memory and fifteen percent of the disk stay free, each rounded down. */
  lemma CapsLeaveTheReserves(total: nat)
    ensures 4 * total <= 5 * MemoryCap(total) < 4 * total + 5
    ensures 17 * total <= 20 * DiskCap(total) < 17 * total + 20
  {
  }

  /** Too much memory is given out already, or too little would stay free on the machine: less than a
      fifth, rounded down. */
  predicate MemoryShort(s: Snapshot, committed: Totals, requested: Policy) {
    || committed.memoryMiB + requested.memoryMiB + s.totalMemoryMiB / 5 > s.totalMemoryMiB
    || s.availableMemoryMiB < requested.memoryMiB + s.totalMemoryMiB / 5
  }

  /** The same for the disk, with three twentieths. */
  predicate DiskShort(s: Snapshot, committed: Totals, requested: Policy) {
    || committed.storageMiB + requested.storageMiB + 3 * s.totalDiskMiB / 20 > s.totalDiskMiB
    || s.availableDiskMiB < requested.storageMiB + 3 * s.totalDiskMiB / 20
  }

  /** A request is admitted exactly when memory, disk and cores suffice, and a refusal names what
      does not: both together, or the cores alone, count as the machine's resources. */
  lemma RefusedExactly(s: Snapshot, committed: Totals, requested: Policy)
    ensures var failure := CapacityFailure(s, committed, requested);
            var memory, disk := MemoryShort(s, committed, requested), DiskShort(s, committed, requested);
            && (failure.None? <==> !memory && !disk && requested.cpuMillis <= s.cpuMillis)
            && (failure == Some(MEMORY_EXCEEDED) <==> memory && !disk)
            && (failure == Some(DISK_EXCEEDED) <==> disk && !memory)
            && (failure == Some(RESOURCE_EXCEEDED) <==>
                  (memory && disk) || (!memory && !disk && requested.cpuMillis > s.cpuMillis))
  {
    assert MemoryReserve(s.totalMemoryMiB) == s.totalMemoryMiB / 5;
    assert DiskReserve(s.totalDiskMiB) == 3 * s.totalDiskMiB / 20;
  }

  // ---------------------------------------------------------------- rows

  type ProjectId = nat
  type DeploymentId = nat

  datatype ReleaseRow = ReleaseRow(
    deployment: DeploymentId, project: ProjectId, limited: bool, purged: bool, status: Status,
    cpuMillis: nat, memoryMiB: nat, storageMiB: nat)

  datatype ReservationRow = ReservationRow(
    project: ProjectId, reserved: bool, expiresAt: int, cpuMillis: nat, memoryMiB: nat, storageMiB: nat)

  /** Reservations are keyed by deployment; `None` is a deployment that never made one. */
  datatype Tables = Tables(releases: seq<ReleaseRow>, reservations: seq<Option<ReservationRow>>)

  /** A share of the machine that a row lays claim to; `NOTHING` for a row that does not count. */
  datatype Claim = Claim(project: ProjectId, cpuMillis: nat, memoryMiB: nat, storageMiB: nat)

  const NOTHING := Claim(0, 0, 0, 0)

  predicate Counts(r: ReleaseRow) {
    r.limited && !r.purged && (r.status.CANDIDATE? || r.status.READY? || r.status.ACTIVATING? || r.status.ACTIVE?)
  }

  predicate LiveAt(r: Option<ReservationRow>, now: int) {
    r.Some? && r.value.reserved && r.value.expiresAt > now
  }

  function ReleaseClaim(r: ReleaseRow): Claim {
    if Counts(r) then Claim(r.project, r.cpuMillis, r.memoryMiB, r.storageMiB) else NOTHING
  }

  function ReservationClaim(r: Option<ReservationRow>, now: int): Claim {
    if LiveAt(r, now) then Claim(r.value.project, r.value.cpuMillis, r.value.memoryMiB, r.value.storageMiB) else NOTHING
  }

  function ReleaseClaims(t: Tables): (cs: seq<Claim>)
    ensures |cs| == |t.releases|
  {
    seq(|t.releases|, i requires 0 <= i < |t.releases| => ReleaseClaim(t.releases[i]))
  }

  function ReservationClaims(t: Tables, now: int, without: DeploymentId): (cs: seq<Claim>)
    ensures |cs| == |t.reservations|
  {
    seq(|t.reservations|, i requires 0 <= i < |t.reservations| =>
      if i == without then NOTHING else ReservationClaim(t.reservations[i], now))
  }

  // ---------------------------------------------------------------- sums and peaks

  function Memory(cs: seq<Claim>): nat {
    if cs == [] then 0 else Memory(cs[..|cs| - 1]) + cs[|cs| - 1].memoryMiB
  }

  function Cpu(cs: seq<Claim>): nat {
    if cs == [] then 0 else Cpu(cs[..|cs| - 1]) + cs[|cs| - 1].cpuMillis
  }

  /** The largest storage claim of one project. */
  function Peak(cs: seq<Claim>, p: ProjectId): nat {
    if cs == [] then 0
    else
      var last := cs[|cs| - 1];
      Max(Peak(cs[..|cs| - 1], p), if last.project == p then last.storageMiB else 0)
  }

  /** The peaks of all projects below `n` but one, which may be none. */
  function Storage(cs: seq<Claim>, n: nat, without: Option<ProjectId>): nat {
    if n == 0 then 0
    else Storage(cs, n - 1, without) + if without == Some(n - 1) then 0 else Peak(cs, n - 1)
  }

  // ---------------------------------------------------------------- committed

  /** A JavaScript Map read with a default of zero. */
  function Get(m: map<ProjectId, nat>, p: ProjectId): nat { if p in m then m[p] else 0 }

  function Below(m: map<ProjectId, nat>, n: nat): nat {
    if n == 0 then 0 else Below(m, n - 1) + Get(m, n - 1)
  }

  lemma {:induction false} BelowWithout(m: map<ProjectId, nat>, k: ProjectId, n: nat)
    requires k in m
    ensures Below(m, n) == Below(m - {k}, n) + if k < n then m[k] else 0
  {
    if n > 0 {
      BelowWithout(m, k, n - 1);
    }
  }

  lemma {:induction false} BelowEmpty(m: map<ProjectId, nat>, n: nat)
    requires m.Keys == {}
    ensures Below(m, n) == 0
  {
    if n > 0 {
      BelowEmpty(m, n - 1);
    }
  }

  lemma {:induction false} BelowIsStorage(m: map<ProjectId, nat>, cs: seq<Claim>, without: Option<ProjectId>, n: nat)
    requires forall p: nat :: p < n ==> Get(m, p) == if without == Some(p) then 0 else Peak(cs, p)
    ensures Below(m, n) == Storage(cs, n, without)
  {
    if n > 0 {
      BelowIsStorage(m, cs, without, n - 1);
    }
  }

  /** `[...projectStorage.values()].reduce(...)` */
  method SumValues(m: map<ProjectId, nat>, ghost n: nat) returns (sum: nat)
    requires forall p :: p in m ==> p < n
    ensures sum == Below(m, n)
  {
    sum := 0;
    var rest := m;
    while rest.Keys != {}
      invariant forall p :: p in rest ==> p < n
      invariant sum + Below(rest, n) == Below(m, n)
      decreases |rest.Keys|
    {
      var p :| p in rest.Keys;
      BelowWithout(rest, p, n);
      sum := sum + rest[p];
      assert (rest - {p}).Keys == rest.Keys - {p};
      rest := rest - {p};
    }
    BelowEmpty(rest, n);
  }

  predicate ProjectsBelow(t: Tables, n: nat) {
    && (forall r :: r in t.releases ==> r.project < n)
    && (forall r :: r in t.reservations && r.Some? ==> r.value.project < n)
  }

  /** The two claim lists one after the other, as the two loops of the source visit them. */
  function AllClaims(t: Tables, now: int, without: DeploymentId): seq<Claim> {
    ReleaseClaims(t) + ReservationClaims(t, now, without)
  }

  function CommittedTotals(t: Tables, now: int, without: DeploymentId, excluded: Option<ProjectId>, n: nat): Totals {
    var cs := AllClaims(t, now, without);
    Totals(Cpu(cs), Memory(cs), Storage(cs, n, excluded))
  }

  lemma OneClaim(c: Claim)
    ensures Memory([c]) == c.memoryMiB && Cpu([c]) == c.cpuMillis
    ensures forall p: nat :: Peak([c], p) == if p == c.project then c.storageMiB else 0
  {
    assert [c][..0] == [];
  }

  /** A release counts from its recorded runtime on until it is superseded, fails or is purged, when
      its deployment has a policy. */
  lemma OneReleaseCounts(r: ReleaseRow, now: int, without: DeploymentId)
    ensures var cs := AllClaims(Tables([r], []), now, without);
            var counts := r.limited && !r.purged && r.status !in {BUILDING, SUPERSEDED, FAILED};
            && Memory(cs) == (if counts then r.memoryMiB else 0) && Cpu(cs) == (if counts then r.cpuMillis else 0)
            && Peak(cs, r.project) == (if counts then r.storageMiB else 0)
  {
    assert AllClaims(Tables([r], []), now, without) == [ReleaseClaim(r)];
    OneClaim(ReleaseClaim(r));
  }

  /** A reservation counts until it expires or is given back, for every deployment but its own. */
  lemma OneReservationCounts(v: ReservationRow, now: int, without: DeploymentId)
    ensures var cs := AllClaims(Tables([], [Some(v)]), now, without);
            var counts := v.reserved && now < v.expiresAt && without != 0;
            && Memory(cs) == (if counts then v.memoryMiB else 0) && Cpu(cs) == (if counts then v.cpuMillis else 0)
            && Peak(cs, v.project) == (if counts then v.storageMiB else 0)
  {
    var claim := if without == 0 then NOTHING else ReservationClaim(Some(v), now);
    assert AllClaims(Tables([], [Some(v)]), now, without) == [claim];
    OneClaim(claim);
  }

  /** The accumulators of the two loops. */
  datatype Sums = Sums(cpuMillis: nat, memoryMiB: nat, projectStorage: map<ProjectId, nat>) {
    /** They hold the sums and the peaks of `cs`. */
    ghost predicate Of(cs: seq<Claim>) {
      && cpuMillis == Cpu(cs) && memoryMiB == Memory(cs)
      && forall p: nat :: Get(projectStorage, p) == Peak(cs, p)
    }

    ghost predicate Bounded(n: nat) { forall p :: p in projectStorage ==> p < n }
  }

  /** Adds one row to the accumulators. */
  method Accumulate(c: Claim, ghost cs: seq<Claim>, s: Sums, ghost n: nat) returns (s': Sums)
    requires s.Of(cs) && s.Bounded(n) && c.project < n
    ensures s'.Of(cs + [c]) && s'.Bounded(n)
  {
    assert (cs + [c])[..|cs|] == cs;
    s' := Sums(s.cpuMillis + c.cpuMillis, s.memoryMiB + c.memoryMiB,
               s.projectStorage[c.project := Max(Get(s.projectStorage, c.project), c.storageMiB)]);
  }

  lemma SkipNothing(cs: seq<Claim>, s: Sums)
    requires s.Of(cs)
    ensures s.Of(cs + [NOTHING])
  {
    assert (cs + [NOTHING])[..|cs|] == cs;
  }

  method AddReleases(t: Tables, ghost n: nat) returns (s: Sums)
    requires ProjectsBelow(t, n)
    ensures s.Of(ReleaseClaims(t)) && s.Bounded(n)
  {
    s := Sums(0, 0, map[]);
    ghost var cs := ReleaseClaims(t);
    for i := 0 to |t.releases|
      invariant s.Of(cs[..i]) && s.Bounded(n)
    {
      var r := t.releases[i];
      assert r in t.releases && cs[..i + 1] == cs[..i] + [cs[i]] && cs[i] == ReleaseClaim(r);
      if Counts(r) {
        s := Accumulate(ReleaseClaim(r), cs[..i], s, n);
      } else {
        SkipNothing(cs[..i], s);
      }
    }
    assert cs[..|cs|] == cs;
  }

  method AddReservations(t: Tables, now: int, without: DeploymentId, s0: Sums, ghost n: nat) returns (s: Sums)
    requires ProjectsBelow(t, n) && s0.Of(ReleaseClaims(t)) && s0.Bounded(n)
    ensures s.Of(AllClaims(t, now, without)) && s.Bounded(n)
  {
    s := s0;
    ghost var before, cs := ReleaseClaims(t), ReservationClaims(t, now, without);
    assert before + cs[..0] == before;
    for i := 0 to |t.reservations|
      invariant s.Of(before + cs[..i]) && s.Bounded(n)
    {
      var r := t.reservations[i];
      assert r in t.reservations && before + cs[..i + 1] == before + cs[..i] + [cs[i]];
      if i != without && LiveAt(r, now) {
        s := Accumulate(ReservationClaim(r, now), before + cs[..i], s, n);
      } else {
        SkipNothing(before + cs[..i], s);
      }
    }
    assert cs[..|cs|] == cs;
  }

  /** `committed`: the sums over all rows that count, and the sum of the projects' largest
      storage claims without the excluded project. */
  method Committed(t: Tables, now: int, without: DeploymentId, excluded: Option<ProjectId>, ghost n: nat)
    returns (sum: Totals)
    requires ProjectsBelow(t, n)
    ensures sum == CommittedTotals(t, now, without, excluded, n)
  {
    var s := AddReleases(t, n);
    s := AddReservations(t, now, without, s, n);
    var m: map<ProjectId, nat> := if excluded.Some? then s.projectStorage - {excluded.value} else s.projectStorage;
    BelowIsStorage(m, AllClaims(t, now, without), excluded, n);
    var storage := SumValues(m, n);
    sum := Totals(s.cpuMillis, s.memoryMiB, storage);
  }
}
