/**
 Admission over whole runs on one VPS: what counted releases and pending reservations lay
 claim to never exceeds the machine's memory and disk less their reserves, although one
 deployment's reservation and release are counted twice for a while, and although a
 project's own earlier storage claims are left out of the test.
 */
module Admission {
  import opened Wrappers
  import opened Capacity

  const SIX_HOURS := 6 * 60 * 60 * 1000

  /** `backing[d]` is the release that the current attempt of deployment `d` has recorded. */
  datatype State = State(
    t: Tables, now: int, projectOf: seq<ProjectId>, backing: seq<Option<nat>>, projects: nat, totalMemory: nat,
        totalDisk: nat)

  datatype Label =
    | Enroll(project: ProjectId)                                   // a deployment is created
    | Reserve(d: DeploymentId, policy: Policy, snapshot: Snapshot)  // reserve(), when it admits the policy
    | Begin(d: DeploymentId, limited: bool)                        // the attempt's release row
    | Record(r: nat)                                               // recordRuntime
    | Promote(r: nat, status: Status)                              // CANDIDATE, READY, ACTIVATING, ACTIVE
    | Retire(r: nat, status: Status)                               // SUPERSEDED or FAILED
    | ReleaseReservation(d: DeploymentId)
    | Elapse(dt: nat)

  predicate Backed(s: State, d: DeploymentId) {
    d < |s.backing| && s.backing[d].Some? && s.backing[d].value < |s.t.releases|
        && Counts(s.t.releases[s.backing[d].value])
  }

  /** Reservations whose deployment has no counted release of its current attempt. */
  function Pending(s: State): (cs: seq<Claim>)
    ensures |cs| == |s.t.reservations|
  {
    seq(|s.t.reservations|, i requires 0 <= i < |s.t.reservations| =>
      if Backed(s, i) then NOTHING else ReservationClaim(s.t.reservations[i], s.now))
  }

  /** Counted releases, then pending reservations. */
  function Held(s: State): (cs: seq<Claim>)
    ensures |cs| == |s.t.releases| + |s.t.reservations|
  {
    ReleaseClaims(s.t) + Pending(s)
  }

  /** The row and the reservation ask for the same share. */
  predicate SameShare(r: ReleaseRow, v: ReservationRow) {
    r.project == v.project && r.cpuMillis == v.cpuMillis && r.memoryMiB == v.memoryMiB && r.storageMiB == v.storageMiB
  }

  predicate Enabled(s: State, l: Label) {
    match l
    case Enroll(project) => project < s.projects
    case Reserve(d, policy, snapshot) =>
      && d < |s.t.reservations| && d < |s.projectOf| && s.projectOf[d] < s.projects
      && snapshot.totalMemoryMiB == s.totalMemory && snapshot.totalDiskMiB == s.totalDisk
      && CapacityFailure(snapshot, CommittedTotals(s.t, s.now, d, Some(s.projectOf[d]), s.projects), policy).None?
    case Begin(d, limited) => d < |s.t.reservations| && d < |s.projectOf| && (limited ==> s.t.reservations[d].Some?)
    case Record(r) =>
      && r < |s.t.releases| && s.t.releases[r].status.BUILDING?
      && var d := s.t.releases[r].deployment;
         d < |s.t.reservations| && d < |s.backing|
         && (s.t.releases[r].limited ==>
               s.backing[d].None? && LiveAt(s.t.reservations[d], s.now)
                   && SameShare(s.t.releases[r], s.t.reservations[d].value))
    case Promote(r, status) =>
      r < |s.t.releases| && !status.BUILDING? && !status.SUPERSEDED? && !status.FAILED?
      && (s.t.releases[r].limited && !s.t.releases[r].purged ==> Counts(s.t.releases[r]))
    case Retire(r, status) => r < |s.t.releases| && (status.SUPERSEDED? || status.FAILED?)
    case ReleaseReservation(d) => d < |s.t.reservations|
    case Elapse(_) => true
  }

  function SetStatus(s: State, r: nat, status: Status): State
    requires r < |s.t.releases|
  {
    s.(t := s.t.(releases := s.t.releases[r := s.t.releases[r].(status := status)]))
  }

  function Do(s: State, l: Label): State
    requires Enabled(s, l)
  {
    match l
    case Enroll(project) =>
      s.(t := s.t.(reservations := s.t.reservations + [None]), projectOf := s.projectOf + [project],
          backing := s.backing + [None])
    case Reserve(d, policy, _) =>
      var row := ReservationRow(s.projectOf[d], true, s.now + SIX_HOURS, policy.cpuMillis, policy.memoryMiB,
          policy.storageMiB);
      s.(t := s.t.(reservations := s.t.reservations[d := Some(row)]),
         backing := if d < |s.backing| then s.backing[d := None] else s.backing)
    case Begin(d, limited) =>
      var share := if s.t.reservations[d].Some? then s.t.reservations[d].value
          else ReservationRow(s.projectOf[d], false, 0, 0, 0, 0);
      s.(t := s.t.(releases := s.t.releases + [ReleaseRow(d, share.project, limited, false, BUILDING,
                                                           share.cpuMillis, share.memoryMiB, share.storageMiB)]))
    case Record(r) =>
      var d := s.t.releases[r].deployment;
      SetStatus(s, r, CANDIDATE).(backing := if s.t.releases[r].limited then s.backing[d := Some(r)] else s.backing)
    case Promote(r, status) => SetStatus(s, r, status)
    case Retire(r, status) => SetStatus(s, r, status)
    case ReleaseReservation(d) =>
      if s.t.reservations[d].None? then s
      else s.(t := s.t.(reservations := s.t.reservations[d := Some(s.t.reservations[d].value.(reserved := false))]))
    case Elapse(dt) => s.(now := s.now + dt)
  }

  // ---------------------------------------------------------------- invariant

  predicate Shaped(s: State) {
    && |s.projectOf| == |s.backing| == |s.t.reservations|
    && (forall d :: 0 <= d < |s.projectOf| ==> s.projectOf[d] < s.projects)
    && (forall d :: 0 <= d < |s.projectOf| && s.t.reservations[d].Some? ==>
        s.t.reservations[d].value.project == s.projectOf[d])
    && (forall r :: 0 <= r < |s.t.releases| ==> s.t.releases[r].project < s.projects)
    && (forall d :: 0 <= d < |s.backing| && s.backing[d].Some? ==>
          var r := s.backing[d].value;
          && r < |s.t.releases| && s.t.releases[r].deployment == d
          && s.t.reservations[d].Some? && SameShare(s.t.releases[r], s.t.reservations[d].value))
  }

  ghost predicate Within(s: State) {
    && Memory(Held(s)) <= MemoryCap(s.totalMemory)
    && Storage(Held(s), s.projects, None) <= DiskCap(s.totalDisk)
  }

  ghost predicate Inv(s: State) { Shaped(s) && Within(s) }

  // ---------------------------------------------------------------- arithmetic of claims

  lemma {:induction false} MemoryConcat(a: seq<Claim>, b: seq<Claim>)
    ensures Memory(a + b) == Memory(a) + Memory(b)
  {
    if b == [] {
      assert a + b == a;
    } else {
      assert (a + b)[..|a + b| - 1] == a + b[..|b| - 1];
      MemoryConcat(a, b[..|b| - 1]);
    }
  }

  lemma {:induction false} MemoryUpdate(cs: seq<Claim>, k: nat, c: Claim)
    requires k < |cs|
    ensures Memory(cs[k := c]) == Memory(cs) - cs[k].memoryMiB + c.memoryMiB
  {
    var n := |cs| - 1;
    if k == n {
      assert cs[k := c][..n] == cs[..n];
    } else {
      assert cs[k := c][..n] == cs[..n][k := c];
      MemoryUpdate(cs[..n], k, c);
    }
  }

  lemma {:induction false} MemoryBelow(a: seq<Claim>, b: seq<Claim>)
    requires |a| == |b| && forall i :: 0 <= i < |a| ==> a[i].memoryMiB <= b[i].memoryMiB
    ensures Memory(a) <= Memory(b)
  {
    if a != [] {
      MemoryBelow(a[..|a| - 1], b[..|b| - 1]);
    }
  }

  lemma {:induction false} PeakCovers(cs: seq<Claim>, p: ProjectId, i: nat)
    requires i < |cs| && cs[i].project == p
    ensures cs[i].storageMiB <= Peak(cs, p)
  {
    if i < |cs| - 1 {
      PeakCovers(cs[..|cs| - 1], p, i);
    }
  }

  lemma {:induction false} PeakIsLeast(cs: seq<Claim>, p: ProjectId, bound: nat)
    requires forall i :: 0 <= i < |cs| && cs[i].project == p ==> cs[i].storageMiB <= bound
    ensures Peak(cs, p) <= bound
  {
    if cs != [] {
      PeakIsLeast(cs[..|cs| - 1], p, bound);
    }
  }

  /** Every claim of `a` is nothing or is also made in `b`. */
  ghost predicate Covered(a: seq<Claim>, b: seq<Claim>) {
    forall i :: 0 <= i < |a| ==> a[i].storageMiB == 0 || a[i] in b
  }

  lemma CoveredPeak(a: seq<Claim>, b: seq<Claim>, p: ProjectId)
    requires Covered(a, b)
    ensures Peak(a, p) <= Peak(b, p)
  {
    forall i | 0 <= i < |a| && a[i].project == p ensures a[i].storageMiB <= Peak(b, p) {
      if a[i].storageMiB != 0 {
        var j :| 0 <= j < |b| && b[j] == a[i];
        PeakCovers(b, p, j);
      }
    }
    PeakIsLeast(a, p, Peak(b, p));
  }

  lemma {:induction false} StorageBelow(a: seq<Claim>, b: seq<Claim>, n: nat, without: Option<ProjectId>)
    requires forall p: nat :: p < n && without != Some(p) ==> Peak(a, p) <= Peak(b, p)
    ensures Storage(a, n, without) <= Storage(b, n, without)
  {
    if n > 0 {
      StorageBelow(a, b, n - 1, without);
    }
  }

  lemma {:induction false} StorageSplit(cs: seq<Claim>, n: nat, p: ProjectId)
    ensures Storage(cs, n, None) == Storage(cs, n, Some(p)) + if p < n then Peak(cs, p) else 0
  {
    if n > 0 {
      StorageSplit(cs, n - 1, p);
    }
  }

  ghost predicate Shrinks(a: seq<Claim>, b: seq<Claim>) { Memory(a) <= Memory(b) && Covered(a, b) }

  lemma ShrinkingKeepsWithin(s: State, s': State)
    requires Within(s) && Shrinks(Held(s'), Held(s))
    requires s'.projects == s.projects && s'.totalMemory == s.totalMemory && s'.totalDisk == s.totalDisk
    ensures Within(s')
  {
    forall p: nat | p < s.projects ensures Peak(Held(s'), p) <= Peak(Held(s), p) {
      CoveredPeak(Held(s'), Held(s), p);
    }
    StorageBelow(Held(s'), Held(s), s.projects, None);
  }

  /** Each position keeps its claim or gives it up. */
  lemma LoweredShrinks(a: seq<Claim>, b: seq<Claim>)
    requires |a| == |b| && forall i :: 0 <= i < |a| ==> a[i] == b[i] || a[i] == NOTHING
    ensures Shrinks(a, b)
  {
    MemoryBelow(a, b);
  }

  /** A claim moves from one position to an empty one, or is given up. */
  lemma MovedShrinks(b: seq<Claim>, i: nat, j: nat, c: Claim)
    requires i < |b| && j < |b| && i != j && b[j] == NOTHING && (c == b[i] || c == NOTHING)
    ensures Shrinks(b[i := NOTHING][j := c], b)
  {
    MemoryUpdate(b, i, NOTHING);
    MemoryUpdate(b[i := NOTHING], j, c);
    assert c == b[i] ==> c in b;
  }

  // ---------------------------------------------------------------- steps

  lemma LoweringKeepsWithin(s: State, s': State)
    requires Within(s) && s'.projects == s.projects && s'.totalMemory == s.totalMemory && s'.totalDisk == s.totalDisk
    requires |Held(s')| == |Held(s)| && forall i :: 0 <= i < |Held(s)| ==>
        Held(s')[i] == Held(s)[i] || Held(s')[i] == NOTHING
    ensures Within(s')
  {
    LoweredShrinks(Held(s'), Held(s));
    ShrinkingKeepsWithin(s, s');
  }

  lemma InsertNothingShrinks(b: seq<Claim>, k: nat)
    requires k <= |b|
    ensures Shrinks(b[..k] + [NOTHING] + b[k..], b)
  {
    MemoryConcat(b[..k] + [NOTHING], b[k..]);
    MemoryConcat(b[..k], [NOTHING]);
    MemoryConcat(b[..k], b[k..]);
    assert b[..k] + b[k..] == b;
    assert Memory([NOTHING]) == 0;
  }

  lemma EnrollGrows(s: State, project: ProjectId)
    requires Shaped(s) && Enabled(s, Enroll(project))
    ensures Held(Do(s, Enroll(project))) == Held(s)[..|Held(s)|] + [NOTHING] + Held(s)[|Held(s)|..]
  {
  }

  lemma BeginGrows(s: State, d: DeploymentId, limited: bool)
    requires Shaped(s) && Enabled(s, Begin(d, limited))
    ensures Held(Do(s, Begin(d, limited))) == Held(s)[..|s.t.releases|] + [NOTHING] + Held(s)[|s.t.releases|..]
  {
    var s' := Do(s, Begin(d, limited));
    assert forall i: nat :: i < |s.t.reservations| ==> Backed(s', i) == Backed(s, i);
    assert Pending(s') == Pending(s);
    assert ReleaseClaims(s'.t) == ReleaseClaims(s.t) + [NOTHING];
  }

  lemma UpdateBoth(a: seq<Claim>, b: seq<Claim>, r: nat, x: Claim, d: nat, y: Claim)
    requires r < |a| && d < |b|
    ensures a[r := x] + b[d := y] == (a + b)[|a| + d := y][r := x]
    ensures a[r := x] + b[d := y] == (a + b)[r := x][|a| + d := y]
  {
  }

  /** Recording a limited release moves its reservation's claim to the release. */
  lemma RecordMoves(s: State, r: nat)
    requires Shaped(s) && Enabled(s, Record(r)) && s.t.releases[r].limited && !s.t.releases[r].purged
    ensures var k := |s.t.releases| + s.t.releases[r].deployment;
            && Held(s)[r] == NOTHING
            && Held(Do(s, Record(r))) == Held(s)[k := NOTHING][r := Held(s)[k]]
  {
    var s' := Do(s, Record(r));
    var d := s.t.releases[r].deployment;
    var c := Pending(s)[d];
    assert forall i: nat :: i < |s.t.reservations| && i != d ==> Backed(s', i) == Backed(s, i);
    assert Pending(s') == Pending(s)[d := NOTHING];
    assert ReleaseClaims(s'.t) == ReleaseClaims(s.t)[r := c];
    UpdateBoth(ReleaseClaims(s.t), Pending(s), r, c, d, NOTHING);
  }

  /** A release the policy does not limit, or that is purged, claims nothing when recorded. */
  lemma RecordLowers(s: State, r: nat)
    requires Shaped(s) && Enabled(s, Record(r)) && (!s.t.releases[r].limited || s.t.releases[r].purged)
    ensures forall i :: 0 <= i < |Held(s)| ==>
        Held(Do(s, Record(r)))[i] == Held(s)[i] || Held(Do(s, Record(r)))[i] == NOTHING
  {
    var s' := Do(s, Record(r));
    assert forall i: nat :: i < |s.t.reservations| ==> Backed(s', i) == Backed(s, i);
  }

  lemma MovingKeepsWithin(s: State, s': State, i: nat, j: nat, c: Claim)
    requires Within(s) && s'.projects == s.projects && s'.totalMemory == s.totalMemory && s'.totalDisk == s.totalDisk
    requires i < |Held(s)| && j < |Held(s)| && i != j && Held(s)[j] == NOTHING && (c == Held(s)[i] || c == NOTHING)
    requires Held(s') == Held(s)[i := NOTHING][j := c]
    ensures Within(s')
  {
    MovedShrinks(Held(s), i, j, c);
    ShrinkingKeepsWithin(s, s');
  }

  lemma RecordKeepsWithin(s: State, r: nat)
    requires Inv(s) && Enabled(s, Record(r))
    ensures Within(Do(s, Record(r)))
  {
    var k := |s.t.releases| + s.t.releases[r].deployment;
    if s.t.releases[r].limited && !s.t.releases[r].purged {
      RecordMoves(s, r);
      MovingKeepsWithin(s, Do(s, Record(r)), k, r, Held(s)[k]);
    } else {
      RecordLowers(s, r);
      LoweringKeepsWithin(s, Do(s, Record(r)));
    }
  }

  /** A retired release gives its claim back to the reservation it came from, if that is live. */
  lemma RetireMoves(s: State, r: nat, status: Status)
    requires Shaped(s) && Enabled(s, Retire(r, status)) && Counts(s.t.releases[r])
    requires s.t.releases[r].deployment < |s.backing| && s.backing[s.t.releases[r].deployment] == Some(r)
    ensures var k := |s.t.releases| + s.t.releases[r].deployment;
            var c := Held(Do(s, Retire(r, status)))[k];
            && Held(s)[k] == NOTHING && (c == Held(s)[r] || c == NOTHING)
            && Held(Do(s, Retire(r, status))) == Held(s)[r := NOTHING][k := c]
  {
    var s' := Do(s, Retire(r, status));
    var d := s.t.releases[r].deployment;
    var c := Pending(s')[d];
    assert forall i: nat :: i < |s.t.reservations| && i != d ==> Backed(s', i) == Backed(s, i);
    assert Pending(s') == Pending(s)[d := c] && c == ReservationClaim(s.t.reservations[d], s.now);
    assert ReleaseClaims(s'.t) == ReleaseClaims(s.t)[r := NOTHING];
    UpdateBoth(ReleaseClaims(s.t), Pending(s), r, NOTHING, d, c);
  }

  lemma RetireLowers(s: State, r: nat, status: Status)
    requires Shaped(s) && Enabled(s, Retire(r, status))
    requires !(Counts(s.t.releases[r]) && s.t.releases[r].deployment < |s.backing|
        && s.backing[s.t.releases[r].deployment] == Some(r))
    ensures forall i :: 0 <= i < |Held(s)| ==>
              Held(Do(s, Retire(r, status)))[i] == Held(s)[i] || Held(Do(s, Retire(r, status)))[i] == NOTHING
  {
    var s' := Do(s, Retire(r, status));
    assert forall i: nat :: i < |s.t.reservations| ==> Backed(s', i) == Backed(s, i);
  }

  lemma RetireKeepsWithin(s: State, r: nat, status: Status)
    requires Inv(s) && Enabled(s, Retire(r, status))
    ensures Within(Do(s, Retire(r, status)))
  {
    var d := s.t.releases[r].deployment;
    var s' := Do(s, Retire(r, status));
    if Counts(s.t.releases[r]) && d < |s.backing| && s.backing[d] == Some(r) {
      RetireMoves(s, r, status);
      MovingKeepsWithin(s, s', r, |s.t.releases| + d, Held(s')[|s.t.releases| + d]);
    } else {
      RetireLowers(s, r, status);
      LoweringKeepsWithin(s, s');
    }
  }

  /** What everyone but deployment `d` is counted for in its admission test. */
  function Others(s: State, d: DeploymentId): seq<Claim> { AllClaims(s.t, s.now, d) }

  /** `a` claims `c` at position `k` and elsewhere no more than `b`. */
  ghost predicate OneMore(a: seq<Claim>, b: seq<Claim>, k: nat, c: Claim) {
    && k < |a| == |b| && a[k] == c
    && forall i :: 0 <= i < |a| && i != k ==> a[i] == b[i] || a[i] == NOTHING
  }

  lemma ReserveAddsOne(s: State, d: DeploymentId, policy: Policy, snapshot: Snapshot)
    requires Shaped(s) && Enabled(s, Reserve(d, policy, snapshot))
    ensures var c := Claim(s.projectOf[d], policy.cpuMillis, policy.memoryMiB, policy.storageMiB);
            var held := Held(Do(s, Reserve(d, policy, snapshot)));
            && OneMore(held, Others(s, d), |s.t.releases| + d, c)
            && OneMore(held, Held(s), |s.t.releases| + d, c)
            && Others(s, d)[|s.t.releases| + d] == NOTHING
  {
    var s' := Do(s, Reserve(d, policy, snapshot));
    assert forall i: nat :: i < |s.t.reservations| && i != d ==> Backed(s', i) == Backed(s, i);
  }

  lemma OneMoreMemory(a: seq<Claim>, b: seq<Claim>, k: nat, c: Claim)
    requires OneMore(a, b, k, c) && b[k] == NOTHING
    ensures Memory(a) <= Memory(b) + c.memoryMiB
  {
    MemoryBelow(a[k := NOTHING], b);
    MemoryUpdate(a, k, NOTHING);
  }

  /** The new claim is the project's largest: the test has compared it with all others. */
  lemma LargestClaimIsTested(a: seq<Claim>, others: seq<Claim>, k: nat, c: Claim, n: nat)
    requires OneMore(a, others, k, c) && c.project < n && c.storageMiB >= Peak(a, c.project)
    ensures Storage(a, n, None) <= Storage(others, n, Some(c.project)) + c.storageMiB
  {
    StorageSplit(a, n, c.project);
    forall q: nat | q < n && Some(c.project) != Some(q) ensures Peak(a, q) <= Peak(others, q) {
      OthersPeak(a, others, k, q);
    }
    StorageBelow(a, others, n, Some(c.project));
  }

  /** An earlier claim of the project is larger: the sum of peaks has not grown. */
  lemma SmallerClaimChangesNothing(a: seq<Claim>, before: seq<Claim>, k: nat, c: Claim, n: nat)
    requires OneMore(a, before, k, c) && c.storageMiB < Peak(a, c.project)
    ensures Storage(a, n, None) <= Storage(before, n, None)
  {
    forall q: nat | q < n ensures Peak(a, q) <= Peak(before, q) {
      if q == c.project {
        EarlierPeak(a, before, k, q);
      } else {
        OthersPeak(a, before, k, q);
      }
    }
    StorageBelow(a, before, n, None);
  }

  lemma ReserveKeepsWithin(s: State, d: DeploymentId, policy: Policy, snapshot: Snapshot)
    requires Inv(s) && Enabled(s, Reserve(d, policy, snapshot))
    ensures Within(Do(s, Reserve(d, policy, snapshot)))
  {
    var held, k := Held(Do(s, Reserve(d, policy, snapshot))), |s.t.releases| + d;
    var c := Claim(s.projectOf[d], policy.cpuMillis, policy.memoryMiB, policy.storageMiB);
    ReserveAddsOne(s, d, policy, snapshot);
    OneMoreMemory(held, Others(s, d), k, c);
    if c.storageMiB >= Peak(held, c.project) {
      LargestClaimIsTested(held, Others(s, d), k, c, s.projects);
    } else {
      SmallerClaimChangesNothing(held, Held(s), k, c, s.projects);
    }
  }

  /** Away from position `k` nothing is claimed beyond `b`. */
  lemma OthersPeak(a: seq<Claim>, b: seq<Claim>, k: nat, q: ProjectId)
    requires k < |a| == |b| && a[k].project != q
    requires forall i :: 0 <= i < |a| && i != k ==> a[i] == b[i] || a[i] == NOTHING
    ensures Peak(a, q) <= Peak(b, q)
  {
    forall i | 0 <= i < |a| && a[i].project == q ensures a[i].storageMiB <= Peak(b, q) {
      if a[i] == b[i] { PeakCovers(b, q, i); }
    }
    PeakIsLeast(a, q, Peak(b, q));
  }

  lemma EarlierPeak(a: seq<Claim>, b: seq<Claim>, k: nat, p: ProjectId)
    requires k < |a| == |b| && a[k].project == p && a[k].storageMiB < Peak(a, p)
    requires forall i :: 0 <= i < |a| && i != k ==> a[i] == b[i] || a[i] == NOTHING
    ensures Peak(a, p) <= Peak(b, p)
  {
    var rest := a[k := NOTHING];
    LoweredShrinks(rest, b);
    CoveredPeak(rest, b, p);
    var bound := Max(Peak(rest, p), a[k].storageMiB);
    forall i | 0 <= i < |a| && a[i].project == p ensures a[i].storageMiB <= bound {
      if i != k {
        assert rest[i] == a[i];
        PeakCovers(rest, p, i);
      }
    }
    PeakIsLeast(a, p, bound);
  }

  /** Steps that only let go of claims, or change none. */
  lemma QuietStepLowers(s: State, l: Label)
    requires Shaped(s) && Enabled(s, l) && (l.Promote? || l.ReleaseReservation? || l.Elapse?)
    ensures |Held(Do(s, l))| == |Held(s)|
    ensures forall i :: 0 <= i < |Held(s)| ==> Held(Do(s, l))[i] == Held(s)[i] || Held(Do(s, l))[i] == NOTHING
  {
    assert forall i: nat :: i < |s.t.reservations| ==> Backed(Do(s, l), i) == Backed(s, i);
  }

  lemma StepKeepsWithin(s: State, l: Label)
    requires Inv(s) && Enabled(s, l)
    ensures Within(Do(s, l))
  {
    match l
    case Enroll(project) =>
      EnrollGrows(s, project);
      InsertNothingShrinks(Held(s), |Held(s)|);
      ShrinkingKeepsWithin(s, Do(s, l));
    case Reserve(d, policy, snapshot) => ReserveKeepsWithin(s, d, policy, snapshot);
    case Begin(d, limited) =>
      BeginGrows(s, d, limited);
      InsertNothingShrinks(Held(s), |s.t.releases|);
      ShrinkingKeepsWithin(s, Do(s, l));
    case Record(r) => RecordKeepsWithin(s, r);
    case Retire(r, status) => RetireKeepsWithin(s, r, status);
    case _ =>
      QuietStepLowers(s, l);
      LoweringKeepsWithin(s, Do(s, l));
  }

  lemma StepKeepsShape(s: State, l: Label)
    requires Shaped(s) && Enabled(s, l)
    ensures Shaped(Do(s, l))
  {
  }

  ghost predicate IsRun(run: seq<State>, ls: seq<Label>) {
    && |run| == |ls| + 1
    && forall i :: 0 <= i < |ls| ==> Enabled(run[i], ls[i]) && run[i + 1] == Do(run[i], ls[i])
  }

  predicate Empty(s: State) { s.t == Tables([], []) && s.projectOf == [] && s.backing == [] }

  lemma {:induction false} RunKeepsInv(run: seq<State>, ls: seq<Label>, i: nat)
    requires IsRun(run, ls) && Empty(run[0]) && i < |run|
    ensures Inv(run[i]) && run[i].totalMemory == run[0].totalMemory && run[i].totalDisk == run[0].totalDisk
            && run[i].projects == run[0].projects
  {
    if i > 0 {
      RunKeepsInv(run, ls, i - 1);
      StepKeepsWithin(run[i - 1], ls[i - 1]);
      StepKeepsShape(run[i - 1], ls[i - 1]);
    } else {
      assert Held(run[0]) == [];
      NothingStored(run[0].projects);
    }
  }

  lemma {:induction false} NothingStored(n: nat)
    ensures Storage([], n, None) == 0
  {
    if n > 0 {
      NothingStored(n - 1);
    }
  }

  // ---------------------------------------------------------------- the promise

  /** Some counted release belongs to deployment `d`. */
  predicate HasCountedRelease(s: State, d: DeploymentId) {
    exists r :: 0 <= r < |s.t.releases| && s.t.releases[r].deployment == d && Counts(s.t.releases[r])
  }

  /** Counted releases, then live reservations of deployments without a counted release. */
  function Declared(s: State): (cs: seq<Claim>)
    ensures |cs| == |s.t.releases| + |s.t.reservations|
  {
    ReleaseClaims(s.t)
    + seq(|s.t.reservations|, i requires 0 <= i < |s.t.reservations| =>
        if HasCountedRelease(s, i) then NOTHING else ReservationClaim(s.t.reservations[i], s.now))
  }

  /** Over every run of reservations, releases, failures, activations and expiries. */
  lemma AdmissionBound(run: seq<State>, ls: seq<Label>, i: nat)
    requires IsRun(run, ls) && Empty(run[0]) && i < |run|
    ensures Memory(Declared(run[i])) <= MemoryCap(run[0].totalMemory)
    ensures Storage(Declared(run[i]), run[0].projects, None) <= DiskCap(run[0].totalDisk)
  {
    RunKeepsInv(run, ls, i);
    var s := run[i];
    forall d: nat | Backed(s, d) && d < |s.t.reservations| ensures HasCountedRelease(s, d) {
      assert s.t.releases[s.backing[d].value].deployment == d;
    }
    LoweredShrinks(Declared(s), Held(s));
    forall p: nat | p < s.projects ensures Peak(Declared(s), p) <= Peak(Held(s), p) {
      CoveredPeak(Declared(s), Held(s), p);
    }
    StorageBelow(Declared(s), Held(s), s.projects, None);
  }

  // ---------------------------------------------------------------- exact conditions

  lemma {:induction false} PeakUpdate(cs: seq<Claim>, k: nat, c: Claim, p: ProjectId)
    requires k < |cs| && cs[k] == NOTHING
    ensures Peak(cs[k := c], p) == Max(Peak(cs, p), if c.project == p then c.storageMiB else 0)
  {
    var n := |cs| - 1;
    if k == n {
      assert cs[k := c][..n] == cs[..n];
    } else {
      assert cs[k := c][..n] == cs[..n][k := c];
      PeakUpdate(cs[..n], k, c, p);
    }
  }

  lemma {:induction false} StorageUpdate(cs: seq<Claim>, k: nat, c: Claim, n: nat)
    requires k < |cs| && cs[k] == NOTHING
    ensures Storage(cs[k := c], n, None)
         == Storage(cs, n, None) + if c.project < n then Max(Peak(cs, c.project), c.storageMiB) - Peak(cs, c.project)
             else 0
  {
    if n > 0 {
      StorageUpdate(cs, k, c, n - 1);
      PeakUpdate(cs, k, c, n - 1);
    }
  }

  lemma UncheckedReleaseIsAdded(s: State, r: nat)
    requires Shaped(s) && r < |s.t.releases| && s.t.releases[r].limited && !s.t.releases[r].purged
        && !Counts(s.t.releases[r])
    requires forall d: nat :: d < |s.backing| && s.backing[d] == Some(r) ==> !LiveAt(s.t.reservations[d], s.now)
    ensures var row, s' := s.t.releases[r], SetStatus(s, r, CANDIDATE);
            && Held(s)[r] == NOTHING
            && Held(s') == Held(s)[r := Claim(row.project, row.cpuMillis, row.memoryMiB, row.storageMiB)]
  {
    var s' := SetStatus(s, r, CANDIDATE);
    assert forall i :: 0 <= i < |Held(s)| && i != r ==> Held(s')[i] == Held(s)[i];
  }

  /** A release that starts to count without a reservation to take its share over from, because
      that has expired or because a rollback makes an earlier release count again, is admitted
      unchecked: it adds all its memory, and as much storage as it claims beyond its project's
      largest claim, so the bounds hold exactly when there happened to be room for both. */
  lemma UncheckedReleaseNeedsRoom(s: State, r: nat)
    requires Inv(s) && r < |s.t.releases| && s.t.releases[r].limited && !s.t.releases[r].purged
        && !Counts(s.t.releases[r])
    requires forall d: nat :: d < |s.backing| && s.backing[d] == Some(r) ==> !LiveAt(s.t.reservations[d], s.now)
    ensures var row, s' := s.t.releases[r], SetStatus(s, r, CANDIDATE);
            var peak := Peak(Held(s), row.project);
            && Memory(Held(s')) == Memory(Held(s)) + row.memoryMiB
            && Storage(Held(s'), s.projects, None)
               == Storage(Held(s), s.projects, None) + Max(peak, row.storageMiB) - peak
            && (Within(s') <==>
                  && Memory(Held(s)) + row.memoryMiB <= MemoryCap(s.totalMemory)
                  && Storage(Held(s), s.projects, None) + Max(peak, row.storageMiB) - peak <= DiskCap(s.totalDisk))
  {
    var row := s.t.releases[r];
    var c := Claim(row.project, row.cpuMillis, row.memoryMiB, row.storageMiB);
    UncheckedReleaseIsAdded(s, r);
    MemoryUpdate(Held(s), r, c);
    StorageUpdate(Held(s), r, c, s.projects);
  }

  lemma {:induction false} NothingClaimed(cs: seq<Claim>)
    requires forall i :: 0 <= i < |cs| ==> cs[i] == NOTHING
    ensures Memory(cs) == 0
  {
    if cs != [] {
      NothingClaimed(cs[..|cs| - 1]);
    }
  }

  const HALF := Policy(0, 50, 0, 0)
  const MACHINE := Snapshot(0, 100, 100, 0, 0)

  /** The start, and what two deployments of one project and a build that outlasts its
      reservation make of it. */
  function Start(): State { State(Tables([], []), 0, [], [], 1, 100, 0) }

  function Overbooking(): seq<Label> {
    [Enroll(0), Enroll(0), Reserve(0, HALF, MACHINE), Begin(0, true), Elapse(SIX_HOURS), Reserve(1, HALF, MACHINE)]
  }

  function Row(expiresAt: int): Option<ReservationRow> { Some(ReservationRow(0, true, expiresAt, 0, 50, 0)) }

  /** The states of that run. */
  function Overbooked(i: nat): State
    requires i <= 6
  {
    var start := Start();
    var slow := ReleaseRow(0, 0, true, false, BUILDING, 0, 50, 0);
    if i == 0 then start
    else if i == 1 then start.(t := Tables([], [None]), projectOf := [0], backing := [None])
    else
      var enrolled := start.(t := Tables([], [None, None]), projectOf := [0, 0], backing := [None, None]);
      if i == 2 then enrolled
      else if i == 3 then enrolled.(t := Tables([], [Row(SIX_HOURS), None]))
      else if i == 4 then enrolled.(t := Tables([slow], [Row(SIX_HOURS), None]))
      else if i == 5 then enrolled.(t := Tables([slow], [Row(SIX_HOURS), None]), now := SIX_HOURS)
      else enrolled.(t := Tables([slow], [Row(SIX_HOURS), Row(2 * SIX_HOURS)]), now := SIX_HOURS)
  }

  lemma OverbookingStep(i: nat)
    requires i < 6 && !Overbooking()[i].Reserve?
    ensures Enabled(Overbooked(i), Overbooking()[i]) && Overbooked(i + 1) == Do(Overbooked(i), Overbooking()[i])
  {
  }

  lemma AdmitsHalf(s: State, d: DeploymentId)
    requires s.totalMemory == 100 && s.totalDisk == 0 && s.projects == 1 && |s.t.reservations| == |s.projectOf| == 2
    requires d < 2 && s.projectOf[d] == 0
    requires forall i :: 0 <= i < |AllClaims(s.t, s.now, d)| ==> AllClaims(s.t, s.now, d)[i] == NOTHING
    ensures Enabled(s, Reserve(d, HALF, MACHINE))
  {
    NothingClaimed(AllClaims(s.t, s.now, d));
    assert Storage(AllClaims(s.t, s.now, d), 1, Some(0)) == 0;
  }

  lemma FirstReservation()
    ensures Enabled(Overbooked(2), Overbooking()[2]) && Overbooked(3) == Do(Overbooked(2), Overbooking()[2])
  {
    AdmitsHalf(Overbooked(2), 0);
  }

  lemma SecondReservation()
    ensures Enabled(Overbooked(5), Overbooking()[5]) && Overbooked(6) == Do(Overbooked(5), Overbooking()[5])
  {
    AdmitsHalf(Overbooked(5), 1);
  }

  function OverbookingRun(): seq<State> { seq(7, i requires 0 <= i < 7 => Overbooked(i)) }

  lemma OverbookingIsRun()
    ensures IsRun(OverbookingRun(), Overbooking()) && Empty(OverbookingRun()[0])
  {
    var run := OverbookingRun();
    forall i | 0 <= i < 6 ensures Enabled(run[i], Overbooking()[i]) && run[i + 1] == Do(run[i], Overbooking()[i]) {
      if i == 2 {
        FirstReservation();
      } else if i == 5 {
        SecondReservation();
      } else {
        OverbookingStep(i);
      }
    }
  }

  lemma LastHeld()
    ensures Memory(Held(Overbooked(6))) == 50
  {
    assert Held(Overbooked(6)) == [NOTHING, NOTHING, NOTHING][2 := Claim(0, 0, 50, 0)];
    NothingClaimed([NOTHING, NOTHING, NOTHING]);
    MemoryUpdate([NOTHING, NOTHING, NOTHING], 2, Claim(0, 0, 50, 0));
  }

  /** Such a state is reachable: once a build has outlasted its six-hour reservation, the freed
      share has been given away, and the build's release then exceeds the machine. */
  lemma ExpiredReservationOverbooks()
    ensures IsRun(OverbookingRun(), Overbooking()) && Empty(OverbookingRun()[0])
    ensures var s := OverbookingRun()[6];
            && s.t.releases[0].limited && !s.t.releases[0].purged && !Counts(s.t.releases[0])
            && !Within(SetStatus(s, 0, CANDIDATE))
  {
    OverbookingIsRun();
    RunKeepsInv(OverbookingRun(), Overbooking(), 6);
    UncheckedReleaseNeedsRoom(Overbooked(6), 0);
    LastHeld();
  }
}
