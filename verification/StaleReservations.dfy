/**
 `releaseStaleReservations`: reservations that have run out, and that no job or attempt of
 their deployment will use, are marked as released.
 */
module StaleReservations {
  import opened Wrappers
  import opened Capacity
  import D = DeploymentJob

  /** `jobs` counts the deployment's QUEUED and RUNNING jobs. */
  datatype Owner = Owner(status: D.DeploymentStatus, jobs: nat)

  predicate UnderWay(status: D.DeploymentStatus) {
    || status.PENDING? || status.CLONING? || status.UPLOADING?
    || status.EXTRACTING? || status.BUILDING? || status.DEPLOYING?
  }

  predicate Releasable(r: Option<ReservationRow>, owner: Owner, now: int) {
    && r.Some? && r.value.reserved && r.value.expiresAt < now
    && owner.jobs == 0 && !UnderWay(owner.status)
  }

  /** Only what has come to an end, or waits for a person or for nothing, gives its share back. */
  lemma UnderWayExactly(status: D.DeploymentStatus)
    ensures UnderWay(status) <==>
              && !status.PREFLIGHT? && !status.AWAITING_PREFLIGHT? && !status.PREFLIGHT_BLOCKED?
              && !status.RUNNING? && !status.PAUSED? && !status.STOPPED? && !status.ROLLED_BACK?
              && !status.SUCCESS? && !status.FAILED? && !status.DELETING? && !status.DELETED?
              && !status.CANCELLED? && !status.CANCELING? && !status.CANCELED?
  {
  }

  function Released(r: Option<ReservationRow>): Option<ReservationRow> {
    if r.None? then None else Some(r.value.(reserved := false))
  }

  method ReleaseStaleReservations(rows: seq<Option<ReservationRow>>, owners: seq<Owner>, now: int)
    returns (result: seq<Option<ReservationRow>>)
    requires |rows| == |owners|
    ensures |result| == |rows|
    ensures forall d :: 0 <= d < |rows| ==>
        result[d] == if Releasable(rows[d], owners[d], now) then Released(rows[d]) else rows[d]
  {
    result := rows;
    for d := 0 to |rows|
      invariant |result| == |rows|
      invariant forall e :: 0 <= e < |rows| ==>
        result[e] == if e < d && Releasable(rows[e], owners[e], now) then Released(rows[e]) else rows[e]
    {
      if Releasable(rows[d], owners[d], now) {
        result := result[d := Some(rows[d].value.(reserved := false))];
      }
    }
  }

  /** Tidying up never makes room: a stale reservation had stopped counting when it expired, so
      every later admission test sees the same sums with or without the clean-up. */
  lemma TidyingFreesNothing(rows: seq<Option<ReservationRow>>, result: seq<Option<ReservationRow>>,
          owners: seq<Owner>, now: int, releases: seq<ReleaseRow>,
          later: int, without: DeploymentId, excluded: Option<ProjectId>, n: nat)
    requires |rows| == |owners| == |result| && later >= now
    requires forall d :: 0 <= d < |rows| ==>
        result[d] == if Releasable(rows[d], owners[d], now) then Released(rows[d]) else rows[d]
    ensures CommittedTotals(Tables(releases, result), later, without, excluded, n)
         == CommittedTotals(Tables(releases, rows), later, without, excluded, n)
  {
    var before := ReservationClaims(Tables(releases, rows), later, without);
    var after := ReservationClaims(Tables(releases, result), later, without);
    forall d | 0 <= d < |rows| ensures after[d] == before[d] {
      assert LiveAt(result[d], later) == LiveAt(rows[d], later);
    }
    assert after == before;
    assert ReleaseClaims(Tables(releases, rows)) == ReleaseClaims(Tables(releases, result));
  }
}
