/**
 `retentionCandidates`: which releases of all projects may be purged.  Releases stand for
 database rows; within one call a row is named by its index in the list, the way the source
 passes references around.
 */
module Retention {
  import opened Wrappers
  import opened ReleaseState

  type ProjectId = string

  datatype Row = Row(id: Id, projectId: ProjectId, status: Status, createdAt: int, pinned: bool)

  const SUCCESS_AGE := 30 * 24 * 60 * 60 * 1000
  const FAILED_AGE := 24 * 60 * 60 * 1000
  const KEPT := 5

  // ---------------------------------------------------------------- which releases expire

  predicate Successful(rows: seq<Row>, i: int) {
    0 <= i < |rows| && (rows[i].status.ACTIVE? || rows[i].status.SUPERSEDED?)
  }

  predicate Among(rows: seq<Row>, p: ProjectId, i: int) {
    0 <= i < |rows| && rows[i].projectId == p
  }

  /** Newest first; equal dates stay in list order. */
  predicate Before(rows: seq<Row>, i: nat, j: nat)
    requires i < |rows| && j < |rows|
  {
    rows[i].createdAt > rows[j].createdAt || (rows[i].createdAt == rows[j].createdAt && i < j)
  }

  /** The successes of the same project that come before row `i`, protected ones included. */
  ghost function Ahead(rows: seq<Row>, i: nat): set<nat>
    requires i < |rows|
  {
    set j: nat | j < |rows| && Successful(rows, j) && rows[j].projectId == rows[i].projectId && Before(rows, j, i)
  }

  ghost function PinnedAmong(rows: seq<Row>, n: nat): set<Id>
    requires n <= |rows|
  {
    set i | 0 <= i < n && rows[i].pinned :: rows[i].id
  }

  ghost function PinnedIds(rows: seq<Row>): set<Id> { PinnedAmong(rows, |rows|) }

  ghost predicate Expires(rows: seq<Row>, protectedIds: set<Id>, now: int, i: nat)
    requires i < |rows|
  {
    && rows[i].id !in protectedIds
    && (|| (rows[i].status.FAILED? && rows[i].createdAt < now - FAILED_AGE)
        || (Successful(rows, i) && (|Ahead(rows, i)| >= KEPT || rows[i].createdAt < now - SUCCESS_AGE)))
  }

  /** The periods in hours and days: an unprotected release expires a day after a failure, thirty days
      after a success, or as soon as five later successes of its project are there. */
  lemma ExpiresExactly(rows: seq<Row>, protectedIds: set<Id>, now: int, i: nat)
    requires i < |rows|
    ensures var row, hour := rows[i], 3600 * 1000;
            Expires(rows, protectedIds, now, i) <==>
              && row.id !in protectedIds
              && match row.status
                 case FAILED => now - row.createdAt > 24 * hour
                 case ACTIVE | SUPERSEDED => now - row.createdAt > 30 * 24 * hour || |Ahead(rows, i)| > 4
                 case _ => false
  {
  }

  ghost predicate Eligible(rows: seq<Row>, inUse: set<Id>, now: int, id: Id) {
    exists i :: 0 <= i < |rows| && rows[i].id == id && Expires(rows, inUse + PinnedIds(rows), now, i)
  }

  // ---------------------------------------------------------------- sorting

  predicate Increasing(items: seq<nat>) {
    forall a, b :: 0 <= a < b < |items| ==> items[a] < items[b]
  }

  predicate InRange(rows: seq<Row>, items: seq<nat>) {
    forall a :: 0 <= a < |items| ==> items[a] < |rows|
  }

  ghost predicate Sorted(rows: seq<Row>, items: seq<nat>)
    requires InRange(rows, items)
  {
    forall a, b :: 0 <= a < b < |items| ==> Before(rows, items[a], items[b])
  }

  ghost function Elements(items: seq<nat>): set<nat> { set a | 0 <= a < |items| :: items[a] }

  /** A stable sort by date alone, newest first. */
  method NewestFirst(rows: seq<Row>, items: seq<nat>) returns (sorted: seq<nat>)
    requires InRange(rows, items) && Increasing(items)
    ensures InRange(rows, sorted) && Sorted(rows, sorted) && Elements(sorted) == Elements(items)
  {
    sorted := [];
    for n := 0 to |items|
      invariant InRange(rows, sorted) && Sorted(rows, sorted)
      invariant Elements(sorted) == Elements(items[..n])
    {
      var x := items[n];
      var k := |sorted|;
      while k > 0 && rows[sorted[k - 1]].createdAt < rows[x].createdAt
        invariant 0 <= k <= |sorted|
        invariant forall a :: k <= a < |sorted| ==> rows[sorted[a]].createdAt < rows[x].createdAt
      {
        k := k - 1;
      }
      InsertKeepsSorted(rows, sorted, items, n, k);
      sorted := sorted[..k] + [x] + sorted[k..];
    }
    assert items[..|items|] == items;
  }

  lemma InsertKeepsSorted(rows: seq<Row>, sorted: seq<nat>, items: seq<nat>, n: nat, k: nat)
    requires InRange(rows, items) && Increasing(items) && n < |items| && k <= |sorted|
    requires InRange(rows, sorted) && Sorted(rows, sorted) && Elements(sorted) == Elements(items[..n])
    requires k > 0 ==> rows[sorted[k - 1]].createdAt >= rows[items[n]].createdAt
    requires forall a :: k <= a < |sorted| ==> rows[sorted[a]].createdAt < rows[items[n]].createdAt
    ensures var s := sorted[..k] + [items[n]] + sorted[k..];
            InRange(rows, s) && Sorted(rows, s) && Elements(s) == Elements(items[..n + 1])
  {
    var x := items[n];
    var s := sorted[..k] + [x] + sorted[k..];
    forall a | 0 <= a < k ensures Before(rows, sorted[a], x) {
      assert sorted[a] in Elements(sorted);
      if a < k - 1 {
        assert Before(rows, sorted[a], sorted[k - 1]);
      }
    }
    assert Elements(s) == Elements(sorted) + {x} by {
      assert s[k] == x;
      forall a | 0 <= a < |sorted| ensures sorted[a] in Elements(s) {
        assert sorted[a] == if a < k then s[a] else s[a + 1];
      }
    }
    assert Elements(items[..n + 1]) == Elements(items[..n]) + {x} by {
      assert items[..n + 1][n] == x;
      assert forall a :: 0 <= a < n ==> items[..n + 1][a] == items[..n][a];
    }
  }

  /** In a sorted list of all successes of a project, a row's position is its rank. */
  lemma PositionIsRank(rows: seq<Row>, p: ProjectId, sorted: seq<nat>, k: nat)
    requires InRange(rows, sorted) && Sorted(rows, sorted) && k < |sorted|
    requires forall j: nat :: j in Elements(sorted) <==> Among(rows, p, j) && Successful(rows, j)
    ensures |Ahead(rows, sorted[k])| == k
  {
    var i := sorted[k];
    assert i in Elements(sorted);
    forall j: nat ensures j in Ahead(rows, i) <==> j in Elements(sorted[..k]) {
      if j in Ahead(rows, i) {
        assert j in Elements(sorted);
        var a :| 0 <= a < |sorted| && sorted[a] == j;
        assert a > k ==> Before(rows, i, j);
        assert sorted[..k][a] == j;
      }
      if j in Elements(sorted[..k]) {
        var a :| 0 <= a < k && sorted[..k][a] == j;
        assert sorted[a] == j && j in Elements(sorted) && Before(rows, j, i);
      }
    }
    assert Ahead(rows, i) == Elements(sorted[..k]);
    DistinctCount(sorted[..k]);
  }

  lemma {:induction false} DistinctCount(items: seq<nat>)
    requires forall a, b :: 0 <= a < b < |items| ==> items[a] != items[b]
    ensures |Elements(items)| == |items|
  {
    if items != [] {
      var rest, last := items[..|items| - 1], items[|items| - 1];
      DistinctCount(rest);
      assert Elements(items) == Elements(rest) + {last} by {
        assert forall a :: 0 <= a < |rest| ==> items[a] == rest[a];
      }
      assert last !in Elements(rest);
    }
  }

  // ---------------------------------------------------------------- the selection

  /** `items` lists those of the first `n` rows that belong to project `p`, in list order. */
  ghost predicate Lists(rows: seq<Row>, n: nat, p: ProjectId, items: seq<nat>)
    requires n <= |rows|
  {
    InRange(rows, items) && Increasing(items) && forall j: nat :: j in items <==> j < n && Among(rows, p, j)
  }

  ghost predicate IsProject(rows: seq<Row>, p: ProjectId, items: seq<nat>) { Lists(rows, |rows|, p, items) }

  ghost predicate Grouped(rows: seq<Row>, n: nat, byProject: map<ProjectId, seq<nat>>)
    requires n <= |rows|
  {
    && (forall i :: 0 <= i < n ==> rows[i].projectId in byProject)
    && (forall p :: p in byProject ==> Lists(rows, n, p, byProject[p]))
  }

  function ItemsOf(byProject: map<ProjectId, seq<nat>>, p: ProjectId): seq<nat> {
    if p in byProject then byProject[p] else []
  }

  lemma ListOneMore(rows: seq<Row>, p: ProjectId, items: seq<nat>, i: nat)
    requires i < |rows| && Lists(rows, i, p, items)
    ensures Lists(rows, i + 1, p, if rows[i].projectId == p then items + [i] else items)
  {
    forall a | 0 <= a < |items| ensures items[a] < i {
      assert items[a] in items;
    }
    if rows[i].projectId == p {
      var more := items + [i];
      forall j: nat ensures j in more <==> j < i + 1 && Among(rows, p, j) {
        assert j in more <==> j in items || j == i;
      }
    } else {
      assert forall j: nat :: j < i + 1 && Among(rows, p, j) <==> j < i && Among(rows, p, j);
    }
  }

  lemma GroupOneMore(rows: seq<Row>, i: nat, byProject: map<ProjectId, seq<nat>>)
    requires i < |rows| && Grouped(rows, i, byProject)
    ensures var p := rows[i].projectId; Grouped(rows, i + 1, byProject[p := ItemsOf(byProject, p) + [i]])
  {
    var p := rows[i].projectId;
    assert Lists(rows, i, p, ItemsOf(byProject, p));
    ListOneMore(rows, p, ItemsOf(byProject, p), i);
    forall q | q in byProject && q != p ensures Lists(rows, i + 1, q, byProject[q]) {
      ListOneMore(rows, q, byProject[q], i);
    }
  }

  method GroupByProject(rows: seq<Row>, inUse: set<Id>)
    returns (protectedIds: set<Id>, order: seq<ProjectId>, byProject: map<ProjectId, seq<nat>>)
    ensures protectedIds == inUse + PinnedIds(rows)
    ensures Grouped(rows, |rows|, byProject) && forall p :: p in order <==> p in byProject
  {
    protectedIds, order, byProject := inUse, [], map[];
    for i := 0 to |rows|
      invariant protectedIds == inUse + PinnedAmong(rows, i)
      invariant Grouped(rows, i, byProject) && forall p :: p in order <==> p in byProject
    {
      var p := rows[i].projectId;
      GroupOneMore(rows, i, byProject);
      if p !in byProject {
        order := order + [p];
      }
      byProject := byProject[p := ItemsOf(byProject, p) + [i]];
      if rows[i].pinned {
        protectedIds := protectedIds + {rows[i].id};
      }
    }
  }

  ghost predicate Marked(rows: seq<Row>, protectedIds: set<Id>, now: int, p: ProjectId, id: Id) {
    exists i :: Among(rows, p, i) && rows[i].id == id && Expires(rows, protectedIds, now, i)
  }

  method SelectSuccessful(rows: seq<Row>, items: seq<nat>) returns (picked: seq<nat>)
    requires InRange(rows, items) && Increasing(items)
    ensures InRange(rows, picked) && Increasing(picked)
    ensures forall j: nat :: j in Elements(picked) <==> j in items && Successful(rows, j)
  {
    picked := [];
    for n := 0 to |items|
      invariant InRange(rows, picked) && Increasing(picked)
      invariant forall a :: 0 <= a < |picked| ==> exists b :: 0 <= b < n && items[b] == picked[a]
      invariant forall j: nat :: j in picked <==> j in items[..n] && Successful(rows, j)
    {
      assert items[..n + 1] == items[..n] + [items[n]];
      if rows[items[n]].status.ACTIVE? || rows[items[n]].status.SUPERSEDED? {
        picked := picked + [items[n]];
      }
    }
    assert items[..|items|] == items;
  }

  /** One of the first `n` listed rows has this id and expires. */
  ghost predicate PickedAmong(rows: seq<Row>, items: seq<nat>, n: nat, protectedIds: set<Id>, now: int, id: Id)
    requires n <= |items| && InRange(rows, items)
  {
    exists a :: 0 <= a < n && rows[items[a]].id == id && Expires(rows, protectedIds, now, items[a])
  }

  /** One of them does because it has failed. */
  ghost predicate FailedAmong(rows: seq<Row>, items: seq<nat>, n: nat, protectedIds: set<Id>, now: int, id: Id)
    requires n <= |items| && InRange(rows, items)
  {
    exists a :: && 0 <= a < n && rows[items[a]].id == id && rows[items[a]].status.FAILED?
                && Expires(rows, protectedIds, now, items[a])
  }

  /** The successes of one project, sorted, whose position or age marks them. */
  method PickSuccessful(rows: seq<Row>, p: ProjectId, sorted: seq<nat>, protectedIds: set<Id>, now: int,
          before: seq<Id>)
    returns (result: seq<Id>)
    requires InRange(rows, sorted) && Sorted(rows, sorted)
    requires forall j: nat :: j in Elements(sorted) <==> Among(rows, p, j) && Successful(rows, j)
    ensures forall id :: id in result <==>
        id in before || PickedAmong(rows, sorted, |sorted|, protectedIds, now, id)
  {
    result := before;
    for k := 0 to |sorted|
      invariant forall id :: id in result <==>
          id in before || PickedAmong(rows, sorted, k, protectedIds, now, id)
    {
      PositionIsRank(rows, p, sorted, k);
      assert sorted[k] in Elements(sorted);
      var row := rows[sorted[k]];
      ghost var chosen := row.id !in protectedIds && (k >= KEPT || row.createdAt < now - SUCCESS_AGE);
      assert chosen <==> Expires(rows, protectedIds, now, sorted[k]);
      if row.id !in protectedIds && (k >= KEPT || row.createdAt < now - SUCCESS_AGE) {
        result := result + [row.id];
      }
    }
  }

  method PickFailed(rows: seq<Row>, items: seq<nat>, protectedIds: set<Id>, now: int, before: seq<Id>)
    returns (result: seq<Id>)
    requires InRange(rows, items)
    ensures forall id :: id in result <==>
        id in before || FailedAmong(rows, items, |items|, protectedIds, now, id)
  {
    result := before;
    for k := 0 to |items|
      invariant forall id :: id in result <==>
          id in before || FailedAmong(rows, items, k, protectedIds, now, id)
    {
      var row := rows[items[k]];
      if row.status.FAILED? && row.createdAt < now - FAILED_AGE && row.id !in protectedIds {
        result := result + [row.id];
      }
    }
  }

  method PickProject(rows: seq<Row>, p: ProjectId, items: seq<nat>, protectedIds: set<Id>, now: int, before: seq<Id>)
    returns (result: seq<Id>)
    requires IsProject(rows, p, items)
    ensures forall id :: id in result <==> id in before || Marked(rows, protectedIds, now, p, id)
  {
    var picked := SelectSuccessful(rows, items);
    var sorted := NewestFirst(rows, picked);
    assert forall j: nat :: j in Elements(sorted) <==> Among(rows, p, j) && Successful(rows, j);
    var some := PickSuccessful(rows, p, sorted, protectedIds, now, before);
    result := PickFailed(rows, items, protectedIds, now, some);
    forall id ensures id in result <==> id in before || Marked(rows, protectedIds, now, p, id) {
      if Marked(rows, protectedIds, now, p, id) {
        var i: nat :| Among(rows, p, i) && rows[i].id == id && Expires(rows, protectedIds, now, i);
        if Successful(rows, i) {
          assert i in Elements(sorted);
          var a :| 0 <= a < |sorted| && sorted[a] == i;
        } else {
          assert i in items;
          var a :| 0 <= a < |items| && items[a] == i;
        }
      }
      if id in result && id !in before {
        if id in some {
          var a :| 0 <= a < |sorted| && rows[sorted[a]].id == id && Expires(rows, protectedIds, now, sorted[a]);
          assert sorted[a] in Elements(sorted);
        } else {
          var a :| 0 <= a < |items| && rows[items[a]].id == id && Expires(rows, protectedIds, now, items[a]);
          assert items[a] in items;
        }
      }
    }
  }

  predicate NoDuplicates(ids: seq<Id>) {
    forall a, b :: 0 <= a < b < |ids| ==> ids[a] != ids[b]
  }

  method Distinct(ids: seq<Id>) returns (result: seq<Id>)
    ensures NoDuplicates(result) && forall id :: id in result <==> id in ids
  {
    result := [];
    for n := 0 to |ids|
      invariant NoDuplicates(result) && forall id :: id in result <==> id in ids[..n]
    {
      assert ids[..n + 1] == ids[..n] + [ids[n]];
      if ids[n] !in result {
        result := result + [ids[n]];
      }
    }
    assert ids[..|ids|] == ids;
  }

  /** The releases that may be purged: exactly the eligible ones, each once. */
  method RetentionCandidates(rows: seq<Row>, activeIds: set<Id>, candidateIds: set<Id>, now: int)
    returns (result: seq<Id>)
    ensures NoDuplicates(result)
    ensures forall id :: id in result <==> Eligible(rows, activeIds + candidateIds, now, id)
  {
    var protectedIds, order, byProject := GroupByProject(rows, activeIds + candidateIds);
    var found: seq<Id> := [];
    for n := 0 to |order|
      invariant forall id :: id in found <==> exists q :: 0 <= q < n && Marked(rows, protectedIds, now, order[q], id)
    {
      var p := order[n];
      assert p in order;
      found := PickProject(rows, p, byProject[p], protectedIds, now, found);
    }
    result := Distinct(found);
    forall id ensures id in found <==> Eligible(rows, activeIds + candidateIds, now, id) {
      if Eligible(rows, activeIds + candidateIds, now, id) {
        var i :| 0 <= i < |rows| && rows[i].id == id && Expires(rows, protectedIds, now, i);
        assert rows[i].projectId in order;
        var q :| 0 <= q < |order| && order[q] == rows[i].projectId;
        assert Among(rows, order[q], i);
        assert Marked(rows, protectedIds, now, order[q], id);
      }
    }
  }

  // ---------------------------------------------------------------- what is left

  ghost function Survivors(rows: seq<Row>, gone: set<Id>): (rest: seq<Row>) {
    if rows == [] then []
    else
      var last := rows[|rows| - 1];
      Survivors(rows[..|rows| - 1], gone) + if last.id in gone then [] else [last]
  }

  /** Where each survivor stood. */
  ghost function Places(rows: seq<Row>, gone: set<Id>): seq<nat> {
    if rows == [] then []
    else
      var last := rows[|rows| - 1];
      Places(rows[..|rows| - 1], gone) + if last.id in gone then [] else [|rows| - 1]
  }

  ghost predicate Fits(rows: seq<Row>, gone: set<Id>, rest: seq<Row>, at: seq<nat>) {
    && |rest| == |at| && InRange(rows, at) && Increasing(at)
    && (forall k :: 0 <= k < |at| ==> rest[k] == rows[at[k]] && rest[k].id !in gone)
    && (forall i: nat :: i < |rows| && rows[i].id !in gone ==> i in at)
  }

  lemma FitOneMore(init: seq<Row>, last: Row, gone: set<Id>, rest: seq<Row>, at: seq<nat>)
    requires Fits(init, gone, rest, at)
    ensures if last.id in gone then Fits(init + [last], gone, rest, at)
            else Fits(init + [last], gone, rest + [last], at + [|init|])
  {
  }

  lemma {:induction false} PlacesFit(rows: seq<Row>, gone: set<Id>)
    ensures Fits(rows, gone, Survivors(rows, gone), Places(rows, gone))
  {
    if rows != [] {
      var init, last := rows[..|rows| - 1], rows[|rows| - 1];
      PlacesFit(init, gone);
      FitOneMore(init, last, gone, Survivors(init, gone), Places(init, gone));
      assert rows == init + [last];
    }
  }

  lemma {:induction false} ImageFits(s: set<nat>, at: seq<nat>, t: set<nat>)
    requires Increasing(at) && forall k :: k in s ==> k < |at| && at[k] in t
    ensures |s| <= |t|
  {
    if s != {} {
      var k :| k in s;
      assert forall j :: j in s - {k} ==> at[j] != at[k] && at[j] in t - {at[k]};
      ImageFits(s - {k}, at, t - {at[k]});
    }
  }

  /** Taking rows out never moves a row back in the ranking. */
  lemma RankOnlyImproves(rows: seq<Row>, gone: set<Id>, k: nat)
    requires k < |Survivors(rows, gone)|
    ensures k < |Places(rows, gone)| && InRange(rows, Places(rows, gone))
    ensures |Ahead(Survivors(rows, gone), k)| <= |Ahead(rows, Places(rows, gone)[k])|
  {
    PlacesFit(rows, gone);
    var rest, at := Survivors(rows, gone), Places(rows, gone);
    forall j | j in Ahead(rest, k) ensures at[j] in Ahead(rows, at[k]) {
      assert rest[j] == rows[at[j]] && rest[k] == rows[at[k]];
    }
    ImageFits(Ahead(rest, k), at, Ahead(rows, at[k]));
  }

  lemma PinnedSurvive(rows: seq<Row>, inUse: set<Id>, now: int, gone: set<Id>)
    requires forall id :: id in gone ==> Eligible(rows, inUse, now, id)
    ensures PinnedIds(Survivors(rows, gone)) == PinnedIds(rows)
  {
    PlacesFit(rows, gone);
    var rest, at := Survivors(rows, gone), Places(rows, gone);
    forall id | id in PinnedIds(rows) ensures id in PinnedIds(rest) {
      var i: nat :| i < |rows| && rows[i].pinned && rows[i].id == id;
      assert i in at;
      var k :| 0 <= k < |at| && at[k] == i;
      assert rest[k].pinned && rest[k].id == id;
    }
  }

  /** Once the selected releases are gone, selecting again at the same time finds nothing. */
  lemma SelectingAgainFindsNothing(rows: seq<Row>, inUse: set<Id>, now: int, gone: set<Id>, id: Id)
    requires forall x :: x in gone <==> Eligible(rows, inUse, now, x)
    ensures !Eligible(Survivors(rows, gone), inUse, now, id)
  {
    PlacesFit(rows, gone);
    PinnedSurvive(rows, inUse, now, gone);
    var rest, at := Survivors(rows, gone), Places(rows, gone);
    forall k | 0 <= k < |rest| ensures !Expires(rest, inUse + PinnedIds(rows), now, k) {
      RankOnlyImproves(rows, gone, k);
      assert rest[k] == rows[at[k]] && rest[k].id !in gone && !Eligible(rows, inUse, now, rest[k].id);
    }
  }

  ghost function UnprotectedSuccesses(rows: seq<Row>, protectedIds: set<Id>, p: ProjectId): set<nat> {
    set i: nat | i < |rows| && rows[i].projectId == p && Successful(rows, i) && rows[i].id !in protectedIds
  }

  lemma {:induction false} Last(rows: seq<Row>, s: set<nat>) returns (m: nat)
    requires s != {} && forall i :: i in s ==> i < |rows|
    ensures m in s && forall i :: i in s && i != m ==> Before(rows, i, m)
  {
    m :| m in s;
    if s != {m} {
      var l := Last(rows, s - {m});
      forall i | i in s && i != m && i != l ensures Before(rows, i, l) {
        assert i in s - {m};
      }
      if Before(rows, m, l) {
        m := l;
      }
    }
  }

  /** At most five unprotected successes of a project are left. */
  lemma FewSuccessesRemain(rows: seq<Row>, inUse: set<Id>, now: int, gone: set<Id>, p: ProjectId)
    requires forall x :: x in gone <==> Eligible(rows, inUse, now, x)
    ensures |UnprotectedSuccesses(Survivors(rows, gone), inUse + PinnedIds(rows), p)| <= KEPT
  {
    var rest := Survivors(rows, gone);
    PinnedSurvive(rows, inUse, now, gone);
    var s := UnprotectedSuccesses(rest, inUse + PinnedIds(rows), p);
    if s != {} {
      var m := Last(rest, s);
      SelectingAgainFindsNothing(rows, inUse, now, gone, rest[m].id);
      assert !Expires(rest, inUse + PinnedIds(rest), now, m);
      SubsetIsNoLarger(s - {m}, Ahead(rest, m));
    }
  }
}
