/**
 `withDeploymentLocks`: a project lease and a VPS lease held around one operation and kept
 alive by a heartbeat.  While the operation runs, time passes, the heartbeat ticks, its two
 renewals reach the store one by one, and other holders use the store.
 */
module DeploymentLocks {
  import opened Leases

  const MIN_TTL := 30000
  const MAX_TTL := 3600000

  /** The heartbeat interval. */
  function Period(ttl: nat): nat { if ttl / 3 < 10000 then 10000 else ttl / 3 }

  /** Three heartbeats fit into every lease the configuration allows, with no slack to give
      away: a longer interval would already fail at the shortest lease. */
  lemma ThreePeriodsFit(ttl: nat)
    requires MIN_TTL <= ttl <= MAX_TTL
    ensures 3 * Period(ttl) <= ttl && 10000 <= Period(ttl)
    ensures ttl < 3 * (Period(ttl) + 1)
  {
  }

  datatype Event =
    | Pass(dt: nat)
    | Tick
    | ProjectScript          // the project renewal reaches the store
    | VpsScript              // the VPS renewal reaches the store
    | Replied                // both replies are in
    | Errored                // a renewal was rejected
    | OtherTakes(key: Key, token: Token, ttl: nat)
    | OtherRenews(key: Key, token: Token, ttl: nat)
    | OtherReleases(key: Key, token: Token)

  /** `sent` is when the renewal in flight was started; `tick` is when the timer last fired. */
  datatype Beat = Beat(lost: bool, renewing: bool, projectOk: bool, vpsOk: bool,
                       projectSent: bool, vpsSent: bool, sent: int, tick: int)

  datatype Setup = Setup(kind: Kind, ttl: nat, project: Key, vps: Key, projectToken: Token, vpsToken: Token)

  datatype Sim = Sim(store: Store, now: int, beat: Beat)

  function Apply(c: Setup, s: Sim, e: Event): Sim {
    var b := s.beat;
    match e
    case Pass(dt) => s.(now := s.now + dt)
    case Tick =>
      if b.renewing || b.lost then s.(beat := b.(tick := s.now))
      else s.(beat := Beat(false, true, false, false, false, false, s.now, s.now))
    case ProjectScript =>
      if !b.renewing || b.projectSent then s
      else Sim(Extend(c.kind, s.store, c.project, c.projectToken, c.ttl, s.now), s.now,
               b.(projectSent := true, projectOk := Extends(c.kind, s.store, c.project, c.projectToken, s.now)))
    case VpsScript =>
      if !b.renewing || b.vpsSent then s
      else Sim(Extend(c.kind, s.store, c.vps, c.vpsToken, c.ttl, s.now), s.now,
               b.(vpsSent := true, vpsOk := Extends(c.kind, s.store, c.vps, c.vpsToken, s.now)))
    case Replied =>
      if b.renewing && b.projectSent && b.vpsSent
      then s.(beat := b.(renewing := false, lost := !b.projectOk || !b.vpsOk))
      else s
    case Errored => if b.renewing then s.(beat := b.(renewing := false, lost := true)) else s
    case OtherTakes(key, token, ttl) => s.(store := Acquire(s.store, key, token, ttl, s.now))
    case OtherRenews(key, token, ttl) => s.(store := Extend(c.kind, s.store, key, token, ttl, s.now))
    case OtherReleases(key, token) => s.(store := Leases.Release(s.store, key, token))
  }

  function Play(c: Setup, s: Sim, es: seq<Event>): Sim
    decreases |es|
  {
    if es == [] then s else Apply(c, Play(c, s, es[..|es| - 1]), es[|es| - 1])
  }

  /** Other holders have other tokens. */
  predicate Foreign(c: Setup, e: Event) {
    match e
    case OtherTakes(_, token, _) => token != c.projectToken && token != c.vpsToken
    case OtherRenews(_, token, _) => token != c.projectToken && token != c.vpsToken
    case OtherReleases(_, token) => token != c.projectToken && token != c.vpsToken
    case _ => true
  }

  /** Ticks are at most one period apart and a renewal takes less than one; none is rejected. */
  predicate Timely(c: Setup, s: Sim, e: Event) {
    match e
    case Pass(dt) =>
      && s.now + dt <= s.beat.tick + Period(c.ttl)
      && (s.beat.renewing ==> s.now + dt < s.beat.sent + Period(c.ttl))
    case Errored => false
    case _ => true
  }

  predicate Keeps(s: Sim, key: Key, token: Token) {
    Holds(s.store, key, token) && s.now < s.store[key].expires
  }

  /** Both leases are held and unexpired. */
  predicate BothKept(c: Setup, s: Sim) {
    Keeps(s, c.project, c.projectToken) && Keeps(s, c.vps, c.vpsToken)
  }

  // ---------------------------------------------------------------- the heartbeat bound

  /** A lease last renewed at `from` outlives every wait the heartbeat can impose on it. */
  ghost predicate Safe(c: Setup, s: Sim, key: Key, token: Token, sent: bool, ok: bool) {
    && Holds(s.store, key, token)
    && var from := s.store[key].expires - c.ttl;
       && from <= s.now
       && if s.beat.renewing
          then (sent ==> ok) && s.beat.sent <= s.now < s.beat.sent + Period(c.ttl)
               && (if sent then s.beat.sent <= from else s.beat.sent < from + 2 * Period(c.ttl))
          else s.beat.tick < from + Period(c.ttl)
  }

  ghost predicate Beating(c: Setup, s: Sim) {
    && !s.beat.lost
    && s.beat.tick <= s.now <= s.beat.tick + Period(c.ttl)
    && (s.beat.renewing ==> s.beat.sent <= s.beat.tick)
    && Safe(c, s, c.project, c.projectToken, s.beat.projectSent, s.beat.projectOk)
    && Safe(c, s, c.vps, c.vpsToken, s.beat.vpsSent, s.beat.vpsOk)
  }

  ghost predicate Configured(c: Setup) {
    MIN_TTL <= c.ttl <= MAX_TTL && c.project != c.vps && c.projectToken != c.vpsToken
  }

  lemma BeatingKeepsBoth(c: Setup, s: Sim)
    requires Configured(c) && Beating(c, s)
    ensures BothKept(c, s)
  {
    ThreePeriodsFit(c.ttl);
  }

  lemma TimelyKeepsBeating(c: Setup, s: Sim, e: Event)
    requires Configured(c) && Beating(c, s) && Foreign(c, e) && Timely(c, s, e)
    ensures Beating(c, Apply(c, s, e))
  {
    BeatingKeepsBoth(c, s);
  }

  ghost predicate TimelyRun(c: Setup, s: Sim, es: seq<Event>) {
    forall i :: 0 <= i < |es| ==> Timely(c, Play(c, s, es[..i]), es[i])
  }

  /** At every moment of an operation whose heartbeat is on time both leases are held. */
  lemma {:induction false} TimelyHoldsThroughout(c: Setup, s: Sim, es: seq<Event>, i: nat)
    requires Configured(c) && Beating(c, s) && TimelyRun(c, s, es) && i <= |es|
    requires forall e :: e in es ==> Foreign(c, e)
    ensures Beating(c, Play(c, s, es[..i])) && BothKept(c, Play(c, s, es[..i]))
  {
    if i > 0 {
      TimelyHoldsThroughout(c, s, es, i - 1);
      assert es[..i][..i - 1] == es[..i - 1] && es[..i][i - 1] == es[i - 1];
      TimelyKeepsBeating(c, Play(c, s, es[..i - 1]), es[i - 1]);
    } else {
      assert es[..0] == [];
    }
    BeatingKeepsBoth(c, Play(c, s, es[..i]));
  }

  /** Without that timing a normal return proves nothing: if no tick comes, the lease runs out,
      another holder takes the key, and no renewal is there to notice. */
  lemma UntimelyLossGoesUnnoticed(c: Setup, s: Sim, token: Token)
    requires Configured(c) && token != c.projectToken && !s.beat.lost && !s.beat.renewing
    requires Holds(s.store, c.project, c.projectToken) && s.store[c.project].expires <= s.now + c.ttl
    ensures var s' := Play(c, s, [Pass(c.ttl), OtherTakes(c.project, token, c.ttl)]);
            !s'.beat.lost && Holds(s'.store, c.project, token)
  {
    var es := [Pass(c.ttl), OtherTakes(c.project, token, c.ttl)];
    assert es[..1] == [Pass(c.ttl)] && es[..1][..0] == [];
    var s1 := Apply(c, s, es[0]);
    assert Play(c, s, []) == s;
    assert Play(c, s, es[..1]) == s1;
    assert !Taken(s1.store, c.project, s1.now);
  }

  // ---------------------------------------------------------------- what the heartbeat sees

  /** While a renewal is on its way the timer may fire and others may act. */
  predicate Aside(e: Event) { Waiting(e) || e.Tick? }

  lemma {:induction false} AsideKeepsFlags(c: Setup, s: Sim, es: seq<Event>)
    requires s.beat.renewing && forall e :: e in es ==> Aside(e)
    ensures Play(c, s, es).beat.(tick := s.beat.tick) == s.beat
    decreases |es|
  {
    if es != [] {
      var rest, last := es[..|es| - 1], es[|es| - 1];
      assert (forall e :: e in rest ==> e in es) && last in es;
      AsideKeepsFlags(c, s, rest);
    }
  }

  /** A renewal is noticed as lost exactly when one of its two scripts finds its lease gone, whatever
      time passes and whoever acts between the tick, the scripts and the replies. */
  lemma LossIsSeenExactly(c: Setup, s: Sim, before: seq<Event>, between: seq<Event>, after: seq<Event>)
    requires !s.beat.renewing && !s.beat.lost
    requires (forall e :: e in before ==> Aside(e)) && (forall e :: e in between ==> Aside(e))
    requires forall e :: e in after ==> Aside(e)
    ensures var first := Play(c, Apply(c, s, Tick), before);
            var second := Play(c, Apply(c, first, ProjectScript), between);
            var last := Play(c, Apply(c, second, VpsScript), after);
            !Apply(c, last, Replied).beat.renewing
            && (Apply(c, last, Replied).beat.lost <==>
                  || !Extends(c.kind, first.store, c.project, c.projectToken, first.now)
                  || !Extends(c.kind, second.store, c.vps, c.vpsToken, second.now))
  {
    AsideKeepsFlags(c, Apply(c, s, Tick), before);
    var first := Play(c, Apply(c, s, Tick), before);
    AsideKeepsFlags(c, Apply(c, first, ProjectScript), between);
    var second := Play(c, Apply(c, first, ProjectScript), between);
    AsideKeepsFlags(c, Apply(c, second, VpsScript), after);
  }

  // ---------------------------------------------------------------- tokens

  /** `token` is found under `key` only. */
  ghost predicate OnlyAt(store: Store, token: Token, key: Key) {
    forall k :: k in store && store[k].token == token ==> k == key
  }

  ghost predicate Gone(store: Store, token: Token) {
    forall k :: k in store ==> store[k].token != token
  }

  lemma ApplyKeepsTokens(c: Setup, s: Sim, e: Event)
    requires Foreign(c, e) && OnlyAt(s.store, c.projectToken, c.project) && OnlyAt(s.store, c.vpsToken, c.vps)
    ensures var s' := Apply(c, s, e); OnlyAt(s'.store, c.projectToken, c.project) && OnlyAt(s'.store, c.vpsToken, c.vps)
    ensures Gone(s.store, c.vpsToken) ==> Gone(Apply(c, s, e).store, c.vpsToken)
    ensures Gone(s.store, c.projectToken) ==> Gone(Apply(c, s, e).store, c.projectToken)
  {
  }

  // ---------------------------------------------------------------- the procedure

  datatype LockResult = ProjectBusy | VpsBusy | OperationFailed | LeaseLost | Finished

  datatype Frees = Frees(project: bool, vps: bool)

  const NO_BEAT := Beat(false, false, false, false, false, false, 0, 0)

  /** One thing that happens to the store or to the heartbeat's variables. */
  method Happen(cache: CacheService, c: Setup, b: Beat, e: Event) returns (b': Beat)
    requires cache.kind == c.kind
    modifies cache
    ensures Sim(cache.memory, cache.clock, b') == Apply(c, Sim(old(cache.memory), old(cache.clock), b), e)
  {
    b' := b;
    match e
    case Pass(dt) => cache.Elapse(dt);
    case Tick =>
      if b.renewing || b.lost {
        b' := b.(tick := cache.clock);
      } else {
        b' := Beat(false, true, false, false, false, false, cache.clock, cache.clock);
      }
    case ProjectScript =>
      if b.renewing && !b.projectSent {
        var renewed := cache.ExtendLock(c.project, c.projectToken, c.ttl);
        b' := b.(projectSent := true, projectOk := renewed);
      }
    case VpsScript =>
      if b.renewing && !b.vpsSent {
        var renewed := cache.ExtendLock(c.vps, c.vpsToken, c.ttl);
        b' := b.(vpsSent := true, vpsOk := renewed);
      }
    case Replied =>
      if b.renewing && b.projectSent && b.vpsSent {
        b' := b.(renewing := false, lost := !b.projectOk || !b.vpsOk);
      }
    case Errored =>
      if b.renewing {
        b' := b.(renewing := false, lost := true);
      }
    case OtherTakes(key, token, ttl) => var _ := cache.AcquireRenewableLock(key, token, ttl);
    case OtherRenews(key, token, ttl) => var _ := cache.ExtendLock(key, token, ttl);
    case OtherReleases(key, token) => cache.ReleaseLock(key, token);
  }

  method HappenAll(cache: CacheService, c: Setup, b: Beat, es: seq<Event>) returns (b': Beat)
    requires cache.kind == c.kind && (forall e :: e in es ==> Foreign(c, e))
    requires OnlyAt(cache.memory, c.projectToken, c.project) && OnlyAt(cache.memory, c.vpsToken, c.vps)
    modifies cache
    ensures Sim(cache.memory, cache.clock, b') == Play(c, Sim(old(cache.memory), old(cache.clock), b), es)
    ensures OnlyAt(cache.memory, c.projectToken, c.project) && OnlyAt(cache.memory, c.vpsToken, c.vps)
    ensures old(Gone(cache.memory, c.vpsToken)) ==> Gone(cache.memory, c.vpsToken)
    ensures old(Gone(cache.memory, c.projectToken)) ==> Gone(cache.memory, c.projectToken)
  {
    b' := b;
    for i := 0 to |es|
      invariant Sim(cache.memory, cache.clock, b') == Play(c, Sim(old(cache.memory), old(cache.clock), b), es[..i])
      invariant OnlyAt(cache.memory, c.projectToken, c.project) && OnlyAt(cache.memory, c.vpsToken, c.vps)
      invariant old(Gone(cache.memory, c.vpsToken)) ==> Gone(cache.memory, c.vpsToken)
      invariant old(Gone(cache.memory, c.projectToken)) ==> Gone(cache.memory, c.projectToken)
    {
      ApplyKeepsTokens(c, Sim(cache.memory, cache.clock, b'), es[i]);
      b' := Happen(cache, c, b', es[i]);
      assert es[..i + 1][..i] == es[..i];
    }
    assert es[..|es|] == es;
  }

  /** Before the interval is set nothing but time and other holders touch the store. */
  predicate Waiting(e: Event) {
    e.Pass? || e.OtherTakes? || e.OtherRenews? || e.OtherReleases?
  }

  /** While the VPS lock is awaited, nobody can take an unexpired project lease away. */
  lemma {:induction false} WaitingKeepsProject(c: Setup, s: Sim, es: seq<Event>, until: int)
    requires forall e :: e in es ==> Foreign(c, e) && Waiting(e)
    requires Holds(s.store, c.project, c.projectToken) && s.store[c.project].expires == until
    ensures var s' := Play(c, s, es);
            && s.now <= s'.now
            && (s'.now < until ==> Holds(s'.store, c.project, c.projectToken) && s'.store[c.project].expires == until)
    decreases |es|
  {
    if es != [] {
      var rest := es[..|es| - 1];
      assert forall e :: e in rest ==> e in es;
      WaitingKeepsProject(c, s, rest, until);
      var last := es[|es| - 1];
      assert last in es && Play(c, s, es) == Apply(c, Play(c, s, rest), last);
    }
  }

  /** Between renewals a lease is held exactly until it runs out, and nothing about the heartbeat
      tells: whoever relies on the flag alone does not see the end. */
  lemma {:induction false} UnrenewedLeaseEndsUnseen(c: Setup, s: Sim, es: seq<Event>, until: int)
    requires forall e :: e in es ==> Foreign(c, e) && Waiting(e)
    requires Holds(s.store, c.project, c.projectToken) && s.store[c.project].expires == until
    ensures var s' := Play(c, s, es);
            && s'.beat == s.beat
            && (Holds(s'.store, c.project, c.projectToken) ==> s'.store[c.project].expires == until)
            && (Keeps(s', c.project, c.projectToken) <==> s'.now < until)
    decreases |es|
  {
    WaitingKeepsProject(c, s, es, until);
    if es != [] {
      var rest := es[..|es| - 1];
      assert forall e :: e in rest ==> e in es;
      UnrenewedLeaseEndsUnseen(c, s, rest, until);
      var last := es[|es| - 1];
      assert last in es && Play(c, s, es) == Apply(c, Play(c, s, rest), last);
    }
  }

  /** The store and the time once the project lock has been taken and the VPS lock awaited. */
  function Waited(c: Setup, store: Store, now: int, waiting: seq<Event>): Sim {
    Play(c, Sim(store[c.project := Entry(c.projectToken, now + c.ttl)], now, NO_BEAT), waiting)
  }

  /** The store without the leases whose release reaches it. */
  function Freed(c: Setup, store: Store, frees: Frees): Store {
    var rest := if frees.vps then Leases.Release(store, c.vps, c.vpsToken) else store;
    if frees.project then Leases.Release(rest, c.project, c.projectToken) else rest
  }

  /** `waiting` happens while the VPS lock is being acquired, `during` while the operation
      runs, and `late` after the leases have been released: renewals still in flight then.
      `frees` tells which release scripts reach the store; an error of theirs is ignored. */
  method WithDeploymentLocks(cache: CacheService, c: Setup, waiting: seq<Event>, during: seq<Event>, succeeds: bool,
                             late: seq<Event>, frees: Frees)
    returns (r: LockResult, ghost start: Sim)
    requires cache.kind == c.kind && c.project != c.vps && c.projectToken != c.vpsToken
    requires Gone(cache.memory, c.projectToken) && Gone(cache.memory, c.vpsToken)
    requires forall e :: e in waiting ==> Foreign(c, e) && Waiting(e)
    requires forall e :: e in during || e in late ==> Foreign(c, e)
    modifies cache
    ensures frees.project || r.ProjectBusy? ==> Gone(cache.memory, c.projectToken)
    ensures frees.vps || r.ProjectBusy? || r.VpsBusy? ==> Gone(cache.memory, c.vpsToken)
    ensures OnlyAt(cache.memory, c.projectToken, c.project) && OnlyAt(cache.memory, c.vpsToken, c.vps)
    ensures r.ProjectBusy? <==> old(Taken(cache.memory, c.project, cache.clock))
    ensures r.ProjectBusy? ==> cache.memory == old(cache.memory)
    ensures !r.ProjectBusy? ==>
              var w := Waited(c, old(cache.memory), old(cache.clock), waiting);
              && (r.VpsBusy? <==> Taken(w.store, c.vps, w.now))
              && (r.VpsBusy? ==> cache.memory == Freed(c, w.store, Frees(frees.project, false)))
              && (!r.VpsBusy? ==>
                    && start == Sim(Acquire(w.store, c.vps, c.vpsToken, c.ttl, w.now), w.now, NO_BEAT.(tick := w.now))
                    && var worked := Play(c, start, during);
                       cache.memory == Play(c, worked.(store := Freed(c, worked.store, frees)), late).store)
    ensures r.OperationFailed? || r.LeaseLost? || r.Finished? ==>
              && Holds(start.store, c.vps, c.vpsToken) && start.store[c.vps].expires == start.now + c.ttl
              && start.beat == NO_BEAT.(tick := start.now)
              && r == (if !succeeds then OperationFailed
                       else if Play(c, start, during).beat.lost then LeaseLost else Finished)
    ensures Configured(c) && (r.OperationFailed? || r.LeaseLost? || r.Finished?)
            && start.now < old(cache.clock) + Period(c.ttl) && TimelyRun(c, start, during) ==>
              !r.LeaseLost? && forall i :: 0 <= i <= |during| ==> BothKept(c, Play(c, start, during[..i]))
  {
    hide Play;
    ghost var began := cache.clock;
    start := Sim(cache.memory, cache.clock, NO_BEAT);
    var acquired := cache.AcquireRenewableLock(c.project, c.projectToken, c.ttl);
    if !acquired {
      return ProjectBusy, start;
    }
    WaitingKeepsProject(c, Sim(cache.memory, cache.clock, NO_BEAT), waiting, began + c.ttl);
    var b := HappenAll(cache, c, NO_BEAT, waiting);
    acquired := cache.AcquireRenewableLock(c.vps, c.vpsToken, c.ttl);
    if !acquired {
      if frees.project {
        cache.ReleaseLock(c.project, c.projectToken);
      }
      return VpsBusy, start;
    }
    b := NO_BEAT.(tick := cache.clock);
    start := Sim(cache.memory, cache.clock, b);
    if Configured(c) && start.now < began + Period(c.ttl) && TimelyRun(c, start, during) {
      TimelyOperation(c, start, during, began);
    }
    r := Operate(cache, c, during, succeeds, late, frees);
  }

  /** The operation with its heartbeat, and the finally blocks. */
  method Operate(cache: CacheService, c: Setup, during: seq<Event>, succeeds: bool, late: seq<Event>, frees: Frees)
    returns (r: LockResult)
    requires cache.kind == c.kind && c.project != c.vps && c.projectToken != c.vpsToken
    requires OnlyAt(cache.memory, c.projectToken, c.project) && OnlyAt(cache.memory, c.vpsToken, c.vps)
    requires forall e :: e in during || e in late ==> Foreign(c, e)
    modifies cache
    ensures frees.project ==> Gone(cache.memory, c.projectToken)
    ensures frees.vps ==> Gone(cache.memory, c.vpsToken)
    ensures OnlyAt(cache.memory, c.projectToken, c.project) && OnlyAt(cache.memory, c.vpsToken, c.vps)
    ensures var worked := Play(c, Sim(old(cache.memory), old(cache.clock), NO_BEAT.(tick := old(cache.clock))), during);
            && r == (if !succeeds then OperationFailed else if worked.beat.lost then LeaseLost else Finished)
            && cache.memory == Play(c, worked.(store := Freed(c, worked.store, frees)), late).store
  {
    hide Play;
    var b := HappenAll(cache, c, NO_BEAT.(tick := cache.clock), during);
    r := if !succeeds then OperationFailed else if b.lost then LeaseLost else Finished;
    if frees.vps {
      cache.ReleaseLock(c.vps, c.vpsToken);
    }
    if frees.project {
      cache.ReleaseLock(c.project, c.projectToken);
    }
    b := HappenAll(cache, c, b, late);
  }

  /** With a prompt VPS lock and a timely heartbeat both leases are kept at every moment. */
  lemma TimelyOperation(c: Setup, start: Sim, during: seq<Event>, began: int)
    requires Configured(c) && start.beat == NO_BEAT.(tick := start.now) && TimelyRun(c, start, during)
    requires Holds(start.store, c.project, c.projectToken) && start.store[c.project].expires == began + c.ttl
    requires began <= start.now < began + Period(c.ttl)
    requires Holds(start.store, c.vps, c.vpsToken) && start.store[c.vps].expires == start.now + c.ttl
    requires forall e :: e in during ==> Foreign(c, e)
    ensures forall i :: 0 <= i <= |during| ==> BothKept(c, Play(c, start, during[..i]))
    ensures !Play(c, start, during).beat.lost
  {
    PromptAcquisitionStartsBeating(c, start, began);
    forall i | 0 <= i <= |during|
      ensures BothKept(c, Play(c, start, during[..i])) && !Play(c, start, during[..i]).beat.lost
    {
      TimelyHoldsThroughout(c, start, during, i);
    }
    assert during[..|during|] == during;
  }

  /** The premise of `TimelyHoldsThroughout` is met at the start of the operation when the VPS
      lock came in less than a period after the project lock. */
  lemma PromptAcquisitionStartsBeating(c: Setup, s: Sim, projectAcquiredAt: int)
    requires Configured(c) && s.beat == NO_BEAT.(tick := s.now)
    requires Holds(s.store, c.project, c.projectToken) && s.store[c.project].expires == projectAcquiredAt + c.ttl
    requires projectAcquiredAt <= s.now < projectAcquiredAt + Period(c.ttl)
    requires Holds(s.store, c.vps, c.vpsToken) && s.store[c.vps].expires == s.now + c.ttl
    ensures Beating(c, s)
  {
  }
}
