/**
 Renewable locks: `CacheService.acquireRenewableLock` and the `extend` and `release` it
 hands out, for the in-memory store and for Redis, and what they guarantee to any number of
 holders under any interleaving and any passage of time.
 */
module Leases {
  type Key = string
  type Token = nat

  datatype Entry = Entry(token: Token, expires: int)
  type Store = map<Key, Entry>

  /** The two stores differ only in what `extend` does to a lease that has already run out:
      the in-memory map still finds its own value, Redis no longer has the key. */
  datatype Kind = Memory | Redis

  predicate Taken(store: Store, key: Key, now: int) {
    key in store && store[key].expires > now
  }

  predicate Holds(store: Store, key: Key, token: Token) {
    key in store && store[key].token == token
  }

  function Acquire(store: Store, key: Key, token: Token, ttl: nat, now: int): Store {
    if Taken(store, key, now) then store else store[key := Entry(token, now + ttl)]
  }

  predicate Extends(kind: Kind, store: Store, key: Key, token: Token, now: int) {
    Holds(store, key, token) && (kind.Redis? ==> Taken(store, key, now))
  }

  function Extend(kind: Kind, store: Store, key: Key, token: Token, ttl: nat, now: int): Store {
    if Extends(kind, store, key, token, now) then store[key := Entry(token, now + ttl)] else store
  }

  function Release(store: Store, key: Key, token: Token): Store {
    if Holds(store, key, token) then store - {key} else store
  }

  /** Compare-and-set: a renewal or a release never touches an entry with another token. */
  lemma OthersUntouched(kind: Kind, store: Store, key: Key, token: Token, ttl: nat, now: int, other: Key)
    requires other in store && store[other].token != token
    ensures var renewed := Extend(kind, store, key, token, ttl, now);
            other in renewed && renewed[other] == store[other]
    ensures var dropped := Release(store, key, token); other in dropped && dropped[other] == store[other]
  {
  }

  /** A holder's renewal goes through in the in-memory store even after its lease has run out, and in
      Redis only before; nobody else's does. */
  lemma RenewedExactly(kind: Kind, store: Store, key: Key, token: Token, ttl: nat, now: int)
    requires key in store
    ensures var renewed := Extend(kind, store, key, token, ttl, now);
            && (Extends(kind, store, key, token, now) <==>
                  store[key].token == token && (kind.Memory? || now < store[key].expires))
            && (Extends(kind, store, key, token, now) ==> renewed == store[key := Entry(token, now + ttl)])
            && (!Extends(kind, store, key, token, now) ==> renewed == store)
  {
  }

  // ---------------------------------------------------------------- the service

  class CacheService {
    const kind: Kind
    var memory: Store
    var clock: int

    constructor (kind: Kind)
      ensures this.kind == kind && memory == map[] && clock == 0
    {
      this.kind := kind;
      memory, clock := map[], 0;
    }

    method Elapse(dt: nat)
      modifies this`clock
      ensures clock == old(clock) + dt
    {
      clock := clock + dt;
    }

    method AcquireRenewableLock(key: Key, token: Token, ttl: nat) returns (acquired: bool)
      modifies this`memory
      ensures acquired == !old(Taken(memory, key, clock))
      ensures memory == Acquire(old(memory), key, token, ttl, clock)
    {
      acquired := !(key in memory && memory[key].expires > clock);
      if acquired {
        memory := memory[key := Entry(token, clock + ttl)];
      }
    }

    method ExtendLock(key: Key, token: Token, ttl: nat) returns (renewed: bool)
      modifies this`memory
      ensures renewed == old(Extends(kind, memory, key, token, clock))
      ensures memory == Extend(kind, old(memory), key, token, ttl, clock)
    {
      if key !in memory || memory[key].token != token || (kind.Redis? && memory[key].expires <= clock) {
        return false;
      }
      memory := memory[key := memory[key].(expires := clock + ttl)];
      renewed := true;
    }

    method ReleaseLock(key: Key, token: Token)
      modifies this`memory
      ensures memory == Release(old(memory), key, token)
    {
      if key in memory && memory[key].token == token {
        memory := memory - {key};
      }
    }
  }

  // ---------------------------------------------------------------- any number of workers

  type Wid = nat

  /** What `withDeploymentLocks` has in hand: nothing, the project lock, or both. */
  datatype Holder = Out | HasProject(project: Token) | Inside(project: Token, vps: Token)

  /** A lease ends at `until` unless it is renewed before the store gives the key away. */
  datatype Lease = Lease(key: Key, until: int)

  datatype State = State(kind: Kind, ttl: nat, store: Store, now: int,
                         issued: map<Token, Lease>, released: set<Token>, workers: map<Wid, Holder>)

  /** `Orphan` is an acquisition whose reply was lost; `Renew` and `Drop` are the scripts of
      `extend` and `release`, which a store may execute long after they were sent. */
  datatype Label =
    | Elapse(dt: nat)
    | TakeProject(w: Wid, key: Key, token: Token)
    | TakeVps(w: Wid, key: Key, token: Token)
    | Orphan(key: Key, token: Token)
    | Renew(token: Token)
    | Leave(w: Wid)
    | Drop(token: Token)

  function HolderOf(s: State, w: Wid): Holder { if w in s.workers then s.workers[w] else Out }

  predicate Has(h: Holder, token: Token) {
    (!h.Out? && h.project == token) || (h.Inside? && h.vps == token)
  }

  ghost predicate InHand(s: State, token: Token) {
    exists w :: w in s.workers && Has(s.workers[w], token)
  }

  ghost predicate Enabled(s: State, l: Label) {
    match l
    case Elapse(_) => true
    case TakeProject(w, _, token) => HolderOf(s, w).Out? && token !in s.issued
    case TakeVps(w, _, token) => HolderOf(s, w).HasProject? && token !in s.issued
    case Orphan(_, token) => token !in s.issued
    case Renew(token) => token in s.issued
    case Leave(w) => !HolderOf(s, w).Out?
    case Drop(token) => token in s.issued && !InHand(s, token)
  }

  function Take(s: State, key: Key, token: Token): State {
    if Taken(s.store, key, s.now) then s
    else s.(store := Acquire(s.store, key, token, s.ttl, s.now), issued := s.issued[token := Lease(key, s.now + s.ttl)])
  }

  function Do(s: State, l: Label): State
    requires match l case Renew(t) => t in s.issued case Drop(t) => t in s.issued
                     case TakeVps(w, _, _) => HolderOf(s, w).HasProject? case _ => true
  {
    match l
    case Elapse(dt) => s.(now := s.now + dt)
    case TakeProject(w, key, token) =>
      if Taken(s.store, key, s.now) then s
      else Take(s, key, token).(workers := s.workers[w := HasProject(token)])
    case TakeVps(w, key, token) =>
      if Taken(s.store, key, s.now) then s.(workers := s.workers[w := Out])
      else Take(s, key, token).(workers := s.workers[w := Inside(HolderOf(s, w).project, token)])
    case Orphan(key, token) => Take(s, key, token)
    case Renew(token) =>
      var lease := s.issued[token];
      if Extends(s.kind, s.store, lease.key, token, s.now)
      then s.(store := Extend(s.kind, s.store, lease.key, token, s.ttl, s.now),
              issued := s.issued[token := lease.(until := s.now + s.ttl)])
      else s
    case Leave(w) => s.(workers := s.workers[w := Out])
    case Drop(token) =>
      s.(store := Release(s.store, s.issued[token].key, token), released := s.released + {token})
  }

  /** An entry belongs to an issued token that has not been released, and ends with its lease. */
  ghost predicate EntriesOk(s: State) {
    forall key :: key in s.store ==>
      var token := s.store[key].token;
      token in s.issued && token !in s.released && s.issued[token] == Lease(key, s.store[key].expires)
  }

  /** While a lease is unexpired and unreleased the store holds its token. */
  ghost predicate LeasesHeld(s: State) {
    forall token :: token in s.issued && token !in s.released && s.now < s.issued[token].until
      ==> Holds(s.store, s.issued[token].key, token)
  }

  ghost predicate WorkersOk(s: State) {
    && (forall w, t :: w in s.workers && Has(s.workers[w], t) ==> t in s.issued && t !in s.released)
    && (forall v, w, t :: v in s.workers && w in s.workers && Has(s.workers[v], t) && Has(s.workers[w], t) ==> v == w)
  }

  ghost predicate Inv(s: State) { EntriesOk(s) && LeasesHeld(s) && WorkersOk(s) && s.released <= s.issued.Keys }

  lemma TakeKeepsInv(s: State, key: Key, token: Token)
    requires Inv(s) && token !in s.issued
    ensures Inv(Take(s, key, token))
  {
  }

  lemma RenewKeepsInv(s: State, token: Token)
    requires Inv(s) && token in s.issued
    ensures Inv(Do(s, Renew(token)))
  {
  }

  lemma DropKeepsInv(s: State, token: Token)
    requires Inv(s) && Enabled(s, Drop(token))
    ensures Inv(Do(s, Drop(token)))
  {
    var s' := Do(s, Drop(token));
    forall w, t | w in s'.workers && Has(s'.workers[w], t) ensures t !in s'.released {
      assert InHand(s, t);
    }
  }

  lemma StepKeepsInv(s: State, l: Label)
    requires Inv(s) && Enabled(s, l)
    ensures Inv(Do(s, l))
  {
    match l
    case TakeProject(_, key, token) => TakeKeepsInv(s, key, token);
    case TakeVps(_, key, token) => TakeKeepsInv(s, key, token);
    case Orphan(key, token) => TakeKeepsInv(s, key, token);
    case Renew(token) => RenewKeepsInv(s, token);
    case Drop(token) => DropKeepsInv(s, token);
    case _ =>
  }

  ghost predicate IsRun(run: seq<State>, ls: seq<Label>) {
    && |run| == |ls| + 1
    && forall i :: 0 <= i < |ls| ==> Enabled(run[i], ls[i]) && run[i + 1] == Do(run[i], ls[i])
  }

  predicate Initial(s: State) { s.store == map[] && s.issued == map[] && s.released == {} && s.workers == map[] }

  lemma {:induction false} RunKeepsInv(run: seq<State>, ls: seq<Label>, i: nat)
    requires IsRun(run, ls) && Initial(run[0]) && i < |run|
    ensures Inv(run[i])
  {
    if i > 0 {
      RunKeepsInv(run, ls, i - 1);
      StepKeepsInv(run[i - 1], ls[i - 1]);
    }
  }

  predicate Unexpired(s: State, token: Token) { token in s.issued && s.now < s.issued[token].until }

  function KeyOf(s: State, token: Token): Key { if token in s.issued then s.issued[token].key else "" }

  /** Two workers inside `operation()` whose leases have not run out share neither a project
      nor a VPS. */
  lemma MutualExclusion(run: seq<State>, ls: seq<Label>, i: nat, v: Wid, w: Wid)
    requires IsRun(run, ls) && Initial(run[0]) && i < |run| && v != w
    requires HolderOf(run[i], v).Inside? && HolderOf(run[i], w).Inside?
    requires forall t :: Has(HolderOf(run[i], v), t) || Has(HolderOf(run[i], w), t) ==> Unexpired(run[i], t)
    ensures var s, a, b := run[i], HolderOf(run[i], v), HolderOf(run[i], w);
            KeyOf(s, a.project) != KeyOf(s, b.project) && KeyOf(s, a.vps) != KeyOf(s, b.vps)
  {
    RunKeepsInv(run, ls, i);
    var s, a, b := run[i], HolderOf(run[i], v), HolderOf(run[i], w);
    assert Has(a, a.project) && Has(a, a.vps) && Has(b, b.project) && Has(b, b.vps);
    assert Holds(s.store, s.issued[a.project].key, a.project) && Holds(s.store, s.issued[b.project].key, b.project);
    assert Holds(s.store, s.issued[a.vps].key, a.vps) && Holds(s.store, s.issued[b.vps].key, b.vps);
  }

  /** Once the release script of a token has run, no entry ever carries that token again,
      whatever renewals were still on their way. */
  lemma {:induction false} ReleasedStaysReleased(run: seq<State>, ls: seq<Label>, i: nat, j: nat, token: Token)
    requires IsRun(run, ls) && Initial(run[0]) && i <= j < |run| && token in run[i].released
    ensures token in run[j].released
    ensures forall key :: key in run[j].store ==> run[j].store[key].token != token
    decreases j
  {
    RunKeepsInv(run, ls, j);
    if i < j {
      ReleasedStaysReleased(run, ls, i, j - 1, token);
      assert run[j] == Do(run[j - 1], ls[j - 1]);
    }
  }

  /** The bound `until` is tight: at that instant the key can be given away while the worker
      is still inside. */
  lemma ExpiredLeaseCanBeTaken(s: State, w: Wid, other: Wid, token: Token)
    requires Inv(s) && HolderOf(s, w).Inside? && HolderOf(s, other).Out? && other != w && token !in s.issued
    requires !Unexpired(s, HolderOf(s, w).project)
        && Holds(s.store, KeyOf(s, HolderOf(s, w).project), HolderOf(s, w).project)
    ensures var key := KeyOf(s, HolderOf(s, w).project);
            var s' := Do(s, TakeProject(other, key, token));
            HolderOf(s', w).Inside? && HolderOf(s', other) == HasProject(token) && Holds(s'.store, key, token)
  {
    assert Has(s.workers[w], HolderOf(s, w).project);
  }
}
