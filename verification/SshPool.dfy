/**
 The SSH connection pool: one pooled connection per host, port, user and kind of credential,
 shared by `SSHService` instances, counted, and ended by a timer once nobody uses it.  A pooled
 connection is identified by its client; events of a client may arrive at any time.
 */
module SshPool {
  import opened Wrappers

  type Key = string
  type Client = nat
  type Timer = nat
  type Instance = nat

  datatype Pooled = Pooled(key: Key, refCount: nat, idleTimeout: Option<Timer>)

  /** The `client` and `poolKey` fields of a connected instance. */
  datatype Link = Link(client: Client, poolKey: Key)

  /** `made` has every pooled connection ever made, `pool` those that can be found by key;
      `timers` has the idle timers that have neither fired nor been cleared. */
  datatype State = State(
    made: map<Client, Pooled>, pool: map<Key, Client>, timers: map<Timer, Client>,
    ended: set<Client>, links: map<Instance, Link>, drawn: set<Timer>)

  datatype Label =
    | Connect(i: Instance, key: Key, client: Client)
    | Disconnect(i: Instance, timer: Timer)
    | Fire(timer: Timer)
    | Close(client: Client)       // an error, timeout, end or close event

  predicate Enabled(s: State, l: Label) {
    match l
    case Connect(_, key, client) =>
      client !in s.made && (key in s.pool ==> s.pool[key] in s.made)
    case Disconnect(i, timer) =>
      timer !in s.drawn && (i in s.links && s.links[i].poolKey in s.pool ==> s.pool[s.links[i].poolKey] in s.made)
    case Fire(timer) => timer in s.timers && s.timers[timer] in s.made
    case Close(client) => client in s.made
  }

  function Cleared(s: State, c: Client): map<Timer, Client>
    requires c in s.made
  {
    if s.made[c].idleTimeout.Some? then s.timers - {s.made[c].idleTimeout.value} else s.timers
  }

  function Attach(s: State, i: Instance, key: Key, client: Client): State
    requires Enabled(s, Connect(i, key, client))
  {
    if key in s.pool then
      var c := s.pool[key];
      s.(timers := Cleared(s, c), links := s.links[i := Link(c, key)],
         made := s.made[c := s.made[c].(refCount := s.made[c].refCount + 1, idleTimeout := None)])
    else
      s.(made := s.made[client := Pooled(key, 1, None)], pool := s.pool[key := client],
          links := s.links[i := Link(client, key)])
  }

  /** The entry is looked up by key, whoever's client it holds by then. */
  function Detach(s: State, i: Instance, timer: Timer): State
    requires Enabled(s, Disconnect(i, timer))
  {
    if i !in s.links then s
    else
      var key := s.links[i].poolKey;
      var out := s.(links := s.links - {i});
      if key !in s.pool then out
      else
        var c := s.pool[key];
        var e := s.made[c];
        if e.refCount > 1 then out.(made := s.made[c := e.(refCount := e.refCount - 1)])
        else if e.idleTimeout.Some? then out.(made := s.made[c := e.(refCount := 0)])
        else out.(made := s.made[c := e.(refCount := 0, idleTimeout := Some(timer))],
                  timers := s.timers[timer := c], drawn := s.drawn + {timer})
  }

  function Do(s: State, l: Label): State
    requires Enabled(s, l)
  {
    match l
    case Connect(i, key, client) => Attach(s, i, key, client)
    case Disconnect(i, timer) => Detach(s, i, timer)
    case Fire(timer) =>
      var c := s.timers[timer];
      s.(ended := s.ended + {c}, pool := s.pool - {s.made[c].key}, timers := s.timers - {timer})
    case Close(c) =>
      var key := s.made[c].key;
      if key in s.pool && s.pool[key] == c then s.(timers := Cleared(s, c), pool := s.pool - {key}) else s
  }

  // ---------------------------------------------------------------- invariant

  ghost function Users(s: State, key: Key): set<Instance> {
    set i | i in s.links && s.links[i].poolKey == key
  }

  ghost predicate EntryOk(s: State, key: Key)
    requires key in s.pool
  {
    var c := s.pool[key];
    && c in s.made && s.made[c].key == key && c !in s.ended
    && s.made[c].refCount == |Users(s, key)|
    && (s.made[c].idleTimeout.Some? <==> s.made[c].refCount == 0)
    && (s.made[c].idleTimeout.Some? ==>
        s.made[c].idleTimeout.value in s.timers && s.timers[s.made[c].idleTimeout.value] == c)
  }

  ghost predicate TimerOk(s: State, t: Timer)
    requires t in s.timers
  {
    var c := s.timers[t];
    t in s.drawn && c in s.made && s.made[c].key in s.pool && s.pool[s.made[c].key] == c
        && s.made[c].idleTimeout == Some(t)
  }

  ghost predicate LinkOk(s: State, i: Instance)
    requires i in s.links
  {
    s.links[i].poolKey in s.pool && s.pool[s.links[i].poolKey] == s.links[i].client
  }

  ghost predicate Inv(s: State) {
    && (forall key :: key in s.pool ==> EntryOk(s, key))
    && (forall t :: t in s.timers ==> TimerOk(s, t))
    && (forall i :: i in s.links ==> LinkOk(s, i))
    && s.ended <= s.made.Keys
  }

  const EMPTY := State(map[], map[], map[], {}, map[], {})

  ghost predicate Held(s: State, c: Client) { exists i :: i in s.links && s.links[i].client == c }

  /** Runs in which an instance is connected once at a time, and a client that somebody uses
      is not closed under him. */
  ghost predicate Orderly(s: State, l: Label) {
    && (l.Connect? ==> l.i !in s.links)
    && (l.Close? ==> !Held(s, l.client))
  }

  lemma UsersJoin(s: State, t: State, i: Instance, key: Key, c: Client)
    requires i !in s.links && t.links == s.links[i := Link(c, key)]
    ensures Users(t, key) == Users(s, key) + {i} && i !in Users(s, key)
    ensures forall k :: k != key ==> Users(t, k) == Users(s, k)
  {
  }

  lemma UsersLeave(s: State, t: State, i: Instance)
    requires i in s.links && t.links == s.links - {i}
    ensures var key := s.links[i].poolKey;
            && Users(t, key) == Users(s, key) - {i} && i in Users(s, key)
            && forall k :: k != key ==> Users(t, k) == Users(s, k)
  {
  }

  lemma NobodyUses(s: State, key: Key)
    requires Inv(s) && key !in s.pool
    ensures Users(s, key) == {}
  {
    assert forall i :: i in Users(s, key) ==> LinkOk(s, i);
  }

  lemma ConnectKeepsEntries(s: State, i: Instance, key: Key, client: Client, k: Key)
    requires Inv(s) && Enabled(s, Connect(i, key, client)) && i !in s.links
    requires k in Do(s, Connect(i, key, client)).pool
    ensures EntryOk(Do(s, Connect(i, key, client)), k)
  {
    var t := Do(s, Connect(i, key, client));
    UsersJoin(s, t, i, key, t.links[i].client);
    if k in s.pool {
      assert EntryOk(s, k);
      if key in s.pool {
        assert EntryOk(s, key);
      }
    } else {
      NobodyUses(s, key);
    }
  }

  lemma ConnectKeepsTimers(s: State, i: Instance, key: Key, client: Client, x: Timer)
    requires Inv(s) && Enabled(s, Connect(i, key, client)) && i !in s.links
    requires x in Do(s, Connect(i, key, client)).timers
    ensures TimerOk(Do(s, Connect(i, key, client)), x)
  {
    assert TimerOk(s, x);
    if key in s.pool {
      assert EntryOk(s, key);
    }
  }

  lemma ConnectKeepsInv(s: State, i: Instance, key: Key, client: Client)
    requires Inv(s) && Enabled(s, Connect(i, key, client)) && i !in s.links
    ensures Inv(Do(s, Connect(i, key, client)))
  {
    var t := Do(s, Connect(i, key, client));
    forall k | k in t.pool ensures EntryOk(t, k) {
      ConnectKeepsEntries(s, i, key, client, k);
    }
    forall x | x in t.timers ensures TimerOk(t, x) {
      ConnectKeepsTimers(s, i, key, client, x);
    }
    forall j | j in t.links ensures LinkOk(t, j) {
      if j != i {
        assert LinkOk(s, j);
      }
    }
  }

  lemma DisconnectKeepsEntries(s: State, i: Instance, timer: Timer, k: Key)
    requires Inv(s) && Enabled(s, Disconnect(i, timer)) && i in s.links && k in Do(s, Disconnect(i, timer)).pool
    ensures EntryOk(Do(s, Disconnect(i, timer)), k)
  {
    UsersLeave(s, Do(s, Disconnect(i, timer)), i);
    assert LinkOk(s, i);
    assert EntryOk(s, k);
    assert EntryOk(s, s.links[i].poolKey);
  }

  lemma DisconnectKeepsInv(s: State, i: Instance, timer: Timer)
    requires Inv(s) && Enabled(s, Disconnect(i, timer))
    ensures Inv(Do(s, Disconnect(i, timer)))
  {
    if i in s.links {
      var t := Do(s, Disconnect(i, timer));
      forall k | k in t.pool ensures EntryOk(t, k) {
        DisconnectKeepsEntries(s, i, timer, k);
      }
      assert EntryOk(s, s.links[i].poolKey);
      forall x | x in t.timers ensures TimerOk(t, x) {
        if x in s.timers {
          assert TimerOk(s, x);
        }
      }
      forall j | j in t.links ensures LinkOk(t, j) {
        assert LinkOk(s, j);
      }
    }
  }

  /** A key that has left the pool was nobody's. */
  lemma EvictKeepsInv(s: State, key: Key, t: State)
    requires Inv(s) && key in s.pool && Users(s, key) == {}
    requires t.made == s.made && t.pool == s.pool - {key} && t.links == s.links && t.drawn == s.drawn
    requires t.ended == s.ended || t.ended == s.ended + {s.pool[key]}
    requires t.timers == Cleared(s, s.pool[key])
    ensures Inv(t)
  {
    var c := s.pool[key];
    assert EntryOk(s, key);
    assert forall k :: Users(t, k) == Users(s, k);
    forall k | k in t.pool ensures EntryOk(t, k) {
      assert EntryOk(s, k);
    }
    forall x | x in t.timers ensures TimerOk(t, x) {
      assert TimerOk(s, x);
    }
    forall j | j in t.links ensures LinkOk(t, j) {
      assert LinkOk(s, j) && (s.links[j].poolKey == key ==> j in Users(s, key));
    }
  }

  lemma FireKeepsInv(s: State, timer: Timer)
    requires Inv(s) && Enabled(s, Fire(timer))
    ensures Inv(Do(s, Fire(timer)))
  {
    assert TimerOk(s, timer);
    var key := s.made[s.timers[timer]].key;
    assert EntryOk(s, key);
    EvictKeepsInv(s, key, Do(s, Fire(timer)));
  }

  /** An event of a client keeps the pool right exactly when nobody is using that client. */
  lemma CloseKeepsInvExactly(s: State, c: Client)
    requires Inv(s) && Enabled(s, Close(c))
    ensures Inv(Do(s, Close(c))) <==> !Held(s, c)
  {
    var key := s.made[c].key;
    var t := Do(s, Close(c));
    if key in s.pool && s.pool[key] == c {
      assert EntryOk(s, key);
      assert forall i :: i in Users(s, key) ==> LinkOk(s, i);
      if Held(s, c) {
        var i :| i in s.links && s.links[i].client == c;
        HeldUnderItsKey(s, i);
        assert i in t.links && !LinkOk(t, i);
      } else {
        assert Users(s, key) == {};
        EvictKeepsInv(s, key, t);
      }
    } else if Held(s, c) {
      var i :| i in s.links && s.links[i].client == c;
      HeldUnderItsKey(s, i);
    }
  }

  lemma HeldUnderItsKey(s: State, i: Instance)
    requires Inv(s) && i in s.links
    ensures var c := s.links[i].client;
        c in s.made && s.links[i].poolKey == s.made[c].key && s.made[c].key in s.pool && s.pool[s.made[c].key] == c
  {
    assert LinkOk(s, i);
    assert EntryOk(s, s.links[i].poolKey);
  }

  lemma StepKeepsInv(s: State, l: Label)
    requires Inv(s) && Enabled(s, l) && Orderly(s, l)
    ensures Inv(Do(s, l))
  {
    match l
    case Connect(i, key, client) => ConnectKeepsInv(s, i, key, client);
    case Disconnect(i, timer) => DisconnectKeepsInv(s, i, timer);
    case Fire(timer) => FireKeepsInv(s, timer);
    case Close(c) => CloseKeepsInvExactly(s, c);
  }

  ghost predicate IsRun(run: seq<State>, ls: seq<Label>) {
    && |run| == |ls| + 1
    && forall i :: 0 <= i < |ls| ==> Enabled(run[i], ls[i]) && Orderly(run[i], ls[i]) && run[i + 1] == Do(run[i], ls[i])
  }

  /** At every point of an orderly run an entry counts the instances that use its key, its idle
      timer runs exactly when there are none, and everyone's client is the pooled one and has
      not been ended. */
  lemma {:induction false} CountsAreExact(run: seq<State>, ls: seq<Label>, n: nat, key: Key, i: Instance)
    requires IsRun(run, ls) && run[0] == EMPTY && n < |run|
    ensures Inv(run[n])
    ensures var s := run[n];
            && (key in s.pool ==>
                  && s.made[s.pool[key]].refCount == |Users(s, key)|
                  && (s.made[s.pool[key]].idleTimeout.Some? <==> Users(s, key) == {})
                  && (s.made[s.pool[key]].idleTimeout.Some? <==>
                      exists t :: t in s.timers && s.timers[t] == s.pool[key]))
            && (i in s.links ==> s.links[i].client !in s.ended && s.pool[s.links[i].poolKey] == s.links[i].client)
  {
    if n > 0 {
      CountsAreExact(run, ls, n - 1, key, i);
      StepKeepsInv(run[n - 1], ls[n - 1]);
    }
    var s := run[n];
    if key in s.pool {
      assert EntryOk(s, key);
      assert forall t :: t in s.timers ==> TimerOk(s, t);
    }
    if i in s.links {
      HeldUnderItsKey(s, i);
      assert EntryOk(s, s.links[i].poolKey);
    }
  }

  /** The idle timer ends only a client that nobody is using. */
  lemma TimerEndsNobodysClient(s: State, timer: Timer)
    requires Inv(s) && timer in s.timers
    ensures !Held(s, s.timers[timer])
  {
    var c := s.timers[timer];
    assert TimerOk(s, timer);
    assert EntryOk(s, s.made[c].key);
    forall i | i in s.links && s.links[i].client == c ensures i in Users(s, s.made[c].key) {
      HeldUnderItsKey(s, i);
    }
  }

  /** An event of a client that has been ended finds its place taken by another, or empty, and
      leaves the whole pool as it is. */
  lemma LateCloseChangesNothing(s: State, c: Client)
    requires Inv(s) && c in s.ended
    ensures Enabled(s, Close(c)) && Do(s, Close(c)) == s
  {
    var key := s.made[c].key;
    if key in s.pool {
      assert EntryOk(s, key);
    }
  }

  // ---------------------------------------------------------------- the exceptions are exact

  /** Connecting an instance keeps the counts right exactly when it was not connected: otherwise
      its first link is never given back. */
  lemma ConnectKeepsInvExactly(s: State, i: Instance, key: Key, client: Client)
    requires Inv(s) && Enabled(s, Connect(i, key, client))
    ensures Inv(Do(s, Connect(i, key, client))) <==> i !in s.links
  {
    if i !in s.links {
      ConnectKeepsInv(s, i, key, client);
    } else {
      var before, t := s.links[i].poolKey, Do(s, Connect(i, key, client));
      HeldUnderItsKey(s, i);
      assert EntryOk(s, before);
      assert i in Users(s, before);
      if before == key {
        assert Users(t, key) == Users(s, key);
      } else {
        assert Users(t, before) == Users(s, before) - {i};
      }
      assert !EntryOk(t, before);
    }
  }

  /** After a client was closed under its only user, and somebody else has connected with the same
      key, the first one's disconnect sets the idle timer of the other's client while it is in
      use, and the timer ends it. */
  lemma EarlyCloseEndsAnothersClient(s: State, i: Instance, j: Instance, client: Client, timer: Timer)
    requires Inv(s) && i in s.links && Users(s, s.links[i].poolKey) == {i}
    requires j !in s.links && client !in s.made && timer !in s.drawn
    ensures var key := s.links[i].poolKey;
            && Enabled(s, Close(s.links[i].client))
            && var closed := Do(s, Close(s.links[i].client));
            && Enabled(closed, Connect(j, key, client))
            && var joined := Do(closed, Connect(j, key, client));
            && Enabled(joined, Disconnect(i, timer))
            && var left := Do(joined, Disconnect(i, timer));
            && Enabled(left, Fire(timer))
            && var fired := Do(left, Fire(timer));
               j in fired.links && fired.links[j].client == client && client in fired.ended
  {
    HeldUnderItsKey(s, i);
  }

  // ---------------------------------------------------------------- the service

  predicate Pools(pool: map<Key, Client>, key: Key, client: Client) { key in pool && pool[key] == client }

  /** `SSHService`: the static pool, and the two fields of every instance. */
  class SSHService {
    var made: map<Client, Pooled>
    var pool: map<Key, Client>
    var timers: map<Timer, Client>
    var ended: set<Client>
    var links: map<Instance, Link>
    ghost var drawn: set<Timer>

    ghost function View(): State
      reads this
    {
      State(made, pool, timers, ended, links, drawn)
    }

    constructor ()
      ensures View() == EMPTY && Inv(View())
    {
      made, pool, timers, ended, links, drawn := map[], map[], map[], {}, map[], {};
    }

    method ClearTimeout(timer: Option<Timer>)
      modifies this`timers
      ensures timers == if timer.Some? then old(timers) - {timer.value} else old(timers)
    {
      if timer.Some? {
        timers := timers - {timer.value};
      }
    }

    /** `connect`, up to the point where the client starts connecting. */
    method Connect(i: Instance, key: Key, client: Client)
      requires Enabled(View(), Label.Connect(i, key, client))
      modifies this
      ensures View() == Do(old(View()), Label.Connect(i, key, client))
      ensures old(Inv(View())) ==> (Inv(View()) <==> old(i !in links))
      ensures i in links && links[i].poolKey == key
      ensures links[i].client == if key in old(pool) then old(pool)[key] else client
      ensures key in pool && pool[key] == links[i].client && made[links[i].client].refCount > 0
      ensures made[links[i].client].refCount == if key in old(pool) then old(made[pool[key]].refCount) + 1 else 1
    {
      if Inv(View()) {
        ConnectKeepsInvExactly(View(), i, key, client);
      }
      if key in pool {
        var c := pool[key];
        var pooled := made[c];
        if pooled.idleTimeout.Some? {
          ClearTimeout(pooled.idleTimeout);
          pooled := pooled.(idleTimeout := None);
        }
        pooled := pooled.(refCount := pooled.refCount + 1);
        made := made[c := pooled];
        links := links[i := Link(c, key)];
        return;
      }
      made := made[client := Pooled(key, 1, None)];
      pool := pool[key := client];
      links := links[i := Link(client, key)];
    }

    /** `disconnect`: the count goes down, and the last one out starts the timer. */
    method Disconnect(i: Instance, timer: Timer)
      requires Enabled(View(), Label.Disconnect(i, timer))
      modifies this
      ensures View() == Do(old(View()), Label.Disconnect(i, timer))
      ensures old(Inv(View())) ==> Inv(View())
      ensures i !in links
    {
      if Inv(View()) {
        DisconnectKeepsInv(View(), i, timer);
      }
      if i !in links {
        return;
      }
      var key := links[i].poolKey;
      if key in pool {
        var c := pool[key];
        var conn := made[c];
        if conn.refCount <= 1 {
          conn := conn.(refCount := 0);
          if conn.idleTimeout.None? {
            conn := conn.(idleTimeout := Some(timer));
            timers := timers[timer := c];
            drawn := drawn + {timer};
          }
        } else {
          conn := conn.(refCount := conn.refCount - 1);
        }
        made := made[c := conn];
      }
      links := links - {i};
    }

    /** The idle timer's callback. */
    method OnIdle(timer: Timer)
      requires Enabled(View(), Fire(timer))
      modifies this
      ensures View() == Do(old(View()), Fire(timer))
      ensures old(timers)[timer] in ended && old(made[timers[timer]].key) !in pool && timer !in timers
      ensures old(Inv(View())) ==> Inv(View()) && !Held(View(), old(timers[timer]))
    {
      ghost var s := View();
      if Inv(s) {
        FireKeepsInv(s, timer);
        TimerEndsNobodysClient(s, timer);
        assert !Held(Do(s, Fire(timer)), s.timers[timer]);
      }
      var c := timers[timer];
      ended := ended + {c};
      pool := pool - {made[c].key};
      timers := timers - {timer};
    }

    /** `cleanupPool`, on an error, timeout, end or close event of the client. */
    method CleanupPool(client: Client)
      requires Enabled(View(), Close(client))
      modifies this
      ensures View() == Do(old(View()), Close(client))
      ensures old(Inv(View())) ==> (Inv(View()) <==> !old(Held(View(), client)))
      ensures old(Inv(View())) && client in old(ended) ==> View() == old(View())
      ensures pool == if Pools(old(pool), made[client].key, client) then old(pool) - {made[client].key} else old(pool)
    {
      ghost var s := View();
      if Inv(s) {
        CloseKeepsInvExactly(s, client);
        if client in ended {
          LateCloseChangesNothing(s, client);
        }
      }
      var key := made[client].key;
      if key in pool && pool[key] == client {
        ClearTimeout(made[client].idleTimeout);
        pool := pool - {key};
      }
    }
  }
}
