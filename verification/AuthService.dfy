/**
 `AuthService` and the session revocations of `AccountService`: methods that update session
 and replay rows, each proved to be a run of `Sessions` with nothing else in between.
 */
module AuthService {
  import opened Wrappers
  import opened Sessions

  datatype RefreshResult = Rotated(token: Token) | Invalid | ReplayDetected

  ghost predicate Valid(s: State, token: Token, sid: SessionId) {
    HasHash(s, sid, token) && s.now <= s.sessions[sid].expires
  }

  /** A refresh with nothing else in between. */
  ghost function AtomicRefresh(s: State, r: Rid, token: Token, renewed: Token): State
    requires r !in s.flights && renewed !in s.drawn
  {
    var asked := Do(s, Ask(r, token));
    if asked.flights[r].Caught? then Do(asked, Revoke(r))
    else
      var loaded := Do(asked, Load(r));
      if r !in loaded.flights then loaded
      else if loaded.flights[r].Stale? then Do(loaded, DropStale(r))
      else Do(Do(loaded, Commit(r, renewed)), Prune)
  }

  lemma AtomicRefreshKeepsInv(s: State, r: Rid, token: Token, renewed: Token)
    requires Inv(s) && r !in s.flights && renewed !in s.drawn
    ensures Inv(AtomicRefresh(s, r, token, renewed))
  {
    var asked := Do(s, Ask(r, token));
    StepKeepsInv(s, Ask(r, token));
    if asked.flights[r].Caught? {
      StepKeepsInv(asked, Revoke(r));
    } else {
      var loaded := Do(asked, Load(r));
      StepKeepsInv(asked, Load(r));
      if r in loaded.flights && loaded.flights[r].Stale? {
        StepKeepsInv(loaded, DropStale(r));
      } else if r in loaded.flights {
        StepKeepsInv(loaded, Commit(r, renewed));
        StepKeepsInv(Do(loaded, Commit(r, renewed)), Prune);
      }
    }
  }

  lemma NothingValid(s: State, token: Token)
    requires Inv(s) && token in s.replays
    ensures forall sid :: !HasHash(s, sid, token)
  {
    assert Retired(s, token);
  }

  lemma FlightsReturn(flights: map<Rid, Flight>, r: Rid, f: Flight, g: Flight)
    requires r !in flights
    ensures flights[r := f] - {r} == flights && flights[r := f][r := g] - {r} == flights
  {
  }

  lemma ReplayCase(s: State, r: Rid, token: Token, renewed: Token)
    requires r !in s.flights && renewed !in s.drawn && Replayed(s, token)
    ensures var t := AtomicRefresh(s, r, token, renewed);
            t == Delete(s, SessionsOf(s, s.replays[token].user)) && SessionsOf(t, s.replays[token].user) == {}
  {
    FlightsReturn(s.flights, r, Caught(s.replays[token].user), Caught(s.replays[token].user));
  }

  lemma MissingCase(s: State, r: Rid, token: Token, renewed: Token)
    requires r !in s.flights && renewed !in s.drawn && !Replayed(s, token) && forall sid :: !HasHash(s, sid, token)
    ensures AtomicRefresh(s, r, token, renewed) == s
  {
    FlightsReturn(s.flights, r, Asked(token), Asked(token));
    var asked := Do(s, Ask(r, token));
    assert forall sid :: HasHash(asked, sid, token) ==> HasHash(s, sid, token);
  }

  /** Hashes are unique, so the session that is read is the one there is. */
  lemma LoadReads(s: State, r: Rid, token: Token, sid: SessionId)
    requires Inv(s) && r !in s.flights && HasHash(s, sid, token) && !Replayed(s, token)
    ensures var asked := Do(s, Ask(r, token));
            var row := s.sessions[sid];
            Do(asked, Load(r)) == s.(flights := s.flights[r := Asked(token)][r :=
              if s.now > row.expires then Stale(sid) else Loaded(token, sid, row.user, row.expires)])
  {
    var asked := Do(s, Ask(r, token));
    assert HasHash(asked, sid, token);
    assert forall other :: HasHash(asked, other, token) ==> other == sid;
  }

  lemma StaleCase(s: State, r: Rid, token: Token, renewed: Token, sid: SessionId)
    requires Inv(s) && r !in s.flights && renewed !in s.drawn && !Replayed(s, token)
    requires HasHash(s, sid, token) && s.now > s.sessions[sid].expires
    ensures AtomicRefresh(s, r, token, renewed) == Delete(s, {sid})
    ensures forall other :: HasHash(s, other, token) ==> other == sid
  {
    LoadReads(s, r, token, sid);
    FlightsReturn(s.flights, r, Asked(token), Stale(sid));
  }

  /** The rows after a rotation and the pruning that follows it. */
  function RotatedSessions(s: State, sid: SessionId, renewed: Token): map<SessionId, Session>
    requires sid in s.sessions
  {
    s.sessions[sid := s.sessions[sid].(hash := renewed, expires := s.now + WEEK)]
  }

  function RotatedReplays(s: State, sid: SessionId, token: Token): map<Token, Replay>
    requires sid in s.sessions
  {
    var all := s.replays[token := Replay(s.sessions[sid].user, sid, s.sessions[sid].expires)];
    map t | t in all && all[t].expires >= s.now :: all[t]
  }

  /** A valid token was not replayed; its one session is rotated to the fresh token, and the
      token is recognised as a replay from then on until the expiry it had. */
  lemma ValidTokenRotates(s: State, r: Rid, token: Token, renewed: Token, sid: SessionId)
    requires Inv(s) && r !in s.flights && renewed !in s.drawn && Valid(s, token, sid)
    ensures token !in s.replays
    ensures var t := AtomicRefresh(s, r, token, renewed);
            && t == s.(sessions := RotatedSessions(s, sid, renewed), replays := RotatedReplays(s, sid, token),
                       history := s.history + [Rotation(token, sid, s.sessions[sid].expires)],
                           drawn := s.drawn + {renewed})
            && Replayed(t, token)
            && t.sessions[sid].expires == s.now + 7 * 24 * 3600 * 1000
            && forall u :: u in t.replays ==> u == token || (u in s.replays && t.replays[u].expires >= s.now)
  {
    assert token in s.replays ==> Retired(s, token);
    LoadReads(s, r, token, sid);
    var row := s.sessions[sid];
    FlightsReturn(s.flights, r, Asked(token), Loaded(token, sid, row.user, row.expires));
  }

  /** Those sessions are gone with their replay rows, and nothing else has changed. */
  ghost predicate Deleted(sessions: map<SessionId, Session>, sessions': map<SessionId, Session>,
                          replays: map<Token, Replay>, replays': map<Token, Replay>, gone: set<SessionId>)
  {
    && (forall sid :: sid in sessions' <==> sid in sessions && sid !in gone)
    && (forall sid :: sid in sessions' ==> sessions'[sid] == sessions[sid])
    && (forall t :: t in replays' <==> t in replays && replays[t].session !in gone)
    && (forall t :: t in replays' ==> replays'[t] == replays[t])
  }

  class AuthService {
    var sessions: map<SessionId, Session>
    var replays: map<Token, Replay>
    var clock: int
    ghost var flights: map<Rid, Flight>
    ghost var history: seq<Rotation>
    ghost var drawn: set<Token>
    ghost var ids: set<SessionId>

    ghost function State(): Sessions.State
      reads this
    {
      Sessions.State(sessions, replays, clock, flights, history, drawn, ids)
    }

    constructor ()
      ensures State() == EMPTY && Inv(State())
    {
      sessions, replays, clock, flights, history, drawn, ids := map[], map[], 0, map[], [], {}, {};
    }

    method IssueSession(user: User, sid: SessionId, token: Token)
      requires sid !in ids && token !in drawn
      modifies this
      ensures State() == Do(old(State()), Issue(user, sid, token))
      ensures sessions == old(sessions)[sid := Session(user, token, clock + 7 * 24 * 3600 * 1000)]
      ensures old(Inv(State())) ==> Inv(State())
    {
      if Inv(State()) {
        StepKeepsInv(State(), Issue(user, sid, token));
      }
      sessions := sessions[sid := Session(user, token, clock + WEEK)];
      drawn, ids := drawn + {token}, ids + {sid};
    }

    /** Deleting sessions deletes their replay rows. */
    method DeleteSessions(gone: set<SessionId>)
      modifies this`sessions, this`replays
      ensures State() == Delete(old(State()), gone)
      ensures Deleted(old(sessions), sessions, old(replays), replays, gone)
    {
      sessions := map sid | sid in sessions && sid !in gone :: sessions[sid];
      replays := map t | t in replays && replays[t].session !in gone :: replays[t];
    }

    method FindByToken(token: Token) returns (found: Option<SessionId>)
      ensures if found.Some? then HasHash(State(), found.value, token) else forall sid :: !HasHash(State(), sid, token)
    {
      var matching := set sid | sid in sessions && sessions[sid].hash == token;
      if matching == {} {
        assert forall sid :: HasHash(State(), sid, token) ==> sid in matching;
        return None;
      }
      var sid :| sid in matching;
      found := Some(sid);
    }

    /** `refresh`, nothing else happening in between; concurrent requests are the runs of
        `Sessions`. */
    method Refresh(token: Token, renewed: Token, ghost r: Rid) returns (result: RefreshResult)
      requires Inv(State()) && r !in flights && renewed !in drawn
      modifies this
      ensures State() == AtomicRefresh(old(State()), r, token, renewed) && Inv(State())
      ensures result.Rotated? <==> exists sid :: old(Valid(State(), token, sid))
      ensures result.ReplayDetected? <==> old(Replayed(State(), token))
      ensures result.Rotated? ==> result.token == renewed
      ensures result.ReplayDetected? ==> SessionsOf(State(), old(replays[token].user)) == {}
      ensures result.Invalid? ==> Deleted(old(sessions), sessions, old(replays), replays,
                set sid | sid in old(sessions) && old(sessions)[sid].hash == token)
    {
      hide AtomicRefresh, Do, Inv, Delete;
      ghost var s := State();
      AtomicRefreshKeepsInv(s, r, token, renewed);
      if token in replays && clock <= replays[token].expires {
        NothingValid(s, token);
        ReplayCase(s, r, token, renewed);
        var user := replays[token].user;
        DeleteSessions(set sid | sid in sessions && sessions[sid].user == user);
        return ReplayDetected;
      }
      var found := FindByToken(token);
      assert State() == s;
      if found.None? {
        MissingCase(s, r, token, renewed);
        assert forall sid :: sid in s.sessions ==> !HasHash(s, sid, token);
        return Invalid;
      }
      var sid := found.value;
      if clock > sessions[sid].expires {
        StaleCase(s, r, token, renewed, sid);
        assert forall other :: other in sessions && sessions[other].hash == token ==> HasHash(s, other, token);
        assert (set other | other in sessions && sessions[other].hash == token) == {sid};
        DeleteSessions({sid});
        return Invalid;
      }
      ValidTokenRotates(s, r, token, renewed, sid);
      assert Valid(s, token, sid);
      Rotate(token, sid, renewed);
      result := Rotated(renewed);
    }

    /** The transaction, and the pruning after it. */
    method Rotate(token: Token, sid: SessionId, renewed: Token)
      requires sid in sessions
      modifies this
      ensures State() == old(State()).(
                sessions := old(RotatedSessions(State(), sid, renewed)),
                    replays := old(RotatedReplays(State(), sid, token)),
                history := old(history) + [Rotation(token, sid, old(sessions[sid].expires))],
                    drawn := old(drawn) + {renewed})
    {
      var row := sessions[sid];
      sessions := sessions[sid := row.(hash := renewed, expires := clock + WEEK)];
      replays := replays[token := Replay(row.user, sid, row.expires)];
      replays := map t | t in replays && replays[t].expires >= clock :: replays[t];
      history, drawn := history + [Rotation(token, sid, row.expires)], drawn + {renewed};
    }

    method Logout(token: Token)
      modifies this`sessions, this`replays
      ensures State() == Do(old(State()), Label.Logout(token))
      ensures Deleted(old(sessions), sessions, old(replays), replays,
                set sid | sid in old(sessions) && old(sessions)[sid].hash == token)
      ensures old(Inv(State())) ==> Inv(State())
    {
      if Inv(State()) {
        StepKeepsInv(State(), Label.Logout(token));
      }
      DeleteSessions(set sid | sid in sessions && sessions[sid].hash == token);
    }

    method RevokeSession(user: User, sid: SessionId) returns (found: bool)
      modifies this`sessions, this`replays
      ensures found == (sid in SessionsOf(old(State()), user))
      ensures State() == Do(old(State()), Label.RevokeSession(user, sid))
      ensures Deleted(old(sessions), sessions, old(replays), replays, if found then {sid} else {})
      ensures old(Inv(State())) ==> Inv(State())
    {
      ghost var s := State();
      if Inv(s) {
        StepKeepsInv(s, Label.RevokeSession(user, sid));
      }
      found := sid in sessions && sessions[sid].user == user;
      assert {sid} * SessionsOf(s, user) == if found then {sid} else {};
      DeleteSessions(if found then {sid} else {});
    }

    method RevokeOtherSessions(user: User, keep: SessionId)
      modifies this`sessions, this`replays
      ensures State() == Do(old(State()), RevokeOthers(user, keep))
      ensures SessionsOf(State(), user) <= {keep}
      ensures Deleted(old(sessions), sessions, old(replays), replays,
                set sid | sid in old(sessions) && old(sessions)[sid].user == user && sid != keep)
      ensures old(Inv(State())) ==> Inv(State())
    {
      ghost var s := State();
      if Inv(s) {
        StepKeepsInv(s, RevokeOthers(user, keep));
      }
      var others := set sid | sid in sessions && sessions[sid].user == user && sid != keep;
      assert others == SessionsOf(s, user) - {keep};
      DeleteSessions(others);
    }

    method RevokeAllSessions(user: User)
      modifies this`sessions, this`replays
      ensures State() == Do(old(State()), RevokeAll(user))
      ensures Deleted(old(sessions), sessions, old(replays), replays,
                set sid | sid in old(sessions) && old(sessions)[sid].user == user)
      ensures SessionsOf(State(), user) == {}
      ensures old(Inv(State())) ==> Inv(State())
    {
      if Inv(State()) {
        StepKeepsInv(State(), RevokeAll(user));
      }
      DeleteSessions(set sid | sid in sessions && sessions[sid].user == user);
    }
  }
}
