/**
 Refresh-token rotation: sessions, the replay rows of retired tokens, and any number of
 refresh requests in flight, each made of separate reads and one transaction.  A token stands
 for its SHA-256 hash; fresh tokens and session ids are never drawn twice.
 */
module Sessions {
  import opened Wrappers

  type User = string
  type SessionId = string
  type Token = string
  type Rid = nat

  const WEEK := 7 * 24 * 60 * 60 * 1000

  datatype Session = Session(user: User, hash: Token, expires: int)
  datatype Replay = Replay(user: User, session: SessionId, expires: int)

  /** A refresh request: the replay row was looked for; the session was read; a replay was
      detected; the session was read and had expired. */
  datatype Flight =
    | Asked(token: Token)
    | Loaded(token: Token, sid: SessionId, user: User, expires: int)
    | Caught(user: User)
    | Stale(sid: SessionId)

  /** A rotation that went through: the token it retired and the session it read. */
  datatype Rotation = Rotation(token: Token, session: SessionId, expires: int)

  datatype State = State(
    sessions: map<SessionId, Session>, replays: map<Token, Replay>, now: int, flights: map<Rid, Flight>,
    history: seq<Rotation>, drawn: set<Token>, ids: set<SessionId>)

  datatype Label =
    | Issue(user: User, sid: SessionId, token: Token)
    | Ask(r: Rid, token: Token)          // refresh: look for a replay row
    | Load(r: Rid)                       // refresh: read the session
    | Commit(r: Rid, token: Token)       // refresh: rotate and retire, in one transaction
    | Revoke(r: Rid)                     // refresh: a replay ends all sessions of the user
    | DropStale(r: Rid)                  // refresh: delete the expired session
    | Abort(r: Rid)
    | Prune                              // delete replay rows that have run out
    | Logout(token: Token)
    | RevokeSession(user: User, sid: SessionId)
    | RevokeOthers(user: User, keep: SessionId)
    | RevokeAll(user: User)
    | Elapse(dt: nat)

  predicate HasHash(s: State, sid: SessionId, token: Token) {
    sid in s.sessions && s.sessions[sid].hash == token
  }

  predicate Replayed(s: State, token: Token) {
    token in s.replays && s.now <= s.replays[token].expires
  }

  /** Sessions are deleted together with their replay rows. */
  function Delete(s: State, gone: set<SessionId>): State {
    s.(sessions := map sid | sid in s.sessions && sid !in gone :: s.sessions[sid],
       replays := map t | t in s.replays && s.replays[t].session !in gone :: s.replays[t])
  }

  function SessionsOf(s: State, user: User): set<SessionId> {
    set sid | sid in s.sessions && s.sessions[sid].user == user
  }

  function WithHash(s: State, token: Token): set<SessionId> {
    set sid | sid in s.sessions && s.sessions[sid].hash == token
  }

  function Land(s: State, r: Rid): State { s.(flights := s.flights - {r}) }

  /** The transaction goes through: the session row is still there, and no replay row has
      this token, whose column is unique. */
  predicate Commits(s: State, f: Flight) {
    f.Loaded? && f.sid in s.sessions && f.token !in s.replays
  }

  predicate Enabled(s: State, l: Label) {
    match l
    case Issue(_, sid, token) => sid !in s.ids && token !in s.drawn
    case Ask(r, _) => r !in s.flights
    case Load(r) => r in s.flights && s.flights[r].Asked?
    case Commit(r, token) => r in s.flights && s.flights[r].Loaded? && token !in s.drawn
    case Revoke(r) => r in s.flights && s.flights[r].Caught?
    case DropStale(r) => r in s.flights && s.flights[r].Stale?
    case Abort(r) => r in s.flights
    case _ => true
  }

  ghost function Do(s: State, l: Label): State
    requires Enabled(s, l)
  {
    match l
    case Issue(user, sid, token) =>
      s.(sessions := s.sessions[sid := Session(user, token, s.now + WEEK)], drawn := s.drawn + {token},
          ids := s.ids + {sid})
    case Ask(r, token) =>
      s.(flights := s.flights[r := if Replayed(s, token) then Caught(s.replays[token].user) else Asked(token)])
    case Load(r) =>
      var token := s.flights[r].token;
      if exists sid :: HasHash(s, sid, token) then
        var sid :| HasHash(s, sid, token);
        var row := s.sessions[sid];
        var next := if s.now > row.expires then Stale(sid) else Loaded(token, sid, row.user, row.expires);
        s.(flights := s.flights[r := next])
      else Land(s, r)
    case Commit(r, token) =>
      var f := s.flights[r];
      if !Commits(s, f) then Land(s, r)
      else
        Land(s, r).(
          sessions := s.sessions[f.sid := s.sessions[f.sid].(hash := token, expires := s.now + WEEK)],
          replays := s.replays[f.token := Replay(f.user, f.sid, f.expires)],
          history := s.history + [Rotation(f.token, f.sid, f.expires)],
          drawn := s.drawn + {token})
    case Revoke(r) => Land(Delete(s, SessionsOf(s, s.flights[r].user)), r)
    case DropStale(r) => Land(Delete(s, {s.flights[r].sid}), r)
    case Abort(r) => Land(s, r)
    case Prune => s.(replays := map t | t in s.replays && s.replays[t].expires >= s.now :: s.replays[t])
    case Logout(token) => Delete(s, WithHash(s, token))
    case RevokeSession(user, sid) => Delete(s, {sid} * SessionsOf(s, user))
    case RevokeOthers(user, keep) => Delete(s, SessionsOf(s, user) - {keep})
    case RevokeAll(user) => Delete(s, SessionsOf(s, user))
    case Elapse(dt) => s.(now := s.now + dt)
  }

  // ---------------------------------------------------------------- invariant

  ghost predicate Retired(s: State, token: Token) {
    exists k :: 0 <= k < |s.history| && s.history[k].token == token
  }

  ghost predicate TokensOk(s: State) {
    && s.sessions.Keys <= s.ids
    && (forall a, b :: a in s.sessions && b in s.sessions && a != b ==> s.sessions[a].hash != s.sessions[b].hash)
    && (forall a :: a in s.sessions ==> s.sessions[a].hash in s.drawn && !Retired(s, s.sessions[a].hash))
    && (forall k :: 0 <= k < |s.history| ==> s.history[k].token in s.drawn && s.history[k].session in s.ids)
    && (forall j, k :: 0 <= j < k < |s.history| ==> s.history[j].token != s.history[k].token)
  }

  /** A retired token's replay row is kept until it runs out, or its session goes. */
  ghost predicate Remembered(s: State, h: Rotation) {
    h.session in s.sessions && s.now <= h.expires ==>
      h.token in s.replays && s.replays[h.token] == Replay(s.sessions[h.session].user, h.session, h.expires)
  }

  ghost predicate ReplaysOk(s: State) {
    && (forall k :: 0 <= k < |s.history| ==> Remembered(s, s.history[k]))
    && (forall t :: t in s.replays ==> Retired(s, t))
  }

  /** What a loaded session says: as long as its row exists, the token is still its current
      one, or was retired with the expiry that was read. */
  ghost predicate LoadOk(s: State, f: Flight)
    requires f.Loaded?
  {
    && f.sid in s.ids
    && (f.sid in s.sessions ==>
          && s.sessions[f.sid].user == f.user
          && (|| (s.sessions[f.sid].hash == f.token && s.sessions[f.sid].expires == f.expires)
              || Rotation(f.token, f.sid, f.expires) in s.history))
  }

  ghost predicate FlightsOk(s: State) {
    forall r :: r in s.flights && s.flights[r].Loaded? ==> LoadOk(s, s.flights[r])
  }

  ghost predicate Inv(s: State) { TokensOk(s) && ReplaysOk(s) && FlightsOk(s) }

  /** A rotation is timely when it is committed before the session it read has expired. */
  predicate Timely(s: State, l: Label) {
    l.Commit? && l.r in s.flights && s.flights[l.r].Loaded? ==> s.now <= s.flights[l.r].expires
  }

  /** A timely commit that goes through rotates the session's current token. */
  lemma CommitRotatesTheCurrentToken(s: State, r: Rid)
    requires Inv(s) && r in s.flights && Commits(s, s.flights[r]) && s.now <= s.flights[r].expires
    ensures var f := s.flights[r];
            s.sessions[f.sid].hash == f.token && s.sessions[f.sid].expires == f.expires
                && s.sessions[f.sid].user == f.user
            && !Retired(s, f.token)
  {
    var f := s.flights[r];
    assert LoadOk(s, f);
  }

  lemma DeleteKeepsInv(s: State, gone: set<SessionId>)
    requires Inv(s)
    ensures Inv(Delete(s, gone))
  {
    var t := Delete(s, gone);
    forall k | 0 <= k < |t.history| ensures Remembered(t, t.history[k]) {
      assert Remembered(s, s.history[k]);
    }
    assert forall token :: Retired(t, token) <==> Retired(s, token);
    forall r | r in t.flights && t.flights[r].Loaded? ensures LoadOk(t, t.flights[r]) {
      assert LoadOk(s, s.flights[r]);
    }
  }

  lemma CommitKeepsTokens(s: State, r: Rid, token: Token)
    requires Inv(s) && Enabled(s, Commit(r, token)) && Timely(s, Commit(r, token)) && Commits(s, s.flights[r])
    ensures TokensOk(Do(s, Commit(r, token)))
  {
    CommitRotatesTheCurrentToken(s, r);
    var t, f := Do(s, Commit(r, token)), s.flights[r];
    assert t.history[|s.history|].token == f.token;
    forall a | a in t.sessions ensures !Retired(t, t.sessions[a].hash) {
      assert a != f.sid ==> s.sessions[a].hash != f.token;
    }
  }

  lemma CommitKeepsReplays(s: State, r: Rid, token: Token)
    requires Inv(s) && Enabled(s, Commit(r, token)) && Timely(s, Commit(r, token)) && Commits(s, s.flights[r])
    ensures ReplaysOk(Do(s, Commit(r, token)))
  {
    CommitRotatesTheCurrentToken(s, r);
    var t, f := Do(s, Commit(r, token)), s.flights[r];
    forall k | 0 <= k < |t.history| ensures Remembered(t, t.history[k]) {
      if k < |s.history| {
        assert Remembered(s, s.history[k]);
        assert Retired(s, s.history[k].token);
      }
    }
    assert t.history[|s.history|].token == f.token;
    forall x | x in t.replays ensures Retired(t, x) {
      if x != f.token {
        var k :| 0 <= k < |s.history| && s.history[k].token == x;
        assert t.history[k].token == x;
      }
    }
  }

  lemma CommitKeepsFlights(s: State, r: Rid, token: Token)
    requires Inv(s) && Enabled(s, Commit(r, token)) && Timely(s, Commit(r, token)) && Commits(s, s.flights[r])
    ensures FlightsOk(Do(s, Commit(r, token)))
  {
    CommitRotatesTheCurrentToken(s, r);
    var t, f := Do(s, Commit(r, token)), s.flights[r];
    forall q | q in t.flights && t.flights[q].Loaded? ensures LoadOk(t, t.flights[q]) {
      assert LoadOk(s, s.flights[q]);
    }
  }

  lemma LandKeepsInv(s: State, r: Rid)
    requires Inv(s)
    ensures Inv(Land(s, r))
  {
    var t := Land(s, r);
    assert forall k :: 0 <= k < |t.history| ==> Remembered(s, s.history[k]);
    assert forall token :: Retired(t, token) <==> Retired(s, token);
    forall q | q in t.flights && t.flights[q].Loaded? ensures LoadOk(t, t.flights[q]) {
      assert LoadOk(s, s.flights[q]);
    }
  }

  lemma IssueKeepsInv(s: State, user: User, sid: SessionId, token: Token)
    requires Inv(s) && Enabled(s, Issue(user, sid, token))
    ensures Inv(Do(s, Issue(user, sid, token)))
  {
    var t := Do(s, Issue(user, sid, token));
    assert forall x :: Retired(t, x) <==> Retired(s, x);
    forall k | 0 <= k < |t.history| ensures Remembered(t, t.history[k]) {
      assert Remembered(s, s.history[k]);
    }
    forall q | q in t.flights && t.flights[q].Loaded? ensures LoadOk(t, t.flights[q]) {
      assert LoadOk(s, s.flights[q]);
    }
  }

  /** Steps that only add a flight, drop expired replay rows, or let time pass. */
  lemma QuietKeepsInv(s: State, l: Label)
    requires Inv(s) && Enabled(s, l) && (l.Ask? || l.Load? || l.Prune? || l.Elapse?)
    ensures Inv(Do(s, l))
  {
    var t := Do(s, l);
    assert forall x :: Retired(t, x) <==> Retired(s, x);
    forall k | 0 <= k < |t.history| ensures Remembered(t, t.history[k]) {
      assert Remembered(s, s.history[k]);
    }
    forall q | q in t.flights && t.flights[q].Loaded? ensures LoadOk(t, t.flights[q]) {
      assert q in s.flights && s.flights[q].Loaded? ==> LoadOk(s, s.flights[q]);
    }
  }

  lemma StepKeepsInv(s: State, l: Label)
    requires Inv(s) && Enabled(s, l) && Timely(s, l)
    ensures Inv(Do(s, l))
  {
    match l
    case Issue(user, sid, token) => IssueKeepsInv(s, user, sid, token);
    case Commit(r, token) =>
      if Commits(s, s.flights[r]) {
        CommitKeepsTokens(s, r, token);
        CommitKeepsReplays(s, r, token);
        CommitKeepsFlights(s, r, token);
      } else {
        LandKeepsInv(s, r);
      }
    case Revoke(r) =>
      DeleteKeepsInv(s, SessionsOf(s, s.flights[r].user));
      LandKeepsInv(Delete(s, SessionsOf(s, s.flights[r].user)), r);
    case DropStale(r) =>
      DeleteKeepsInv(s, {s.flights[r].sid});
      LandKeepsInv(Delete(s, {s.flights[r].sid}), r);
    case Abort(r) => LandKeepsInv(s, r);
    case Logout(token) => DeleteKeepsInv(s, WithHash(s, token));
    case RevokeSession(user, sid) => DeleteKeepsInv(s, {sid} * SessionsOf(s, user));
    case RevokeOthers(user, keep) => DeleteKeepsInv(s, SessionsOf(s, user) - {keep});
    case RevokeAll(user) => DeleteKeepsInv(s, SessionsOf(s, user));
    case _ => QuietKeepsInv(s, l);
  }

  ghost predicate IsRun(run: seq<State>, ls: seq<Label>) {
    && |run| == |ls| + 1
    && forall i :: 0 <= i < |ls| ==> Enabled(run[i], ls[i]) && run[i + 1] == Do(run[i], ls[i])
  }

  ghost predicate AllTimely(run: seq<State>, ls: seq<Label>) {
    IsRun(run, ls) && forall i :: 0 <= i < |ls| ==> Timely(run[i], ls[i])
  }

  const EMPTY := State(map[], map[], 0, map[], [], {}, {})

  /** Over any interleaving of any number of requests, as long as no rotation is committed after
      the session it read has expired: each token is accepted at most once, live sessions have
      different tokens, and none of them has been accepted before, replay row or not. */
  lemma {:induction false} EachTokenIsAcceptedOnce(run: seq<State>, ls: seq<Label>, i: nat)
    requires AllTimely(run, ls) && run[0] == EMPTY && i < |run|
    ensures Inv(run[i])
    ensures forall j, k :: 0 <= j < k < |run[i].history| ==> run[i].history[j].token != run[i].history[k].token
    ensures forall a, b :: a in run[i].sessions && b in run[i].sessions && a != b ==>
        run[i].sessions[a].hash != run[i].sessions[b].hash
    ensures forall a, k :: a in run[i].sessions && 0 <= k < |run[i].history| ==>
        run[i].history[k].token != run[i].sessions[a].hash
  {
    if i > 0 {
      EachTokenIsAcceptedOnce(run, ls, i - 1);
      StepKeepsInv(run[i - 1], ls[i - 1]);
    }
    forall a, k | a in run[i].sessions && 0 <= k < |run[i].history|
      ensures run[i].history[k].token != run[i].sessions[a].hash
    {
      assert !Retired(run[i], run[i].sessions[a].hash);
    }
  }

  // ---------------------------------------------------------------- replays

  /** As long as its session exists, a retired token is recognised until the expiry it had. */
  lemma RetiredTokenIsRecognised(s: State, k: nat)
    requires Inv(s) && k < |s.history| && s.history[k].session in s.sessions && s.now <= s.history[k].expires
    ensures Replayed(s, s.history[k].token)
        && s.replays[s.history[k].token].user == s.sessions[s.history[k].session].user
  {
    assert Remembered(s, s.history[k]);
  }

  /** Presenting a token with an unexpired replay row ends all sessions of its user, and no
      request that had already read one of them can rotate it any more. */
  lemma ReplayEndsAllSessions(s: State, r: Rid, token: Token, q: Rid)
    requires r !in s.flights && Replayed(s, token)
    ensures var user := s.replays[token].user;
            var asked := Do(s, Ask(r, token));
            && Enabled(asked, Revoke(r))
            && var t := Do(asked, Revoke(r));
               && SessionsOf(t, user) == {}
               && (forall sid :: sid in s.sessions && s.sessions[sid].user != user ==>
                   sid in t.sessions && t.sessions[sid] == s.sessions[sid])
               && (q in t.flights && t.flights[q].Loaded? && t.flights[q].sid in SessionsOf(s, user) ==>
                   !Commits(t, t.flights[q]))
  {
    var t := Do(Do(s, Ask(r, token)), Revoke(r));
    assert forall sid :: sid in SessionsOf(t, s.replays[token].user) ==> sid in s.sessions;
  }

  // ---------------------------------------------------------------- the exception is exact

  /** A rotation that accepts a token for the second time was committed after the expiry. */
  lemma SecondAcceptanceIsLate(s: State, r: Rid)
    requires Inv(s) && r in s.flights && Commits(s, s.flights[r]) && Retired(s, s.flights[r].token)
    ensures s.now > s.flights[r].expires
  {
    if s.now <= s.flights[r].expires {
      CommitRotatesTheCurrentToken(s, r);
    }
  }

  /** A token that has been retired is accepted again exactly when its session is still there and
      its replay row is gone; and then the commit is late. */
  lemma RetiredTokenIsAcceptedExactly(s: State, r: Rid, token: Token)
    requires Inv(s) && Enabled(s, Commit(r, token)) && Retired(s, s.flights[r].token)
    ensures var f := s.flights[r];
            |Do(s, Commit(r, token)).history| == |s.history| + 1 <==> f.sid in s.sessions && f.token !in s.replays
    ensures |Do(s, Commit(r, token)).history| == |s.history| + 1 ==> s.now > s.flights[r].expires
  {
    if Commits(s, s.flights[r]) {
      SecondAcceptanceIsLate(s, r);
    }
  }

  /** Two requests that have both read the session of one token: once the first has rotated it
      and the retired token's row has run out and been pruned, the second is accepted too. */
  lemma LateRotationAcceptsTwice(s: State, q: Rid, r: Rid, first: Token, second: Token, dt: nat)
    requires Inv(s) && q != r && q in s.flights && r in s.flights && s.flights[q] == s.flights[r]
        && Commits(s, s.flights[q])
    requires first !in s.drawn && second !in s.drawn && first != second
    requires s.now + dt > s.flights[q].expires
    ensures var one := Do(s, Commit(q, first));
            var pruned := Do(Do(one, Elapse(dt)), Prune);
            && Enabled(pruned, Commit(r, second))
            && var two := Do(pruned, Commit(r, second));
               && |two.history| == |s.history| + 2
               && two.history[|s.history|].token == two.history[|s.history| + 1].token == s.flights[q].token
  {
  }
}
