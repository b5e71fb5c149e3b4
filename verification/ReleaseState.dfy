/**
 The state one project's releases live in: the database rows and the two project
 pointers, the gateway's route file and its backup, and the membership of the public
 Docker network.  Every function here is one atomic effect of `ReleaseService` or
 `RollbackService`: a Prisma transaction or a single shell command.
 */
module ReleaseState {
  import opened Wrappers

  type Id = string
  type Container = string

  datatype Readiness = PENDING | PASSED | REJECTED

  /** `runtimeRef` names the container (or Compose stack) a release runs in.  `dockerName` is the
      container or Compose project name its deployment uses: all attempts of one deployment
      share it, although their container ids differ. */
  datatype Release = Release(
    status: Status, readiness: Readiness, runtimeRef: Option<Container>, port: nat, pinned: bool, dockerName: string)

  datatype Db = Db(releases: map<Id, Release>, active: Option<Id>, candidate: Option<Id>)

  /** A network alias is kept as the id of the release it is computed from; `Alias` is the
      text that the network's name lookup compares. */
  datatype Backend = Backend(owner: Id, port: nat)

  /** What the rendered YAML route file says: the host rule of one domain, a stable service,
      and, when a probe token was supplied, a canary router in front of the candidate service. */
  datatype Route = Route(domain: string, token: Option<string>, stable: Backend, candidate: Backend)

  /** `running` has the runtimes on the host, each with the release whose build started it;
      `public` maps each of those on `deployforge-net` to the release whose alias it joined with. */
  datatype Gateway = Gateway(
    route: Option<Route>, backup: Option<Route>, public: map<Container, Id>, running: map<Container, Id>)

  datatype World = World(db: Db, gw: Gateway)

  // ---------------------------------------------------------------- names

  predicate IsAlnum(c: char) {
    'a' <= c <= 'z' || 'A' <= c <= 'Z' || '0' <= c <= '9'
  }

  function Keep(s: string, p: char -> bool): string {
    if s == "" then "" else (if p(s[0]) then [s[0]] else "") + Keep(s[1..], p)
  }

  lemma PlusAssociates(a: string, b: string, c: string)
    ensures a + (b + c) == (a + b) + c
  {
  }

  lemma KeepFirst(c: char, s: string, p: char -> bool)
    ensures Keep([c] + s, p) == (if p(c) then [c] else "") + Keep(s, p)
  {
    assert ([c] + s)[1..] == s;
  }

  lemma {:induction false} KeepPrefix(s: string, t: string, p: char -> bool)
    ensures Keep(s + t, p) == Keep(s, p) + Keep(t, p)
  {
    if s == "" {
      assert s + t == t;
    } else {
      KeepPrefix(s[1..], t, p);
      KeepFirst(s[0], s[1..], p);
      KeepFirst(s[0], s[1..] + t, p);
      PlusAssociates(if p(s[0]) then [s[0]] else "", Keep(s[1..], p), Keep(t, p));
      assert s == [s[0]] + s[1..] && s + t == [s[0]] + (s[1..] + t);
    }
  }

  function Lower(s: string): (r: string)
    ensures |r| == |s|
  {
    if s == "" then "" else [LowerChar(s[0])] + Lower(s[1..])
  }

  function Take(s: string, n: nat): string {
    if |s| <= n then s else s[..n]
  }

  /** What an alias keeps of a release id. */
  function AliasPart(id: Id): string {
    Take(Keep(id, IsAlnum), 20)
  }

  function Alias(id: Id): string {
    "df-rel-" + Lower(AliasPart(id))
  }

  /** Two releases whose aliases the network cannot tell apart. */
  predicate SameAlias(a: Id, b: Id) { Alias(a) == Alias(b) }

  function SafeHost(domain: string): string {
    Keep(domain, c => IsAlnum(c) || c == '.' || c == '-')
  }

  // ---------------------------------------------------------------- routing

  datatype Request = Request(host: string, token: Option<string>)
  datatype Router = Router(priority: nat, host: string, token: Option<string>, service: Backend)

  /** `stable` absent means the candidate itself is the stable backend; a stable port of
      zero is falsy in the source and is replaced by the candidate's port. */
  function RenderRoute(domain: string, id: Id, port: nat, token: Option<string>, stable: Option<Backend>): Route {
    var back := if stable.None? then Backend(id, port)
                else Backend(stable.value.owner, if stable.value.port == 0 then port else stable.value.port);
    Route(domain, token, back, Backend(id, port))
  }

  function PublicRoute(domain: string, id: Id, port: nat): Route {
    RenderRoute(domain, id, port, None, None)
  }

  function Routers(r: Route): seq<Router> {
    [Router(10000, SafeHost(r.domain), None, r.stable)]
    + if r.token.Some? then [Router(11000, SafeHost(r.domain), r.token, r.candidate)] else []
  }

  predicate Matches(r: Router, req: Request) {
    r.host == req.host && (r.token.Some? ==> req.token == r.token)
  }

  /** The highest-priority matching router, the first one among equals. */
  function Best(rs: seq<Router>, req: Request): Option<Router> {
    if rs == [] then None
    else
      var rest := Best(rs[1..], req);
      if Matches(rs[0], req) && (rest.None? || rest.value.priority <= rs[0].priority) then Some(rs[0]) else rest
  }

  function Serve(route: Option<Route>, req: Request): Option<Backend> {
    if route.None? then None
    else
      var best := Best(Routers(route.value), req);
      if best.None? then None else Some(best.value.service)
  }

  /** Container `c` answers to the alias of release `id`. */
  predicate AnswersTo(gw: Gateway, c: Container, id: Id) {
    c in gw.public && SameAlias(gw.public[c], id)
  }

  /** The request ends in container `c`, and no other container shares its alias. */
  ghost predicate Reaches(gw: Gateway, req: Request, c: Container, port: nat) {
    var b := Serve(gw.route, req);
    && b.Some?
    && b.value.port == port
    && AnswersTo(gw, c, b.value.owner)
    && (forall o :: AnswersTo(gw, o, b.value.owner) ==> o == c)
  }

  /** A probe can only come back 2xx or 3xx when some container answers for the backend. */
  predicate Answered(gw: Gateway, req: Request) {
    var b := Serve(gw.route, req);
    b.Some? && exists c :: c in gw.public && AnswersTo(gw, c, b.value.owner)
  }

  // ---------------------------------------------------------------- database effects

  /** A single-row update; a missing row is left missing. */
  function SetStatus(db: Db, id: Id, status: Status, readiness: Readiness): Db {
    if id in db.releases
    then db.(releases := db.releases[id := db.releases[id].(status := status, readiness := readiness)])
    else db
  }

  /** `updateMany where status is not ACTIVE`. */
  function FailUnlessActive(db: Db, id: Option<Id>): Db {
    if id.Some? && id.value in db.releases && db.releases[id.value].status != ACTIVE
    then SetStatus(db, id.value, FAILED, REJECTED)
    else db
  }

  function BeginTx(db: Db, id: Id, port: nat, dockerName: string): Db {
    var freed := FailUnlessActive(db, db.candidate);
    freed.(releases := freed.releases[id := Release(BUILDING, PENDING, None, port, false, dockerName)],
        candidate := Some(id))
  }

  function RecordTx(db: Db, id: Id, c: Container): Db {
    if id in db.releases
    then db.(releases := db.releases[id := db.releases[id].(status := CANDIDATE, runtimeRef := Some(c))])
    else db
  }

  function FailTx(db: Db, id: Id): Db {
    SetStatus(db, id, FAILED, REJECTED)
  }

  /** `updateMany where candidateReleaseId is this release`. */
  function ClearTx(db: Db, id: Id): Db {
    if db.candidate == Some(id) then db.(candidate := None) else db
  }

  function ActivatingTx(db: Db, id: Id): Db {
    if id in db.releases then SetStatus(db, id, ACTIVATING, db.releases[id].readiness) else db
  }

  function CommitTx(db: Db, id: Id, previous: Option<Id>): Db {
    var retired := if previous.Some? && previous.value != id && previous.value in db.releases
                   then SetStatus(db, previous.value, SUPERSEDED, db.releases[previous.value].readiness)
                   else db;
    SetStatus(retired, id, ACTIVE, PASSED).(active := Some(id), candidate := None)
  }

  function PromoteTx(db: Db, id: Id): Db {
    SetStatus(db, id, ACTIVE, PASSED).(active := Some(id), candidate := None)
  }

  function AbandonTx(db: Db, id: Id): Db {
    FailTx(db, id).(candidate := None)
  }

  /** The guards of a rollback request for `target`. */
  predicate CanRollBack(db: Db, target: Id) {
    && target in db.releases
    && db.active != Some(target)
    && db.releases[target].runtimeRef.Some?
  }

  function RollbackTx(db: Db, target: Id): Db
    requires target in db.releases
  {
    var freed := if db.candidate != Some(target) then FailUnlessActive(db, db.candidate) else db;
    freed.(releases := freed.releases[target :=
        freed.releases[target].(status := CANDIDATE, readiness := PENDING, pinned := true)],
           candidate := Some(target))
  }

  function UnpinTx(db: Db, id: Option<Id>): Db {
    if id.Some? && id.value in db.releases
    then db.(releases := db.releases[id.value := db.releases[id.value].(pinned := false)])
    else db
  }

  // ---------------------------------------------------------------- gateway effects

  /** `docker network connect` fails, and is ignored, when the container is already connected
      or does not exist. */
  function Join(gw: Gateway, c: Container, id: Id): Gateway {
    if c in gw.public || c !in gw.running then gw else gw.(public := gw.public[c := id])
  }

  predicate Named(db: Db, id: Id, dockerName: string) {
    id in db.releases && db.releases[id].dockerName == dockerName
  }

  /** `docker rm -f` by name, or `docker compose down`: whatever runs under the name is gone. */
  function Evict(db: Db, gw: Gateway, dockerName: string): Gateway {
    var gone := set c | c in gw.running && Named(db, gw.running[c], dockerName);
    gw.(running := gw.running - gone, public := gw.public - gone)
  }

  /** No other runtime has the name: `docker create` would refuse it. */
  predicate NameFree(db: Db, gw: Gateway, dockerName: string, c: Container) {
    forall o :: o in gw.running && o != c ==> !Named(db, gw.running[o], dockerName)
  }

  /** Starts a runtime off the public network; a Compose stack of that name is replaced. */
  function Launch(gw: Gateway, c: Container, id: Id): Gateway {
    gw.(running := gw.running[c := id], public := gw.public - {c})
  }

  /** Removes the runtime that this release's build has started, if it did. */
  function Remove(gw: Gateway, c: Container, id: Id): Gateway {
    if c in gw.running && gw.running[c] == id
    then gw.(running := gw.running - {c}, public := gw.public - {c})
    else gw
  }

  function Leave(gw: Gateway, c: Container): Gateway {
    gw.(public := gw.public - {c})
  }

  function WriteRoute(gw: Gateway, route: Route): Gateway {
    gw.(route := Some(route))
  }

  /** Copies the route file over the backup, or removes the backup when there is no route file. */
  function Backup(gw: Gateway): Gateway {
    gw.(backup := gw.route)
  }

  /** Moves the backup over the route file, or removes the route file when there is no backup. */
  function Restore(gw: Gateway): Gateway {
    gw.(route := gw.backup, backup := None)
  }
}
