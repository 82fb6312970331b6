/** internal/router/router.go: the path matcher, the dispatch of routeRequest,
    the middleware stack Setup registers under "/users/", and the whole
    exchange from a request to a response over the repository. */
module Router {
  import opened Wrappers
  import opened Models
  import opened Uuids
  import opened Strings
  import opened Http
  import opened Postgres
  import opened Handlers
  import opened Middleware

  // ---------------------------------------------------------------------
  // matchPath.

  /** matchPath(path, prefix, suffix): the path is prefix + id + suffix for
      a non-empty id without a slash. */
  function MatchPath(path: string, prefix: string, suffix: string): (r: bool)
    ensures r ==> HasPrefix(path, prefix) && |path| > |prefix| + |suffix|
  {
    if !HasPrefix(path, prefix) then false
    else
      var rest := path[|prefix|..];
      if !HasSuffix(rest, suffix) then false
      else
        var id := rest[..|rest| - |suffix|];
        id != "" && '/' !in id
  }

  /** The id a matching path carries between prefix and suffix. */
  function PathId(path: string, prefix: string, suffix: string): string
    requires MatchPath(path, prefix, suffix)
  {
    path[|prefix|..|path| - |suffix|]
  }

  /** A matching path is prefix + id + suffix for a non-empty id without a
      slash. */
  lemma MatchPathSound(path: string, prefix: string, suffix: string)
    requires MatchPath(path, prefix, suffix)
    ensures var id := PathId(path, prefix, suffix);
      path == prefix + id + suffix && id != "" && '/' !in id
  {
    var rest := path[|prefix|..];
    assert rest[..|rest| - |suffix|] == PathId(path, prefix, suffix);
    assert path == path[..|prefix|] + rest;
    assert rest == rest[..|rest| - |suffix|] + rest[|rest| - |suffix|..];
  }

  /** Every prefix + id + suffix with a non-empty, slash-free id matches,
      and carries that id. */
  lemma MatchPathComplete(prefix: string, id: string, suffix: string)
    requires id != "" && '/' !in id
    ensures MatchPath(prefix + id + suffix, prefix, suffix)
    ensures PathId(prefix + id + suffix, prefix, suffix) == id
  {
    var path := prefix + id + suffix;
    assert path[..|prefix|] == prefix;
    var rest := path[|prefix|..];
    assert rest == id + suffix;
    assert rest[|rest| - |suffix|..] == suffix;
    assert rest[..|rest| - |suffix|] == id;
  }

  // ---------------------------------------------------------------------
  // routeRequest.

  /** The four routes, and none. */
  datatype Route = UserStatusRoute | LeaderboardRoute | CompleteTaskRoute | AddReferrerRoute | NoRoute

  const UsersPrefix := "/users/"
  const StatusSuffix := "/status"
  const LeaderboardPath := "/users/leaderboard"
  const CompleteSuffix := "/task/complete"
  const ReferrerSuffix := "/referrer"

  /** The route routeRequest picks, trying the four in order. */
  function RouteOf(verb: string, path: string): Route {
    if verb == MethodGet && MatchPath(path, UsersPrefix, StatusSuffix) then UserStatusRoute
    else if verb == MethodGet && path == LeaderboardPath then LeaderboardRoute
    else if verb == MethodPost && MatchPath(path, UsersPrefix, CompleteSuffix) then CompleteTaskRoute
    else if verb == MethodPost && MatchPath(path, UsersPrefix, ReferrerSuffix) then AddReferrerRoute
    else NoRoute
  }

  /** No request fits two routes, so the order of the checks does not
      matter: each route is taken exactly when its own pattern fits. */
  lemma CompleteIsNotReferrer(path: string)
    requires MatchPath(path, UsersPrefix, CompleteSuffix)
    ensures !MatchPath(path, UsersPrefix, ReferrerSuffix)
  {
    var rest := path[|UsersPrefix|..];
    assert rest[|rest| - 1] == 'e';
  }

  lemma RoutesExclusive(verb: string, path: string)
    ensures RouteOf(verb, path) == UserStatusRoute <==>
      verb == MethodGet && MatchPath(path, UsersPrefix, StatusSuffix)
    ensures RouteOf(verb, path) == LeaderboardRoute <==>
      verb == MethodGet && path == LeaderboardPath
    ensures RouteOf(verb, path) == CompleteTaskRoute <==>
      verb == MethodPost && MatchPath(path, UsersPrefix, CompleteSuffix)
    ensures RouteOf(verb, path) == AddReferrerRoute <==>
      verb == MethodPost && MatchPath(path, UsersPrefix, ReferrerSuffix)
  {
    if path == LeaderboardPath {
      assert path[|path| - 1] == 'd';
      assert !HasSuffix(path[|UsersPrefix|..], StatusSuffix) by {
        var rest := path[|UsersPrefix|..];
        assert rest[|rest| - 1] == 'd';
      }
    }
    if MatchPath(path, UsersPrefix, CompleteSuffix) {
      CompleteIsNotReferrer(path);
    }
  }

  /** routeRequest's decision: the chosen handler's step, or a 404. */
  function RouteStep(req: Request): (r: Step)
    ensures r.Respond? ==> r.reply.Failure? && r.reply.status in {StatusBadRequest, StatusNotFound}
    ensures r.Respond? && r.reply.status == StatusNotFound <==> RouteOf(req.verb, req.path) == NoRoute
    ensures r.Call? && r.call.GetUser? ==> RouteOf(req.verb, req.path) == UserStatusRoute
    ensures r.Call? && r.call.GetLeaderboard? ==>
      RouteOf(req.verb, req.path) == LeaderboardRoute && r.call.limit >= 1
    ensures r.Call? && r.call.CompleteTask? ==>
      && RouteOf(req.verb, req.path) == CompleteTaskRoute
      && Some(r.call.req) == req.taskBody && r.call.req.taskType != "" && r.call.req.points > 0
    ensures r.Call? && r.call.AddReferrer? ==> RouteOf(req.verb, req.path) == AddReferrerRoute
  {
    match RouteOf(req.verb, req.path)
    case UserStatusRoute => UserStatusStep(req.path)
    case LeaderboardRoute => LeaderboardStep(req.limit)
    case CompleteTaskRoute => CompleteTaskStep(req.path, req.taskBody)
    case AddReferrerRoute => AddReferrerStep(req.path, req.referrerBody)
    case NoRoute => Respond(Failure(StatusNotFound, "404 page not found"))
  }

  /** The response a reply becomes: http.Error for a failure, and for a
      success a 200 with whatever Content-Type the outer layers set. */
  function Render(reply: Reply, contentType: Option<string>): (r: Response)
    ensures reply.Failure? ==> r == Error(reply.message, reply.status)
    ensures reply.Success? ==> r.status == StatusOK && r.contentType == contentType && r.body == reply.payload
  {
    match reply
    case Failure(status, message) => Error(message, status)
    case Success(payload) => Response(StatusOK, contentType, payload)
  }

  // ---------------------------------------------------------------------
  // A request through a handler stack.

  /** What a stack does with a request before the service: answers it, or
      makes a service call whose reply is then written with the given
      Content-Type. */
  datatype Plan = Done(response: Response) | Invoke(call: ServiceCall, contentType: Option<string>)

  /** A request through the layers of `h`, outermost first, then
      routeRequest. Only JWTAuth stops a request early; a service call is
      made only when every JWTAuth layer let the request through, and after
      a ContentTypeJSON layer it is answered as JSON. A response made
      without the service is always a plain-text error. */
  function Run(h: Handler, req: Request, validate: string -> Validation, contentType: Option<string>): (r: Plan)
    ensures r.Invoke? ==> RouteStep(req) == Call(r.call)
    ensures r.Invoke? && r.call.GetLeaderboard? ==> r.call.limit >= 1
    ensures r.Invoke? && JWTAuth in Layers(h) ==> Authenticate(req.authorization, validate).Allow?
    ensures r.Invoke? ==> r.contentType == (if ContentTypeJSON in Layers(h) then Some(Json) else contentType)
    ensures JWTAuth in Layers(h) && Authenticate(req.authorization, validate).Deny? ==>
      r == Done(Error(Authenticate(req.authorization, validate).message, StatusUnauthorized))
    ensures r.Done? ==> r.response.status != StatusOK && r.response.contentType == Some(PlainText)
    decreases h
  {
    match h
    case RouteRequest =>
      (match RouteStep(req)
       case Respond(reply) => Done(Render(reply, contentType))
       case Call(call) => Invoke(call, contentType))
    case Wrap(layer, next) =>
      match Apply(layer, req, validate, contentType)
      case Stop(response) => Done(response)
      case Pass(contentType') => Run(next, req, validate, contentType')
  }

  /** The stack Setup registers: JWTAuth outermost, then ContentTypeJSON,
      Recover and Logger around routeRequest. */
  const UsersStack := Wrap(JWTAuth, Wrap(ContentTypeJSON, Wrap(Recover, Wrap(Logger, RouteRequest))))

  /** Two token validators that agree on which tokens are valid, expired or
      invalid give the same plan for every request, whatever user ids the
      tokens carry: the handlers never look at the authenticated identity,
      so any valid token may act on any user. */
  lemma {:induction false} RunIgnoresIdentity(h: Handler, req: Request, v1: string -> Validation,
                                              v2: string -> Validation, contentType: Option<string>)
    requires forall token :: v1(token).TokenValid? == v2(token).TokenValid?
    requires forall token :: v1(token).TokenExpired? == v2(token).TokenExpired?
    ensures Run(h, req, v1, contentType) == Run(h, req, v2, contentType)
    decreases h
  {
    match h
    case RouteRequest =>
    case Wrap(layer, next) =>
      var a1 := Authenticate(req.authorization, v1);
      var a2 := Authenticate(req.authorization, v2);
      assert a1.Deny? == a2.Deny?;
      assert a1.Deny? ==> a1 == a2;
      assert Apply(layer, req, v1, contentType) == Apply(layer, req, v2, contentType);
      match Apply(layer, req, v1, contentType)
      case Stop(_) =>
      case Pass(contentType') => RunIgnoresIdentity(next, req, v1, v2, contentType');
  }

  // ---------------------------------------------------------------------
  // Requests that reach the service.

  /** A canonically spelled UUID holds no slash. */
  lemma FormatHasNoSlash(u: Uuid)
    requires WellFormed(u)
    ensures '/' !in Format(u) && Format(u) != ""
  {
    ParseFormat(u);
    var s := Format(u);
    forall i | 0 <= i < |s| ensures s[i] != '/' {
      if i in DashPositions {
        assert s[i] == '-';
      } else {
        assert IsHexDigit(s[i]);
      }
    }
  }

  /** "/users/<id>/<rest>" as the pieces "", "users" and id, joined by
      slashes, before the rest. */
  lemma UsersPathPieces(id: string, rest: string)
    ensures UsersPrefix + id + "/" + rest == "" + ['/'] + ("users" + ['/'] + (id + ['/'] + rest))
    ensures '/' !in "users"
  {
    assert UsersPrefix == ['/'] + "users" + ['/'];
  }

  /** Regrouping three leading pieces. */
  lemma ThreeBefore(a: string, b: string, c: string, tail: seq<string>)
    ensures [a] + ([b] + ([c] + tail)) == [a, b, c] + tail
  {
  }

  /** The segments of "/users/<id>/" followed by slash-free pieces, for any
      slash-free id. */
  lemma UsersPathSegments(id: string, tail: seq<string>)
    requires '/' !in id
    requires |tail| >= 1 && forall i :: 0 <= i < |tail| ==> '/' !in tail[i]
    ensures Segments(UsersPrefix + id + "/" + Join(tail, '/')) == ["", "users", id] + tail
  {
    var j := Join(tail, '/');
    var s0 := id + ['/'] + j;
    var s1 := "users" + ['/'] + s0;
    UsersPathPieces(id, j);
    SplitJoin(tail, '/');
    SplitAfterPiece(id, '/', j);
    SplitAfterPiece("users", '/', s0);
    SplitAfterPiece("", '/', s1);
    ThreeBefore("", "users", id, tail);
  }

  /** The route suffixes as slash-joined pieces. */
  lemma SuffixPieces()
    ensures StatusSuffix == "/" + Join(["status"], '/')
    ensures CompleteSuffix == "/" + Join(["task", "complete"], '/')
    ensures ReferrerSuffix == "/" + Join(["referrer"], '/')
  {
    assert Join(["task", "complete"], '/') == "task" + "/" + Join(["complete"], '/');
  }

  /** "/users/<uuid>" followed by a suffix of slash-free pieces fits the
      route pattern with that suffix, and its segments are the pieces. */
  lemma UserRoutePath(u: Uuid, suffix: string, tail: seq<string>)
    requires WellFormed(u)
    requires |tail| >= 1 && forall i :: 0 <= i < |tail| ==> '/' !in tail[i]
    requires suffix == "/" + Join(tail, '/')
    ensures MatchPath(UsersPrefix + Format(u) + suffix, UsersPrefix, suffix)
    ensures Segments(UsersPrefix + Format(u) + suffix) == ["", "users", Format(u)] + tail
  {
    FormatHasNoSlash(u);
    IdRoutePath(Format(u), suffix, tail);
  }

  /** The same for any non-empty, slash-free id. */
  lemma IdRoutePath(id: string, suffix: string, tail: seq<string>)
    requires id != "" && '/' !in id
    requires |tail| >= 1 && forall i :: 0 <= i < |tail| ==> '/' !in tail[i]
    requires suffix == "/" + Join(tail, '/')
    ensures MatchPath(UsersPrefix + id + suffix, UsersPrefix, suffix)
    ensures Segments(UsersPrefix + id + suffix) == ["", "users", id] + tail
  {
    var j := Join(tail, '/');
    Regroup(UsersPrefix + id, "/", j);
    MatchPathComplete(UsersPrefix, id, suffix);
    UsersPathSegments(id, tail);
  }

  /** Concatenation regroups. */
  lemma Regroup(a: string, b: string, c: string)
    ensures a + (b + c) == a + b + c
  {
  }

  /** Through the users stack, an authenticated request makes exactly the
      call routeRequest decides on, and its answer will be JSON. */
  lemma UsersStackCalls(req: Request, validate: string -> Validation, call: ServiceCall)
    requires Authenticate(req.authorization, validate).Allow?
    requires RouteStep(req) == Call(call)
    ensures Run(UsersStack, req, validate, None) == Invoke(call, Some(Json))
  {
    var next := Wrap(ContentTypeJSON, Wrap(Recover, Wrap(Logger, RouteRequest)));
    assert Run(UsersStack, req, validate, None) == Run(next, req, validate, None);
  }

  /** GET /users/<id>/status with a valid token asks the service for that
      user, and the answer will be JSON. */
  lemma StatusRequestCalls(u: Uuid, token: string, validate: string -> Validation, req: Request)
    requires WellFormed(u) && ' ' !in token && validate(token).TokenValid?
    requires req.verb == MethodGet && req.path == UsersPrefix + Format(u) + StatusSuffix
    requires req.authorization == "Bearer " + token
    ensures Run(UsersStack, req, validate, None) == Invoke(GetUser(u), Some(Json))
  {
    AuthenticateBearer(token, validate);
    assert RouteStep(req) == Call(GetUser(u)) by {
      SuffixPieces();
      UserRoutePath(u, StatusSuffix, ["status"]);
      UserStatusStepCalls(req.path, u);
    }
    UsersStackCalls(req, validate, GetUser(u));
  }

  /** GET /users/leaderboard?limit=<n> with a valid token asks the service
      for the top n users. */
  lemma LeaderboardRequestCalls(n: nat, token: string, validate: string -> Validation, req: Request)
    requires 1 <= n <= Numbers.Int64Max && ' ' !in token && validate(token).TokenValid?
    requires req.verb == MethodGet && req.path == LeaderboardPath && req.limit == Numbers.Decimal(n)
    requires req.authorization == "Bearer " + token
    ensures Run(UsersStack, req, validate, None) == Invoke(GetLeaderboard(n), Some(Json))
  {
    AuthenticateBearer(token, validate);
    assert RouteStep(req) == Call(GetLeaderboard(n)) by {
      RoutesExclusive(req.verb, req.path);
      LimitOfDecimal(n);
    }
    UsersStackCalls(req, validate, GetLeaderboard(n));
  }

  /** POST /users/<id>/task/complete with a valid token and a valid body
      asks the service to record that task for that user. */
  lemma CompleteRequestCalls(u: Uuid, token: string, validate: string -> Validation, task: TaskRequest, req: Request)
    requires WellFormed(u) && ' ' !in token && validate(token).TokenValid?
    requires task.taskType != "" && task.points > 0
    requires req.verb == MethodPost && req.path == UsersPrefix + Format(u) + CompleteSuffix
    requires req.authorization == "Bearer " + token && req.taskBody == Some(task)
    ensures Run(UsersStack, req, validate, None) == Invoke(CompleteTask(u, task), Some(Json))
  {
    AuthenticateBearer(token, validate);
    assert RouteStep(req) == Call(CompleteTask(u, task)) by {
      SuffixPieces();
      UserRoutePath(u, CompleteSuffix, ["task", "complete"]);
      RoutesExclusive(req.verb, req.path);
      CompleteTaskStepCalls(req.path, u, task);
    }
    UsersStackCalls(req, validate, CompleteTask(u, task));
  }

  /** POST /users/<id>/referrer with a valid token and a canonically spelled
      referrer asks the service to link the two. */
  lemma ReferrerRequestCalls(u: Uuid, referrer: Uuid, token: string, validate: string -> Validation, req: Request)
    requires WellFormed(u) && WellFormed(referrer) && ' ' !in token && validate(token).TokenValid?
    requires req.verb == MethodPost && req.path == UsersPrefix + Format(u) + ReferrerSuffix
    requires req.authorization == "Bearer " + token
    requires req.referrerBody == Some(ReferrerRequest(Format(referrer)))
    ensures Run(UsersStack, req, validate, None) == Invoke(AddReferrer(u, referrer), Some(Json))
  {
    AuthenticateBearer(token, validate);
    assert RouteStep(req) == Call(AddReferrer(u, referrer)) by {
      SuffixPieces();
      UserRoutePath(u, ReferrerSuffix, ["referrer"]);
      RoutesExclusive(req.verb, req.path);
      AddReferrerStepCalls(req.path, u, referrer);
    }
    UsersStackCalls(req, validate, AddReferrer(u, referrer));
  }

  // ---------------------------------------------------------------------
  // The mux and the router.

  /** Whether a ServeMux pattern serves a path: a pattern ending in a slash
      serves every path under it, any other pattern only itself. */
  predicate Serves(pattern: string, path: string) {
    if |pattern| > 0 && pattern[|pattern| - 1] == '/' then HasPrefix(path, pattern) else pattern == path
  }

  /** `pattern` is the longest registered pattern serving `path`. */
  predicate Longest(mux: map<string, Handler>, path: string, pattern: string) {
    && pattern in mux && Serves(pattern, path)
    && forall p :: p in mux && Serves(p, path) ==> |p| <= |pattern|
  }

  /** No registered pattern serves `path`. */
  predicate Unserved(mux: map<string, Handler>, path: string) {
    forall p :: p in mux ==> !Serves(p, path)
  }

  /** ServeMux's choice of handler: the longest registered pattern that
      serves the path, if any. */
  method Lookup(mux: map<string, Handler>, path: string) returns (r: Option<string>)
    ensures r.Some? ==> Longest(mux, path, r.value) && !Unserved(mux, path)
    ensures r.None? ==> Unserved(mux, path)
  {
    r := None;
    var remaining := mux.Keys;
    while remaining != {}
      invariant remaining <= mux.Keys
      invariant r.Some? ==> r.value in mux && Serves(r.value, path)
      invariant forall p :: p in mux && p !in remaining && Serves(p, path) ==> r.Some? && |p| <= |r.value|
      decreases |remaining|
    {
      var p :| p in remaining;
      if Serves(p, path) && (r.None? || |p| > |r.value|) {
        r := Some(p);
      }
      remaining := remaining - {p};
    }
  }

  class Router {
    /** The ServeMux's registrations. */
    var mux: map<string, Handler>
    /** The repository behind the service. */
    const repo: Repository
    /** jwt.Service.ValidateToken */
    const validate: string -> Validation

    ghost predicate Valid()
      reads this, repo
    {
      repo.Valid()
    }

    /** NewRouter: an empty ServeMux. */
    constructor (repo: Repository, validate: string -> Validation)
      ensures mux == map[] && this.repo == repo && this.validate == validate
    {
      this.mux := map[];
      this.repo := repo;
      this.validate := validate;
    }

    /** Setup: builds the common stack with Chain, wraps it in JWTAuth and
        registers the result for "/users/". ServeMux refuses a pattern
        registered twice. */
    method Setup()
      requires UsersPrefix !in mux
      modifies this
      ensures mux == old(mux)[UsersPrefix := UsersStack]
    {
      var common := Chain(RouteRequest, [Logger, Recover, ContentTypeJSON]);
      var auth := Chain(common, [JWTAuth]);
      assert Layers(auth) == Layers(UsersStack);
      LayersDetermine(auth, UsersStack);
      mux := mux[UsersPrefix := auth];
    }

    /** GET /users/{id}/status after validation: the repository's answer
        as a reply; nothing changes. */
    method ServeUserStatus(id: Uuid, contentType: Option<string>, env: Env) returns (resp: Response)
      requires Valid()
      ensures resp == Render(UserStatusReply(repo.GetUserByID(id, env.faults)), contentType)
    {
      resp := Render(UserStatusReply(repo.GetUserByID(id, env.faults)), contentType);
    }

    /** GET /users/leaderboard after validation: a 200 exactly when the
        query and every row read succeed, and then the ranked rows; nothing
        changes. */
    method ServeLeaderboard(limit: int, contentType: Option<string>, env: Env) returns (resp: Response)
      requires Valid() && limit >= 1
      ensures resp.status == StatusOK <==> LeaderboardSucceeds(repo.users, limit, env.faults)
      ensures resp.status == StatusOK ==>
        && resp.contentType == contentType && resp.body.UsersJson?
        && IsLeaderboard(repo.users, limit, resp.body.users)
      ensures resp.status != StatusOK ==> resp.status == StatusInternalServerError
    {
      var res := repo.GetLeaderboard(limit, env.faults);
      resp := Render(LeaderboardReply(res), contentType);
    }

    /** POST /users/{id}/task/complete after validation: a 200 with the
        recorded task exactly when the transaction commits, which credits
        its points; any other outcome is a 500 that changes nothing. */
    method ServeCompleteTask(userId: Uuid, req: TaskRequest, contentType: Option<string>, env: Env) returns (resp: Response)
      requires Valid()
      modifies repo
      ensures Valid()
      ensures resp.status == StatusOK <==> TaskCommits(old(repo.users), old(repo.tasks), userId, req, env)
      ensures var task := Task(env.newTaskId, userId, req.taskType, req.points, env.clock);
        && (resp.status == StatusOK ==>
              && resp == Response(StatusOK, contentType, TaskJson(task))
              && repo.tasks == old(repo.tasks) + [task]
              && repo.users == Credit(old(repo.users), userId, req.points, env.dbNow))
        && (resp.status != StatusOK ==>
              resp.status == StatusInternalServerError && repo.users == old(repo.users) && repo.tasks == old(repo.tasks))
    {
      var res := repo.CompleteTask(userId, req, env);
      resp := Render(TaskReply(res), contentType);
      if res.Err? {
        assert resp.status == StatusInternalServerError;
      }
    }

    /** POST /users/{id}/referrer after validation: a 200 with the updated
        user exactly when the transaction commits, which links the user and
        credits the referrer; any other outcome is a 500 that changes
        nothing. */
    method ServeAddReferrer(userId: Uuid, referrer: Uuid, contentType: Option<string>, env: Env) returns (resp: Response)
      requires Valid()
      modifies repo
      ensures Valid()
      ensures resp.status == StatusOK <==> ReferralCommits(old(repo.users), userId, referrer, env)
      ensures resp.status == StatusOK ==>
        && repo.users == Credit(Link(old(repo.users), userId, referrer, env.dbNow), referrer, ReferralBonus, env.dbNow)
        && repo.tasks == old(repo.tasks)
        && userId in repo.users
        && resp == Response(StatusOK, contentType, UserJson(Row(repo.users[userId])))
      ensures resp.status != StatusOK ==>
        resp.status == StatusInternalServerError && repo.users == old(repo.users) && repo.tasks == old(repo.tasks)
    {
      var res := repo.AddReferrer(userId, referrer, env);
      resp := Render(ReferrerReply(res), contentType);
      if res.Err? {
        assert resp.status == StatusInternalServerError;
      }
    }

    /** Carries out a plan: a request stopped before the service gets its
        response and changes nothing; otherwise the route's own method makes
        the service call and writes the reply. Only a completed task or
        referral changes the tables, each exactly as its transaction
        commits it. */
    method Serve(plan: Plan, env: Env) returns (resp: Response)
      requires Valid()
      requires plan.Invoke? && plan.call.GetLeaderboard? ==> plan.call.limit >= 1
      modifies repo
      ensures Valid()
      ensures plan.Done? ==> resp == plan.response && repo.users == old(repo.users) && repo.tasks == old(repo.tasks)
      ensures plan.Invoke? && (plan.call.GetUser? || plan.call.GetLeaderboard?) ==>
        repo.users == old(repo.users) && repo.tasks == old(repo.tasks)
      ensures plan.Invoke? && plan.call.GetUser? ==>
        resp == Render(UserStatusReply(repo.GetUserByID(plan.call.id, env.faults)), plan.contentType)
      ensures plan.Invoke? && plan.call.GetLeaderboard? ==>
        (resp.status == StatusOK <==> LeaderboardSucceeds(repo.users, plan.call.limit, env.faults))
      ensures plan.Invoke? && plan.call.CompleteTask? ==>
        (resp.status == StatusOK <==> TaskCommits(old(repo.users), old(repo.tasks), plan.call.userId, plan.call.req, env))
      ensures plan.Invoke? && plan.call.AddReferrer? ==>
        (resp.status == StatusOK <==> ReferralCommits(old(repo.users), plan.call.userId, plan.call.referrerId, env))
      ensures plan.Invoke? && plan.call.GetLeaderboard? && resp.status == StatusOK ==>
        resp.body.UsersJson? && IsLeaderboard(repo.users, plan.call.limit, resp.body.users)
      ensures plan.Invoke? && plan.call.CompleteTask? && resp.status == StatusOK ==>
        var task := Task(env.newTaskId, plan.call.userId, plan.call.req.taskType, plan.call.req.points, env.clock);
        && resp.body == TaskJson(task)
        && repo.tasks == old(repo.tasks) + [task]
        && repo.users == Credit(old(repo.users), plan.call.userId, plan.call.req.points, env.dbNow)
      ensures plan.Invoke? && plan.call.AddReferrer? && resp.status == StatusOK ==>
        && repo.users == Credit(Link(old(repo.users), plan.call.userId, plan.call.referrerId, env.dbNow),
                                plan.call.referrerId, ReferralBonus, env.dbNow)
        && repo.tasks == old(repo.tasks)
        && plan.call.userId in repo.users
        && resp.body == UserJson(Row(repo.users[plan.call.userId]))
      ensures resp.status != StatusOK && (plan.Invoke? ==> !plan.call.GetUser?) ==>
        repo.users == old(repo.users) && repo.tasks == old(repo.tasks)
    {
      match plan
      case Done(response) =>
        resp := response;
      case Invoke(call, contentType) =>
        match call
        case GetUser(id) =>
          resp := ServeUserStatus(id, contentType, env);
        case GetLeaderboard(limit) =>
          resp := ServeLeaderboard(limit, contentType, env);
        case CompleteTask(userId, task) =>
          resp := ServeCompleteTask(userId, task, contentType, env);
        case AddReferrer(userId, referrerId) =>
          resp := ServeAddReferrer(userId, referrerId, contentType, env);
    }

    /** A request through the handler `h`: the plan Run makes for it,
        carried out by Serve. */
    method Handle(h: Handler, req: Request, env: Env) returns (resp: Response)
      requires Valid()
      modifies repo
      ensures Valid()
    {
      var plan := Run(h, req, validate, None);
      resp := Serve(plan, env);
    }

    /** ServeHTTP: the mux picks the handler of the longest pattern serving
        the path, runs the request through it and carries out the plan; a
        path no pattern serves is a 404 that touches nothing. */
    method ServeHTTP(req: Request, env: Env) returns (resp: Response)
      requires Valid()
      modifies repo
      ensures Valid()
      ensures Unserved(mux, req.path) ==> resp == NotFound() && repo.users == old(repo.users) && repo.tasks == old(repo.tasks)
    {
      var pattern := Lookup(mux, req.path);
      if pattern.None? {
        return NotFound();
      }
      resp := Handle(mux[pattern.value], req, env);
    }
  }
}
