/** The four handlers of internal/router/handlers/user_handler.go. Each
    handler first validates the request and either answers it at once or
    calls the service; it then turns the service's result into a reply. The
    two halves are separate functions here: a Step decides, a Reply
    function answers. The service layer passes every call and result
    through unchanged, so a service call is the repository call of the same
    name. */
module Handlers {
  import opened Wrappers
  import opened Models
  import opened Uuids
  import opened Strings
  import opened Numbers
  import opened Http
  import opened Postgres

  /** The leaderboard's length when the query does not give a usable one. */
  const DefaultLimit := 10

  /** A call from a handler into the service. */
  datatype ServiceCall =
    | GetUser(id: Uuid)
    | GetLeaderboard(limit: int)
    | CompleteTask(userId: Uuid, req: TaskRequest)
    | AddReferrer(userId: Uuid, referrerId: Uuid)

  /** What a handler writes: an http.Error with its status and message, or a
      200 with a JSON value. */
  datatype Reply = Failure(status: int, message: string) | Success(payload: Payload)

  /** A handler's decision before the service is involved. */
  datatype Step = Respond(reply: Reply) | Call(call: ServiceCall)

  /** strings.Split(r.URL.Path, "/") */
  function Segments(path: string): seq<string> {
    Split(path, '/')
  }

  // ---------------------------------------------------------------------
  // Validation.

  /** GetUserStatus up to the service call: the path needs four segments and
      the third must be a UUID. */
  function UserStatusStep(path: string): (r: Step)
    ensures r.Call? <==> |Segments(path)| >= 4 && ParseUuid(Segments(path)[2]).Some?
    ensures r.Call? ==> r.call == GetUser(ParseUuid(Segments(path)[2]).value)
    ensures r.Respond? ==> r.reply.Failure? && r.reply.status == StatusBadRequest
    ensures |Segments(path)| < 4 ==> r == Respond(Failure(StatusBadRequest, "Invalid URL"))
    ensures |Segments(path)| >= 4 && ParseUuid(Segments(path)[2]).None? ==>
      r == Respond(Failure(StatusBadRequest, "Invalid user ID format"))
  {
    var segments := Segments(path);
    if |segments| < 4 then Respond(Failure(StatusBadRequest, "Invalid URL"))
    else match ParseUuid(segments[2])
      case None => Respond(Failure(StatusBadRequest, "Invalid user ID format"))
      case Some(id) => Call(GetUser(id))
  }

  /** The leaderboard length GetLeaderboard asks for: the `limit` parameter
      when it is a positive int, otherwise 10. */
  function LimitOf(param: string): (limit: int)
    ensures 1 <= limit <= Int64Max
    ensures param == "" ==> limit == DefaultLimit
    ensures Atoi(param).Some? && Atoi(param).value > 0 ==> limit == Atoi(param).value
    ensures Atoi(param).None? || Atoi(param).value <= 0 ==> limit == DefaultLimit
  {
    if param == "" then DefaultLimit
    else match Atoi(param)
      case Some(n) => if n > 0 then n else DefaultLimit
      case None => DefaultLimit
  }

  /** Every positive int written in decimal is taken as the limit itself. */
  lemma LimitOfDecimal(n: nat)
    requires 1 <= n <= Int64Max
    ensures LimitOf(Decimal(n)) == n
  {
    AtoiDecimal(n);
  }

  /** GetLeaderboard up to the service call: it always calls the service,
      with the limit LimitOf reads from the parameter. */
  function LeaderboardStep(param: string): (r: Step)
    ensures r.Call? && r.call.GetLeaderboard? && r.call.limit >= 1
    ensures r == Call(GetLeaderboard(LimitOf(param)))
  {
    Call(GetLeaderboard(LimitOf(param)))
  }

  /** CompleteTask up to the service call: five segments, a UUID in the
      third, a decodable body, a task type and positive points, checked in
      that order. */
  function CompleteTaskStep(path: string, body: Option<TaskRequest>): (r: Step)
    ensures r.Call? <==>
      && |Segments(path)| >= 5 && ParseUuid(Segments(path)[2]).Some?
      && body.Some? && body.value.taskType != "" && body.value.points > 0
    ensures r.Call? ==> r.call == CompleteTask(ParseUuid(Segments(path)[2]).value, body.value)
    ensures r.Respond? ==> r.reply.Failure? && r.reply.status == StatusBadRequest
    ensures |Segments(path)| < 5 ==> r == Respond(Failure(StatusBadRequest, "Invalid URL"))
    ensures |Segments(path)| >= 5 && ParseUuid(Segments(path)[2]).None? ==>
      r == Respond(Failure(StatusBadRequest, "Invalid user ID format"))
    ensures |Segments(path)| >= 5 && ParseUuid(Segments(path)[2]).Some? && body.None? ==>
      r == Respond(Failure(StatusBadRequest, "Invalid request body"))
    ensures |Segments(path)| >= 5 && ParseUuid(Segments(path)[2]).Some? && body.Some? && body.value.taskType == "" ==>
      r == Respond(Failure(StatusBadRequest, "Task type is required"))
    ensures |Segments(path)| >= 5 && ParseUuid(Segments(path)[2]).Some? && body.Some? && body.value.taskType != ""
            && body.value.points <= 0 ==>
      r == Respond(Failure(StatusBadRequest, "Points must be positive"))
  {
    var segments := Segments(path);
    if |segments| < 5 then Respond(Failure(StatusBadRequest, "Invalid URL"))
    else match ParseUuid(segments[2])
      case None => Respond(Failure(StatusBadRequest, "Invalid user ID format"))
      case Some(id) =>
        match body
        case None => Respond(Failure(StatusBadRequest, "Invalid request body"))
        case Some(req) =>
          if req.taskType == "" then Respond(Failure(StatusBadRequest, "Task type is required"))
          else if req.points <= 0 then Respond(Failure(StatusBadRequest, "Points must be positive"))
          else Call(CompleteTask(id, req))
  }

  /** AddReferrer up to the service call: four segments, a UUID in the third,
      a decodable body, and a non-empty referrer id that is a UUID. */
  function AddReferrerStep(path: string, body: Option<ReferrerRequest>): (r: Step)
    ensures r.Call? <==>
      && |Segments(path)| >= 4 && ParseUuid(Segments(path)[2]).Some?
      && body.Some? && ParseUuid(body.value.referrerId).Some?
    ensures r.Call? ==>
      r.call == AddReferrer(ParseUuid(Segments(path)[2]).value, ParseUuid(body.value.referrerId).value)
    ensures r.Respond? ==> r.reply.Failure? && r.reply.status == StatusBadRequest
    ensures |Segments(path)| < 4 ==> r == Respond(Failure(StatusBadRequest, "Invalid URL"))
    ensures |Segments(path)| >= 4 && ParseUuid(Segments(path)[2]).None? ==>
      r == Respond(Failure(StatusBadRequest, "Invalid user ID format"))
    ensures |Segments(path)| >= 4 && ParseUuid(Segments(path)[2]).Some? && body.None? ==>
      r == Respond(Failure(StatusBadRequest, "Invalid request body"))
    ensures |Segments(path)| >= 4 && ParseUuid(Segments(path)[2]).Some? && body.Some? && body.value.referrerId == "" ==>
      r == Respond(Failure(StatusBadRequest, "Referrer ID is required"))
    ensures |Segments(path)| >= 4 && ParseUuid(Segments(path)[2]).Some? && body.Some? && body.value.referrerId != ""
            && ParseUuid(body.value.referrerId).None? ==>
      r == Respond(Failure(StatusBadRequest, "Invalid referrer ID format"))
  {
    var segments := Segments(path);
    if |segments| < 4 then Respond(Failure(StatusBadRequest, "Invalid URL"))
    else match ParseUuid(segments[2])
      case None => Respond(Failure(StatusBadRequest, "Invalid user ID format"))
      case Some(id) =>
        match body
        case None => Respond(Failure(StatusBadRequest, "Invalid request body"))
        case Some(req) =>
          if req.referrerId == "" then Respond(Failure(StatusBadRequest, "Referrer ID is required"))
          else match ParseUuid(req.referrerId)
            case None => Respond(Failure(StatusBadRequest, "Invalid referrer ID format"))
            case Some(referrer) => Call(AddReferrer(id, referrer))
  }

  /** A path whose third segment spells a UUID canonically asks for that
      user's status. */
  lemma UserStatusStepCalls(path: string, u: Uuid)
    requires WellFormed(u)
    requires |Segments(path)| >= 4 && Segments(path)[2] == Format(u)
    ensures UserStatusStep(path) == Call(GetUser(u))
  {
    ParseFormat(u);
  }

  /** A well-formed task completion for a canonically spelled user reaches
      the service with that user and the request body unchanged. */
  lemma CompleteTaskStepCalls(path: string, u: Uuid, req: TaskRequest)
    requires WellFormed(u)
    requires |Segments(path)| >= 5 && Segments(path)[2] == Format(u)
    requires req.taskType != "" && req.points > 0
    ensures CompleteTaskStep(path, Some(req)) == Call(CompleteTask(u, req))
  {
    ParseFormat(u);
  }

  /** A referral naming a canonically spelled referrer for a canonically
      spelled user reaches the service with those two users. */
  lemma AddReferrerStepCalls(path: string, u: Uuid, referrer: Uuid)
    requires WellFormed(u) && WellFormed(referrer)
    requires |Segments(path)| >= 4 && Segments(path)[2] == Format(u)
    ensures AddReferrerStep(path, Some(ReferrerRequest(Format(referrer)))) == Call(AddReferrer(u, referrer))
  {
    ParseFormat(u);
    ParseFormat(referrer);
  }

  // ---------------------------------------------------------------------
  // Replies.

  /** The 500 a handler writes when the service fails: what it was doing,
      then the error's text. */
  function ServiceFailure(action: string, e: RepoError): (r: Reply)
    ensures r.Failure? && r.status == StatusInternalServerError
    ensures r.message == "Failed to " + action + ": " + e.Message()
  {
    Failure(StatusInternalServerError, "Failed to " + action + ": " + e.Message())
  }

  /** GetUserStatus after the service call: the user, a 404 when there is
      none, or a 500 naming the service's error. */
  function UserStatusReply(res: Result<Option<User>, RepoError>): (r: Reply)
    ensures r.Success? <==> res.Ok? && res.value.Some?
    ensures r.Success? ==> r.payload == UserJson(res.value.value)
    ensures res == Ok(None) ==> r == Failure(StatusNotFound, "User not found")
    ensures res.Err? ==> r == ServiceFailure("get user", res.error)
  {
    match res
    case Err(e) => ServiceFailure("get user", e)
    case Ok(None) => Failure(StatusNotFound, "User not found")
    case Ok(Some(user)) => Success(UserJson(user))
  }

  /** GetLeaderboard after the service call: the rows, or a 500. */
  function LeaderboardReply(res: Result<seq<User>, RepoError>): (r: Reply)
    ensures r.Success? <==> res.Ok?
    ensures r.Success? ==> r.payload == UsersJson(res.value)
    ensures res.Err? ==> r == ServiceFailure("get leaderboard", res.error)
  {
    match res
    case Err(e) => ServiceFailure("get leaderboard", e)
    case Ok(users) => Success(UsersJson(users))
  }

  /** CompleteTask after the service call: the recorded task, or a 500. */
  function TaskReply(res: Result<Task, RepoError>): (r: Reply)
    ensures r.Success? <==> res.Ok?
    ensures r.Success? ==> r.payload == TaskJson(res.value)
    ensures res.Err? ==> r == ServiceFailure("complete task", res.error)
  {
    match res
    case Err(e) => ServiceFailure("complete task", e)
    case Ok(task) => Success(TaskJson(task))
  }

  /** AddReferrer after the service call: the updated user, or a 500. Every
      repository refusal, "referrer not found" included, is a 500. */
  function ReferrerReply(res: Result<User, RepoError>): (r: Reply)
    ensures r.Success? <==> res.Ok?
    ensures r.Success? ==> r.payload == UserJson(res.value)
    ensures res.Err? ==> r == ServiceFailure("add referrer", res.error)
  {
    match res
    case Err(e) => ServiceFailure("add referrer", e)
    case Ok(user) => Success(UserJson(user))
  }

  /** GetUserStatus over the two readings of GetUserByID: for every user
      that exists, the query as written makes the handler answer 500, while
      the intended query answers with the user's row. */
  lemma UserStatusOfExistingUser(repo: Repository, id: Uuid, faults: map<Stmt, string>)
    requires id in repo.users && SelectUser !in faults
    ensures UserStatusReply(repo.GetUserByIDAsWritten(id, faults)) ==
      ServiceFailure("get user", DbFailure(SelectUser, ScanArity))
    ensures UserStatusReply(repo.GetUserByID(id, faults)) == Success(UserJson(Row(repo.users[id])))
  {
  }
}
