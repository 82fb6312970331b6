/** The PostgreSQL repository (internal/repository/postgres/repository.go):
    the users and tasks tables, the two transactions that move points
    (CompleteTask and AddReferrer) and the two queries (GetUserByID and
    GetLeaderboard). Each call is one sequential step on the tables. */
module Postgres {
  import opened Wrappers
  import opened Uuids
  import opened Models

  /** The points a referrer is credited when a user names them. */
  const ReferralBonus: int := 10

  /** The SQL statements the repository issues, each of which the database
      may refuse. */
  datatype Stmt =
    | BeginTx
    | CheckUserExists
    | InsertTask
    | UpdateUserPoints
    | CheckReferrerExists
    | CheckUserReferrer
    | UpdateUserReferrer
    | UpdateReferrerPoints
    | ReadUpdatedUser
    | CommitTx
    | SelectUser
    | SelectLeaderboard
    | ScanLeaderboardRow
    | IterateLeaderboard

  /** The errors the repository returns. */
  datatype RepoError =
    | UserNotFound
    | ReferrerNotFound
    | AlreadyHasReferrer
    | DbFailure(at: Stmt, cause: string)
  {
    /** The error's text, as fmt.Errorf and errors.New spell it. */
    function Message(): string {
      match this
      case UserNotFound => "user not found"
      case ReferrerNotFound => "referrer not found"
      case AlreadyHasReferrer => "user already has a referrer"
      case DbFailure(at, cause) => Context(at) + ": " + cause
    }
  }

  /** The wrapping text each failed statement's error carries. */
  function Context(s: Stmt): string {
    match s
    case BeginTx => "failed to begin transaction"
    case CheckUserExists => "failed to check user existence"
    case InsertTask => "failed to insert task"
    case UpdateUserPoints => "failed to update user points"
    case CheckReferrerExists => "failed to check referrer existence"
    case CheckUserReferrer => "failed to check user referrer"
    case UpdateUserReferrer => "failed to update user referrer"
    case UpdateReferrerPoints => "failed to update referrer points"
    case ReadUpdatedUser => "failed to get updated user"
    case CommitTx => "failed to commit transaction"
    case SelectUser => "failed to get user"
    case SelectLeaderboard => "failed to query leaderboard"
    case ScanLeaderboardRow => "failed to scan user"
    case IterateLeaderboard => "error iterating rows"
  }

  /** What the outside world contributes to one call: the id uuid.New()
      returns, the Go clock (time.Now()), the database clock (NOW()), and the
      statements the database refuses, with the driver's error text. */
  datatype Env = Env(newTaskId: Uuid, clock: Time, dbNow: Time, faults: map<Stmt, string>)

  /** The error a refused statement produces. */
  function Refused(env: Env, s: Stmt): RepoError
    requires s in env.faults
  {
    DbFailure(s, env.faults[s])
  }

  const DuplicateKey := "pq: duplicate key value violates unique constraint"
  const CheckViolation := "pq: new row violates check constraint"
  const NegativeLimit := "pq: LIMIT must not be negative"
  /** What database/sql reports for GetUserByID's Scan of six columns into
      seven destinations. */
  const ScanArity := "sql: expected 6 destination arguments in Scan, not 7"

  /** A user as the queries read it back: every column but passw, so the
      password is Go's zero value. */
  function Row(u: User): (r: User)
    ensures r.password == "" && r.(password := u.password) == u
  {
    u.(password := "")
  }

  /** UPDATE users SET points = points + amount, updated_at = NOW() WHERE id = id:
      the row's balance moves by exactly `amount`; no other row changes, and
      no row at all when `id` has none. */
  function Credit(users: map<Uuid, User>, id: Uuid, amount: int, now: Time): (r: map<Uuid, User>)
    ensures r.Keys == users.Keys
    ensures id in users ==> r[id] == users[id].(points := users[id].points + amount, updatedAt := now)
    ensures forall k :: k in users && k != id ==> r[k] == users[k]
  {
    if id in users then users[id := users[id].(points := users[id].points + amount, updatedAt := now)]
    else users
  }

  /** UPDATE users SET referrer_id = referrer, updated_at = NOW() WHERE id = id. */
  function Link(users: map<Uuid, User>, id: Uuid, referrer: Uuid, now: Time): (r: map<Uuid, User>)
    ensures r.Keys == users.Keys
    ensures id in users ==> r[id] == users[id].(referrerId := Some(referrer), updatedAt := now)
    ensures forall k :: k in users && k != id ==> r[k] == users[k]
  {
    if id in users then users[id := users[id].(referrerId := Some(referrer), updatedAt := now)]
    else users
  }

  predicate HasTaskId(tasks: seq<Task>, id: Uuid) {
    exists i :: 0 <= i < |tasks| && tasks[i].id == id
  }

  // ---------------------------------------------------------------------
  // The ledger: what every balance is made of.

  /** The points awarded to `id` by the tasks recorded for it. */
  function Earned(tasks: seq<Task>, id: Uuid): int
    decreases |tasks|
  {
    if |tasks| == 0 then 0
    else
      var last := tasks[|tasks| - 1];
      Earned(tasks[..|tasks| - 1], id) + (if last.userId == id then last.points else 0)
  }

  /** The users that name `id` as their referrer. */
  ghost function Referred(users: map<Uuid, User>, id: Uuid): set<Uuid> {
    set v | v in users && users[v].referrerId == Some(id)
  }

  /** Every balance is the sum of its tasks' points plus one referral bonus
      per user that names it as referrer. */
  ghost predicate Ledger(users: map<Uuid, User>, tasks: seq<Task>) {
    forall id :: id in users ==> users[id].points == Earned(tasks, id) + ReferralBonus * |Referred(users, id)|
  }

  /** The constraints of the two tables: primary keys, the foreign keys of
      tasks.user_id and users.referrer_id, and CHECK (points > 0) on tasks. */
  ghost predicate Constraints(users: map<Uuid, User>, tasks: seq<Task>) {
    && KeyedById(users)
    && (forall id :: id in users && users[id].referrerId.Some? ==> users[id].referrerId.value in users)
    && (forall i :: 0 <= i < |tasks| ==> tasks[i].userId in users && tasks[i].points > 0)
    && (forall i, j :: 0 <= i < j < |tasks| ==> tasks[i].id != tasks[j].id)
  }

  /** Each user row sits under its own id, the primary key. */
  ghost predicate KeyedById(users: map<Uuid, User>) {
    forall id :: id in users ==> users[id].id == id
  }

  /** Every referrer link that was set is still there, unchanged, and no
      user has disappeared. */
  ghost predicate LinksKept(before: map<Uuid, User>, after: map<Uuid, User>) {
    && before.Keys <= after.Keys
    && forall id :: id in before && before[id].referrerId.Some? ==> after[id].referrerId == before[id].referrerId
  }

  lemma {:induction false} EarnedAppend(tasks: seq<Task>, t: Task, id: Uuid)
    ensures Earned(tasks + [t], id) == Earned(tasks, id) + (if t.userId == id then t.points else 0)
  {
    assert (tasks + [t])[..|tasks|] == tasks;
  }

  /** A user no task refers to has earned nothing. */
  lemma {:induction false} EarnedNothing(tasks: seq<Task>, id: Uuid)
    requires forall i :: 0 <= i < |tasks| ==> tasks[i].userId != id
    ensures Earned(tasks, id) == 0
    decreases |tasks|
  {
    if |tasks| > 0 {
      EarnedNothing(tasks[..|tasks| - 1], id);
    }
  }

  /** Tasks award positive points, so what a user earned is never negative. */
  lemma {:induction false} EarnedNonNegative(tasks: seq<Task>, id: Uuid)
    requires forall i :: 0 <= i < |tasks| ==> tasks[i].points > 0
    ensures Earned(tasks, id) >= 0
    decreases |tasks|
  {
    if |tasks| > 0 {
      EarnedNonNegative(tasks[..|tasks| - 1], id);
    }
  }

  /** Under the ledger every balance is non-negative. */
  lemma BalancesNonNegative(users: map<Uuid, User>, tasks: seq<Task>, id: Uuid)
    requires Constraints(users, tasks) && Ledger(users, tasks)
    requires id in users
    ensures users[id].points >= 0
  {
    EarnedNonNegative(tasks, id);
  }

  /** Recording a task and crediting its owner by the task's points, together,
      keep the ledger balanced. */
  lemma LedgerAfterTask(users: map<Uuid, User>, tasks: seq<Task>, t: Task, now: Time)
    requires Ledger(users, tasks)
    requires t.userId in users
    ensures Ledger(Credit(users, t.userId, t.points, now), tasks + [t])
  {
    var users' := Credit(users, t.userId, t.points, now);
    forall id | id in users'
      ensures users'[id].points == Earned(tasks + [t], id) + ReferralBonus * |Referred(users', id)|
    {
      EarnedAppend(tasks, t, id);
      assert Referred(users', id) == Referred(users, id);
    }
  }

  /** After linking `user` (who had no referrer) to `referrer` and paying
      the bonus, exactly one user more names `referrer`, and the users naming
      anyone else are the same. */
  lemma ReferredAfterReferral(users: map<Uuid, User>, user: Uuid, referrer: Uuid, now: Time, id: Uuid)
    requires user in users && users[user].referrerId == None
    ensures var users' := Credit(Link(users, user, referrer, now), referrer, ReferralBonus, now);
      Referred(users', id) == if id == referrer then Referred(users, id) + {user} else Referred(users, id)
  {
    var users' := Credit(Link(users, user, referrer, now), referrer, ReferralBonus, now);
    assert forall v :: v in users' ==> users'[v].referrerId == if v == user then Some(referrer) else users[v].referrerId;
  }

  /** Linking a user without a referrer to `referrer` and crediting the
      referrer the bonus, together, keep the ledger balanced. */
  lemma LedgerAfterReferral(users: map<Uuid, User>, tasks: seq<Task>, user: Uuid, referrer: Uuid, now: Time)
    requires Ledger(users, tasks)
    requires user in users && referrer in users
    requires users[user].referrerId == None
    ensures Ledger(Credit(Link(users, user, referrer, now), referrer, ReferralBonus, now), tasks)
  {
    var users' := Credit(Link(users, user, referrer, now), referrer, ReferralBonus, now);
    forall id | id in users'
      ensures users'[id].points == Earned(tasks, id) + ReferralBonus * |Referred(users', id)|
    {
      ReferredAfterReferral(users, user, referrer, now, id);
      if id == referrer {
        assert user !in Referred(users, id);
        assert |Referred(users', id)| == |Referred(users, id)| + 1;
      }
    }
  }

  /** Adding a user with no points and no referrer keeps the ledger balanced. */
  lemma LedgerAfterNewUser(users: map<Uuid, User>, tasks: seq<Task>, u: User)
    requires Constraints(users, tasks) && Ledger(users, tasks)
    requires u.id !in users && u.points == 0 && u.referrerId == None
    ensures Ledger(users[u.id := u], tasks)
  {
    var users' := users[u.id := u];
    forall id | id in users'
      ensures users'[id].points == Earned(tasks, id) + ReferralBonus * |Referred(users', id)|
    {
      if id == u.id {
        EarnedNothing(tasks, id);
        assert Referred(users', id) == {};
      } else {
        assert Referred(users', id) == Referred(users, id);
      }
    }
  }

  /** A completed task keeps both tables consistent: the constraints hold
      and the ledger balances. */
  lemma TaskKeepsTables(users: map<Uuid, User>, tasks: seq<Task>, t: Task, now: Time)
    requires Constraints(users, tasks) && Ledger(users, tasks)
    requires t.userId in users && t.points > 0 && !HasTaskId(tasks, t.id)
    ensures Constraints(Credit(users, t.userId, t.points, now), tasks + [t])
    ensures Ledger(Credit(users, t.userId, t.points, now), tasks + [t])
  {
    LedgerAfterTask(users, tasks, t, now);
    var tasks' := tasks + [t];
    forall i, j | 0 <= i < j < |tasks'| ensures tasks'[i].id != tasks'[j].id {
      if j == |tasks| {
        assert tasks'[i] == tasks[i];
      }
    }
  }

  /** A referral keeps both tables consistent: the constraints hold and the
      ledger balances. */
  lemma ReferralKeepsTables(users: map<Uuid, User>, tasks: seq<Task>, user: Uuid, referrer: Uuid, now: Time)
    requires Constraints(users, tasks) && Ledger(users, tasks)
    requires user in users && referrer in users && users[user].referrerId == None
    ensures Constraints(Credit(Link(users, user, referrer, now), referrer, ReferralBonus, now), tasks)
    ensures Ledger(Credit(Link(users, user, referrer, now), referrer, ReferralBonus, now), tasks)
  {
    LedgerAfterReferral(users, tasks, user, referrer, now);
  }

  // ---------------------------------------------------------------------
  // Leaderboard specification.

  /** `top` has the most points among `ids`. */
  predicate IsHighest(users: map<Uuid, User>, ids: set<Uuid>, top: Uuid)
    requires ids <= users.Keys && top in users
  {
    forall o :: o in ids ==> users[o].points <= users[top].points
  }

  /** Every non-empty set of users has one with the most points. */
  lemma {:induction false} HighestExists(users: map<Uuid, User>, ids: set<Uuid>)
    requires ids != {} && ids <= users.Keys
    ensures exists top :: top in ids && IsHighest(users, ids, top)
    decreases ids
  {
    var x :| x in ids;
    if ids != {x} {
      var rest := ids - {x};
      HighestExists(users, rest);
      var t :| t in rest && IsHighest(users, rest, t);
      if users[x].points <= users[t].points {
        assert IsHighest(users, ids, t);
      } else {
        assert IsHighest(users, ids, x);
      }
    } else {
      assert IsHighest(users, ids, x);
    }
  }

  function Min(a: int, b: int): int {
    if a <= b then a else b
  }

  predicate Lists(rows: seq<User>, id: Uuid) {
    exists i :: 0 <= i < |rows| && rows[i].id == id
  }

  /** SELECT ... FROM users ORDER BY points DESC LIMIT k: min(k, |users|)
      distinct rows of the table, by non-increasing points, and no user left
      off ranks above the last one listed. The order among equal balances is
      left open. */
  ghost predicate IsLeaderboard(users: map<Uuid, User>, k: int, rows: seq<User>) {
    && |rows| == Min(k, |users|)
    && (forall i :: 0 <= i < |rows| ==> rows[i].id in users && rows[i] == Row(users[rows[i].id]))
    && (forall i, j :: 0 <= i < j < |rows| ==> rows[i].id != rows[j].id)
    && (forall i, j :: 0 <= i < j < |rows| ==> rows[i].points >= rows[j].points)
    && (forall id :: id in users && !Lists(rows, id) && |rows| > 0 ==> users[id].points <= rows[|rows| - 1].points)
  }

  /** The rows built so far are those of the users outside `pending`, each
      once, as the query reads them. */
  ghost predicate RowsOfListed(users: map<Uuid, User>, rows: seq<User>, pending: set<Uuid>) {
    && pending <= users.Keys
    && |rows| + |pending| == |users|
    && (forall i :: 0 <= i < |rows| ==> rows[i].id in users && rows[i].id !in pending && rows[i] == Row(users[rows[i].id]))
    && (forall id :: id in users && id !in pending ==> Lists(rows, id))
  }

  /** The rows built so far go by non-increasing points, each user at most
      once, and no pending user ranks above the last of them. */
  ghost predicate RowsRanked(users: map<Uuid, User>, rows: seq<User>, pending: set<Uuid>) {
    && (forall i, j :: 0 <= i < j < |rows| ==> rows[i].id != rows[j].id)
    && (forall i, j :: 0 <= i < j < |rows| ==> rows[i].points >= rows[j].points)
    && (forall id :: id in pending && id in users && |rows| > 0 ==> users[id].points <= rows[|rows| - 1].points)
  }

  /** What the rows.Next() loop has built so far, with `pending` the users
      the query has yet to yield. */
  ghost predicate RankedSoFar(users: map<Uuid, User>, rows: seq<User>, pending: set<Uuid>) {
    RowsOfListed(users, rows, pending) && RowsRanked(users, rows, pending)
  }

  lemma RowsOfListedStep(users: map<Uuid, User>, rows: seq<User>, pending: set<Uuid>, top: Uuid)
    requires KeyedById(users)
    requires RowsOfListed(users, rows, pending)
    requires top in pending
    ensures RowsOfListed(users, rows + [Row(users[top])], pending - {top})
  {
    var rows' := rows + [Row(users[top])];
    var pending' := pending - {top};
    assert |pending'| == |pending| - 1;
    forall i | 0 <= i < |rows'|
      ensures rows'[i].id in users && rows'[i].id !in pending' && rows'[i] == Row(users[rows'[i].id])
    {
      if i < |rows| { assert rows'[i] == rows[i]; }
    }
    assert rows'[|rows|].id == top;
    forall id | id in users && id !in pending' ensures Lists(rows', id) {
      if id != top {
        var i :| 0 <= i < |rows| && rows[i].id == id;
        assert rows'[i].id == id;
      }
    }
  }

  lemma RowsRankedStep(users: map<Uuid, User>, rows: seq<User>, pending: set<Uuid>, top: Uuid)
    requires KeyedById(users)
    requires pending <= users.Keys
    requires forall i :: 0 <= i < |rows| ==> rows[i].id !in pending
    requires RowsRanked(users, rows, pending)
    requires top in pending && IsHighest(users, pending, top)
    ensures RowsRanked(users, rows + [Row(users[top])], pending - {top})
  {
    var row := Row(users[top]);
    var rows' := rows + [row];
    assert row.id == top && row.points == users[top].points;
    forall i, j | 0 <= i < j < |rows'|
      ensures rows'[i].id != rows'[j].id && rows'[i].points >= rows'[j].points
    {
      if j == |rows| {
        assert rows'[i] == rows[i] && rows'[j] == row;
        assert rows[i].points >= rows[|rows| - 1].points;
      } else {
        assert rows'[i] == rows[i] && rows'[j] == rows[j];
      }
    }
  }

  /** Appending the highest pending user keeps the rows ranked. */
  lemma RankedStep(users: map<Uuid, User>, rows: seq<User>, pending: set<Uuid>, top: Uuid)
    requires KeyedById(users)
    requires RankedSoFar(users, rows, pending)
    requires top in pending && IsHighest(users, pending, top)
    ensures RankedSoFar(users, rows + [Row(users[top])], pending - {top})
  {
    RowsOfListedStep(users, rows, pending, top);
    RowsRankedStep(users, rows, pending, top);
  }

  /** The loop's rows, once it stops, are the leaderboard. */
  lemma RankedComplete(users: map<Uuid, User>, rows: seq<User>, pending: set<Uuid>, k: int)
    requires RankedSoFar(users, rows, pending)
    requires 0 <= |rows| <= k
    requires |rows| == k || pending == {}
    ensures IsLeaderboard(users, k, rows)
  {
  }

  // ---------------------------------------------------------------------
  // When the calls succeed.

  /** Every statement of CompleteTask's transaction goes through: the user
      exists, the new task's id is unused and its points are positive, and
      the database refuses nothing. */
  predicate TaskCommits(users: map<Uuid, User>, tasks: seq<Task>, userID: Uuid, req: TaskRequest, env: Env) {
    && BeginTx !in env.faults
    && CheckUserExists !in env.faults && userID in users
    && InsertTask !in env.faults && !HasTaskId(tasks, env.newTaskId) && req.points > 0
    && UpdateUserPoints !in env.faults && CommitTx !in env.faults
  }

  /** Every statement of AddReferrer's transaction goes through: both users
      exist, the user has no referrer yet, and the database refuses nothing. */
  predicate ReferralCommits(users: map<Uuid, User>, userID: Uuid, referrerID: Uuid, env: Env) {
    && BeginTx !in env.faults
    && CheckReferrerExists !in env.faults && referrerID in users
    && CheckUserReferrer !in env.faults && userID in users
    && users[userID].referrerId == None
    && UpdateUserReferrer !in env.faults && UpdateReferrerPoints !in env.faults
    && ReadUpdatedUser !in env.faults && CommitTx !in env.faults
  }

  /** GetLeaderboard's query, every row it reads and the iteration succeed,
      and the limit is one the database accepts. */
  predicate LeaderboardSucceeds(users: map<Uuid, User>, limit: int, faults: map<Stmt, string>) {
    && SelectLeaderboard !in faults
    && limit >= 0
    && (ScanLeaderboardRow in faults ==> Min(limit, |users|) == 0)
    && IterateLeaderboard !in faults
  }

  // ---------------------------------------------------------------------
  // The repository.

  class Repository {
    /** The users table, by primary key. */
    var users: map<Uuid, User>
    /** The tasks table, in insertion order. */
    var tasks: seq<Task>

    ghost predicate Valid()
      reads this
    {
      Constraints(users, tasks) && Ledger(users, tasks)
    }

    /** A database with empty tables. */
    constructor ()
      ensures Valid() && users == map[] && tasks == []
    {
      users := map[];
      tasks := [];
    }

    /** Registration as the schema defaults it: a fresh row with no points
        and no referrer, created and updated now. */
    method AddUser(id: Uuid, username: string, password: string, now: Time)
      requires Valid()
      requires id !in users
      modifies this
      ensures Valid()
      ensures users == old(users)[id := User(id, username, password, 0, None, now, now)]
      ensures tasks == old(tasks)
    {
      var u := User(id, username, password, 0, None, now, now);
      LedgerAfterNewUser(users, tasks, u);
      users := users[id := u];
    }

    /** GetUserByID as intended: the user's row (without its password), an
        explicit "absent" when there is none, or the refused query's error. */
    function GetUserByID(id: Uuid, faults: map<Stmt, string>): (r: Result<Option<User>, RepoError>)
      reads this
      ensures r.Err? <==> SelectUser in faults
      ensures r.Err? ==> r.error == DbFailure(SelectUser, faults[SelectUser])
      ensures r.Ok? ==> (r.value.None? <==> id !in users)
      ensures r.Ok? && r.value.Some? ==> r.value.value == Row(users[id]) && r.value.value.password == ""
    {
      if SelectUser in faults then Err(DbFailure(SelectUser, faults[SelectUser]))
      else if id !in users then Ok(None)
      else Ok(Some(Row(users[id])))
    }

    /** GetUserByID as written: the query selects six columns but Scan is
        given seven destinations, which database/sql rejects for every row
        found; only the no-row case reaches its intended result. */
    function GetUserByIDAsWritten(id: Uuid, faults: map<Stmt, string>): (r: Result<Option<User>, RepoError>)
      reads this
      ensures id in users && SelectUser !in faults ==> r == Err(DbFailure(SelectUser, ScanArity))
      ensures id !in users && SelectUser !in faults ==> r == Ok(None)
    {
      if SelectUser in faults then Err(DbFailure(SelectUser, faults[SelectUser]))
      else if id !in users then Ok(None)
      else Err(DbFailure(SelectUser, ScanArity))
    }

    /** GetLeaderboard: runs the ranked query and reads its rows. */
    method GetLeaderboard(limit: int, faults: map<Stmt, string>) returns (r: Result<seq<User>, RepoError>)
      requires KeyedById(users)
      ensures r.Ok? <==> LeaderboardSucceeds(users, limit, faults)
      ensures r.Ok? ==> IsLeaderboard(users, limit, r.value)
    {
      if SelectLeaderboard in faults {
        return Err(DbFailure(SelectLeaderboard, faults[SelectLeaderboard]));
      }
      if limit < 0 {
        return Err(DbFailure(SelectLeaderboard, NegativeLimit));
      }
      r := ScanLeaderboard(limit, faults);
      if r.Ok? && IterateLeaderboard in faults {
        r := Err(DbFailure(IterateLeaderboard, faults[IterateLeaderboard]));
      }
    }

    /** The rows.Next() loop of GetLeaderboard: the rows the ORDER BY points
        DESC LIMIT query yields, highest balance first, appended one by one. */
    method ScanLeaderboard(limit: nat, faults: map<Stmt, string>) returns (r: Result<seq<User>, RepoError>)
      requires KeyedById(users)
      ensures r.Ok? <==> (ScanLeaderboardRow in faults ==> Min(limit, |users|) == 0)
      ensures r.Ok? ==> IsLeaderboard(users, limit, r.value)
    {
      var rows: seq<User> := [];
      var pending := users.Keys;
      while |rows| < limit && pending != {}
        invariant |rows| <= limit
        invariant RankedSoFar(users, rows, pending)
        invariant ScanLeaderboardRow in faults ==> rows == []
        decreases |pending|
      {
        if ScanLeaderboardRow in faults {
          return Err(DbFailure(ScanLeaderboardRow, faults[ScanLeaderboardRow]));
        }
        HighestExists(users, pending);
        var top :| top in pending && IsHighest(users, pending, top);
        RankedStep(users, rows, pending, top);
        rows := rows + [Row(users[top])];
        pending := pending - {top};
      }
      RankedComplete(users, rows, pending, limit);
      r := Ok(rows);
    }

    /** The statements of CompleteTask's transaction, from the existence
        check to the commit. On an error it may leave the tables part-way;
        CompleteTask rolls them back. */
    method CompleteTaskStatements(userID: Uuid, req: TaskRequest, env: Env) returns (r: Result<Task, RepoError>)
      modifies this
      ensures r.Ok? <==>
        && CheckUserExists !in env.faults && userID in old(users)
        && InsertTask !in env.faults && !HasTaskId(old(tasks), env.newTaskId) && req.points > 0
        && UpdateUserPoints !in env.faults && CommitTx !in env.faults
      ensures r == Err(UserNotFound) <==> CheckUserExists !in env.faults && userID !in old(users)
      ensures r.Ok? ==>
        && r.value == Task(env.newTaskId, userID, req.taskType, req.points, env.clock)
        && tasks == old(tasks) + [r.value]
        && users == Credit(old(users), userID, req.points, env.dbNow)
    {
      if CheckUserExists in env.faults {
        return Err(Refused(env, CheckUserExists));
      }
      var userExists := userID in users;
      if !userExists {
        return Err(UserNotFound);
      }
      var task := Task(env.newTaskId, userID, req.taskType, req.points, env.clock);
      // INSERT INTO tasks: refused by the database, or by the primary key or
      // CHECK (points > 0) constraint.
      if InsertTask in env.faults {
        return Err(Refused(env, InsertTask));
      }
      if HasTaskId(tasks, task.id) {
        return Err(DbFailure(InsertTask, DuplicateKey));
      }
      if task.points <= 0 {
        return Err(DbFailure(InsertTask, CheckViolation));
      }
      tasks := tasks + [task];
      // UPDATE users SET points = points + task.points
      if UpdateUserPoints in env.faults {
        return Err(Refused(env, UpdateUserPoints));
      }
      users := Credit(users, userID, task.points, env.dbNow);
      if CommitTx in env.faults {
        return Err(Refused(env, CommitTx));
      }
      r := Ok(task);
    }

    /** CompleteTask: records the task and credits its points to the user in
        one transaction; on any error nothing is changed. */
    method CompleteTask(userID: Uuid, req: TaskRequest, env: Env) returns (r: Result<Task, RepoError>)
      requires Valid()
      modifies this
      ensures Valid()
      ensures r.Ok? <==> TaskCommits(old(users), old(tasks), userID, req, env)
      ensures r == Err(UserNotFound) <==>
        BeginTx !in env.faults && CheckUserExists !in env.faults && userID !in old(users)
      ensures r.Ok? ==>
        && r.value == Task(env.newTaskId, userID, req.taskType, req.points, env.clock)
        && tasks == old(tasks) + [r.value]
        && users == Credit(old(users), userID, req.points, env.dbNow)
      ensures r.Err? ==> users == old(users) && tasks == old(tasks)
      ensures LinksKept(old(users), users)
    {
      if BeginTx in env.faults {
        return Err(Refused(env, BeginTx));
      }
      var savedUsers, savedTasks := users, tasks;
      r := CompleteTaskStatements(userID, req, env);
      if r.Err? {
        // the deferred tx.Rollback()
        users, tasks := savedUsers, savedTasks;
      } else {
        TaskKeepsTables(savedUsers, savedTasks, r.value, env.dbNow);
      }
    }

    /** The statements of AddReferrer's transaction, from the referrer check
        to the commit. On an error it may leave the tables part-way;
        AddReferrer rolls them back. */
    method AddReferrerStatements(userID: Uuid, referrerID: Uuid, env: Env) returns (r: Result<User, RepoError>)
      modifies this
      ensures r.Ok? <==>
        && CheckReferrerExists !in env.faults && referrerID in old(users)
        && CheckUserReferrer !in env.faults && userID in old(users)
        && old(users)[userID].referrerId == None
        && UpdateUserReferrer !in env.faults && UpdateReferrerPoints !in env.faults
        && ReadUpdatedUser !in env.faults && CommitTx !in env.faults
      ensures r == Err(ReferrerNotFound) <==> CheckReferrerExists !in env.faults && referrerID !in old(users)
      ensures r == Err(UserNotFound) <==>
        && CheckReferrerExists !in env.faults && referrerID in old(users)
        && CheckUserReferrer !in env.faults && userID !in old(users)
      ensures r == Err(AlreadyHasReferrer) <==>
        && CheckReferrerExists !in env.faults && referrerID in old(users)
        && CheckUserReferrer !in env.faults && userID in old(users)
        && old(users)[userID].referrerId.Some?
      ensures r.Ok? ==>
        && users == Credit(Link(old(users), userID, referrerID, env.dbNow), referrerID, ReferralBonus, env.dbNow)
        && tasks == old(tasks)
        && userID in users && r.value == Row(users[userID])
    {
      if CheckReferrerExists in env.faults {
        return Err(Refused(env, CheckReferrerExists));
      }
      var referrerExists := referrerID in users;
      if !referrerExists {
        return Err(ReferrerNotFound);
      }
      if CheckUserReferrer in env.faults {
        return Err(Refused(env, CheckUserReferrer));
      }
      if userID !in users {
        return Err(UserNotFound);
      }
      var hasReferrer := users[userID].referrerId.Some?;
      if hasReferrer {
        return Err(AlreadyHasReferrer);
      }
      // UPDATE users SET referrer_id = referrerID
      if UpdateUserReferrer in env.faults {
        return Err(Refused(env, UpdateUserReferrer));
      }
      users := Link(users, userID, referrerID, env.dbNow);
      // UPDATE users SET points = points + bonus for the referrer
      var bonusPoints := ReferralBonus;
      if UpdateReferrerPoints in env.faults {
        return Err(Refused(env, UpdateReferrerPoints));
      }
      users := Credit(users, referrerID, bonusPoints, env.dbNow);
      // SELECT the updated user
      if ReadUpdatedUser in env.faults {
        return Err(Refused(env, ReadUpdatedUser));
      }
      var user := Row(users[userID]);
      if CommitTx in env.faults {
        return Err(Refused(env, CommitTx));
      }
      r := Ok(user);
    }

    /** AddReferrer: links the user to the referrer, credits the referrer the
        bonus and returns the updated user, in one transaction; on any error
        nothing is changed. */
    method AddReferrer(userID: Uuid, referrerID: Uuid, env: Env) returns (r: Result<User, RepoError>)
      requires Valid()
      modifies this
      ensures Valid()
      ensures r.Ok? <==> ReferralCommits(old(users), userID, referrerID, env)
      ensures r == Err(ReferrerNotFound) <==>
        BeginTx !in env.faults && CheckReferrerExists !in env.faults && referrerID !in old(users)
      ensures r == Err(UserNotFound) <==>
        && BeginTx !in env.faults
        && CheckReferrerExists !in env.faults && referrerID in old(users)
        && CheckUserReferrer !in env.faults && userID !in old(users)
      ensures r == Err(AlreadyHasReferrer) <==>
        && BeginTx !in env.faults
        && CheckReferrerExists !in env.faults && referrerID in old(users)
        && CheckUserReferrer !in env.faults && userID in old(users)
        && old(users)[userID].referrerId.Some?
      ensures r.Ok? ==>
        && users == Credit(Link(old(users), userID, referrerID, env.dbNow), referrerID, ReferralBonus, env.dbNow)
        && tasks == old(tasks)
        && r.value == Row(users[userID])
        && r.value.referrerId == Some(referrerID)
        && r.value.points == old(users)[userID].points + (if userID == referrerID then ReferralBonus else 0)
      ensures r.Err? ==> users == old(users) && tasks == old(tasks)
      ensures LinksKept(old(users), users)
    {
      if BeginTx in env.faults {
        return Err(Refused(env, BeginTx));
      }
      var savedUsers, savedTasks := users, tasks;
      r := AddReferrerStatements(userID, referrerID, env);
      if r.Err? {
        // the deferred tx.Rollback()
        users, tasks := savedUsers, savedTasks;
      } else {
        ReferralKeepsTables(savedUsers, savedTasks, userID, referrerID, env.dbNow);
      }
    }
  }
}
