/** The records of the service (internal/models/models.go). */
module Models {
  import opened Wrappers
  import opened Uuids

  /** An instant, as read from a clock the model does not look into. */
  type Time = int

  /** One row of the users table. `referrerId` is the nullable
      referrer_id column; `points` is the balance. */
  datatype User = User(
    id: Uuid,
    username: string,
    password: string,
    points: int,
    referrerId: Option<Uuid>,
    createdAt: Time,
    updatedAt: Time)

  /** One row of the tasks table: a completed task and the points it awarded. */
  datatype Task = Task(
    id: Uuid,
    userId: Uuid,
    taskType: string,
    points: int,
    completedAt: Time)

  /** The JSON body of POST /users/{id}/task/complete. */
  datatype TaskRequest = TaskRequest(taskType: string, points: int)

  /** The JSON body of POST /users/{id}/referrer. */
  datatype ReferrerRequest = ReferrerRequest(referrerId: string)
}
