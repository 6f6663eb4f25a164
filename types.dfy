/** The records the client exchanges with the task server, and the small
    wrappers used to express absent values and settled promises. */
module Types {

  /** A value that may be absent (`undefined` or `null` on the wire). */
  datatype Option<T> = None | Some(value: T) {
    function GetOr(default: T): T {
      match this
      case Some(v) => v
      case None => default
    }
  }

  /** The state of a promise once the model stops running: resolved with a
      value, rejected with an `Error` whose message is kept, or never settled
      (a request the network never answers; the client has no timeout). */
  datatype Promise<T> = Resolved(value: T) | Rejected(message: string) | Pending

  /** The three statuses a task can be in. */
  datatype TaskStatus = TODO | ONGOING | COMPLETED

  /** A task as the client holds it. The timestamps are opaque strings. */
  datatype Task = Task(
    taskId: int,
    taskName: string,
    taskDescription: string,
    taskStatus: TaskStatus,
    userId: Option<int>,
    completionTime: Option<string>,
    startTime: Option<string>,
    createdAt: Option<string>,
    updatedAt: Option<string>)

  /** The identity of the signed-in user. */
  datatype User = User(userId: int, firstName: string, lastName: string, email: string)

  /** The body of a successful login. */
  datatype AuthResponse = AuthResponse(
    token: string, userId: int, firstName: string, lastName: string, email: string)
}
