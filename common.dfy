/**
 * Values shared by every component of the user-management screen: the
 * optional-value wrapper that stands for `undefined`/`null`, a result type
 * for operations that fail, and the `User` record.
 */
module Common {

  /** `None` stands for JavaScript's `undefined` or `null`. */
  datatype Option<+T> = None | Some(value: T) {
    function GetOr(default: T): T {
      match this
      case Some(v) => v
      case None => default
    }
  }

  /** An operation that either returns a value or throws an error. */
  datatype Result<+R, +E> = Success(value: R) | Failure(error: E)

  /**
   * A user record: `{ id?: string, name: string, email: string }`. The `id`
   * is assigned by the server and absent until the record is persisted.
   */
  datatype User = User(id: Option<string>, name: string, email: string)
}
