/** Identifiers, clock values and result types shared by every component. */
module Base {
  datatype Option<+T> = None | Some(value: T)

  datatype Result<+T, +E> = Ok(value: T) | Err(error: E)

  // UUIDs and database keys; only equality and (for jobs and dreams) order matter.
  type JobId = nat
  type SessionId = nat
  type ThreadId = nat
  type RowId = nat
  type DreamId = nat
  type UserId = int
  type WorkerId = nat

  // Seconds on the clock that all workers, PostgreSQL and Redis share.
  type Time = nat

  datatype Mode = Auto | New | Continue

  const INACTIVITY_THRESHOLD: int := 72 * 3600
}
