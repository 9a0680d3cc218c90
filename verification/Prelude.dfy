// Shared vocabulary: optional values, results and the fate of round trips.

module Prelude {
  datatype Option<+T> = None | Some(value: T)

  datatype Result<+T, +E> = Ok(value: T) | Err(error: E)

  /** A round trip to the database is answered, never gets there, or acts but loses its answer. */
  datatype Fault = NoFault | Refused | ReplyLost
}
