/** The token codec the security layer calls. Its implementation is not part
    of this model: each operation is an arbitrary function supplied with
    the value. */
module Jwt {
  import opened Common

  /** The outcome of a codec call that returns a reference: a value, null,
      or an exception. */
  datatype Lookup<+T> = Returns(value: T) | ReturnsNull | Throws
  {
    /** The reference a call that did not throw hands back. */
    function OrNull(): Option<T>
    {
      if Returns? then Some(value) else None
    }
  }

  /** `validateToken` answers for any string. `getUserIdFromToken` may
      return a subject, return null, or throw. `getExpirationDateFromToken`
      gives None where the call throws or the date is null (its `getTime`
      then throws). The expiry is in epoch milliseconds (`Date.getTime`). */
  datatype JwtUtil = JwtUtil(
    validateToken: string -> bool,
    getUserIdFromToken: string -> Lookup<string>,
    getExpirationDateFromToken: string -> Option<int>)
}
