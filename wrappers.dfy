/** Optional values and the outcome of a call that may throw. */
module Wrappers {

  /** A value that may be absent (`undefined` / `null` on the JavaScript side). */
  datatype Option<+T> = None | Some(value: T)

  /** Why an awaited call rejected. */
  datatype Error =
    | TransportError  // the remote service call itself rejected (network, quota, auth)
    | ParseError      // JSON.parse threw on the reply text
    | TypeError       // a property of `undefined` / `null` was used as a function

  /** The settled state of a promise: fulfilled with a value, or rejected. */
  datatype Result<+T> = Ok(value: T) | Err(error: Error)
}
