/** Optional values and error-carrying results, used for the optional path
    fields (env_rewards, env_returns), for numpy means that come out as NaN,
    and for the ways process_samples aborts. */
module Wrappers {

  datatype Option<+T> = None | Some(value: T)

  datatype Result<+R, +E> = Success(value: R) | Failure(error: E)
}
