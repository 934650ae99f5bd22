/** Result types for the report aggregator. */
module Wrappers {

  /** The two Python exceptions the aggregator raises on a day without data. */
  datatype Error =
    | IndexError       // `.all()[0]` on an empty SQL result list
    | StatisticsError  // `statistics.mean` of an empty list

  /** A metric value, or the exception computing it raised. */
  datatype Result<+T> = Success(value: T) | Failure(error: Error)

  /** A value that may be absent. */
  datatype Option<+T> = None | Some(value: T)
}
