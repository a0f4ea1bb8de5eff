/** The error path of the robot code: a Java constructor that throws becomes a Failure. */
module Wrappers {

  datatype Result<T> = Success(value: T) | Failure(error: string)

}
