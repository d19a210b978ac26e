/** How a call to a store ends. */
module Calls {
  /** Ok; the call took effect and its reply was lost; the call took no effect and its caller saw an error. */
  datatype Fault = Ok | Lost | Failed
}
