/** Requests to a service that may fail. */
module Requests {
  /** Whether the service answers. A request that fails may still have been carried out. */
  method Answered(reliable: bool) returns (ok: bool)
    ensures reliable ==> ok
  {
    ok := *;
    ok := ok || reliable;
  }
}
