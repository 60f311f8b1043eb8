/** What a reconcile returns to the work queue; intervals are in seconds. */
module Requeue {
  const REQUEUE_STEADY_STATE := 300
  const REQUEUE_TRANSIENT := 10

  datatype Result = Result(requeue: bool, requeueAfter: nat)

  const DONE := Result(false, 0)
}
