/**
 * Registered callbacks and their invocation. A callback is known by the
 * order of its registration; invoking the callbacks is modelled as the list
 * of calls made.
 */
module Callbacks {
  /** A callback invocation: which registered callback, with what argument. */
  datatype Delivery<A> = Delivery(callback: nat, argument: A)

  /** `callbacks.forEach(callback => callback(argument))`: each callback once, in registration order. */
  function Notify<A>(callbacks: seq<nat>, argument: A): (r: seq<Delivery<A>>)
    ensures |r| == |callbacks|
    ensures forall k :: 0 <= k < |r| ==> r[k].callback == callbacks[k] && r[k].argument == argument
  {
    if callbacks == [] then [] else Notify(callbacks[..|callbacks| - 1], argument) + [Delivery(callbacks[|callbacks| - 1], argument)]
  }
}
