/** Order observers (Lab3/src/domain/observers). The kitchen, customer and
    delivery observers only write log lines, so they are identities that
    receive notifications; the analytics observer keeps two counters. */
module Observers {

  /** `{ stateTransitions, completedOrders }` as `getMetrics()` returns it. */
  datatype Metrics = Metrics(stateTransitions: nat, completedOrders: nat)

  /** The number of notifications, given as (new, old) state names, whose new
      state is "Completed". */
  function CountCompleted(received: seq<(string, string)>): (n: nat)
    ensures n <= |received|
    ensures received == [] ==> n == 0
  {
    if received == [] then 0
    else CountCompleted(received[..|received| - 1]) + (if received[|received| - 1].0 == "Completed" then 1 else 0)
  }

  class AnalyticsObserver {
    var stateTransitions: nat
    var completedOrders: nat
    /** Every (new, old) pair `onStateChanged` has received, in order. */
    ghost var received: seq<(string, string)>

    /** The counters summarise what was received. */
    ghost predicate Valid()
      reads this
    {
      stateTransitions == |received| && completedOrders == CountCompleted(received)
    }

    constructor ()
      ensures Valid() && received == []
      ensures stateTransitions == 0 && completedOrders == 0
    {
      stateTransitions := 0;
      completedOrders := 0;
      received := [];
    }

    /** `onStateChanged(order, newState, oldState)`: one more transition, and
        one more completed order when the new state is "Completed". */
    method OnStateChanged(newState: string, oldState: string)
      requires Valid()
      modifies this
      ensures Valid()
      ensures received == old(received) + [(newState, oldState)]
      ensures stateTransitions == old(stateTransitions) + 1
      ensures completedOrders == old(completedOrders) + (if newState == "Completed" then 1 else 0)
      ensures completedOrders <= stateTransitions
    {
      stateTransitions := stateTransitions + 1;
      if newState == "Completed" {
        completedOrders := completedOrders + 1;
      }
      received := received + [(newState, oldState)];
      assert received[..|received| - 1] == old(received);
    }

    /** `getMetrics()`: the current counters, unchanged. */
    method GetMetrics() returns (m: Metrics)
      requires Valid()
      ensures m == Metrics(stateTransitions, completedOrders)
      ensures m.completedOrders <= m.stateTransitions
      ensures m.stateTransitions == |received|
    {
      m := Metrics(stateTransitions, completedOrders);
    }
  }

  /** An observer attached to an order; identity is the id (or the object
      for the analytics observer), as `includes`/`indexOf` compare identity. */
  datatype Observer =
    | Kitchen(id: nat)
    | CustomerNotifier(id: nat)
    | Delivery(id: nat)
    | Analytics(sink: AnalyticsObserver)

  /** The analytics observers among `observers`: the objects a notification
      round may change. */
  function Sinks(observers: seq<Observer>): set<AnalyticsObserver>
  {
    set o | o in observers && o.Analytics? :: o.sink
  }
}
