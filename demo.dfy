/** The order scenarios of the client demonstration
    (Lab3/src/client/client.ts): an order watched by four observers taken
    through its whole lifecycle, and the transitions the states reject. */
module OrderDemo {
  import opened Common
  import opened Menu
  import opened OrderStates
  import opened Observers
  import opened Orders

  /** The demonstration's observer list has one analytics observer. */
  lemma DemoSinks(analytics: AnalyticsObserver)
    ensures Sinks([Kitchen(0), CustomerNotifier(1), Analytics(analytics), Delivery(2)]) == {analytics}
  {
    var obs := [Kitchen(0), CustomerNotifier(1), Analytics(analytics), Delivery(2)];
    assert obs[2] == Analytics(analytics);
  }

  /** Two `attach` calls with observers not yet attached: both are appended
      in order. */
  method AttachPair(order: Order, first: Observer, second: Observer)
    requires order.Valid() && order.SinksValid()
    requires first != second && first !in order.observers && second !in order.observers
    requires first.Analytics? ==> first.sink.Valid()
    requires second.Analytics? ==> second.sink.Valid()
    modifies order`observers
    ensures order.Valid() && order.SinksValid()
    ensures order.observers == old(order.observers) + [first, second]
  {
    order.Attach(first);
    order.Attach(second);
  }

  /** A new order with the four demonstration observers attached: kitchen,
      customer, analytics, delivery. */
  method ObservedOrder(item: MenuItem, analytics: AnalyticsObserver) returns (order: Order)
    requires analytics.Valid()
    ensures fresh(order) && order.Valid()
    ensures order.status == Pending && order.item == item
    ensures order.observers == [Kitchen(0), CustomerNotifier(1), Analytics(analytics), Delivery(2)]
  {
    order := new Order("ORD-1", item, "McDonalds");
    AttachPair(order, Kitchen(0), CustomerNotifier(1));
    assert order.observers == [Kitchen(0), CustomerNotifier(1)];
    AttachPair(order, Analytics(analytics), Delivery(2));
  }

  /** One transition of an order whose only analytics observer is `analytics`. */
  method ObservedStep(order: Order, analytics: AnalyticsObserver, e: Event, next: Status)
    requires order.Valid() && analytics.Valid() && Sinks(order.observers) == {analytics}
    requires Handle(order.status, e) == MoveTo(next)
    modifies order, analytics
    ensures order.Valid() && analytics.Valid() && order.observers == old(order.observers)
    ensures order.status == next
    ensures analytics.received == old(analytics.received) + [(StateName(next), StateName(old(order.status)))]
  {
    assert order.SinksValid();
    var error := order.Dispatch(e);
    assert analytics in Sinks(order.observers);
  }

  /** The (new, old) pairs the lifecycle sends to each observer. */
  const LifecycleTrace: seq<(string, string)> :=
    [("Confirmed", "Pending"), ("Preparing", "Confirmed"), ("Ready", "Preparing"), ("Completed", "Ready")]

  /** Four transitions, one of them into "Completed". */
  lemma LifecycleTraceCounts()
    ensures |LifecycleTrace| == 4 && CountCompleted(LifecycleTrace) == 1
  {
    var r := LifecycleTrace;
    assert r[..3][..2][..1] == [r[0]];
    assert r[..3][..2] == r[..2];
    assert r[..3] == r[..3];
    assert CountCompleted([r[0]]) == 0 by {
      assert [r[0]][..0] == [];
    }
  }

  /** The observer demonstration: an order with four observers taken through
      the whole lifecycle; the analytics observer counts four transitions and
      one completed order. */
  method ObservedLifecycle(item: MenuItem) returns (m: Metrics, status: string)
    ensures m == Metrics(4, 1)
    ensures status == "Completed"
  {
    var analytics := new AnalyticsObserver();
    var order := ObservedOrder(item, analytics);
    DemoSinks(analytics);
    ObservedStep(order, analytics, Event.Confirm, Confirmed);
    ObservedStep(order, analytics, Event.Prepare, Preparing);
    ObservedStep(order, analytics, MarkReady, Ready);
    ObservedStep(order, analytics, Event.Complete, Completed);
    assert analytics.received == LifecycleTrace;
    LifecycleTraceCounts();
    m := analytics.GetMetrics();
    status := order.GetStatus();
  }

  /** `prepare` on a new order throws and leaves it pending. */
  method PrepareWhilePending(item: MenuItem) returns (error: Option<string>, status: string)
    ensures error == Some("Cannot prepare a pending order. Please confirm the order first.")
    ensures status == "Pending"
  {
    var order := new Order("ORD-2", item, "KFC");
    error := order.Prepare();
    status := order.GetStatus();
  }

  /** `prepare` on an order taken through its lifecycle throws and leaves it
      completed. */
  method PrepareAfterCompletion(item: MenuItem) returns (error: Option<string>, status: string)
    ensures error == Some("Order is already completed.")
    ensures status == "Completed"
  {
    var order := new Order("ORD-3", item, "McDonalds");
    var step := order.Confirm();
    assert order.status == Confirmed && order.observers == [];
    step := order.Prepare();
    assert order.status == Preparing && order.observers == [];
    step := order.Ready();
    assert order.status == Ready && order.observers == [];
    step := order.Complete();
    assert order.status == Completed && order.observers == [];
    error := order.Prepare();
    status := order.GetStatus();
  }
}
