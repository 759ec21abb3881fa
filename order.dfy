/** The order aggregate (Lab3/src/domain/models/Order.ts): one current state,
    one discount strategy, a duplicate-free list of observers notified on
    every state change, and the ordered item. */
module Orders {
  import opened Common
  import opened Menu
  import opened Strategies
  import opened OrderStates
  import opened Observers

  /** One `onStateChanged` call: who received it, its (new, old) state names,
      and what `getStatus()` reported while it ran. */
  datatype Notification = Notification(observer: Observer, newState: string, oldState: string, statusDuringCall: string)

  /** The calls one `setState` makes: one per attached observer, in
      attachment order, each seeing the new status already installed. */
  function Broadcast(observers: seq<Observer>, newState: string, oldState: string): (ns: seq<Notification>)
    ensures |ns| == |observers|
    ensures forall k | 0 <= k < |ns| :: ns[k] == Notification(observers[k], newState, oldState, newState)
  {
    if observers == [] then []
    else Broadcast(observers[..|observers| - 1], newState, oldState)
         + [Notification(observers[|observers| - 1], newState, oldState, newState)]
  }

  /** Notifying one more observer appends its notification. */
  lemma BroadcastStep(observers: seq<Observer>, i: nat, newState: string, oldState: string)
    requires i < |observers|
    ensures Broadcast(observers[..i + 1], newState, oldState)
            == Broadcast(observers[..i], newState, oldState) + [Notification(observers[i], newState, oldState, newState)]
  {
    assert observers[..i + 1][..i] == observers[..i];
  }

  /** Walking the observer list one entry further adds at most that entry's
      analytics object, and with no duplicates it is a new one. */
  lemma SinksStep(observers: seq<Observer>, i: nat)
    requires i < |observers| && NoDup(observers)
    ensures Sinks(observers[..i + 1]) == Sinks(observers[..i]) + (if observers[i].Analytics? then {observers[i].sink} else {})
    ensures observers[i].Analytics? ==> observers[i].sink !in Sinks(observers[..i])
  {
    assert observers[..i + 1] == observers[..i] + [observers[i]];
  }

  /** Attaching an observer adds at most its analytics object. */
  lemma SinksSnoc(observers: seq<Observer>, o: Observer)
    ensures Sinks(observers + [o]) == Sinks(observers) + (if o.Analytics? then {o.sink} else {})
  {
  }

  /** A list with fewer observers has no more analytics objects. */
  lemma SinksShrink(fewer: seq<Observer>, observers: seq<Observer>)
    requires Elems(fewer) <= Elems(observers)
    ensures Sinks(fewer) <= Sinks(observers)
  {
    forall a | a in Sinks(fewer) ensures a in Sinks(observers) {
      var o :| o in fewer && o.Analytics? && o.sink == a;
      assert o in Elems(fewer);
    }
  }

  /** A three-part text starts with its first part and ends with its last. */
  lemma ConcatParts(head: string, middle: string, tail: string)
    ensures IsPrefix(head, head + middle + tail)
    ensures IsSuffix(tail, head + middle + tail)
    ensures |head + middle + tail| == |head| + |middle| + |tail|
  {
    assert (head + middle + tail)[..|head|] == head;
    assert (head + middle + tail)[|head| + |middle|..] == tail;
  }

  class Order {
    const orderId: string
    const item: MenuItem
    const restaurant: string
    var status: Status
    var strategy: Strategy
    var observers: seq<Observer>
    /** Every `onStateChanged` call made so far, in order. */
    ghost var notifications: seq<Notification>

    ghost predicate Valid()
      reads this
    {
      NoDup(observers) && Strategies.Valid(strategy)
    }

    /** The attached analytics observers keep their counters consistent. */
    ghost predicate SinksValid()
      reads this, Sinks(observers)
    {
      forall a | a in Sinks(observers) :: a.Valid()
    }

    /** `new Order(item, restaurant)`; the id, random in the source, is given. */
    constructor (orderId: string, item: MenuItem, restaurant: string)
      ensures Valid() && SinksValid()
      ensures this.orderId == orderId && this.item == item && this.restaurant == restaurant
      ensures status == Pending && GetStatus() == "Pending"
      ensures strategy == NoDiscount && observers == [] && notifications == []
    {
      this.orderId := orderId;
      this.item := item;
      this.restaurant := restaurant;
      status := Pending;
      strategy := NoDiscount;
      observers := [];
      notifications := [];
    }

    /** `getStatus()`. */
    function GetStatus(): string
      reads this
    {
      StateName(status)
    }

    /** `setState(next)`: the old name is taken first, the new state is
        installed, then every observer hears (new, old). */
    method SetState(next: Status)
      requires Valid() && SinksValid()
      modifies this, Sinks(observers)
      ensures Valid() && SinksValid()
      ensures status == next && strategy == old(strategy) && observers == old(observers)
      ensures notifications == old(notifications) + Broadcast(observers, StateName(next), StateName(old(status)))
      ensures forall a | a in Sinks(observers) :: a.received == old(a.received) + [(StateName(next), StateName(old(status)))]
    {
      var oldName := StateName(status);
      status := next;
      NotifyObservers(StateName(next), oldName);
    }

    /** `notifyObservers(new, old)`: one call per attached observer, in order. */
    method NotifyObservers(newState: string, oldState: string)
      requires Valid() && SinksValid()
      requires GetStatus() == newState
      modifies this`notifications, Sinks(observers)
      ensures Valid() && SinksValid()
      ensures notifications == old(notifications) + Broadcast(observers, newState, oldState)
      ensures forall a | a in Sinks(observers) :: a.received == old(a.received) + [(newState, oldState)]
    {
      var i := 0;
      ghost var sinks := Sinks(observers);
      while i < |observers|
        invariant 0 <= i <= |observers|
        invariant notifications == old(notifications) + Broadcast(observers[..i], newState, oldState)
        invariant forall a | a in sinks :: a.Valid()
        invariant forall a | a in sinks ::
                    a.received == old(a.received) + (if a in Sinks(observers[..i]) then [(newState, oldState)] else [])
      {
        SinksStep(observers, i);
        BroadcastStep(observers, i, newState, oldState);
        NotifyAt(i, newState, oldState);
        i := i + 1;
      }
      assert observers[..i] == observers;
    }

    /** The analytics object of one observer, if it has one. */
    static function SinkOf(o: Observer): set<AnalyticsObserver>
    {
      if o.Analytics? then {o.sink} else {}
    }

    /** The body of the `notifyObservers` loop for the observer at `i`. */
    method NotifyAt(i: nat, newState: string, oldState: string)
      requires i < |observers| && forall a | a in SinkOf(observers[i]) :: a.Valid()
      modifies this`notifications, SinkOf(observers[i])
      ensures notifications == old(notifications) + [Notification(observers[i], newState, oldState, GetStatus())]
      ensures forall a | a in SinkOf(observers[i]) :: a.Valid() && a.received == old(a.received) + [(newState, oldState)]
    {
      var o := observers[i];
      if o.Analytics? {
        o.sink.OnStateChanged(newState, oldState);
      }
      notifications := notifications + [Notification(o, newState, oldState, GetStatus())];
    }

    /** What one transition call did, judged against the current state's
        handler: a move installs the successor and notifies everyone once; an
        accepted cancel or a thrown error changes nothing and notifies no one. */
    twostate predicate Stepped(e: Event, new error: Option<string>)
      reads this, Sinks(observers)
    {
      var outcome := Handle(old(status), e);
      && strategy == old(strategy) && observers == old(observers)
      && (outcome.MoveTo? ==>
            && error == None && status == outcome.next
            && notifications == old(notifications) + Broadcast(observers, StateName(outcome.next), StateName(old(status)))
            && forall a | a in Sinks(old(observers)) :: a.received == old(a.received) + [(StateName(outcome.next), StateName(old(status)))])
      && (!outcome.MoveTo? ==>
            && error == (if outcome.Reject? then Some(outcome.message) else None)
            && status == old(status) && notifications == old(notifications)
            && forall a | a in Sinks(old(observers)) :: a.received == old(a.received))
    }

    /** Delegation to the current state's handler; a successor is installed
        through `SetState`. A thrown error is returned as `Some(message)`. */
    method Dispatch(e: Event) returns (error: Option<string>)
      requires Valid() && SinksValid()
      modifies this, Sinks(observers)
      ensures Valid() && SinksValid()
      ensures Stepped(e, error)
    {
      match Handle(status, e) {
        case MoveTo(next) =>
          SetState(next);
          error := None;
        case Stay =>
          error := None;
        case Reject(message) =>
          error := Some(message);
      }
    }

    /** `confirm()`. */
    method Confirm() returns (error: Option<string>)
      requires Valid() && SinksValid()
      modifies this, Sinks(observers)
      ensures Valid() && SinksValid()
      ensures Stepped(Event.Confirm, error)
    {
      error := Dispatch(Event.Confirm);
    }

    /** `prepare()`. */
    method Prepare() returns (error: Option<string>)
      requires Valid() && SinksValid()
      modifies this, Sinks(observers)
      ensures Valid() && SinksValid()
      ensures Stepped(Event.Prepare, error)
    {
      error := Dispatch(Event.Prepare);
    }

    /** `ready()`. */
    method Ready() returns (error: Option<string>)
      requires Valid() && SinksValid()
      modifies this, Sinks(observers)
      ensures Valid() && SinksValid()
      ensures Stepped(MarkReady, error)
    {
      error := Dispatch(MarkReady);
    }

    /** `complete()`. */
    method Complete() returns (error: Option<string>)
      requires Valid() && SinksValid()
      modifies this, Sinks(observers)
      ensures Valid() && SinksValid()
      ensures Stepped(Event.Complete, error)
    {
      error := Dispatch(Event.Complete);
    }

    /** `cancel()`. */
    method Cancel() returns (error: Option<string>)
      requires Valid() && SinksValid()
      modifies this, Sinks(observers)
      ensures Valid() && SinksValid()
      ensures Stepped(Event.Cancel, error)
    {
      error := Dispatch(Event.Cancel);
    }

    /** `attach(observer)`: appended unless already attached. */
    method Attach(o: Observer)
      requires Valid() && SinksValid()
      requires o.Analytics? ==> o.sink.Valid()
      modifies this`observers
      ensures Valid() && SinksValid()
      ensures observers == if o in old(observers) then old(observers) else old(observers) + [o]
    {
      if o !in observers {
        SinksSnoc(observers, o);
        observers := observers + [o];
      }
    }

    /** `detach(observer)`: removed if attached, the others keep their order. */
    method Detach(o: Observer)
      requires Valid() && SinksValid()
      modifies this`observers
      ensures Valid() && SinksValid()
      ensures observers == RemoveFirst(old(observers), o)
      ensures o !in observers
      ensures Elems(observers) == Elems(old(observers)) - {o}
    {
      RemoveFirstNoDup(observers, o);
      SinksShrink(RemoveFirst(observers, o), observers);
      var index := IndexOf(observers, o);
      if index > -1 {
        observers := observers[..index] + observers[index + 1..];
      }
    }

    /** `setDiscountStrategy(strategy)`: allowed in every state. */
    method SetDiscountStrategy(s: Strategy)
      requires Valid() && Strategies.Valid(s)
      modifies this`strategy
      ensures Valid() && strategy == s
    {
      strategy := s;
    }

    /** `getBasePrice()`: the item's own price. */
    function GetBasePrice(): real
    {
      Price(item)
    }

    /** `getFinalPrice()`: the strategy applied to the base price. */
    function GetFinalPrice(): (r: real)
      reads this
      requires Valid()
      ensures strategy.NoDiscount? ==> r == GetBasePrice()
      ensures 0.0 <= GetBasePrice() ==> 0.0 <= r <= GetBasePrice()
      ensures strategy.FixedAmountOff? || strategy.LoyaltyPoints? ==> 0.0 <= r
    {
      ApplyDiscount(strategy, GetBasePrice())
    }

    /** The text of `getDetails()` before the discount segment. */
    function DetailsHead(fixed2: real -> string): string
    {
      "Order #" + orderId + " | " + restaurant + " | " + Description(item) + " | Base: $" + fixed2(GetBasePrice())
    }

    /** `getDetails()`: the discount segment is there only when the final
        price is below the base price, and the current status comes last. */
    function GetDetails(show: real -> string, fixed2: real -> string): (text: string)
      reads this
      requires Valid()
      ensures IsPrefix(DetailsHead(fixed2), text)
      ensures IsSuffix(" | Status: " + GetStatus(), text)
      ensures GetFinalPrice() < GetBasePrice() <==> |text| > |DetailsHead(fixed2)| + |" | Status: " + GetStatus()|
    {
      var head := DetailsHead(fixed2);
      var discountInfo :=
        if GetFinalPrice() < GetBasePrice()
        then " | Discount: " + Describe(strategy, show, fixed2) + " | Final: $" + fixed2(GetFinalPrice())
        else "";
      var tail := " | Status: " + GetStatus();
      assert GetFinalPrice() < GetBasePrice() <==> |discountInfo| > 0;
      ConcatParts(head, discountInfo, tail);
      head + discountInfo + tail
    }
  }
}
