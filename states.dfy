/** The five order states (Lab3/src/domain/states) as a closed union. Each
    state's handler for an event either moves the order to a successor state
    (the source calls `order.setState(next)`), lets the call succeed with no
    transition (the logged cancellations), or throws. */
module OrderStates {
  import opened Common

  datatype Status = Pending | Confirmed | Preparing | Ready | Completed

  /** The order's five transition requests; `MarkReady` is the source's `ready()`. */
  datatype Event = Confirm | Prepare | MarkReady | Complete | Cancel

  /** What a state's handler does with an event. */
  datatype Outcome =
    | MoveTo(next: Status)
    | Stay
    | Reject(message: string)

  /** `getStateName()`. */
  function StateName(s: Status): string
  {
    match s
    case Pending => "Pending"
    case Confirmed => "Confirmed"
    case Preparing => "Preparing"
    case Ready => "Ready"
    case Completed => "Completed"
  }

  /** Observers tell states apart by name, so no two states share one. */
  lemma StateNamesDistinct(a: Status, b: Status)
    ensures StateName(a) == StateName(b) <==> a == b
  {
  }

  /** Position along the lifecycle Pending, Confirmed, Preparing, Ready, Completed. */
  function Rank(s: Status): nat
  {
    match s
    case Pending => 0
    case Confirmed => 1
    case Preparing => 2
    case Ready => 3
    case Completed => 4
  }

  /** PendingState: only `confirm` moves on; `cancel` is accepted but stays. */
  function OnPending(e: Event): (o: Outcome)
    ensures o.MoveTo? <==> e == Confirm
    ensures o.MoveTo? ==> o.next == Confirmed
    ensures o.Stay? <==> e == Cancel
  {
    match e
    case Confirm => MoveTo(Confirmed)
    case Prepare => Reject("Cannot prepare a pending order. Please confirm the order first.")
    case MarkReady => Reject("Cannot mark a pending order as ready. Please confirm and prepare first.")
    case Complete => Reject("Cannot complete a pending order. Please confirm first.")
    case Cancel => Stay
  }

  /** ConfirmedState: only `prepare` moves on; re-confirming throws; `cancel`
      is accepted but stays. */
  function OnConfirmed(e: Event): (o: Outcome)
    ensures o.MoveTo? <==> e == Prepare
    ensures o.MoveTo? ==> o.next == Preparing
    ensures o.Stay? <==> e == Cancel
    ensures e == Confirm ==> o == Reject("Order is already confirmed.")
  {
    match e
    case Confirm => Reject("Order is already confirmed.")
    case Prepare => MoveTo(Preparing)
    case MarkReady => Reject("Cannot mark order as ready. It must be prepared first.")
    case Complete => Reject("Cannot complete an unfinished order. Please prepare first.")
    case Cancel => Stay
  }

  /** PreparingState: only `ready` moves on; `cancel` is accepted but stays. */
  function OnPreparing(e: Event): (o: Outcome)
    ensures o.MoveTo? <==> e == MarkReady
    ensures o.MoveTo? ==> o.next == Ready
    ensures o.Stay? <==> e == Cancel
  {
    match e
    case Confirm => Reject("Order is already confirmed and being prepared.")
    case Prepare => Reject("Order is already being prepared.")
    case MarkReady => MoveTo(Ready)
    case Complete => Reject("Cannot complete an order that is still being prepared.")
    case Cancel => Stay
  }

  /** ReadyState: only `complete` moves on; every other event throws,
      `cancel` included. */
  function OnReady(e: Event): (o: Outcome)
    ensures o.MoveTo? <==> e == Complete
    ensures o.MoveTo? ==> o.next == Completed
    ensures !o.Stay?
  {
    match e
    case Confirm => Reject("Order is already confirmed and ready.")
    case Prepare => Reject("Order is already prepared.")
    case MarkReady => Reject("Order is already marked as ready.")
    case Complete => MoveTo(Completed)
    case Cancel => Reject("Cannot cancel an order that is already ready for pickup/delivery.")
  }

  /** CompletedState: terminal, every event throws. */
  function OnCompleted(e: Event): (o: Outcome)
    ensures o.Reject?
    ensures e != Cancel ==> o.message == "Order is already completed."
  {
    match e
    case Cancel => Reject("Cannot cancel a completed order.")
    case _ => Reject("Order is already completed.")
  }

  /** The current state's same-named handler, as `Order` delegates to it. */
  function Handle(s: Status, e: Event): (o: Outcome)
    ensures o.MoveTo? ==> Rank(o.next) == Rank(s) + 1 && e != Cancel
    ensures o.Stay? <==> e == Cancel && Rank(s) < 3
    ensures s == Completed ==> o.Reject?
  {
    match s
    case Pending => OnPending(e)
    case Confirmed => OnConfirmed(e)
    case Preparing => OnPreparing(e)
    case Ready => OnReady(e)
    case Completed => OnCompleted(e)
  }

  /** The lifecycle written out independently: the four status-changing steps. */
  const Lifecycle: seq<(Status, Event, Status)> := [
    (Pending, Confirm, Confirmed),
    (Confirmed, Prepare, Preparing),
    (Preparing, MarkReady, Ready),
    (Ready, Complete, Completed)
  ]

  /** A handler changes the status exactly on the four lifecycle steps. */
  lemma OnlyLifecycleSteps(s: Status, e: Event, t: Status)
    ensures Handle(s, e) == MoveTo(t) <==> (s, e, t) in Lifecycle
  {
    if Handle(s, e) == MoveTo(t) {
      match s
      case Pending => assert Lifecycle[0] == (s, e, t);
      case Confirmed => assert Lifecycle[1] == (s, e, t);
      case Preparing => assert Lifecycle[2] == (s, e, t);
      case Ready => assert Lifecycle[3] == (s, e, t);
      case Completed => assert false;
    }
    if (s, e, t) in Lifecycle {
      var k :| 0 <= k < 4 && Lifecycle[k] == (s, e, t);
      assert Handle(Lifecycle[k].0, Lifecycle[k].1) == MoveTo(Lifecycle[k].2);
    }
  }

  /** Repeating the event that produced a state is rejected there. */
  lemma RepeatRejected(s: Status, e: Event)
    requires Handle(s, e).MoveTo?
    ensures Handle(Handle(s, e).next, e).Reject?
  {
  }

  /** A run of transition calls that stops at the first thrown error. */
  function Replay(s: Status, events: seq<Event>): Result<Status>
    decreases events
  {
    if events == [] then Ok(s)
    else
      match Handle(s, events[0])
      case MoveTo(next) => Replay(next, events[1..])
      case Stay => Replay(s, events[1..])
      case Reject(message) => Err(message)
  }

  function CountAdvancing(events: seq<Event>): nat
  {
    if events == [] then 0 else (if events[0] == Cancel then 0 else 1) + CountAdvancing(events[1..])
  }

  /** In a run that throws nothing, every event other than `cancel` advances
      exactly one step along the lifecycle, and `cancel` advances none. */
  lemma {:induction false} ReplayAdvances(s: Status, events: seq<Event>)
    requires Replay(s, events).Ok?
    ensures Rank(Replay(s, events).value) == Rank(s) + CountAdvancing(events)
    decreases events
  {
    if events != [] {
      match Handle(s, events[0])
      case MoveTo(next) => ReplayAdvances(next, events[1..]);
      case Stay => ReplayAdvances(s, events[1..]);
    }
  }

  /** Completed is absorbing: from it, any further event throws. */
  lemma CompletedAbsorbing(events: seq<Event>)
    requires events != []
    ensures Replay(Completed, events) == Err(OnCompleted(events[0]).message)
  {
  }

  /** The full lifecycle from a new order succeeds and ends Completed; a
      second `prepare` afterwards, or a `prepare` on a new order, throws. */
  lemma LifecycleScenario()
    ensures Replay(Pending, [Confirm, Prepare, MarkReady, Complete]) == Ok(Completed)
    ensures Replay(Pending, [Confirm, Prepare, MarkReady, Complete, Prepare]).Err?
    ensures Replay(Pending, [Prepare]) == Err("Cannot prepare a pending order. Please confirm the order first.")
  {
  }
}
