/**
 * The condition variable between the thread that marks chunks and the hasher, instruction by
 * instruction: the marker adds under its own lock and only then takes the condition to notify;
 * the hasher looks again while it holds the condition before it waits.
 */
module Handshake {

  datatype Marker =
    | Resting
    | Added      // chunk added to the on-disk set, condition not yet taken
    | Notifying  // holds the condition
    | Notified   // has called notify_all, still holds the condition

  datatype Waiter =
    | Looking      // is_on_disk without the condition
    | Entering     // about to take the condition
    | Holding      // holds it, at the test of the inner loop
    | AboutToWait  // the test said wait
    | Waiting      // has released it, asleep
    | Woken        // notified or timed out, has to take it again
    | Leaving      // holds it, the test said go on
    | Ended

  datatype Owner = Free | ByMarker | ByWaiter

  /** `next` is the chunk the hasher is at. */
  datatype State = State(disk: set<nat>, next: nat, stop: bool, marker: Marker, waiter: Waiter, lock: Owner)

  datatype Action =
    | Add(k: nat) | MarkerTakes | NotifyAll | MarkerReleases
    | Look | Take | Test | Wait | Timeout | Release
    | SetStop | NotifyFromStop  // StreamingHasher.stop

  predicate Enabled(s: State, a: Action) {
    match a
    case Add(_) => s.marker.Resting?
    case MarkerTakes => s.marker.Added? && s.lock.Free?
    case NotifyAll => s.marker.Notifying?
    case MarkerReleases => s.marker.Notified?
    case Look => s.waiter.Looking?
    case Take => (s.waiter.Entering? || s.waiter.Woken?) && s.lock.Free?
    case Test => s.waiter.Holding?
    case Wait => s.waiter.AboutToWait?
    case Timeout => s.waiter.Waiting?
    case Release => s.waiter.Leaving?
    case SetStop => true
    case NotifyFromStop => s.lock.Free?
  }

  function Wake(w: Waiter): Waiter { if w.Waiting? then Woken else w }

  function Apply(s: State, a: Action): State
    requires Enabled(s, a)
  {
    match a
    case Add(k) => s.(disk := s.disk + {k}, marker := Added)
    case MarkerTakes => s.(marker := Notifying, lock := ByMarker)
    case NotifyAll => s.(marker := Notified, waiter := Wake(s.waiter))
    case MarkerReleases => s.(marker := Resting, lock := Free)
    case Look =>
      if s.stop then s.(waiter := Ended)
      else if s.next in s.disk then s.(next := s.next + 1)
      else s.(waiter := Entering)
    case Take => s.(waiter := Holding, lock := ByWaiter)
    case Test => s.(waiter := if s.next !in s.disk && !s.stop then AboutToWait else Leaving)
    case Wait => s.(waiter := Waiting, lock := Free)
    case Timeout => s.(waiter := Woken)
    case Release => s.(waiter := Looking, lock := Free)
    case SetStop => s.(stop := true)
    case NotifyFromStop => s.(waiter := Wake(s.waiter))
  }

  predicate LockInv(s: State) {
    && (s.lock.ByMarker? <==> s.marker.Notifying? || s.marker.Notified?)
    && (s.lock.ByWaiter? <==> s.waiter.Holding? || s.waiter.AboutToWait? || s.waiter.Leaving?)
  }

  /** The marker is between adding a chunk and its notify_all. */
  predicate WakeupOwed(s: State) { s.marker.Added? || s.marker.Notifying? }

  predicate Inv(s: State) {
    && LockInv(s)
    && ((s.waiter.AboutToWait? || s.waiter.Waiting?) && s.next in s.disk ==> WakeupOwed(s))
    && (forall k: nat | k < s.next :: k in s.disk)
  }

  function Start(resumed: set<nat>): State {
    State(resumed, 0, false, Resting, Looking, Free)
  }

  predicate Possible(s: State, steps: seq<Action>)
    decreases |steps|
  {
    steps == [] || (Enabled(s, steps[0]) && Possible(Apply(s, steps[0]), steps[1..]))
  }

  function After(s: State, steps: seq<Action>): State
    requires Possible(s, steps)
    decreases |steps|
  {
    if steps == [] then s else After(Apply(s, steps[0]), steps[1..])
  }

  lemma {:induction false} InvAlways(s: State, steps: seq<Action>)
    requires Inv(s) && Possible(s, steps)
    ensures Inv(After(s, steps))
    decreases |steps|
  {
    if steps != [] {
      InvAlways(Apply(s, steps[0]), steps[1..]);
    }
  }

  /**
   * No lost wake-up: whenever, in any interleaving, the hasher sleeps although its chunk is on
   * disk, the marker still owes a notify_all; its next step is possible, whatever the others do it
   * stays possible until taken, and after at most two of its steps the hasher is awake.
   */
  lemma NoLostWakeup(resumed: set<nat>, steps: seq<Action>)
    requires Possible(Start(resumed), steps)
    ensures var s := After(Start(resumed), steps);
            s.waiter.Waiting? && s.next in s.disk ==>
              && WakeupOwed(s)
              && (s.marker.Added? ==>
                  && Enabled(s, MarkerTakes) && Enabled(Apply(s, MarkerTakes), NotifyAll)
                  && Apply(Apply(s, MarkerTakes), NotifyAll).waiter.Woken?)
              && (s.marker.Notifying? ==> Enabled(s, NotifyAll) && Apply(s, NotifyAll).waiter.Woken?)
  {
    InvAlways(Start(resumed), steps);
  }

  /** No step of anyone loses the wake-up: the hasher is woken, or it is still owed. */
  lemma OwedUntilPaid(s: State, a: Action)
    requires Inv(s) && Enabled(s, a) && s.waiter.Waiting? && s.next in s.disk
    ensures var t := Apply(s, a); t.waiter.Woken? || (t.waiter.Waiting? && WakeupOwed(t) && t.next in t.disk)
  {
  }
}
