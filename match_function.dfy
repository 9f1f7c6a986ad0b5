/**
 * MatchFunction, the keyed process function of the checkpointed long-ride
 * alerts job: it saves at most one ride per ride id, registers an event
 * time timer for every ride and, when a timer fires, collects the saved
 * ride if it is a START that no END has replaced.
 */
module CheckpointedLongRides {
  import opened TaxiRides
  import opened LongRideSpec

  class MatchFunction {
    /** The keyed value state "saved ride", one slot per ride id. */
    var rideState: Store
    /** The event time timers registered with the timer service and not yet fired. */
    var timers: multiset<Timer>
    /** The rides handed to the collector, in order. */
    var out: seq<Ride>

    /** The slot of every key holds, if anything, a ride of that key. */
    ghost predicate Valid()
      reads this
    {
      Keyed(rideState)
    }

    /** The state of the function as a value of the specification. */
    function Snapshot(): Engine
      reads this
    {
      Engine(rideState, timers, out)
    }

    /** The state that open() sets up: an empty "saved ride" state for every key. */
    constructor ()
      ensures Valid()
      ensures Snapshot() == Initial()
    {
      rideState := map[];
      timers := multiset{};
      out := [];
    }

    /**
     * processElement, in the context of the key ride.rideId: a START is
     * saved only when nothing is saved for its key, an END always replaces
     * what is saved; either way one timer is registered at the ride's event
     * time plus two hours, and nothing is collected.
     */
    method ProcessElement(ride: Ride)
      requires Valid()
      modifies this
      ensures Valid()
      ensures Snapshot() == Step(old(Snapshot()), Element(ride))
      ensures ride.isStart && ride.rideId !in old(rideState) ==> rideState == old(rideState)[ride.rideId := ride]
      ensures ride.isStart && ride.rideId in old(rideState) ==> rideState == old(rideState)
      ensures !ride.isStart ==> rideState == old(rideState)[ride.rideId := ride]
      ensures forall k :: k != ride.rideId ==> Saved(rideState, k) == Saved(old(rideState), k)
      ensures timers == old(timers) + multiset{Timer(ride.rideId, ride.eventTime + 7200000)}
      ensures out == old(out)
    {
      var saved := Saved(rideState, ride.rideId);
      if ride.isStart {
        // a START never replaces a saved ride: an END that arrived first wins
        if saved == None {
          rideState := rideState[ride.rideId := ride];
        }
      } else {
        rideState := rideState[ride.rideId := ride];
      }
      timers := timers + multiset{Timer(ride.rideId, ride.eventTime + AlertDelay)};
    }

    /**
     * onTimer, in the context of the timer's key: the saved ride is
     * collected when it is a START, and the key's slot is cleared in every
     * case. The runtime takes the firing registration off the pending
     * timers; the timestamp plays no other part.
     */
    method OnTimer(key: int, timestamp: int)
      requires Valid()
      modifies this
      ensures Valid()
      ensures Snapshot() == Step(old(Snapshot()), Fire(key, timestamp))
      ensures key in old(rideState) && old(rideState)[key].isStart ==> out == old(out) + [old(rideState)[key]]
      ensures !(key in old(rideState) && old(rideState)[key].isStart) ==> out == old(out)
      ensures key !in rideState
      ensures forall k :: k != key ==> Saved(rideState, k) == Saved(old(rideState), k)
      ensures timers == old(timers) - multiset{Timer(key, timestamp)}
    {
      var savedRide := Saved(rideState, key);
      if savedRide.Some? && savedRide.value.isStart {
        out := out + [savedRide.value];
      }
      rideState := rideState - {key};
      timers := timers - multiset{Timer(key, timestamp)};
    }
  }

  /** A START with no END: the timer at its event time plus two hours collects it. */
  method UnmatchedStartScenario() returns (alerts: seq<Ride>)
    ensures alerts == [Ride(1, true, 0, [])]
  {
    var f := new MatchFunction();
    var start := Ride(1, true, 0, []);
    f.ProcessElement(start);
    assert f.timers == multiset{Timer(1, 7200000)};
    f.OnTimer(1, 7200000);
    alerts := f.out;
  }

  /**
   * A START and its END an hour later: the first timer finds the END and
   * collects nothing, the second finds an empty slot; no timer is left.
   */
  method MatchedRideScenario() returns (alerts: seq<Ride>, pending: multiset<Timer>)
    ensures alerts == [] && pending == multiset{}
  {
    var f := new MatchFunction();
    f.ProcessElement(Ride(2, true, 0, []));
    f.ProcessElement(Ride(2, false, 3600000, []));
    f.OnTimer(2, 7200000);
    assert 2 !in f.rideState;
    f.OnTimer(2, 10800000);
    alerts, pending := f.out, f.timers;
  }

  /** An END that arrives before its START: the START is ignored and no timer collects anything. */
  method EndFirstScenario() returns (alerts: seq<Ride>, saved: Option<Ride>)
    ensures alerts == []
    ensures saved == Some(Ride(3, false, 100, []))
  {
    var f := new MatchFunction();
    f.ProcessElement(Ride(3, false, 100, []));
    f.ProcessElement(Ride(3, true, 50, []));
    saved := Saved(f.rideState, 3);
    f.OnTimer(3, 7200050);
    f.OnTimer(3, 7200100);
    alerts := f.out;
  }
}
