/** Taxi ride events as the long-ride correlation sees them. */
module TaxiRides {

  /** The conventional optional value; None stands for a Java null. */
  datatype Option<T> = None | Some(value: T)

  /**
   * A ride event reduced to what the correlation uses: the ride id it is
   * keyed by, whether it is the START or the END of the ride, its event
   * time in milliseconds, and the remaining fields as opaque data. The
   * event time is the value of getEventTime(): the start time of a START
   * event and the end time of an END event.
   */
  datatype Ride = Ride(rideId: int, isStart: bool, eventTime: int, payload: seq<int>)
}
