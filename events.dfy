/**
 Value types shared by the scenario dispatcher and the statistics listener of
 the FabriRecht problem: time windows, parcels, scenario (timed) events and
 the domain events the running simulator emits.
 */
module Events {

  /** A closed interval of simulated time, in time units. */
  datatype TimeWindow = TimeWindow(begin: int, end: int)

  /** What the statistics listener reads of a parcel: its two windows and the
      time a pickup and a delivery take. */
  datatype Parcel = Parcel(
    pickupWindow: TimeWindow,
    pickupDuration: int,
    deliveryWindow: TimeWindow,
    deliveryDuration: int)

  /** Identity of a moving road user (a vehicle); the source keys its
      distance map on the object itself. */
  type RoadUser = nat

  /** A position in the plane, the payload of an add-depot event. */
  datatype Point = Point(x: real, y: real)

  /** The scenario event kinds and their payloads. `OtherKind` stands for any
      event type the problem does not know. */
  datatype TimedEventKind =
    | AddParcel(parcel: Parcel)
    | AddVehicle(vehicle: nat)
    | AddDepot(position: Point)
    | TimeOut
    | OtherKind

  /** A scenario event: a timestamp and a kind. */
  datatype TimedEvent = TimedEvent(time: int, kind: TimedEventKind)

  /** Events the simulator, the road model and the pickup-and-delivery model
      send to the statistics listener. `OtherEvent` stands for every event
      type the listener receives but does not handle. */
  datatype DomainEvent =
    | Started
    | Stopped
    | Move(user: RoadUser, distance: real)
    | StartPickup(time: int, parcel: Parcel)
    | EndPickup(time: int, parcel: Parcel)
    | StartDelivery(time: int, parcel: Parcel)
    | EndDelivery(time: int, parcel: Parcel)
    | OtherEvent

  /** A domain event together with the two clocks the listener reads while
      handling it: the simulator's current time and the wall clock. */
  datatype Observation = Observation(event: DomainEvent, simNow: int, wallNow: int)
}
