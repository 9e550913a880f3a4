/**
 The statistics listener of the FabriRecht problem: running totals kept from
 the simulator's lifecycle events, the road model's move events and the
 pickup-and-delivery model's phase events, and the snapshot taken of them.

 `ListenerState` is the listener's state as a value and `Step` says what one
 event does to it; the class `StatisticsListener` holds the same fields and is
 proved against `Step`.
 */
module Statistics {
  import opened Events

  /** The listener's fields, as a value. */
  datatype ListenerState = ListenerState(
    distanceMap: map<RoadUser, real>,
    totalDistance: real,
    totalPickups: int,
    totalDeliveries: int,
    pickupTardiness: int,
    deliveryTardiness: int,
    addedParcels: int,
    startTimeReal: int,
    startTimeSim: int,
    computationTime: int,
    simulationTime: int)

  /** The immutable snapshot, its fields in the order of the source's
      constructor. */
  datatype StatisticsDTO = StatisticsDTO(
    totalDistance: real,
    totalPickups: int,
    totalDeliveries: int,
    addedParcels: int,
    pickupTardiness: int,
    deliveryTardiness: int,
    computationTime: int,
    simulationTime: int)

  /** A freshly constructed listener: an empty map and every counter zero
      (the source leaves the time fields at their default, zero). */
  function Initial(): ListenerState
  {
    ListenerState(map[], 0.0, 0, 0, 0, 0, 0, 0, 0, 0, 0)
  }

  // ---------------------------------------------------------------------
  // Sum of the per-mover distances
  // ---------------------------------------------------------------------

  /** The sum of all values of a distance map. */
  ghost function MapSum(m: map<RoadUser, real>): real
    decreases |m|
  {
    if m == map[] then 0.0
    else
      var k :| k in m;
      assert |m - {k}| < |m| by { RemoveShrinks(m, k); }
      m[k] + MapSum(m - {k})
  }

  lemma RemoveShrinks(m: map<RoadUser, real>, k: RoadUser)
    requires k in m
    ensures |m - {k}| == |m| - 1
  {
    assert (m - {k}).Keys == m.Keys - {k};
  }

  /** MapSum does not depend on which key it picks first: any key's value
      can be split off. */
  lemma {:induction false} MapSumRemove(m: map<RoadUser, real>, k: RoadUser)
    requires k in m
    ensures MapSum(m) == m[k] + MapSum(m - {k})
    decreases |m|
  {
    var j :| j in m && MapSum(m) == m[j] + MapSum(m - {j});
    if j != k {
      RemoveShrinks(m, j);
      RemoveShrinks(m, k);
      var mj, mk := m - {j}, m - {k};
      MapSumRemove(mj, k);
      MapSumRemove(mk, j);
      assert mj - {k} == mk - {j};
    }
  }

  /** The update `increment` makes to the distance map: an absent mover is
      inserted with the distance, a present one has it added. */
  function AddDistance(m: map<RoadUser, real>, u: RoadUser, d: real): (r: map<RoadUser, real>)
    ensures r.Keys == m.Keys + {u}
    ensures u in m ==> r[u] == m[u] + d
    ensures u !in m ==> r[u] == d
    ensures forall k :: k in m && k != u ==> r[k] == m[k]
  {
    if u !in m then m[u := d] else m[u := m[u] + d]
  }

  /** Adding a distance for one mover adds it to the sum over all movers. */
  lemma AddDistanceSum(m: map<RoadUser, real>, u: RoadUser, d: real)
    ensures MapSum(AddDistance(m, u, d)) == MapSum(m) + d
  {
    var r := AddDistance(m, u, d);
    MapSumRemove(r, u);
    if u in m {
      MapSumRemove(m, u);
      assert r - {u} == m - {u};
    } else {
      assert r - {u} == m;
    }
  }

  // ---------------------------------------------------------------------
  // Tardiness
  // ---------------------------------------------------------------------

  /** The tardiness one pickup or delivery start adds: how far `time` lies
      past the latest on-time start, `window.begin - duration`, and zero for
      a start at or before it. */
  function Lateness(time: int, window: TimeWindow, duration: int): (r: int)
    ensures r >= 0
    ensures r == 0 <==> time <= window.begin - duration
    ensures r >= time - (window.begin - duration)
    ensures r > 0 ==> r == time - (window.begin - duration)
  {
    var latestBeginTime := window.begin - duration;
    if time > latestBeginTime then time - latestBeginTime else 0
  }

  // ---------------------------------------------------------------------
  // One event
  // ---------------------------------------------------------------------

  /** What `handleEvent` does with one event, given the simulator time and the
      wall-clock time it reads while handling it. */
  function Step(s: ListenerState, e: DomainEvent, simNow: int, wallNow: int): (r: ListenerState)
    // the tardiness totals never decrease, and only the matching start event adds to one
    ensures r.pickupTardiness == s.pickupTardiness + (if e.StartPickup? then Lateness(e.time, e.parcel.pickupWindow, e.parcel.pickupDuration) else 0)
    ensures r.deliveryTardiness == s.deliveryTardiness + (if e.StartDelivery? then Lateness(e.time, e.parcel.deliveryWindow, e.parcel.deliveryDuration) else 0)
    ensures r.pickupTardiness >= s.pickupTardiness && r.deliveryTardiness >= s.deliveryTardiness
    // each end event counts exactly one completed operation; start events count none
    ensures r.totalPickups == s.totalPickups + (if e.EndPickup? then 1 else 0)
    ensures r.totalDeliveries == s.totalDeliveries + (if e.EndDelivery? then 1 else 0)
    // only a move touches the distances, and it adds its distance to both
    ensures e.Move? ==> r.distanceMap == AddDistance(s.distanceMap, e.user, e.distance)
    ensures e.Move? ==> r.totalDistance == s.totalDistance + e.distance
    ensures !e.Move? ==> r.distanceMap == s.distanceMap && r.totalDistance == s.totalDistance
    // the lifecycle events set the start times and the measured durations
    ensures e.Started? ==> r.startTimeSim == simNow && r.startTimeReal == wallNow
    ensures !e.Started? ==> r.startTimeSim == s.startTimeSim && r.startTimeReal == s.startTimeReal
    ensures e.Stopped? ==> r.simulationTime == simNow - s.startTimeSim && r.computationTime == wallNow - s.startTimeReal
    ensures !e.Stopped? ==> r.simulationTime == s.simulationTime && r.computationTime == s.computationTime
    // the listener never counts parcels itself, and ignores unknown events
    ensures r.addedParcels == s.addedParcels
    ensures e.OtherEvent? ==> r == s
  {
    match e
    case Started =>
      s.(startTimeReal := wallNow, startTimeSim := simNow)
    case Stopped =>
      s.(computationTime := wallNow - s.startTimeReal, simulationTime := simNow - s.startTimeSim)
    case Move(u, d) =>
      s.(distanceMap := AddDistance(s.distanceMap, u, d), totalDistance := s.totalDistance + d)
    case StartPickup(time, p) =>
      s.(pickupTardiness := s.pickupTardiness + Lateness(time, p.pickupWindow, p.pickupDuration))
    case EndPickup(_, _) =>
      s.(totalPickups := s.totalPickups + 1)
    case StartDelivery(time, p) =>
      s.(deliveryTardiness := s.deliveryTardiness + Lateness(time, p.deliveryWindow, p.deliveryDuration))
    case EndDelivery(_, _) =>
      s.(totalDeliveries := s.totalDeliveries + 1)
    case OtherEvent =>
      s
  }

  /** The listener's invariant: the total distance is the sum of the
      per-mover distances, and the counters and tardiness totals are not
      negative. */
  ghost predicate Inv(s: ListenerState)
  {
    && s.totalDistance == MapSum(s.distanceMap)
    && s.totalPickups >= 0
    && s.totalDeliveries >= 0
    && s.pickupTardiness >= 0
    && s.deliveryTardiness >= 0
    && s.addedParcels >= 0
  }

  /** Every event keeps the invariant, whatever the sign of a move's
      distance. */
  lemma StepInv(s: ListenerState, e: DomainEvent, simNow: int, wallNow: int)
    requires Inv(s)
    ensures Inv(Step(s, e, simNow, wallNow))
  {
    if e.Move? {
      AddDistanceSum(s.distanceMap, e.user, e.distance);
    }
  }

  // ---------------------------------------------------------------------
  // A sequence of events
  // ---------------------------------------------------------------------

  /** The state after handling the observations in order. */
  function Run(s: ListenerState, obs: seq<Observation>): ListenerState
    decreases |obs|
  {
    if obs == [] then s
    else Run(Step(s, obs[0].event, obs[0].simNow, obs[0].wallNow), obs[1..])
  }

  /** The sum of the distances of the move events among the observations. */
  function MovedDistance(obs: seq<Observation>): real
  {
    if obs == [] then 0.0
    else (if obs[0].event.Move? then obs[0].event.distance else 0.0) + MovedDistance(obs[1..])
  }

  /** The number of observations whose event satisfies `p`. */
  function CountEvents(obs: seq<Observation>, p: DomainEvent -> bool): nat
  {
    if obs == [] then 0
    else (if p(obs[0].event) then 1 else 0) + CountEvents(obs[1..], p)
  }

  lemma {:induction false} RunInv(s: ListenerState, obs: seq<Observation>)
    requires Inv(s)
    ensures Inv(Run(s, obs))
    decreases |obs|
  {
    if obs != [] {
      StepInv(s, obs[0].event, obs[0].simNow, obs[0].wallNow);
      RunInv(Step(s, obs[0].event, obs[0].simNow, obs[0].wallNow), obs[1..]);
    }
  }

  /** Any run adds exactly the moved distances to the total, and the
      per-mover distances keep summing to the total. */
  lemma {:induction false} RunDistance(s: ListenerState, obs: seq<Observation>)
    requires Inv(s)
    ensures Run(s, obs).totalDistance == s.totalDistance + MovedDistance(obs)
    ensures MapSum(Run(s, obs).distanceMap) == Run(s, obs).totalDistance
    decreases |obs|
  {
    RunInv(s, obs);
    if obs != [] {
      var s' := Step(s, obs[0].event, obs[0].simNow, obs[0].wallNow);
      StepInv(s, obs[0].event, obs[0].simNow, obs[0].wallNow);
      RunDistance(s', obs[1..]);
    }
  }

  /** Over any run the tardiness totals never decrease. */
  lemma {:induction false} RunTardinessMonotone(s: ListenerState, obs: seq<Observation>)
    ensures Run(s, obs).pickupTardiness >= s.pickupTardiness
    ensures Run(s, obs).deliveryTardiness >= s.deliveryTardiness
    decreases |obs|
  {
    if obs != [] {
      RunTardinessMonotone(Step(s, obs[0].event, obs[0].simNow, obs[0].wallNow), obs[1..]);
    }
  }

  /** Over any run the pickup and delivery counts grow by exactly the number
      of end events, and the parcel count does not change. */
  lemma {:induction false} RunCounts(s: ListenerState, obs: seq<Observation>)
    ensures Run(s, obs).totalPickups == s.totalPickups + CountEvents(obs, (e: DomainEvent) => e.EndPickup?)
    ensures Run(s, obs).totalDeliveries == s.totalDeliveries + CountEvents(obs, (e: DomainEvent) => e.EndDelivery?)
    ensures Run(s, obs).addedParcels == s.addedParcels
    decreases |obs|
  {
    if obs != [] {
      RunCounts(Step(s, obs[0].event, obs[0].simNow, obs[0].wallNow), obs[1..]);
    }
  }

  /** A worked run, shifted by any start time `t0` and wall-clock start `w0`:
      started at t0, one move of 5, a pickup with window [t0 + 10, t0 + 20]
      and duration 2 started at t0 + 9 (one unit past t0 + 10 - 2), ended at
      t0 + 11, stopped at t0 + 12. */
  lemma SampleRun(t0: int, w0: int)
    ensures
      var p := Parcel(TimeWindow(t0 + 10, t0 + 20), 2, TimeWindow(t0 + 30, t0 + 40), 2);
      var obs := [
        Observation(Started, t0, w0),
        Observation(Move(1, 5.0), t0 + 1, w0 + 1),
        Observation(StartPickup(t0 + 9, p), t0 + 9, w0 + 2),
        Observation(EndPickup(t0 + 11, p), t0 + 11, w0 + 3),
        Observation(Stopped, t0 + 12, w0 + 7)];
      var r := Run(Initial(), obs);
      r.totalDistance == 5.0 && r.pickupTardiness == 1 && r.totalPickups == 1
      && r.deliveryTardiness == 0 && r.simulationTime == 12 && r.computationTime == 7
  {
    var p := Parcel(TimeWindow(t0 + 10, t0 + 20), 2, TimeWindow(t0 + 30, t0 + 40), 2);
    var o := [
      Observation(Started, t0, w0),
      Observation(Move(1, 5.0), t0 + 1, w0 + 1),
      Observation(StartPickup(t0 + 9, p), t0 + 9, w0 + 2),
      Observation(EndPickup(t0 + 11, p), t0 + 11, w0 + 3),
      Observation(Stopped, t0 + 12, w0 + 7)];
    var s1 := Step(Initial(), o[0].event, o[0].simNow, o[0].wallNow);
    var s2 := Step(s1, o[1].event, o[1].simNow, o[1].wallNow);
    var s3 := Step(s2, o[2].event, o[2].simNow, o[2].wallNow);
    var s4 := Step(s3, o[3].event, o[3].simNow, o[3].wallNow);
    var s5 := Step(s4, o[4].event, o[4].simNow, o[4].wallNow);
    assert Run(s5, o[5..]) == s5;
    assert Run(s4, o[4..]) == s5;
    assert Run(s3, o[3..]) == s5;
    assert Run(s2, o[2..]) == s5;
    assert Run(s1, o[1..]) == s5;
  }

  // ---------------------------------------------------------------------
  // The listener object
  // ---------------------------------------------------------------------

  class StatisticsListener {
    var distanceMap: map<RoadUser, real>
    var totalDistance: real
    var totalPickups: int
    var totalDeliveries: int
    var pickupTardiness: int
    var deliveryTardiness: int
    var addedParcels: int
    var startTimeReal: int
    var startTimeSim: int
    var computationTime: int
    var simulationTime: int

    /** The fields, as a value. */
    function State(): ListenerState
      reads this
    {
      ListenerState(distanceMap, totalDistance, totalPickups, totalDeliveries,
                    pickupTardiness, deliveryTardiness, addedParcels,
                    startTimeReal, startTimeSim, computationTime, simulationTime)
    }

    ghost predicate Valid()
      reads this
    {
      Inv(State())
    }

    constructor ()
      ensures Valid()
      ensures State() == Initial()
    {
      distanceMap := map[];
      totalDistance := 0.0;
      totalPickups := 0;
      totalDeliveries := 0;
      addedParcels := 0;
      pickupTardiness := 0;
      deliveryTardiness := 0;
      startTimeReal := 0;
      startTimeSim := 0;
      computationTime := 0;
      simulationTime := 0;
    }

    /** Handles one event; `simNow` is the simulator's current time and
        `wallNow` the wall clock, both read by the source while handling. */
    method HandleEvent(e: DomainEvent, simNow: int, wallNow: int)
      requires Valid()
      modifies this
      ensures Valid()
      ensures State() == Step(old(State()), e, simNow, wallNow)
    {
      StepInv(State(), e, simNow, wallNow);
      if e.Started? {
        startTimeReal := wallNow;
        startTimeSim := simNow;
      } else if e.Stopped? {
        computationTime := wallNow - startTimeReal;
        simulationTime := simNow - startTimeSim;
      } else if e.Move? {
        Increment(e.user, e.distance);
        totalDistance := totalDistance + e.distance;
      } else if e.StartPickup? {
        var latestBeginTime := e.parcel.pickupWindow.begin - e.parcel.pickupDuration;
        if e.time > latestBeginTime {
          pickupTardiness := pickupTardiness + (e.time - latestBeginTime);
        }
      } else if e.EndPickup? {
        totalPickups := totalPickups + 1;
      } else if e.StartDelivery? {
        var latestBeginTime := e.parcel.deliveryWindow.begin - e.parcel.deliveryDuration;
        if e.time > latestBeginTime {
          deliveryTardiness := deliveryTardiness + (e.time - latestBeginTime);
        }
      } else if e.EndDelivery? {
        totalDeliveries := totalDeliveries + 1;
      }
    }

    /** Adds `num` to the distance recorded for `mru`, inserting the entry if
        the mover has none yet. */
    method Increment(mru: RoadUser, num: real)
      modifies this`distanceMap
      ensures distanceMap == AddDistance(old(distanceMap), mru, num)
    {
      if mru !in distanceMap {
        distanceMap := distanceMap[mru := num];
      } else {
        distanceMap := distanceMap[mru := distanceMap[mru] + num];
      }
    }

    /** The snapshot of the counters. */
    function GetDTO(): (d: StatisticsDTO)
      reads this
      requires Valid()
      // the total distance is the sum over the movers
      ensures d.totalDistance == totalDistance == MapSum(distanceMap)
      // every count and total is copied as it stands, and none is negative
      ensures d.totalPickups == totalPickups >= 0 && d.totalDeliveries == totalDeliveries >= 0
      ensures d.addedParcels == addedParcels >= 0
      ensures d.pickupTardiness == pickupTardiness >= 0 && d.deliveryTardiness == deliveryTardiness >= 0
      ensures d.simulationTime == simulationTime && d.computationTime == computationTime
    {
      StatisticsDTO(totalDistance, totalPickups, totalDeliveries, addedParcels,
                    pickupTardiness, deliveryTardiness, computationTime, simulationTime)
    }

    function GetTotalTraveledDistance(): (r: real)
      reads this
      requires Valid()
      ensures r == GetDTO().totalDistance
      ensures r == MapSum(distanceMap)
    {
      totalDistance
    }

    function GetTotalPickups(): (r: int)
      reads this
      requires Valid()
      ensures r == GetDTO().totalPickups && r >= 0
    {
      totalPickups
    }

    function GetTotalDeliveries(): (r: int)
      reads this
      requires Valid()
      ensures r == GetDTO().totalDeliveries && r >= 0
    {
      totalDeliveries
    }

    function GetComputationTime(): (r: int)
      reads this
      requires Valid()
      ensures r == GetDTO().computationTime
    {
      computationTime
    }
  }
}
