/**
 The scenario side of the FabriRecht problem: `handleTimedEvent` routes each
 scenario event to its handler, counts added parcels in the statistics
 listener and stops the simulator on a time-out.

 The handlers themselves (registering a parcel or a depot with the simulator,
 and the problem-specific vehicle and time-out handlers) are calls into code
 outside this model: each call is recorded in the ghost log `calls`, and its
 boolean outcome is a parameter.
 */
module Problem {
  import opened Events
  import opened Statistics

  datatype Option<T> = None | Some(value: T)

  /** The four handler hooks of the problem. */
  datatype Handler = HandleAddParcel | HandleAddVehicle | HandleAddDepot | HandleTimeOut

  /** An external call made while dispatching: a stop request to the
      simulator, or a handler invoked with the event and the parcel count the
      statistics listener holds at that moment. */
  datatype Call =
    | StopSimulator
    | Invoke(handler: Handler, event: TimedEvent, addedParcelsSeen: int)

  /** The handler each scenario event kind is routed to; unknown kinds have
      none. */
  function HandlerOf(k: TimedEventKind): (h: Option<Handler>)
    ensures h.None? <==> k.OtherKind?
    ensures h == Some(HandleAddParcel) <==> k.AddParcel?
    ensures h == Some(HandleAddVehicle) <==> k.AddVehicle?
    ensures h == Some(HandleAddDepot) <==> k.AddDepot?
    ensures h == Some(HandleTimeOut) <==> k.TimeOut?
  {
    match k
    case AddParcel(_) => Some(HandleAddParcel)
    case AddVehicle(_) => Some(HandleAddVehicle)
    case AddDepot(_) => Some(HandleAddDepot)
    case TimeOut => Some(HandleTimeOut)
    case OtherKind => None
  }

  /** The outcome of dispatching one event: the value returned, the parcel
      count afterwards and the external calls made, in order. */
  datatype Dispatched = Dispatched(result: bool, addedParcels: int, calls: seq<Call>)

  /** What `handleTimedEvent` does with event `e` when the parcel count is
      `addedParcels` and the handler it calls returns `handlerResult`. */
  function Dispatch(e: TimedEvent, addedParcels: int, handlerResult: bool): (d: Dispatched)
    // the handler's answer is returned; an unknown kind is refused and calls nothing
    ensures d.result <==> HandlerOf(e.kind).Some? && handlerResult
    ensures d.calls == [] <==> e.kind.OtherKind?
    // an added parcel is counted whatever its handler returns; nothing else is counted
    ensures d.addedParcels == addedParcels + (if e.kind.AddParcel? then 1 else 0)
    // exactly one handler is invoked, last, and it already sees the new count
    ensures HandlerOf(e.kind).Some? ==>
              d.calls[|d.calls| - 1] == Invoke(HandlerOf(e.kind).value, e, d.addedParcels)
    ensures forall i :: 0 <= i < |d.calls| - 1 ==> d.calls[i] == StopSimulator
    // the simulator is stopped, before the time-out hook, exactly on a time-out
    ensures StopSimulator in d.calls <==> e.kind.TimeOut?
    ensures e.kind.TimeOut? ==> |d.calls| == 2 && d.calls[0] == StopSimulator
  {
    match e.kind
    case AddParcel(_) =>
      Dispatched(handlerResult, addedParcels + 1, [Invoke(HandleAddParcel, e, addedParcels + 1)])
    case AddVehicle(_) =>
      Dispatched(handlerResult, addedParcels, [Invoke(HandleAddVehicle, e, addedParcels)])
    case AddDepot(_) =>
      Dispatched(handlerResult, addedParcels, [Invoke(HandleAddDepot, e, addedParcels)])
    case TimeOut =>
      Dispatched(handlerResult, addedParcels, [StopSimulator, Invoke(HandleTimeOut, e, addedParcels)])
    case OtherKind =>
      Dispatched(false, addedParcels, [])
  }

  /** Dispatching a stream of events, the i-th handler returning
      `results[i]`; the result says whether every event was applied. */
  function DispatchAll(evs: seq<TimedEvent>, results: seq<bool>, addedParcels: int): Dispatched
    requires |results| == |evs|
    decreases |evs|
  {
    if evs == [] then Dispatched(true, addedParcels, [])
    else
      var d := Dispatch(evs[0], addedParcels, results[0]);
      var rest := DispatchAll(evs[1..], results[1..], d.addedParcels);
      Dispatched(d.result && rest.result, rest.addedParcels, d.calls + rest.calls)
  }

  /** The number of events of a given kind in a stream. */
  function CountKind(evs: seq<TimedEvent>, p: TimedEventKind -> bool): nat
  {
    if evs == [] then 0
    else (if p(evs[0].kind) then 1 else 0) + CountKind(evs[1..], p)
  }

  /** Over a stream, the parcel count grows by the number of add-parcel
      events, whatever the handlers return, and the simulator is asked to
      stop once per time-out event. */
  lemma {:induction false} DispatchAllCounts(evs: seq<TimedEvent>, results: seq<bool>, addedParcels: int)
    requires |results| == |evs|
    ensures DispatchAll(evs, results, addedParcels).addedParcels
            == addedParcels + CountKind(evs, (k: TimedEventKind) => k.AddParcel?)
    ensures multiset(DispatchAll(evs, results, addedParcels).calls)[StopSimulator]
            == CountKind(evs, (k: TimedEventKind) => k.TimeOut?)
    decreases |evs|
  {
    if evs != [] {
      var d := Dispatch(evs[0], addedParcels, results[0]);
      DispatchAllCounts(evs[1..], results[1..], d.addedParcels);
      if evs[0].kind.TimeOut? {
        assert multiset(d.calls)[StopSimulator] == 1;
      } else {
        assert multiset(d.calls)[StopSimulator] == 0;
      }
    }
  }

  /** The stream is applied in full exactly when it holds no event of an
      unknown kind and every handler called succeeds. */
  lemma {:induction false} DispatchAllResult(evs: seq<TimedEvent>, results: seq<bool>, addedParcels: int)
    requires |results| == |evs|
    ensures DispatchAll(evs, results, addedParcels).result
            <==> forall i :: 0 <= i < |evs| ==> !evs[i].kind.OtherKind? && results[i]
    decreases |evs|
  {
    if evs != [] {
      var d := Dispatch(evs[0], addedParcels, results[0]);
      DispatchAllResult(evs[1..], results[1..], d.addedParcels);
      assert forall i :: 1 <= i < |evs| ==> evs[i] == evs[1..][i - 1] && results[i] == results[1..][i - 1];
    }
  }

  class FabriRechtProblem {
    const statisticsListener: StatisticsListener
    /** The external calls made so far, in order. */
    ghost var calls: seq<Call>

    ghost predicate Valid()
      reads this, statisticsListener
    {
      statisticsListener.Valid()
    }

    constructor ()
      ensures Valid() && fresh(statisticsListener)
      ensures statisticsListener.State() == Initial()
      ensures calls == []
    {
      statisticsListener := new StatisticsListener();
      calls := [];
    }

    /** Dispatches one scenario event; `handlerResult` is what the handler it
        calls returns. */
    method HandleTimedEvent(e: TimedEvent, handlerResult: bool) returns (ok: bool)
      requires Valid()
      modifies this, statisticsListener
      ensures Valid()
      ensures var d := Dispatch(e, old(statisticsListener.addedParcels), handlerResult);
              && ok == d.result
              && statisticsListener.State() == old(statisticsListener.State()).(addedParcels := d.addedParcels)
              && calls == old(calls) + d.calls
    {
      if e.kind.AddParcel? {
        statisticsListener.addedParcels := statisticsListener.addedParcels + 1;
        calls := calls + [Invoke(HandleAddParcel, e, statisticsListener.addedParcels)];
        ok := handlerResult;
      } else if e.kind.AddVehicle? {
        calls := calls + [Invoke(HandleAddVehicle, e, statisticsListener.addedParcels)];
        ok := handlerResult;
      } else if e.kind.AddDepot? {
        calls := calls + [Invoke(HandleAddDepot, e, statisticsListener.addedParcels)];
        ok := handlerResult;
      } else if e.kind.TimeOut? {
        calls := calls + [StopSimulator];
        calls := calls + [Invoke(HandleTimeOut, e, statisticsListener.addedParcels)];
        ok := handlerResult;
      } else {
        ok := false;
      }
    }

    /** The listener's snapshot: the parcels counted by dispatching, with the
        totals the listener gathered from the simulation. */
    function GetStatistics(): (d: StatisticsDTO)
      reads this, statisticsListener
      requires Valid()
      ensures d.addedParcels == statisticsListener.addedParcels >= 0
      ensures d.totalDistance == MapSum(statisticsListener.distanceMap)
      ensures d.totalPickups == statisticsListener.totalPickups >= 0
      ensures d.totalDeliveries == statisticsListener.totalDeliveries >= 0
      ensures d.pickupTardiness == statisticsListener.pickupTardiness >= 0
      ensures d.deliveryTardiness == statisticsListener.deliveryTardiness >= 0
      ensures d.computationTime == statisticsListener.computationTime
      ensures d.simulationTime == statisticsListener.simulationTime
    {
      statisticsListener.GetDTO()
    }
  }
}
