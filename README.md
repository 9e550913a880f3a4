# FabriRecht problem: scenario dispatch and run statistics

This project models the control and measurement core of the FabriRecht
pickup-and-delivery problem in RinSim. It covers the class
`FabriRechtProblem` and the `StatisticsListener` nested in it.

- `handleTimedEvent` routes each scenario event to its handler. There are four
  known kinds: add parcel, add vehicle, add depot and time-out.
  - An added parcel is counted in the statistics before its handler runs.
  - A time-out stops the simulator before the time-out hook runs.
  - An event of any other kind is refused with `false`.
- The statistics listener keeps running totals. It updates them from the
  simulator's STARTED/STOPPED events, the road model's MOVE events and the
  pickup-and-delivery model's START/END PICKUP and START/END DELIVERY events.
  - The totals are: travelled distance, overall and per moving road user;
    completed pickups and deliveries; pickup and delivery tardiness; and the
    simulated and computation time of the run.
  - A start adds tardiness only when it is later than `window.begin - duration`.
  - `getDTO` returns an immutable snapshot of eight of these values.

Files:

- `events.dfy` (module `Events`) holds the value types: time windows, parcels,
  scenario events, domain events, and an `Observation` (a domain event with
  the two clocks read while it is handled).
- `statistics.dfy` (module `Statistics`) has three parts.
  - `ListenerState` is the listener's state as a value. `Step` is what one
    event does to it, and `Run` folds `Step` over a stream of events.
  - The invariant `Inv` says the total distance equals the sum of the
    per-mover distances (`MapSum`), and that the counters and tardiness
    totals are not negative.
  - The class `StatisticsListener` has the source's fields. Its
    `HandleEvent` is proved to perform `Step` and to keep the invariant.
- `problem.dfy` (module `Problem`) has two parts.
  - `Dispatch` is what one scenario event does: the value returned, the new
    parcel count and the external calls made, in order.
  - The class `FabriRechtProblem` owns a `StatisticsListener`. Its
    `HandleTimedEvent` is proved to perform `Dispatch`.
  - The calls to the simulator and to the handlers are recorded in the ghost
    log `calls`. Each handler call records the parcel count it sees. This
    makes "increment, then call" and "stop, then time-out hook" part of the
    contract.

External inputs become parameters:

- The simulator's current time (`getSimulator().getCurrentTime()`) and the
  wall clock (`System.currentTimeMillis()`) are `simNow` and `wallNow`.
- The boolean each handler returns is `handlerResult`.

## Model

| member | source | states |
|---|---|---|
| `Problem.HandlerOf` | problem/src/main/java/rinde/sim/problem/fabrirecht/FabriRechtProblem.java:64-77 | each known kind is routed to its own handler (add-parcel, add-vehicle, add-depot, time-out), each in both directions; unknown kinds have none |
| `Problem.Dispatch` | problem/src/main/java/rinde/sim/problem/fabrirecht/FabriRechtProblem.java:64-77 | returns the handler's result for a known kind and `false` with no call for any other kind; the parcel count grows by one exactly on add-parcel, whatever the handler returns; exactly one handler is called, as the last call, and it already sees the incremented count; the simulator stop is issued exactly on a time-out, and before the time-out hook |
| `Problem.DispatchAllCounts` | problem/src/main/java/rinde/sim/problem/fabrirecht/FabriRechtProblem.java:65-75 | over any event stream and any handler outcomes, the parcel count grows by the number of add-parcel events, and the simulator is asked to stop once per time-out event |
| `Problem.DispatchAllResult` | problem/src/main/java/rinde/sim/problem/fabrirecht/FabriRechtProblem.java:64-77 | every event of a stream is applied if and only if the stream has no unknown kind and every handler called returns true |
| `Problem.FabriRechtProblem.constructor` | problem/src/main/java/rinde/sim/problem/fabrirecht/FabriRechtProblem.java:42-46 | creates a fresh listener in its initial state, with no calls made |
| `Problem.FabriRechtProblem.HandleTimedEvent` | problem/src/main/java/rinde/sim/problem/fabrirecht/FabriRechtProblem.java:63-77 | performs `Dispatch`: the returned value, the listener's new parcel count with every other listener field unchanged, and the calls appended to the log in order |
| `Problem.FabriRechtProblem.GetStatistics` | problem/src/main/java/rinde/sim/problem/fabrirecht/FabriRechtProblem.java:91-93 | the report's parcel count is the listener's count, the one `HandleTimedEvent` raises on every add-parcel event; the report also carries the sum of the per-mover distances, and the listener's counts, tardiness totals and times, copied unchanged; none of the counts is negative |
| `Statistics.AddDistance` | problem/src/main/java/rinde/sim/problem/fabrirecht/FabriRechtProblem.java:187-193 | the mover becomes a key; an absent mover is inserted with the distance, a present one has it added; every other entry is unchanged |
| `Statistics.MapSumRemove` | problem/src/main/java/rinde/sim/problem/fabrirecht/FabriRechtProblem.java:134 | the sum of a distance map is any one entry plus the sum of the rest |
| `Statistics.AddDistanceSum` | problem/src/main/java/rinde/sim/problem/fabrirecht/FabriRechtProblem.java:187-193 | adding a distance for one mover adds exactly that distance to the sum over all movers |
| `Statistics.Lateness` | problem/src/main/java/rinde/sim/problem/fabrirecht/FabriRechtProblem.java:168-171 | the tardiness one start adds is never negative; it is zero if and only if the start is at or before `window.begin - duration`; otherwise it is the distance past that time |
| `Statistics.Step` | problem/src/main/java/rinde/sim/problem/fabrirecht/FabriRechtProblem.java:155-185 | a start adds its lateness to its own tardiness total only, so both totals never decrease; each end event adds one to its own count only; only a move changes the distances, adding its distance to the total and to the mover's entry; STARTED records both clocks; STOPPED sets the simulation time to the simulated time since STARTED, and the computation time to the wall-clock time since STARTED; the parcel count never changes; an unknown event changes nothing |
| `Statistics.StepInv` | problem/src/main/java/rinde/sim/problem/fabrirecht/FabriRechtProblem.java:162-171 | every event keeps the invariant: total distance equals the sum of the per-mover distances, and the counts and tardiness totals are not negative. This holds for moves of any sign |
| `Statistics.RunInv` | problem/src/main/java/rinde/sim/problem/fabrirecht/FabriRechtProblem.java:155-185 | any stream of events keeps the invariant |
| `Statistics.RunDistance` | problem/src/main/java/rinde/sim/problem/fabrirecht/FabriRechtProblem.java:162-165 | over any stream the total distance grows by exactly the sum of the moved distances, and still equals the sum of the per-mover distances |
| `Statistics.RunTardinessMonotone` | problem/src/main/java/rinde/sim/problem/fabrirecht/FabriRechtProblem.java:166-181 | over any stream neither tardiness total decreases |
| `Statistics.RunCounts` | problem/src/main/java/rinde/sim/problem/fabrirecht/FabriRechtProblem.java:173-183 | over any stream the pickup and delivery counts grow by exactly the number of end-pickup and end-delivery events, and the parcel count is unchanged |
| `Statistics.SampleRun` | problem/src/main/java/rinde/sim/problem/fabrirecht/FabriRechtProblem.java:155-185 | a worked run. It starts, moves 5, starts a pickup one unit past `begin - duration`, ends the pickup and stops 12 units after the start. The result is distance 5, pickup tardiness 1, one pickup and simulation time 12, for any start time |
| `Statistics.StatisticsListener.constructor` | problem/src/main/java/rinde/sim/problem/fabrirecht/FabriRechtProblem.java:146-152 | a new listener has an empty distance map and every counter zero, and satisfies the invariant |
| `Statistics.StatisticsListener.HandleEvent` | problem/src/main/java/rinde/sim/problem/fabrirecht/FabriRechtProblem.java:155-185 | the new fields are `Step` of the old ones, and the invariant is kept |
| `Statistics.StatisticsListener.Increment` | problem/src/main/java/rinde/sim/problem/fabrirecht/FabriRechtProblem.java:187-193 | the distance map becomes `AddDistance` of the old map, and no other field changes |
| `Statistics.StatisticsListener.GetDTO` | problem/src/main/java/rinde/sim/problem/fabrirecht/FabriRechtProblem.java:211-214 | all eight fields are copied from the listener unchanged; the total distance is also the sum of the per-mover distances; the counts and tardiness totals are not negative. As a function of the fields, two calls with no event between them give equal snapshots |
| `Statistics.StatisticsListener.GetTotalTraveledDistance` | problem/src/main/java/rinde/sim/problem/fabrirecht/FabriRechtProblem.java:195-197 | agrees with the snapshot, and is the sum of the per-mover distances |
| `Statistics.StatisticsListener.GetTotalPickups` | problem/src/main/java/rinde/sim/problem/fabrirecht/FabriRechtProblem.java:199-201 | agrees with the snapshot and is not negative |
| `Statistics.StatisticsListener.GetTotalDeliveries` | problem/src/main/java/rinde/sim/problem/fabrirecht/FabriRechtProblem.java:203-205 | agrees with the snapshot and is not negative |
| `Statistics.StatisticsListener.GetComputationTime` | problem/src/main/java/rinde/sim/problem/fabrirecht/FabriRechtProblem.java:207-209 | agrees with the snapshot |

## Left out

- `createSimulator` (FabriRechtProblem.java:50-61) is not modelled. It builds the simulator, the plane road model and the pickup-and-delivery model, and subscribes the listener to their events. These are library objects outside this model. The listener is subscribed to every simulator event type (line 54) but acts only on STARTED and STOPPED; every event it receives and does not handle is `OtherEvent`, which changes nothing.
- The source's unchecked downcasts (lines 67, 69, 71, 163, 167 and 176) are not modelled. In the model each event kind carries its own payload, so the `ClassCastException` the source would throw for an event whose type tag and class disagree cannot occur.
- The scenario passed to the `FabriRechtProblem` constructor and the tick count given to `ScenarioController` (lines 42-44) are not modelled. `ScenarioController` is not part of this model.
- The handlers' effects are not modelled: `handleAddParcel` and `handleAddDepot` register a parcel or depot with the simulator (lines 83-89), and `handleAddVehicle` and `handleTimeOut` are abstract (lines 79-81). Each appears only as a logged call and its boolean outcome.
- Stopping the simulator is modelled only as a logged call. Its later STOPPED event arrives at the listener as an ordinary `HandleEvent` call.
- `StatisticsDTO.toString` (lines 116-129) is not modelled. It formats doubles and computes percentages with double division and `Math.round`. When no parcel was added, those percentages come from NaN or infinity.
- The snapshot class `StatisticsDTO` is a datatype. Its constructor (lines 105-114) only copies its arguments, so it has no member of its own.
- `Statistics.StatisticsListener.HandleEvent`: does not model 32-bit `int` wrap-around of the counters or 64-bit `long` wrap-around of the times and tardiness totals. Integers are unbounded. Wrap-around needs more than 2^31 events or times far beyond a run's length.
- `Problem.FabriRechtProblem.HandleTimedEvent`: does not model 32-bit wrap-around of `addedParcels`, for the same reason.
- `Statistics.Step`: distances are `real`, not IEEE doubles. So "the total equals the sum of the per-mover distances" is proved for exact arithmetic. With doubles, the two sums can differ by rounding.
- The per-mover distances are a `map`. The source uses a `LinkedHashMap`, whose insertion order nothing in this core reads.
- A second STARTED without a STOPPED between them just overwrites both start times. That is what the source does, so the model does the same.

Four behaviours of the source a reader might not expect; the model keeps each:

- There is no "timed out" state, and events after a time-out are dispatched like any other.
- A move with a negative distance is accepted. The distance invariant holds for any sign, but the totals then decrease.
- An unknown event kind returns `false`. It is not an error.
- The display percentages are not guarded against zero added parcels.
