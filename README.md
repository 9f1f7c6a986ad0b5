# Long ride alerts: the MatchFunction correlation

This project models `CheckpointedLongRides.MatchFunction`, the keyed process
function of the "long ride alerts" job. Rides are keyed by `rideId`. For each
ride id the function keeps at most one saved ride in the keyed value state
"saved ride" (`rideState`):

- `processElement` saves a START only when nothing is saved for its ride id.
- An END always replaces what is saved.
- Every ride then registers an event time timer at its event time plus
  120 minutes (7 200 000 ms).
- `onTimer` hands the saved ride to the collector when it is a START.
- `onTimer` then clears the slot.

In effect, a START is reported when no END for the same ride has been
processed by the time one of the ride's timers fires.

The model has three modules:

- `TaxiRides` (`taxi_rides.dfy`): the ride event itself. It carries the ride
  id, the START/END flag, the event time (the value of `getEventTime()`) and
  an opaque payload standing for the other fields.
- `LongRideSpec` (`long_ride_spec.dfy`): the function's state as a value,
  `Engine`. It holds the keyed state (a map from ride id to the saved ride;
  an absent key is a null value), the pending timers (a multiset of
  `(key, time)`) and the collected rides. `Step` processes one input: either
  a ride handed to `processElement` or the firing of a timer for a key.
  `Run` processes a sequence of inputs. The lemmas state what runs of inputs
  do: recovery consistency, key independence, unmatched STARTs reported once,
  a matched ride not reported by the key's next firing (and later firings
  staying quiet), order independence, idempotent firings,
  timer bookkeeping, and where the alerts come from.
- `CheckpointedLongRides` (`match_function.dfy`): the class `MatchFunction`.
  Its fields are updated in place by `ProcessElement` and `OnTimer`. Each
  method states its whole new state, by itself and as one `Step` of the
  specification. The module also holds three example runs, played
  against the class.

The job's time threshold is the source's 120 * 60 * 1000 milliseconds. The
scenarios use the source's milliseconds.

## Model

| member | source | states |
|---|---|---|
| `CheckpointedLongRides.MatchFunction.constructor` | src/main/java/com/dataartisans/flinktraining/exercises/datastream_java/process/CheckpointedLongRides.java:84-89 | The keyed state starts empty for every key, with no timers and no output. |
| `CheckpointedLongRides.MatchFunction.ProcessElement` | src/main/java/com/dataartisans/flinktraining/exercises/datastream_java/process/CheckpointedLongRides.java:92-105 | A START is stored only if the key's slot is empty, and otherwise the slot is unchanged. An END always overwrites the slot. Other keys are untouched. Exactly one timer `(rideId, eventTime + 7200000)` is added. Nothing is emitted. The new state is one `Step` of the specification. |
| `CheckpointedLongRides.MatchFunction.OnTimer` | src/main/java/com/dataartisans/flinktraining/exercises/datastream_java/process/CheckpointedLongRides.java:108-114 | Exactly the saved ride is appended to the output when it is a START. Nothing is appended when the slot is empty or holds an END. The key's slot is empty afterwards. Other keys are untouched. The firing registration leaves the pending timers. The new state is one `Step` of the specification. |
| `CheckpointedLongRides.UnmatchedStartScenario` | src/main/java/com/dataartisans/flinktraining/exercises/datastream_java/process/CheckpointedLongRides.java:92-114 | A lone START at time 0 is reported, exactly once, by its timer at 7200000. |
| `CheckpointedLongRides.MatchedRideScenario` | src/main/java/com/dataartisans/flinktraining/exercises/datastream_java/process/CheckpointedLongRides.java:92-114 | A START at 0 and its END at 3600000, followed by both timers, give no alert and leave no pending timer. |
| `CheckpointedLongRides.EndFirstScenario` | src/main/java/com/dataartisans/flinktraining/exercises/datastream_java/process/CheckpointedLongRides.java:95-113 | An END that arrives before its START stays saved, because the START is ignored. Neither timer reports anything. |
| `LongRideSpec.Step` | src/main/java/com/dataartisans/flinktraining/exercises/datastream_java/process/CheckpointedLongRides.java:92-114 | The value-level processElement and onTimer. A ride leaves every other key's slot unchanged, leaves a ride saved under its own key, and collects nothing. A firing leaves every other key's slot unchanged, empties its key's slot, and appends at most one ride: a START of that key, exactly when one was saved. |
| `LongRideSpec.RunKeyed` | src/main/java/com/dataartisans/flinktraining/exercises/datastream_java/process/CheckpointedLongRides.java:71-72 | Over any run, the ride saved for a key carries that key, because state is partitioned by `rideId`. |
| `LongRideSpec.StepOtherKey` | src/main/java/com/dataartisans/flinktraining/exercises/datastream_java/process/CheckpointedLongRides.java:80-82 | A ride or firing for one key changes neither another key's saved ride nor the alerts collected for that other key. |
| `LongRideSpec.RunCongruent` | src/main/java/com/dataartisans/flinktraining/exercises/datastream_java/process/CheckpointedLongRides.java:80-82 | A key's outcome over a run depends only on that key's starting slot and alerts. |
| `LongRideSpec.KeyIndependence` | src/main/java/com/dataartisans/flinktraining/exercises/datastream_java/process/CheckpointedLongRides.java:71-72 | Processing interleaved inputs of all keys gives key k the same saved ride and the same alerts as processing only k's inputs. |
| `LongRideSpec.RunCompose` | src/main/java/com/dataartisans/flinktraining/exercises/datastream_java/process/CheckpointedLongRides.java:80-82 | Recovery consistency: resuming from the state reached after any prefix of the inputs ends in the same state, output included, as uninterrupted processing. |
| `LongRideSpec.NoFireNoAlert` | src/main/java/com/dataartisans/flinktraining/exercises/datastream_java/process/CheckpointedLongRides.java:92-111 | As long as no timer of key k fires, nothing is collected for k. |
| `LongRideSpec.StartHeld` | src/main/java/com/dataartisans/flinktraining/exercises/datastream_java/process/CheckpointedLongRides.java:95-99 | A saved START stays saved, unchanged, through any later STARTs and any inputs of other keys, as long as no END of its key arrives and no timer of its key fires. |
| `LongRideSpec.EndSticky` | src/main/java/com/dataartisans/flinktraining/exercises/datastream_java/process/CheckpointedLongRides.java:95-102 | Once the slot holds an END, it holds an END until a timer of that key fires, so a later START cannot restore a START state. |
| `LongRideSpec.EndResolves` | src/main/java/com/dataartisans/flinktraining/exercises/datastream_java/process/CheckpointedLongRides.java:95-102 | An END of key k anywhere among inputs with no firing of k leaves an END in k's slot, whatever the order of the other rides. |
| `LongRideSpec.UnmatchedStartAlerted` | src/main/java/com/dataartisans/flinktraining/exercises/datastream_java/process/CheckpointedLongRides.java:95-113 | Take a START that reaches an empty slot and is followed by no END and no firing of its key. The next firing of its key appends exactly that START to the key's alerts and leaves the slot empty. |
| `LongRideSpec.MatchedRideNotAlerted` | src/main/java/com/dataartisans/flinktraining/exercises/datastream_java/process/CheckpointedLongRides.java:95-113 | When an END of key k comes before k's next firing, that firing appends nothing to k's alerts and leaves k's slot empty. |
| `LongRideSpec.OrderIndependence` | src/main/java/com/dataartisans/flinktraining/exercises/datastream_java/process/CheckpointedLongRides.java:95-104 | START then END and END then START of the same ride reach the same whole state. In that state the END is saved, so the next firing reports nothing. |
| `LongRideSpec.ClearedKeyStaysQuiet` | src/main/java/com/dataartisans/flinktraining/exercises/datastream_java/process/CheckpointedLongRides.java:108-114 | Once k's slot is empty, inputs with no ride of k, including any number of further firings of k, collect nothing for k and leave the slot empty. |
| `LongRideSpec.SecondFiringIsNoOp` | src/main/java/com/dataartisans/flinktraining/exercises/datastream_java/process/CheckpointedLongRides.java:109-113 | A second firing for the same key right after the first leaves the keyed state and the output unchanged. |
| `LongRideSpec.RunTimers` | src/main/java/com/dataartisans/flinktraining/exercises/datastream_java/process/CheckpointedLongRides.java:104 | The pending timers never exceed the starting ones plus one `(rideId, eventTime + AlertDelay)` per processed ride. With no firings they equal exactly that, and nothing is collected. |
| `LongRideSpec.RunExtendsOutput` | src/main/java/com/dataartisans/flinktraining/exercises/datastream_java/process/CheckpointedLongRides.java:111 | The collector is only appended to: a run extends the output it starts from. |
| `LongRideSpec.AlertsAreStarts` | src/main/java/com/dataartisans/flinktraining/exercises/datastream_java/process/CheckpointedLongRides.java:109-112 | Every ride that a run collects is a START, either saved at the outset for its own key or processed during the run. |
| `LongRideSpec.AlertsFromInitial` | src/main/java/com/dataartisans/flinktraining/exercises/datastream_java/process/CheckpointedLongRides.java:109-112 | From the initial state, every collected ride is a START that was among the processed rides. |

## Left out

- `main` (job wiring, lines 52-77) is not modelled. It sets up the execution environment, the file state backend, the checkpoint interval and the restart strategy, the replaying ride source, the New York City filter and `print()`. All of this is configuration and I/O of the streaming runtime.
- `open` is modelled only as the constructor's empty state. The state descriptor's name and type are runtime registration.
- When and in what order timers fire is not modelled: the watermark and the event time progress belong to the runtime. Any caller may fire any `(key, timestamp)`, pending or not, at any point. The lemmas are stated over such arbitrary orders.
- CheckpointedLongRides.MatchFunction.ProcessElement: the runtime keeps one timer per distinct `(key, time)`, so registering the same pair twice gives one firing. The model keeps a multiset, which counts each registration separately.
- Checkpoint and recovery atomicity is not modelled. Being runtime behaviour, it is reduced to `RunCompose`: the state after a prefix of inputs fully determines what follows.
- Parallel processing of different keys is not modelled, because it is concurrency owned by the runtime. The model is sequential, and `KeyIndependence` states that keys do not interact.
- `TaxiRide` is not part of this model. The model uses only `rideId`, `isStart`, the event time and an opaque payload.
- The Java `long` overflow of `eventTime + 120 * 60 * 1000` is not modelled. Times are unbounded integers.
- State access failures (the `throws Exception` of both callbacks) are not modelled. Recovering from them belongs to the runtime's restart strategy.
