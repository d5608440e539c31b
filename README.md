# node-hydra normalisation core, in Dafny

A verified model of the normalisation logic of `node-hydra`, a Node.js binding
for the Razer Hydra motion controllers (Sixense SDK). Every poll, the binding
turns the SDK's raw per-controller samples into one snapshot for JavaScript:
- position, rotation quaternion and trigger, copied from the sample;
- joystick geometry (radius, angle, compass bearing, quadrant, octant);
- named buttons read from the bitmask;
- one shared sequence number;
- the separation of controllers 0 and 1.

The binding also keeps a small session state (`hasBeenInitialised`, the
previous clock reading) across `init`, `exit` and `update`.

Files and modules:

- `geometry.dfy`, module `Geometry`: the pure helpers `bitAt`,
  `epsilonCrossing`, `toQuadrant` and `toOctant`, and their threshold tables.
  Bitwise AND is defined digit by digit over `nat`. An unsigned right shift is
  division by a power of two.
- `normalizer.dfy`, module `Normalizer`: the raw SDK sample, the joystick,
  button and controller records, and the per-controller normaliser.
- `aggregator.dfy`, module `Aggregator`: the frame snapshot and the values one
  poll computes:
  - the controller list, in slot order;
  - the last-write-wins sequence number;
  - the separation vector.
- `session.dfy`, module `Session`: the binding's globals as the fields of a
  `Session` class, with `Init`, `Exit` and `Update` as methods.
  - `ProcessSlots` is the slot loop of `Update`.
  - `ComputeSeparation` is the fill loop over the three-element `sep` array.
  - `InitStrict` and `UpdateStrict` stop at the error instead of carrying on.
- `scenarios.dfy`, module `Scenarios`: short call sequences on a fresh session,
  proved from the method contracts alone.

Floating-point values are modelled as `real`. The quadrant and octant
thresholds are multiples of 1/16, so they are exact in binary and the
comparisons mean the same over `real`. `sqrt` and `atan2` are the two fields
of a `Numerics` value that the caller passes in; nothing is assumed about them.
The clock reading is a parameter of `Update`. What the SDK returns (the init
code, the exit code, the newest data, the number of active controllers) is
passed in as parameters too. The SDK commands the binding sends (`init`,
`setActiveBase`, `getAllNewestData`, `exit`) are recorded in the session's
`sdkCalls` field. The SDK's queries are not recorded.

A host exception does not end the C++ function that raises it. Each operation
therefore returns the exception it raised (`raised: Option<HostError>`)
beside the state it leaves, and carries on exactly as the source does. Once
an exception has been raised, V8 throws it to the JavaScript caller and drops
the function's return value. So when `raised` is set, the returned init code or
frame never reaches the host; only the changes to the session state remain.
The frame facts in `Scenarios.PollBeforeInit` describe what the C++ computes,
not what the host receives.

The model follows the code as written, including where its behaviour looks unintended:

- `Exit` never clears `hasBeenInitialised`, so a second `exit` is no error
  and shuts the SDK down again (`Scenarios.ExitTwice`).
- A positive init code raises an error, but `Init` still waits, makes base 0
  active, sets the flag and returns the code (`Scenarios.UpdateAfterFailedInit`).
- `Update` on an uninitialised session raises an error and still fetches the
  data, processes the slots and overwrites the shared sequence number.
- The separation is computed from slots 0 and 1 whatever the number of
  active controllers, and is always present in the frame.

## Model

| member | source | states |
|---|---|---|
| Geometry.BitAt | src/node-hydra.cpp:56-58 | `bitAt(byte, bit)` is true exactly when binary digit `bit` of `byte` is 1, i.e. `(byte / 2^bit) % 2 == 1`, for every bit number 0..10 the table covers |
| Geometry.Po2MatchesPow2 | src/node-hydra.cpp:19 | each of the eleven table entries is the matching power of two |
| Geometry.BitAndPow2 | src/node-hydra.cpp:57 | masking with `2^k` leaves `2^k` when digit k is set and 0 otherwise (induction on k) |
| Geometry.EpsilonCrossing | src/node-hydra.cpp:21-62 | values below `1e-7` or above `1 - 1e-7` become 0, all others are unchanged, so the result is 0 or lies in `[1e-7, 1 - 1e-7]` |
| Geometry.EpsilonCrossingIdempotent | src/node-hydra.cpp:60-62 | snapping twice equals snapping once, and 0 stays 0 |
| Geometry.ToQuadrant | src/node-hydra.cpp:24-69 | result 0 iff `r == 0`; otherwise 1..4, with `[0,.25)`→1, `[.25,.5)`→2, `[.5,.75)`→3 and every other bearing (negative or ≥ .75) →4, each as an if-and-only-if |
| Geometry.QuadrantIsQuarter | src/node-hydra.cpp:64-69 | on bearings in `[0,1)` with the stick moved, the quadrant is `floor(4b) + 1` |
| Geometry.ToOctant | src/node-hydra.cpp:25-80 | result 0 iff `r == 0`; otherwise 1..8, and a result k in 2..8 means b lies strictly inside `(1/16 + (k-2)/8, 1/16 + (k-1)/8)` |
| Geometry.OctantSector | src/node-hydra.cpp:71-80 | with the stick moved, octant k in 2..8 is returned exactly for bearings strictly inside its open interval |
| Geometry.OctantCatchAll | src/node-hydra.cpp:71-80 | with the stick moved, octant 1 is returned exactly for bearings inside none of the seven open intervals (every boundary value, and everything outside `(1/16, 15/16)`) |
| Geometry.OctantIsNearestEighth | src/node-hydra.cpp:25-34 | inside an open octant interval the octant is `floor(8b + 1/2) + 1`, i.e. 1 plus the nearest eighth |
| Geometry.SnappedWrapIsNorth | src/node-hydra.cpp:197-199 | a raw bearing within the tolerance of the wrap point snaps to quadrant 1 and octant 1 whenever the stick is moved |
| Normalizer.NormalizeJoystick | src/node-hydra.cpp:189-208 | the record carries x, y, `r = sqrt(x²+y²)` and `θ = atan2(y, x)`; the bearing is the snapped compass bearing `epsilonCrossing((atan2(-x,-y)+π)/2π)`, so 0 or the raw bearing inside `[1e-7, 1-1e-7]`; quadrant and octant are `toQuadrant`/`toOctant` of that bearing and the radius, so 0 iff r is 0 and in 1..4 and 1..8 otherwise; a bearing at the wrap point gives sector 1 |
| Normalizer.JoystickSectors | src/node-hydra.cpp:197-199 | with the stick moved, the record's octant is k in 2..8 exactly when its bearing is strictly inside octant k's open interval, and its quadrant is 1, 2 or 3 exactly on the matching half-open quarter |
| Normalizer.JoystickAtRest | src/node-hydra.cpp:193-199 | a centred stick has r = 0, quadrant 0 and octant 0, whatever `atan2` returns, given only `sqrt(0) == 0` |
| Normalizer.NormalizeButtons | src/node-hydra.cpp:220-231 | button1..4 are bits 5, 6, 3, 4 of the bitmask, home is bit 0, bumper bit 7, joystick bit 8, each stated by binary digit; the bitmask is kept unchanged |
| Normalizer.NormalizeController | src/node-hydra.cpp:144-233 | the record copies position, rotation quaternion and trigger from the sample and derives joystick and buttons from its axes and bitmask |
| Aggregator.NormalizeSlots | src/node-hydra.cpp:141-237 | one record per processed slot, record i normalising slot i, in slot order |
| Aggregator.OverwriteIsLast | src/node-hydra.cpp:154-158 | overwriting the shared sequence number slot by slot leaves the last slot's number, or the previous value when no slot is processed (induction) |
| Aggregator.SharedSequence | src/node-hydra.cpp:154-158 | when all processed slots report the same sequence number, the frame carries that number |
| Aggregator.Separation | src/node-hydra.cpp:243-256 | four elements; element i < 3 is controller 0's position minus controller 1's; element 3 is the root of the sum of their squares |
| Aggregator.SeparationAntisymmetric | src/node-hydra.cpp:245-256 | swapping the two controllers negates the three deltas and keeps the distance |
| Aggregator.SeparationOfCoincident | src/node-hydra.cpp:245-256 | two controllers at the same position are separated by (0, 0, 0) at distance 0 |
| Aggregator.SeparationExample | src/node-hydra.cpp:245-256 | positions (0,0,0) and (3,4,0) give (-3, -4, 0) at distance 5 |
| Session.ComputeSeparation | src/node-hydra.cpp:241-256 | filling the `sep` array axis by axis and appending the root gives exactly the separation |
| Session.Session.constructor | src/node-hydra.cpp:39-49 | the globals start zeroed: not initialised, clock readings 0, the processed-slot sample all zero, sequence number 0, nothing sent to the SDK; the newest-data buffer starts empty rather than as zero-filled slots, which is harmless because nothing reads it before the first fetch |
| Session.Session.Init | src/node-hydra.cpp:86-102 | once the base-connected and two-controller waits have ended, the flag is set; a positive init code raises an error without stopping the function; the code is returned; init and set-active-base(0) are sent; the clock and poll state are untouched |
| Session.Session.InitStrict | src/node-hydra.cpp:89-99 | strict variant: a positive init code raises and returns at once, with no wait (so whatever the hardware reports), leaving the flag as it was and sending only init; otherwise it behaves as `Init` |
| Session.Session.Exit | src/node-hydra.cpp:106-117 | uninitialised: raises, has no defined result, sends nothing; initialised: sends exit and returns its code; the flag is unchanged either way |
| Session.Session.Tick | src/node-hydra.cpp:124-127 | `now` and `then` become the clock reading; elapsed is `(now - then_old) * 1000 / CLOCKS_PER_SEC` milliseconds |
| Session.Session.ProcessSlots | src/node-hydra.cpp:141-238 | the slot loop overwrites the shared sequence number once per slot, first slot first, which leaves the last processed slot's number (or the previous one when no slot is active); `controllerData` ends at the last processed slot; the per-slot records come back in order |
| Session.Session.FetchAndNormalize | src/node-hydra.cpp:133-256 | the buffer holds the newest data, one get-newest-data command is sent, and the records and the separation of slots 0 and 1 are returned |
| Session.Session.Update | src/node-hydra.cpp:121-266 | `then` becomes `now` even when uninitialised; the flag is unchanged; uninitialised raises and still completes; the frame's sequence number is the last active slot's (or the previous one); it holds one record per active slot in order, the elapsed time and the separation of slots 0 and 1 |
| Session.Session.UpdateStrict | src/node-hydra.cpp:124-131 | strict variant: when uninitialised it only updates the clock state and returns the error, touching neither the data nor the SDK; otherwise it behaves as `Update`: buffer, `controllerData`, sequence number, SDK commands and frame are each stated |
| Scenarios.PollBeforeInit | src/node-hydra.cpp:125-131 | a poll on a fresh session raises the not-initialised error, records the clock reading, and leaves the flag false |
| Scenarios.StrictPollBeforeInit | src/node-hydra.cpp:129-131 | the strict poll on a fresh session returns the error, sends nothing to the SDK and leaves the flag false |
| Scenarios.ExitBeforeInit | src/node-hydra.cpp:110-114 | exit on a fresh session raises, returns no value and never calls the SDK's exit |
| Scenarios.ExitTwice | src/node-hydra.cpp:110-114 | after init, two exits both succeed and shut the SDK down twice, because the flag is never cleared |
| Scenarios.InitExitInit | src/node-hydra.cpp:86-117 | init, exit, init all succeed and leave the session initialised, with the SDK commands in call order |
| Scenarios.UpdateAfterFailedInit | src/node-hydra.cpp:91-99 | after an init whose code is positive the flag is set anyway, so a following update raises nothing |

## Left out

- The Sixense SDK itself is not modelled: `sixenseInit`, `sixenseIsBaseConnected`, `sixenseGetNumActiveControllers`, `sixenseSetActiveBase`, `sixenseGetAllNewestData` and `sixenseExit` are foreign hardware I/O. Their results are parameters; their commands are recorded in `sdkCalls`.
- The SDK header `sixense/sixense.h` is not part of this model. The raw sample keeps only the fields the binding reads. The sequence number is an `int` (the binding casts it to `int`), and the buffer is a sequence of at least two slots.
- The two busy-wait loops of `Init`: unbounded polling of the hardware with `usleep`. Only their exit conditions are kept, as the preconditions `baseConnected && activeControllers >= 2`.
- `Session.Session.Update`: `sixenseGetNumActiveControllers()` is called again at every loop test in the source. The model reads it once as `numActive`, so it does not capture a count that changes during one poll.
- `sqrt`, `atan2` and IEEE float rounding: they are uninterpreted, and all arithmetic is exact over `real`. The tolerance `1e-7`, the value of pi, `1 - 1e-7` and the bearing therefore carry no float rounding. `long double` elapsed-time arithmetic is exact too.
- NaN and infinities are not modelled, because `real` has no such values. In the source a NaN stick reading passes through `epsilonCrossing` unchanged, since both comparisons are false. It then falls through to quadrant 4 and octant 1. NaN positions pass into the record and the separation without any check.
- `clock()`: the reading is a parameter. `CLOCKS_PER_SEC` is its POSIX value, 1000000. A `clock_t` that wraps around is not modelled.
- V8 plumbing: `HandleScope`, building JavaScript objects, `Number::New`, `ModuleBind`, `NODE_MODULE`. The frame is a Dafny datatype. Host exceptions are `HostError` values, without their message text.
- `Geometry.BitAt` requires a bit number in 0..10. A larger one would read past the table, which the C++ leaves undefined; the binding only passes 0..8.
- `Session.Session.Exit`: when uninitialised, the C++ returns its uninitialised `res` variable. That value is undefined, and the model returns `None`.
- The sequence of calls `init`/`exit`/`update` from JavaScript is not modelled beyond the sequences in `Scenarios`. Concurrency is not modelled; the binding is single-threaded.
