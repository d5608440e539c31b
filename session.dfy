/**
 The session state of the Hydra binding and its three host operations,
 `Init`, `Exit` and `Update`.

 The binding keeps its state in module-level globals; here they are the
 fields of one `Session` object. The SDK is not modelled: what its calls
 return is passed in, and the commands the binding sends it are recorded in
 `sdkCalls`. Raising a host exception does not stop the C++ function, so each
 operation reports the exception it raised next to the state it leaves and
 goes on as the source does; `InitStrict` and `UpdateStrict` are the variants
 that stop at the error.
 */
module Session {
  import opened Normalizer
  import opened Aggregator

  datatype Option<T> = None | Some(value: T)

  /** The host exceptions the binding raises. */
  datatype HostError =
    | InitFailed              // the SDK's init call reported a positive code
    | ExitNotInitialised      // exit before any init
    | UpdateNotInitialised    // update before any init

  /** Commands the binding sends to the SDK (queries are not recorded). */
  datatype SdkCall =
    | SdkInit
    | SdkSetActiveBase(base: int)
    | SdkGetAllNewestData
    | SdkExit

  /** Outcome of the strict update. */
  datatype Poll = Polled(frame: Frame) | NotInitialised

  /** Clock ticks per second of the C library's `clock()` (the POSIX value). */
  const ClocksPerSec: int := 1000000

  /** Milliseconds between two clock readings. */
  function ElapsedMs(now: int, previous: int): real
  {
    ((now - previous) as real) * 1000.0 / (ClocksPerSec as real)
  }

  /**
   The separation loop: fill the three-element delta array axis by axis with
   controller 0's position minus controller 1's, then append the root of the
   sum of the squares.
   */
  method ComputeSeparation(p0: Vec3, p1: Vec3, m: Numerics) returns (separation: seq<real>)
    ensures separation == Separation(p0, p1, m)
  {
    var sep := new real[3];
    for k := 0 to 3
      invariant forall j :: 0 <= j < k ==> sep[j] == p0[j] - p1[j]
    {
      sep[k] := p0[k] - p1[k];
    }
    separation := sep[..] + [m.sqrt(Square(sep[0]) + Square(sep[1]) + Square(sep[2]))];
  }

  class Session {
    /** `hasBeenInitialised`. */
    var initialised: bool
    /** The clock reading of the current poll (`now`). */
    var now: int
    /** The clock reading of the previous poll (`then`). */
    var thenTicks: int
    /** Milliseconds since the previous poll (`elapsed`). */
    var elapsed: real
    /** The SDK's newest-data buffer (`allControllerData`). */
    var allControllerData: seq<RawController>
    /** The slot being processed (`controllerData`). */
    var controllerData: RawController
    /** The shared sequence number (`sequenceNum`). */
    var sequenceNum: int
    /** Every command sent to the SDK, oldest first. */
    var sdkCalls: seq<SdkCall>

    /** The shared sequence number is always the one of the slot processed last. */
    ghost predicate Valid()
      reads this
    {
      sequenceNum == controllerData.sequenceNumber
    }

    /** The binding's globals as the program starts: all zero, not initialised. */
    constructor ()
      ensures Valid()
      ensures !initialised && now == 0 && thenTicks == 0 && elapsed == 0.0
      ensures allControllerData == [] && controllerData == ZeroSample && sequenceNum == 0
      ensures sdkCalls == []
    {
      initialised := false;
      now, thenTicks, elapsed := 0, 0, 0.0;
      allControllerData := [];
      controllerData := ZeroSample;
      sequenceNum := 0;
      sdkCalls := [];
    }

    /**
     `Init`: start the SDK, wait for base station 0 and for two active
     controllers, make base 0 active and set the flag. A positive init code
     raises an exception but does not stop the function, so the flag is set
     and the code returned in every case. The two waits are polling loops on
     the hardware; `baseConnected` and `activeControllers` are what the SDK
     reports when they end.
     */
    method Init(initCode: int, baseConnected: bool, activeControllers: int)
      returns (raised: Option<HostError>, result: int)
      requires baseConnected && activeControllers >= 2
      requires Valid()
      modifies this
      ensures Valid()
      ensures initialised
      ensures raised == (if initCode > 0 then Some(InitFailed) else None)
      ensures result == initCode
      ensures sdkCalls == old(sdkCalls) + [SdkInit, SdkSetActiveBase(0)]
      ensures now == old(now) && thenTicks == old(thenTicks) && elapsed == old(elapsed)
      ensures allControllerData == old(allControllerData) && controllerData == old(controllerData)
      ensures sequenceNum == old(sequenceNum)
    {
      sdkCalls := sdkCalls + [SdkInit];
      raised := None;
      if initCode > 0 {
        raised := Some(InitFailed);
      }
      sdkCalls := sdkCalls + [SdkSetActiveBase(0)];
      initialised := true;
      result := initCode;
    }

    /** `Init` stopping at a failed init code: no wait, no active base, flag unchanged. */
    method InitStrict(initCode: int, baseConnected: bool, activeControllers: int)
      returns (raised: Option<HostError>, result: int)
      requires initCode > 0 || (baseConnected && activeControllers >= 2)
      requires Valid()
      modifies this
      ensures Valid()
      ensures initialised == (initCode <= 0 || old(initialised))
      ensures raised == (if initCode > 0 then Some(InitFailed) else None)
      ensures result == initCode
      ensures sdkCalls == old(sdkCalls) + (if initCode > 0 then [SdkInit] else [SdkInit, SdkSetActiveBase(0)])
      ensures now == old(now) && thenTicks == old(thenTicks) && elapsed == old(elapsed)
      ensures allControllerData == old(allControllerData) && controllerData == old(controllerData)
      ensures sequenceNum == old(sequenceNum)
    {
      if initCode > 0 {
        sdkCalls := sdkCalls + [SdkInit];
        raised, result := Some(InitFailed), initCode;
      } else {
        raised, result := Init(initCode, baseConnected, activeControllers);
      }
    }

    /**
     `Exit`: before any init it raises an exception and leaves the SDK alone;
     the C++ then returns its uninitialised result variable, which has no
     defined value (`None` here). Otherwise it shuts the SDK down and returns
     the SDK's code. The flag is never cleared.
     */
    method Exit(exitCode: int) returns (raised: Option<HostError>, result: Option<int>)
      requires Valid()
      modifies this
      ensures Valid()
      ensures initialised == old(initialised)
      ensures !old(initialised) ==> raised == Some(ExitNotInitialised) && result == None && sdkCalls == old(sdkCalls)
      ensures old(initialised) ==> raised == None && result == Some(exitCode) && sdkCalls == old(sdkCalls) + [SdkExit]
      ensures now == old(now) && thenTicks == old(thenTicks) && elapsed == old(elapsed)
      ensures allControllerData == old(allControllerData) && controllerData == old(controllerData)
      ensures sequenceNum == old(sequenceNum)
    {
      if !initialised {
        raised, result := Some(ExitNotInitialised), None;
      } else {
        sdkCalls := sdkCalls + [SdkExit];
        raised, result := None, Some(exitCode);
      }
    }

    /** The timing step every update starts with: read the clock, compute the elapsed time, remember the reading. */
    method Tick(clock: int)
      modifies this`now, this`elapsed, this`thenTicks
      ensures now == clock && thenTicks == clock
      ensures elapsed == ElapsedMs(clock, old(thenTicks))
    {
      now := clock;
      elapsed := ElapsedMs(now, thenTicks);
      thenTicks := now;
    }

    /**
     The loop over the active slots: copy each slot into `controllerData`,
     let its sequence number overwrite the shared one, and append its record.
     */
    method ProcessSlots(numActive: nat, m: Numerics) returns (controllers: seq<ControllerRecord>)
      requires numActive <= |allControllerData|
      requires Valid()
      modifies this`controllerData, this`sequenceNum
      ensures Valid()
      ensures controllerData == (if numActive == 0 then old(controllerData) else allControllerData[numActive - 1])
      ensures sequenceNum == Overwrite(allControllerData[..numActive], old(sequenceNum))
      ensures sequenceNum == LastSequence(allControllerData[..numActive], old(sequenceNum))
      ensures controllers == NormalizeSlots(allControllerData[..numActive], m)
    {
      controllers := [];
      var i := 0;
      while i < numActive
        invariant 0 <= i <= numActive
        invariant controllers == NormalizeSlots(allControllerData[..i], m)
        invariant controllerData == (if i == 0 then old(controllerData) else allControllerData[i - 1])
        invariant sequenceNum == controllerData.sequenceNumber
        invariant sequenceNum == Overwrite(allControllerData[..i], old(sequenceNum))
      {
        controllerData := allControllerData[i];
        sequenceNum := controllerData.sequenceNumber;
        assert allControllerData[..i + 1][..i] == allControllerData[..i];
        OverwriteIsLast(allControllerData[..i + 1], old(sequenceNum));
        controllers := controllers + [NormalizeController(controllerData, m)];
        i := i + 1;
      }
      OverwriteIsLast(allControllerData[..numActive], old(sequenceNum));
    }

    /**
     The data part of an update: fetch the newest data into the buffer,
     normalise the active slots and compute the separation of slots 0 and 1.
     */
    method FetchAndNormalize(newest: seq<RawController>, numActive: nat, m: Numerics)
      returns (controllers: seq<ControllerRecord>, separation: seq<real>)
      requires 2 <= |newest| && numActive <= |newest|
      requires Valid()
      modifies this`sdkCalls, this`allControllerData, this`controllerData, this`sequenceNum
      ensures Valid()
      ensures allControllerData == newest
      ensures controllerData == (if numActive == 0 then old(controllerData) else newest[numActive - 1])
      ensures sequenceNum == LastSequence(newest[..numActive], old(sequenceNum))
      ensures sdkCalls == old(sdkCalls) + [SdkGetAllNewestData]
      ensures controllers == NormalizeSlots(newest[..numActive], m)
      ensures separation == Separation(newest[0].pos, newest[1].pos, m)
    {
      sdkCalls := sdkCalls + [SdkGetAllNewestData];
      allControllerData := newest;
      controllers := ProcessSlots(numActive, m);
      separation := ComputeSeparation(newest[0].pos, newest[1].pos, m);
    }

    /**
     `Update`: the timing step, then, whether or not the session was
     initialised (an uninitialised session only raises an exception), fetch
     the newest data, normalise the first `numActive` slots in slot order with
     the last one's sequence number winning, and compute the separation from
     slots 0 and 1 whatever the number of active controllers. `newest` is
     what the SDK fills the buffer with; `numActive` is its count of active
     controllers; the buffer has at least two slots.
     */
    method Update(clock: int, newest: seq<RawController>, numActive: nat, m: Numerics)
      returns (raised: Option<HostError>, frame: Frame)
      requires 2 <= |newest| && numActive <= |newest|
      requires Valid()
      modifies this
      ensures Valid()
      ensures now == clock && thenTicks == clock && elapsed == ElapsedMs(clock, old(thenTicks))
      ensures initialised == old(initialised)
      ensures raised == (if old(initialised) then None else Some(UpdateNotInitialised))
      ensures allControllerData == newest
      ensures controllerData == (if numActive == 0 then old(controllerData) else newest[numActive - 1])
      ensures sequenceNum == LastSequence(newest[..numActive], old(sequenceNum))
      ensures sdkCalls == old(sdkCalls) + [SdkGetAllNewestData]
      ensures frame == Frame(sequenceNum, elapsed, NormalizeSlots(newest[..numActive], m), Separation(newest[0].pos, newest[1].pos, m))
    {
      Tick(clock);
      raised := if initialised then None else Some(UpdateNotInitialised);

      var controllers, separation := FetchAndNormalize(newest, numActive, m);
      frame := Frame(sequenceNum, elapsed, controllers, separation);
    }

    /** `Update` stopping at an uninitialised session: only the timing step happens. */
    method UpdateStrict(clock: int, newest: seq<RawController>, numActive: nat, m: Numerics)
      returns (result: Poll)
      requires 2 <= |newest| && numActive <= |newest|
      requires Valid()
      modifies this
      ensures Valid()
      ensures now == clock && thenTicks == clock && elapsed == ElapsedMs(clock, old(thenTicks))
      ensures initialised == old(initialised)
      ensures !old(initialised) ==> result == NotInitialised
      ensures !old(initialised) ==> allControllerData == old(allControllerData) && controllerData == old(controllerData)
      ensures !old(initialised) ==> sequenceNum == old(sequenceNum) && sdkCalls == old(sdkCalls)
      ensures old(initialised) ==> result.Polled? && allControllerData == newest
      ensures old(initialised) ==> controllerData == (if numActive == 0 then old(controllerData) else newest[numActive - 1])
      ensures old(initialised) ==> sequenceNum == LastSequence(newest[..numActive], old(sequenceNum))
      ensures old(initialised) ==> sdkCalls == old(sdkCalls) + [SdkGetAllNewestData]
      ensures old(initialised) ==> result.frame == Frame(sequenceNum, elapsed,
        NormalizeSlots(newest[..numActive], m), Separation(newest[0].pos, newest[1].pos, m))
    {
      if !initialised {
        Tick(clock);
        result := NotInitialised;
      } else {
        var raised, frame := Update(clock, newest, numActive, m);
        result := Polled(frame);
      }
    }
  }
}
