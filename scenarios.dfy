/**
 Sequences of host calls on a fresh session and what the binding does with
 them, derived from the operations' contracts alone.
 */
module Scenarios {
  import opened Normalizer
  import opened Aggregator
  import opened Session

  /** An update before any init raises, still records the clock reading, and leaves the session uninitialised. */
  method PollBeforeInit(clock: int, newest: seq<RawController>, numActive: nat, m: Numerics)
    returns (raised: Option<HostError>, initialisedAfter: bool, previousClock: int, frame: Frame)
    requires 2 <= |newest| && numActive <= |newest|
    ensures raised == Some(UpdateNotInitialised) && !initialisedAfter
    ensures previousClock == clock
    ensures frame.elapsedTime == ElapsedMs(clock, 0)
    ensures |frame.controllers| == numActive
  {
    var s := new Session();
    raised, frame := s.Update(clock, newest, numActive, m);
    initialisedAfter, previousClock := s.initialised, s.thenTicks;
  }

  /** The strict update before any init returns the error and no frame, and the session stays uninitialised. */
  method StrictPollBeforeInit(clock: int, newest: seq<RawController>, numActive: nat, m: Numerics)
    returns (result: Poll, initialisedAfter: bool, calls: seq<SdkCall>)
    requires 2 <= |newest| && numActive <= |newest|
    ensures result == NotInitialised && !initialisedAfter && calls == []
  {
    var s := new Session();
    result := s.UpdateStrict(clock, newest, numActive, m);
    initialisedAfter, calls := s.initialised, s.sdkCalls;
  }

  /** Exit without init raises and sends the SDK nothing. */
  method ExitBeforeInit(exitCode: int) returns (raised: Option<HostError>, result: Option<int>, calls: seq<SdkCall>)
    ensures raised == Some(ExitNotInitialised) && result == None && calls == []
  {
    var s := new Session();
    raised, result := s.Exit(exitCode);
    calls := s.sdkCalls;
  }

  /**
   Since exit never clears the flag, a second exit after init, exit is not an
   error: the SDK is shut down twice and the session still counts as initialised.
   */
  method ExitTwice(initCode: int, exitCode: int)
    returns (firstExit: Option<HostError>, secondExit: Option<HostError>, initialisedAfter: bool, calls: seq<SdkCall>)
    ensures firstExit == None && secondExit == None && initialisedAfter
    ensures calls == [SdkInit, SdkSetActiveBase(0), SdkExit, SdkExit]
  {
    var s := new Session();
    var raised, code := s.Init(initCode, true, 2);
    var result;
    firstExit, result := s.Exit(exitCode);
    secondExit, result := s.Exit(exitCode);
    initialisedAfter, calls := s.initialised, s.sdkCalls;
  }

  /** Init, exit, init: both inits succeed alike and leave the session initialised. */
  method InitExitInit(exitCode: int, activeControllers: int)
    returns (first: Option<HostError>, second: Option<HostError>, initialisedAfter: bool, calls: seq<SdkCall>)
    requires activeControllers >= 2
    ensures first == None && second == None && initialisedAfter
    ensures calls == [SdkInit, SdkSetActiveBase(0), SdkExit, SdkInit, SdkSetActiveBase(0)]
  {
    var s := new Session();
    var code, exitRaised, exitResult;
    first, code := s.Init(0, true, activeControllers);
    exitRaised, exitResult := s.Exit(exitCode);
    second, code := s.Init(0, true, activeControllers);
    initialisedAfter, calls := s.initialised, s.sdkCalls;
  }

  /** A failed SDK init still ends with the flag set, so a following update raises nothing. */
  method UpdateAfterFailedInit(initCode: int, clock: int, newest: seq<RawController>, numActive: nat, m: Numerics)
    returns (initRaised: Option<HostError>, updateRaised: Option<HostError>)
    requires initCode > 0
    requires 2 <= |newest| && numActive <= |newest|
    ensures initRaised == Some(InitFailed) && updateRaised == None
  {
    var s := new Session();
    var code, frame;
    initRaised, code := s.Init(initCode, true, 2);
    updateRaised, frame := s.Update(clock, newest, numActive, m);
  }
}
