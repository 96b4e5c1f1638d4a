/**
 * `main` as a whole: device selection, build-constant injection, the
 * setup-fatal allocations and build, DAG generation and the test loop.
 */
module Tester {
  import opened Numerics
  import opened DeviceTrace
  import opened DeviceSelection
  import opened KernelSource
  import opened Sizing
  import opened DagDispatch
  import opened TestLoop

  /** What the platform, the ethash library and the device decide during one run. */
  datatype Environment = Environment(
    platforms: Enumeration<Platform>,
    template: string,        // the CLMiner_kernel source text
    dagSize: u64,            // ethash_get_datasize(block_number)
    lightBytes: u64,         // light->data().size()
    lightAllocOk: bool,      // the light-cache cl::Buffer is created
    dagAllocOk: bool,        // the DAG cl::Buffer is created
    dagBuildOk: bool,        // program.build of the injected source succeeds
    dagFault: Option<nat>,   // the DAG batch whose dispatch throws, if any
    attempts: seq<Attempt>)  // what each test-loop iteration meets

  /** How the run ends: an exit code, an uncaught exception, or still looping when the input ran out. */
  datatype Status = Exited(code: int) | Aborted | AwaitingInput

  /** `deviceId`, and the platform index `main` passes to `getDevices`. */
  const DEVICE_ID: u32 := 0
  const PLATFORM_ID: u32 := 0

  predicate Selects(env: Environment)
    requires CountsFit(env.platforms)
  {
    Startup(env.platforms, PLATFORM_ID, DEVICE_ID).Selected?
  }

  predicate Allocates(env: Environment)
    requires CountsFit(env.platforms)
  {
    Selects(env) && env.lightAllocOk && env.dagAllocOk
  }

  predicate Generates(env: Environment)
    requires CountsFit(env.platforms)
  {
    Allocates(env) && env.dagBuildOk
  }

  method RunTester(env: Environment, input: seq<char>)
    returns (status: Status, compiled: Option<string>, dag: seq<Event>, tests: seq<seq<Event>>)
    requires CountsFit(env.platforms)
    requires DagSize128(env.dagSize) > 0
    requires |env.attempts| > |input|
    ensures status == Exited(SETUP_FAILURE) <==>
      Startup(env.platforms, PLATFORM_ID, DEVICE_ID).ExitCode? || (Selects(env) && !Generates(env))
    ensures status == Aborted <==>
      Startup(env.platforms, PLATFORM_ID, DEVICE_ID).Terminated? ||
      (Generates(env) && Aborts(WorkUnits(env.dagSize), env.dagFault)) ||
      (Generates(env) && !Aborts(WorkUnits(env.dagSize), env.dagFault) &&
       LoopEndOf(env.attempts, input) == Crashed)
    ensures status == Exited(0) <==>
      Generates(env) && !Aborts(WorkUnits(env.dagSize), env.dagFault) &&
      LoopEndOf(env.attempts, input) == Quit
    ensures compiled == if Allocates(env)
      then Some(Prepended(env.template, BuildConstants(DagSize128(env.dagSize), LightSize64(env.lightBytes))))
      else None
    ensures dag == if Generates(env) then DagTrace(WorkUnits(env.dagSize), env.dagFault) else []
    ensures tests != [] <==> Generates(env) && !Aborts(WorkUnits(env.dagSize), env.dagFault)
    ensures status == AwaitingInput <==>
      Generates(env) && !Aborts(WorkUnits(env.dagSize), env.dagFault) &&
      LoopEndOf(env.attempts, input) == InputExhausted
    ensures status.Exited? ==> status.code == SETUP_FAILURE || status.code == 0
    ensures tests == if Generates(env) && !Aborts(WorkUnits(env.dagSize), env.dagFault)
      then Traces(env.attempts[..StopAt(env.attempts, input, 0) + 1], DagSize128(env.dagSize))
      else []
    ensures |tests| <= |input| + 1
    ensures forall j :: 0 <= j < |tests| ==> tests[j] == IterationTrace(env.attempts[j], DagSize128(env.dagSize))
  {
    compiled, dag, tests := None, [], [];
    var selection := Startup(env.platforms, PLATFORM_ID, DEVICE_ID);
    if selection.ExitCode? {
      return Exited(selection.code), compiled, dag, tests;
    }
    if selection.Terminated? {
      return Aborted, compiled, dag, tests;
    }

    var dagSize128 := DagSize128(env.dagSize);
    var lightSize64 := LightSize64(env.lightBytes);
    var code := new KernelCode(env.template);
    InjectBuildConstants(code, dagSize128, lightSize64);

    if !env.lightAllocOk || !env.dagAllocOk {
      return Exited(SETUP_FAILURE), compiled, dag, tests;
    }
    compiled := Some(code.text);
    if !env.dagBuildOk {
      return Exited(SETUP_FAILURE), compiled, dag, tests;
    }

    var completed;
    dag, completed := GenerateDag(WorkUnits(env.dagSize), env.dagFault);
    if !completed {
      return Aborted, compiled, dag, tests;
    }

    var end;
    tests, end := RunTestLoop(env.attempts, input, dagSize128);
    status := match end
      case Quit => Exited(0)
      case InputExhausted => AwaitingInput
      case Crashed => Aborted;
  }
}
