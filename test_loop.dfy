/**
 * The interactive test loop of `main`: load `test.bin`, build it, bind the
 * search kernel's arguments, run one validation-scale dispatch, read the
 * output back and print it; repeat until the character read is 'q'.
 * Every `continue` of the `do { ... } while (getchar() != 'q')` loop ends the
 * iteration and goes to the quit check.
 */
module TestLoop {
  import opened Numerics
  import opened DeviceTrace
  import opened Sizing

  const SEARCH_KERNEL: string := "keccak_search"
  /** Total and per-group work size of the test dispatch. */
  const TEST_GLOBAL_SIZE: nat := 128
  const TEST_LOCAL_SIZE: nat := 64
  /** `128 * sizeof(uint)` bytes of output are read back. */
  const OUTPUT_BYTES: nat := 128 * 4
  const SEARCH_TARGET: u64 := 0x80000000090000
  const START_NONCE: u64 := 0x133700001338000
  const ISOLATE: u32 := 666
  const QUIT: char := 'q'

  /** `test.bin` as seen by the loader: the size `ftell` reports and the bytes `fread` can deliver. */
  datatype FileImage = FileImage(length: nat, data: seq<byte>)

  /**
   * The argument-binding `try` block: either every step succeeds, or step
   * `step` throws, where step 0 is `cl::Kernel(asmProgram, "keccak_search")`
   * and step k + 1 is `setArg(k, ...)`.
   */
  datatype BindOutcome = BindOk | BindFailsAt(step: nat)

  /** What the file system and the device do in one iteration. */
  datatype Attempt = Attempt(
    file: Option<FileImage>,   // None: fopen returned NULL
    createOk: bool,            // cl::Program accepts the binary (no try guards it)
    buildOk: bool,             // program.build on the binary succeeds
    bind: BindOutcome,
    dispatchOk: bool,          // enqueueNDRangeKernel and finish succeed
    readbackOk: bool)          // enqueueReadBuffer succeeds

  /** The ghost state of the heap buffer `kernel_data`. */
  datatype HeapState = Unallocated | Allocated | Released | Misused

  /** Number of bytes `fread(kernel_data, 1, kernel_size, fp)` returns. */
  function BytesRead(f: FileImage): (n: nat)
    ensures n <= f.length && n <= |f.data|
    ensures n == f.length <==> |f.data| >= f.length
  {
    Min(|f.data|, f.length)
  }

  predicate CompleteRead(a: Attempt) {
    a.file.Some? && BytesRead(a.file.value) == a.file.value.length
  }

  /**
   * Creating the program object from the binary sits outside every `try`:
   * when it throws, the exception leaves `main` and the process ends.
   */
  predicate IterationAborts(a: Attempt) {
    CompleteRead(a) && !a.createOk
  }

  /** All nine steps of the binding block, in source order. */
  function BindSteps(dagSize128: u32): (steps: seq<Event>)
    requires dagSize128 > 0
  {
    [ CreateKernel(SEARCH_KERNEL),
      SetArg(0, OutputBuffer),
      SetArg(1, HeaderBuffer),
      SetArg(2, DagBuffer),
      SetArg(3, ULong(START_NONCE)),
      SetArg(4, ULong(SEARCH_TARGET)),
      SetArg(5, UInt(ISOLATE)),
      SetArg(6, UInt(dagSize128)),
      SetArg(7, UInt(Factor(dagSize128))) ]
  }

  /** The steps of the binding block that take effect: those before the one that throws. */
  function BindEvents(bind: BindOutcome, dagSize128: u32): (bound: seq<Event>)
    requires dagSize128 > 0
  {
    match bind
    case BindOk => BindSteps(dagSize128)
    case BindFailsAt(s) => BindSteps(dagSize128)[..Min(s, 9)]
  }

  /** The dispatch, read-back and report that follow binding, whatever binding did. */
  function RunEvents(a: Attempt): (t: seq<Event>) {
    [Enqueue(TEST_GLOBAL_SIZE, TEST_LOCAL_SIZE)] +
    if !a.dispatchOk then []
    else [Finish, ReadBack(OUTPUT_BYTES)] + if a.readbackOk then [Report] else []
  }

  /** The events of one iteration of the loop body. */
  function IterationTrace(a: Attempt, dagSize128: u32): (t: seq<Event>)
    requires dagSize128 > 0
  {
    match a.file
    case None => []
    case Some(f) =>
      if BytesRead(f) != f.length then [Calloc(f.length), Free]
      else if !a.createOk then [Calloc(f.length)]
      else
        var loaded := [Calloc(f.length), BuildBinary(f.data[..f.length])];
        if !a.buildOk then loaded + [Free]
        else loaded + [Free] + BindEvents(a.bind, dagSize128) + RunEvents(a)
  }

  predicate Throws(bind: BindOutcome, step: nat) {
    bind == BindFailsAt(step)
  }

  /** The binding `try` block: a throw leaves the block, having bound the arguments before it. */
  method BindSearchArgs(bind: BindOutcome, dagSize128: u32) returns (bound: seq<Event>)
    requires dagSize128 > 0
    ensures bound == BindEvents(bind, dagSize128)
  {
    ghost var steps := BindSteps(dagSize128);
    bound := [];
    label binding: {
      if Throws(bind, 0) { break binding; }
      bound := bound + [CreateKernel(SEARCH_KERNEL)];
      assert bound == steps[..1];
      if Throws(bind, 1) { break binding; }
      bound := bound + [SetArg(0, OutputBuffer)];
      assert bound == steps[..2];
      if Throws(bind, 2) { break binding; }
      bound := bound + [SetArg(1, HeaderBuffer)];
      assert bound == steps[..3];
      if Throws(bind, 3) { break binding; }
      bound := bound + [SetArg(2, DagBuffer)];
      assert bound == steps[..4];
      var factor := Factor(dagSize128);
      if Throws(bind, 4) { break binding; }
      bound := bound + [SetArg(3, ULong(START_NONCE))];
      assert bound == steps[..5];
      if Throws(bind, 5) { break binding; }
      bound := bound + [SetArg(4, ULong(SEARCH_TARGET))];
      assert bound == steps[..6];
      if Throws(bind, 6) { break binding; }
      bound := bound + [SetArg(5, UInt(ISOLATE))];
      assert bound == steps[..7];
      if Throws(bind, 7) { break binding; }
      bound := bound + [SetArg(6, UInt(dagSize128))];
      assert bound == steps[..8];
      if Throws(bind, 8) { break binding; }
      bound := bound + [SetArg(7, UInt(factor))];
      assert bound == steps[..9];
    }
    assert bound == steps[..|bound|];
  }

  /**
   * One iteration of the loop body. Each `continue` is a `return`; `crashed`
   * says the program object could not be created and the exception ends the
   * process. The ghost outputs follow `kernel_data` and record whether a
   * build was attempted.
   */
  method RunIteration(a: Attempt, dagSize128: u32)
    returns (trace: seq<Event>, crashed: bool, ghost kernelData: HeapState, ghost buildAttempted: bool)
    requires dagSize128 > 0
    ensures trace == IterationTrace(a, dagSize128)
    ensures crashed <==> IterationAborts(a)
    ensures kernelData == if a.file.None? then Unallocated else if crashed then Allocated else Released
    ensures buildAttempted <==> CompleteRead(a) && a.createOk
  {
    trace := [];
    crashed := false;
    kernelData := Unallocated;
    buildAttempted := false;

    // Kernel load scope
    if a.file.None? {
      return;  // "Couldn't load binary kernel"
    }
    var f := a.file.value;
    var kernelSize := f.length;
    trace := trace + [Calloc(kernelSize)];
    kernelData := Allocated;
    var bytes := Min(|f.data|, kernelSize);
    if bytes != kernelSize {
      assert kernelData == Allocated;
      trace := trace + [Free];
      kernelData := Released;
      return;  // "Couldn't read entire file"
    }

    var binData := f.data[..kernelSize];
    if !a.createOk {
      crashed := true;
      return;  // the cl::Error escapes main with kernel_data still allocated
    }
    trace := trace + [BuildBinary(binData)];
    buildAttempted := true;
    if !a.buildOk {
      assert kernelData == Allocated;
      trace := trace + [Free];
      kernelData := Released;
      return;  // build log printed
    }
    assert kernelData == Allocated;
    trace := trace + [Free];
    kernelData := Released;

    var search := RunSearch(a, dagSize128);
    trace := trace + search;
  }

  /**
   * The rest of the body once the binary has built: bind the arguments (a
   * throw is only reported), then dispatch, wait, read back and print.
   */
  method RunSearch(a: Attempt, dagSize128: u32) returns (events: seq<Event>)
    requires dagSize128 > 0
    ensures events == BindEvents(a.bind, dagSize128) + RunEvents(a)
  {
    events := BindSearchArgs(a.bind, dagSize128);

    // The dispatch runs even when binding threw.
    events := events + [Enqueue(TEST_GLOBAL_SIZE, TEST_LOCAL_SIZE)];
    if !a.dispatchOk {
      return;
    }
    events := events + [Finish];
    events := events + [ReadBack(OUTPUT_BYTES)];
    if !a.readbackOk {
      return;
    }
    events := events + [Report];
  }

  /** The traces of the iterations that meet `attempts`, in order. */
  function Traces(attempts: seq<Attempt>, dagSize128: u32): (log: seq<seq<Event>>)
    requires dagSize128 > 0
    ensures |log| == |attempts|
    ensures forall j :: 0 <= j < |attempts| ==> log[j] == IterationTrace(attempts[j], dagSize128)
  {
    if attempts == [] then []
    else Traces(attempts[..|attempts| - 1], dagSize128) + [IterationTrace(attempts[|attempts| - 1], dagSize128)]
  }

  /** How the test loop ends: 'q' was read, the input ran out, or an iteration ended the process. */
  datatype LoopEnd = Quit | InputExhausted | Crashed

  /**
   * The iteration the loop stops at, looking from iteration `j` on: the
   * first one that crashes, or after which the character read is 'q', or
   * after which the input has run out.
   */
  function StopAt(attempts: seq<Attempt>, input: seq<char>, j: nat): (k: nat)
    requires j <= |input| < |attempts|
    ensures j <= k <= |input|
    ensures forall i :: j <= i < k ==> !IterationAborts(attempts[i]) && input[i] != QUIT
    ensures k == |input| || IterationAborts(attempts[k]) || input[k] == QUIT
    decreases |input| - j
  {
    if IterationAborts(attempts[j]) || j == |input| || input[j] == QUIT then j
    else StopAt(attempts, input, j + 1)
  }

  /**
   * How the loop ends. It crashes exactly when some iteration aborts before
   * a 'q' has been read; otherwise it quits exactly when the input holds a 'q'.
   */
  function LoopEndOf(attempts: seq<Attempt>, input: seq<char>): (e: LoopEnd)
    requires |input| < |attempts|
    ensures e == Crashed <==>
      exists j :: 0 <= j <= |input| && IterationAborts(attempts[j]) && QUIT !in input[..j]
    ensures e != Crashed ==> (e == Quit <==> QUIT in input)
  {
    var k := StopAt(attempts, input, 0);
    if IterationAborts(attempts[k]) then
      assert QUIT !in input[..k];
      Crashed
    else if k == |input| then
      assert input[..k] == input;
      InputExhausted
    else
      assert forall j :: 0 <= j <= |input| && IterationAborts(attempts[j]) ==> input[k] in input[..j];
      Quit
  }

  /**
   * The `do-while` loop over the characters `getchar` returns. Iteration `j`
   * meets `attempts[j]`. The loop ends when the character read is 'q'; when
   * the input runs out first, `getchar` returns EOF, which is not 'q', and
   * the model stops with `InputExhausted`; an iteration whose program object
   * cannot be created ends the process.
   */
  method RunTestLoop(attempts: seq<Attempt>, input: seq<char>, dagSize128: u32)
    returns (log: seq<seq<Event>>, end: LoopEnd)
    requires dagSize128 > 0
    requires |attempts| > |input|
    ensures log == Traces(attempts[..StopAt(attempts, input, 0) + 1], dagSize128)
    ensures end == LoopEndOf(attempts, input)
  {
    log := [];
    var consumed := 0;
    while true
      invariant consumed <= |input|
      invariant StopAt(attempts, input, consumed) == StopAt(attempts, input, 0)
      invariant log == Traces(attempts[..consumed], dagSize128)
      decreases |input| - consumed
    {
      var trace, crashed, _, _ := RunIteration(attempts[consumed], dagSize128);
      assert attempts[..consumed + 1][..consumed] == attempts[..consumed];
      log := log + [trace];
      if crashed {
        assert StopAt(attempts, input, consumed) == consumed;
        end := Crashed;
        return;
      }
      if consumed == |input| {
        assert StopAt(attempts, input, consumed) == consumed;
        end := InputExhausted;  // getchar() == EOF
        return;
      }
      var c := input[consumed];
      if c == QUIT {
        assert StopAt(attempts, input, consumed) == consumed;
        end := Quit;
        return;
      }
      assert StopAt(attempts, input, consumed) == StopAt(attempts, input, consumed + 1);
      consumed := consumed + 1;
    }
  }

  // ---------------------------------------------------------------------------
  // Properties of one iteration.

  /** The effect of one event on `kernel_data`: a second allocation or a bad free is a misuse. */
  function HeapStep(e: Event, h: HeapState): (after: HeapState) {
    match e
    case Calloc(_) => if h == Allocated || h == Misused then Misused else Allocated
    case Free => if h == Allocated then Released else Misused
    case _ => h
  }

  function HeapAfter(t: seq<Event>, h: HeapState): (after: HeapState) {
    if t == [] then h else HeapAfter(t[1..], HeapStep(t[0], h))
  }

  lemma {:induction false} HeapAfterAppend(a: seq<Event>, b: seq<Event>, h: HeapState)
    ensures HeapAfter(a + b, h) == HeapAfter(b, HeapAfter(a, h))
  {
    if a != [] {
      assert (a + b)[1..] == a[1..] + b;
      HeapAfterAppend(a[1..], b, HeapStep(a[0], h));
    } else {
      assert a + b == b;
    }
  }

  lemma {:induction false} HeapAfterDeviceOnly(t: seq<Event>, h: HeapState)
    requires forall k :: 0 <= k < |t| ==> !t[k].Calloc? && !t[k].Free?
    ensures HeapAfter(t, h) == h
  {
    if t != [] {
      HeapAfterDeviceOnly(t[1..], h);
    }
  }

  /** Binding, dispatch and read-back touch only the device, never `kernel_data`. */
  lemma BindAndRunAreDeviceOnly(a: Attempt, dagSize128: u32, k: nat)
    requires dagSize128 > 0
    requires k < |BindEvents(a.bind, dagSize128) + RunEvents(a)|
    ensures !(BindEvents(a.bind, dagSize128) + RunEvents(a))[k].Calloc?
    ensures !(BindEvents(a.bind, dagSize128) + RunEvents(a))[k].Free?
  {
    var b := BindEvents(a.bind, dagSize128);
    var steps := BindSteps(dagSize128);
    if k < |b| {
      assert b[k] == steps[k];
    }
  }

  /**
   * Every path through an iteration that allocates `kernel_data` and goes on
   * to the next iteration frees it exactly once, and a missing file leaves it
   * alone; so the buffer is never freed twice or carried into the next
   * iteration. Only the iteration that ends the process, because the program
   * object cannot be created, leaves it allocated.
   */
  lemma KernelDataReleased(a: Attempt, dagSize128: u32, h: HeapState)
    requires dagSize128 > 0
    requires h == Unallocated || h == Released
    ensures HeapAfter(IterationTrace(a, dagSize128), h) ==
      if a.file.None? then h else if IterationAborts(a) then Allocated else Released
  {
    var t := IterationTrace(a, dagSize128);
    assert HeapAfter([Free], Allocated) == HeapAfter([], Released) == Released;
    if a.file.Some? && !CompleteRead(a) {
      var f := a.file.value;
      assert t == [Calloc(f.length), Free];
      assert t[1..] == [Free];
    }
    if IterationAborts(a) {
      assert t[1..] == [];
    }
    if CompleteRead(a) && a.createOk {
      var f := a.file.value;
      var loaded := [Calloc(f.length), BuildBinary(f.data[..f.length])];
      assert loaded[1..][1..] == [];
      assert HeapAfter(loaded[1..], Allocated) == HeapAfter(loaded[1..][1..], Allocated);
      assert HeapAfter(loaded, h) == Allocated;
      if a.buildOk {
        var rest := BindEvents(a.bind, dagSize128) + RunEvents(a);
        assert t == (loaded + [Free]) + rest;
        HeapAfterAppend(loaded, [Free], h);
        HeapAfterAppend(loaded + [Free], rest, h);
        forall k | 0 <= k < |rest|
          ensures !rest[k].Calloc? && !rest[k].Free?
        {
          BindAndRunAreDeviceOnly(a, dagSize128, k);
        }
        HeapAfterDeviceOnly(rest, Released);
      } else {
        HeapAfterAppend(loaded, [Free], h);
      }
    }
  }

  /**
   * A missing file or a short read never reaches the program build: the
   * iteration ends at once, having freed whatever it allocated.
   */
  lemma IncompleteReadSkipsBuild(a: Attempt, dagSize128: u32)
    requires dagSize128 > 0
    requires !CompleteRead(a)
    ensures IterationTrace(a, dagSize128) ==
      if a.file.None? then [] else [Calloc(a.file.value.length), Free]
    ensures forall e :: e in IterationTrace(a, dagSize128) ==> !e.BuildBinary? && !e.Enqueue?
  {
  }

  /**
   * The only blob that is built is the whole file, byte for byte: it comes
   * right after the allocation and is followed at once by the free.
   */
  lemma BuildSeesWholeFile(a: Attempt, dagSize128: u32, k: nat)
    requires dagSize128 > 0
    requires k < |IterationTrace(a, dagSize128)| && IterationTrace(a, dagSize128)[k].BuildBinary?
    ensures CompleteRead(a) && a.createOk && k == 1
    ensures IterationTrace(a, dagSize128)[k].blob == a.file.value.data[..a.file.value.length]
    ensures |IterationTrace(a, dagSize128)[k].blob| == a.file.value.length
    ensures IterationTrace(a, dagSize128)[2] == Free
  {
    var t := IterationTrace(a, dagSize128);
    var f := a.file.value;
    if CompleteRead(a) && a.createOk && a.buildOk {
      var loaded := [Calloc(f.length), BuildBinary(f.data[..f.length])];
      var rest := BindEvents(a.bind, dagSize128) + RunEvents(a);
      assert t == loaded + [Free] + rest;
    }
  }

  /**
   * A throw while binding arguments does not skip the dispatch: once the
   * binary has built, the test kernel is enqueued whatever binding did.
   */
  lemma BindFailureStillDispatches(a: Attempt, dagSize128: u32)
    requires dagSize128 > 0
    requires CompleteRead(a) && a.createOk && a.buildOk
    ensures Enqueue(TEST_GLOBAL_SIZE, TEST_LOCAL_SIZE) in IterationTrace(a, dagSize128)
  {
    var f := a.file.value;
    var t := IterationTrace(a, dagSize128);
    var prefix := [Calloc(f.length), BuildBinary(f.data[..f.length])] + [Free] + BindEvents(a.bind, dagSize128);
    assert t == prefix + RunEvents(a);
    assert t[|prefix|] == Enqueue(TEST_GLOBAL_SIZE, TEST_LOCAL_SIZE);
  }

  /**
   * The output grid is printed exactly when the file was read whole, the
   * program creation, the build, the dispatch and the read-back succeeded;
   * the outcome of binding plays no part.
   */
  lemma ReportIff(a: Attempt, dagSize128: u32)
    requires dagSize128 > 0
    ensures Report in IterationTrace(a, dagSize128) <==>
      CompleteRead(a) && a.createOk && a.buildOk && a.dispatchOk && a.readbackOk
    ensures ReadBack(OUTPUT_BYTES) in IterationTrace(a, dagSize128) <==>
      CompleteRead(a) && a.createOk && a.buildOk && a.dispatchOk
  {
    if CompleteRead(a) && a.createOk && a.buildOk {
      var f := a.file.value;
      var prefix := [Calloc(f.length), BuildBinary(f.data[..f.length])] + [Free] + BindEvents(a.bind, dagSize128);
      assert IterationTrace(a, dagSize128) == prefix + RunEvents(a);
      assert Report !in prefix && ReadBack(OUTPUT_BYTES) !in prefix;
    }
  }
}
