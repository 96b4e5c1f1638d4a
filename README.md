# ethtester: a verified model of the kernel test harness

`ethtester/main.cpp` is a command-line harness for GPU proof-of-work kernels. It
selects an OpenCL device. It injects build constants into the DAG kernel
source and generates the ethash DAG on the device in fixed-size batches. Then
it runs a repeat-until-'q' loop. Each pass loads a compiled binary kernel from
`test.bin`, builds it, binds the search arguments, runs one small dispatch,
reads the output back and prints it.

The sequential logic of that file is modelled here. OpenCL, the ethash library,
the file system and the console are reduced to outcomes that the model takes
as inputs. The modules are:

- `Numerics`: the 32- and 64-bit unsigned types, wrap-around conversions, `Option`.
- `Decimal`: `%u` formatting (`Digits`) and its inverse (`Value`).
- `KernelSource`: `addDefinition` as the class `KernelCode`, whose `text` is
  the `std::string` changed in place. `Prepended` specifies a sequence of
  calls, and a parser (`ParseDefinitions`) reads the lines back.
- `Sizing`: `dagSize128`, `lightSize64`, the node count `work`, and `factor`.
- `DeviceSelection`: the index clamp and the startup guards that return -1.
- `DeviceTrace`: the events (argument bindings, dispatches, `finish`,
  `calloc`/`free` of `kernel_data`, builds, read-backs) that the program issues.
- `DagDispatch`: the batch loop, as a method that produces the event trace.
- `TestLoop`: one iteration of the `do { … } while (getchar() != 'q')` body,
  with every `continue` as an early return, and the loop over an input string.
- `Tester`: `main` end to end.

Five behaviours of the code are modelled as written:

- An error in the DAG batch loop is not caught (lines 236-242), so the process
  ends with an uncaught exception (`Aborted`), not with exit code -1.
- A throw while binding the search kernel's arguments is only reported
  (lines 317-319). The dispatch at line 324 still runs; the cycle is not skipped.
- Definitions are inserted at the front, so the five constants appear in
  reverse call order, not in the order supplied.
- The host dispatches up to G - 1 work items past `work` in the last DAG
  batch. Nothing in the host code prevents this, and the kernel's own bounds
  check is not part of this model.
- The program object for `test.bin` is created at line 281, outside every
  `try`. When the driver rejects the binary (an empty `test.bin` passes the
  size check at line 264 and is then refused), the exception leaves `main`.
  The process ends with `kernel_data` still allocated, and no later iteration
  runs.

## Model

| member | source | states |
|---|---|---|
| `Decimal.Digits` | ethtester/main.cpp:81 | `%u` renders every value as a non-empty string of decimal digits, with a leading '0' only for zero |
| `Decimal.ValueOfDigits` | ethtester/main.cpp:81 | reading the rendered digits back gives the original value (round trip) |
| `Decimal.DigitsOfU32` | ethtester/main.cpp:81 | an `unsigned` value renders in at most ten digits |
| `KernelSource.LineFitsBuffer` | ethtester/main.cpp:80-82 | for a C-string identifier of at most 234 characters, the formatted line and its NUL fit `buf[256]`, and `strlen` returns the whole line |
| `KernelSource.DefinitionLine` | ethtester/main.cpp:81 | the formatted line is `#define `, the identifier, a space, the digits and `u`, ending in a newline: its length is the identifier's plus the digits' plus 11 |
| `KernelSource.CStrLen` | ethtester/main.cpp:82 | `strlen` stops at the first NUL, and the prefix before it holds none |
| `KernelSource.KernelCode.constructor` | ethtester/main.cpp:155 | the kernel code starts as the template text |
| `KernelSource.KernelCode.AddDefinition` | ethtester/main.cpp:78-83 | the new text is exactly `#define <id> <digits>u\n` followed by the old text |
| `KernelSource.PrependedIsReversedLines` | ethtester/main.cpp:78-83 | after any sequence of calls, the text is the lines in reverse call order followed by the template |
| `KernelSource.TemplateIsSuffix` | ethtester/main.cpp:82 | the template survives unchanged as an exact suffix, after exactly the prepended lines |
| `KernelSource.InjectBuildConstants` | ethtester/main.cpp:155-160 | the five calls of `main` turn the source into `Prepended(template, [GROUP_SIZE, DAG_SIZE, LIGHT_SIZE, ACCESSES, MAX_OUTPUTS])` |
| `KernelSource.ParseDefinitionLine` | ethtester/main.cpp:81 | a formatted line parses back to its identifier and value, and leaves the text after it untouched |
| `KernelSource.ParseLines` | ethtester/main.cpp:81-82 | concatenated lines parse back to the same definitions in the same order |
| `KernelSource.BuildConstantsOrder` | ethtester/main.cpp:155-160 | the injected source reads MAX_OUTPUTS 1, ACCESSES 64, LIGHT_SIZE, DAG_SIZE, GROUP_SIZE 64 in that order, then the untouched template |
| `Sizing.DagSize128` | ethtester/main.cpp:150 | `dagSize128` never exceeds `dagSize / 128`, and is its exact floor whenever the quotient fits 32 bits |
| `Sizing.LightSize64` | ethtester/main.cpp:151 | `lightSize64` never exceeds the light-cache node count, and equals it whenever it fits 32 bits |
| `Sizing.WorkUnits` | ethtester/main.cpp:227 | `work` never exceeds the DAG node count, and equals it whenever it fits 32 bits |
| `Sizing.WorkIsTwiceDagSize128` | ethtester/main.cpp:149-150 | for a DAG of whole 128-byte mixes below 2^38 bytes, the node count `work` (line 227) is twice `dagSize128` and neither truncation loses anything |
| `Sizing.Factor` | ethtester/main.cpp:308 | `factor` is 0 when `dagSize128` is 1 (2^32 truncated); for larger values it is the positive floor of 2^32 / dagSize128 |
| `DeviceSelection.Clamp` | ethtester/main.cpp:134 | on a list of n > 0 entries the selected index is below n: the requested index when valid, otherwise n - 1 |
| `DeviceSelection.ClampIdempotent` | ethtester/main.cpp:134 | clamping an already clamped index changes nothing |
| `DeviceSelection.UnsignedMinLast` | ethtester/main.cpp:134 | the unsigned `min(k, size - 1)` of line 134 (and of line 61) never exceeds the requested index, and is either in range or the requested index itself |
| `DeviceSelection.UnsignedMinLastIsClamp` | ethtester/main.cpp:61 | on a non-empty list, the unsigned `min(k, size - 1)` equals the clamp |
| `DeviceSelection.UnsignedMinLastOnEmpty` | ethtester/main.cpp:134 | on an empty list `size - 1` wraps, so the expression returns the requested index itself, out of range; this is why the guards are needed |
| `DeviceSelection.Startup` | ethtester/main.cpp:117-134 | exit code -1 exactly when the platform list or the chosen platform's device list is empty. Termination happens exactly when an enumeration rethrows. Otherwise the selection is the clamped platform and device, both in range |
| `DagDispatch.FullRuns` | ethtester/main.cpp:228-230 | `fullRuns` is 0 exactly when `work` is 0, and is at most 2^32 / G, so the increment at line 230 cannot wrap |
| `DagDispatch.Offset` | ethtester/main.cpp:238 | the 32-bit product `i * G` is the exact product for each of the first 2^32 / G = 8192 batch indices |
| `DagDispatch.FullRunsIsCeiling` | ethtester/main.cpp:227-230 | `fullRuns` equals `(work + G - 1) / G`. Its batches reach `work` and overshoot it by less than G, and one batch fewer would not reach `work` |
| `DagDispatch.GenerateDag` | ethtester/main.cpp:232-242 | the loop issues the prologue bindings, then bind-offset, enqueue and finish for each batch. It stops after the enqueue of a failing batch, and reports completion exactly when no batch fails |
| `DagDispatch.BatchesLayout` | ethtester/main.cpp:236-240 | the i-th batch's three commands sit at positions 3i to 3i+2 |
| `DagDispatch.OffsetIsExact` | ethtester/main.cpp:238 | the 32-bit product `i * G` never wraps for any batch of any `uint32_t` work; it is the exact product and below `work` |
| `DagDispatch.ItemIndexFits` | ethtester/main.cpp:225-238 | when `work + G <= 2^32`, offset plus global id of every item of every batch is below 2^32 |
| `DagDispatch.OffsetsOfBatches` | ethtester/main.cpp:238 | n iterations bind n offsets, the i-th being `Offset(i)` |
| `DagDispatch.DispatchedOffsets` | ethtester/main.cpp:236-238 | a completed run binds exactly 0, G, ..., (fullRuns - 1) * G, strictly increasing |
| `DagDispatch.DagTraceIsPrefix` | ethtester/main.cpp:232-242 | a run's commands are the prologue and the batches it starts, in order, missing at most the final `finish` of the batch that fails |
| `DagDispatch.FinishBeforeNextBind` | ethtester/main.cpp:236-240 | in every run, completed or not, each offset binding after the first comes right after a `finish`, and each is followed by an enqueue of G items in groups of 64 |
| `DagDispatch.BatchesCover` | ethtester/main.cpp:227-238 | every node below `work` lies in the range of a dispatched batch |
| `DagDispatch.BatchesDisjoint` | ethtester/main.cpp:236-238 | the batch ranges `[i*G, (i+1)*G)` are pairwise disjoint |
| `TestLoop.BindSearchArgs` | ethtester/main.cpp:298-319 | the binding block creates `keccak_search` and then sets slots 0-7. A throw leaves exactly the steps before it in effect |
| `TestLoop.RunSearch` | ethtester/main.cpp:297-348 | after a successful build, the events are the binding steps that took effect followed by the enqueue, and then `finish`, read-back and report as far as each succeeds |
| `TestLoop.BytesRead` | ethtester/main.cpp:262 | `fread` delivers at most the requested size and at most what the file holds, and the whole size exactly when the file holds that much |
| `TestLoop.RunIteration` | ethtester/main.cpp:249-348 | one pass of the loop body produces `IterationTrace`. It reports a crash exactly when the whole file was read but the program object could not be created (line 281). `kernel_data` is untouched when the file is missing, left allocated on a crash, and freed on every other path that allocated it. A build is attempted exactly when the whole file was read and the program object was created |
| `TestLoop.StopAt` | ethtester/main.cpp:246-350 | the loop stops at the first iteration that crashes, is followed by a 'q', or exhausts the input; every earlier iteration neither crashed nor read 'q' |
| `TestLoop.LoopEndOf` | ethtester/main.cpp:246-350 | the loop crashes exactly when some iteration crashes before a 'q' has been read; otherwise it quits exactly when the input holds a 'q' |
| `TestLoop.RunTestLoop` | ethtester/main.cpp:246-350 | the loop runs the iterations up to and including the one `StopAt` names, and iteration j behaves as `IterationTrace(attempts[j])` (`Traces`). It ends as `LoopEndOf` says: at the first 'q' read, at a crashing iteration, or still running when the input is exhausted |
| `TestLoop.KernelDataReleased` | ethtester/main.cpp:261-295 | every iteration that goes on to the next frees `kernel_data` exactly once when it allocated it: no double free, nothing carried into the next iteration. The iteration whose program object cannot be created ends the process with the buffer still allocated |
| `TestLoop.BindAndRunAreDeviceOnly` | ethtester/main.cpp:298-341 | binding, dispatch and read-back never allocate or free host memory |
| `TestLoop.IncompleteReadSkipsBuild` | ethtester/main.cpp:251-268 | a missing file or a short read ends the iteration at once, before any build or dispatch; a short read frees the buffer it allocated |
| `TestLoop.BuildSeesWholeFile` | ethtester/main.cpp:261-295 | the only blob ever built is the whole file, byte for byte, and only when its program object was created. It is built right after the allocation and freed right after the build |
| `TestLoop.BindFailureStillDispatches` | ethtester/main.cpp:298-325 | once the program object was created and the binary has built, the test kernel is enqueued whether or not binding threw |
| `TestLoop.ReportIff` | ethtester/main.cpp:323-348 | the output is printed exactly when the read, program creation, build, dispatch and read-back succeeded, whatever binding did. The read-back happens exactly when those steps up to the dispatch succeeded |
| `Tester.RunTester` | ethtester/main.cpp:85-353 | exit code -1 exactly on an empty list, a failed light/DAG allocation or a failed DAG-kernel build, and on those paths no dispatch is issued. The source handed to the compiler is the injected template. An uncaught exception arises exactly on an enumeration error, a failed batch, or a test binary whose program object cannot be created before a 'q' is read. Exit code 0 follows exactly when generation completes and the test loop quits, and the run is still waiting for input exactly when the loop exhausts the input; no other exit code occurs. The test log is exactly the traces of the iterations up to the one where the loop stops. The steps listed under Left out as taken to succeed are assumed not to throw |

## Left out

- OpenCL itself is left out: enumeration, context and queue creation, buffer allocation, `program.build`, `setArg`, `enqueueNDRangeKernel`, `finish`, `enqueueReadBuffer`. Each step guarded by a `try`, and the unguarded creation of the test program object, appears as a success/failure outcome in `Environment` or `Attempt`. The other unguarded steps are listed below.
- The ethash library is left out: seed advancement with `sha3`, `EthashAux::light`, `ethash_get_datasize` and `ethash_calculate_dag_item`. It is external hashing code, so the DAG and light-cache sizes are inputs.
- The `test_node` computation and printout (lines 188-191) are left out. They are external hashing plus console output.
- Tester.RunTester: the steps below run outside any `try`, so a throw from any of them would end the process; each is taken to succeed. They are `getInfo` (135-136), context and queue creation (139-140), header, search and output buffer creation (166-168), the buffer writes (200-201), the source program object (207), the DAG kernel object (220) and its prologue `setArg` calls (232-234). The build-log read in the DAG build's `catch` handler (216) is also taken to succeed: a throw there would leave the handler uncaught and end the process instead of returning -1. A throw from the build-log read inside that `try` (212) is caught and counts as a failed build.
- Real file I/O is left out: `fopen`, `fseek`, `ftell`, `fread`. `test.bin` is an optional `FileImage`, holding the length `ftell` reports and the bytes `fread` can deliver. An `ftell` error and a `calloc` failure are not modelled.
- The progress percentage `int(100.0f * i / fullRuns)` is floating point. It is left out with the rest of the console output: `printf`, `cout`, build logs and the hex grid. A printed grid appears only as a `Report` event.
- `setenv` driver tuning is left out.
- The contents of the kernel template are opaque text. This includes the trailing NUL that `sizeof(CLMiner_kernel)` copies.
- TestLoop.RunIteration: the build-log read in the test build's `catch` handler (line 290) is taken to succeed. A throw there would end the process with `kernel_data` still allocated, instead of freeing it and reading the next character, so the program creation at line 281 is the only crash the model has. A throw from the build-log read inside that `try` (286) is caught and counts as a failed build.
- TestLoop.RunIteration: the dispatch outcome `dispatchOk` is independent of the binding outcome, so an iteration whose binding threw at any step may still dispatch and report. In the source a throw at any step leaves the kernel object or one of its arguments unset, so the driver rejects the enqueue and the dispatch fails. That dependence lives in the driver and is not modelled, and `TestLoop.ReportIff`'s "whatever binding did" holds only for the model's independent outcomes.
- A failing DAG batch is modelled as failing in its enqueue. The model does not distinguish a throw from the unguarded `setArg(0, ...)` at line 238, from `enqueueNDRangeKernel` or from `finish`: in each case the trace shows the offset binding and the enqueue, and no `finish`. Likewise a failing test dispatch (`dispatchOk` false, lines 323-332) shows the enqueue and no `finish`, whether the throw came from `enqueueNDRangeKernel` or from `finish`.
- At end of input `getchar` returns EOF, which is not 'q', so the real loop never ends. The model stops there and reports that the loop is still waiting.
- TestLoop.RunIteration, TestLoop.RunSearch, TestLoop.BindSearchArgs, TestLoop.RunTestLoop and Tester.RunTester require `dagSize128 > 0` on every path. The source divides by it only when binding reaches line 308. Real DAG sizes make it about 2^23: at epoch 0, the only epoch `main` uses (line 96), it is 8,388,593.
- Sizing.Factor assumes a 64-bit `unsigned long`. On a target where it is 32 bits, `1UL << 32` is undefined, and that case is not modelled.
- DeviceSelection.Startup requires platform and device counts below 2^32, as OpenCL reports them as `cl_uint`.
