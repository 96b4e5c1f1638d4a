/** The observable effects of the program on the compute device and the host heap, as events. */
module DeviceTrace {
  import opened Numerics

  /** A kernel argument: one of the persistent buffers or a scalar. */
  datatype Arg =
    | LightBuffer
    | DagBuffer
    | HeaderBuffer
    | OutputBuffer
    | UInt(u: u32)
    | ULong(l: u64)

  datatype Event =
    | SetArg(slot: nat, arg: Arg)          // cl::Kernel::setArg
    | Enqueue(global: nat, local: nat)     // CommandQueue::enqueueNDRangeKernel
    | Finish                               // CommandQueue::finish
    | Calloc(size: nat)                    // kernel_data = calloc(kernel_size, 1)
    | Free                                 // free(kernel_data)
    | BuildBinary(blob: seq<byte>)         // cl::Program from binaries, then build
    | CreateKernel(name: string)           // cl::Kernel(program, name)
    | ReadBack(bytes: nat)                 // blocking enqueueReadBuffer of the output buffer
    | Report                               // the grid of output words is printed
}
