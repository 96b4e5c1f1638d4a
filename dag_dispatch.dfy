/**
 * The DAG batch dispatcher of `main`: `work` nodes are generated by
 * `ceil(work / G)` dispatches of `G = 8192 * 64` work items in groups of
 * 64, each bound to the offset `i * G`, enqueued and finished before the next.
 */
module DagDispatch {
  import opened Numerics
  import opened DeviceTrace

  /** `m_workgroupSize` */
  const GROUP_SIZE: nat := 64
  /** `m_globalWorkSize = 8192 * m_workgroupSize` */
  const GLOBAL_WORK_SIZE: nat := 8192 * 64
  /** `~0u`, bound to the DAG kernel's isolate slot. */
  const NO_ISOLATE: u32 := 0xFFFF_FFFF

  /** `fullRuns = work / G`, plus one when `restWork = work % G` is positive. */
  function FullRuns(work: u32): (n: nat)
    ensures n == 0 <==> work == 0
    ensures n <= TWO_32 / GLOBAL_WORK_SIZE
  {
    work / GLOBAL_WORK_SIZE + (if work % GLOBAL_WORK_SIZE > 0 then 1 else 0)
  }

  /** `fullRuns` is the ceiling of `work / G`: the least number of batches whose items reach `work`. */
  lemma FullRunsIsCeiling(work: u32)
    ensures FullRuns(work) == (work + GLOBAL_WORK_SIZE - 1) / GLOBAL_WORK_SIZE
    ensures work <= FullRuns(work) * GLOBAL_WORK_SIZE < work + GLOBAL_WORK_SIZE
    ensures FullRuns(work) > 0 ==> (FullRuns(work) - 1) * GLOBAL_WORK_SIZE < work
  {
  }

  /** `i * m_globalWorkSize`, computed in 32-bit unsigned arithmetic. */
  function Offset(i: nat): (o: u32)
    ensures i < TWO_32 / GLOBAL_WORK_SIZE ==> o == i * GLOBAL_WORK_SIZE
  {
    Wrap32(i * GLOBAL_WORK_SIZE)
  }

  /** The three kernel arguments bound once before the loop. */
  function Prologue(): (t: seq<Event>) {
    [SetArg(1, LightBuffer), SetArg(2, DagBuffer), SetArg(3, UInt(NO_ISOLATE))]
  }

  /** One iteration of the loop: bind the offset, enqueue, wait. */
  function Batch(i: nat): (t: seq<Event>) {
    [SetArg(0, UInt(Offset(i))), Enqueue(GLOBAL_WORK_SIZE, GROUP_SIZE), Finish]
  }

  /** The first `n` iterations. */
  function Batches(n: nat): (t: seq<Event>) {
    if n == 0 then [] else Batches(n - 1) + Batch(n - 1)
  }

  /** Batch `fault` of a run fails in its enqueue or finish, and the exception ends the process. */
  predicate Aborts(work: u32, fault: Option<nat>) {
    fault.Some? && fault.value < FullRuns(work)
  }

  /** The commands issued for `work` nodes when `fault` names the failing batch, if any. */
  function DagTrace(work: u32, fault: Option<nat>): (t: seq<Event>) {
    if Aborts(work, fault) then
      Prologue() + Batches(fault.value) + Batch(fault.value)[..2]
    else
      Prologue() + Batches(FullRuns(work))
  }

  /**
   * The dispatch loop. `fault` is the batch whose dispatch reports an error
   * (an uncaught `cl::Error`); `completed` is false when the run was cut short.
   */
  method GenerateDag(work: u32, fault: Option<nat>) returns (trace: seq<Event>, completed: bool)
    ensures completed == !Aborts(work, fault)
    ensures trace == DagTrace(work, fault)
  {
    var fullRuns: u32 := work / GLOBAL_WORK_SIZE as u32;
    var restWork: u32 := work % GLOBAL_WORK_SIZE as u32;
    if restWork > 0 {
      fullRuns := fullRuns + 1;
    }
    trace := [SetArg(1, LightBuffer), SetArg(2, DagBuffer), SetArg(3, UInt(NO_ISOLATE))];
    var i: u32 := 0;
    while i < fullRuns
      invariant i <= fullRuns == FullRuns(work)
      invariant trace == Prologue() + Batches(i)
      invariant !(fault.Some? && fault.value < i)
    {
      ghost var before := trace;
      trace := trace + [SetArg(0, UInt(Wrap32(i * GLOBAL_WORK_SIZE))), Enqueue(GLOBAL_WORK_SIZE, GROUP_SIZE)];
      assert trace == before + Batch(i)[..2];
      if fault == Some(i as nat) {
        return trace, false;
      }
      trace := trace + [Finish];
      assert trace == before + Batch(i);
      i := i + 1;
    }
    completed := true;
  }

  // ---------------------------------------------------------------------------
  // Properties of the dispatched commands.

  /** Every batch contributes its three commands, in batch order. */
  lemma {:induction false} BatchesLayout(n: nat, k: nat)
    ensures |Batches(n)| == 3 * n
    ensures k < 3 * n ==> Batches(n)[k] == Batch(k / 3)[k % 3]
  {
    if n > 0 {
      BatchesLayout(n - 1, k);
      if k >= 3 * (n - 1) && k < 3 * n {
        assert Batches(n)[k] == Batch(n - 1)[k - 3 * (n - 1)];
      }
    }
  }

  /** The offset bound in batch `i` of a run never wraps: it is `i * G`, below `work`. */
  lemma OffsetIsExact(work: u32, i: nat)
    requires i < FullRuns(work)
    ensures Offset(i) == i * GLOBAL_WORK_SIZE < work
  {
    FullRunsIsCeiling(work);
  }

  /**
   * When `work + G <= 2^32`, every item of every batch, offset plus global id,
   * is a valid 32-bit node index.
   */
  lemma ItemIndexFits(work: u32, i: nat, j: nat)
    requires work + GLOBAL_WORK_SIZE <= TWO_32
    requires i < FullRuns(work) && j < GLOBAL_WORK_SIZE
    ensures i * GLOBAL_WORK_SIZE + j < TWO_32
  {
    FullRunsIsCeiling(work);
  }

  /** The offsets bound on slot 0, in order. */
  function Offsets(t: seq<Event>): (offsets: seq<int>) {
    if t == [] then []
    else (if t[0].SetArg? && t[0].slot == 0 && t[0].arg.UInt? then [t[0].arg.u] else []) + Offsets(t[1..])
  }

  lemma {:induction false} OffsetsAppend(a: seq<Event>, b: seq<Event>)
    ensures Offsets(a + b) == Offsets(a) + Offsets(b)
  {
    if a != [] {
      assert (a + b)[1..] == a[1..] + b;
      OffsetsAppend(a[1..], b);
    } else {
      assert a + b == b;
    }
  }

  lemma {:induction false} OffsetsOfBatches(n: nat)
    ensures |Offsets(Batches(n))| == n
    ensures forall i :: 0 <= i < n ==> Offsets(Batches(n))[i] == Offset(i)
  {
    if n > 0 {
      OffsetsOfBatches(n - 1);
      OffsetsAppend(Batches(n - 1), Batch(n - 1));
      var b := Batch(n - 1);
      assert Offsets(b[2..][1..]) == [];
      assert Offsets(b[1..][1..]) == Offsets(b[2..]) == [];
      assert Offsets(b[1..]) == [];
      assert Offsets(b) == [Offset(n - 1)];
    }
  }

  /**
   * A completed run binds exactly the offsets 0, G, 2G, ..., (fullRuns - 1) * G:
   * one per batch, strictly increasing.
   */
  lemma DispatchedOffsets(work: u32)
    ensures Offsets(DagTrace(work, None)) == seq(FullRuns(work), i => i * GLOBAL_WORK_SIZE)
    ensures forall a, b :: 0 <= a < b < FullRuns(work) ==>
      Offsets(DagTrace(work, None))[a] < Offsets(DagTrace(work, None))[b]
  {
    var n := FullRuns(work);
    OffsetsAppend(Prologue(), Batches(n));
    assert Offsets(Prologue()) == [];
    OffsetsOfBatches(n);
    forall i | 0 <= i < n
      ensures Offset(i) == i * GLOBAL_WORK_SIZE
    {
      OffsetIsExact(work, i);
    }
  }

  /** The number of batches a run starts: all of them, or up to and including the failing one. */
  function RunsStarted(work: u32, fault: Option<nat>): (m: nat) {
    if Aborts(work, fault) then fault.value + 1 else FullRuns(work)
  }

  /** A run's trace is a prefix of the trace of all the batches it starts, missing at most the last `finish`. */
  lemma DagTraceIsPrefix(work: u32, fault: Option<nat>)
    ensures |Prologue() + Batches(RunsStarted(work, fault))| == 3 + 3 * RunsStarted(work, fault)
    ensures 2 + 3 * RunsStarted(work, fault) <= |DagTrace(work, fault)| <= 3 + 3 * RunsStarted(work, fault)
    ensures DagTrace(work, fault) ==
      (Prologue() + Batches(RunsStarted(work, fault)))[..|DagTrace(work, fault)|]
  {
    var m := RunsStarted(work, fault);
    BatchesLayout(m, 0);
    if Aborts(work, fault) {
      assert Batches(m) == Batches(fault.value) + Batch(fault.value);
      BatchesLayout(fault.value, 0);
    }
  }

  /**
   * In every run, completed or cut short, each offset binding after the first
   * comes right after a `finish`, and each is followed by the enqueue of a
   * batch of G items in groups of 64: no two dispatches overlap.
   */
  lemma FinishBeforeNextBind(work: u32, fault: Option<nat>, j: nat)
    requires 3 <= j < |DagTrace(work, fault)|
    requires DagTrace(work, fault)[j].SetArg?
    ensures j > 3 ==> DagTrace(work, fault)[j - 1] == Finish
    ensures j + 1 < |DagTrace(work, fault)|
    ensures DagTrace(work, fault)[j + 1] == Enqueue(GLOBAL_WORK_SIZE, GROUP_SIZE)
  {
    var t := DagTrace(work, fault);
    var m := RunsStarted(work, fault);
    var full := Prologue() + Batches(m);
    DagTraceIsPrefix(work, fault);
    assert t[j] == full[j];
    BatchAfterPrologue(m, j);
    assert (j - 3) % 3 == 0;
    BatchAfterPrologue(m, j + 1);
    assert t[j + 1] == full[j + 1];
    if j > 3 {
      BatchAfterPrologue(m, j - 1);
      assert t[j - 1] == full[j - 1];
    }
  }

  lemma BatchAfterPrologue(m: nat, j: nat)
    requires 3 <= j < 3 + 3 * m
    ensures |Prologue() + Batches(m)| == 3 + 3 * m
    ensures (Prologue() + Batches(m))[j] == Batch((j - 3) / 3)[(j - 3) % 3]
  {
    BatchesLayout(m, j - 3);
  }

  /** Every node below `work` lies in the range of one dispatched batch. */
  lemma BatchesCover(work: u32, x: nat)
    requires x < work
    ensures x / GLOBAL_WORK_SIZE < FullRuns(work)
    ensures (x / GLOBAL_WORK_SIZE) * GLOBAL_WORK_SIZE <= x < (x / GLOBAL_WORK_SIZE + 1) * GLOBAL_WORK_SIZE
  {
    FullRunsIsCeiling(work);
  }

  /** The batch ranges `[i * G, (i + 1) * G)` are pairwise disjoint. */
  lemma BatchesDisjoint(i: nat, j: nat, x: nat)
    requires i * GLOBAL_WORK_SIZE <= x < (i + 1) * GLOBAL_WORK_SIZE
    requires j * GLOBAL_WORK_SIZE <= x < (j + 1) * GLOBAL_WORK_SIZE
    ensures i == j
  {
  }
}
