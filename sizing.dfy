/**
 * Sizes derived from the DAG and light-cache byte sizes, truncated to
 * `uint32_t` as `main` does, and the search kernel's normalisation factor.
 */
module Sizing {
  import opened Numerics

  /** `sizeof(node)`: one DAG node is 64 bytes. */
  const NODE_BYTES: nat := 64
  /** `ETHASH_MIX_BYTES` of the ethash library. */
  const ETHASH_MIX_BYTES: nat := 128

  /** `dagSize128 = (unsigned)(dagSize / ETHASH_MIX_BYTES)` */
  function DagSize128(dagSize: u64): (r: u32)
    ensures r <= dagSize / ETHASH_MIX_BYTES
    ensures dagSize < TWO_32 * ETHASH_MIX_BYTES ==>
      r * ETHASH_MIX_BYTES <= dagSize < (r + 1) * ETHASH_MIX_BYTES
  {
    Wrap32(dagSize / ETHASH_MIX_BYTES)
  }

  /** `lightSize64 = (unsigned)(light->data().size() / sizeof(node))` */
  function LightSize64(lightBytes: u64): (r: u32)
    ensures r <= lightBytes / NODE_BYTES
    ensures lightBytes < TWO_32 * NODE_BYTES ==> r * NODE_BYTES <= lightBytes < (r + 1) * NODE_BYTES
  {
    Wrap32(lightBytes / NODE_BYTES)
  }

  /** `work = (uint32_t)(dagSize / sizeof(node))`: number of DAG nodes to generate. */
  function WorkUnits(dagSize: u64): (r: u32)
    ensures r <= dagSize / NODE_BYTES
    ensures dagSize < TWO_32 * NODE_BYTES ==> r * NODE_BYTES <= dagSize < (r + 1) * NODE_BYTES
  {
    Wrap32(dagSize / NODE_BYTES)
  }

  /**
   * For a DAG whose size is a whole number of 128-byte mixes and below 2^38
   * bytes, the dispatcher's node count is twice the DAG_SIZE constant the
   * kernels are built with: neither truncation to 32 bits loses anything.
   */
  lemma WorkIsTwiceDagSize128(dagSize: u64)
    requires dagSize % ETHASH_MIX_BYTES == 0
    requires dagSize < 0x40_0000_0000
    ensures WorkUnits(dagSize) == 2 * DagSize128(dagSize)
    ensures DagSize128(dagSize) * ETHASH_MIX_BYTES == dagSize
  {
  }

  /**
   * `factor = (1UL << 32) / dagSize128` stored in a `cl_uint`. The quotient
   * is the floor of 2^32 / dagSize128; it is truncated to 0 when dagSize128
   * is 1, and fits 32 bits for every larger divisor.
   */
  function Factor(dagSize128: u32): (f: u32)
    requires dagSize128 > 0
    ensures dagSize128 == 1 ==> f == 0
    ensures dagSize128 >= 2 ==> 0 < f && f * dagSize128 <= TWO_32 < (f + 1) * dagSize128
  {
    var q := TWO_32 / dagSize128;
    if dagSize128 >= 2 then
      QuotientBounds(TWO_32, dagSize128);
      Wrap32(q)
    else
      Wrap32(q)
  }

  lemma QuotientBounds(a: nat, d: nat)
    requires d >= 2 && a >= d
    ensures 0 < a / d < a
    ensures (a / d) * d <= a < (a / d + 1) * d
  {
    var q := a / d;
    var r := a % d;
    assert a == q * d + r;
    assert q * d + d == (q + 1) * d;
    assert q * d >= q * 2 by {
      MulMonotone(q, 2, d);
    }
  }

  lemma MulMonotone(q: nat, a: nat, b: nat)
    requires a <= b
    ensures q * a <= q * b
  {
  }
}
