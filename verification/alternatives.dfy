/** The two alternative-patching callbacks of the file, which rewrite one
    instruction of the kernel image before any CPU-specific decision runs:
    arm64_update_smccc_conduit (the firmware call instruction) and
    arm64_enable_wa2_handling (the workaround-2 handling). An instruction
    is a little-endian 32-bit word in memory. */
module Alternatives {
  import opened Base
  import opened Smccc
  import opened State

  /** A64 encodings: HVC #0, SMC #0 and NOP. */
  const HvcInsn: bv32 := 0xD400_0002
  const SmcInsn: bv32 := 0xD400_0003
  const NopInsn: bv32 := 0xD503_201F

  /** What a patch site may end up holding. */
  datatype Insn = HvcI | SmcI | NopI | OtherI

  /** Reads an instruction word. */
  function Decode(w: bv32): Insn
  {
    if w == HvcInsn then HvcI
    else if w == SmcInsn then SmcI
    else if w == NopInsn then NopI
    else OtherI
  }

  /** cpu_to_le32 followed by the store: the word's bytes, least
      significant first. */
  function ToLe32(w: bv32): (b: seq<bv8>)
    ensures |b| == 4
  {
    [(w & 0xFF) as bv8, ((w >> 8) & 0xFF) as bv8, ((w >> 16) & 0xFF) as bv8, ((w >> 24) & 0xFF) as bv8]
  }

  /** Reading back a little-endian word from memory. */
  function FromLe32(b: seq<bv8>): bv32
    requires |b| == 4
  {
    (b[0] as bv32) | ((b[1] as bv32) << 8) | ((b[2] as bv32) << 16) | ((b[3] as bv32) << 24)
  }

  /** A stored word reads back as itself. */
  lemma Le32RoundTrip(w: bv32)
    ensures FromLe32(ToLe32(w)) == w
  {
  }

  /** The instruction a patch site holds. */
  function SiteInsn(site: seq<bv8>): Insn
    requires |site| == 4
  {
    Decode(FromLe32(site))
  }

  /** arm64_update_smccc_conduit on a patch site of `nrInst` instructions
      whose first instruction is `site`. Any count other than one is a BUG. */
  function UpdateSmcccConduit(conduit: Conduit, site: seq<bv8>, nrInst: int): (r: Outcome<seq<bv8>>)
    requires |site| == 4
    ensures r.Bug? <==> nrInst != 1
    ensures r.Ok? ==> |r.value| == 4
    ensures r.Ok? && conduit == Hvc ==> SiteInsn(r.value) == HvcI
    ensures r.Ok? && conduit == Smc ==> SiteInsn(r.value) == SmcI
    ensures r.Ok? && conduit == NoConduit ==> r.value == site
  {
    if nrInst != 1 then Bug
    else
      match conduit
      case Hvc => Le32RoundTrip(HvcInsn); Ok(ToLe32(HvcInsn))
      case Smc => Le32RoundTrip(SmcInsn); Ok(ToLe32(SmcInsn))
      case NoConduit => Ok(site)
  }

  /** arm64_enable_wa2_handling: the site becomes a NOP exactly when the
      SSBD state is ARM64_SSBD_KERNEL (the state is read through
      arm64_get_ssbd_state, taken to return ssbd_state). */
  function EnableWa2Handling(ssbdState: SsbdState, site: seq<bv8>, nrInst: int): (r: Outcome<seq<bv8>>)
    requires |site| == 4
    ensures r.Bug? <==> nrInst != 1
    ensures r.Ok? ==> |r.value| == 4
    ensures r.Ok? && ssbdState == SsbdKernel ==> SiteInsn(r.value) == NopI
    ensures r.Ok? && ssbdState != SsbdKernel ==> r.value == site
  {
    if nrInst != 1 then Bug
    else if ssbdState == SsbdKernel then Le32RoundTrip(NopInsn); Ok(ToLe32(NopInsn))
    else Ok(site)
  }
}
