/** has_mismatched_cache_type: whether this CPU's CTR_EL0 differs from the
    system-wide value in the fields a capability cares about, and the trap
    the capability then enables. */
module CacheType {
  import opened Base
  import opened State

  /** CTR_CACHE_MINLINE_MASK: the IminLine field (bits [3:0]) and the
      DminLine field (bits [19:16]) of CTR_EL0. */
  const CtrCacheMinlineMask: bv64 := 0x000F_000F

  /** SCTLR_EL1.UCT (bit 15): EL0 access to CTR_EL0 is not trapped. */
  const SctlrEl1Uct: bv64 := 0x8000

  /** The CTR_EL0 fields compared for a capability: the min-line fields for
      the cache line size check, the strict fields without the min-line
      fields for the cache type check. */
  function CompareMask(cap: Capability, strictMask: bv64): bv64
  {
    if cap == MismatchedCacheType then CtrCacheMinlineMask ^ strictMask else CtrCacheMinlineMask
  }

  /** The IminLine field of CTR_EL0, bits [3:0]. */
  function IminLine(ctr: bv64): bv64
  {
    ctr & 0xF
  }

  /** The DminLine field of CTR_EL0, bits [19:16]. */
  function DminLine(ctr: bv64): bv64
  {
    (ctr >> 16) & 0xF
  }

  /** has_mismatched_cache_type for the table entry of capability `cap`;
      `sysVal` and `strictMask` are the system-wide CTR_EL0 value and its
      strict-field mask (arm64_ftr_reg_ctrel0). */
  function HasMismatchedCacheType(cap: Capability, ctr: bv64, sysVal: bv64, strictMask: bv64, scope: Scope): (r: bool)
    // the line size check compares the two min-line fields and nothing else
    ensures cap != MismatchedCacheType ==>
      (r <==> IminLine(ctr) != IminLine(sysVal) || DminLine(ctr) != DminLine(sysVal))
    // a CPU agreeing with the system value never mismatches
    ensures ctr == sysVal ==> !r
    // with the min-line fields among the strict ones (as CTR_EL0's are), the
    // cache type check looks only at strict fields ...
    ensures (cap == MismatchedCacheType && strictMask & CtrCacheMinlineMask == CtrCacheMinlineMask &&
             ctr & strictMask == sysVal & strictMask) ==> !r
    // ... and ignores a difference in the min-line fields
    ensures (cap == MismatchedCacheType && strictMask & CtrCacheMinlineMask == CtrCacheMinlineMask &&
             ctr & !CtrCacheMinlineMask == sysVal & !CtrCacheMinlineMask) ==> !r
  {
    var mask := CompareMask(cap, strictMask);
    (ctr & mask) != (sysVal & mask)
  }

  /** cpu_enable_trap_ctr_access: config_sctlr_el1(SCTLR_EL1_UCT, 0) clears
      the UCT bit of SCTLR_EL1, so EL0 reads of CTR_EL0 trap; no other bit
      changes. */
  function CpuEnableTrapCtrAccess(sctlr: bv64): (r: bv64)
    ensures r & SctlrEl1Uct == 0
    ensures r | SctlrEl1Uct == sctlr | SctlrEl1Uct
  {
    sctlr & !SctlrEl1Uct
  }
}
