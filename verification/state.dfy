/** The process-wide context the errata code keeps in file-scope statics and
    per-CPU variables, made explicit: it is threaded through every per-CPU
    evaluation. Hardware registers, firmware answers, build options and
    command-line switches are inputs, not state. */
module State {
  import opened Base
  import opened Smccc
  import Midr
  import BpHardening

  /** ARM64_SSBD_UNKNOWN / FORCE_DISABLE / KERNEL / FORCE_ENABLE / MITIGATED. */
  datatype SsbdState = SsbdUnknown | SsbdForceDisable | SsbdKernel | SsbdForceEnable | SsbdMitigated

  /** The capability numbers the errata table assigns (ARM64_WORKAROUND_*,
      ARM64_MISMATCHED_*, ARM64_HARDEN_BRANCH_PREDICTOR, ARM64_SSBD). */
  datatype Capability =
    | WorkaroundCleanCache
    | WorkaroundDeviceLoadAcquire
    | Workaround834220
    | Workaround845719
    | WorkaroundCavium23154
    | WorkaroundCavium27456
    | MismatchedCacheLineSize
    | MismatchedCacheType
    | HardenBranchPredictor
    | SsbdCapability

  /** The two branch-predictor hardening callbacks the file can install:
      call_hvc_arch_workaround_1 and call_smc_arch_workaround_1. */
  datatype Callback = CallHvcArchWorkaround1 | CallSmcArchWorkaround1

  /** The vector code range passed to the allocator: NULL/NULL, or
      __smccc_workaround_1_smc_start .. __smccc_workaround_1_smc_end. */
  datatype HypVecs = NoHypVecs | SmcWorkaround1Vecs

  /** The call sites of the "once" notices (pr_*_once, WARN_ON_ONCE). */
  datatype Notice =
    | SsbdDisabledByConfig
    | SsbdNoConduit
    | SsbdNotRequired
    | SsbdDisabledFromCommandLine
    | SsbdForcedFromCommandLine
    | SpectreV2DisabledByConfig
    | SpectreV2DisabledByCommandLine
    | Workaround1MissingFromFirmware

  /** The Kconfig switches the core tests with IS_ENABLED / #ifdef. */
  datatype Config = Config(kvm: bool, hardenBranchPredictor: bool, arm64Ssbd: bool)

  /** System-wide inputs, fixed before any CPU is evaluated: build options,
      the negotiated SMCCC version and conduit, the nospectre_v2 and
      mitigations=off switches, and the size in bytes of the hardening
      vector region (__bp_harden_hyp_vecs_end - __bp_harden_hyp_vecs_start). */
  datatype Platform = Platform(
    config: Config,
    version: Version,
    conduit: Conduit,
    nospectreV2: bool,
    mitigationsOff: bool,
    vectorRegionBytes: nat)

  /** Per-CPU inputs: which identity ranges the CPU's MIDR falls in, its
      ID_AA64PFR0_EL1 and CTR_EL0 registers, and the firmware's answers to
      the SMCCC_ARCH_FEATURES queries for workarounds 1 and 2. */
  datatype CpuInputs = CpuInputs(
    inRange: Midr.MidrRange -> bool,
    pfr0: bv64,
    ctr: bv64,
    wa1: Answer,
    wa2: Answer)

  /** The mutable state: ssbd_state, the three global flags __ssb_safe,
      __spectrev2_safe and __hardenbp_enab, the allocator (last_slot and the
      per-CPU bp_hardening_data), the per-CPU arm64_ssbd_callback_required,
      the firmware calls issued so far and the notices printed so far. */
  datatype Context = Context(
    ssbdState: SsbdState,
    ssbSafe: bool,
    spectreV2Safe: bool,
    hardenBpEnabled: bool,
    bp: BpHardening.Table<Callback, HypVecs>,
    ssbdCallbackRequired: seq<bool>,
    fwLog: seq<FwCall>,
    notices: seq<Notice>)

  /** A per-CPU evaluation's resulting context and returned value. */
  datatype Step<T> = Step(ctx: Context, val: T)

  /** The context at boot for `nrCpus` possible CPUs, with `ssbdState` the
      value left by the command line (ARM64_SSBD_KERNEL when none). */
  function Initial(nrCpus: nat, ssbdState: SsbdState): (ctx: Context)
    ensures ctx.ssbSafe && ctx.spectreV2Safe && ctx.hardenBpEnabled
    ensures |ctx.bp.cpus| == nrCpus && |ctx.ssbdCallbackRequired| == nrCpus
    ensures BpHardening.Empty(ctx.bp) && ctx.fwLog == [] && ctx.notices == []
    ensures forall i | 0 <= i < nrCpus :: !ctx.ssbdCallbackRequired[i]
    ensures forall p: Platform :: Valid(p, ctx)
  {
    Context(ssbdState, true, true, true, BpHardening.Boot(nrCpus), seq(nrCpus, _ => false), [], [])
  }

  /** Number of slots in the platform's hardening vector region. */
  function SlotCapacity(p: Platform): nat
  {
    BpHardening.Capacity(p.vectorRegionBytes)
  }

  /** `cpu` names a possible CPU of the context. */
  predicate HasCpu(ctx: Context, cpu: nat)
  {
    cpu < |ctx.bp.cpus| && cpu < |ctx.ssbdCallbackRequired|
  }

  /** The invariant every evaluation keeps: per-CPU data for the same set of
      CPUs, a well-formed allocator (when KVM is built in), every firmware
      call issued through a real conduit, and no notice printed twice. */
  ghost predicate Valid(p: Platform, ctx: Context)
  {
    && |ctx.ssbdCallbackRequired| == |ctx.bp.cpus|
    && (p.config.kvm ==> BpHardening.Wf(ctx.bp, SlotCapacity(p)))
    && (forall k | 0 <= k < |ctx.fwLog| :: Issued(ctx.fwLog[k]))
    && NoDup(ctx.notices)
  }

  /** None of the three global flags went from false to true. */
  predicate FlagsNotRaised(before: Context, after: Context)
  {
    && (after.ssbSafe ==> before.ssbSafe)
    && (after.spectreV2Safe ==> before.spectreV2Safe)
    && (after.hardenBpEnabled ==> before.hardenBpEnabled)
  }
}
