/** Spectre-v2 (branch target injection) detection: the firmware
    negotiation detect_harden_bp_fw and the matcher check_branch_predictor,
    which layers the CSV2 and safe-list shortcuts and the build and
    command-line overrides on top of it and clears the global flags. */
module SpectreV2 {
  import opened Base
  import opened Smccc
  import Midr
  import BpHardening
  import opened State

  /** cpuid_feature_extract_unsigned_field(ID_AA64PFR0_EL1, CSV2 shift):
      the 4-bit CSV2 field, bits [59:56] of ID_AA64PFR0_EL1. */
  function Csv2(pfr0: bv64): (field: nat)
    ensures field < 16
    ensures field == 0 <==> pfr0 & 0x0F00_0000_0000_0000 == 0
  {
    ((pfr0 >> 56) & 0xF) as nat
  }

  /** The CPU is known safe without asking firmware: it implements CSV2, or
      its identity is on spectre_v2_safe_list. */
  predicate Shortcut(inp: CpuInputs)
  {
    Csv2(inp.pfr0) != 0 || Midr.InRangeList(inp.inRange, Midr.SpectreV2SafeList)
  }

  /** The CPU does not make the system vulnerable: a shortcut applies, or
      the firmware says workaround 1 is not needed on it. */
  predicate CpuSafe(p: Platform, inp: CpuInputs)
  {
    Shortcut(inp) || (CanQuery(p.version, p.conduit) && inp.wa1 == One)
  }

  /** The firmware implements workaround 1 and says the CPU needs it. */
  predicate FirmwareMitigates(p: Platform, inp: CpuInputs)
  {
    CanQuery(p.version, p.conduit) && inp.wa1 == Success
  }

  /** Hardening is neither compiled out nor switched off on the command
      line (nospectre_v2 or mitigations=off). */
  predicate HardeningAllowed(p: Platform)
  {
    p.config.hardenBranchPredictor && !p.nospectreV2 && !p.mitigationsOff
  }

  /** The SMCCC_ARCH_FEATURES query for workaround 1 through the conduit. */
  function Query1(conduit: Conduit): FwCall
  {
    FwCall(conduit, ArchFeatures(Workaround1))
  }

  /** detect_harden_bp_fw run on CPU `cpu`: -1 when there is no workaround,
      0 when none is required, 1 when the conduit's callback was installed.
      The hypervisor callback is installed with no vector range; the SMC one
      with the SMC workaround vectors. */
  function DetectHardenBpFw(p: Platform, ctx: Context, cpu: nat, inp: CpuInputs): (r: Outcome<Step<int>>)
    requires HasCpu(ctx, cpu)
    // SMCCC 1.0 or no conduit: no query, no workaround
    ensures !CanQuery(p.version, p.conduit) ==> r == Ok(Step(ctx, -1))
    // otherwise exactly one feature query is issued
    ensures CanQuery(p.version, p.conduit) && r.Ok? ==>
      r.value.ctx.fwLog == ctx.fwLog + [FwCall(p.conduit, ArchFeatures(Workaround1))]
    // answer 1: not required, nothing installed
    ensures CanQuery(p.version, p.conduit) && inp.wa1 == One ==>
      r.Ok? && r.value.val == 0 && r.value.ctx.bp == ctx.bp
    // answer 0 (SUCCESS): workaround present, installed when hardening is built in
    ensures FirmwareMitigates(p, inp) ==> (r.Ok? ==> r.value.val == 1)
    ensures FirmwareMitigates(p, inp) && !p.config.hardenBranchPredictor ==>
      r.Ok? && r.value.ctx.bp == ctx.bp
    ensures FirmwareMitigates(p, inp) && p.config.hardenBranchPredictor && p.conduit == Hvc ==>
      var i := BpHardening.Install(p.config.kvm, ctx.bp, SlotCapacity(p), cpu, CallHvcArchWorkaround1, NoHypVecs);
      (r.Bug? <==> i.Bug?) && (r.Ok? ==> r.value.ctx.bp == i.value)
    ensures FirmwareMitigates(p, inp) && p.config.hardenBranchPredictor && p.conduit == Smc ==>
      var i := BpHardening.Install(p.config.kvm, ctx.bp, SlotCapacity(p), cpu, CallSmcArchWorkaround1, SmcWorkaround1Vecs);
      (r.Bug? <==> i.Bug?) && (r.Ok? ==> r.value.ctx.bp == i.value)
    // any other answer: no workaround
    ensures CanQuery(p.version, p.conduit) && inp.wa1 != One && inp.wa1 != Success ==>
      r.Ok? && r.value.val == -1 && r.value.ctx.bp == ctx.bp
    // nothing else changes
    ensures r.Ok? ==>
      && r.value.ctx.ssbdState == ctx.ssbdState
      && r.value.ctx.ssbSafe == ctx.ssbSafe
      && r.value.ctx.spectreV2Safe == ctx.spectreV2Safe
      && r.value.ctx.hardenBpEnabled == ctx.hardenBpEnabled
      && r.value.ctx.ssbdCallbackRequired == ctx.ssbdCallbackRequired
      && r.value.ctx.notices == ctx.notices
  {
    if p.version == Version10 then Ok(Step(ctx, -1))
    else
      match p.conduit
      case NoConduit => Ok(Step(ctx, -1))
      case _ =>
        var queried := ctx.(fwLog := ctx.fwLog + [Query1(p.conduit)]);
        match inp.wa1
        case One => Ok(Step(queried, 0))
        case Success =>
          var cb := if p.conduit == Hvc then CallHvcArchWorkaround1 else CallSmcArchWorkaround1;
          var vecs := if p.conduit == Hvc then NoHypVecs else SmcWorkaround1Vecs;
          if p.config.hardenBranchPredictor then
            match BpHardening.Install(p.config.kvm, queried.bp, SlotCapacity(p), cpu, cb, vecs)
            case Bug => Bug
            case Ok(bp) => Ok(Step(queried.(bp := bp), 1))
          else
            Ok(Step(queried, 1))
        case _ => Ok(Step(queried, -1))
  }

  /** check_branch_predictor, the matcher of the branch predictor hardening
      capability, run on CPU `cpu`. */
  function CheckBranchPredictor(p: Platform, ctx: Context, cpu: nat, inp: CpuInputs, scope: Scope): (r: Outcome<Step<bool>>)
    requires HasCpu(ctx, cpu)
    // a shortcut: no firmware query, nothing changes
    ensures Shortcut(inp) ==> r == Ok(Step(ctx, false))
    // the flags, in terms of the inputs alone
    ensures r.Ok? ==> r.value.ctx.spectreV2Safe == (ctx.spectreV2Safe && CpuSafe(p, inp))
    ensures r.Ok? ==>
      (r.value.ctx.hardenBpEnabled <==>
         ctx.hardenBpEnabled && (CpuSafe(p, inp) || (FirmwareMitigates(p, inp) && HardeningAllowed(p))))
    // the capability is detected only when the firmware workaround is in use
    ensures r.Ok? ==> (r.value.val <==> !Shortcut(inp) && FirmwareMitigates(p, inp) && HardeningAllowed(p))
    // only the allocator can stop the kernel
    ensures r.Bug? ==> !Shortcut(inp) && FirmwareMitigates(p, inp) && p.config.hardenBranchPredictor && p.config.kvm
    // without a shortcut, the firmware negotiation runs first, whatever the overrides
    ensures !Shortcut(inp) ==>
      var d := DetectHardenBpFw(p, ctx, cpu, inp);
      (r.Bug? <==> d.Bug?) &&
      (r.Ok? ==> r.value.ctx.bp == d.value.ctx.bp && r.value.ctx.fwLog == d.value.ctx.fwLog)
    // the notices: one for each way hardening is lost, none otherwise
    ensures r.Ok? && !CpuSafe(p, inp) && !p.config.hardenBranchPredictor ==>
      r.value.ctx.notices == Once(ctx.notices, SpectreV2DisabledByConfig)
    ensures r.Ok? && !CpuSafe(p, inp) && p.config.hardenBranchPredictor && (p.nospectreV2 || p.mitigationsOff) ==>
      r.value.ctx.notices == Once(ctx.notices, SpectreV2DisabledByCommandLine)
    ensures r.Ok? && !CpuSafe(p, inp) && HardeningAllowed(p) && !FirmwareMitigates(p, inp) ==>
      r.value.ctx.notices == Once(ctx.notices, Workaround1MissingFromFirmware)
    ensures r.Ok? && (CpuSafe(p, inp) || (FirmwareMitigates(p, inp) && HardeningAllowed(p))) ==>
      r.value.ctx.notices == ctx.notices
    ensures r.Ok? ==> forall n :: n in r.value.ctx.notices ==>
      (n in ctx.notices || n in {SpectreV2DisabledByConfig, SpectreV2DisabledByCommandLine, Workaround1MissingFromFirmware})
    ensures r.Ok? ==> NoDup(ctx.notices) ==> NoDup(r.value.ctx.notices)
    // SSBD state is untouched
    ensures r.Ok? ==>
      && r.value.ctx.ssbdState == ctx.ssbdState
      && r.value.ctx.ssbSafe == ctx.ssbSafe
      && r.value.ctx.ssbdCallbackRequired == ctx.ssbdCallbackRequired
  {
    if Csv2(inp.pfr0) != 0 then Ok(Step(ctx, false))
    else if Midr.InRangeList(inp.inRange, Midr.SpectreV2SafeList) then Ok(Step(ctx, false))
    else
      match DetectHardenBpFw(p, ctx, cpu, inp)
      case Bug => Bug
      case Ok(Step(c1, needWa)) =>
        if needWa == 0 then Ok(Step(c1, false))
        else
          var c2 := c1.(spectreV2Safe := false);
          if !p.config.hardenBranchPredictor then
            Ok(Step(c2.(hardenBpEnabled := false, notices := Once(c2.notices, SpectreV2DisabledByConfig)), false))
          else if p.nospectreV2 || p.mitigationsOff then
            Ok(Step(c2.(hardenBpEnabled := false, notices := Once(c2.notices, SpectreV2DisabledByCommandLine)), false))
          else if needWa < 0 then
            Ok(Step(c2.(hardenBpEnabled := false, notices := Once(c2.notices, Workaround1MissingFromFirmware)), needWa > 0))
          else
            Ok(Step(c2, needWa > 0))
  }

  /** check_branch_predictor keeps the context's invariant. */
  lemma CheckBranchPredictorKeepsValid(p: Platform, ctx: Context, cpu: nat, inp: CpuInputs)
    requires Valid(p, ctx) && HasCpu(ctx, cpu)
    ensures var r := CheckBranchPredictor(p, ctx, cpu, inp, ScopeLocalCpu);
      r.Ok? ==> Valid(p, r.value.ctx) && FlagsNotRaised(ctx, r.value.ctx)
  {
    var r := CheckBranchPredictor(p, ctx, cpu, inp, ScopeLocalCpu);
    if r.Ok? && !Shortcut(inp) && FirmwareMitigates(p, inp) && p.config.hardenBranchPredictor && p.config.kvm {
      var cb := if p.conduit == Hvc then CallHvcArchWorkaround1 else CallSmcArchWorkaround1;
      var vecs := if p.conduit == Hvc then NoHypVecs else SmcWorkaround1Vecs;
      BpHardening.InstallKvmKeepsWf(ctx.bp, SlotCapacity(p), cpu, cb, vecs);
    }
  }
}
