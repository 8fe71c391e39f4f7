/** The sysfs vulnerability reports cpu_show_spectre_v2 and
    cpu_show_spec_store_bypass, as the strings they print. */
module Reporting {
  import opened State

  const NotAffected: string := "Not affected\n"
  const BpHardening: string := "Mitigation: Branch predictor hardening\n"
  const SsbPrctl: string := "Mitigation: Speculative Store Bypass disabled via prctl\n"
  const Vulnerable: string := "Vulnerable\n"

  /** The four report strings are pairwise distinct. */
  lemma ReportsDistinct()
    ensures NotAffected != BpHardening && NotAffected != SsbPrctl && NotAffected != Vulnerable
    ensures BpHardening != SsbPrctl && BpHardening != Vulnerable && SsbPrctl != Vulnerable
  {
  }

  /** cpu_show_spectre_v2. */
  function CpuShowSpectreV2(ctx: Context): (s: string)
    ensures s == NotAffected <==> ctx.spectreV2Safe
    ensures s == BpHardening <==> !ctx.spectreV2Safe && ctx.hardenBpEnabled
    ensures s == Vulnerable <==> !ctx.spectreV2Safe && !ctx.hardenBpEnabled
  {
    ReportsDistinct();
    if ctx.spectreV2Safe then NotAffected
    else if ctx.hardenBpEnabled then BpHardening
    else Vulnerable
  }

  /** cpu_show_spec_store_bypass, with `arm64Ssbd` the CONFIG_ARM64_SSBD
      switch. */
  function CpuShowSpecStoreBypass(ctx: Context, arm64Ssbd: bool): (s: string)
    ensures s == NotAffected <==> ctx.ssbSafe
    ensures s == SsbPrctl <==>
      !ctx.ssbSafe && arm64Ssbd && (ctx.ssbdState == SsbdKernel || ctx.ssbdState == SsbdForceEnable)
    ensures s == Vulnerable <==>
      !ctx.ssbSafe && !(arm64Ssbd && (ctx.ssbdState == SsbdKernel || ctx.ssbdState == SsbdForceEnable))
  {
    ReportsDistinct();
    if ctx.ssbSafe then NotAffected
    else
      match ctx.ssbdState
      case SsbdKernel => if arm64Ssbd then SsbPrctl else Vulnerable
      case SsbdForceEnable => if arm64Ssbd then SsbPrctl else Vulnerable
      case _ => Vulnerable
  }
}
