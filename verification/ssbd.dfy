/** Speculative Store Bypass Disable: the firmware toggle
    arm64_set_ssbd_mitigation and the matcher has_ssbd_mitigation, which
    classifies the firmware's answer to the workaround-2 query and then
    applies the ssbd_state policy for this CPU. */
module Ssbd {
  import opened Base
  import opened Smccc
  import Midr
  import opened State

  /** The CPU is on arm64_ssb_cpus, the cores known not to be vulnerable. */
  predicate KnownInvulnerable(inp: CpuInputs)
  {
    Midr.InRangeList(inp.inRange, Midr.ArmSsbCpus)
  }

  /** The CPU leaves __ssb_safe set. Without a usable firmware answer only
      the known-invulnerable list keeps it; "not required" (machine-wide or
      for this CPU) keeps it; "mitigation required" clears it. */
  predicate SsbSafeCpu(p: Platform, inp: CpuInputs)
  {
    if !CanQuery(p.version, p.conduit) then KnownInvulnerable(inp)
    else
      match inp.wa2
      case NotRequired => true
      case One => true
      case Success => false
      case NotSupported => KnownInvulnerable(inp)
      case Other => KnownInvulnerable(inp)
  }

  /** The policy has_ssbd_mitigation starts from: mitigations=off forces
      ARM64_SSBD_FORCE_DISABLE before anything else. */
  function RequestedState(p: Platform, ctx: Context): SsbdState
  {
    if p.mitigationsOff then SsbdForceDisable else ctx.ssbdState
  }

  /** The firmware calls arm64_set_ssbd_mitigation issues through a real
      conduit: one SMCCC_ARCH_WORKAROUND_2 call when SSBD support is built
      in, none otherwise. */
  function Toggle(p: Platform, enable: bool): seq<FwCall>
    requires p.conduit != NoConduit
  {
    if p.config.arm64Ssbd then [FwCall(p.conduit, ArchWorkaround2(enable))] else []
  }

  /** arm64_set_ssbd_mitigation(enable): ask the firmware to turn the
      mitigation on or off for the calling CPU. */
  function SetSsbdMitigation(p: Platform, ctx: Context, enable: bool): (r: Context)
    // at most one call, SMCCC_ARCH_WORKAROUND_2(enable) through the conduit
    ensures r.fwLog == ctx.fwLog ||
      (p.conduit != NoConduit && r.fwLog == ctx.fwLog + [FwCall(p.conduit, ArchWorkaround2(enable))])
    ensures |r.fwLog| == |ctx.fwLog| + 1 <==> p.config.arm64Ssbd && p.conduit != NoConduit
    // otherwise a notice says why not; a call prints nothing
    ensures !p.config.arm64Ssbd ==> r.notices == Once(ctx.notices, SsbdDisabledByConfig)
    ensures p.config.arm64Ssbd && p.conduit == NoConduit ==> r.notices == Once(ctx.notices, SsbdNoConduit)
    ensures p.config.arm64Ssbd && p.conduit != NoConduit ==> r.notices == ctx.notices
    ensures forall n :: n in r.notices ==> (n in ctx.notices || n in {SsbdDisabledByConfig, SsbdNoConduit})
    ensures NoDup(ctx.notices) ==> NoDup(r.notices)
    // no other state changes
    ensures r.(fwLog := ctx.fwLog, notices := ctx.notices) == ctx
  {
    if !p.config.arm64Ssbd then
      ctx.(notices := Once(ctx.notices, SsbdDisabledByConfig))
    else
      match p.conduit
      case Hvc => ctx.(fwLog := ctx.fwLog + [FwCall(Hvc, ArchWorkaround2(enable))])
      case Smc => ctx.(fwLog := ctx.fwLog + [FwCall(Smc, ArchWorkaround2(enable))])
      case NoConduit => ctx.(notices := Once(ctx.notices, SsbdNoConduit))
  }

  /** Two successive requests on one CPU: the firmware receives both, in
      order, whenever a call can be made; otherwise the notice explaining
      why not is printed once, however often the request is repeated. */
  lemma SetSsbdMitigationTwice(p: Platform, ctx: Context, first: bool, second: bool)
    ensures var mid := SetSsbdMitigation(p, ctx, first);
      SetSsbdMitigation(p, mid, second).notices == mid.notices
    ensures p.config.arm64Ssbd && p.conduit != NoConduit ==>
      SetSsbdMitigation(p, SetSsbdMitigation(p, ctx, first), second).fwLog ==
        ctx.fwLog + [FwCall(p.conduit, ArchWorkaround2(first)), FwCall(p.conduit, ArchWorkaround2(second))]
    ensures !(p.config.arm64Ssbd && p.conduit != NoConduit) ==>
      SetSsbdMitigation(p, SetSsbdMitigation(p, ctx, first), second) == SetSsbdMitigation(p, ctx, first)
    ensures Valid(p, ctx) ==> Valid(p, SetSsbdMitigation(p, SetSsbdMitigation(p, ctx, first), second))
  {
    var mid := SetSsbdMitigation(p, ctx, first);
    var r := SetSsbdMitigation(p, mid, second);
    if p.config.arm64Ssbd && p.conduit != NoConduit {
      assert r.fwLog == mid.fwLog + [FwCall(p.conduit, ArchWorkaround2(second))];
    }
  }

  /** The notices after arm64_set_ssbd_mitigation through a real conduit:
      the configuration notice when SSBD support is compiled out. */
  function Toggled(p: Platform, notices: seq<Notice>): seq<Notice>
  {
    if p.config.arm64Ssbd then notices else Once(notices, SsbdDisabledByConfig)
  }

  /** No usable firmware answer: the state becomes unknown and only a known
      invulnerable CPU keeps __ssb_safe. */
  function NoFirmwareAnswer(ctx: Context, safe: bool): Step<bool>
  {
    Step(ctx.(ssbdState := SsbdUnknown, ssbSafe := ctx.ssbSafe && safe), false)
  }

  /** The ssbd_state policy overlay on the firmware-derived `required`. */
  function ApplyPolicy(p: Platform, ctx: Context, cpu: nat, required: bool): (r: Step<bool>)
    requires HasCpu(ctx, cpu) && p.conduit != NoConduit
    ensures ctx.ssbdState == SsbdForceDisable ==>
      !r.val && r.ctx.fwLog == ctx.fwLog + Toggle(p, false) && SsbdDisabledFromCommandLine in r.ctx.notices
    ensures ctx.ssbdState == SsbdForceEnable ==>
      r.val && r.ctx.fwLog == ctx.fwLog + Toggle(p, true) && SsbdForcedFromCommandLine in r.ctx.notices
    ensures ctx.ssbdState == SsbdKernel ==>
      (r.val <==> required) && r.ctx.fwLog == ctx.fwLog + (if required then Toggle(p, true) else [])
    ensures ctx.ssbdState == SsbdUnknown || ctx.ssbdState == SsbdMitigated ==>
      (r.val <==> required) && r.ctx.fwLog == ctx.fwLog
    ensures r.ctx.ssbdCallbackRequired ==
      if required && ctx.ssbdState == SsbdKernel then ctx.ssbdCallbackRequired[cpu := true]
      else ctx.ssbdCallbackRequired
    // the command-line notices, then the configuration notice when the toggle is compiled out
    ensures ctx.ssbdState == SsbdForceDisable ==>
      r.ctx.notices == Toggled(p, Once(ctx.notices, SsbdDisabledFromCommandLine))
    ensures ctx.ssbdState == SsbdForceEnable ==>
      r.ctx.notices == Toggled(p, Once(ctx.notices, SsbdForcedFromCommandLine))
    ensures ctx.ssbdState == SsbdKernel ==>
      r.ctx.notices == if required then Toggled(p, ctx.notices) else ctx.notices
    ensures ctx.ssbdState == SsbdUnknown || ctx.ssbdState == SsbdMitigated ==> r.ctx.notices == ctx.notices
    ensures NoDup(ctx.notices) ==> NoDup(r.ctx.notices)
    ensures r.ctx.(fwLog := ctx.fwLog, notices := ctx.notices, ssbdCallbackRequired := ctx.ssbdCallbackRequired) == ctx
  {
    match ctx.ssbdState
    case SsbdForceDisable =>
      Step(SetSsbdMitigation(p, ctx.(notices := Once(ctx.notices, SsbdDisabledFromCommandLine)), false), false)
    case SsbdKernel =>
      if required then
        Step(SetSsbdMitigation(p, ctx.(ssbdCallbackRequired := ctx.ssbdCallbackRequired[cpu := true]), true), true)
      else
        Step(ctx, false)
    case SsbdForceEnable =>
      Step(SetSsbdMitigation(p, ctx.(notices := Once(ctx.notices, SsbdForcedFromCommandLine)), true), true)
    case _ => Step(ctx, required)
  }

  /** The classification of the firmware's answer to the workaround-2
      query, on a context where the query is already logged; SUCCESS and 1
      go on to the policy overlay. */
  function Classify(p: Platform, ctx: Context, cpu: nat, answer: Answer, safe: bool): (r: Step<bool>)
    requires HasCpu(ctx, cpu) && p.conduit != NoConduit
    ensures r.ctx.ssbSafe == (ctx.ssbSafe && match answer
      case NotRequired => true
      case One => true
      case Success => false
      case _ => safe)
    ensures answer == NotSupported ==>
      !r.val && r.ctx.ssbdState == SsbdUnknown && r.ctx.fwLog == ctx.fwLog && r.ctx.notices == ctx.notices
    ensures answer == NotRequired ==>
      && !r.val && r.ctx.ssbdState == SsbdMitigated && r.ctx.fwLog == ctx.fwLog
      && r.ctx.notices == Once(ctx.notices, SsbdNotRequired)
    ensures answer == Other ==>
      !r.val && r.ctx.ssbdState == ctx.ssbdState && r.ctx.fwLog == ctx.fwLog && r.ctx.notices == ctx.notices
    ensures answer == Success || answer == One ==>
      r == ApplyPolicy(p, ctx.(ssbSafe := ctx.ssbSafe && answer == One), cpu, answer == Success)
    ensures answer != Success && answer != One ==> r.ctx.ssbdCallbackRequired == ctx.ssbdCallbackRequired
    ensures r.ctx.spectreV2Safe == ctx.spectreV2Safe && r.ctx.hardenBpEnabled == ctx.hardenBpEnabled
    ensures r.ctx.bp == ctx.bp
  {
    match answer
    case NotSupported => NoFirmwareAnswer(ctx, safe)
    case NotRequired =>
      Step(ctx.(ssbdState := SsbdMitigated, notices := Once(ctx.notices, SsbdNotRequired)), false)
    case Success => ApplyPolicy(p, ctx.(ssbSafe := false), cpu, true)
    case One => ApplyPolicy(p, ctx, cpu, false)
    case Other => Step(ctx.(ssbSafe := ctx.ssbSafe && safe), false)
  }

  /** has_ssbd_mitigation, the matcher of the SSBD capability, run on CPU
      `cpu`: whether this CPU relies on the kernel toggling the firmware
      mitigation. */
  function HasSsbdMitigation(p: Platform, ctx: Context, cpu: nat, inp: CpuInputs, scope: Scope): (r: Step<bool>)
    requires HasCpu(ctx, cpu)
    // __ssb_safe, in terms of the inputs alone
    ensures r.ctx.ssbSafe == (ctx.ssbSafe && SsbSafeCpu(p, inp))
    // SMCCC 1.0 or no conduit: unknown, nothing asked
    ensures !CanQuery(p.version, p.conduit) ==>
      !r.val && r.ctx.ssbdState == SsbdUnknown && r.ctx.fwLog == ctx.fwLog && r.ctx.notices == ctx.notices
    // the firmware's classification
    ensures CanQuery(p.version, p.conduit) && inp.wa2 == NotSupported ==>
      && !r.val && r.ctx.ssbdState == SsbdUnknown && r.ctx.notices == ctx.notices
      && r.ctx.fwLog == ctx.fwLog + [FwCall(p.conduit, ArchFeatures(Workaround2))]
    ensures CanQuery(p.version, p.conduit) && inp.wa2 == NotRequired ==>
      && !r.val && r.ctx.ssbdState == SsbdMitigated && r.ctx.notices == Once(ctx.notices, SsbdNotRequired)
      && r.ctx.fwLog == ctx.fwLog + [FwCall(p.conduit, ArchFeatures(Workaround2))]
    ensures CanQuery(p.version, p.conduit) && inp.wa2 == Other ==>
      && !r.val && r.ctx.ssbdState == RequestedState(p, ctx) && r.ctx.notices == ctx.notices
      && r.ctx.fwLog == ctx.fwLog + [FwCall(p.conduit, ArchFeatures(Workaround2))]
    // SUCCESS (required) or 1 (not required on this CPU), then the policy
    ensures CanQuery(p.version, p.conduit) && (inp.wa2 == Success || inp.wa2 == One) ==>
      var query := ctx.fwLog + [FwCall(p.conduit, ArchFeatures(Workaround2))];
      var required := inp.wa2 == Success;
      && r.ctx.ssbdState == RequestedState(p, ctx)
      && (RequestedState(p, ctx) == SsbdForceDisable ==>
            && !r.val && r.ctx.fwLog == query + Toggle(p, false)
            && r.ctx.notices == Toggled(p, Once(ctx.notices, SsbdDisabledFromCommandLine)))
      && (RequestedState(p, ctx) == SsbdForceEnable ==>
            && r.val && r.ctx.fwLog == query + Toggle(p, true)
            && r.ctx.notices == Toggled(p, Once(ctx.notices, SsbdForcedFromCommandLine)))
      && (RequestedState(p, ctx) == SsbdKernel ==>
            && (r.val <==> required) && r.ctx.fwLog == query + (if required then Toggle(p, true) else [])
            && r.ctx.notices == if required then Toggled(p, ctx.notices) else ctx.notices)
      && (RequestedState(p, ctx) == SsbdUnknown || RequestedState(p, ctx) == SsbdMitigated ==>
            (r.val <==> required) && r.ctx.fwLog == query && r.ctx.notices == ctx.notices)
    // the per-CPU callback flag is set only here, only for this CPU
    ensures r.ctx.ssbdCallbackRequired ==
      if CanQuery(p.version, p.conduit) && inp.wa2 == Success && RequestedState(p, ctx) == SsbdKernel
      then ctx.ssbdCallbackRequired[cpu := true]
      else ctx.ssbdCallbackRequired
    // the Spectre-v2 state is untouched; the context's invariant is kept
    ensures r.ctx.spectreV2Safe == ctx.spectreV2Safe && r.ctx.hardenBpEnabled == ctx.hardenBpEnabled
    ensures r.ctx.bp == ctx.bp
  {
    var safe := KnownInvulnerable(inp);
    var c0 := ctx.(ssbdState := RequestedState(p, ctx));
    // SMCCC 1.0 and a missing conduit take the same early exit
    if !CanQuery(p.version, p.conduit) then NoFirmwareAnswer(c0, safe)
    else Classify(p, c0.(fwLog := c0.fwLog + [FwCall(p.conduit, ArchFeatures(Workaround2))]), cpu, inp.wa2, safe)
  }


  /** has_ssbd_mitigation keeps the context's invariant and never raises a
      global flag. */
  lemma HasSsbdMitigationKeepsValid(p: Platform, ctx: Context, cpu: nat, inp: CpuInputs)
    requires Valid(p, ctx) && HasCpu(ctx, cpu)
    ensures var r := HasSsbdMitigation(p, ctx, cpu, inp, ScopeLocalCpu);
      Valid(p, r.ctx) && FlagsNotRaised(ctx, r.ctx)
  {
    var r := HasSsbdMitigation(p, ctx, cpu, inp, ScopeLocalCpu);
    assert forall k | 0 <= k < |r.ctx.fwLog| :: Issued(r.ctx.fwLog[k]) by {
      if CanQuery(p.version, p.conduit) {
        var q := ctx.fwLog + [FwCall(p.conduit, ArchFeatures(Workaround2))];
        assert forall k | 0 <= k < |q| :: Issued(q[k]);
        assert forall k | 0 <= k < |Toggle(p, true)| :: Issued(Toggle(p, true)[k]);
        assert forall k | 0 <= k < |Toggle(p, false)| :: Issued(Toggle(p, false)[k]);
      }
    }
  }
}
