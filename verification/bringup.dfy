/** CPU bring-up as this file's matchers see it: on each CPU, in turn, every
    descriptor of the errata table has its matcher run on that CPU, and the
    context the matchers share is threaded from one call to the next. What
    the whole machine then reports depends only on the per-CPU inputs. */
module Bringup {
  import opened Base
  import opened Smccc
  import opened Midr
  import opened State
  import opened SpectreV2
  import opened Ssbd
  import opened CacheType
  import opened ErrataTable
  import opened Reporting

  /** arm64_ftr_reg_ctrel0: the system-wide CTR_EL0 value and the mask of
      its strict fields. */
  datatype CtrReg = CtrReg(sysVal: bv64, strictMask: bv64)

  /** One CPU coming up: its number and what its registers and the firmware
      answer on it. */
  datatype CpuBoot = CpuBoot(cpu: nat, inputs: CpuInputs)

  /** The number of possible CPUs the per-CPU data is sized for. */
  function NrCpus(ctx: Context): nat
  {
    |ctx.bp.cpus|
  }

  /** The table has an entry whose matcher is `m`. */
  predicate Runs(t: seq<Descriptor>, m: Matcher)
  {
    exists d | d in t :: d.matcher == m
  }

  /** The table has an entry matched by has_ssbd_mitigation. */
  predicate RunsSsbd(t: seq<Descriptor>)
  {
    exists d | d in t :: d.matcher.MatchSsbd?
  }

  /** Whether the matcher of `d` can fire on a CPU with inputs `inp`. This is
      exact for every matcher but has_ssbd_mitigation, whose answer also
      depends on the SSBD state it finds. For that matcher it is the
      necessary condition: the firmware either requires the mitigation or
      declines it for this CPU only, and mitigations=off does not force it
      off. */
  predicate Fires(p: Platform, ctr: CtrReg, inp: CpuInputs, d: Descriptor)
  {
    match d.matcher
    case MatchMidrRange(range) => inp.inRange(range)
    case MatchMidrRangeList(list) => InRangeList(inp.inRange, list)
    case MatchMismatchedCacheType =>
      HasMismatchedCacheType(d.capability, inp.ctr, ctr.sysVal, ctr.strictMask, ScopeLocalCpu)
    case MatchBranchPredictor => !Shortcut(inp) && FirmwareMitigates(p, inp) && HardeningAllowed(p)
    case MatchSsbd(_) => CanQuery(p.version, p.conduit) && (inp.wa2 == Success || inp.wa2 == One) && !p.mitigationsOff
  }

  /** The `.matches` hook of `d` run on CPU `cpu`. has_ssbd_mitigation reads
      the descriptor's range list, which in the table is arm64_ssb_cpus,
      the list the SSBD model consults. */
  function Match(p: Platform, ctr: CtrReg, ctx: Context, cpu: nat, inp: CpuInputs, d: Descriptor): (r: Outcome<Step<bool>>)
    requires Valid(p, ctx) && HasCpu(ctx, cpu)
    ensures r.Ok? ==> Valid(p, r.value.ctx) && FlagsNotRaised(ctx, r.value.ctx)
    ensures r.Ok? ==> NrCpus(r.value.ctx) == NrCpus(ctx)
    // the global flags move only under their own matcher
    ensures r.Ok? ==>
      r.value.ctx.spectreV2Safe == (ctx.spectreV2Safe && (d.matcher == MatchBranchPredictor ==> CpuSafe(p, inp)))
    ensures r.Ok? ==> (r.value.ctx.hardenBpEnabled <==>
      ctx.hardenBpEnabled &&
      (d.matcher == MatchBranchPredictor ==>
         CpuSafe(p, inp) || (FirmwareMitigates(p, inp) && HardeningAllowed(p))))
    ensures r.Ok? ==> r.value.ctx.ssbSafe == (ctx.ssbSafe && (d.matcher.MatchSsbd? ==> SsbSafeCpu(p, inp)))
    // the hook fires only when it can, and every hook but the SSBD one fires whenever it can
    ensures r.Ok? && r.value.val ==> Fires(p, ctr, inp, d)
    ensures r.Ok? && !d.matcher.MatchSsbd? && Fires(p, ctr, inp, d) ==> r.value.val
    // identity matchers decide from the CPU's identity
    ensures d.matcher.MatchMidrRange? ==> r == Ok(Step(ctx, inp.inRange(d.matcher.range)))
    ensures d.matcher.MatchMidrRangeList? ==> r == Ok(Step(ctx, InRangeList(inp.inRange, d.matcher.list)))
    // only the branch predictor allocator can stop the kernel
    ensures r.Bug? ==>
      d.matcher == MatchBranchPredictor && !Shortcut(inp) && FirmwareMitigates(p, inp) &&
      p.config.hardenBranchPredictor && p.config.kvm
  {
    match d.matcher
    case MatchMidrRange(range) => Ok(Step(ctx, inp.inRange(range)))
    case MatchMidrRangeList(list) => Ok(Step(ctx, InRangeList(inp.inRange, list)))
    case MatchMismatchedCacheType =>
      Ok(Step(ctx, HasMismatchedCacheType(d.capability, inp.ctr, ctr.sysVal, ctr.strictMask, ScopeLocalCpu)))
    case MatchBranchPredictor =>
      CheckBranchPredictorKeepsValid(p, ctx, cpu, inp);
      CheckBranchPredictor(p, ctx, cpu, inp, ScopeLocalCpu)
    case MatchSsbd(_) =>
      HasSsbdMitigationKeepsValid(p, ctx, cpu, inp);
      Ok(HasSsbdMitigation(p, ctx, cpu, inp, ScopeLocalCpu))
  }

  /** Every matcher of table `t` run on CPU `cpu`, in table order; the value
      is the set of capabilities the CPU was found to have. */
  function MatchAll(p: Platform, ctr: CtrReg, ctx: Context, cpu: nat, inp: CpuInputs, t: seq<Descriptor>): (r: Outcome<Step<set<Capability>>>)
    requires Valid(p, ctx) && HasCpu(ctx, cpu)
    ensures r.Ok? ==> Valid(p, r.value.ctx) && FlagsNotRaised(ctx, r.value.ctx)
    ensures r.Ok? ==> NrCpus(r.value.ctx) == NrCpus(ctx)
    ensures r.Ok? ==>
      r.value.ctx.spectreV2Safe == (ctx.spectreV2Safe && (Runs(t, MatchBranchPredictor) ==> CpuSafe(p, inp)))
    ensures r.Ok? ==> (r.value.ctx.hardenBpEnabled <==>
      ctx.hardenBpEnabled &&
      (Runs(t, MatchBranchPredictor) ==>
         CpuSafe(p, inp) || (FirmwareMitigates(p, inp) && HardeningAllowed(p))))
    ensures r.Ok? ==> r.value.ctx.ssbSafe == (ctx.ssbSafe && (RunsSsbd(t) ==> SsbSafeCpu(p, inp)))
    // a capability is found only through an entry for it whose hook can fire,
    // and every entry whose hook fires (SSBD aside) has its capability found
    ensures r.Ok? ==> forall c | c in r.value.val :: exists d | d in t :: d.capability == c && Fires(p, ctr, inp, d)
    ensures r.Ok? ==> forall d | d in t && !d.matcher.MatchSsbd? && Fires(p, ctr, inp, d) ::
      d.capability in r.value.val
    ensures r.Bug? ==>
      Runs(t, MatchBranchPredictor) && !Shortcut(inp) && FirmwareMitigates(p, inp) &&
      p.config.hardenBranchPredictor && p.config.kvm
    decreases |t|
  {
    if t == [] then Ok(Step(ctx, {}))
    else
      match Match(p, ctr, ctx, cpu, inp, t[0])
      case Bug => Bug
      case Ok(Step(c1, hit)) =>
        match MatchAll(p, ctr, c1, cpu, inp, t[1..])
        case Bug => Bug
        case Ok(Step(c2, found)) =>
          assert forall d | d in t[1..] :: d in t;
          assert t == [t[0]] + t[1..];
          Ok(Step(c2, (if hit then {t[0].capability} else {}) + found))
  }

  /** The per-CPU verdicts the global flags combine: safe from Spectre-v2
      on its own, covered (safe, or hardened through the firmware), and
      safe from speculative store bypass. */
  datatype Verdict = SpectreV2Safe | Covered | SsbSafe

  /** CPU inputs `inp` earn verdict `v` on platform `p`. */
  predicate Earns(p: Platform, v: Verdict, inp: CpuInputs)
  {
    match v
    case SpectreV2Safe => CpuSafe(p, inp)
    case Covered => CpuSafe(p, inp) || (FirmwareMitigates(p, inp) && HardeningAllowed(p))
    case SsbSafe => SsbSafeCpu(p, inp)
  }

  /** Every CPU of `cpus` earns verdict `v`. */
  predicate Every(p: Platform, v: Verdict, cpus: seq<CpuBoot>)
  {
    forall k | 0 <= k < |cpus| :: Earns(p, v, cpus[k].inputs)
  }

  /** The CPU takes check_branch_predictor's firmware path and has the
      workaround: the only way to reach the allocator. */
  predicate Installs(p: Platform, inp: CpuInputs)
  {
    !Shortcut(inp) && FirmwareMitigates(p, inp)
  }

  /** Some CPU of `cpus` reaches the allocator. */
  predicate SomeInstalls(p: Platform, cpus: seq<CpuBoot>)
  {
    exists k | 0 <= k < |cpus| :: Installs(p, cpus[k].inputs)
  }

  /** Splitting off the first CPU. */
  lemma EveryCons(p: Platform, cpus: seq<CpuBoot>)
    requires cpus != []
    ensures forall v :: Every(p, v, cpus) <==> Earns(p, v, cpus[0].inputs) && Every(p, v, cpus[1..])
    ensures SomeInstalls(p, cpus) <==> Installs(p, cpus[0].inputs) || SomeInstalls(p, cpus[1..])
  {
  }

  /** The CPUs' numbers are possible CPUs of a context sized for `nrCpus`. */
  predicate Possible(nrCpus: nat, cpus: seq<CpuBoot>)
  {
    forall k | 0 <= k < |cpus| :: cpus[k].cpu < nrCpus
  }

  /** The CPUs of `cpus` come up in order, starting from `ctx`. */
  function Run(p: Platform, ctr: CtrReg, t: seq<Descriptor>, ctx: Context, cpus: seq<CpuBoot>): (r: Outcome<Context>)
    requires Valid(p, ctx) && Possible(NrCpus(ctx), cpus)
    ensures r.Ok? ==> Valid(p, r.value) && FlagsNotRaised(ctx, r.value) && NrCpus(r.value) == NrCpus(ctx)
    // each flag is the conjunction of the per-CPU verdicts
    ensures r.Ok? ==>
      (r.value.spectreV2Safe <==>
         ctx.spectreV2Safe && (Runs(t, MatchBranchPredictor) ==> Every(p, SpectreV2Safe, cpus)))
    ensures r.Ok? ==>
      (r.value.hardenBpEnabled <==>
         ctx.hardenBpEnabled && (Runs(t, MatchBranchPredictor) ==> Every(p, Covered, cpus)))
    ensures r.Ok? ==>
      (r.value.ssbSafe <==> ctx.ssbSafe && (RunsSsbd(t) ==> Every(p, SsbSafe, cpus)))
    // a BUG_ON needs a CPU that reaches the allocator with KVM built in
    ensures r.Bug? ==>
      p.config.kvm && p.config.hardenBranchPredictor && Runs(t, MatchBranchPredictor) && SomeInstalls(p, cpus)
    decreases |cpus|
  {
    if cpus == [] then Ok(ctx)
    else
      EveryCons(p, cpus);
      match MatchAll(p, ctr, ctx, cpus[0].cpu, cpus[0].inputs, t)
      case Bug => Bug
      case Ok(Step(c1, _)) => Run(p, ctr, t, c1, cpus[1..])
  }

  /** The table of every build runs check_branch_predictor and
      has_ssbd_mitigation. */
  lemma ArmErrataRunsMitigations(cfg: ErrataConfig)
    ensures Runs(ArmErrata(cfg), MatchBranchPredictor) && RunsSsbd(ArmErrata(cfg))
  {
    InArmErrata(cfg, EntryHardenBp);
    InArmErrata(cfg, EntrySsbd);
  }

  /** When the CPU's identity ranges are read from identity `id`, an
      identity entry's hook fires exactly when the entry covers `id`. */
  lemma FiresIsAffects(p: Platform, ctr: CtrReg, inp: CpuInputs, id: Identity, d: Descriptor)
    requires MidrMatcher(d.matcher)
    requires forall r :: inp.inRange(r) == Contains(r, id)
    ensures Fires(p, ctr, inp, d) <==> Affects(d.matcher, id)
  {
    if d.matcher.MatchMidrRangeList? {
      var list := d.matcher.list;
      if Affects(d.matcher, id) {
        var i :| 0 <= i < |list| && Contains(list[i], id);
        assert inp.inRange(list[i]);
      }
    }
  }

  /** On a CPU of identity `id`, running a table whose identity-based
      capabilities are exactly those with identity matchers finds such a
      capability exactly when some entry for it covers `id`. */
  lemma FoundIffAffected(
    p: Platform, ctr: CtrReg, t: seq<Descriptor>, ctx: Context, cpu: nat, inp: CpuInputs, id: Identity, cap: Capability)
    requires Valid(p, ctx) && HasCpu(ctx, cpu)
    requires forall r :: inp.inRange(r) == Contains(r, id)
    requires forall d | d in t :: MidrMatcher(d.matcher) <==> IdentityCap(d.capability)
    requires IdentityCap(cap)
    ensures var r := MatchAll(p, ctr, ctx, cpu, inp, t);
      r.Ok? ==> (cap in r.value.val <==> AffectedBy(t, cap, id))
  {
    var r := MatchAll(p, ctr, ctx, cpu, inp, t);
    if r.Ok? {
      if cap in r.value.val {
        var d :| d in t && d.capability == cap && Fires(p, ctr, inp, d);
        FiresIsAffects(p, ctr, inp, id, d);
      }
      if AffectedBy(t, cap, id) {
        var d :| d in t && d.capability == cap && MidrMatcher(d.matcher) && Affects(d.matcher, id);
        FiresIsAffects(p, ctr, inp, id, d);
      }
    }
  }

  /** On a CPU of identity `id`, running a build's table finds an
      identity-based capability exactly when the entries' comments name
      `id`; for Cavium 23154, only for its revisions 0 and 1. */
  lemma FoundAsDocumented(
    p: Platform, ctr: CtrReg, cfg: ErrataConfig, ctx: Context, cpu: nat, inp: CpuInputs, id: Identity, cap: Capability)
    requires Valid(p, ctx) && HasCpu(ctx, cpu)
    requires forall r :: inp.inRange(r) == Contains(r, id)
    requires IdentityCap(cap)
    ensures var r := MatchAll(p, ctr, ctx, cpu, inp, ArmErrata(cfg));
      r.Ok? && cap != WorkaroundCavium23154 ==> (cap in r.value.val <==> Documented(cfg, cap, id))
    ensures var r := MatchAll(p, ctr, ctx, cpu, inp, ArmErrata(cfg));
      r.Ok? && cap == WorkaroundCavium23154 ==> (cap in r.value.val <==> Documented(cfg, cap, id) && id.revision <= 1)
  {
    ArmErrataSound(cfg, id);
    FoundIffAffected(p, ctr, ArmErrata(cfg), ctx, cpu, inp, id, cap);
    AffectedAsDocumented(cfg, cap, id);
  }

  /** What the sysfs spectre_v2 file reports after bring-up: not affected
      exactly when every CPU is safe on its own; hardened exactly when some
      CPU is not, but every such CPU has the firmware workaround and
      hardening is built in and not switched off; vulnerable otherwise. */
  lemma {:induction false} SpectreV2Report(
    p: Platform, ctr: CtrReg, cfg: ErrataConfig, nrCpus: nat, ssbdState: SsbdState, cpus: seq<CpuBoot>)
    requires Possible(nrCpus, cpus)
    ensures
      var r := Run(p, ctr, ArmErrata(cfg), Initial(nrCpus, ssbdState), cpus);
      r.Ok? ==>
        && (CpuShowSpectreV2(r.value) == NotAffected <==> Every(p, SpectreV2Safe, cpus))
        && (CpuShowSpectreV2(r.value) == Reporting.BpHardening <==>
              !Every(p, SpectreV2Safe, cpus) && Every(p, Covered, cpus))
        && (CpuShowSpectreV2(r.value) == Vulnerable <==> !Every(p, Covered, cpus))
  {
    ArmErrataRunsMitigations(cfg);
    assert Every(p, SpectreV2Safe, cpus) ==> Every(p, Covered, cpus) by {
      if Every(p, SpectreV2Safe, cpus) {
        forall k | 0 <= k < |cpus| ensures Earns(p, Covered, cpus[k].inputs) {
          assert Earns(p, SpectreV2Safe, cpus[k].inputs);
        }
      }
    }
  }

  /** What the sysfs spec_store_bypass file reports after bring-up: not
      affected exactly when every CPU leaves __ssb_safe set. */
  lemma {:induction false} SpecStoreBypassReport(
    p: Platform, ctr: CtrReg, cfg: ErrataConfig, nrCpus: nat, ssbdState: SsbdState, cpus: seq<CpuBoot>)
    requires Possible(nrCpus, cpus)
    ensures
      var r := Run(p, ctr, ArmErrata(cfg), Initial(nrCpus, ssbdState), cpus);
      r.Ok? ==> (CpuShowSpecStoreBypass(r.value, p.config.arm64Ssbd) == NotAffected <==> Every(p, SsbSafe, cpus))
  {
    ArmErrataRunsMitigations(cfg);
  }
}
