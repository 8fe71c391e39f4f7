/** The arm64_errata table: one capability descriptor per erratum or
    mitigation, the macros that build the MIDR-based matchers, and what the
    table as a whole promises for each build configuration. */
module ErrataTable {
  import opened Base
  import opened Midr
  import opened State

  /** ARM64_CPUCAP_LOCAL_CPU_ERRATUM, the only capability type the table
      uses: detected per CPU, and a late CPU that has it is allowed. */
  datatype CapType = LocalCpuErratum

  /** The `.matches` hook of a descriptor, with the data the hook reads
      from the descriptor: is_affected_midr_range with `.midr_range`,
      is_affected_midr_range_list with `.midr_range_list`,
      has_mismatched_cache_type, check_branch_predictor, and
      has_ssbd_mitigation with `.midr_range_list`. */
  datatype Matcher =
    | MatchMidrRange(range: MidrRange)
    | MatchMidrRangeList(list: seq<MidrRange>)
    | MatchMismatchedCacheType
    | MatchBranchPredictor
    | MatchSsbd(ssbCpus: seq<MidrRange>)

  /** The `.cpu_enable` hooks: cpu_enable_cache_maint_trap and
      cpu_enable_trap_ctr_access. */
  datatype Enable = EnableCacheMaintTrap | EnableTrapCtrAccess

  /** struct arm64_cpu_capabilities, restricted to the fields the table
      sets. */
  datatype Descriptor = Descriptor(
    desc: Option<string>,
    capability: Capability,
    capType: CapType,
    matcher: Matcher,
    cpuEnable: Option<Enable>)

  /** The part of a descriptor the ERRATA_* macros fill in: the type and
      the matcher. */
  datatype Initializer = Initializer(capType: CapType, matcher: Matcher)

  /** The Kconfig options that select table entries. */
  datatype ErrataConfig = ErrataConfig(
    erratum826319: bool,
    erratum827319: bool,
    erratum824069: bool,
    erratum819472: bool,
    erratum832075: bool,
    erratum834220: bool,
    erratum845719: bool,
    cavium23154: bool,
    cavium27456: bool)

  /** The matcher decides from the CPU's identity alone. */
  predicate MidrMatcher(m: Matcher)
  {
    m.MatchMidrRange? || m.MatchMidrRangeList?
  }

  /** The identities an identity-based matcher fires for. */
  predicate Affects(m: Matcher, id: Identity)
    requires MidrMatcher(m)
  {
    match m
    case MatchMidrRange(r) => Contains(r, id)
    case MatchMidrRangeList(list) => exists i | 0 <= i < |list| :: Contains(list[i], id)
  }

  /** ERRATA_MIDR_RANGE(model, v_min, r_min, v_max, r_max): a per-CPU
      erratum for the identities from (v_min, r_min) to (v_max, r_max). */
  function ErrataMidrRange(model: Model, vMin: Nibble, rMin: Nibble, vMax: Nibble, rMax: Nibble): (r: Initializer)
    ensures r.capType == LocalCpuErratum && MidrMatcher(r.matcher)
    // it fires exactly for the named model's identities between the bounds
    ensures forall id :: Affects(r.matcher, id) <==>
      id.model == model && RevLe(vMin, rMin, id.variant, id.revision) && RevLe(id.variant, id.revision, vMax, rMax)
    // in particular for both bounds exactly when they are ordered
    ensures Affects(r.matcher, Identity(model, vMin, rMin)) <==> RevLe(vMin, rMin, vMax, rMax)
    ensures Affects(r.matcher, Identity(model, vMax, rMax)) <==> RevLe(vMin, rMin, vMax, rMax)
  {
    Initializer(LocalCpuErratum, MatchMidrRange(Range(model, vMin, rMin, vMax, rMax)))
  }

  /** ERRATA_MIDR_REV_RANGE(m, var, r_min, r_max): revisions r_min..r_max
      of one variant. */
  function ErrataMidrRevRange(model: Model, variant: Nibble, rMin: Nibble, rMax: Nibble): (r: Initializer)
    ensures r.capType == LocalCpuErratum && MidrMatcher(r.matcher)
    ensures forall id :: Affects(r.matcher, id) <==>
      id.model == model && id.variant == variant && rMin <= id.revision <= rMax
  {
    ErrataMidrRange(model, variant, rMin, variant, rMax)
  }

  /** ERRATA_MIDR_REV(model, var, rev): exactly one variant and revision. */
  function ErrataMidrRev(model: Model, variant: Nibble, rev: Nibble): (r: Initializer)
    ensures r.capType == LocalCpuErratum && MidrMatcher(r.matcher)
    ensures forall id :: Affects(r.matcher, id) <==> id == Identity(model, variant, rev)
  {
    ErrataMidrRange(model, variant, rev, variant, rev)
  }

  /** ERRATA_MIDR_ALL_VERSIONS(model): every variant and revision. */
  function ErrataMidrAllVersions(model: Model): (r: Initializer)
    ensures r.capType == LocalCpuErratum && MidrMatcher(r.matcher)
    ensures forall id :: Affects(r.matcher, id) <==> id.model == model
  {
    Initializer(LocalCpuErratum, MatchMidrRange(AllVersions(model)))
  }

  /** ERRATA_MIDR_RANGE_LIST(list): any identity some range of the list
      covers. */
  function ErrataMidrRangeList(list: seq<MidrRange>): (r: Initializer)
    ensures r.capType == LocalCpuErratum && MidrMatcher(r.matcher)
    ensures forall id :: Affects(r.matcher, id) <==> exists i | 0 <= i < |list| :: Contains(list[i], id)
  {
    Initializer(LocalCpuErratum, MatchMidrRangeList(list))
  }

  /** A descriptor whose type and matcher come from an ERRATA_* macro. */
  function Erratum(desc: string, cap: Capability, init: Initializer, enable: Option<Enable>): Descriptor
  {
    Descriptor(Some(desc), cap, init.capType, init.matcher, enable)
  }

  /** The entries of the table, in table order. */
  const Entry826319: Descriptor :=
    Erratum("ARM errata 826319, 827319, 824069", WorkaroundCleanCache,
            ErrataMidrRevRange(CortexA53, 0, 0, 2), Some(EnableCacheMaintTrap))
  const Entry819472: Descriptor :=
    Erratum("ARM errata 819472", WorkaroundCleanCache,
            ErrataMidrRevRange(CortexA53, 0, 0, 1), Some(EnableCacheMaintTrap))
  const Entry832075: Descriptor :=
    Erratum("ARM erratum 832075", WorkaroundDeviceLoadAcquire,
            ErrataMidrRange(CortexA57, 0, 0, 1, 2), None)
  const Entry834220: Descriptor :=
    Erratum("ARM erratum 834220", Workaround834220,
            ErrataMidrRange(CortexA57, 0, 0, 1, 2), None)
  const Entry845719: Descriptor :=
    Erratum("ARM erratum 845719", Workaround845719,
            ErrataMidrRevRange(CortexA53, 0, 0, 4), None)
  const EntryCavium23154: Descriptor :=
    Erratum("Cavium erratum 23154", WorkaroundCavium23154,
            ErrataMidrRevRange(ThunderX, 0, 0, 1), None)
  const EntryCavium27456T88: Descriptor :=
    Erratum("Cavium erratum 27456", WorkaroundCavium27456,
            ErrataMidrRange(ThunderX, 0, 0, 1, 1), None)
  const EntryCavium27456T81: Descriptor :=
    Erratum("Cavium erratum 27456", WorkaroundCavium27456,
            ErrataMidrRev(ThunderX81xx, 0, 0), None)
  const EntryCacheLineSize: Descriptor :=
    Descriptor(Some("Mismatched cache line size"), MismatchedCacheLineSize, LocalCpuErratum,
               MatchMismatchedCacheType, Some(EnableTrapCtrAccess))
  const EntryCacheType: Descriptor :=
    Descriptor(Some("Mismatched cache type"), MismatchedCacheType, LocalCpuErratum,
               MatchMismatchedCacheType, Some(EnableTrapCtrAccess))
  const EntryHardenBp: Descriptor :=
    Descriptor(None, HardenBranchPredictor, LocalCpuErratum, MatchBranchPredictor, None)
  const EntrySsbd: Descriptor :=
    Descriptor(Some("Speculative Store Bypass Disable"), SsbdCapability, LocalCpuErratum,
               MatchSsbd(ArmSsbCpus), None)

  /** The entries every build has, last in the table. */
  const AlwaysPresent: seq<Descriptor> := [EntryCacheLineSize, EntryCacheType, EntryHardenBp, EntrySsbd]

  /** `entries` when the preprocessor condition `on` holds, nothing
      otherwise. */
  function If(on: bool, entries: seq<Descriptor>): seq<Descriptor>
  {
    if on then entries else []
  }

  /** The #if / #ifdef blocks, one function each. */
  function Block826319(cfg: ErrataConfig): seq<Descriptor>
  {
    If(cfg.erratum826319 || cfg.erratum827319 || cfg.erratum824069, [Entry826319])
  }
  function Block819472(cfg: ErrataConfig): seq<Descriptor> { If(cfg.erratum819472, [Entry819472]) }
  function Block832075(cfg: ErrataConfig): seq<Descriptor> { If(cfg.erratum832075, [Entry832075]) }
  function Block834220(cfg: ErrataConfig): seq<Descriptor> { If(cfg.erratum834220, [Entry834220]) }
  function Block845719(cfg: ErrataConfig): seq<Descriptor> { If(cfg.erratum845719, [Entry845719]) }
  function BlockCavium23154(cfg: ErrataConfig): seq<Descriptor> { If(cfg.cavium23154, [EntryCavium23154]) }
  function BlockCavium27456(cfg: ErrataConfig): seq<Descriptor>
  {
    If(cfg.cavium27456, [EntryCavium27456T88, EntryCavium27456T81])
  }

  /** arm64_errata for a build configuration; the empty sentinel that ends
      the C array is not part of the sequence. Every build ends with the
      four unconditional entries, and at most eight more are configurable. */
  function ArmErrata(cfg: ErrataConfig): (r: seq<Descriptor>)
    ensures 4 <= |r| <= 12
    ensures r[|r| - 4..] == AlwaysPresent
    // a table of just the unconditional entries is exactly the build
    // selecting none of the errata options
    ensures |r| == 4 <==>
      !(cfg.erratum826319 || cfg.erratum827319 || cfg.erratum824069 || cfg.erratum819472 ||
        cfg.erratum832075 || cfg.erratum834220 || cfg.erratum845719 || cfg.cavium23154 || cfg.cavium27456)
  {
    Block826319(cfg) + Block819472(cfg) + Block832075(cfg) + Block834220(cfg) +
    Block845719(cfg) + BlockCavium23154(cfg) + BlockCavium27456(cfg) + AlwaysPresent
  }

  /** The table lists capability `cap`. */
  predicate Lists(t: seq<Descriptor>, cap: Capability)
  {
    exists d | d in t :: d.capability == cap
  }

  /** Which Kconfig options bring in each capability. */
  predicate Configured(cfg: ErrataConfig, cap: Capability)
  {
    match cap
    case WorkaroundCleanCache =>
      cfg.erratum826319 || cfg.erratum827319 || cfg.erratum824069 || cfg.erratum819472
    case WorkaroundDeviceLoadAcquire => cfg.erratum832075
    case Workaround834220 => cfg.erratum834220
    case Workaround845719 => cfg.erratum845719
    case WorkaroundCavium23154 => cfg.cavium23154
    case WorkaroundCavium27456 => cfg.cavium27456
    case _ => true
  }

  /** The identities the comments on the entries name: Cortex-A53 r0p0-r0p2
      and r0p0-r0p1, Cortex-A57 r0p0-r1p2, Cortex-A53 r0p0-r0p4, ThunderX
      pass 1.x, ThunderX T88 pass 1.x-2.1 and T81 pass 1.0. Pass N.M is
      variant N-1, revision M, and pass N.x is every revision of variant
      N-1. */
  predicate Documented(cfg: ErrataConfig, cap: Capability, id: Identity)
  {
    match cap
    case WorkaroundCleanCache =>
      id.model == CortexA53 && id.variant == 0 &&
      (((cfg.erratum826319 || cfg.erratum827319 || cfg.erratum824069) && id.revision <= 2) ||
       (cfg.erratum819472 && id.revision <= 1))
    case WorkaroundDeviceLoadAcquire =>
      cfg.erratum832075 && id.model == CortexA57 && (id.variant == 0 || (id.variant == 1 && id.revision <= 2))
    case Workaround834220 =>
      cfg.erratum834220 && id.model == CortexA57 && (id.variant == 0 || (id.variant == 1 && id.revision <= 2))
    case Workaround845719 =>
      cfg.erratum845719 && id.model == CortexA53 && id.variant == 0 && id.revision <= 4
    case WorkaroundCavium23154 =>
      cfg.cavium23154 && id.model == ThunderX && id.variant == 0
    case WorkaroundCavium27456 =>
      cfg.cavium27456 &&
      ((id.model == ThunderX && (id.variant == 0 || (id.variant == 1 && id.revision <= 1))) ||
       id == Identity(ThunderX81xx, 0, 0))
    case _ => false
  }

  /** The capabilities the table detects from the CPU's identity. */
  predicate IdentityCap(cap: Capability)
  {
    || cap == WorkaroundCleanCache || cap == WorkaroundDeviceLoadAcquire || cap == Workaround834220
    || cap == Workaround845719 || cap == WorkaroundCavium23154 || cap == WorkaroundCavium27456
  }

  /** Some identity-based entry for `cap` fires for `id`. */
  predicate AffectedBy(t: seq<Descriptor>, cap: Capability, id: Identity)
  {
    exists d | d in t :: d.capability == cap && MidrMatcher(d.matcher) && Affects(d.matcher, id)
  }

  /** What every entry of a build's table satisfies, seen from identity
      `id`: a per-CPU erratum, brought in by its options, matched by
      identity exactly when its capability is an identity-based one, with a
      non-empty range that covers only documented identities. */
  predicate Sound(cfg: ErrataConfig, id: Identity, d: Descriptor)
  {
    && d.capType == LocalCpuErratum
    && Configured(cfg, d.capability)
    && (MidrMatcher(d.matcher) <==> IdentityCap(d.capability))
    && (d.matcher.MatchMidrRange? ==> NonEmpty(d.matcher.range))
    && (MidrMatcher(d.matcher) && Affects(d.matcher, id) ==> Documented(cfg, d.capability, id))
    && (MidrMatcher(d.matcher) && Affects(d.matcher, id) && d.capability == WorkaroundCavium23154 ==>
          id.revision <= 1)
  }

  /** Every entry of every build is sound. */
  lemma {:induction false} ArmErrataSound(cfg: ErrataConfig, id: Identity)
    ensures forall d | d in ArmErrata(cfg) :: Sound(cfg, id, d)
  {
    var p1 := Block826319(cfg);
    var p2 := p1 + Block819472(cfg);
    var p3 := p2 + Block832075(cfg);
    var p4 := p3 + Block834220(cfg);
    var p5 := p4 + Block845719(cfg);
    var p6 := p5 + BlockCavium23154(cfg);
    var p7 := p6 + BlockCavium27456(cfg);
    Sound826319(cfg, id);
    Sound819472(cfg, id);
    SoundAppend(cfg, id, p1, Block819472(cfg));
    Sound832075(cfg, id);
    SoundAppend(cfg, id, p2, Block832075(cfg));
    Sound834220(cfg, id);
    SoundAppend(cfg, id, p3, Block834220(cfg));
    Sound845719(cfg, id);
    SoundAppend(cfg, id, p4, Block845719(cfg));
    SoundCavium23154(cfg, id);
    SoundAppend(cfg, id, p5, BlockCavium23154(cfg));
    SoundCavium27456(cfg, id);
    SoundAppend(cfg, id, p6, BlockCavium27456(cfg));
    SoundAlwaysPresent(cfg, id);
    SoundAppend(cfg, id, p7, AlwaysPresent);
  }

  /** Each block of the table is sound. */
  lemma Sound826319(cfg: ErrataConfig, id: Identity)
    ensures forall d | d in Block826319(cfg) :: Sound(cfg, id, d)
  {}
  lemma Sound819472(cfg: ErrataConfig, id: Identity)
    ensures forall d | d in Block819472(cfg) :: Sound(cfg, id, d)
  {}
  lemma Sound832075(cfg: ErrataConfig, id: Identity)
    ensures forall d | d in Block832075(cfg) :: Sound(cfg, id, d)
  {}
  lemma Sound834220(cfg: ErrataConfig, id: Identity)
    ensures forall d | d in Block834220(cfg) :: Sound(cfg, id, d)
  {}
  lemma Sound845719(cfg: ErrataConfig, id: Identity)
    ensures forall d | d in Block845719(cfg) :: Sound(cfg, id, d)
  {}
  lemma SoundCavium23154(cfg: ErrataConfig, id: Identity)
    ensures forall d | d in BlockCavium23154(cfg) :: Sound(cfg, id, d)
  {}
  lemma SoundCavium27456(cfg: ErrataConfig, id: Identity)
    ensures forall d | d in BlockCavium27456(cfg) :: Sound(cfg, id, d)
  {}
  lemma SoundAlwaysPresent(cfg: ErrataConfig, id: Identity)
    ensures forall d | d in AlwaysPresent :: Sound(cfg, id, d)
  {}

  /** Soundness of two runs of entries carries over to their
      concatenation. */
  lemma SoundAppend(cfg: ErrataConfig, id: Identity, a: seq<Descriptor>, b: seq<Descriptor>)
    requires forall d | d in a :: Sound(cfg, id, d)
    requires forall d | d in b :: Sound(cfg, id, d)
    ensures forall d | d in a + b :: Sound(cfg, id, d)
  {
  }

  /** The table's first entry for each configured capability. */
  function FirstFor(cfg: ErrataConfig, cap: Capability): (d: Descriptor)
    requires Configured(cfg, cap)
    ensures d in ArmErrata(cfg) && d.capability == cap
  {
    var d :=
      match cap
      case WorkaroundCleanCache =>
        if cfg.erratum826319 || cfg.erratum827319 || cfg.erratum824069 then Entry826319 else Entry819472
      case WorkaroundDeviceLoadAcquire => Entry832075
      case Workaround834220 => Entry834220
      case Workaround845719 => Entry845719
      case WorkaroundCavium23154 => EntryCavium23154
      case WorkaroundCavium27456 => EntryCavium27456T88
      case MismatchedCacheLineSize => EntryCacheLineSize
      case MismatchedCacheType => EntryCacheType
      case HardenBranchPredictor => EntryHardenBp
      case SsbdCapability => EntrySsbd;
    InArmErrata(cfg, d);
    d
  }

  /** An entry of an included block is in the table. */
  lemma InArmErrata(cfg: ErrataConfig, d: Descriptor)
    requires || d in Block826319(cfg) || d in Block819472(cfg) || d in Block832075(cfg)
             || d in Block834220(cfg) || d in Block845719(cfg) || d in BlockCavium23154(cfg)
             || d in BlockCavium27456(cfg) || d in AlwaysPresent
    ensures d in ArmErrata(cfg)
  {}

  /** A capability is listed exactly when its options are selected; in
      particular the last four entries are in every build. */
  lemma ListsIffConfigured(cfg: ErrataConfig, cap: Capability)
    ensures Lists(ArmErrata(cfg), cap) <==> Configured(cfg, cap)
  {
    ArmErrataSound(cfg, Identity(CortexA35, 0, 0));
    if Configured(cfg, cap) {
      var d := FirstFor(cfg, cap);
    }
  }

  /** Each identity-based capability fires for exactly the identities its
      comments name, except that the Cavium 23154 entry covers only
      revisions 0 and 1 of ThunderX pass 1.x. */
  lemma AffectedAsDocumented(cfg: ErrataConfig, cap: Capability, id: Identity)
    ensures cap != WorkaroundCavium23154 ==> (AffectedBy(ArmErrata(cfg), cap, id) <==> Documented(cfg, cap, id))
    ensures cap == WorkaroundCavium23154 ==>
      (AffectedBy(ArmErrata(cfg), cap, id) <==> Documented(cfg, cap, id) && id.revision <= 1)
  {
    ArmErrataSound(cfg, id);
    if Documented(cfg, cap, id) {
      match cap
      case WorkaroundCleanCache => DocumentedCleanCache(cfg, id);
      case WorkaroundDeviceLoadAcquire => InArmErrata(cfg, Entry832075); Witness(ArmErrata(cfg), id, Entry832075);
      case Workaround834220 => InArmErrata(cfg, Entry834220); Witness(ArmErrata(cfg), id, Entry834220);
      case Workaround845719 => InArmErrata(cfg, Entry845719); Witness(ArmErrata(cfg), id, Entry845719);
      case WorkaroundCavium23154 =>
        if id.revision <= 1 {
          InArmErrata(cfg, EntryCavium23154);
          Witness(ArmErrata(cfg), id, EntryCavium23154);
        }
      case WorkaroundCavium27456 => DocumentedCavium27456(cfg, id);
    }
  }

  /** ThunderX r0p2 is pass 1.x, named by the Cavium 23154 comment, yet no
      entry of the table fires for it under that capability. */
  lemma Cavium23154CommentGap(cfg: ErrataConfig)
    requires cfg.cavium23154
    ensures Documented(cfg, WorkaroundCavium23154, Identity(ThunderX, 0, 2))
    ensures !AffectedBy(ArmErrata(cfg), WorkaroundCavium23154, Identity(ThunderX, 0, 2))
  {
    AffectedAsDocumented(cfg, WorkaroundCavium23154, Identity(ThunderX, 0, 2));
  }

  /** An entry of the table that fires for `id` makes its capability
      affect `id`. */
  lemma Witness(t: seq<Descriptor>, id: Identity, d: Descriptor)
    requires d in t && MidrMatcher(d.matcher) && Affects(d.matcher, id)
    ensures AffectedBy(t, d.capability, id)
  {
  }

  /** The two clean-cache entries together cover the documented
      Cortex-A53 revisions. */
  lemma DocumentedCleanCache(cfg: ErrataConfig, id: Identity)
    requires Documented(cfg, WorkaroundCleanCache, id)
    ensures AffectedBy(ArmErrata(cfg), WorkaroundCleanCache, id)
  {
    if (cfg.erratum826319 || cfg.erratum827319 || cfg.erratum824069) && id.revision <= 2 {
      InArmErrata(cfg, Entry826319);
      Witness(ArmErrata(cfg), id, Entry826319);
    } else {
      InArmErrata(cfg, Entry819472);
      Witness(ArmErrata(cfg), id, Entry819472);
    }
  }

  /** The T88 and T81 entries together cover the documented ThunderX
      passes. */
  lemma DocumentedCavium27456(cfg: ErrataConfig, id: Identity)
    requires Documented(cfg, WorkaroundCavium27456, id)
    ensures AffectedBy(ArmErrata(cfg), WorkaroundCavium27456, id)
  {
    if id.model == ThunderX {
      assert EntryCavium27456T88.matcher == MatchMidrRange(Range(ThunderX, 0, 0, 1, 1));
      assert Affects(EntryCavium27456T88.matcher, id);
      InArmErrata(cfg, EntryCavium27456T88);
      Witness(ArmErrata(cfg), id, EntryCavium27456T88);
    } else {
      InArmErrata(cfg, EntryCavium27456T81);
      Witness(ArmErrata(cfg), id, EntryCavium27456T81);
    }
  }
}

