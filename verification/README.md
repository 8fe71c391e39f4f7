# arm64 CPU errata and speculation mitigations, modelled in Dafny

This project models the per-CPU mitigation logic of the arm64 Linux kernel's
`arch/arm64/kernel/cpu_errata.c`. That code runs on every CPU as it comes up.
The model covers:

- the `arm64_errata` capability table and the `ERRATA_MIDR_*` macros that
  build its identity-based matchers;
- the Spectre-v2 branch predictor hardening path: `check_branch_predictor`,
  then `detect_harden_bp_fw`, then `install_bp_hardening_cb`, the
  hardening-vector slot allocator;
- the Speculative Store Bypass path: `has_ssbd_mitigation`,
  `arm64_set_ssbd_mitigation` and the `ssbd=` option parser `ssbd_cfg`;
- the two alternative-patching callbacks `arm64_update_smccc_conduit` and
  `arm64_enable_wa2_handling`;
- the cache-type matcher `has_mismatched_cache_type` and its
  `cpu_enable_trap_ctr_access`;
- the sysfs reports `cpu_show_spectre_v2` and `cpu_show_spec_store_bypass`.

## How the model is built

The model is a functional state machine.

- The file-scope statics and per-CPU variables live in one immutable
  `State.Context`:
  - `ssbd_state`;
  - the flags `__ssb_safe`, `__spectrev2_safe` and `__hardenbp_enab`;
  - the allocator's `last_slot` and the per-CPU `bp_hardening_data`;
  - the per-CPU `arm64_ssbd_callback_required`;
  - a log of issued firmware calls;
  - the set of "once" notices printed so far.
- Every per-CPU function takes a context and returns a new one.
- These are all inputs:
  - register contents (`ID_AA64PFR0_EL1`, `CTR_EL0`, `SCTLR_EL1`);
  - the firmware's answers to the `SMCCC_ARCH_FEATURES` queries;
  - the negotiated SMCCC version and conduit;
  - the Kconfig switches (`CONFIG_KVM`, `CONFIG_HARDEN_BRANCH_PREDICTOR`,
    `CONFIG_ARM64_SSBD` and the erratum options);
  - the `nospectre_v2` and `mitigations=off` switches.
- A `BUG_ON` is the `Bug` outcome of `Base.Outcome`.

The modules are:

- `Base`: Option, Outcome, Scope, and "print once" logging.
- `Smccc`: conduits, versions and firmware answers.
- `Midr`: identity ranges and the two safe lists.
- `BpHardening`: the slot allocator. It is generic in the callback type.
- `State`: the context and its invariant.
- `SpectreV2`: `detect_harden_bp_fw` and `check_branch_predictor`.
- `Ssbd`: `arm64_set_ssbd_mitigation` and `has_ssbd_mitigation`.
- `SsbdCfg`: the `ssbd=` option parser.
- `Alternatives`: the two patch-site callbacks.
- `CacheType`: the cache-type matcher and its enable hook.
- `Reporting`: the two sysfs reports.
- `ErrataTable`: the table, the macros, and what each build's table covers.
- `Bringup`: every matcher of the table run on each CPU in turn, and what
  the reports then say about the whole machine.

The main system-level results are `Bringup.SpectreV2Report` and
`Bringup.SpecStoreBypassReport`. They run the table of any build
configuration on any sequence of CPUs, starting from the boot context. They
show that each report reads "Not affected" exactly when every CPU is
individually safe. The Spectre-v2 report reads "Mitigation: Branch predictor
hardening" exactly when some CPU is not safe but every CPU is either safe or
has the firmware workaround with hardening enabled; otherwise it reads
"Vulnerable".

`arm64_enable_wa2_handling` (line 277) writes the NOP exactly when
`arm64_get_ssbd_state()` returns `ARM64_SSBD_KERNEL`, and leaves the site
alone otherwise. `arm64_get_ssbd_state` is not part of this model. It is
taken to return `ssbd_state`.

## Model

| member | source | states |
|---|---|---|
| Base.Once | arch/arm64/kernel/cpu_errata.c:290 | a `pr_*_once` notice is in the log afterwards, at most once, and nothing else is added or lost |
| BpHardening.Capacity | arch/arm64/kernel/cpu_errata.c:98-99 | the slot count is the number of whole 2 KiB slots in the vector region |
| BpHardening.Boot | arch/arm64/kernel/cpu_errata.c:84 | at boot `last_slot` is -1, no slot is copied and no CPU holds a callback |
| BpHardening.FirstHolder | arch/arm64/kernel/cpu_errata.c:89-94 | the scan finds the first CPU recording `fn`, and finds none exactly when no CPU records it |
| BpHardening.InstallKvm | arch/arm64/kernel/cpu_errata.c:80-107 | reuse: if some CPU records `fn`, the caller takes its slot, and `last_slot` and the copied slots are unchanged. Allocation: otherwise the call is a BUG exactly when `last_slot + 1` reaches the capacity, and else `fn`'s vectors are copied once into the new slot `last_slot + 1`. Either way the caller records `fn` and no other CPU changes |
| BpHardening.InstallNoKvm | arch/arm64/kernel/cpu_errata.c:114-119 | without KVM only the caller's callback is written; slot, `last_slot` and every other CPU are unchanged |
| BpHardening.Install | arch/arm64/kernel/cpu_errata.c:80-119 | CONFIG_KVM selects between the two variants |
| BpHardening.InstallKvmKeepsWf | arch/arm64/kernel/cpu_errata.c:84-107 | one installation keeps the invariant: recorded slots are at most `last_slot` and below capacity, each holds its CPU's callback, and CPUs sharing a callback share a slot |
| BpHardening.DistinctCallbacksDistinctSlots | arch/arm64/kernel/cpu_errata.c:89-101 | under the invariant, CPUs with different callbacks have different slots |
| BpHardening.InstallAllKeepsWf | arch/arm64/kernel/cpu_errata.c:84-107 | after any sequence of installations, CPUs sharing a callback share a slot and every slot is at most `last_slot` |
| BpHardening.StepReuse | arch/arm64/kernel/cpu_errata.c:89-93 | a request for an already-installed callback always succeeds, allocates nothing, and keeps the bookkeeping |
| BpHardening.StepAllocate | arch/arm64/kernel/cpu_errata.c:96-105 | a request for a new callback succeeds exactly when the distinct callbacks still fit, and keeps the bookkeeping |
| BpHardening.InstallAllOneSlotPerCallback | arch/arm64/kernel/cpu_errata.c:84-107 | when each CPU always asks for the same callback (in this file the callback is fixed by `psci_ops.conduit`, lines 167 and 185), a run of requests from boot hits the BUG exactly when there are more distinct callbacks than slots. Otherwise there is exactly one slot per distinct callback, each copied once, and every requesting CPU records its callback |
| State.Initial | arch/arm64/kernel/cpu_errata.c:455-457 | the three global flags start true, no slot or callback is recorded, no CPU needs the SSBD callback, and the invariant holds |
| SpectreV2.Csv2 | arch/arm64/kernel/cpu_errata.c:481-482 | the CSV2 field is a 4-bit value, zero exactly when bits [59:56] of ID_AA64PFR0_EL1 are clear |
| SpectreV2.DetectHardenBpFw | arch/arm64/kernel/cpu_errata.c:149-202 | SMCCC 1.0 or no conduit gives -1 with no query. Otherwise exactly one feature query is made, and then: answer 1 gives 0 with no install; answer 0 gives 1 and installs the conduit's callback when hardening is built in (HVC with no vectors, SMC with the SMC vectors); any other answer gives -1 |
| SpectreV2.CheckBranchPredictor | arch/arm64/kernel/cpu_errata.c:473-515 | CSV2 or the safe list returns false with nothing changed. Otherwise `__spectrev2_safe` is kept exactly when the firmware says "not required", and `__hardenbp_enab` is kept exactly when the CPU is safe or the firmware mitigates with hardening allowed. The result is true exactly when the workaround is in use. Exactly one notice is printed once for each way hardening is lost (config off, command line off, firmware missing), and none when the CPU is safe or hardened. Only the allocator can BUG |
| SpectreV2.CheckBranchPredictorKeepsValid | arch/arm64/kernel/cpu_errata.c:494-511 | the matcher keeps the context invariant and only ever clears the global flags |
| Ssbd.SetSsbdMitigation | arch/arm64/kernel/cpu_errata.c:287-307 | exactly one `ARCH_WORKAROUND_2(state)` call through the conduit, and no notice, when SSBD is built in and a conduit exists. Otherwise there is no call and exactly the config or no-conduit notice is printed. Nothing else changes |
| Ssbd.SetSsbdMitigationTwice | arch/arm64/kernel/cpu_errata.c:287-307 | two successive requests reach the firmware in order through the conduit when SSBD is built in and a conduit exists; otherwise the second request changes nothing, because the notice is a once-only print. Either way the context invariant is kept |
| Ssbd.ApplyPolicy | arch/arm64/kernel/cpu_errata.c:382-407 | FORCE_DISABLE disables and returns false; FORCE_ENABLE enables and returns true; each prints its command-line notice. KERNEL returns `required`, and when required enables and sets this CPU's callback flag. UNKNOWN and MITIGATED return `required` with no call and no notice. The config notice appears exactly when a toggle is attempted with SSBD compiled out |
| Ssbd.Classify | arch/arm64/kernel/cpu_errata.c:351-380 | NOT_SUPPORTED gives UNKNOWN with no notice. NOT_REQUIRED gives MITIGATED and prints its notice once. SUCCESS clears `__ssb_safe` and requires the mitigation; 1 does not require it. Any other value returns false with no notice. `__ssb_safe` survives exactly as each answer allows |
| Ssbd.HasSsbdMitigation | arch/arm64/kernel/cpu_errata.c:309-408 | `__ssb_safe` is kept exactly when the CPU is SSB-safe given the inputs. mitigations=off forces FORCE_DISABLE first. SMCCC 1.0 and no conduit give UNKNOWN with no query. For every firmware answer, the resulting state, result, firmware calls and notices are exactly the ones the source prescribes. Only this CPU's callback flag can be set, and only for SUCCESS under KERNEL |
| Ssbd.HasSsbdMitigationKeepsValid | arch/arm64/kernel/cpu_errata.c:309-408 | the matcher keeps the context invariant and never raises a global flag |
| SsbdCfg.StrncmpFromZero | arch/arm64/kernel/cpu_errata.c:228 | `strncmp` against a NUL-free string returns 0 exactly when the first n characters agree |
| SsbdCfg.StrncmpIsPrefixTest | arch/arm64/kernel/cpu_errata.c:226-228 | `strncmp(buf, opt, strlen(opt)) == 0` holds exactly when `opt` is a prefix of `buf` |
| SsbdCfg.AtMostOneOption | arch/arm64/kernel/cpu_errata.c:212-216 | no option string is a prefix of another, so at most one option matches any argument |
| SsbdCfg.SsbdCfg | arch/arm64/kernel/cpu_errata.c:218-236 | NULL or empty gives -EINVAL. An argument with an option as prefix returns 0 and selects that option's state (so "kernelX" selects KERNEL). No match gives -EINVAL with the state unchanged |
| Alternatives.UpdateSmcccConduit | arch/arm64/kernel/cpu_errata.c:239-259 | any instruction count other than one, zero included, is a BUG; the site then holds HVC #0 for the HVC conduit and SMC #0 for the SMC conduit, and is unchanged with no conduit |
| Alternatives.EnableWa2Handling | arch/arm64/kernel/cpu_errata.c:267-279 | any instruction count other than one, zero included, is a BUG; the site becomes a NOP exactly when the state is ARM64_SSBD_KERNEL and is unchanged otherwise |
| CacheType.HasMismatchedCacheType | arch/arm64/kernel/cpu_errata.c:35-48 | the line-size check is true exactly when IminLine or DminLine differs from the system value. A CPU equal to the system value never mismatches. The cache-type check ignores non-strict fields and differences in the min-line fields |
| CacheType.CpuEnableTrapCtrAccess | arch/arm64/kernel/cpu_errata.c:50-55 | SCTLR_EL1.UCT is cleared and no other bit changes |
| Reporting.CpuShowSpectreV2 | arch/arm64/kernel/cpu_errata.c:626-636 | "Not affected" exactly when `__spectrev2_safe`; the hardening mitigation exactly when not safe but hardening is enabled; "Vulnerable" otherwise |
| Reporting.CpuShowSpecStoreBypass | arch/arm64/kernel/cpu_errata.c:638-653 | "Not affected" exactly when `__ssb_safe`; the prctl mitigation exactly when not safe, the state is KERNEL or FORCE_ENABLE, and SSBD is built in; "Vulnerable" otherwise |
| ErrataTable.ErrataMidrRange | arch/arm64/kernel/cpu_errata.c:429-431 | a per-CPU erratum that fires exactly for the named model's identities between the bounds, both inclusive, in (variant, revision) order; so it fires for each bound exactly when the bounds are ordered |
| ErrataTable.ErrataMidrRevRange | arch/arm64/kernel/cpu_errata.c:437-439 | fires exactly for the model's given variant with revision between the bounds |
| ErrataTable.ErrataMidrRev | arch/arm64/kernel/cpu_errata.c:441-443 | fires for exactly one identity |
| ErrataTable.ErrataMidrAllVersions | arch/arm64/kernel/cpu_errata.c:445-448 | fires exactly for every variant and revision of the model |
| ErrataTable.ErrataMidrRangeList | arch/arm64/kernel/cpu_errata.c:450-453 | fires exactly for identities some range of the list covers |
| ErrataTable.ArmErrata | arch/arm64/kernel/cpu_errata.c:517-618 | the build's table: each `#if` block's entries when its options are selected, then the four entries every build has. `ErrataTable.ArmErrataSound`, `ErrataTable.ListsIffConfigured` and `ErrataTable.AffectedAsDocumented` state what it holds |
| ErrataTable.ArmErrataSound | arch/arm64/kernel/cpu_errata.c:517-618 | in every build, each entry is a per-CPU erratum and is brought in by its Kconfig options. It uses an identity matcher exactly when its capability is identity-based, has a non-empty range, and fires only for identities its comment names |
| ErrataTable.FirstFor | arch/arm64/kernel/cpu_errata.c:517-618 | every capability whose options are selected has an entry in that build's table |
| ErrataTable.ListsIffConfigured | arch/arm64/kernel/cpu_errata.c:517-618 | a capability is listed exactly when its options are selected; the last four entries are always present |
| ErrataTable.AffectedAsDocumented | arch/arm64/kernel/cpu_errata.c:518-589 | each identity-based capability fires for exactly the identities its comments name, reading pass N.x as every revision of variant N-1 (e.g. Cortex-A57 r0p0-r1p2, ThunderX T88 pass 1.x-2.1 and T81 pass 1.0). The exception is Cavium 23154, which fires for exactly the documented identities with revision at most 1 |
| ErrataTable.Cavium23154CommentGap | arch/arm64/kernel/cpu_errata.c:566-573 | ThunderX r0p2 is pass 1.x, which the 23154 comment names, yet the entry `ERRATA_MIDR_REV_RANGE(MIDR_THUNDERX, 0, 0, 1)` does not fire for it |
| ErrataTable.Witness | arch/arm64/kernel/cpu_errata.c:517-589 | an identity entry of the table that fires for an identity makes its capability affect that identity |
| ErrataTable.DocumentedCleanCache | arch/arm64/kernel/cpu_errata.c:518-537 | the two clean-cache entries together cover the Cortex-A53 revisions their comments name |
| ErrataTable.DocumentedCavium27456 | arch/arm64/kernel/cpu_errata.c:574-589 | the T88 and T81 entries together cover the ThunderX passes their comments name |
| Bringup.Match | arch/arm64/kernel/cpu_errata.c:517-618 | running one entry's matcher keeps the invariant. Each global flag moves only under its own matcher, exactly as that matcher's per-CPU verdict says. The hook returns true only when the entry can fire, and every hook except the SSBD one returns true whenever it can. Identity matchers decide from the identity alone, and only the branch predictor allocator can BUG |
| Bringup.MatchAll | arch/arm64/kernel/cpu_errata.c:517-618 | running every entry on one CPU finds a capability only through an entry for it that can fire. Every entry that fires, SSBD aside, has its capability found. The flags end as the conjunction of the entries' verdicts |
| Bringup.FiresIsAffects | arch/arm64/kernel/cpu_errata.c:27-33 | when the CPU's range membership is read from its identity, an identity entry's hook fires exactly when the entry's range covers that identity |
| Bringup.FoundIffAffected | arch/arm64/kernel/cpu_errata.c:517-589 | on a CPU of a given identity, running the table finds an identity-based capability exactly when some entry for it covers the identity |
| Bringup.FoundAsDocumented | arch/arm64/kernel/cpu_errata.c:517-589 | on a CPU of a given identity, bring-up finds each identity-based capability exactly when the entry comments name the identity, and for Cavium 23154 only at revisions 0 and 1 |
| Bringup.Run | arch/arm64/kernel/cpu_errata.c:455-457 | over any sequence of CPUs, each global flag ends true exactly when it started true and every CPU earns its verdict. The flags never go from false to true, and a BUG needs some CPU that reaches the allocator with KVM built in |
| Bringup.ArmErrataRunsMitigations | arch/arm64/kernel/cpu_errata.c:604-615 | every build's table runs `check_branch_predictor` and `has_ssbd_mitigation` |
| Bringup.SpectreV2Report | arch/arm64/kernel/cpu_errata.c:626-636 | after bring-up: "Not affected" exactly when every CPU is safe on its own; the hardening mitigation exactly when some CPU is not but every CPU is safe or firmware-hardened; "Vulnerable" exactly when some CPU is neither |
| Bringup.SpecStoreBypassReport | arch/arm64/kernel/cpu_errata.c:638-653 | after bring-up: "Not affected" exactly when every CPU is SSB-safe |

## Left out

- MIDR matching: `is_midr_in_range` and the MIDR bit layout are defined in headers this model does not include. A CPU's range membership is an input predicate (`CpuInputs.inRange`). The table's ranges are read through `Midr.Contains`, with inclusive (variant, revision) bounds.
- `MIDR_FIXED` and REVIDR masking: the macro is defined but no entry of this table uses it.
- Register access (`read_cpuid_id`, `read_cpuid_cachetype`, `read_cpuid(ID_AA64PFR0_EL1)`, `config_sctlr_el1`): register values are inputs, and the SCTLR_EL1 update is a pure function on the register value.
- `arm64_ftr_reg_ctrel0`: defined outside this file. Its system value and strict mask are inputs (`Bringup.CtrReg`).
- `__copy_hyp_vect_bpi` and `flush_icache_range`: a slot records which callback's vectors were copied into it, not the bytes.
- The `bp_lock` spinlock and concurrency: each installation is atomic, and CPUs come up one after another.
- `WARN_ON` scope checks and `preemptible()`: a wrong scope only prints a warning, so the matchers accept any scope and ignore it.
- `WARN_ON(1)` and `WARN_ON_ONCE(1)`: warnings only, with no effect on state or result. The no-conduit case of `arm64_set_ssbd_mitigation` is kept as a notice.
- Log text and `entry->desc` in messages: notices are recorded by call site.
- `sprintf` and the sysfs transport: the reports return their strings.
- `cpu_show_spectre_v1`: a constant string.
- `cpu_enable_cache_maint_trap` and the `*_indirectly_callable` wrappers: defined elsewhere, or they only return a function pointer. The table records the enable hook by name.
- The cpufeature framework: it calls `.cpu_enable` after a match and decides system-wide detection, and it is not part of this model. `Bringup` runs only the matchers.
- `early_param` registration and the parsing of `nospectre_v2` and `mitigations=off`: these are boolean inputs.
- Bringup.Match: for `has_ssbd_mitigation` it consults `arm64_ssb_cpus` directly rather than the descriptor's `.midr_range_list`. In the table these are the same list.
- CacheType.HasMismatchedCacheType: for the cache-type check, the contract says only what holds when the min-line fields are among the strict fields (as they are for CTR_EL0). An arbitrary strict mask is not characterised beyond "equal values never mismatch".
- ErrataTable.AffectedAsDocumented: for Cavium 23154 the comment says "ThunderX, pass 1.x", which is every revision of variant 0 under the reading the T88 entry's range confirms. The entry's range stops at revision 1, so the contract states the capability's identities as the documented ones with revision at most 1, and `ErrataTable.Cavium23154CommentGap` exhibits r0p2.
- Bringup.MatchAll: for the `has_ssbd_mitigation` entry the found set is bounded only by a necessary condition. The firmware must ask for the mitigation or decline it for this CPU, and mitigations=off must not be set. Its exact answer also depends on the SSBD state left by earlier CPUs, which `Ssbd.HasSsbdMitigation` states.
- BpHardening.InstallAllOneSlotPerCallback: the slot count is stated only for runs in which each CPU always asks for the same callback, which every run in this file is. A CPU that switched callbacks would leave its old slot allocated but unused, so the run could hit the BUG with fewer distinct callbacks than slots.
- SsbdCfg.SsbdCfg: the command-line argument is a sequence of characters. `strncmp` compares unsigned bytes, but only whether its result is zero reaches `ssbd_cfg`, and that is the same for characters.
