/** CPU identity ranges (MIDR_EL1) as the errata table names them. How an
    identity is matched against a range is defined outside this file's
    source, so a CPU's matching is an input predicate; list membership is
    "some entry of the list matches". */
module Midr {

  /** The CPU models the table mentions. */
  datatype Model = CortexA35 | CortexA53 | CortexA55 | CortexA57 | ThunderX | ThunderX81xx

  /** MIDR_RANGE(model, v_min, r_min, v_max, r_max) and
      MIDR_ALL_VERSIONS(model). */
  datatype MidrRange =
    | Range(model: Model, variantMin: nat, revisionMin: nat, variantMax: nat, revisionMax: nat)
    | AllVersions(model: Model)

  /** The lower bound does not exceed the upper bound in the
      (variant, revision) lexicographic order. */
  predicate NonEmpty(r: MidrRange)
  {
    r.Range? ==>
      r.variantMin < r.variantMax ||
      (r.variantMin == r.variantMax && r.revisionMin <= r.revisionMax)
  }

  /** A 4-bit MIDR_EL1 field: the variant (bits [23:20]) or the revision
      (bits [3:0]). */
  type Nibble = x: nat | x < 16

  /** A CPU identity as the ranges see it: part number and implementer
      (the model), variant and revision. */
  datatype Identity = Identity(model: Model, variant: Nibble, revision: Nibble)

  /** (v1, r1) does not come after (v2, r2): the order MIDR_CPU_VAR_REV
      values compare in. */
  predicate RevLe(v1: nat, r1: nat, v2: nat, r2: nat)
  {
    v1 < v2 || (v1 == v2 && r1 <= r2)
  }

  /** The identities a range covers: the same model, and for a bounded range
      a (variant, revision) between the bounds, both inclusive. */
  predicate Contains(r: MidrRange, id: Identity)
  {
    && id.model == r.model
    && (r.Range? ==>
          RevLe(r.variantMin, r.revisionMin, id.variant, id.revision) &&
          RevLe(id.variant, id.revision, r.variantMax, r.revisionMax))
  }

  /** is_midr_in_range_list: the identity matches some entry of the list;
      the sentinel that ends the C array is not part of the sequence. */
  predicate InRangeList(inRange: MidrRange -> bool, list: seq<MidrRange>)
  {
    exists i | 0 <= i < |list| :: inRange(list[i])
  }

  /** arm64_ssb_cpus: cores known not to be vulnerable to speculative store
      bypass. */
  const ArmSsbCpus: seq<MidrRange> :=
    [AllVersions(CortexA35), AllVersions(CortexA53), AllVersions(CortexA55)]

  /** spectre_v2_safe_list: cores that need no Spectre-v2 mitigation. */
  const SpectreV2SafeList: seq<MidrRange> :=
    [AllVersions(CortexA35), AllVersions(CortexA53), AllVersions(CortexA55)]
}
