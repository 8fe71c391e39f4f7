/** The firmware interface of the Arm SMC Calling Convention (Arm DEN 0028),
    reduced to what the errata code asks of it: which conduit reaches the
    firmware, which version of the convention it speaks, what it answers to
    an SMCCC_ARCH_FEATURES query, and the calls the kernel issues. */
module Smccc {

  /** PSCI_CONDUIT_NONE / PSCI_CONDUIT_HVC / PSCI_CONDUIT_SMC: the one
      calling convention fixed system-wide at boot. */
  datatype Conduit = NoConduit | Hvc | Smc

  /** SMCCC_VERSION_1_0 is the only version the code tests for; any later
      version supports SMCCC_ARCH_FEATURES. */
  datatype Version = Version10 | Version11OrLater

  /** The firmware's answer in register a0. SMCCC_RET_SUCCESS is 0, so the
      `case 0` of the workaround-1 query is `Success`; `One` is the literal
      value 1; `Other` is any value the code does not name. */
  datatype Answer = NotSupported | NotRequired | Success | One | Other

  /** SMCCC_ARCH_WORKAROUND_1 (branch predictor hardening) and
      SMCCC_ARCH_WORKAROUND_2 (speculative store bypass disable). */
  datatype Workaround = Workaround1 | Workaround2

  /** What a firmware call asks for: an SMCCC_ARCH_FEATURES query for one
      workaround, or SMCCC_ARCH_WORKAROUND_2 with its enable argument. */
  datatype Request = ArchFeatures(queried: Workaround) | ArchWorkaround2(enable: bool)

  /** One issued firmware call: the conduit instruction it went through and
      its request. */
  datatype FwCall = FwCall(via: Conduit, request: Request)

  /** A firmware call can only be issued through a real conduit. */
  predicate Issued(c: FwCall)
  {
    c.via != NoConduit
  }

  /** Whether SMCCC_ARCH_FEATURES can be asked at all: the convention must
      be newer than 1.0 and a conduit must exist. */
  predicate CanQuery(version: Version, conduit: Conduit)
  {
    version != Version10 && conduit != NoConduit
  }
}
