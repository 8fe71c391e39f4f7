/** Kernel-level vocabulary shared by every part of the errata model: optional
    values (a NULL pointer), the outcome of a step that may hit a BUG_ON, the
    matcher scope, and "print once" logging. */
module Base {

  /** A value or its absence; stands for a possibly-NULL pointer. */
  datatype Option<+T> = None | Some(value: T)

  /** The outcome of a step guarded by a BUG_ON: either it completes with a
      value, or the kernel stops and no state survives. */
  datatype Outcome<+T> = Ok(value: T) | Bug

  /** The scope a capability matcher is invoked with. Every matcher of the
      errata table expects the local CPU scope; another scope only draws a
      WARN_ON splat and does not change what the matcher computes. */
  datatype Scope = ScopeLocalCpu | ScopeSystem

  /** No element occurs twice. */
  predicate NoDup<T(==)>(s: seq<T>)
  {
    forall i, j | 0 <= i < j < |s| :: s[i] != s[j]
  }

  /** Emits notice `n` the way pr_info_once / pr_warn_once do: the first
      occurrence is recorded, every later one is suppressed. */
  function Once<T(==)>(log: seq<T>, n: T): (r: seq<T>)
    ensures n in r
    ensures NoDup(log) ==> NoDup(r)
    ensures forall m :: m in log ==> m in r
    ensures forall m :: m in r ==> m in log || m == n
    ensures n in log ==> r == log
  {
    if n in log then log else log + [n]
  }
}
