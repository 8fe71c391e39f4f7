/** The "ssbd=" early parameter, ssbd_cfg: the first of "force-on",
    "force-off" and "kernel" that is a prefix of the argument selects the
    SSBD policy; anything else is rejected with -EINVAL. */
module SsbdCfg {
  import opened Base
  import opened State

  /** EINVAL from the kernel's errno numbering. */
  const EINVAL: int := 22

  /** One entry of ssbd_options. */
  datatype SsbdOption = SsbdOption(str: string, state: SsbdState)

  /** ssbd_options, in declaration order. */
  const SsbdOptions: seq<SsbdOption> := [
    SsbdOption("force-on", SsbdForceEnable),
    SsbdOption("force-off", SsbdForceDisable),
    SsbdOption("kernel", SsbdKernel)
  ]

  /** The character at index i of the C string stored in s; reading past
      the end of s reads the terminating NUL. */
  function At(s: seq<char>, i: nat): char
  {
    if i < |s| then s[i] else '\0'
  }

  /** No NUL among the first n characters of s. */
  predicate NoNul(s: seq<char>, n: nat)
  {
    n <= |s| && forall i | 0 <= i < n :: s[i] != '\0'
  }

  /** strncmp(a, b, n), from index i on: the sign of the first difference
      among the first n characters, stopping early at a NUL both share. */
  function StrncmpFrom(a: seq<char>, b: seq<char>, i: nat, n: nat): (r: int)
    ensures -1 <= r <= 1
    decreases if i <= n then n - i else 0
  {
    if n <= i then 0
    else if At(a, i) != At(b, i) then (if At(a, i) < At(b, i) then -1 else 1)
    else if At(a, i) == '\0' then 0
    else StrncmpFrom(a, b, i + 1, n)
  }

  /** strncmp(a, b, n). */
  function Strncmp(a: seq<char>, b: seq<char>, n: nat): int
  {
    StrncmpFrom(a, b, 0, n)
  }

  /** The option string `opt` is a prefix of the C string in `buf`. */
  predicate OptionMatches(buf: seq<char>, opt: string)
  {
    forall i | 0 <= i < |opt| :: At(buf, i) == opt[i]
  }

  /** When `b` holds no NUL in its first n characters, strncmp(a, b, n) is 0
      exactly when a's C string agrees with b on those characters. */
  lemma {:induction false} StrncmpFromZero(a: seq<char>, b: seq<char>, i: nat, n: nat)
    requires NoNul(b, n)
    ensures StrncmpFrom(a, b, i, n) == 0 <==> forall j | i <= j < n :: At(a, j) == b[j]
    decreases if i <= n then n - i else 0
  {
    if i < n {
      assert At(b, i) == b[i];
      if At(a, i) == b[i] {
        StrncmpFromZero(a, b, i + 1, n);
      }
    }
  }

  /** strncmp(buf, opt, strlen(opt)) == 0 is the prefix test. */
  lemma StrncmpIsPrefixTest(buf: seq<char>, opt: string)
    requires NoNul(opt, |opt|)
    ensures Strncmp(buf, opt, |opt|) == 0 <==> OptionMatches(buf, opt)
  {
    StrncmpFromZero(buf, opt, 0, |opt|);
  }

  /** No option string is a prefix of another, so at most one option
      matches any argument and "first match" is "the match". */
  lemma AtMostOneOption(buf: seq<char>, k: nat, k': nat)
    requires k < |SsbdOptions| && k' < |SsbdOptions| && k != k'
    ensures !(OptionMatches(buf, SsbdOptions[k].str) && OptionMatches(buf, SsbdOptions[k'].str))
  {
    if OptionMatches(buf, SsbdOptions[k].str) {
      // the first index at which the two option strings differ
      var d := if k + k' == 1 then 7 else 0;
      assert SsbdOptions[k].str[d] != SsbdOptions[k'].str[d];
      assert At(buf, d) == SsbdOptions[k].str[d];
    }
  }

  /** ssbd_cfg(buf), with `state` the current ssbd_state: returns the status
      and the new ssbd_state. A NULL or empty argument is rejected. */
  method SsbdCfg(buf: Option<seq<char>>, state: SsbdState) returns (ret: int, newState: SsbdState)
    ensures ret == 0 || ret == -EINVAL
    ensures buf.None? || At(buf.value, 0) == '\0' ==> ret == -EINVAL
    ensures ret == 0 <==>
      buf.Some? && exists k | 0 <= k < |SsbdOptions| :: OptionMatches(buf.value, SsbdOptions[k].str)
    ensures buf.Some? ==> forall k | 0 <= k < |SsbdOptions| && OptionMatches(buf.value, SsbdOptions[k].str) ::
      ret == 0 && newState == SsbdOptions[k].state
    ensures ret == -EINVAL ==> newState == state
  {
    if buf.None? || At(buf.value, 0) == '\0' {
      assert forall k | 0 <= k < |SsbdOptions| :: SsbdOptions[k].str[0] != '\0';
      return -EINVAL, state;
    }
    var s := buf.value;
    var i := 0;
    while i < |SsbdOptions|
      invariant 0 <= i <= |SsbdOptions|
      invariant forall k | 0 <= k < i :: !OptionMatches(s, SsbdOptions[k].str)
    {
      var opt := SsbdOptions[i];
      assert NoNul(opt.str, |opt.str|);
      StrncmpIsPrefixTest(s, opt.str);
      if Strncmp(s, opt.str, |opt.str|) == 0 {
        forall k | 0 <= k < |SsbdOptions| && k != i
          ensures !OptionMatches(s, SsbdOptions[k].str)
        {
          AtMostOneOption(s, i, k);
        }
        return 0, opt.state;
      }
      i := i + 1;
    }
    return -EINVAL, state;
  }
}
