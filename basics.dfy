/** Small shared vocabulary: optional values, results, and the few string
    tests the orchestration code performs on names and paths. */
module Basics {

  datatype Option<+T> = None | Some(value: T)

  datatype Result<+T, +E> = Ok(value: T) | Err(error: E)

  datatype Outcome<+E> = Pass | Fail(error: E)

  /** Python's `sub in s` on strings. */
  predicate Contains(s: string, sub: string) {
    exists i {:trigger s[i..]} | 0 <= i <= |s| - |sub| :: s[i..][..|sub|] == sub
  }

  /** Python's `s.endswith(suffix)`. */
  predicate EndsWith(s: string, suffix: string) {
    |suffix| <= |s| && s[|s| - |suffix|..] == suffix
  }

  /** A string lacking some character of `sub` cannot contain `sub`. */
  lemma NotContainsWhenCharAbsent(s: string, sub: string, k: nat)
    requires k < |sub|
    requires forall i | 0 <= i < |s| :: s[i] != sub[k]
    ensures !Contains(s, sub)
  {
    forall i | 0 <= i <= |s| - |sub| ensures s[i..][..|sub|] != sub {
      assert s[i..][..|sub|][k] == s[i + k];
    }
  }
}
